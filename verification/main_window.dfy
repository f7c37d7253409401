/**
 * The launcher's panel: showing it at the cursor, hiding it, and the guards in
 * front of deleting a category and adding a dropped file as a shortcut. Screen and
 * window sizes are whole pixels.
 */
module Ui {

  import opened Platform
  import opened Models
  import Configuration
  import Icons

  function Min(a: int, b: int): (r: int) {
    if a <= b then a else b
  }

  function Max(a: int, b: int): (r: int) {
    if a >= b then a else b
  }

  /**
   * Where the panel's edge goes on one axis: as close to the cursor as possible
   * without passing the far edge of the screen, and never before its near edge.
   */
  function ClampAxis(position: int, extent: int, screen: int): (r: int)
    ensures r >= 0
    ensures extent <= screen ==> r + extent <= screen
    ensures 0 <= position && position + extent <= screen ==> r == position
    ensures r <= Max(position, 0)
    ensures position + extent > screen ==> r == Max(screen - extent, 0)
  {
    Max(0, Min(position, screen - extent))
  }

  /** How a click on "delete category" ends. */
  datatype DeleteCategoryOutcome =
    | Deleted            // confirmed, and RemoveCategory was called
    | Declined           // the confirmation was answered "no"
    | KeepLastCategory   // refused with a notice: only one category is left
    | NoSelection        // nothing selected: nothing happens

  /** The guard of DeleteCategory_Click, given the selection, the number of categories and the answer to the confirmation. */
  function DeleteCategoryDecision(selectedIndex: int, categoryCount: int, confirmed: bool): (r: DeleteCategoryOutcome)
    ensures r == Deleted <==> selectedIndex >= 0 && categoryCount > 1 && confirmed
    ensures r == Declined <==> selectedIndex >= 0 && categoryCount > 1 && !confirmed
    ensures r == KeepLastCategory <==> categoryCount <= 1
    ensures r == NoSelection <==> selectedIndex < 0 && categoryCount > 1
  {
    if selectedIndex >= 0 && categoryCount > 1 then
      if confirmed then Deleted else Declined
    else if categoryCount <= 1 then KeepLastCategory
    else NoSelection
  }

  /** Path.GetFileName and Path.GetFileNameWithoutExtension. */
  datatype PathNames = PathNames(fileName: string -> string, fileNameWithoutExtension: string -> string)

  /**
   * The shortcut AddShortcut builds for an existing path: a folder exactly when the
   * path is a directory, named after the last path segment (without its extension,
   * for a file).
   */
  function NewShortcut(fs: FileSystem, names: PathNames, path: string, icon: Option<Image>): (r: ShortcutItem)
    ensures r.path == path && r.icon == icon
    ensures r.itemType == Folder <==> fs.DirectoryExists(path)
    ensures fs.DirectoryExists(path) ==> r.name == names.fileName(path)
    ensures !fs.DirectoryExists(path) ==> r.name == names.fileNameWithoutExtension(path)
  {
    var isDirectory := fs.DirectoryExists(path);
    ShortcutItem(
      if isDirectory then names.fileName(path) else names.fileNameWithoutExtension(path),
      path,
      if isDirectory then Folder else Application,
      icon)
  }

  /** The panel: its visibility, its position and size, and the services it uses. */
  class MainWindow {
    const configService: Configuration.ConfigService
    const icons: Icons.IconExtractor
    var isVisible: bool
    var left: int
    var top: int
    var width: int
    var height: int

    /** Creates the hidden panel and loads the configuration. */
    constructor (file: Configuration.ConfigFile, icons: Icons.IconExtractor, width: int, height: int)
      ensures fresh(configService) && this.icons == icons
      ensures configService.config == Configuration.Loaded(DefaultConfig, file) && configService.saves == 0
      ensures !isVisible && this.width == width && this.height == height
    {
      var service := new Configuration.ConfigService();
      service.Load(file);
      configService := service;
      this.icons := icons;
      isVisible := false;
      left, top := 0, 0;
      this.width, this.height := width, height;
    }

    method Hide()
      modifies this`isVisible
      ensures !isVisible
    {
      isVisible := false;
    }

    /** Shows the panel at the cursor, moved back onto the screen where it would stick out. */
    method ShowAtCursor(cursorX: int, cursorY: int, screenWidth: int, screenHeight: int)
      modifies this`left, this`top, this`isVisible
      ensures isVisible
      ensures left == ClampAxis(cursorX, width, screenWidth)
      ensures top == ClampAxis(cursorY, height, screenHeight)
    {
      var x, y := cursorX, cursorY;
      if x + width > screenWidth { x := screenWidth - width; }
      if y + height > screenHeight { y := screenHeight - height; }
      if x < 0 { x := 0; }
      if y < 0 { y := 0; }
      left := x;
      top := y;
      isVisible := true;
    }

    /** Hides a visible panel; shows a hidden one at the cursor. */
    method ToggleVisibility(cursorX: int, cursorY: int, screenWidth: int, screenHeight: int)
      modifies this`left, this`top, this`isVisible
      ensures isVisible == !old(isVisible)
      ensures old(isVisible) ==> left == old(left) && top == old(top)
      ensures !old(isVisible) ==>
        left == ClampAxis(cursorX, width, screenWidth) && top == ClampAxis(cursorY, height, screenHeight)
    {
      if isVisible {
        Hide();
      } else {
        ShowAtCursor(cursorX, cursorY, screenWidth, screenHeight);
      }
    }

    /** DeleteCategory_Click, with the category list's selection and the user's answer as inputs. */
    method DeleteCategory(selectedIndex: int, confirmed: bool) returns (outcome: DeleteCategoryOutcome)
      modifies configService
      ensures outcome == DeleteCategoryDecision(selectedIndex, |old(configService.config.categories)|, confirmed)
      ensures configService.config ==
        if outcome == Deleted then Configuration.RemoveCategoryAt(old(configService.config), selectedIndex)
        else old(configService.config)
      ensures configService.saves == old(configService.saves) +
        (if outcome == Deleted && Configuration.RemovesCategory(old(configService.config), selectedIndex) then 1 else 0)
    {
      if selectedIndex >= 0 && |configService.config.categories| > 1 {
        if confirmed {
          configService.RemoveCategory(selectedIndex);
          outcome := Deleted;
        } else {
          outcome := Declined;
        }
      } else if |configService.config.categories| <= 1 {
        outcome := KeepLastCategory;
      } else {
        outcome := NoSelection;
      }
    }

    /** AddShortcut for a dropped path, added to the selected category. */
    method AddShortcut(path: string, shell: Icons.Shell, names: PathNames, selectedIndex: int)
      modifies configService, icons
      ensures !shell.fs.PathExists(path) ==> unchanged(configService) && unchanged(icons)
      ensures shell.fs.PathExists(path) ==>
        var lookup := Icons.GetIconStep(shell, old(icons.entries), path);
        && icons.entries == lookup.entries
        && icons.released == old(icons.released) + lookup.released
        && icons.resolutions == old(icons.resolutions) + (if lookup.resolved then 1 else 0)
        && configService.saves ==
           old(configService.saves) + (if Configuration.CategoryInRange(old(configService.config), selectedIndex) then 1 else 0)
        && configService.config ==
           Configuration.AddItemTo(old(configService.config), selectedIndex, NewShortcut(shell.fs, names, path, lookup.icon))
    {
      if !shell.fs.PathExists(path) {
        return;
      }
      var isDirectory := shell.fs.DirectoryExists(path);
      var name := names.fileNameWithoutExtension(path);
      if isDirectory {
        name := names.fileName(path);
      }
      var icon := icons.GetIcon(shell, path);
      var item := ShortcutItem(name, path, if isDirectory then Folder else Application, icon);
      configService.AddItem(selectedIndex, item);
    }
  }
}
