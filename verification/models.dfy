/** The persisted data of the launcher: categories of shortcuts and application settings. */
module Models {

  import opened Platform

  /** What a shortcut opens. */
  datatype ItemType = Folder | Application

  /** One shortcut. `icon` is a display cache, not persisted; it holds an image or nothing. */
  datatype ShortcutItem = ShortcutItem(name: string, path: string, itemType: ItemType, icon: Option<Image>)

  /** A named group of shortcuts. */
  datatype CategoryModel = CategoryModel(name: string, items: seq<ShortcutItem>)

  /** The whole configuration. */
  datatype AppConfig = AppConfig(categories: seq<CategoryModel>, autoStart: bool, selectedCategoryIndex: int)

  /** A category as `new CategoryModel { Name = name }` creates it: no items. */
  function NewCategory(name: string): CategoryModel {
    CategoryModel(name, [])
  }

  /** `new AppConfig()`: no categories, auto-start off, first category selected. */
  const DefaultConfig: AppConfig := AppConfig([], false, 0)
}
