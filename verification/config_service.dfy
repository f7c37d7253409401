/**
 * The configuration service: loads the configuration, guarantees one category,
 * and edits the category and shortcut lists with bounds checks. Writing the file is
 * abstracted to a count of saves; reading it to what the read produced.
 */
module Configuration {

  import opened Platform
  import opened Models

  /** Name of the category added when the configuration has none. */
  const DefaultCategoryName: string := "默认分类"

  /**
   * What Load finds: no configuration file; a file whose reading or parsing throws;
   * or a parsed document (None when the document is the JSON literal null).
   */
  datatype ConfigFile = NoFile | Unreadable | Parsed(document: Option<AppConfig>)

  /**
   * The configuration after Load: the parsed one (a fresh default for null or an
   * exception), or the current one when there is no file; and then one category
   * named DefaultCategoryName, with no items, when that configuration has none.
   */
  function Loaded(current: AppConfig, file: ConfigFile): (r: AppConfig)
    ensures |r.categories| >= 1
    ensures file == NoFile && current.categories != [] ==> r == current
    ensures file.Parsed? && file.document.Some? && file.document.value.categories != [] ==> r == file.document.value
    ensures file == Unreadable || file == Parsed(None) ==>
      r == AppConfig([NewCategory(DefaultCategoryName)], false, 0)
    ensures var read := if file == NoFile then current else if file.Parsed? && file.document.Some? then file.document.value else DefaultConfig;
      read.categories == [] ==> r == read.(categories := [NewCategory(DefaultCategoryName)])
  {
    var read :=
      match file
      case NoFile => current
      case Unreadable => DefaultConfig
      case Parsed(document) => if document.Some? then document.value else DefaultConfig;
    if |read.categories| == 0 then read.(categories := read.categories + [NewCategory(DefaultCategoryName)]) else read
  }

  /** AddCategory: one empty category with the given name is appended; nothing else changes. */
  function AddCategoryTo(config: AppConfig, name: string): (r: AppConfig)
    ensures |r.categories| == |config.categories| + 1
    ensures r.categories[..|config.categories|] == config.categories
    ensures r.categories[|config.categories|] == CategoryModel(name, [])
    ensures r.autoStart == config.autoStart && r.selectedCategoryIndex == config.selectedCategoryIndex
  {
    config.(categories := config.categories + [NewCategory(name)])
  }

  /** RemoveCategory acts only on an index in range, and never on the last category. */
  predicate RemovesCategory(config: AppConfig, index: int) {
    0 <= index < |config.categories| && |config.categories| > 1
  }

  /**
   * RemoveCategory: the indexed category is removed, the rest keep their order,
   * and a selection beyond the new end moves to the new last category.
   */
  function RemoveCategoryAt(config: AppConfig, index: int): (r: AppConfig)
    ensures !RemovesCategory(config, index) ==> r == config
    ensures RemovesCategory(config, index) ==>
      && |r.categories| == |config.categories| - 1
      && (forall j :: 0 <= j < index ==> r.categories[j] == config.categories[j])
      && (forall j :: index <= j < |r.categories| ==> r.categories[j] == config.categories[j + 1])
      && r.autoStart == config.autoStart
    ensures RemovesCategory(config, index) && config.selectedCategoryIndex >= |config.categories| - 1 ==>
      r.selectedCategoryIndex == |config.categories| - 2
    ensures config.selectedCategoryIndex < |config.categories| - 1 ==>
      r.selectedCategoryIndex == config.selectedCategoryIndex
    // at least one category remains, and an in-range selection stays in range
    ensures |config.categories| >= 1 ==> |r.categories| >= 1
    ensures 0 <= config.selectedCategoryIndex < |config.categories| ==>
      0 <= r.selectedCategoryIndex < |r.categories|
  {
    if 0 <= index < |config.categories| && |config.categories| > 1 then
      var categories := config.categories[..index] + config.categories[index + 1..];
      var selected := if config.selectedCategoryIndex >= |categories| then |categories| - 1 else config.selectedCategoryIndex;
      config.(categories := categories, selectedCategoryIndex := selected)
    else
      config
  }

  predicate CategoryInRange(config: AppConfig, categoryIndex: int) {
    0 <= categoryIndex < |config.categories|
  }

  /** AddItem: the item is appended to the indexed category only; out of range, nothing changes. */
  function AddItemTo(config: AppConfig, categoryIndex: int, item: ShortcutItem): (r: AppConfig)
    ensures !CategoryInRange(config, categoryIndex) ==> r == config
    ensures |r.categories| == |config.categories|
    ensures r.autoStart == config.autoStart && r.selectedCategoryIndex == config.selectedCategoryIndex
    ensures forall j :: 0 <= j < |r.categories| && j != categoryIndex ==> r.categories[j] == config.categories[j]
    ensures CategoryInRange(config, categoryIndex) ==>
      var before := config.categories[categoryIndex];
      var after := r.categories[categoryIndex];
      after.name == before.name && |after.items| == |before.items| + 1 &&
      after.items[..|before.items|] == before.items && after.items[|before.items|] == item
  {
    if 0 <= categoryIndex < |config.categories| then
      var category := config.categories[categoryIndex];
      config.(categories := config.categories[categoryIndex := category.(items := category.items + [item])])
    else
      config
  }

  /** RemoveItem acts only when both indices are in range. */
  predicate RemovesItem(config: AppConfig, categoryIndex: int, itemIndex: int) {
    CategoryInRange(config, categoryIndex) && 0 <= itemIndex < |config.categories[categoryIndex].items|
  }

  /** RemoveItem: exactly the indexed item of the indexed category is removed; the rest keep their order. */
  function RemoveItemAt(config: AppConfig, categoryIndex: int, itemIndex: int): (r: AppConfig)
    ensures !RemovesItem(config, categoryIndex, itemIndex) ==> r == config
    ensures |r.categories| == |config.categories|
    ensures r.autoStart == config.autoStart && r.selectedCategoryIndex == config.selectedCategoryIndex
    ensures forall j :: 0 <= j < |r.categories| && j != categoryIndex ==> r.categories[j] == config.categories[j]
    ensures RemovesItem(config, categoryIndex, itemIndex) ==>
      var before := config.categories[categoryIndex].items;
      var after := r.categories[categoryIndex].items;
      && r.categories[categoryIndex].name == config.categories[categoryIndex].name
      && |after| == |before| - 1
      && (forall k :: 0 <= k < itemIndex ==> after[k] == before[k])
      && (forall k :: itemIndex <= k < |after| ==> after[k] == before[k + 1])
  {
    if 0 <= categoryIndex < |config.categories| then
      var category := config.categories[categoryIndex];
      if 0 <= itemIndex < |category.items| then
        var items := category.items[..itemIndex] + category.items[itemIndex + 1..];
        config.(categories := config.categories[categoryIndex := category.(items := items)])
      else
        config
    else
      config
  }

  /** Removing the category just added restores the configuration when the selection was not past the end. */
  lemma AddThenRemoveCategoryRestores(config: AppConfig, name: string)
    requires |config.categories| >= 1 && config.selectedCategoryIndex < |config.categories|
    ensures RemoveCategoryAt(AddCategoryTo(config, name), |config.categories|) == config
  {
  }

  /** Removing the item just added restores the configuration. */
  lemma AddThenRemoveItemRestores(config: AppConfig, categoryIndex: int, item: ShortcutItem)
    requires CategoryInRange(config, categoryIndex)
    ensures RemoveItemAt(AddItemTo(config, categoryIndex, item), categoryIndex, |config.categories[categoryIndex].items|) == config
  {
    var n := |config.categories[categoryIndex].items|;
    var removed := RemoveItemAt(AddItemTo(config, categoryIndex, item), categoryIndex, n);
    assert removed.categories[categoryIndex] == config.categories[categoryIndex];
    assert removed.categories == config.categories;
  }

  /** The configuration service: the configuration it holds and how often it has been saved. */
  class ConfigService {
    var config: AppConfig
    var saves: nat

    constructor ()
      ensures config == DefaultConfig && saves == 0
    {
      config := DefaultConfig;
      saves := 0;
    }

    method Load(file: ConfigFile)
      modifies this`config
      ensures config == Loaded(old(config), file)
    {
      match file {
        case NoFile =>
        case Unreadable => config := DefaultConfig;
        case Parsed(document) =>
          config := if document.Some? then document.value else DefaultConfig;
      }
      if |config.categories| == 0 {
        config := config.(categories := config.categories + [NewCategory(DefaultCategoryName)]);
      }
    }

    /** Writes the configuration; the write, and any error it raises, is not modelled. */
    method Save()
      modifies this`saves
      ensures saves == old(saves) + 1
    {
      saves := saves + 1;
    }

    method AddCategory(name: string)
      modifies this
      ensures config == AddCategoryTo(old(config), name)
      ensures saves == old(saves) + 1
    {
      config := config.(categories := config.categories + [NewCategory(name)]);
      Save();
    }

    method RemoveCategory(index: int)
      modifies this
      ensures config == RemoveCategoryAt(old(config), index)
      ensures saves == old(saves) + (if RemovesCategory(old(config), index) then 1 else 0)
    {
      if index >= 0 && index < |config.categories| && |config.categories| > 1 {
        config := config.(categories := config.categories[..index] + config.categories[index + 1..]);
        if config.selectedCategoryIndex >= |config.categories| {
          config := config.(selectedCategoryIndex := |config.categories| - 1);
        }
        Save();
      }
    }

    method AddItem(categoryIndex: int, item: ShortcutItem)
      modifies this
      ensures config == AddItemTo(old(config), categoryIndex, item)
      ensures saves == old(saves) + (if CategoryInRange(old(config), categoryIndex) then 1 else 0)
    {
      if categoryIndex >= 0 && categoryIndex < |config.categories| {
        var category := config.categories[categoryIndex];
        config := config.(categories := config.categories[categoryIndex := category.(items := category.items + [item])]);
        Save();
      }
    }

    method RemoveItem(categoryIndex: int, itemIndex: int)
      modifies this
      ensures config == RemoveItemAt(old(config), categoryIndex, itemIndex)
      ensures saves == old(saves) + (if RemovesItem(old(config), categoryIndex, itemIndex) then 1 else 0)
    {
      if categoryIndex >= 0 && categoryIndex < |config.categories| {
        var category := config.categories[categoryIndex];
        if itemIndex >= 0 && itemIndex < |category.items| {
          category := category.(items := category.items[..itemIndex] + category.items[itemIndex + 1..]);
          config := config.(categories := config.categories[categoryIndex := category]);
          Save();
        }
      }
    }
  }
}
