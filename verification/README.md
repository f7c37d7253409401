# File Manager Assistant: a verified model of its core

File Manager Assistant is a Windows shortcut launcher. A global low-level mouse
hook watches for two presses of the middle button within 500 ms and toggles a
panel that shows categories of shortcuts to folders and applications; each
shortcut shows the shell icon of its path, resolved once and cached. This
project models, in Dafny, the four pieces of logic behind that:

- `mouse_hook.dfy` (module `MouseHook`): the hook procedure's double-press state
  machine (`_lastMiddleClickTime`, `_clickCount`), the filter in front of it, the
  forwarding of every event to the next hook, and the `Start`/`Stop`/`Dispose`
  lifecycle of the hook handle. Clock readings are integer milliseconds passed in;
  `DateTime.MinValue` is a distinct value `MinValue` that no reading is within
  500 ms of; the "double-clicked" event is a counter; the next hook in the chain is
  a function parameter.
- `icon_extractor.dfy` (module `Icons`): `GetIcon` and `ClearCache` over the
  process-wide cache, with `SHGetFileInfo`, `ExtractAssociatedIcon`,
  `CreateBitmapSourceFromHIcon` and the existence checks as oracles; images are
  opaque values with a `frozen` flag; native handles are integers (0 is null), and
  the handles released are recorded in order.
- `config_service.dfy` (module `Configuration`): `Load` (with what the file read
  produced as input), `AddCategory`, `RemoveCategory`, `AddItem`, `RemoveItem`;
  `Save` is a count of saves. The data types are in `models.dfy`.
- `main_window.dfy` (module `Ui`): `ToggleVisibility`, the on-screen clamp of
  `ShowAtCursor`, the guard of `DeleteCategory_Click` and `AddShortcut`.
- `platform.dfy` (module `Platform`): `Option`, the file-system oracle (one `kind`
  per path, so `File.Exists`, `Directory.Exists` and `Path.Exists` agree) and
  the image value.

Each class method is proved against a pure function of the old state, and the
properties are proved about those functions.

Behaviour of the code that the model keeps as written:

- After a double press fires, line 64 of `MouseHookService.cs` resets the last
  press time to `MinValue`, but line 73 then stores the press's own time, so the
  state after a fire is count 0, last press = that press. `MouseHook.ResetToNeverIsUnobservable`
  proves that a detector that did keep "never" would fire on exactly the same
  events: with a count of 0 the next press leads to the same state either way.
- A press whose clock reading is earlier than the last one (a clock set back)
  has a negative elapsed time and counts as within the window.
- The cache key is the raw path string. Paths that differ only in letter case or a
  trailing separator are different entries.
- The primary icon handle is destroyed only after a successful conversion; if
  `CreateBitmapSourceFromHIcon` throws, `DestroyIcon` is skipped. The icon from
  `ExtractAssociatedIcon` is disposed on every path once obtained (`using`).
- A cached path that no longer exists returns null, and its entry stays.

## Model

| member | source | states |
|---|---|---|
| `MouseHook.OnMiddlePress` | FileManagerAssistant/Services/MouseHookService.cs:53-73 | after a press the last press time is that press; it fires exactly when it comes within 500 ms (inclusive) of the last press while the count is at least 1, and then the count is 0; a press outside the window sets the count to 1 without firing; a count of 0 or 1 stays 0 or 1 |
| `MouseHook.OnEvent` | FileManagerAssistant/Services/MouseHookService.cs:51 | an event that is not a middle-button press with a non-negative hook code leaves the click state unchanged and does not fire |
| `MouseHook.OnMiddlePressResettingToNever` | FileManagerAssistant/Services/MouseHookService.cs:62-64 | the design in which a fire leaves the last press at "never": after a fire the state is (never, 0) |
| `MouseHook.RunKeepsCountBinary` | FileManagerAssistant/Services/MouseHookService.cs:13-14 | from a count of 0 or 1 (the initial state included), the count is 0 or 1 after any sequence of events |
| `MouseHook.FiresConsumeTwoPresses` | FileManagerAssistant/Services/MouseHookService.cs:56-73 | twice the number of fires plus the final count never exceeds the presses seen plus the initial count: the press that fires cannot start the next pair |
| `MouseHook.FiresAtMostHalfThePresses` | FileManagerAssistant/Services/MouseHookService.cs:13-73 | from the initial state, n presses give at most n / 2 fires, so two fires need at least four presses |
| `MouseHook.ResetToNeverIsUnobservable` | FileManagerAssistant/Services/MouseHookService.cs:62-73 | the overwritten reset at line 64 is unobservable: the hook and the "reset to never" design fire on exactly the same events of any sequence |
| `MouseHook.SecondPressFiresThirdRestarts` | FileManagerAssistant/Services/MouseHookService.cs:56-73 | presses at 0, 300 and 301 ms fire only at 300, ending with count 1 and last press 301 |
| `MouseHook.PressesTooFarApartDoNotFire` | FileManagerAssistant/Services/MouseHookService.cs:67-73 | presses at 0 and 600 ms do not fire and leave count 1 and last press 600 |
| `MouseHook.PressesAtThresholdFire` | FileManagerAssistant/Services/MouseHookService.cs:15-65 | presses exactly 500 ms apart fire |
| `MouseHook.MouseHookService.constructor` | FileManagerAssistant/Services/MouseHookService.cs:8-14 | no hook installed, not disposed, last press "never", count 0 |
| `MouseHook.MouseHookService.Start` | FileManagerAssistant/Services/MouseHookService.cs:24-27 | the hook handle becomes what the installation returned |
| `MouseHook.MouseHookService.Stop` | FileManagerAssistant/Services/MouseHookService.cs:29-36 | unhooks the handle only when it is non-zero, then the handle is 0; a second Stop changes nothing |
| `MouseHook.MouseHookService.Dispose` | FileManagerAssistant/Services/MouseHookService.cs:84-92 | the first call stops the hook and marks the service disposed; later calls change nothing |
| `MouseHook.MouseHookService.HookCallback` | FileManagerAssistant/Services/MouseHookService.cs:49-76 | the click state and the number of raised double-click events change as `OnEvent` says, and the result is always the next hook's result for the same arguments |
| `Icons.Primary` | FileManagerAssistant/Services/IconExtractor.cs:27-44 | the shell's icon is used only when both the call result and the handle are non-zero; then a successful conversion gives that image and a conversion that throws is a fault (which skips the fallback); the handle is released after a successful conversion and not when the conversion throws |
| `Icons.Fallback` | FileManagerAssistant/Services/IconExtractor.cs:47-57 | an extracted icon that converts gives that image, and one whose conversion throws is a fault; an extraction that throws is a fault; no associated icon gives no image; an extracted icon is released whether or not its conversion succeeds |
| `Icons.Resolve` | FileManagerAssistant/Services/IconExtractor.cs:25-57 | the fallback is tried only when the primary found nothing without an exception and the path is an existing file; for anything else (a directory in particular) the primary result stands |
| `Icons.GetIconStep` | FileManagerAssistant/Services/IconExtractor.cs:15-71 | an empty or missing path gives null and touches nothing (a stale entry stays); a hit returns the stored image without resolving; a miss resolves once, and a success is frozen, stored under the exact path and returned; a failure or exception gives null and stores nothing; other entries never change; all cached images stay frozen |
| `Icons.SecondLookupIsHit` | FileManagerAssistant/Services/IconExtractor.cs:20-65 | asking again for a path that just produced an image returns the same image without resolving again |
| `Icons.FailureIsRetried` | FileManagerAssistant/Services/IconExtractor.cs:59-65 | after a failed resolution the next call for the same existing path resolves again |
| `Icons.ClearedCacheResolvesAgain` | FileManagerAssistant/Services/IconExtractor.cs:73-76 | after the cache is cleared, every existing non-empty path is a miss |
| `Icons.IconExtractor.constructor` | FileManagerAssistant/Services/IconExtractor.cs:13 | the cache starts empty |
| `Icons.IconExtractor.GetIcon` | FileManagerAssistant/Services/IconExtractor.cs:15-71 | returns, stores, releases and resolves as `GetIconStep` says; keeps every cached image frozen |
| `Icons.IconExtractor.ClearCache` | FileManagerAssistant/Services/IconExtractor.cs:73-76 | the cache is empty |
| `Configuration.Loaded` | FileManagerAssistant/Services/ConfigService.cs:23-43 | after loading there is at least one category: a loaded non-empty list is kept, an empty one gets one category "默认分类" with no items; a read or parse failure or a null document gives the default configuration plus that category; with no file the current configuration is kept |
| `Configuration.AddCategoryTo` | FileManagerAssistant/Services/ConfigService.cs:58-62 | one category with the name and no items is appended; existing categories and the other settings are unchanged |
| `Configuration.RemoveCategoryAt` | FileManagerAssistant/Services/ConfigService.cs:64-75 | nothing changes unless the index is in range and more than one category exists; otherwise exactly that category is removed and the rest keep their order; a selection past the new end becomes the last index, any other selection is kept; at least one category and an in-range selection are preserved |
| `Configuration.AddItemTo` | FileManagerAssistant/Services/ConfigService.cs:77-84 | an out-of-range category index changes nothing; otherwise the item is appended to that category only |
| `Configuration.RemoveItemAt` | FileManagerAssistant/Services/ConfigService.cs:86-97 | unless both indices are valid nothing changes; otherwise exactly that item is removed, the others keep their order, and other categories are unchanged |
| `Configuration.AddThenRemoveCategoryRestores` | FileManagerAssistant/Services/ConfigService.cs:58-75 | removing the category just added restores the configuration, when the selection was not past the end |
| `Configuration.AddThenRemoveItemRestores` | FileManagerAssistant/Services/ConfigService.cs:77-97 | removing the item just appended restores the configuration |
| `Configuration.ConfigService.constructor` | FileManagerAssistant/Services/ConfigService.cs:15-21 | starts with the default configuration (no categories, selection 0) and no saves |
| `Configuration.ConfigService.Load` | FileManagerAssistant/Services/ConfigService.cs:23-43 | the configuration becomes `Loaded` of the old one and the file's contents |
| `Configuration.ConfigService.Save` | FileManagerAssistant/Services/ConfigService.cs:45-56 | one more save |
| `Configuration.ConfigService.AddCategory` | FileManagerAssistant/Services/ConfigService.cs:58-62 | the configuration becomes `AddCategoryTo` of the old one, and it is saved once |
| `Configuration.ConfigService.RemoveCategory` | FileManagerAssistant/Services/ConfigService.cs:64-75 | the configuration becomes `RemoveCategoryAt` of the old one; it is saved exactly when a category was removed |
| `Configuration.ConfigService.AddItem` | FileManagerAssistant/Services/ConfigService.cs:77-84 | the configuration becomes `AddItemTo` of the old one; it is saved exactly when the category index is in range |
| `Configuration.ConfigService.RemoveItem` | FileManagerAssistant/Services/ConfigService.cs:86-97 | the configuration becomes `RemoveItemAt` of the old one; it is saved exactly when an item was removed |
| `Ui.ClampAxis` | FileManagerAssistant/MainWindow.xaml.cs:94-97 | the panel edge is never negative; if the panel fits on the screen it ends on the screen; a cursor position at which the panel fits is kept; a panel sticking out past the far edge is moved back to it (or to 0) |
| `Ui.DeleteCategoryDecision` | FileManagerAssistant/MainWindow.xaml.cs:136-151 | deletion is attempted exactly when a category is selected, more than one exists and the user confirms; with one category or fewer a notice is shown instead |
| `Ui.NewShortcut` | FileManagerAssistant/MainWindow.xaml.cs:196-206 | the new shortcut keeps the path and the icon; it is a folder exactly when the path is a directory, named by file name for a directory and by file name without extension otherwise |
| `Ui.MainWindow.constructor` | FileManagerAssistant/MainWindow.xaml.cs:18-22 | a hidden panel whose configuration service has loaded the configuration |
| `Ui.MainWindow.ShowAtCursor` | FileManagerAssistant/MainWindow.xaml.cs:85-103 | the panel is visible, at the cursor clamped onto the screen axis by axis as `ClampAxis` says |
| `Ui.MainWindow.ToggleVisibility` | FileManagerAssistant/MainWindow.xaml.cs:73-83 | a visible panel is hidden and keeps its position; a hidden one is shown at the clamped cursor position |
| `Ui.MainWindow.DeleteCategory` | FileManagerAssistant/MainWindow.xaml.cs:136-151 | the outcome is `DeleteCategoryDecision`; the configuration changes only on a confirmed deletion, and then as `RemoveCategoryAt` says |
| `Ui.MainWindow.AddShortcut` | FileManagerAssistant/MainWindow.xaml.cs:192-210 | a path that does not exist changes nothing; otherwise the icon is looked up through the cache (entries, released handles and resolution count as `GetIconStep` says), the shortcut `NewShortcut` builds is added to the selected category as `AddItemTo` says, and the configuration is saved once exactly when the category index is in range |

## Left out

- Win32 and shell calls (`SetWindowsHookEx`, `UnhookWindowsHookEx`, `CallNextHookEx`, `GetCursorPos`, `SHGetFileInfo`, `DestroyIcon`, `ExtractAssociatedIcon`, `CreateBitmapSourceFromHIcon`) are oracles or parameters; FileManagerAssistant/Helpers/Win32Api.cs is not part of this model, and `WM_MBUTTONDOWN` is the standard Win32 value 0x0207.
- Finding the module handle in `SetHook` is left out; `Start` takes the handle the installation returned. A second `Start` overwrites the handle without unhooking the first, as the code does.
- `MouseHook.MouseHookService.HookCallback`: the hook runs on the operating system's input thread and the event is delivered to the panel through `Dispatcher.Invoke` (FileManagerAssistant/App.xaml.cs:87-90); the model raises the event synchronously and counts it. The callback has no exception handler, and none is modelled.
- Clock readings are integer milliseconds; `DateTime`, `TotalMilliseconds` as a double and clock resolution are left out.
- `Icons.IconExtractor`: the cache is one object instead of a static field; concurrent callers are left out. The freezing of an image is a flag; an exception from `Freeze` is not modelled.
- `Configuration.ConfigService.Save`: JSON serialisation and the file write (whose errors are swallowed) are left out; only the count of saves is kept. `Load` takes the outcome of reading and parsing the file as input. A parsed document whose category list is the JSON `null` (which would throw outside the `try`) cannot be expressed, since lists are sequences.
- Categories and items are values, so the sharing of the `Items` lists and `ShortcutItem` objects with the UI (aliasing) is not captured.
- `Ui.ClampAxis`: window width, height and screen size are integers; the WPF double arithmetic and the `(int)` truncation are left out.
- `Ui.MainWindow`: the category list's selection is a parameter; `LoadCategories`, `RefreshItems` (which also fills item icons through the cache), `CategoryList_SelectionChanged`, rename and delete-item handlers, drag-over and drop handling, context menus, `ShowModernInputDialog`, message boxes (the answer is a parameter), `Activate` and hiding on deactivation are UI and not modelled.
- `Ui.NewShortcut`: `Path.GetFileName` and `Path.GetFileNameWithoutExtension` are parameters.
- Tray icon and menu (`App.xaml.cs`), the registry-based auto-start switch (`AutoStartService.cs`) and process launching (`LaunchService.cs`) are I/O and not modelled.
