# tk-3dsmax core, modelled in Dafny

This is a model of the core of the Shotgun Toolkit engine for Autodesk 3ds Max (tk-3dsmax). It covers four parts:

- **Storage-root re-pathing** (`env_var_resolver.dfy`, module `EnvVarResolver`).
  - On save, each storage root whose configured path still holds environment variables is written into the scene as a persistent MaxScript global: `SGTK_storage_lookup_<digest> = #("<raw>", "<expanded>")`.
  - On open or merge, those globals are read back into an `expanded -> raw` table.
  - Each asset whose file name starts with a recorded expanded root is then retargeted onto that root, as the current environment expands it.
- **The MaxPlus "Shotgun" menu** (`maxplus_menu.dfy`, module `MaxPlusMenu`). The menu holds, in order:
  - a context submenu: two jump actions, a separator, then the context-menu commands;
  - a separator;
  - the favourites, in settings order;
  - a separator;
  - one section per app, in sorted order. An app with several commands gets a submenu. An app with a single command that is not a favourite gets that command as a plain item.
- **The blur popup menus** (`max_menu.dfy`, module `MaxMenu`).
  - The generator holds at most one work-area popup and one apps popup, and closes both before opening a new one.
  - Every popup is 200 by 300. It is centred horizontally on the pressed button, and its bottom edge lies 10 pixels below the button's centre.
- **The engine** (`engine.dfy`, module `Engine`).
  - The version gate accepts only 3ds Max 2012 (major version 14000).
  - The two menu-bar callbacks read the bar's position from the text `[left,top]`, add the button offset (165 or 285 across, 28 down) and open the matching popup.

Supporting modules:

- `Wrappers` holds `Option` and `Result`.
- `Commands` holds a command's name and its `app`/`type` properties.
- `PyBuiltins` models the Python behaviour the core relies on:
  - `str.split` with a one-character separator;
  - `s[1:-1]`;
  - Python 2 `int()` and `str()` on integers;
  - `sorted()` on `str`;
  - insertion-ordered dictionaries, as association lists.

Host calls are modelled as follows:

- Functions of the host become parameters: `os.path.expandvars`, `ShotgunPath.expand` and the MD5 hex digest are functions `string -> string`. The Max version number, the position text, `str(context)` and `engine.commands` become plain values.
- The 3ds Max asset manager becomes the `AssetManager` class.
- The MaxPlus menu builders become the lists of entries they are given.
- Blur dialogs become the `Popup` class.

## Model

| member | source | states |
|---|---|---|
| PyBuiltins.Split | engine.py:84 | `str.split(",")` yields one more field than there are commas, no field holds a comma, and joining the fields with the comma gives the input back |
| PyBuiltins.SplitTwoFields | engine.py:84 | a comma-free `a` and `b` joined by one comma split into exactly `[a, b]` |
| PyBuiltins.DropEnds | engine.py:84 | `s[1:-1]` drops the first and last character, and is empty for strings shorter than two |
| PyBuiltins.SignedDigitsParse | engine.py:85-86 | a sign, any run of blanks and then digits reads as the signed value of the digits, as Python 2's `int()` does |
| PyBuiltins.ParseIntOfIntToString | engine.py:85-86 | `int(str(i)) == i` for every integer, negative ones included |
| PyBuiltins.SortStringsCorrect | python/tk_3dsmaxplus/menu_generation.py:178 | `sorted()` of the group names is ordered by code point and is a permutation of the keys |
| PyBuiltins.DictSetGet | python/tk_3dsmaxplus/menu_generation.py:95-97 | after `d[k] = v`, reading `k` gives `v` and every other key reads as before |
| PyBuiltins.DictSetKeys | python/tk_3dsmaxplus/menu_generation.py:95-97 | `d[k] = v` keeps the key order and appends a key the dict did not have |
| PyBuiltins.DictSetDistinct | python/tk_3dsmax/env_var_resolver.py:104 | dict keys stay pairwise distinct under `d[k] = v` |
| PyBuiltins.DictSetTwice | python/tk_3dsmaxplus/menu_generation.py:95-97 | creating an empty group and then writing it equals writing it once |
| PyBuiltins.DictGetPresent | python/tk_3dsmaxplus/menu_generation.py:95 | `d.get(k)` finds a value exactly when `k` is among the keys |
| Commands.TypeOf | python/tk_3dsmaxplus/menu_generation.py:252-256 | a command's type is its `type` property, or `"default"` when the property is absent |
| EnvVarResolver.RecordedRoots | python/tk_3dsmax/env_var_resolver.py:44-61 | exactly the storages with a non-empty current-OS path whose expansion differs from it are recorded, each paired with its expansion |
| EnvVarResolver.GenerateVariableName | python/tk_3dsmax/env_var_resolver.py:82-90 | every persistent variable name starts with `SGTK_storage_lookup_` |
| EnvVarResolver.StoreScripts | python/tk_3dsmax/env_var_resolver.py:68-78 | one assignment per recorded root, in order, of the escaped pair literal to that root's variable |
| EnvVarResolver.StoreEnvVarLookup | python/tk_3dsmax/env_var_resolver.py:31-80 | with no current engine nothing is stored; otherwise the stored assignments are those of the recorded roots, and every name carries the prefix |
| EnvVarResolver.EscapeAppend | python/tk_3dsmax/env_var_resolver.py:69 | `replace("\\", "\\\\")` distributes over concatenation |
| EnvVarResolver.EscapeWithoutBackslash | python/tk_3dsmax/env_var_resolver.py:69 | escaping leaves a string with no backslash unchanged |
| EnvVarResolver.EscapeAround | python/tk_3dsmax/env_var_resolver.py:69 | escaping the whole formatted literal escapes only the two paths when the fixed parts hold no backslash |
| EnvVarResolver.PairLiteralShape | python/tk_3dsmax/env_var_resolver.py:69 | the stored literal is `#("` escaped raw `", "` escaped expanded `")` |
| EnvVarResolver.ReadEscapedBody | python/tk_3dsmax/env_var_resolver.py:78 | MaxScript reads an escaped, quote-free string body back to the original text, stopping at the closing quote |
| EnvVarResolver.PairLiteralReadsBack | python/tk_3dsmax/env_var_resolver.py:69-78 | the stored literal evaluates back to the array `[raw, expanded]` when neither path holds a double quote |
| EnvVarResolver.LookupLastWins | python/tk_3dsmax/env_var_resolver.py:98-106 | a successfully read lookup has distinct keys, and each key maps to the raw path of the last prefixed global that has that expanded path |
| EnvVarResolver.LookupFailureSticks | python/tk_3dsmax/env_var_resolver.py:100-104 | once a prefixed global is not a pair, reading raises, whatever follows |
| EnvVarResolver.RetrieveStorageLookup | python/tk_3dsmax/env_var_resolver.py:92-106 | the loop over the gathered globals computes the lookup specification, including its error |
| EnvVarResolver.StoreThenRetrieve | python/tk_3dsmax/env_var_resolver.py:68-106 | saving the recorded roots into a scene whose earlier globals (from earlier saves or merges) read as a lookup, then reading every global back, gives that earlier lookup with each recorded pair written in as `expanded -> raw` |
| EnvVarResolver.FreshSceneStoreThenRetrieve | python/tk_3dsmax/env_var_resolver.py:68-106 | in a scene without earlier lookup globals, the saved roots read back as the `expanded -> raw` dict of those roots alone |
| EnvVarResolver.LookupOfRootsKeeps | python/tk_3dsmax/env_var_resolver.py:98-104 | a lookup entry kept from an earlier save or a merge keeps its raw path unless a newly saved root has the same expanded path |
| EnvVarResolver.LookupOfRootsLatest | python/tk_3dsmax/env_var_resolver.py:98-104 | a newly saved root's expanded path maps to the raw path of the last root saved with it, whatever the earlier lookup held |
| EnvVarResolver.GetNewPathFirstMatch | python/tk_3dsmax/env_var_resolver.py:108-123 | there is no new path exactly when no recorded root prefixes the path; otherwise the first prefixing root, in dict order, decides, and the new path is its expanded raw root joined with the remainder |
| EnvVarResolver.JoinPath | python/tk_3dsmax/env_var_resolver.py:123 | a backslash goes between the two parts unless the first is empty, ends in a separator or is a bare drive such as `Q:` |
| EnvVarResolver.RepathOntoBareDrive | python/tk_3dsmax/env_var_resolver.py:118-123 | a path under a recorded root whose raw root now expands to a bare drive is re-pathed to the drive-relative `Q:a.png`, with no separator after the drive |
| EnvVarResolver.AssetManager.constructor | python/tk_3dsmax/env_var_resolver.py:139-142 | the asset manager holds the scene's asset file names, which `GetNumAssets` counts and `GetAssetFilename` reads by number from 1 |
| EnvVarResolver.AssetManager.RetargetAssets | python/tk_3dsmax/env_var_resolver.py:148 | every asset on the old file name moves to the new one, and no other asset changes |
| EnvVarResolver.SettledAssetsUnchanged | python/tk_3dsmax/env_var_resolver.py:139-153 | when no asset needs re-pathing, the asset loop changes nothing |
| EnvVarResolver.EmptyLookupUnchanged | python/tk_3dsmax/env_var_resolver.py:135-136 | the early return on an empty lookup loses nothing the loop would have done |
| EnvVarResolver.VisitedAssetsSettled | python/tk_3dsmax/env_var_resolver.py:139-153 | if re-pathed paths need no further re-pathing, every asset the loop has visited stays settled |
| EnvVarResolver.UpdateAndResolvePaths | python/tk_3dsmax/env_var_resolver.py:126-153 | a lookup error propagates and leaves the scene untouched; otherwise the assets end as the asset-loop specification says |
| EnvVarResolver.RepathAssets | python/tk_3dsmax/env_var_resolver.py:139-153 | the asset loop ends in the state the asset-loop specification gives after all assets are visited; an asset is retargeted only when its new path exists and differs |
| EnvVarResolver.ResolvedAssets | python/tk_3dsmax/env_var_resolver.py:139-148 | if re-pathed paths need no further re-pathing, every visited asset ends on its new path (the recorded raw root, expanded now, joined with the rest of the path), or where it was when no recorded root prefixes it; unvisited assets are on one of the two |
| MaxPlusMenu.ContextLabel | python/tk_3dsmaxplus/menu_generation.py:112-128 | the context title is the project name without an entity, "type name" for an entity alone, and otherwise "X, type name", where X is the task name if there is a task and else the step name |
| MaxPlusMenu.CreateContextBuilder | python/tk_3dsmaxplus/menu_generation.py:106-141 | the context builder carries the context title and starts with the two jump actions and a separator |
| MaxPlusMenu.FindInstanceNameFirst | python/tk_3dsmaxplus/menu_generation.py:231-236 | the instance name is that of the first app in `engine.apps` that is the command's app, or `None` when there is none |
| MaxPlusMenu.AppCommand.constructor | python/tk_3dsmaxplus/menu_generation.py:206-210 | a wrapped command keeps its name and properties and starts as no favourite |
| MaxPlusMenu.AppCommand.GetAppName | python/tk_3dsmaxplus/menu_generation.py:212-218 | the app's display name when the command has an app, and `None` otherwise |
| MaxPlusMenu.AppCommand.GetAppInstanceName | python/tk_3dsmaxplus/menu_generation.py:220-236 | `None` without an app; otherwise a name paired with the command's app in `engine.apps`, and `None` only when no entry has that app |
| MaxPlusMenu.AppCommand.GetType | python/tk_3dsmaxplus/menu_generation.py:252-256 | the `type` property, defaulting to `"default"` |
| MaxPlusMenu.GroupPrefix | python/tk_3dsmaxplus/menu_generation.py:86-97 | every group of the grouping is non-empty and refers only to existing commands |
| MaxPlusMenu.GroupIntoWellFormed | python/tk_3dsmaxplus/menu_generation.py:95-97 | appending a command to its group keeps every group non-empty and in range |
| MaxPlusMenu.GroupByAppPartition | python/tk_3dsmaxplus/menu_generation.py:86-97 | the groups partition the non-context commands: names are distinct, each group lists in command order only non-context commands of its app (or "Other Items"), and every non-context command is in its app's group |
| MaxPlusMenu.GroupByApp | python/tk_3dsmaxplus/menu_generation.py:86-97 | the grouping loop builds exactly the grouping specification |
| MaxPlusMenu.ContextItemsExact | python/tk_3dsmaxplus/menu_generation.py:65-67 | the context submenu lists exactly the commands of type `context_menu` |
| MaxPlusMenu.IsFavouriteAny | python/tk_3dsmaxplus/menu_generation.py:72-81 | a command is marked favourite exactly when some favourite matches its app instance name and its name |
| MaxPlusMenu.MatchingItemsExact | python/tk_3dsmaxplus/menu_generation.py:76-79 | the scan for one favourite adds exactly the commands that match it |
| MaxPlusMenu.FavouriteItemsExact | python/tk_3dsmaxplus/menu_generation.py:72-81 | the favourites section holds an item for each command that matches some favourite, and nothing else |
| MaxPlusMenu.SortedKeysAreKeys | python/tk_3dsmaxplus/menu_generation.py:178 | the sorted group names are ordered and are a permutation of the dict's keys, each name as often as in the dict |
| MaxPlusMenu.AppSectionHolds | python/tk_3dsmaxplus/menu_generation.py:178-199 | every group's entries appear in the app section |
| MaxPlusMenu.CommandShown | python/tk_3dsmaxplus/menu_generation.py:63-100 | no command is lost: each one is shown in the context submenu, among the favourites, or in its app's section |
| MaxPlusMenu.MenuGenerator.constructor | python/tk_3dsmaxplus/menu_generation.py:28-31 | a fresh generator has built nothing |
| MaxPlusMenu.MenuGenerator.AddFavourites | python/tk_3dsmaxplus/menu_generation.py:71-81 | appends the favourites section and marks exactly the matched commands as favourites |
| MaxPlusMenu.MenuGenerator.AddAppMenu | python/tk_3dsmaxplus/menu_generation.py:174-199 | appends, for each group in sorted name order, a submenu of several commands or the single command unless it is a favourite |
| MaxPlusMenu.MenuGenerator.AddGroup | python/tk_3dsmaxplus/menu_generation.py:179-199 | appends exactly one group's entries: a submenu named after the group when it has several commands, otherwise the one command unless it is a favourite |
| MaxPlusMenu.MenuGenerator.SubmenuItems | python/tk_3dsmaxplus/menu_generation.py:184-190 | the submenu holds one item per command of the group, named after it, in group order |
| MaxPlusMenu.MenuGenerator.CreateMenu | python/tk_3dsmaxplus/menu_generation.py:48-104 | the created "Shotgun" menu is exactly the menu layout: context submenu, separator, favourites, separator, app sections |
| MaxMenu.PopupOrigin | python/tk_3dsmax/menu_generation.py:46-50 | a popup is centred horizontally on the button, and its bottom edge lies 10 pixels below the button's centre |
| MaxMenu.NamesOfTypeExact | python/tk_3dsmax/menu_generation.py:67-71 | a name is listed for a type exactly when a command of that name has that type |
| MaxMenu.PopupsDisjoint | python/tk_3dsmax/menu_generation.py:67-94 | no command is listed in both the work-area popup and the apps popup |
| MaxMenu.Popup.Launch | python/tk_3dsmax/menu_generation.py:52 | a launched popup is open, empty and has no work-area text |
| MaxMenu.Popup.Move | python/tk_3dsmax/menu_generation.py:54 | moves the popup and changes nothing else |
| MaxMenu.Popup.Resize | python/tk_3dsmax/menu_generation.py:55 | resizes the popup and changes nothing else |
| MaxMenu.Popup.SetWorkAreaText | python/tk_3dsmax/menu_generation.py:60 | sets the work-area text and changes nothing else |
| MaxMenu.Popup.AddItem | python/tk_3dsmax/menu_generation.py:63-64 | appends one item and changes nothing else |
| MaxMenu.Popup.Accept | python/tk_3dsmax/menu_generation.py:104 | closes the popup and changes nothing else |
| MaxMenu.MenuGenerator.constructor | python/tk_3dsmax/menu_generation.py:28-32 | a fresh generator holds no popup |
| MaxMenu.MenuGenerator.CloseExistingMenus | python/tk_3dsmax/menu_generation.py:99-109 | afterwards both fields are `None`; the popups that were held, and only those, are accepted |
| MaxMenu.MenuGenerator.RenderWorkAreaMenu | python/tk_3dsmax/menu_generation.py:37-71 | closes what was open; the only popup held afterwards is a fresh 200x300 work-area popup at the button, showing the context name, the two jump actions and the context-menu commands |
| MaxMenu.MenuGenerator.RenderAppsMenu | python/tk_3dsmax/menu_generation.py:73-94 | closes what was open; the only popup held afterwards is a fresh 200x300 apps popup at the button, listing the commands of the default type |
| Engine.InitEngine | engine.py:28-37 | start-up fails exactly when Max's major version is not 14000, and the error carries that version |
| Engine.ParsePosition | engine.py:82-86 | a field-count error occurs exactly when the text between the brackets does not hold exactly one comma; a rejected field holds no comma and does not parse as an integer |
| Engine.NoCommaInIntToString | engine.py:84 | a printed integer holds no comma |
| Engine.ParsePositionComplete | engine.py:84-86 | two comma-free fields that both read as integers, joined by one comma, parse to exactly their two values |
| Engine.PositionRoundTrip | engine.py:82-86 | reading a printed `[left,top]` gives back `(left, top)` |
| Engine.ParsedPositionShape | engine.py:84-86 | a position that parses is two integer fields joined by a single comma inside the brackets |
| Engine.MaxEngine.constructor | engine.py:52-53 | the engine starts with a fresh menu generator that holds no popup |
| Engine.MaxEngine.MaxCallbackWorkAreaMenu | engine.py:77-93 | an unreadable position raises and changes nothing; otherwise the work-area popup opens with its origin at (left + 65, top - 262) |
| Engine.MaxEngine.MaxCallbackAppsMenu | engine.py:96-112 | an unreadable position raises and changes nothing; otherwise the apps popup opens with its origin at (left + 185, top - 262) |

## Left out

- Callback registration, the `print` diagnostics, logging (which formats wall-clock timestamps) and `menu_ui.py`. None of these affects the modelled state.
- `rt.execute`, `persistents.make` and `globalVars.gather` are not modelled as MaxScript execution. A save is modelled as the list of assignments it executes. A scene's globals are modelled as a list of name and value pairs.
- GlobalsAfter assumes the scene lists its globals in assignment order. The gather order of 3ds Max is not part of this model.
- EnvVarResolver.StoreThenRetrieve: the scene's earlier globals come first, and the new save's globals follow in assignment order. A global that an earlier save made under the same name is re-assigned in the scene, but the model lists it a second time. The lookup read back is the same either way, because writing an existing key keeps its place and takes the new value.
- MaxScript string escapes other than `\c` (read as `c`) are not modelled. StoreThenRetrieve and PairLiteralReadsBack require paths free of `"`. A `"` would end the MaxScript string early, and Windows paths cannot hold one.
- The MD5 digest is an uninterpreted function. Two roots whose digests collide would share one variable, and the model does not exclude that.
- EnvVarResolver.RelPath: `os.path.relpath` is simplified to "drop the prefix and one leading separator". The source matches roots with a plain `startswith`, so a root that is a string prefix of a sibling directory (`C:\proj` and `C:\projects\a.png`) makes `relpath` produce a `..` path. The model does not reproduce that, nor `relpath`'s normalisation (case, `.` for the root itself, repeated separators).
- EnvVarResolver.JoinPath is the Windows `os.path.join` of a second part that has no drive and is not absolute. The first part may be empty, a bare drive or end in a separator: a bare drive such as `Q:` gives the drive-relative `Q:b`. Drive-letter and absolute second parts, and a UNC share (`\\server\share`) joined with an empty second part, are not modelled.
- The second loop of `update_and_resolve_paths` (over `mapPaths`) only prints, so it is not modelled.
- The "failed to repath!" branch only prints. Under this model of `RetargetAssets` it cannot fire: the method asserts that the asset then carries the new path.
- Dicts are modelled in insertion order, the order CPython 3.7+ gives. Python 2's arbitrary dict order is not modelled, so the first matching root of GetNewPathFirstMatch is "first in insertion order".
- MaxPlusMenu: the MaxPlus registry calls (`MenuExists`, `UnregisterMenu`) and `CreateUniqueMenuItem` are not modelled. Neither is the menu's placement in Max's main menu: it is created second to last, with no effect on its contents.
- The callbacks of menu items and popup items, `_jump_to_sg`, `_jump_to_fs` and `get_documentation_url_str` call into Qt, the OS or Unicode normalisation, so they are left out.
- MaxPlusMenu.MenuGenerator.GroupByApp holds command positions in `commands_by_app`, not the `AppCommand` objects. The objects are `cmdItems[k]`.
- Context dictionaries missing their `name` or `type` keys are not modelled. Neither is Python object identity between contexts: an entity is `(type, name)`, and a step or task is its field map.
- Engine.ParsePosition: Python 2's `int()` is modelled on ASCII digits and ASCII whitespace, including blanks between the sign and the digits. Unicode digits and spaces are not modelled. The `int`/`long` distinction is not modelled either, because integers here are unbounded.
- Engine.MaxEngine.MaxCallbackAppsMenu: the source's comment says 165 pixels, but the code adds 285. The model follows the code.
- The truthiness of a blur dialog is taken to be "not `None`".
