# ZETA MultiViewer — a verified model of its sequential core

ZETA MultiViewer shows up to fifteen live video streams per window. The
"add window" button opens at most five more windows from a viewer: the limit
counts only the windows that button made, so the first window and a viewer
opened from the admin window come on top. Each pane has a URL field, a name field, playback buttons, an
audio meter and a black-screen watchdog. The repository holds four programs:

- `combined_multiviewer.py`: viewer and admin window in one process;
- `multiviewer.py`: a standalone viewer;
- `admin_multiviewer.py`: a standalone configuration tool;
- `html/script.js`: a browser version of the grid.

Under the Qt and VLC wiring sits a layer of plain logic, and this project
models that layer in Dafny:

- the JSON state file of pane URLs, names and pane counts, with its
  read-modify-write updates and guarded lookups;
- the configuration file and the three programs' load policies;
- the pane's playback flags;
- the window's pane list, grid placement, and class-level counter and
  registry;
- the admin path validator that gates the save;
- the browser grid and its URL classifier.

Modules, one file each:

| file | module | what it holds |
|---|---|---|
| `wrappers.dfy` | `Wrappers` | `Option`, for Python's `None` and missing keys |
| `text.dfy` | `Text` | `str()` of integers, `startswith`/`endswith`/`in`, `os.path.basename` |
| `pane_store.dfy` | `PaneStore` | the state file as a value, its lookups and its three updates |
| `config.dfy` | `Config` | the configuration record, defaults, recommendations, path validator |
| `storage.dfy` | `Storage` | the files on disk (`class Disk`) and every load and save of them |
| `panes.dfy` | `Panes` | the pane's flags as a state machine, and `class Pane` |
| `windows.dfy` | `Windows` | `class App` (class attributes) and `class Window` (`MainWindow`) |
| `admin.dfy` | `Admin` | `class AdminWindow` of the admin tool and of the combined program |
| `browser.dfy` | `Browser` | the browser grid, its screens, and the URL classifier |

How the model represents the environment:

- **Files.** The filesystem is the object `Storage.Disk`:
  - `config` is `multiviewer_config.json`, with `None` for a file that is
    missing or cannot be parsed;
  - `stateFiles` maps each path to its parsed state file; a missing or
    unparsable file is absent from the map.
- **Viewers.** The two viewers differ only in how they reach the state file,
  which `Storage.Edition` records:
  - `Combined(os)` re-reads (and, when it is missing, writes) the
    configuration before every access, and creates a missing state file when
    it loads;
  - `Standalone(urlsFile)` fixed the path at start-up and never writes on a
    read.
- **Inputs.** Outside facts are parameters:
  - the platform, as the string `platform.system()` returns;
  - the set of existing paths;
  - the frame size VLC reports;
  - the answers of dialogs;
  - the browser's HLS capabilities.

Three behaviours of the code a reader might not expect:

- `play` does not clear the black-screen flag; only `stop` does
  (combined_multiviewer.py:424-450).
- The combined program's admin window saves without validation and never
  auto-detects the VLC libraries. It defines `auto_detect_vlc_paths` but does
  not call it (combined_multiviewer.py:61-212).
- Window numbers are not unique: the counter goes down on every close. The
  model asserts nothing about uniqueness.

## Model

| member | source | states |
|---|---|---|
| Text.NatToString | combined_multiviewer.py:504 | `str(n)` of a natural number is a non-empty string of digits, at least two from 10 on |
| Text.ParseNatToString | combined_multiviewer.py:504 | reading the numeral `str(n)` back as a number gives `n` |
| Text.NatToStringInjective | combined_multiviewer.py:504 | different natural numbers have different numerals |
| Text.IntToString | combined_multiviewer.py:497 | `str(i)` of any integer is non-empty and starts with a minus sign or a digit |
| Text.NegativeNumeral | combined_multiviewer.py:497 | the numeral of a negative number is "-" followed by the numeral of its magnitude |
| Text.IntToStringInjective | combined_multiviewer.py:497-504 | different integers have different numerals, so `str(index)` and `window_<n>` keys never collide |
| Text.ContainsPrefix | admin_multiviewer.py:187-191 | a string containing `sub` contains every prefix of `sub` |
| Text.Basename | admin_multiviewer.py:188 | `os.path.basename(p)` is a suffix of `p` free of separators, and it is the whole path or preceded by a separator |
| Text.BasenameOfJoin | admin_multiviewer.py:188 | the basename of a directory ending in a separator, joined with a separator-free file name, is that file name |
| PaneStore.IndexKeyInjective | combined_multiviewer.py:504 | distinct pane indexes, integers or booleans, give distinct `str(index)` keys |
| PaneStore.WindowKeyInjective | combined_multiviewer.py:497 | distinct window numbers give distinct `window_<n>` keys |
| PaneStore.IndexKey | combined_multiviewer.py:504 | `str(index)` is non-empty, and starts with a sign or digit exactly for an integer index (`True`/`False` otherwise) |
| PaneStore.GetUrl | combined_multiviewer.py:526-531 | a stored URL is found exactly when the window key, its `urls` map and the pane's key all exist |
| PaneStore.GetName | combined_multiviewer.py:533-538 | a stored name is found exactly when the window key, its `names` map and the pane's key all exist |
| PaneStore.GetLayout | combined_multiviewer.py:692-701 | the stored `num_widgets`, or 8 when the window's record or its field is absent |
| PaneStore.SetUrlEntry | combined_multiviewer.py:494-504 | the in-place creation of the window record and its `urls` map, then the key assignment, yields WithUrl |
| PaneStore.SetNameEntry | combined_multiviewer.py:510-520 | the same for `names`, yielding WithName |
| PaneStore.SetLayoutEntry | combined_multiviewer.py:684-686 | replacing the window record by the count with the old or empty `urls`/`names` yields WithLayout |
| PaneStore.UrlRoundTrip | combined_multiviewer.py:494-508 | after `save_url(t)` the file holds a record for the window, and `load_url` of that pane gives `t`; every other pane's URL, every name, every count and every other window are unchanged |
| PaneStore.UrlRewriteIsIdentity | combined_multiviewer.py:526-531 | saving back the URL a pane already holds leaves the state unchanged |
| PaneStore.NameRoundTrip | combined_multiviewer.py:510-524 | after `save_name(t)` the file holds a record for the window, and `load_name` gives `t`; of that window only `names[str(i)]` changes, its `urls` and `num_widgets` are kept, other windows untouched |
| PaneStore.NameRewriteIsIdentity | combined_multiviewer.py:533-538 | saving back the name a pane already holds leaves the state unchanged |
| PaneStore.LayoutRoundTrip | combined_multiviewer.py:682-690 | after `save_layout_state(n)` the file holds a record for the window, and `load_layout_state` gives `n`; the window's `urls`/`names` are kept or become `{}`, no URL or name changes, other windows untouched |
| PaneStore.LayoutOverwrite | combined_multiviewer.py:643-659 | a later layout save of a window overrides an earlier one |
| Config.CombinedDefaultPaths | combined_multiviewer.py:17-29 | three keys always; the Windows triple exactly on "Windows", the macOS triple (no `lib/` in the library path) otherwise |
| Config.AdminDefaultPaths | admin_multiviewer.py:9-21 | three keys always; the Windows triple exactly on "Windows", the macOS triple with `lib/` otherwise |
| Config.LoadedOrDefault | admin_multiviewer.py:24-30 | `load_config` returns the parsed file, or the defaults when it is missing or unparsable |
| Config.DefaultsCompared | multiviewer.py:15-25 | the two programs' defaults agree on Windows; off Windows they differ only in the library path; the standalone default is the macOS record without the core key |
| Config.VlcLibRecommendation | admin_multiviewer.py:134-141 | on Windows and Darwin the prefix plus the admin default library path; elsewhere a prompt that is no recommendation |
| Config.VlcCoreRecommendation | admin_multiviewer.py:143-150 | the same for the core library path |
| Config.UrlsRecommendation | admin_multiviewer.py:152-159 | the same for the state file |
| Config.RecommendationsFollowAdminDefaults | admin_multiviewer.py:134-159 | on Windows and Darwin each recommendation is the prefix plus the admin default path, every other platform gets one fixed prompt, and the macOS library recommendation is not the combined default |
| Config.IsValidVlcLib | admin_multiviewer.py:187-188 | `is_valid_vlc_lib`: only an existing path passes; its basename must contain "libvlc" (consequences in NameRuleOfJoin, AdminDefaultsPassNameRule) |
| Config.IsValidVlcCore | admin_multiviewer.py:190-191 | `is_valid_vlc_core`: only an existing path passes; its basename must contain "libvlccore" (stronger than the library rule, CoreValidIsLibValid) |
| Config.PathsValid | admin_multiviewer.py:193 | the verdict needs an existing library, on Windows an existing core as well, and off Windows is the library test alone |
| Config.CoreValidIsLibValid | admin_multiviewer.py:187-191 | a path valid as a core library is valid as a library |
| Config.ValidatorCases | admin_multiviewer.py:193 | a missing library, or on Windows a missing core, fails the check; off Windows the core path plays no part; one valid core passed as both paths passes |
| Config.NameRuleOfJoin | admin_multiviewer.py:187-191 | a file name starting with the marker, in a directory ending in a separator, passes the name rule |
| Config.AdminDefaultsPassNameRule | admin_multiviewer.py:9-21 | the admin defaults have valid names, so they pass the validator exactly when the files exist |
| Storage.PersistedConfig | combined_multiviewer.py:32-41 | the combined program writes its defaults when the configuration is missing, the others never write; the state-file path is unchanged by the load |
| Storage.UrlsPathOf | combined_multiviewer.py:49-58 | the standalone viewer always has its path; the combined one takes the default path for a missing configuration, and otherwise has a path exactly when the file has `urls_file` |
| Storage.PersistIsStable | combined_multiviewer.py:32-41 | loading twice is loading once: the next `load_config` returns what the first returned, and a missing configuration never raises KeyError |
| Storage.StateIn | multiviewer.py:31-37 | `load_urls` gives the parsed file, or `{}` when it is missing or unparsable |
| Storage.FilesAfterLoad | combined_multiviewer.py:49-58 | after a load the state read back is the same, no new path appears except the state file's, and no existing file changes |
| Storage.FilesAfterLoadIdempotent | combined_multiviewer.py:49-58 | a second load leaves the files as the first left them |
| Storage.WriteAfterLoad | combined_multiviewer.py:494-508 | a write after a load hides whatever the load wrote there |
| Storage.Disk.SaveConfig | combined_multiviewer.py:44-46 | the configuration file becomes the record; the state files are untouched |
| Storage.Disk.LoadConfigPersisting | combined_multiviewer.py:32-41 | returns the file or the defaults, and afterwards the file holds the returned record |
| Storage.Disk.LoadConfigAdmin | admin_multiviewer.py:24-30 | returns the file or the three-key defaults, and writes nothing |
| Storage.Disk.LoadConfigStandalone | multiviewer.py:15-25 | returns the file or the two-key default without `vlc_core_path`, and writes nothing |
| Storage.Disk.StandaloneStartup | multiviewer.py:27-29 | the viewer starts exactly when the loaded record has `urls_file` and `vlc_lib_path`, and uses that `urls_file`; with no file it uses the macOS default |
| Storage.Disk.ReadUrls | multiviewer.py:31-37 | the parsed file or `{}`, nothing written |
| Storage.Disk.LoadUrlsCreating | combined_multiviewer.py:49-58 | the configuration is loaded (persisting defaults); the state is the file or `{}`, and the file then holds it; fails exactly where `config["urls_file"]` raises |
| Storage.Disk.LoadUrls | combined_multiviewer.py:49-58 | either viewer's `load_urls`: the state read and the files afterwards, in terms of FilesAfterLoad |
| Storage.Disk.WritePath | combined_multiviewer.py:506-508 | a save writes to the configured state-file path, whose re-read configuration is the persisted one |
| Storage.Disk.SaveUrl | combined_multiviewer.py:494-508 | the state file afterwards is WithUrl of the state before; nothing else changes; the save fails exactly where `config["urls_file"]` raises |
| Storage.Disk.SaveName | combined_multiviewer.py:510-524 | the state file afterwards is WithName of the state before; nothing else changes |
| Storage.Disk.SaveLayoutState | combined_multiviewer.py:682-690 | the state file afterwards is WithLayout of the state before, with the given count |
| Storage.Disk.ReadLayoutState | multiviewer.py:514-522 | the stored count, or 8 when the file is missing or unparsable; nothing written |
| Storage.Disk.LoadLayoutState | combined_multiviewer.py:692-701 | the stored count for the window from the configured file, the state files unchanged (no file is created) |
| Panes.Step | combined_multiviewer.py:269-464 | the handlers' effect on the flags: the warning flag changes only on stop or a tick, the media only to the URL `play` gets, the timers only on play, pause and stop, the mode only on the toggle and restore |
| Panes.PlayRules | combined_multiviewer.py:424-436 | empty-URL `play` changes nothing; otherwise both timers run, the media is the URL, the volume is 0, and the warning flag and meter are kept |
| Panes.StopAndPauseRules | combined_multiviewer.py:438-450 | `stop` stops both timers, zeroes the meter and clears the warning flag; `pause` stops the timers and keeps the flag; both are idempotent |
| Panes.StallTickRules | combined_multiviewer.py:479-492 | a warning is shown exactly when the frame is 0x0 and none was shown since the last stop, and showing it sets the flag; a failed size query changes nothing |
| Panes.NotifiedSticks | combined_multiviewer.py:479-492 | once set, the warning flag is cleared by no event but `stop` |
| Panes.AtMostOneNotification | combined_multiviewer.py:479-492 | in any sequence of events without `stop`, the warning is shown at most once, and not at all if already shown |
| Panes.StopRearmsNotification | combined_multiviewer.py:444-450 | after `stop`, `play` and a 0x0 frame the warning is shown again, whatever the pane's state |
| Panes.ViewEventsKeepPlayback | combined_multiviewer.py:269-281 | full screen, restore, the title-bar close of the full-screen window and the audio button leave timers, meter, warning flag and media alone |
| Panes.StepKeepsConsistent | combined_multiviewer.py:269-281 | every event, the title-bar close included, keeps the timers together, the full-screen window visible only in full-screen mode and the pane's button hidden exactly then; every event but that close also keeps the window visible exactly in full-screen mode; the toggle flips the mode |
| Panes.RunKeepsConsistent | combined_multiviewer.py:452-464 | any sequence of events keeps the flags consistent |
| Panes.InitialIsConsistent | combined_multiviewer.py:387-399 | a new pane's flags are consistent and its view in step, with no warning shown and the timers stopped |
| Panes.FullscreenCloseStrandsButton | combined_multiviewer.py:276-281 | closing the full-screen window from its title bar leaves the pane in full-screen mode with the window gone and the full-screen button hidden |
| Panes.ButtonStaysHidden | combined_multiviewer.py:380 | once hidden, the full-screen button stays hidden under every sequence of events without the toggle (that hidden button) and the back button (in the closed window) |
| Panes.CloseRestoringKeepsView | combined_multiviewer.py:269-274 | a close that restores the normal view, as intended, keeps the view in step, shows the button, stops the full-screen player and lets the toggle reopen the window |
| Panes.Pane.constructor | combined_multiviewer.py:286-406 | fresh, consistent flags (`Valid`, which every method keeps); the URL and name fields hold the stored values (or stay empty); the files are as after a load |
| Panes.Pane.SetUrlText | combined_multiviewer.py:322 | a changed text runs `save_url` with it, and the file gets WithUrl; an unchanged text saves nothing |
| Panes.Pane.SetNameText | combined_multiviewer.py:329 | a changed text runs `save_name` with it, and the file gets WithName |
| Panes.Pane.LoadUrl | combined_multiviewer.py:526-531 | the field takes the stored URL if there is one; the save its change triggers leaves the files as the load left them |
| Panes.Pane.LoadName | combined_multiviewer.py:533-538 | the field takes the stored name if there is one; the files are as the load left them |
| Panes.Pane.Play | combined_multiviewer.py:424-436 | rejected exactly when the URL field is empty; the flags follow Step |
| Panes.Pane.Pause | combined_multiviewer.py:438-442 | the flags follow Step for `pause` |
| Panes.Pane.Stop | combined_multiviewer.py:444-450 | the flags follow Step for `stop` |
| Panes.Pane.CheckBlackScreen | combined_multiviewer.py:479-492 | a warning, numbered `index + 1`, exactly when Notifies holds; the flags follow Step |
| Panes.Pane.RestoreNormalView | combined_multiviewer.py:269-274 | the flags follow Step for the full-screen window's restore |
| Panes.Pane.CloseFullscreenWindow | combined_multiviewer.py:276-281 | the flags follow Step for the title-bar close: the full-screen player stops and the window goes, nothing else changes |
| Panes.Pane.ToggleFullscreen | combined_multiviewer.py:452-464 | the flags follow Step for the toggle |
| Panes.Pane.ToggleAudio | combined_multiviewer.py:408-415 | the flags follow Step: the button flips, the volume becomes 100 or 0 |
| Panes.Pane.Close | combined_multiviewer.py:540-545 | closing a pane stops it |
| Windows.GridCellFacts | combined_multiviewer.py:655-656 | panes fill the 4-column grid row by row, each at its own cell; 15 panes use rows 0 to 3, three cells of the last |
| Windows.GridCell | combined_multiviewer.py:655-656 | the cell `((n-1)//4, (n-1)%4)` of the `n`-th pane: a row and a column in 0..3 that give back its position as `row * 4 + column` |
| Windows.RemoveFirstSpec | combined_multiviewer.py:707-708 | removing an absent window changes nothing; otherwise exactly its first occurrence goes and the others keep their order |
| Windows.RemoveFirst | combined_multiviewer.py:707-708 | `list.remove` after the `in` guard: an absent window changes nothing, a present one shortens the list by one, nothing new appears |
| Windows.App.constructor | combined_multiviewer.py:547-549 | the counter starts at 1 and the registry empty |
| Windows.Window.constructor | combined_multiviewer.py:551-641 | takes the counter as its number and increments it; holds `min(max(n, 0), 15)` fresh panes indexed 0, 1, ... loaded from the state file; for `n > 0` the file records the new count, for `n <= 0` nothing is written |
| Windows.Window.SaveLayoutState | combined_multiviewer.py:682-690 | the window's count in the state file becomes its number of panes |
| Windows.Window.LoadLayoutState | combined_multiviewer.py:692-701 | the stored count for this window, or 8 |
| Windows.Window.AddVideoWidget | combined_multiviewer.py:648-661 | below 15 panes exactly one fresh pane is appended, with the given index or its position, at row `(n-1)//4`, column `(n-1)%4`, and the count is saved; at 15 nothing changes; at most 15 is kept |
| Windows.Window.AddInitialWidgets | combined_multiviewer.py:643-646 | `range(n)` leaves `min(m + max(n, 0), 15)` panes, indexed 0, 1, ..., loaded from the state as it was, and the file ends up recording the final count |
| Windows.Window.AddInitialWidget | combined_multiviewer.py:645-646 | one round of that loop keeps its invariant |
| Windows.Window.AddScreenClicked | combined_multiviewer.py:583 | the button as connected: a new pane's index is `False` |
| Windows.Window.AddScreen | combined_multiviewer.py:648-651 | the button as intended: the new pane's index is its position, so panes stay indexed by position |
| Windows.Window.AddNewWindow | combined_multiviewer.py:663-670 | below 5 registered windows a fresh 8-pane window is made, numbered by the counter, and registered; its panes are loaded from the state file, the file records its count 8, and the combined program persists the configuration; otherwise nothing changes |
| Windows.Window.ClosePanes | combined_multiviewer.py:705-706 | every pane is stopped, with its fields kept |
| Windows.Window.CloseEvent | combined_multiviewer.py:703-710 | every pane stopped; the window leaves the registry if it is there; the counter goes down in any case |
| Windows.Window.ActivateAdminMode | combined_multiviewer.py:672-680 | granted exactly on the answer "admin"; then the admin window's config load happens and this window closes, its panes stopped with their fields kept; otherwise nothing changes, the panes' flags and fields included |
| Windows.LoadedAfterLayout | combined_multiviewer.py:682-690 | a layout save does not change the URL or name a pane loads |
| Windows.StandaloneMainAsWritten | multiviewer.py:534-538 | as written, the start-up always makes the shown window with 8 panes, and it is the second window made |
| Windows.StandaloneMain | multiviewer.py:534-538 | as intended, the shown window takes the counter's current number (1 at start) and is made with the pane count saved for that number |
| Windows.ButtonPanesShareKey | combined_multiviewer.py:583 | panes added by the button all save under the key "False": the last URL wins, and no position-indexed pane reads it |
| Windows.PositionKeysIsolate | combined_multiviewer.py:648-652 | panes indexed by position save under distinct keys, so no pane overwrites another |
| Admin.SavedRecord | admin_multiviewer.py:198-202 | the three path keys take the fields' texts; every other key is kept |
| Admin.SavedRecordIdempotent | admin_multiviewer.py:198-202 | saving the same fields twice gives the same record, so pressing save and then open (which saves again) writes the file once over with the same content |
| Admin.SavedRecordIsResolvable | combined_multiviewer.py:197-202 | a saved record points the viewer at the typed state file and library |
| Admin.DetectedLibraryIsValid | admin_multiviewer.py:118-132 | on macOS the auto-detected library passes the validator, whatever the core field holds |
| Admin.AdminWindow.constructor | admin_multiviewer.py:38-120 | the admin tool loads without writing, the combined program's window with persisting; fields from the record (absent keys empty); the admin tool on Darwin auto-detects |
| Admin.AdminWindow.AutoDetectVlcPaths | admin_multiviewer.py:122-132 | each library present at the standard macOS location replaces the path and field; the others stay |
| Admin.AdminWindow.Recommendations | admin_multiviewer.py:134-159 | on Windows and Darwin the three labels are the prefix plus the admin defaults |
| Admin.AdminWindow.SelectVlcLibPath | admin_multiviewer.py:161-165 | a chosen path replaces the field; a cancelled dialog changes nothing |
| Admin.AdminWindow.SelectVlcCorePath | admin_multiviewer.py:167-171 | the same for the core field |
| Admin.AdminWindow.SelectUrlsFile | admin_multiviewer.py:173-180 | a chosen path replaces the field, and a missing file is created holding `{}` |
| Admin.AdminWindow.ValidatePaths | admin_multiviewer.py:182-196 | the admin tool only (the combined program has no validate button): the verdict is PathsValid of the two fields; a valid verdict implies the files exist |
| Admin.AdminWindow.SaveConfiguration | admin_multiviewer.py:198-218 | the record takes the three fields in every case; the admin tool writes it exactly when the paths are valid, the combined program always; otherwise the file is unchanged |
| Admin.AdminWindow.OpenMultiviewer | admin_multiviewer.py:220-227 | saves first, then attempts the launch whatever the save did; the new viewer sees the configuration as saved; the window closes exactly when the launch succeeds |
| Admin.AdminWindow.OpenMultiviewerInProcess | combined_multiviewer.py:205-210 | saves, then opens an 8-pane viewer window in the same process that reads its panes from the state file the field names |
| Browser.Classify | html/script.js:70-90 | HLS by suffix first (hls.js, then native, then alert), then http/https as MP4, every other URL unsupported; each branch with its exact condition |
| Browser.HlsFirst | html/script.js:73-85 | an HLS URL takes an HLS branch whatever its scheme; another URL's branch does not depend on the browser |
| Browser.HttpStreamIsHls | html/script.js:73 | an `http://` URL ending in `.m3u8` is not handed over as MP4 |
| Browser.EmptyUrlAlerts | html/script.js:88-90 | the empty URL every new screen starts with reaches the unsupported alert |
| Browser.PlayableCases | html/script.js:73-90 | a player gets a source exactly for HLS on a capable browser or a non-HLS http(s) URL |
| Browser.Screen.constructor | html/script.js:13-67 | a new screen holds the URL, set up by Classify, paused at time 0 |
| Browser.Screen.ChangeUrl | html/script.js:28-30 | a changed URL field sets the player up again for the new URL |
| Browser.Screen.Play | html/script.js:39-46 | playback runs |
| Browser.Screen.Pause | html/script.js:50 | playback pauses |
| Browser.Screen.Stop | html/script.js:54-57 | pauses and rewinds to time 0 |
| Browser.VideoGrid.constructor | html/script.js:104-105 | the page starts with one screen, with no URL, which reaches the unsupported alert |
| Browser.VideoGrid.AddVideoScreen | html/script.js:7-68 | refused at 15 screens; otherwise exactly one fresh screen is appended; never more than 15 |
| Browser.VideoGrid.AddScreenClicked | html/script.js:100-102 | the button adds one empty-URL screen below the cap |

## Left out

- `update_audio_monitor`: it draws random numbers and numpy normal floats, so the meter's value is only set to 0 by `stop`.
- VLC: every call into VLC (instances, media, `play`/`pause`/`stop`, window handles, `release`) is a native call and is not modelled. The frame size `video_get_size` returns is an input, and its exception is the `QueryFailed` case.
- Qt: widget construction, layouts, styles and window titles are not modelled. A message box the model needs is a return value or flag (`rejected`, `warning`, `granted`, `saved`).
- JSON: parsing and encoding are not modelled. A missing or unparsable file is one case, `None` or an absent path.
- `os.path.exists` is a set of existing paths. Its agreement with the state files the model holds is not modelled.
- `platform.system()` is a string parameter. The `sys.platform` tests that choose the VLC window handle are left out with VLC.
- Timers: a timer is a running or stopped flag, with no time. The watchdog's tick is an event the model allows in any state, so the properties proved about it also hold for the real, timer-gated ticks.
- KeyError on `config["urls_file"]`: at the `Disk` level it is the result `ok == false`. `Pane` and `Window` methods require `disk.Resolvable(edition)` instead, so the crash of a viewer that has lost the key is not modelled.
- `subprocess.Popen` is a boolean input in `OpenMultiviewer`. The standalone viewer's admin mode, which launches the admin program, is modelled only as the window closing.
- The combined program's entry point, which picks the admin window or a viewer window from `sys.argv`, is not modelled; both windows' constructors are.
- `os.path.basename` on Windows: the model splits at both slashes but does not treat a drive prefix such as `C:` as a separator.
- Typing into the admin window's fields is not a separate operation. The pickers' methods model how a field's text changes.
- In the browser version, videojs and hls.js objects, the `onerror` handler and the exception path of `play()` are not modelled. The grid is assumed to start with no children.
- `Windows.ActivateAdminMode`: in the combined program it opens the admin window. The model keeps only that window's effect on the disk (its persisting `load_config`), because `Admin` builds on `Windows` and Dafny modules cannot import each other both ways.
- `Windows.RemoveFirstSpec` states the registry after removal as a sequence, not as a multiset.
- Failing writes: every save in the model succeeds. `open(path, 'w')` raising, for example `FileNotFoundError` for a missing directory in `save_config` or in the write of `load_urls`, is not modelled.
- Read-modify-write races between panes do not arise: the programs are single-threaded.

## Findings

| source | as written | input that shows it | evidently intended | confidence | as-written member | corrected member |
|---|---|---|---|---|---|---|
| combined_multiviewer.py:583 | `clicked.connect(self.add_video_widget)`: PyQt passes the signal's `checked` argument, `False`, as `index`, so every pane added by the button saves under the key "False" | add two panes with the button and type a URL in each: both write `urls["False"]`, the second overwrites the first, and a restart shows neither | `add_video_widget()` with no argument, indexing the pane by its position (same in multiviewer.py) | medium, not executed (depends on PyQt5 argument passing) | Windows.Window.AddScreenClicked, Windows.ButtonPanesShareKey | Windows.Window.AddScreen, Windows.PositionKeysIsolate |
| multiviewer.py:534-538 | `MainWindow().load_layout_state()` builds a probe window with 8 panes, whose construction saves 8 as its count before the count is read, so 8 is returned always; the shown window is the second one made | a state file saying `window_1` has 3 panes: the viewer opens 8 panes, not 3, and in window 2, not window 1 | read the saved count for window 1 without building a window, then build window 1 with it | high, not executed | Windows.StandaloneMainAsWritten | Windows.StandaloneMain |
| combined_multiviewer.py:276-281 | `FullScreenWindow.closeEvent` stops and releases the player but does not call `restore_normal_view`, so `is_fullscreen` stays `True` and the pane's full-screen button stays hidden (same in multiviewer.py:102-108) | enter full screen, then close the full-screen window with its title-bar button: the pane shows no full-screen button, and nothing the user can reach shows it again | closing the window does what its back button does | high, not executed | Panes.FullscreenCloseStrandsButton, Panes.ButtonStaysHidden | Panes.CloseRestoringKeepsView |
