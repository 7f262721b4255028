# openmtp profile boot and main-process lifecycle, in Dafny

OpenMTP is an Electron file manager for MTP devices. Before the main process
opens a window, it runs `Boot`, the profile boot verifier in
`app/classes/Boot.js`:

- `init` makes sure the profile's log directory, settings file and log file
  exist. It then removes the profile directory left by older versions.
- `verify` and `quickVerify` check that the profile paths exist.
- `cleanRotationFiles` deletes old rotated log files from the log directory.

The main process in `app/main.dev.js` then runs the boot check at load time
and registers handlers for a small set of events:

- the single-instance lock and `second-instance`;
- `ready`, which creates the window, configures the updater and the menu,
  schedules the update check, and relays USB hot-plug events to the renderer;
- `activate` and the window's `closed` event;
- `window-all-closed`, `before-quit` and the native theme's `updated` event.

The project models both pieces over explicit state and proves what they
promise.

- `js.dfy` (`Js`) holds the JavaScript values the code compares and returns:
  `true`/`false`/`undefined`, and stored setting values.
- `filesystem.dfy` (`FileSystem`) models the file-operation helpers that
  `Boot` calls. The state is a set of existing paths, plus the writes started
  by `writeFileAsync` that have not landed yet, plus a log of every mutating
  call. The `Disk` class holds this state. Its `denied` set lists the paths
  whose creation, write or deletion throws; those are the calls that end in
  `Boot`'s `catch` blocks. A deletion is recursive: it removes the path and
  everything under it.
- `log_rotation.dfy` (`LogRotation`) holds the pure parts of
  `cleanRotationFiles`:
  - the case-insensitive `^\<baseName>` filter;
  - the leftmost `\d{4}-\d{2}` date token;
  - the threshold test.
- `profile_boot.dfy` (`ProfileBoot`) holds the `Boot` class. Its loops work
  step by step on the `Disk`. Each method is proved against a function of the
  disk state it started from: `InitState`, `VerifyPasses`, `RemoveAll` over
  `RotationTargets`.
- `boot_properties.dfy` (`BootProperties`) holds the lemmas about those
  functions:
  - what `init` creates, keeps and removes, and that it issues a call only
    when one is needed;
  - that it is idempotent, and that it goes quiet once its writes have landed;
  - what `verify` accepts, including its loop-bound quirk;
  - exactly which names `cleanRotationFiles` deletes, and that nothing
    outside the log directory changes.
- `lifecycle.dfy` (`Lifecycle`) holds `bootTheDevice`, the module load, and
  the `MainProcess` class. The class has the module-level `mainWindow`, the
  live windows, the USB monitor and relay flags, `app.quitting`, the quit
  request, the scheduled update check, the messages sent to the renderer,
  and the ordered calls into Electron and native collaborators. Each event
  handler is a method. A few client methods at the end run handler sequences
  and assert what they produce.

Some behaviour is modelled as the code is written:

- `quickVerify` never yields `true`. When nothing is missing it falls off its
  end and yields `undefined`.
- `verify` bounds its directory loop by the length of the file list, but
  indexes the directory list.
- `createFile` does not wait for its write. A `verify` that runs before the
  write lands sees the file as missing. `BootTheDevice` takes a
  `writesLanded` flag that says on which side of that race `verify` ran.
- `bootTheDevice` is `async`, so `isDeviceBootable` is a Promise and always
  truthy. The module therefore always registers the bootable branch's
  handlers.

Three more behaviours are modelled exactly as the code has them:

- `quickVerify` returns `undefined`, never `true`, when every file exists
  (`app/classes/Boot.js:88-100`).
- `before-quit` starts the MTP disposal before it stops USB monitoring
  (`app/main.dev.js:276-284`).
- Before `ready` has fired, `new BrowserWindow` throws. `createWindow` catches
  and logs that, so `mainWindow` stays null (`app/main.dev.js:73-118`). The
  class keeps an `appReady` flag for this, and an `activate` delivered before
  `ready` creates no window.

## Model

| member | source | states |
|---|---|---|
| FileSystem.Settled | app/classes/Boot.js:126-132 | once the writes started without awaiting have landed, every written path exists and none is in flight; nothing else changes |
| FileSystem.Disk.constructor | app/classes/Boot.js:8-15 | the disk starts with the given paths, no write in flight and an empty call log |
| FileSystem.Disk.Exists | app/classes/Boot.js:104 | `fileExistsSync` reports exactly whether the path exists, and changes nothing |
| FileSystem.Disk.CreateDirSync | app/classes/Boot.js:112 | the directory exists afterwards unless creating it is refused (then it reports failure); the call is logged |
| FileSystem.Disk.WriteFileAsync | app/classes/Boot.js:128 | the write is started and is in flight, not yet on disk, unless it is refused; the call is logged |
| FileSystem.Disk.DeleteFilesSync | app/classes/Boot.js:55 | the path and everything under it is removed unless the deletion is refused (then it reports failure); the call is logged |
| FileSystem.Disk.SettleWrites | app/classes/Boot.js:128 | every write in flight lands |
| LogRotation.WithoutActiveLog | app/classes/Boot.js:137-141 | a name is kept exactly when it is in the listing and its UTF-16 code units do not start with the active log's base name, letters compared up to case and an unescaped `.` matching any unit but a line terminator; the result is no longer than the listing |
| LogRotation.FirstDateTokenFrom | app/classes/Boot.js:148 | the result is the leftmost position, at or after the start, where a `\d{4}-\d{2}` match begins, or None exactly when there is none |
| LogRotation.DateToken | app/classes/Boot.js:148-157 | None exactly when the name has no `\d{4}-\d{2}` match (the `null` case); otherwise the seven characters of the leftmost match |
| LogRotation.ExpiredNames | app/classes/Boot.js:147-164 | a name is chosen exactly when it is in the list, carries a date token, and `daysDiff(now, token)` reaches the threshold |
| LogRotation.RotationVictimsExactly | app/classes/Boot.js:136-163 | a listed name is deleted exactly when the base name is non-empty, the name does not start with it, and its first token is old enough |
| LogRotation.UndatedNamesKept | app/classes/Boot.js:148-157 | a name without a date token is never deleted |
| LogRotation.ActiveLogKept | app/classes/Boot.js:137-141 | a name whose code units start with the active log's base name, up to case, is never deleted |
| LogRotation.NothingDeletedWhenFilteredEmpty | app/classes/Boot.js:143-145 | when the filtered list is empty, nothing is deleted |
| LogRotation.CharCodeUnits | app/classes/Boot.js:137-141 | a character below U+10000 is one code unit, its own value; any other character is two, a high surrogate then a low surrogate |
| LogRotation.CodeUnitsAppend | app/classes/Boot.js:137-141 | the code units of a concatenation are the code units of its parts, concatenated |
| LogRotation.CodeUnitsInBmp | app/classes/Boot.js:137-141 | a string with no character above U+FFFF has one code unit per character, each equal to the character |
| LogRotation.MatchesActiveLogByPrefix | app/classes/Boot.js:137-141 | when a name starts with as many characters below U+10000 as the base name is long, the filter decision depends only on those characters, whatever follows |
| LogRotation.MismatchInPrefix | app/classes/Boot.js:137-141 | one position of a leading run of characters below U+10000 that fails the pattern stops the match, whatever follows |
| LogRotation.UpperCaseNameIsActiveLog | app/classes/Boot.js:137-141 | for the base name `error.log`, every name starting with `ERROR.LOG` is filtered out: case is ignored |
| LogRotation.DotMatchesAnyCharacter | app/classes/Boot.js:137-141 | for the base name `error.log`, every name starting with `error_log` is filtered out: the unescaped `.` matches any character |
| LogRotation.LongerWordIsNotActiveLog | app/classes/Boot.js:137-141 | for the base name `error.log`, no name starting with `errors.` is filtered out |
| LogRotation.SurrogatePairIsTwoUnits | app/classes/Boot.js:137-141 | for the base name `error.log`, no name starting with `error` followed by a character above U+FFFF is filtered out: the `.` consumes only the high surrogate, and `l` meets the low one |
| LogRotation.SurrogateNameDeleted | app/classes/Boot.js:136-163 | such a name, when listed and old enough, is deleted like any other rotated file |
| ProfileBoot.ChildPaths | app/classes/Boot.js:162 | each name becomes `logDir/name`, in order, one path per name |
| ProfileBoot.Boot.constructor | app/classes/Boot.js:24-28 | the directory list is the log directory, the file list is the log file, and the settings file is the profile's settings file |
| ProfileBoot.Boot.VerifyDir | app/classes/Boot.js:102-108 | true exactly when a path was given and it exists; an `undefined` path never exists |
| ProfileBoot.Boot.VerifyFile | app/classes/Boot.js:118-124 | true exactly when the path exists |
| ProfileBoot.Boot.CreateDir | app/classes/Boot.js:110-116 | the disk after `createDirSync`; a refused creation is caught and leaves the disk as it was, apart from the logged call |
| ProfileBoot.Boot.CreateFile | app/classes/Boot.js:126-132 | the disk after starting the write, which is not awaited |
| ProfileBoot.Boot.Init | app/classes/Boot.js:30-62 | the disk becomes `InitState` of the old disk (directories, then the settings file, then the files, then the legacy directory); the result is `true`, or `undefined` when deleting the legacy directory throws |
| ProfileBoot.Boot.Verify | app/classes/Boot.js:64-86 | true exactly when the file list is no longer than the directory list and every checked directory and file exists, false otherwise; the disk is not changed |
| ProfileBoot.Boot.QuickVerify | app/classes/Boot.js:88-100 | never `true`; `false` exactly when some file of the list is missing, `undefined` otherwise; the disk is not changed |
| ProfileBoot.Boot.CleanRotationFiles | app/classes/Boot.js:134-168 | the disk after deleting, in listing order, `logDir/name` for each chosen name; nothing when the log directory cannot be listed or the base name is empty |
| BootProperties.EnsureDirsEffect | app/classes/Boot.js:32-38 | after the directory loop every permitted directory exists, nothing is removed, no write changes, every new call creates a directory that was missing, every missing directory gets a creation, and nothing happens when all exist |
| BootProperties.EnsureFilesEffect | app/classes/Boot.js:44-50 | after the file loop every permitted missing file is being written, existing files are not rewritten, entries do not change, every missing file gets a write, and nothing happens when all exist |
| BootProperties.InitEffect | app/classes/Boot.js:30-58 | after `init` every permitted directory exists; the settings file and every file exist or are being written unless refused; the legacy directory is gone unless its deletion is refused; nothing outside it is removed; only layout paths are added; the result is `undefined` exactly when the legacy directory was present and its deletion throws |
| BootProperties.InitCallsEffect | app/classes/Boot.js:32-56 | `init` only appends to the call log, and every call it makes creates a missing directory, writes a missing settings or log file, or removes a legacy directory that was present |
| BootProperties.InitCreatesMissingDirs | app/classes/Boot.js:32-38 | a missing directory of the list always gets a creation call |
| BootProperties.InitWritesMissingSettings | app/classes/Boot.js:40-42 | a missing settings file that is not also one of the listed directories always gets a write |
| BootProperties.InitWritesMissingFile | app/classes/Boot.js:44-50 | a missing file of the list that is not also one of the listed directories always gets a write |
| BootProperties.InitRemovesLegacy | app/classes/Boot.js:54-56 | a legacy directory that is present always gets a removal call |
| BootProperties.InitIssuesWhenMissing | app/classes/Boot.js:32-56 | the other direction of `InitCallsEffect`: every missing directory, missing settings file, missing file and present legacy directory gets its call |
| BootProperties.InitIdempotent | app/classes/Boot.js:30-58 | running `init` a second time leaves the existing paths and the writes in flight unchanged |
| BootProperties.InitQuiescent | app/classes/Boot.js:30-58 | once the first run's writes have landed and nothing is refused, a second `init` makes no call at all and returns the disk unchanged |
| BootProperties.VerifyAfterInit | app/classes/Boot.js:64-82 | once the writes of `init` have landed and nothing is refused, `verify` passes |
| BootProperties.VerifyBeforeWritesLandFails | app/classes/Boot.js:126-132 | because the write is not awaited, `verify` right after `init` fails when a log file was missing |
| BootProperties.VerifyDetectsRemoval | app/classes/Boot.js:64-80 | removing any checked directory or file makes `verify` fail |
| BootProperties.VerifyLoopBoundQuirk | app/classes/Boot.js:66-67 | for any lists and disk: a file list longer than the directory list always fails, and otherwise the result is the same as for the directory list cut to the file list's length, so the remaining directories are never checked; for the profile's two directories and one file, a missing second directory still passes |
| BootProperties.VerifyOnProfile | app/classes/Boot.js:24-28 | for the one directory and one file `Boot` is built with, `verify` passes exactly when the log directory and the log file exist |
| BootProperties.RemoveAllEffect | app/classes/Boot.js:147-164 | deleting targets inside one directory removes every permitted target, removes only paths under a permitted target, leaves everything outside the directory and the writes in flight alone, and logs one removal per target, in order |
| BootProperties.ChildPathInjective | app/classes/Boot.js:162 | two names give the same `logDir/name` path only when they are the same name |
| BootProperties.CleanRotationEffect | app/classes/Boot.js:134-168 | `logDir/name` is deleted exactly when the directory was listed, the base name is non-empty, the name is listed, it does not start with the base name, and its first token is old enough; every call removes a path under `logDir`; nothing outside `logDir` and no write in flight changes |
| Lifecycle.UpdateConfigRules | app/main.dev.js:204-218 | checking and downloading are on unless their stored setting is exactly `false`; prereleases are on only when their setting is exactly `true`; with nothing stored, the config is check on, download on, prerelease off |
| Lifecycle.AppUpdaterRules | app/main.dev.js:198-202 | the updater is off exactly for a packaged macOS build that is an App Store build or is not in the Applications folder |
| Lifecycle.BootTheDevice | app/main.dev.js:41-55 | `quickVerify` is never truthy, so `init` always runs; the disk becomes `InitState` of the old disk, with its writes landed when they finish before `verify`; the verdict is `verify`'s result on that disk |
| Lifecycle.LoadMainProcess | app/main.dev.js:26-29 | loading the module runs the boot check with the result above, and the process starts before `ready`, with no window, no monitoring, no relay and no scheduled check; quit is requested exactly when the lock was not obtained |
| Lifecycle.MainProcess.constructor | app/main.dev.js:162-164 | the process starts before `ready`, with no window; quit is requested exactly when the single-instance lock was not obtained |
| Lifecycle.MainProcess.CreateWindow | app/main.dev.js:73-119 | after `ready`, a fresh window becomes `mainWindow`, unminimized and unfocused, joins the live windows, and its construction is logged; before `ready` the construction throws, is caught, and nothing changes; nothing else changes in either case |
| Lifecycle.MainProcess.Ready | app/main.dev.js:194-263 | the app becomes ready; the handler creates a window, then initialises the updater with the derived config, then builds the menu, then starts USB monitoring, in that order; the check is scheduled exactly when both checking and the updater are enabled; the relay is registered; with no window before, at most one exists after |
| Lifecycle.MainProcess.ConfigureUpdates | app/main.dev.js:198-234 | the updater is initialised with the config derived from the stored settings, then the menu is built with the updater flag; the check is scheduled when both checking and the updater are enabled, and a check already scheduled stays scheduled |
| Lifecycle.MainProcess.StartUsbRelay | app/main.dev.js:236-259 | USB monitoring is started and logged, and the `add` and `remove` relay is registered |
| Lifecycle.MainProcess.SecondInstance | app/main.dev.js:166-174 | with the lock and a window, the window ends unminimized and focused; otherwise nothing changes; no window is ever created |
| Lifecycle.MainProcess.WindowAllClosed | app/main.dev.js:182-192 | quit is requested on every platform except `darwin`; nothing else changes |
| Lifecycle.MainProcess.Activate | app/main.dev.js:265-273 | after `ready`, a window is created exactly when `mainWindow` is null, so afterwards a window exists and at most one stays alive; before `ready` nothing changes |
| Lifecycle.MainProcess.Closed | app/main.dev.js:113-115 | closing a live window removes it and sets `mainWindow` to null; nothing else changes |
| Lifecycle.MainProcess.RelayHotplug | app/main.dev.js:239-259 | one message is appended exactly when the relay is registered, monitoring is on and a window exists; otherwise the outbox is unchanged |
| Lifecycle.MainProcess.UsbAdd | app/main.dev.js:239-248 | while the relay is registered and monitoring is on, with a window, exactly one `usbHotplug` message with event `attach` is appended; with no window, or before `ready`, nothing |
| Lifecycle.MainProcess.UsbRemove | app/main.dev.js:250-259 | while the relay is registered and monitoring is on, with a window, exactly one `usbHotplug` message with event `detach` is appended; with no window, or before `ready`, nothing |
| Lifecycle.MainProcess.BeforeQuit | app/main.dev.js:275-287 | MTP disposal is started, then monitoring is stopped, then `quitting` is set; the window state and the outbox do not change |
| Lifecycle.MainProcess.ThemeUpdated | app/main.dev.js:289-305 | a `nativeThemeUpdated` message with the OS dark-mode flag is appended exactly when the theme setting is `auto` and a window exists |

## Left out

- Electron plumbing: `BrowserWindow` options, `loadURL`, `onerror`, devtools extensions, sentry, source-map support, the `ipcMain` alert handler, `uncaughtException` logging, the empty `ready` handler registered with the lock, and the internals of `MenuBuilder` and `AppUpdate`. These are foreign library calls; the model records only that the updater was initialised with a config and that the menu was built with an updater flag.
- The `did-finish-load` handler that maximizes, shows and focuses the window, or minimizes it when `START_MINIMIZED` is set. It is an Electron callback; the window's minimized and focused flags are only changed by `second-instance` here, and a client run sets `minimized` directly to stand for it.
- `installExtensions`: it runs only in development builds and only installs devtools.
- The real timer behind `setTimeout` and `AUTO_UPDATE_CHECK_FIREUP_DELAY`. The scheduled check is a boolean.
- The internals of `usb-detection` and of `fileExplorerController.dispose`. They are native engines. The model records only that they were called, and in what order. A rejected disposal is only logged, so it is not modelled.
- The non-bootable branch (`app/main.dev.js:125-140`) and `nonBootableDeviceWindow`. The condition is a Promise, so this branch cannot be reached.
- `fileExistsSync`, `createDirSync`, `writeFileAsync` and `deleteFilesSync` are not part of this model. They stand as operations on a set of paths. A path in `denied` makes the operation throw. Parent directories are not tracked, so a file can exist without its directory. Permissions and I/O errors other than a refused path are not modelled.
- `readdirSync` is not part of this model. Its listing is an input to `CleanRotationFiles`, and the listing is taken only when the log directory exists.
- `daysDiff`, `dateNow` and `baseName` are parameters. `daysDiff` returns an integer, so a `NaN` difference, which the `>=` test would reject, is not modelled.
- `PATHS` is not part of this model. The lemmas about `init` require that no path it ensures lies inside the legacy profile directory it removes (`LayoutValid`).
- `APP_THEME_MODE_TYPE.auto` is taken to be the string `"auto"`, and `getEnablePrereleaseUpdatesSetting` is taken to return the stored value unchanged.
- The `catch` blocks of the `main.dev.js` handlers only log, and the collaborators they guard are not modelled, so those blocks are not reached in the model.
- CleanRotationFiles (ProfileBoot.Boot.CleanRotationFiles): it requires the log file's base name to be a plain name of ASCII letters, digits, `-`, `_` and `.`, whose first character is not one that the leading backslash turns into an escape. Other base names, whose regular expression has other meanings or is invalid, are not modelled.
- The filter compares UTF-16 code units, as a regular expression without the `u` flag does. Its case folding maps only `a`-`z` onto `A`-`Z`. The pattern is ASCII, and no other code unit folds onto an ASCII letter, so this is exact for the covered base names. The date-token match scans characters rather than code units; its digits and `-` are ASCII, so both scans find the same token.
