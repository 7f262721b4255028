/** The Electron main process of app/main.dev.js: the boot check at load time
    and the handlers that drive the main window, the USB hot-plug relay, the
    update check and shutdown, over the module-level `mainWindow` state. */
module Lifecycle {
  import opened Js
  import opened FileSystem
  import opened ProfileBoot

  datatype HotplugEvent = Attach | Detach

  /** Messages sent to the renderer through `mainWindow.webContents.send`. */
  datatype Message =
    | UsbHotplug(device: string, eventName: HotplugEvent)
    | NativeThemeUpdated(shouldUseDarkColors: bool)

  datatype DeviceType = Mtp | Local

  /** The options `AppUpdate` is constructed with. */
  datatype UpdateConfig = UpdateConfig(autoUpdateCheck: bool, autoDownload: bool, allowPrerelease: bool)

  /** Calls into Electron and native collaborators, in the order they are made. */
  datatype Call =
    | NewBrowserWindow(window: nat)
    | InitAppUpdate(config: UpdateConfig)
    | BuildMenu(appUpdaterEnable: bool)
    | StartMonitoring
    | StopMonitoring
    | Dispose(deviceType: DeviceType)

  /** The stored update settings, as the settings store returns them. */
  datatype UpdateSettings = UpdateSettings(enableAutoUpdateCheck: JsValue, enableBackgroundAutoUpdate: JsValue,
                                           enablePrereleaseUpdates: JsValue)

  /** The module-level `mainWindow`: null, or a live window. */
  datatype MainWindow = NoWindow | Window(id: nat, minimized: bool, focused: bool)

  /** `APP_THEME_MODE_TYPE.auto`. */
  const AutoThemeMode: JsValue := Str("auto")

  /** The update options derived in the `ready` handler: checking and
      downloading stay on unless the setting is exactly `false`, prereleases are
      on only when their setting is exactly `true`. */
  function DeriveUpdateConfig(settings: UpdateSettings): UpdateConfig {
    UpdateConfig(settings.enableAutoUpdateCheck != Bool(false),
                 settings.enableBackgroundAutoUpdate != Bool(false),
                 settings.enablePrereleaseUpdates == Bool(true))
  }

  /** `appUpdaterEnable`: true, except for a packaged build on macOS, where it
      requires a non-App-Store build installed in the Applications folder. */
  function AppUpdaterEnabled(isPackaged: bool, platform: string, isMas: bool, inApplicationsFolder: bool): bool {
    if isPackaged && platform == "darwin" then !isMas && inApplicationsFolder else true
  }

  /** The update rules against the stored values: only a stored `false` turns
      checking or downloading off, so a missing or non-boolean setting leaves them on,
      and only a stored `true` turns prereleases on. */
  lemma UpdateConfigRules(settings: UpdateSettings)
    ensures DeriveUpdateConfig(settings).autoUpdateCheck <==> settings.enableAutoUpdateCheck != Bool(false)
    ensures DeriveUpdateConfig(settings).autoDownload <==> settings.enableBackgroundAutoUpdate != Bool(false)
    ensures DeriveUpdateConfig(settings).allowPrerelease <==> settings.enablePrereleaseUpdates == Bool(true)
    ensures settings == UpdateSettings(Absent, Absent, Absent) ==>
              DeriveUpdateConfig(settings) == UpdateConfig(true, true, false)
  {
  }

  /** The updater is off exactly for a packaged macOS build that is an App Store
      build or is not in the Applications folder. */
  lemma AppUpdaterRules(isPackaged: bool, platform: string, isMas: bool, inApplicationsFolder: bool)
    ensures !AppUpdaterEnabled(isPackaged, platform, isMas, inApplicationsFolder) <==>
              isPackaged && platform == "darwin" && (isMas || !inApplicationsFolder)
  {
  }

  /** `bootTheDevice`. `writesLanded` says whether the empty-file writes that
      `init` started without awaiting had finished by the time `verify` ran. */
  method BootTheDevice(boot: Boot, writesLanded: bool) returns (verdict: JsBool)
    modifies boot.disk
    ensures var s1 := InitState(old(boot.disk.State()), boot.disk.denied, boot.InitLayout());
      boot.disk.State() == if writesLanded then Settled(s1) else s1
    ensures verdict == if VerifyPasses(boot.verifyDirList, boot.verifyFileList, boot.disk.entries) then JsTrue else JsFalse
  {
    var quick := boot.QuickVerify();
    if Truthy(quick) {
      // the warm-start path; quickVerify never yields true, so it is never taken
      verdict := JsTrue;
    } else {
      var _ := boot.Init();
      if writesLanded {
        boot.disk.SettleWrites();
      }
      verdict := boot.Verify();
    }
  }

  class MainProcess {
    /** `process.platform`. */
    const platform: string
    const isPackaged: bool
    /** `electronIs.mas()`. */
    const isMas: bool
    /** `app.requestSingleInstanceLock()`; its handler for `second-instance` is
        registered only when the lock was obtained. */
    const isSingleInstance: bool

    /** `app.isReady()`: the `ready` event has fired. */
    var appReady: bool
    var mainWindow: MainWindow
    /** The windows alive, whichever variable last referred to them. */
    var openWindows: set<nat>
    var nextWindowId: nat
    /** `usbDetect` is monitoring. */
    var monitoring: bool
    /** The `add` and `remove` handlers of `usbDetect` are registered. */
    var hotplugRelay: bool
    /** `app.quitting`. */
    var quitting: bool
    /** `app.quit()` has been called. */
    var quitRequested: bool
    /** The delayed `checkForUpdates` is scheduled. */
    var updateCheckScheduled: bool
    /** Messages sent to the renderer, oldest first. */
    var outbox: seq<Message>
    var calls: seq<Call>

    ghost predicate Valid()
      reads this
    {
      && (mainWindow.Window? ==> mainWindow.id in openWindows)
      && (forall w :: w in openWindows ==> w < nextWindowId)
      && (monitoring ==> hotplugRelay)
      && (!appReady ==> mainWindow.NoWindow? && openWindows == {})
    }

    /** At most one window is alive, and it is the one `mainWindow` refers to. */
    predicate AtMostOneWindow()
      reads this
    {
      |openWindows| <= 1 && (openWindows == {} <==> mainWindow.NoWindow?)
    }

    /** Loading the module: the lock was or was not obtained, and losing it
        requests quit at once. */
    constructor (platform: string, isPackaged: bool, isMas: bool, isSingleInstance: bool)
      ensures Valid() && AtMostOneWindow()
      ensures this.platform == platform && this.isPackaged == isPackaged && this.isMas == isMas
      ensures this.isSingleInstance == isSingleInstance
      ensures !appReady && mainWindow == NoWindow && openWindows == {}
      ensures !monitoring && !hotplugRelay && !quitting && !updateCheckScheduled
      ensures quitRequested == !isSingleInstance
      ensures outbox == [] && calls == []
    {
      this.platform, this.isPackaged, this.isMas := platform, isPackaged, isMas;
      this.isSingleInstance := isSingleInstance;
      appReady := false;
      mainWindow, openWindows, nextWindowId := NoWindow, {}, 0;
      monitoring, hotplugRelay, quitting, updateCheckScheduled := false, false, false, false;
      quitRequested := !isSingleInstance;
      outbox, calls := [], [];
    }

    /** `createWindow`: once the app is ready, a new window becomes
        `mainWindow`; its `closed` handler is `Closed` below. Before that,
        `new BrowserWindow` throws, the `catch` block logs it, and nothing
        changes. */
    method CreateWindow()
      requires Valid()
      modifies this
      ensures Valid()
      ensures old(appReady) ==>
                && mainWindow == Window(old(nextWindowId), false, false)
                && openWindows == old(openWindows) + {old(nextWindowId)} && old(nextWindowId) !in old(openWindows)
                && nextWindowId == old(nextWindowId) + 1
                && calls == old(calls) + [NewBrowserWindow(old(nextWindowId))]
      ensures !old(appReady) ==>
                && mainWindow == old(mainWindow) && openWindows == old(openWindows)
                && nextWindowId == old(nextWindowId) && calls == old(calls)
      ensures appReady == old(appReady)
      ensures monitoring == old(monitoring) && hotplugRelay == old(hotplugRelay) && quitting == old(quitting)
      ensures quitRequested == old(quitRequested) && updateCheckScheduled == old(updateCheckScheduled)
      ensures outbox == old(outbox)
    {
      if !appReady {
        // new BrowserWindow throws before `ready`; the catch block logs it
        return;
      }
      var id := nextWindowId;
      mainWindow := Window(id, false, false);
      openWindows := openWindows + {id};
      nextWindowId := id + 1;
      calls := calls + [NewBrowserWindow(id)];
    }

    /** The `ready` handler: create the window, configure the updater and the
        menu, schedule the update check when both the setting and the platform
        allow it, start USB monitoring and register the hot-plug relay. */
    method Ready(settings: UpdateSettings, inApplicationsFolder: bool)
      requires Valid()
      modifies this
      ensures Valid() && appReady
      ensures !old(appReady) ==> AtMostOneWindow()
      ensures old(AtMostOneWindow()) && old(mainWindow).NoWindow? ==> AtMostOneWindow()
      ensures mainWindow == Window(old(nextWindowId), false, false)
      ensures openWindows == old(openWindows) + {old(nextWindowId)}
      ensures var config := DeriveUpdateConfig(settings);
              var enable := AppUpdaterEnabled(isPackaged, platform, isMas, inApplicationsFolder);
              && calls == old(calls) + [NewBrowserWindow(old(nextWindowId)), InitAppUpdate(config), BuildMenu(enable), StartMonitoring]
              && updateCheckScheduled == (old(updateCheckScheduled) || (config.autoUpdateCheck && enable))
      ensures monitoring && hotplugRelay
      ensures quitting == old(quitting) && quitRequested == old(quitRequested) && outbox == old(outbox)
    {
      appReady := true;
      CreateWindow();
      assert old(AtMostOneWindow()) && old(mainWindow).NoWindow? ==> openWindows == {old(nextWindowId)};
      ConfigureUpdates(settings, inApplicationsFolder);
      StartUsbRelay();
    }

    /** The updater part of `ready`: initialise `AppUpdate` with the derived
        options, build the menu, and schedule the check when both the setting
        and the platform allow it. */
    method ConfigureUpdates(settings: UpdateSettings, inApplicationsFolder: bool)
      modifies this`calls, this`updateCheckScheduled
      ensures var config := DeriveUpdateConfig(settings);
              var enable := AppUpdaterEnabled(isPackaged, platform, isMas, inApplicationsFolder);
              && calls == old(calls) + [InitAppUpdate(config), BuildMenu(enable)]
              && updateCheckScheduled == (old(updateCheckScheduled) || (config.autoUpdateCheck && enable))
    {
      var appUpdaterEnable := AppUpdaterEnabled(isPackaged, platform, isMas, inApplicationsFolder);
      var config := DeriveUpdateConfig(settings);
      calls := calls + [InitAppUpdate(config), BuildMenu(appUpdaterEnable)];
      if config.autoUpdateCheck && appUpdaterEnable {
        updateCheckScheduled := true;
      }
    }

    /** The USB part of `ready`: start monitoring and register the `add` and
        `remove` handlers, which are `UsbAdd` and `UsbRemove` below. */
    method StartUsbRelay()
      modifies this`calls, this`monitoring, this`hotplugRelay
      ensures calls == old(calls) + [StartMonitoring]
      ensures monitoring && hotplugRelay
    {
      calls := calls + [StartMonitoring];
      monitoring := true;
      hotplugRelay := true;
    }

    /** The `second-instance` handler: restore the window if it is minimized,
        then focus it; never create one. Without the lock no handler exists. */
    method SecondInstance()
      requires Valid()
      modifies this
      ensures Valid()
      ensures old(AtMostOneWindow()) ==> AtMostOneWindow()
      ensures mainWindow == if isSingleInstance && old(mainWindow).Window?
                            then Window(old(mainWindow).id, false, true) else old(mainWindow)
      ensures openWindows == old(openWindows) && nextWindowId == old(nextWindowId) && appReady == old(appReady)
      ensures calls == old(calls) && outbox == old(outbox)
      ensures monitoring == old(monitoring) && hotplugRelay == old(hotplugRelay) && quitting == old(quitting)
      ensures quitRequested == old(quitRequested) && updateCheckScheduled == old(updateCheckScheduled)
    {
      if isSingleInstance && mainWindow.Window? {
        if mainWindow.minimized {
          mainWindow := mainWindow.(minimized := false);
        }
        mainWindow := mainWindow.(focused := true);
      }
    }

    /** The `window-all-closed` handler: quit, except on macOS. */
    method WindowAllClosed()
      modifies this
      ensures quitRequested == (old(quitRequested) || platform != "darwin")
      ensures mainWindow == old(mainWindow) && openWindows == old(openWindows) && nextWindowId == old(nextWindowId)
      ensures appReady == old(appReady) && calls == old(calls) && outbox == old(outbox)
      ensures monitoring == old(monitoring) && hotplugRelay == old(hotplugRelay) && quitting == old(quitting)
      ensures updateCheckScheduled == old(updateCheckScheduled)
    {
      if platform != "darwin" {
        quitRequested := true;
      }
    }

    /** The `activate` handler: create a window only when `mainWindow` is null. */
    method Activate()
      requires Valid()
      modifies this
      ensures Valid()
      ensures old(AtMostOneWindow()) ==> AtMostOneWindow()
      ensures appReady == old(appReady)
      ensures appReady ==> mainWindow.Window?
      ensures old(mainWindow).Window? || !old(appReady) ==>
                && mainWindow == old(mainWindow) && openWindows == old(openWindows)
                && nextWindowId == old(nextWindowId) && calls == old(calls)
      ensures old(mainWindow).NoWindow? && old(appReady) ==>
                && mainWindow == Window(old(nextWindowId), false, false)
                && openWindows == old(openWindows) + {old(nextWindowId)}
                && calls == old(calls) + [NewBrowserWindow(old(nextWindowId))]
      ensures outbox == old(outbox)
      ensures monitoring == old(monitoring) && hotplugRelay == old(hotplugRelay) && quitting == old(quitting)
      ensures quitRequested == old(quitRequested) && updateCheckScheduled == old(updateCheckScheduled)
    {
      if mainWindow == NoWindow {
        CreateWindow();
      }
    }

    /** The `closed` handler of window `window`: it sets `mainWindow` to null,
        whichever window `mainWindow` refers to. */
    method Closed(window: nat)
      requires Valid()
      modifies this
      ensures Valid()
      ensures old(AtMostOneWindow()) ==> AtMostOneWindow()
      ensures window in old(openWindows) ==> mainWindow == NoWindow && openWindows == old(openWindows) - {window}
      ensures window !in old(openWindows) ==> mainWindow == old(mainWindow) && openWindows == old(openWindows)
      ensures nextWindowId == old(nextWindowId) && appReady == old(appReady) && calls == old(calls) && outbox == old(outbox)
      ensures monitoring == old(monitoring) && hotplugRelay == old(hotplugRelay) && quitting == old(quitting)
      ensures quitRequested == old(quitRequested) && updateCheckScheduled == old(updateCheckScheduled)
    {
      if window in openWindows {
        openWindows := openWindows - {window};
        mainWindow := NoWindow;
      }
    }

    /** Relays one hot-plug event when the relay is registered, the monitor is
        running and a window exists. */
    method RelayHotplug(device: string, kind: HotplugEvent)
      modifies this`outbox
      ensures outbox == old(outbox) +
                if hotplugRelay && monitoring && mainWindow.Window? then [UsbHotplug(device, kind)] else []
    {
      if hotplugRelay && monitoring && mainWindow.Window? {
        outbox := outbox + [UsbHotplug(device, kind)];
      }
    }

    /** `usbDetect.on('add')`: `device` is the `JSON.stringify`-ed descriptor. */
    method UsbAdd(device: string)
      modifies this`outbox
      ensures outbox == old(outbox) +
                if hotplugRelay && monitoring && mainWindow.Window? then [UsbHotplug(device, Attach)] else []
    {
      RelayHotplug(device, Attach);
    }

    /** `usbDetect.on('remove')`. */
    method UsbRemove(device: string)
      modifies this`outbox
      ensures outbox == old(outbox) +
                if hotplugRelay && monitoring && mainWindow.Window? then [UsbHotplug(device, Detach)] else []
    {
      RelayHotplug(device, Detach);
    }

    /** The `before-quit` handler: start disposing the MTP session without
        awaiting it (a rejection is only logged), stop USB monitoring, then set
        `app.quitting`. */
    method BeforeQuit()
      requires Valid()
      modifies this
      ensures Valid()
      ensures calls == old(calls) + [Dispose(Mtp), StopMonitoring]
      ensures !monitoring && quitting
      ensures mainWindow == old(mainWindow) && openWindows == old(openWindows) && nextWindowId == old(nextWindowId)
      ensures outbox == old(outbox) && hotplugRelay == old(hotplugRelay) && appReady == old(appReady)
      ensures quitRequested == old(quitRequested) && updateCheckScheduled == old(updateCheckScheduled)
    {
      calls := calls + [Dispose(Mtp)];
      calls := calls + [StopMonitoring];
      monitoring := false;
      quitting := true;
    }

    /** The `nativeTheme.on('updated')` handler: tell the renderer only when the
        theme setting is `auto` and a window exists. */
    method ThemeUpdated(appThemeMode: JsValue, shouldUseDarkColors: bool)
      modifies this`outbox
      ensures outbox == old(outbox) +
                if appThemeMode == AutoThemeMode && mainWindow.Window? then [NativeThemeUpdated(shouldUseDarkColors)] else []
    {
      if appThemeMode != AutoThemeMode {
        return;
      }
      if mainWindow.NoWindow? {
        return;
      }
      outbox := outbox + [NativeThemeUpdated(shouldUseDarkColors)];
    }
  }

  /** Loading app/main.dev.js: request the lock, run the boot check, register
      the handlers. `isDeviceBootable` holds the promise `bootTheDevice`
      returns, which is truthy whatever it resolves to, so the handlers are
      always those of the bootable branch. */
  method LoadMainProcess(boot: Boot, platform: string, isPackaged: bool, isMas: bool,
                         isSingleInstance: bool, writesLanded: bool)
    returns (app: MainProcess, verdict: JsBool)
    modifies boot.disk
    ensures var s1 := InitState(old(boot.disk.State()), boot.disk.denied, boot.InitLayout());
      boot.disk.State() == if writesLanded then Settled(s1) else s1
    ensures verdict == if VerifyPasses(boot.verifyDirList, boot.verifyFileList, boot.disk.entries) then JsTrue else JsFalse
    ensures fresh(app) && app.Valid() && app.AtMostOneWindow()
    ensures app.platform == platform && app.isPackaged == isPackaged && app.isMas == isMas
    ensures app.isSingleInstance == isSingleInstance && app.quitRequested == !isSingleInstance
    ensures !app.appReady && app.mainWindow == NoWindow && app.outbox == [] && app.calls == []
    ensures !app.monitoring && !app.hotplugRelay && !app.quitting && !app.updateCheckScheduled
  {
    verdict := BootTheDevice(boot, writesLanded);
    app := new MainProcess(platform, isPackaged, isMas, isSingleInstance);
  }

  // ---------------------------------------------------------------------------
  // Runs of the handlers

  /** A hot-plug event before `ready` reaches nobody; after `ready` it yields
      exactly one `attach` message; after `before-quit` the monitor is stopped
      and nothing more is relayed. */
  method HotplugRun() {
    var app := new MainProcess("linux", true, false, true);
    app.UsbAdd("{\"vendorId\":1}");
    assert app.outbox == [];
    app.Ready(UpdateSettings(Absent, Absent, Absent), false);
    assert app.updateCheckScheduled;
    app.UsbAdd("{\"vendorId\":1}");
    assert app.outbox == [UsbHotplug("{\"vendorId\":1}", Attach)];
    app.BeforeQuit();
    assert app.calls[|app.calls| - 2..] == [Dispose(Mtp), StopMonitoring];
    app.UsbRemove("{\"vendorId\":1}");
    assert app.outbox == [UsbHotplug("{\"vendorId\":1}", Attach)];
  }

  /** On macOS closing the last window keeps the process alive and `activate`
      brings back exactly one window; on Linux it quits. */
  method ReactivationRun() {
    var app := new MainProcess("darwin", true, false, true);
    app.Ready(UpdateSettings(Bool(false), Absent, Absent), true);
    assert !app.updateCheckScheduled;
    var first := app.mainWindow.id;
    app.Closed(first);
    app.WindowAllClosed();
    assert !app.quitRequested && app.mainWindow == NoWindow;
    app.Activate();
    app.Activate();
    assert app.AtMostOneWindow() && app.mainWindow.Window?;

    var linux := new MainProcess("linux", false, false, true);
    linux.WindowAllClosed();
    assert linux.quitRequested;
  }

  /** A second launch only restores and focuses the existing window, and an
      instance that lost the lock requests quit and ignores `second-instance`. */
  method SingleInstanceRun() {
    var app := new MainProcess("win32", true, false, true);
    app.Ready(UpdateSettings(Absent, Absent, Absent), false);
    app.mainWindow := app.mainWindow.(minimized := true);
    app.SecondInstance();
    assert app.mainWindow.Window? && !app.mainWindow.minimized && app.mainWindow.focused;
    assert |app.openWindows| == 1;

    var loser := new MainProcess("win32", true, false, false);
    assert loser.quitRequested;
    loser.SecondInstance();
    assert loser.mainWindow == NoWindow && loser.openWindows == {};
  }

  /** An `activate` delivered before `ready` creates no window (the
      construction throws and is logged), so `ready` still leaves exactly one
      window alive, and a later `activate` adds none. */
  method ActivateBeforeReadyRun() {
    var app := new MainProcess("darwin", true, false, true);
    app.Activate();
    assert app.mainWindow == NoWindow && app.calls == [];
    app.Ready(UpdateSettings(Absent, Absent, Absent), true);
    assert app.AtMostOneWindow() && app.mainWindow.Window?;
    app.Activate();
    assert |app.openWindows| == 1;
  }
}
