/** The desktop session of `App.tsx`: the window list and active window, the
    four overlay menus, the power state, the Wi-Fi simulator, the volume, the
    battery switches and the personalisation the Settings application edits.
    Every handler is a method over the session's fields; the delayed updates
    the handlers schedule with `setTimeout` are kept as pending timers and
    happen when the matching `Fire` method is called. */
module Shell {
  import opened Types
  import Windows
  import Tray
  import Settings
  import WindowFrame

  /** `type SystemState`. */
  datatype SystemState = Booting | Running | Off

  /** `type PowerMode`. */
  datatype PowerMode = Saver | Balanced | Performance

  /** The four pop-up menus over the desktop. */
  datatype Overlay = StartMenu | WifiMenu | VolumeMenu | BatteryMenu

  /** `DEFAULT_WALLPAPER`. */
  const DefaultWallpaper: string :=
    "https://images.unsplash.com/photo-1551244072-5d12893278ab?q=80&w=2832&auto=format&fit=crop"

  /** The desktop icons the session starts with (every application except
      Plants vs Zombies). */
  const InitialDesktopApps: seq<AppId> :=
    [SharkBrain, DeepNotes, OceanGallery, SystemStatus, AppId.Settings, AppId.PlayStore,
     VideoPlayer, AppId.SharkShare, AppId.MusicPlayer]

  /** The taskbar's pinned applications at start. */
  const InitialPinnedApps: seq<AppId> := [SharkBrain, AppId.SharkShare, AppId.MusicPlayer, AppId.Settings]

  /** A network shown as "Connecting..." is the target of the newest of the
      pending connect timers. */
  predicate ConnectingIsNewest(connecting: Option<string>, pending: seq<string>) {
    connecting.Some? ==> pending != [] && pending[|pending| - 1] == connecting.value
  }

  class ShellSession {
    var systemState: SystemState
    var windows: seq<WindowState>
    var activeWindowId: Option<string>
    var startMenuOpen: bool
    var wifiMenuOpen: bool
    var volumeMenuOpen: bool
    var batteryMenuOpen: bool
    var wallpaper: string
    var desktopAppIds: seq<AppId>
    var pinnedAppIds: seq<AppId>
    var clockConfig: Settings.ClockConfig
    var wifiEnabled: bool
    var connectedNetwork: Option<string>
    var connectingNetwork: Option<string>
    var networks: seq<Tray.Network>
    var isAddingWifi: bool
    var newWifiSsid: string
    var newWifiPass: string
    var volume: int
    var isMuted: bool
    var batteryLevel: int
    var isCharging: bool
    var powerMode: PowerMode

    /** The 2-second connect timers handleNetworkConnect has started and that
        have not fired yet, oldest first (equal delays fire in order). */
    var pendingConnects: seq<string>
    /** The 1.5-second auto-connect timers started by turning Wi-Fi on. */
    var pendingAutoConnects: nat
    /** The 1-second power-on timers started by handleRestart. */
    var pendingRestarts: nat

    /** Whether menu `o` is open. */
    function OverlayOpen(o: Overlay): bool
      reads this`startMenuOpen, this`wifiMenuOpen, this`volumeMenuOpen, this`batteryMenuOpen
    {
      match o
      case StartMenu => startMenuOpen
      case WifiMenu => wifiMenuOpen
      case VolumeMenu => volumeMenuOpen
      case BatteryMenu => batteryMenuOpen
    }

    /** How many menus are open. */
    function OpenOverlays(): nat
      reads this`startMenuOpen, this`wifiMenuOpen, this`volumeMenuOpen, this`batteryMenuOpen
    {
      (if startMenuOpen then 1 else 0) + (if wifiMenuOpen then 1 else 0) +
      (if volumeMenuOpen then 1 else 0) + (if batteryMenuOpen then 1 else 0)
    }

    /** The session invariant every handler keeps: at most one menu is open,
        the volume is on the slider's range, and a network shown as
        "Connecting..." is the target of the newest pending connect timer. */
    ghost predicate Valid()
      reads this`startMenuOpen, this`wifiMenuOpen, this`volumeMenuOpen, this`batteryMenuOpen
      reads this`volume, this`connectingNetwork, this`pendingConnects
    {
      OpenOverlays() <= 1 &&
      0 <= volume <= 100 &&
      ConnectingIsNewest(connectingNetwork, pendingConnects)
    }

    /** With Wi-Fi off there is no connection, no connection under way and no
        timer left that could make one. */
    ghost predicate WifiConsistent()
      reads this`wifiEnabled, this`connectedNetwork, this`connectingNetwork, this`pendingConnects, this`pendingAutoConnects
    {
      !wifiEnabled ==>
        connectedNetwork.None? && connectingNetwork.None? && pendingConnects == [] && pendingAutoConnects == 0
    }

    /** The active window, if any, is on screen: minimizeWindow clears the
        active id, and every handler that makes a window active shows it or
        acts on a window that is visible. */
    ghost predicate ActiveShown()
      reads this`windows, this`activeWindowId
    {
      activeWindowId.Some? ==> Windows.Shown(windows, activeWindowId.value)
    }

    /** The initial `useState` values; the session starts booting. */
    constructor ()
      ensures systemState == Booting && windows == [] && activeWindowId.None?
      ensures !startMenuOpen && !wifiMenuOpen && !volumeMenuOpen && !batteryMenuOpen
      ensures wallpaper == DefaultWallpaper
      ensures desktopAppIds == InitialDesktopApps && pinnedAppIds == InitialPinnedApps
      ensures clockConfig == Settings.InitialClock
      ensures wifiEnabled && connectedNetwork == Some(Tray.DefaultNetwork) && connectingNetwork.None?
      ensures networks == Tray.InitialNetworks && !isAddingWifi && newWifiSsid == "" && newWifiPass == ""
      ensures volume == 75 && !isMuted
      ensures batteryLevel == 84 && !isCharging && powerMode == Balanced
      ensures pendingConnects == [] && pendingAutoConnects == 0 && pendingRestarts == 0
      ensures Valid() && WifiConsistent() && ActiveShown()
    {
      systemState := Booting;
      windows := [];
      activeWindowId := None;
      startMenuOpen, wifiMenuOpen, volumeMenuOpen, batteryMenuOpen := false, false, false, false;
      wallpaper := DefaultWallpaper;
      desktopAppIds := InitialDesktopApps;
      pinnedAppIds := InitialPinnedApps;
      clockConfig := Settings.InitialClock;
      wifiEnabled := true;
      connectedNetwork := Some(Tray.DefaultNetwork);
      connectingNetwork := None;
      networks := Tray.InitialNetworks;
      isAddingWifi := false;
      newWifiSsid, newWifiPass := "", "";
      volume := 75;
      isMuted := false;
      batteryLevel := 84;
      isCharging := false;
      powerMode := Balanced;
      pendingConnects, pendingAutoConnects, pendingRestarts := [], 0, 0;
    }

    // ----- Power -----

    /** The boot effect's 4-second timer: it exists exactly while the session
        is booting, and moves it to the desktop. */
    method FireBootTimer()
      requires systemState == Booting
      modifies this`systemState
      ensures systemState == Running
    {
      systemState := Running;
    }

    /** handleShutdown: close the start menu and every window, and power off.
        The active window id is left as it was. */
    method Shutdown()
      requires Valid()
      modifies this`startMenuOpen, this`windows, this`systemState
      ensures Valid()
      ensures !startMenuOpen && windows == [] && systemState == Off
      ensures ActiveShown()
    {
      startMenuOpen := false;
      windows := [];
      systemState := Off;
    }

    /** handleRestart: as handleShutdown, and start a timer that boots the
        session again after a second. */
    method Restart()
      requires Valid()
      modifies this`startMenuOpen, this`windows, this`systemState, this`pendingRestarts
      ensures Valid()
      ensures !startMenuOpen && windows == [] && systemState == Off
      ensures pendingRestarts == old(pendingRestarts) + 1
      ensures ActiveShown()
    {
      startMenuOpen := false;
      windows := [];
      systemState := Off;
      pendingRestarts := pendingRestarts + 1;
    }

    /** A restart timer firing. */
    method FireRestartTimer()
      requires pendingRestarts > 0
      modifies this`systemState, this`pendingRestarts
      ensures systemState == Booting && pendingRestarts == old(pendingRestarts) - 1
    {
      systemState := Booting;
      pendingRestarts := pendingRestarts - 1;
    }

    /** handlePowerOn, the button of the powered-off screen. */
    method PowerOn()
      modifies this`systemState
      ensures systemState == Booting
    {
      systemState := Booting;
    }

    // ----- Windows -----

    /** openApp: append a new window for `appId` opened at millisecond `now`,
        make it active and close the start menu (the other menus stay as they
        are). A window opened at a fresh millisecond keeps the ids and
        z-indices of the list distinct. */
    method OpenApp(appId: AppId, now: nat)
      requires Valid()
      modifies this`windows, this`activeWindowId, this`startMenuOpen
      ensures Valid()
      ensures windows == Windows.Open(old(windows), appId, WindowIdFor(appId, now))
      ensures activeWindowId == Some(WindowIdFor(appId, now)) && !startMenuOpen
      ensures Windows.WellFormed(old(windows)) &&
              (forall i :: 0 <= i < |old(windows)| ==> old(windows)[i].id != WindowIdFor(appId, now)) ==>
              Windows.WellFormed(windows)
      ensures ActiveShown() <==> Windows.Shown(old(windows), WindowIdFor(appId, now))
    {
      OpenWindow(appId, WindowIdFor(appId, now));
    }

    /** openApp once the new window's id `id` is chosen. */
    method OpenWindow(appId: AppId, id: string)
      requires Valid()
      modifies this`windows, this`activeWindowId, this`startMenuOpen
      ensures Valid()
      ensures windows == Windows.Open(old(windows), appId, id)
      ensures activeWindowId == Some(id) && !startMenuOpen
      ensures Windows.WellFormed(old(windows)) &&
              (forall i :: 0 <= i < |old(windows)| ==> old(windows)[i].id != id) ==>
              Windows.WellFormed(windows)
      ensures ActiveShown() <==> Windows.Shown(old(windows), id)
    {
      Windows.OpenKeepsShown(windows, appId, id, id);
      if Windows.WellFormed(windows) && forall i :: 0 <= i < |windows| ==> windows[i].id != id {
        Windows.OpenWellFormed(windows, appId, id);
      }
      windows := Windows.Open(windows, appId, id);
      activeWindowId := Some(id);
      startMenuOpen := false;
    }

    /** closeWindow: drop the window; the active id is cleared only when it
        was this window's. */
    method CloseWindow(id: string)
      modifies this`windows, this`activeWindowId
      ensures windows == Windows.Close(old(windows), id)
      ensures activeWindowId == if old(activeWindowId) == Some(id) then None else old(activeWindowId)
      ensures Windows.WellFormed(old(windows)) ==> Windows.WellFormed(windows)
      ensures old(ActiveShown()) ==> ActiveShown()
    {
      if Windows.WellFormed(windows) {
        Windows.CloseWellFormed(windows, id);
      }
      if activeWindowId.Some? && Windows.Shown(windows, activeWindowId.value) {
        Windows.CloseKeepsShown(windows, id, activeWindowId.value);
      }
      windows := Windows.Close(windows, id);
      if activeWindowId == Some(id) {
        activeWindowId := None;
      }
    }

    /** focusWindow: the id becomes active, known or not, and its window is
        raised above every other. */
    method FocusWindow(id: string)
      modifies this`windows, this`activeWindowId
      ensures windows == Windows.Focus(old(windows), id)
      ensures activeWindowId == Some(id)
      ensures Windows.WellFormed(old(windows)) ==> Windows.WellFormed(windows)
      ensures ActiveShown() <==> Windows.Shown(old(windows), id)
    {
      Windows.FocusKeepsShown(windows, id, id);
      if Windows.WellFormed(windows) {
        Windows.FocusWellFormed(windows, id);
      }
      windows := Windows.Focus(windows, id);
      activeWindowId := Some(id);
    }

    /** minimizeWindow: hide the window, and no window is active afterwards,
        whichever one was. */
    method MinimizeWindow(id: string)
      modifies this`windows, this`activeWindowId
      ensures windows == Windows.SetMinimized(old(windows), id, true)
      ensures activeWindowId.None?
      ensures Windows.WellFormed(old(windows)) ==> Windows.WellFormed(windows)
      ensures ActiveShown()
    {
      if Windows.WellFormed(windows) {
        Windows.UpdateWellFormed(windows, id, (w: WindowState) => w.(isMinimized := true));
      }
      windows := Windows.SetMinimized(windows, id, true);
      activeWindowId := None;
    }

    /** maximizeWindow in a viewport of `vw` by `vh` pixels: toggle the
        window's geometry, then focus it. */
    method MaximizeWindow(id: string, vw: int, vh: int)
      modifies this`windows, this`activeWindowId
      ensures windows == Windows.Maximize(old(windows), id, vw, vh)
      ensures activeWindowId == Some(id)
      ensures ActiveShown() <==> Windows.Shown(old(windows), id)
    {
      Windows.MaximizeKeepsShown(windows, id, vw, vh, id);
      windows := Windows.Maximize(windows, id, vw, vh);
      activeWindowId := Some(id);
    }

    /** restoreWindow: show the window again, then focus it. */
    method RestoreWindow(id: string)
      modifies this`windows, this`activeWindowId
      ensures windows == Windows.Restore(old(windows), id)
      ensures activeWindowId == Some(id)
      ensures ActiveShown()
    {
      Windows.RestoreShows(windows, id, id);
      windows := Windows.Restore(windows, id);
      activeWindowId := Some(id);
    }

    /** moveWindow: only the window's position changes; nothing is focused. */
    method MoveWindow(id: string, x: int, y: int)
      modifies this`windows
      ensures windows == Windows.Move(old(windows), id, x, y)
      ensures ActiveShown() <==> old(ActiveShown())
    {
      if activeWindowId.Some? {
        Windows.MoveKeepsShown(windows, id, x, y, activeWindowId.value);
      }
      windows := Windows.Move(windows, id, x, y);
    }

    /** handlePinnedAppClick for `appId` at millisecond `now`: focus its first
        visible window, else restore its first minimized one, else open a new
        one. Afterwards the application has exactly one window if it had none,
        and as many as before otherwise. */
    method PinnedAppClick(appId: AppId, now: nat)
      requires Valid()
      modifies this`windows, this`activeWindowId, this`startMenuOpen
      ensures Valid()
      ensures windows == Windows.PinnedClick(old(windows), appId, WindowIdFor(appId, now))
      ensures activeWindowId == Some(Windows.PinnedTarget(Windows.PinnedActionFor(old(windows), appId), WindowIdFor(appId, now)))
      ensures startMenuOpen == (old(startMenuOpen) && !Windows.PinnedActionFor(old(windows), appId).OpenNew?)
      ensures Windows.CountApp(windows, appId) ==
        if Windows.CountApp(old(windows), appId) == 0 then 1 else Windows.CountApp(old(windows), appId)
      ensures Windows.WellFormed(old(windows)) &&
              (Windows.PinnedActionFor(old(windows), appId).OpenNew? ==> Windows.Shown(old(windows), WindowIdFor(appId, now))) ==>
              ActiveShown()
    {
      PinnedClickWithId(appId, WindowIdFor(appId, now));
    }

    /** handlePinnedAppClick where a new window, if one is opened, gets id
        `newId`. */
    method PinnedClickWithId(appId: AppId, newId: string)
      requires Valid()
      modifies this`windows, this`activeWindowId, this`startMenuOpen
      ensures Valid()
      ensures windows == Windows.PinnedClick(old(windows), appId, newId)
      ensures activeWindowId == Some(Windows.PinnedTarget(Windows.PinnedActionFor(old(windows), appId), newId))
      ensures startMenuOpen == (old(startMenuOpen) && !Windows.PinnedActionFor(old(windows), appId).OpenNew?)
      ensures Windows.CountApp(windows, appId) ==
        if Windows.CountApp(old(windows), appId) == 0 then 1 else Windows.CountApp(old(windows), appId)
      ensures Windows.WellFormed(old(windows)) &&
              (Windows.PinnedActionFor(old(windows), appId).OpenNew? ==> Windows.Shown(old(windows), newId)) ==>
              ActiveShown()
    {
      var act := Windows.PinnedActionFor(windows, appId);
      ApplyPinnedClick(appId, newId);
      if act.OpenNew? {
        startMenuOpen := false;
      }
    }

    /** The window list and active window after handlePinnedAppClick. */
    method ApplyPinnedClick(appId: AppId, newId: string)
      modifies this`windows, this`activeWindowId
      ensures windows == Windows.PinnedClick(old(windows), appId, newId)
      ensures activeWindowId == Some(Windows.PinnedTarget(Windows.PinnedActionFor(old(windows), appId), newId))
      ensures Windows.CountApp(windows, appId) ==
        if Windows.CountApp(old(windows), appId) == 0 then 1 else Windows.CountApp(old(windows), appId)
      ensures Windows.WellFormed(old(windows)) &&
              (Windows.PinnedActionFor(old(windows), appId).OpenNew? ==> Windows.Shown(old(windows), newId)) ==>
              ActiveShown()
    {
      Windows.PinnedClickSingleInstance(windows, appId, newId);
      Windows.PinnedClickShows(windows, appId, newId);
      activeWindowId := Some(Windows.PinnedTarget(Windows.PinnedActionFor(windows, appId), newId));
      windows := Windows.PinnedClick(windows, appId, newId);
    }

    /** A click on the `k`-th window's taskbar button: restore it when it is
        minimized, focus it otherwise. */
    method TaskbarWindowClick(k: nat)
      requires k < |windows|
      modifies this`windows, this`activeWindowId
      ensures activeWindowId == Some(old(windows)[k].id)
      ensures windows == if old(windows)[k].isMinimized
        then Windows.Restore(old(windows), old(windows)[k].id)
        else Windows.Focus(old(windows), old(windows)[k].id)
      ensures Windows.WellFormed(old(windows)) ==> ActiveShown()
    {
      var w := windows[k];
      if !w.isMinimized && Windows.WellFormed(windows) {
        Windows.VisibleWindowShown(windows, k);
      }
      if w.isMinimized {
        RestoreWindow(w.id);
      } else {
        FocusWindow(w.id);
      }
    }

    /** The shell's side of a window frame's callback, in a viewport of `vw`
        by `vh` pixels. */
    method FrameCallback(cb: WindowFrame.Callback, vw: int, vh: int)
      modifies this`windows, this`activeWindowId
      ensures cb.NoCallback? ==> windows == old(windows) && activeWindowId == old(activeWindowId)
      ensures cb.FocusRequest? ==> windows == Windows.Focus(old(windows), cb.id) && activeWindowId == Some(cb.id)
      ensures cb.MoveRequest? ==>
        windows == Windows.Move(old(windows), cb.id, cb.x, cb.y) && activeWindowId == old(activeWindowId)
      ensures cb.MinimizeRequest? ==> windows == Windows.SetMinimized(old(windows), cb.id, true) && activeWindowId.None?
      ensures cb.MaximizeRequest? ==>
        windows == Windows.Maximize(old(windows), cb.id, vw, vh) && activeWindowId == Some(cb.id)
      ensures cb.CloseRequest? ==>
        windows == Windows.Close(old(windows), cb.id) &&
        activeWindowId == if old(activeWindowId) == Some(cb.id) then None else old(activeWindowId)
      ensures ((cb.FocusRequest? || cb.MaximizeRequest? ==> Windows.Shown(old(windows), cb.id)) &&
               old(ActiveShown())) ==> ActiveShown()
    {
      match cb
      case NoCallback =>
      case FocusRequest(id) => FocusWindow(id);
      case MoveRequest(id, x, y) => MoveWindow(id, x, y);
      case MinimizeRequest(id) => MinimizeWindow(id);
      case MaximizeRequest(id) => MaximizeWindow(id, vw, vh);
      case CloseRequest(id) => CloseWindow(id);
    }

    // ----- Menus -----

    /** The start, Wi-Fi, volume and battery buttons of the taskbar: flip
        their own menu and close the other three. */
    method ToggleOverlay(o: Overlay)
      requires Valid()
      modifies this`startMenuOpen, this`wifiMenuOpen, this`volumeMenuOpen, this`batteryMenuOpen
      ensures Valid()
      ensures OverlayOpen(o) == !old(OverlayOpen(o))
      ensures forall p :: p != o ==> !OverlayOpen(p)
    {
      var flipped := !OverlayOpen(o);
      startMenuOpen := o == StartMenu && flipped;
      wifiMenuOpen := o == WifiMenu && flipped;
      volumeMenuOpen := o == VolumeMenu && flipped;
      batteryMenuOpen := o == BatteryMenu && flipped;
    }

    /** A click on the desktop area (including inside a window) closes every
        menu. */
    method DesktopClick()
      requires Valid()
      modifies this`startMenuOpen, this`wifiMenuOpen, this`volumeMenuOpen, this`batteryMenuOpen
      ensures Valid()
      ensures forall p :: !OverlayOpen(p)
    {
      startMenuOpen, wifiMenuOpen, volumeMenuOpen, batteryMenuOpen := false, false, false, false;
    }

    // ----- Wi-Fi -----

    /** handleWifiToggle as written. Turning off clears the connection, the
        connection under way and the add-network form, but leaves the
        timers already started; turning on starts the auto-connect timer. */
    method WifiToggle()
      requires Valid()
      modifies this`wifiEnabled, this`connectedNetwork, this`connectingNetwork, this`isAddingWifi,
               this`pendingAutoConnects
      ensures Valid()
      ensures wifiEnabled == !old(wifiEnabled)
      ensures old(wifiEnabled) ==>
        connectedNetwork.None? && connectingNetwork.None? && !isAddingWifi &&
        pendingAutoConnects == old(pendingAutoConnects)
      ensures !old(wifiEnabled) ==>
        connectedNetwork == old(connectedNetwork) && connectingNetwork == old(connectingNetwork) &&
        isAddingWifi == old(isAddingWifi) && pendingAutoConnects == old(pendingAutoConnects) + 1
    {
      if wifiEnabled {
        wifiEnabled := false;
        connectedNetwork := None;
        connectingNetwork := None;
        isAddingWifi := false;
      } else {
        wifiEnabled := true;
        pendingAutoConnects := pendingAutoConnects + 1;
      }
    }

    /** handleWifiToggle with the timers it started cancelled when Wi-Fi goes
        off, so that nothing connects while Wi-Fi is off. */
    method WifiToggleCancelling()
      requires Valid() && WifiConsistent()
      modifies this`wifiEnabled, this`connectedNetwork, this`connectingNetwork, this`isAddingWifi,
               this`pendingAutoConnects, this`pendingConnects
      ensures Valid() && WifiConsistent()
      ensures wifiEnabled == !old(wifiEnabled)
      ensures old(wifiEnabled) ==>
        connectedNetwork.None? && connectingNetwork.None? && !isAddingWifi &&
        pendingConnects == [] && pendingAutoConnects == 0
      ensures !old(wifiEnabled) ==>
        connectedNetwork == old(connectedNetwork) && connectingNetwork == old(connectingNetwork) &&
        isAddingWifi == old(isAddingWifi) && pendingConnects == old(pendingConnects) &&
        pendingAutoConnects == old(pendingAutoConnects) + 1
    {
      if wifiEnabled {
        wifiEnabled := false;
        connectedNetwork := None;
        connectingNetwork := None;
        isAddingWifi := false;
        pendingConnects := [];
        pendingAutoConnects := 0;
      } else {
        wifiEnabled := true;
        pendingAutoConnects := pendingAutoConnects + 1;
      }
    }

    /** An auto-connect timer firing: join the default network. */
    method FireAutoConnectTimer()
      requires Valid()
      requires pendingAutoConnects > 0
      modifies this`connectedNetwork, this`pendingAutoConnects
      ensures Valid()
      ensures old(WifiConsistent()) ==> WifiConsistent()
      ensures connectedNetwork == Some(Tray.DefaultNetwork)
      ensures pendingAutoConnects == old(pendingAutoConnects) - 1
    {
      connectedNetwork := Some(Tray.DefaultNetwork);
      pendingAutoConnects := pendingAutoConnects - 1;
    }

    /** handleNetworkConnect: nothing happens when `ssid` is already connected
        or Wi-Fi is off; otherwise `ssid` is shown as connecting and a connect
        timer starts, even when one for the same network is still pending. */
    method NetworkConnect(ssid: string)
      requires Valid()
      modifies this`connectingNetwork, this`pendingConnects
      ensures Valid()
      ensures old(WifiConsistent()) ==> WifiConsistent()
      ensures if old(connectedNetwork) == Some(ssid) || !wifiEnabled
        then connectingNetwork == old(connectingNetwork) && pendingConnects == old(pendingConnects)
        else connectingNetwork == Some(ssid) && pendingConnects == old(pendingConnects) + [ssid]
    {
      if connectedNetwork == Some(ssid) || !wifiEnabled {
        return;
      }
      connectingNetwork := Some(ssid);
      pendingConnects := pendingConnects + [ssid];
    }

    /** The oldest connect timer firing: its network becomes the connected
        one and nothing is shown as connecting any more. */
    method FireConnectTimer()
      requires Valid()
      requires pendingConnects != []
      modifies this`connectedNetwork, this`connectingNetwork, this`pendingConnects
      ensures Valid()
      ensures old(WifiConsistent()) ==> WifiConsistent() && wifiEnabled
      ensures connectedNetwork == Some(old(pendingConnects)[0]) && connectingNetwork.None?
      ensures pendingConnects == old(pendingConnects)[1..]
    {
      connectedNetwork := Some(pendingConnects[0]);
      connectingNetwork := None;
      pendingConnects := pendingConnects[1..];
    }

    /** The "Add Network" button. */
    method StartAddingWifi()
      modifies this`isAddingWifi
      ensures isAddingWifi
    {
      isAddingWifi := true;
    }

    /** The form's Cancel button: close the form and empty both fields. */
    method CancelAddingWifi()
      modifies this`isAddingWifi, this`newWifiSsid, this`newWifiPass
      ensures !isAddingWifi && newWifiSsid == "" && newWifiPass == ""
    {
      isAddingWifi := false;
      newWifiSsid, newWifiPass := "", "";
    }

    /** Typing into the form's two fields. */
    method EditAddNetworkForm(ssid: string, pass: string)
      modifies this`newWifiSsid, this`newWifiPass
      ensures newWifiSsid == ssid && newWifiPass == pass
    {
      newWifiSsid, newWifiPass := ssid, pass;
    }

    /** handleAddNetwork: a blank name changes nothing; otherwise the network
        built from the form goes to the front of the list, the form is closed
        and emptied, and the session tries to join it. */
    method AddNetwork()
      requires Valid()
      modifies this`networks, this`isAddingWifi, this`newWifiSsid, this`newWifiPass,
               this`connectingNetwork, this`pendingConnects
      ensures Valid()
      ensures old(WifiConsistent()) ==> WifiConsistent()
      ensures Tray.NetworkFromForm(old(newWifiSsid), old(newWifiPass)).None? ==>
        networks == old(networks) && isAddingWifi == old(isAddingWifi) &&
        newWifiSsid == old(newWifiSsid) && newWifiPass == old(newWifiPass) &&
        connectingNetwork == old(connectingNetwork) && pendingConnects == old(pendingConnects)
      ensures var n := Tray.NetworkFromForm(old(newWifiSsid), old(newWifiPass));
        n.Some? ==> networks == [n.value] + old(networks) && !isAddingWifi && newWifiSsid == "" && newWifiPass == ""
      ensures var n := Tray.NetworkFromForm(old(newWifiSsid), old(newWifiPass));
        n.Some? && (old(connectedNetwork) == Some(n.value.ssid) || !wifiEnabled) ==>
        connectingNetwork == old(connectingNetwork) && pendingConnects == old(pendingConnects)
      ensures var n := Tray.NetworkFromForm(old(newWifiSsid), old(newWifiPass));
        n.Some? && !(old(connectedNetwork) == Some(n.value.ssid) || !wifiEnabled) ==>
        connectingNetwork == Some(n.value.ssid) && pendingConnects == old(pendingConnects) + [n.value.ssid]
    {
      var n := Tray.NetworkFromForm(newWifiSsid, newWifiPass);
      if n.Some? {
        SubmitNetwork(n.value);
      }
    }

    /** The second half of handleAddNetwork, once the form gave network `n`. */
    method SubmitNetwork(n: Tray.Network)
      requires Valid()
      modifies this`networks, this`isAddingWifi, this`newWifiSsid, this`newWifiPass,
               this`connectingNetwork, this`pendingConnects
      ensures Valid()
      ensures old(WifiConsistent()) ==> WifiConsistent()
      ensures networks == [n] + old(networks) && !isAddingWifi && newWifiSsid == "" && newWifiPass == ""
      ensures if old(connectedNetwork) == Some(n.ssid) || !wifiEnabled
        then connectingNetwork == old(connectingNetwork) && pendingConnects == old(pendingConnects)
        else connectingNetwork == Some(n.ssid) && pendingConnects == old(pendingConnects) + [n.ssid]
    {
      networks := [n] + networks;
      isAddingWifi := false;
      newWifiSsid, newWifiPass := "", "";
      NetworkConnect(n.ssid);
    }

    // ----- Volume and battery -----

    /** handleVolumeChange with the slider at `v`: silence mutes, any other
        position unmutes, so the tray shows the crossed-out icon exactly at
        zero. */
    method VolumeChange(v: int)
      requires Valid()
      requires 0 <= v <= 100
      modifies this`volume, this`isMuted
      ensures Valid()
      ensures volume == v && (isMuted <==> v == 0)
      ensures Tray.VolumeIconFor(isMuted, volume) == Tray.VolumeX <==> v == 0
    {
      volume := v;
      isMuted := Tray.MutedAfterChange(isMuted, v);
    }

    /** The mute button. */
    method ToggleMute()
      modifies this`isMuted
      ensures isMuted == !old(isMuted)
    {
      isMuted := !isMuted;
    }

    /** The "Simulate Charger" switch. */
    method ToggleCharging()
      modifies this`isCharging
      ensures isCharging == !old(isCharging)
    {
      isCharging := !isCharging;
    }

    /** The three power-mode buttons. */
    method SetPowerMode(m: PowerMode)
      modifies this`powerMode
      ensures powerMode == m
    {
      powerMode := m;
    }

    // ----- Personalisation (the Settings application's callbacks) -----

    /** A desktop-icon check box. */
    method ToggleDesktopApp(id: AppId)
      modifies this`desktopAppIds
      ensures desktopAppIds == Settings.Toggle(old(desktopAppIds), id)
    {
      desktopAppIds := Settings.Toggle(desktopAppIds, id);
    }

    /** A taskbar-pin check box. */
    method TogglePinnedApp(id: AppId)
      modifies this`pinnedAppIds
      ensures pinnedAppIds == Settings.Toggle(old(pinnedAppIds), id)
    {
      pinnedAppIds := Settings.Toggle(pinnedAppIds, id);
    }

    /** A preset wallpaper tile. */
    method SetWallpaper(url: string)
      modifies this`wallpaper
      ensures wallpaper == url
    {
      wallpaper := url;
    }

    /** The custom wallpaper form. */
    method SubmitCustomWallpaper(input: string)
      modifies this`wallpaper
      ensures wallpaper == Settings.CustomWallpaper(old(wallpaper), input)
    {
      wallpaper := Settings.CustomWallpaper(wallpaper, input);
    }

    /** One clock switch. */
    method SetClockOption(o: Settings.ClockOption, checked: bool)
      modifies this`clockConfig
      ensures clockConfig == Settings.SetClockOption(old(clockConfig), o, checked)
    {
      clockConfig := Settings.SetClockOption(clockConfig, o, checked);
    }
  }

  /** Connecting to a network and turning Wi-Fi off before the connect timer
      fires: with the toggle as written, the timer still fires and leaves the
      session connected while Wi-Fi is off. */
  method StaleConnectAfterWifiOff() returns (enabled: bool, connected: Option<string>)
    ensures !enabled && connected == Some("Deep Sea Link")
  {
    var s := new ShellSession();
    s.NetworkConnect("Deep Sea Link");
    s.WifiToggle();
    s.FireConnectTimer();
    enabled, connected := s.wifiEnabled, s.connectedNetwork;
  }

  /** The same steps with the cancelling toggle: no timer is left to fire and
      the session stays disconnected. */
  method CancelledConnectStaysOff() returns (enabled: bool, connected: Option<string>, pending: nat)
    ensures !enabled && connected.None? && pending == 0
  {
    var s := new ShellSession();
    s.NetworkConnect("Deep Sea Link");
    s.WifiToggleCancelling();
    enabled, connected, pending := s.wifiEnabled, s.connectedNetwork, |s.pendingConnects| + s.pendingAutoConnects;
  }

  /** Two clicks on the same network before the first timer fires start two
      timers; the second one fires after the first one's connection. */
  method DoubleConnectStartsTwoTimers() returns (pending: seq<string>)
    ensures pending == ["Deep Sea Link", "Deep Sea Link"]
  {
    var s := new ShellSession();
    s.NetworkConnect("Deep Sea Link");
    s.NetworkConnect("Deep Sea Link");
    pending := s.pendingConnects;
  }
}
