# blue-shark-os desktop shell, modelled in Dafny

Blue Shark OS is a simulated desktop running in the browser. This project models its state machinery and proves properties of it:

- the shell session of `App.tsx`:
  - a window list with z-order, cascade placement, maximize/restore and a single-instance pinned-app dispatcher;
  - four mutually exclusive tray menus;
  - the power states OFF, BOOTING and RUNNING;
  - a Wi-Fi simulator with delayed connects and the volume/mute rules;
- the per-window drag machine of `components/WindowFrame.tsx`;
- the device transfer queue of the Shark Share application;
- the install tracker of the Play Store;
- the playlist and play clock of the music player;
- the list toggles and settings updates the Settings application hands back to the shell.

Each handler that changes React state is a method of a class whose fields are that state (`Shell.ShellSession`, `WindowFrame.Frame`, `SharkShare.Share`, `PlayStore.Store`, `MusicPlayer.Player`). Each `map`/`filter`/spread update is a pure function beside it, and that function is what the method's `ensures` refers to. Delayed updates from `setTimeout` and `setInterval` become pending-timer fields. Each timer fires when its `Fire…`/`Tick` method is called, so any interleaving of timers and clicks can be expressed.

Inputs from the environment become parameters:

| source input | model parameter |
|---|---|
| `Date.now()` | `now: nat` |
| `window.innerWidth` / `innerHeight` | `vw`, `vh` |
| `Math.random()` in the shuffle | a sequence `draws` of the values it would return |

Files:

| file | module and contents |
|---|---|
| `strings.dfy` | `Strings`: JavaScript `trim`, decimal rendering and reading |
| `seqs.dfy` | `Seqs`: `filter(x => x !== v)` and distinctness |
| `types.dfy` | `Types`: the records of `types.ts`, the `APPS` table, window ids |
| `windows.dfy` | `Windows`: the per-window list updates of `App.tsx` |
| `tray.dfy` | `Tray`: the volume icon, the mute rule, the add-network form |
| `settings.dfy` | `Settings`: the Settings application's updates |
| `window_frame.dfy` | `WindowFrame`: the drag machine |
| `shell.dfy` | `Shell`: the session class |
| `shark_share.dfy` | `SharkShare` |
| `play_store.dfy` | `PlayStore` |
| `music_player.dfy` | `MusicPlayer` |

In these places the code does less than its UI suggests, and the model follows the code:

- `openApp` closes only the start menu.
- `minimizeWindow` clears the active window whichever window was active.
- Maximizing twice does not give back the earlier geometry: the window goes to the application's default size at (100, 50).
- `handleNetworkConnect` starts a second timer when clicked twice for the same network.
- Turning a subsystem off does not cancel the timers it started, so a stale timer can still change state later; see "## Findings".

## Model

| member | source | states |
|---|---|---|
| Types.Apps | App.tsx:18-29 | every application's configuration carries its own id and a positive default size |
| Types.AppIdNameRoundTrip | types.ts:1-12 | each `AppID` string value reads back as its member, so the values are distinct |
| Types.SplitAtDash | App.tsx:138 | an id `${name}-${digits}` splits back, at the dash before its trailing digits, into the name and the digits |
| Types.WindowIdInjective | App.tsx:138 | two window ids `${appId}-${now}` are equal exactly when the application and the millisecond are |
| Strings.TrimEmptyIff | App.tsx:273 | a string trims to empty exactly when it is all white space |
| Strings.TrimIdempotent | apps/Settings.tsx:68-69 | trimming twice is trimming once |
| Strings.NatToStringRoundTrip | App.tsx:138 | the decimal rendering of a number reads back as that number |
| Seqs.RemoveAll | apps/Settings.tsx:52 | `filter(x => x !== v)` drops every `v` and keeps every other element, never lengthening the list |
| Windows.MaxZ | App.tsx:139 | `Math.max` of the z-indices bounds every window's z-index and is attained |
| Windows.TopZ | App.tsx:172 | the same with 0 added to the list: non-negative, an upper bound, attained or 0 |
| Windows.NewZ | App.tsx:139 | a new window's z-index is above every open window's, 10 on an empty desktop, else one above an existing one |
| Windows.CascadeOffset | App.tsx:142-149 | the cascade offset is a multiple of 20 in [0, 180] |
| Windows.CascadePeriodic | App.tsx:142-149 | the cascade repeats every ten windows |
| Windows.NewWindow | App.tsx:144-155 | the new window has the id, application, title and default size asked for, x in [100, 280] and y in [50, 230] on the diagonal, is on top, neither minimized nor maximized |
| Windows.Open | App.tsx:136-157 | openApp appends exactly one window after the unchanged earlier ones; it is visible, cascaded and on top |
| Windows.Close | App.tsx:163 | closeWindow keeps exactly the windows with another id |
| Windows.CloseAppend | App.tsx:163 | closing distributes over concatenation, so the remaining windows keep their order |
| Windows.CloseUnknown | App.tsx:163 | closing an id that is not open changes nothing |
| Windows.UpdateById | App.tsx:201 | the `map(w => w.id === id ? f(w) : w)` update changes the windows with that id by `f` and no other |
| Windows.Focus | App.tsx:169-175 | focusWindow raises the windows with that id to max(z, 0) + 1, above every window, and leaves the others untouched |
| Windows.FocusOnTop | App.tsx:171-174 | after focusing, the focused window is strictly above every other |
| Windows.FocusUnknown | App.tsx:169-175 | focusing an id that is not open leaves the list unchanged |
| Windows.SetMinimized | App.tsx:178 | only the `isMinimized` flag of the windows with that id changes |
| Windows.ToggleMaximized | App.tsx:184-191 | maximizing flips `isMaximized` and keeps id, application, title, z-index and minimized flag |
| Windows.MaximizeTwice | App.tsx:184-191 | a non-maximized window fills the viewport above the 48-pixel taskbar, and a second maximize puts it at its default geometry at (100, 50) |
| Windows.MaximizeTwiceIdentityIff | App.tsx:186-187 | maximizing twice gives the window back exactly when it was at its default geometry |
| Windows.MaximizeTwiceForgetsPosition | App.tsx:187 | a window dragged to (300, 200) does not come back there |
| Windows.Maximize | App.tsx:182-193 | maximizeWindow sends a maximized target to its default size at (100, 50) and any other to the whole viewport above the 48-pixel taskbar, flips `isMaximized`, keeps every other field but the z-index, which becomes max(z, 0) + 1 above every window; others untouched |
| Windows.Restore | App.tsx:195-198 | restoreWindow clears the target's `isMinimized` and sets its z-index to max(z, 0) + 1, above every window, keeping every other field; others untouched |
| Windows.Move | App.tsx:200-202 | moveWindow changes only the target's x and y |
| Windows.FindInstance | App.tsx:207-212 | `find` returns the first window of the application with the given minimized flag, or none if there is none |
| Windows.PinnedActionFor | App.tsx:205-219 | a pinned click focuses the first visible instance, else restores the first minimized one (only when no instance is visible), and opens a new one exactly when the application has no window |
| Windows.PinnedClickSingleInstance | App.tsx:205-219 | after a pinned click the application has one window if it had none and as many as before otherwise |
| Windows.CountAppFocus | App.tsx:169-175 | focusing does not change how many windows an application has |
| Windows.CountAppRestore | App.tsx:195-198 | restoring does not change how many windows an application has |
| Windows.CountAppOpen | App.tsx:136-157 | opening adds exactly one window of the application |
| Windows.PinnedClickTwice | App.tsx:205-219 | two pinned clicks on an application with no window leave exactly one |
| Windows.OpenWellFormed | App.tsx:136-157 | opening under a fresh id keeps ids and z-indices unique |
| Windows.FocusWellFormed | App.tsx:169-175 | focusing keeps ids and z-indices unique |
| Windows.UpdateWellFormed | App.tsx:195-202 | an update that keeps ids and z-indices keeps them unique |
| Windows.CloseWellFormed | App.tsx:162-167 | closing keeps ids and z-indices unique |
| Windows.ConsWellFormed | App.tsx:162-167 | a window whose id and z-index differ from those of a well-formed list can head it |
| Windows.FocusKeepsShown | App.tsx:169-175 | focusing hides no window and shows none: an id has no minimized window afterwards exactly when it had none before |
| Windows.MaximizeKeepsShown | App.tsx:182-193 | the same for maximizing |
| Windows.MoveKeepsShown | App.tsx:200-202 | the same for moving |
| Windows.CloseKeepsShown | App.tsx:162-167 | closing keeps an id with no minimized window in that state |
| Windows.RestoreShows | App.tsx:195-198 | after restoring, the restored id has no minimized window, and no id gains one |
| Windows.OpenKeepsShown | App.tsx:136-157 | opening adds a visible window, so an id has a minimized window afterwards exactly when it had one before |
| Windows.PinnedClickShows | App.tsx:205-219 | the window a pinned click makes active is visible: always when restored, when focused in a table with unique ids, and when new if no minimized window has its id |
| Windows.VisibleWindowShown | App.tsx:663 | with unique ids, a visible window's id names no minimized window |
| Tray.VolumeIconFor | App.tsx:284-289 | the crossed-out icon shows exactly when muted or at volume 0 |
| Tray.VolumeIconMonotone | App.tsx:284-289 | a higher volume never shows fewer waves |
| Tray.VolumeIconBands | App.tsx:284-289 | one wave exactly below 30, two exactly on [30, 70), three exactly from 70 on; muted is always crossed out |
| Tray.MutedAfterChange | App.tsx:291-296 | after a slider change the volume is muted exactly when it is 0 |
| Tray.NetworkFromForm | App.tsx:273-275 | a blank name is rejected; otherwise the name is trimmed and non-empty, and the network is secured exactly when the password has a non-space character |
| Settings.Toggle | apps/Settings.tsx:50-64 | the toggled id's membership flips and every other id's stays |
| Settings.ToggleListedKeepsOrder | apps/Settings.tsx:52 | removing keeps the other entries in their relative order |
| Settings.ToggleTwiceUnlisted | apps/Settings.tsx:50-56 | toggling an absent id twice gives the list back |
| Settings.ToggleTwiceListed | apps/Settings.tsx:50-56 | toggling a present id twice moves it, once, to the end |
| Settings.ToggleDistinct | apps/Settings.tsx:50-64 | a list without repeats stays without repeats |
| Settings.CustomWallpaper | apps/Settings.tsx:66-71 | a blank entry keeps the wallpaper; otherwise the trimmed, non-empty URL is applied |
| Settings.CustomWallpaperStable | apps/Settings.tsx:66-71 | submitting the URL just applied applies it again |
| Settings.SetClockOption | apps/Settings.tsx:235-267 | a clock switch sets its own field and leaves the other two |
| Settings.SetClockOptionsCommute | apps/Settings.tsx:235-267 | switches on different fields commute |
| WindowFrame.ControlCallback | components/WindowFrame.tsx:91-108 | each title-bar button calls its own callback with this window's id; a minimized window calls nothing |
| WindowFrame.Frame.constructor | components/WindowFrame.tsx:24-25 | a frame starts idle with offset (0, 0) |
| WindowFrame.Frame.MouseDown | components/WindowFrame.tsx:28-40 | a press focuses the window; on the title bar it starts a drag with offset pointer minus origin; elsewhere the drag state is unchanged; a minimized window does nothing |
| WindowFrame.Frame.MouseMove | components/WindowFrame.tsx:43-47 | only while dragging, the move request is pointer minus offset |
| WindowFrame.Frame.MouseUp | components/WindowFrame.tsx:49-51 | a release always ends the drag |
| WindowFrame.PressThenMoveToPressPoint | components/WindowFrame.tsx:28-47 | moving back to the press point asks for the original origin |
| WindowFrame.SecondDragUsesFreshOffset | components/WindowFrame.tsx:31-34 | a new press recomputes the offset from the window's current position |
| WindowFrame.ReleaseStopsDrag | components/WindowFrame.tsx:49-61 | after a release, moving asks for nothing |
| WindowFrame.BodyPressDoesNotDrag | components/WindowFrame.tsx:36-39 | a press on the body focuses without dragging |
| Shell.ShellSession.constructor | App.tsx:45-98 | the initial state values, with the session invariants holding, including that no active window is minimized |
| Shell.ShellSession.FireBootTimer | App.tsx:101-109 | the boot timer exists only while booting and moves the session to RUNNING |
| Shell.ShellSession.Shutdown | App.tsx:117-121 | shutdown closes the start menu and every window and powers off; the active id it keeps names no minimized window |
| Shell.ShellSession.Restart | App.tsx:123-130 | restart does the same and schedules one power-on timer; the active id names no minimized window |
| Shell.ShellSession.FireRestartTimer | App.tsx:127-129 | the restart timer puts the session back to BOOTING |
| Shell.ShellSession.PowerOn | App.tsx:132-134 | the power button puts the session to BOOTING |
| Shell.ShellSession.OpenApp | App.tsx:136-160 | the window list becomes `Windows.Open`, the new window is active, only the start menu closes, and uniqueness is kept at a fresh millisecond; the active window is visible exactly when no minimized window had the new id |
| Shell.ShellSession.OpenWindow | App.tsx:136-160 | openApp once its id is chosen: the list becomes `Windows.Open` with that id, which becomes active, and only the start menu closes; the active window is visible exactly when no minimized window had that id |
| Shell.ShellSession.CloseWindow | App.tsx:162-167 | the window list becomes `Windows.Close`; the active id is cleared only if it was the closed window's; a visible active window stays visible |
| Shell.ShellSession.FocusWindow | App.tsx:169-175 | the window list becomes `Windows.Focus` and the id becomes active even when unknown; the active window is visible exactly when no window with that id was minimized |
| Shell.ShellSession.MinimizeWindow | App.tsx:177-180 | the window is hidden and no window is active, whichever was, so no active window is minimized |
| Shell.ShellSession.MaximizeWindow | App.tsx:182-193 | the window list becomes `Windows.Maximize` and the window becomes active; it is visible exactly when no window with that id was minimized |
| Shell.ShellSession.RestoreWindow | App.tsx:195-198 | the window list becomes `Windows.Restore` and the window becomes active, and it is visible |
| Shell.ShellSession.MoveWindow | App.tsx:200-202 | only the window's position changes; whether the active window is visible does not change |
| Shell.ShellSession.PinnedAppClick | App.tsx:205-219 | the window list becomes `Windows.PinnedClick`; the chosen window is active; the application ends with one window if it had none, else as many as before; with unique ids, and a new id naming no minimized window, the active window is visible |
| Shell.ShellSession.PinnedClickWithId | App.tsx:205-219 | the pinned click where a new window would get id `newId`: list, active window, start menu and window count and visibility of the active window as above |
| Shell.ShellSession.ApplyPinnedClick | App.tsx:205-219 | the list becomes `Windows.PinnedClick`, the focused, restored or new window is active, and the count rule holds; with unique ids, and a new id naming no minimized window, the active window is visible |
| Shell.ShellSession.TaskbarWindowClick | App.tsx:663 | a taskbar button restores a minimized window and focuses a visible one; with unique ids the active window is then visible |
| Shell.ShellSession.FrameCallback | App.tsx:366-376 | each frame callback is wired to its window operation; when a focus or maximize request names no minimized window, as a mounted frame's does, a visible active window stays visible |
| Shell.ShellSession.ToggleOverlay | App.tsx:620-718 | a tray or start button flips its own menu and closes the other three, so at most one menu is open |
| Shell.ShellSession.DesktopClick | App.tsx:339-344 | a desktop click closes every menu |
| Shell.ShellSession.WifiToggle | App.tsx:250-260 | turning Wi-Fi off clears the connection, the pending connection and the form but leaves pending timers; turning it on schedules an auto-connect |
| Shell.ShellSession.WifiToggleCancelling | App.tsx:250-260 | the corrected toggle also cancels the pending timers, so with Wi-Fi off nothing is or can become connected |
| Shell.ShellSession.FireAutoConnectTimer | App.tsx:258 | the auto-connect joins the default network |
| Shell.ShellSession.NetworkConnect | App.tsx:262-269 | no effect when the network is connected or Wi-Fi is off; otherwise it is shown connecting and a timer is appended even if one is pending for it |
| Shell.ShellSession.FireConnectTimer | App.tsx:265-268 | the oldest connect timer connects its network and clears the connecting one |
| Shell.ShellSession.StartAddingWifi | App.tsx:505 | the add-network form opens |
| Shell.ShellSession.CancelAddingWifi | App.tsx:470 | the form closes and both fields are emptied |
| Shell.ShellSession.EditAddNetworkForm | App.tsx:451-459 | the two fields take what is typed |
| Shell.ShellSession.AddNetwork | App.tsx:271-281 | a blank name changes nothing; otherwise the trimmed network goes to the front, the form is emptied and closed, and a connect is attempted under its guards |
| Shell.ShellSession.SubmitNetwork | App.tsx:276-280 | the built network goes to the front, the form is closed and emptied, and a connect is attempted under its guards |
| Shell.ShellSession.VolumeChange | App.tsx:291-296 | the slider sets the volume; the crossed-out icon shows exactly at 0 |
| Shell.ShellSession.ToggleMute | App.tsx:528 | the mute button flips the mute flag |
| Shell.ShellSession.ToggleCharging | App.tsx:607 | the charger switch flips the charging flag |
| Shell.ShellSession.SetPowerMode | App.tsx:579-593 | the power-mode buttons set the mode |
| Shell.ShellSession.ToggleDesktopApp | apps/Settings.tsx:50-56 | the desktop list becomes its `Settings.Toggle` |
| Shell.ShellSession.TogglePinnedApp | apps/Settings.tsx:58-64 | the pinned list becomes its `Settings.Toggle` |
| Shell.ShellSession.SetWallpaper | apps/Settings.tsx:120 | a preset tile sets the wallpaper |
| Shell.ShellSession.SubmitCustomWallpaper | apps/Settings.tsx:66-71 | the wallpaper becomes `Settings.CustomWallpaper` of the entry |
| Shell.ShellSession.SetClockOption | apps/Settings.tsx:235-267 | the clock configuration becomes `Settings.SetClockOption` |
| Shell.StaleConnectAfterWifiOff | App.tsx:250-268 | connect, turn Wi-Fi off, timer fires: connected while Wi-Fi is off |
| Shell.CancelledConnectStaysOff | App.tsx:250-268 | the same steps with the corrected toggle leave no connection and no timer |
| Shell.DoubleConnectStartsTwoTimers | App.tsx:262-269 | two clicks on the same network start two timers |
| SharkShare.SetState | apps/SharkShare.tsx:63 | the status-and-progress map changes the device with that id and no other |
| SharkShare.SetProgress | apps/SharkShare.tsx:74 | the progress map changes the device with that id and no other |
| SharkShare.TickedDevices | apps/SharkShare.tsx:69-77 | a tick completes the device at exactly 100 once progress reaches 100, else only moves its progress; other devices untouched |
| SharkShare.SameBasesKeepScan | apps/SharkShare.tsx:69-77 | status and progress updates keep ids in place, distinct, and the list a prefix of the scan |
| SharkShare.FoundIdsDistinct | apps/SharkShare.tsx:35-40 | the scanned devices have different ids |
| SharkShare.ScannedIds | apps/SharkShare.tsx:35-47 | listed ids are distinct, and the next device found has an id not yet listed |
| SharkShare.AtMostOneSending | apps/SharkShare.tsx:53-63 | in an orderly state at most one device is sending, and it is the active transfer |
| SharkShare.DiscoverValid | apps/SharkShare.tsx:42-47 | a discovery keeps the step invariant |
| SharkShare.DiscoverOrderly | apps/SharkShare.tsx:42-47 | a discovery keeps the status cycle |
| SharkShare.DiscoverCycle | apps/SharkShare.tsx:42-47 | the discovered device is idle under an id no list refers to, so statuses and lists stay in step |
| SharkShare.DiscoverKeeps | apps/SharkShare.tsx:42-47 | a discovery keeps the step invariant, and the status cycle when it held |
| SharkShare.EnqueueValid | apps/SharkShare.tsx:91-95 | queueing keeps the step invariant |
| SharkShare.EnqueueOrderly | apps/SharkShare.tsx:91-95 | queueing an idle device keeps the status cycle |
| SharkShare.EnqueueKeeps | apps/SharkShare.tsx:91-95 | queueing keeps the step invariant, and the status cycle when it held and the device was idle |
| SharkShare.StartValid | apps/SharkShare.tsx:53-63 | promoting the head keeps the invariant; at that point no interval runs and the scan is on |
| SharkShare.StartOrderly | apps/SharkShare.tsx:53-63 | promoting the head keeps the status cycle |
| SharkShare.StartCycle | apps/SharkShare.tsx:53-63 | with no active transfer nothing was sending; the head, queued once, becomes the only sending device |
| SharkShare.StartKeeps | apps/SharkShare.tsx:53-63 | promoting keeps the step invariant, and the status cycle when it held |
| SharkShare.TickValid | apps/SharkShare.tsx:66-88 | a tick keeps the invariant (progress in [0, 100], one interval at a multiple of 5 below 100) |
| SharkShare.TickOnOrderly | apps/SharkShare.tsx:67-77 | a tick below 100 keeps the status cycle |
| SharkShare.TickDoneStatus | apps/SharkShare.tsx:71-86 | the device whose transfer reaches 100 is neither queued nor cooling down yet, and completing it keeps statuses and lists in step |
| SharkShare.TickDoneOrderly | apps/SharkShare.tsx:79-86 | the tick reaching 100 keeps the status cycle |
| SharkShare.TickKeeps | apps/SharkShare.tsx:66-88 | a tick keeps the step invariant, and the status cycle when it held |
| SharkShare.CooldownValid | apps/SharkShare.tsx:84-86 | a cool-down keeps the invariant |
| SharkShare.CooldownStatus | apps/SharkShare.tsx:84-86 | the cool-down makes its completed device idle and keeps statuses and lists in step |
| SharkShare.CooldownOrderly | apps/SharkShare.tsx:84-86 | a cool-down keeps the status cycle |
| SharkShare.CooldownKeeps | apps/SharkShare.tsx:84-86 | a cool-down keeps the step invariant, and the status cycle when it held |
| SharkShare.ClearValid | apps/SharkShare.tsx:22-33 | stopping and restarting the scan keep the invariant |
| SharkShare.StaleCooldownBreaksCycle | apps/SharkShare.tsx:22-28 | a stale cool-down after a rescan resets the device being sent to idle, breaking the status cycle |
| SharkShare.CancelledRescanKeepsCycle | apps/SharkShare.tsx:22-28 | with timers cancelled, the rediscovered device is sent with the status cycle intact |
| SharkShare.RunCompletes | apps/SharkShare.tsx:66-88 | a transfer at progress p completes after exactly (100 - p) / 5 ticks, releasing the active transfer, completing the device at 100, scheduling its cool-down, nothing else changed |
| SharkShare.RunOrderly | apps/SharkShare.tsx:66-88 | any number of ticks keeps the status cycle |
| SharkShare.FirstTransferStarts | apps/SharkShare.tsx:42-63 | from start-up, discovering, queueing and promoting the first device leaves "1" sending at 0 with nothing else pending |
| SharkShare.FirstTransferBoardOrderly | apps/SharkShare.tsx:42-63 | that board keeps the step invariant and the status cycle |
| SharkShare.FirstTransferTakesTwentyTicks | apps/SharkShare.tsx:66-88 | the first transfer is still running after 19 ticks and complete at 100 after 20 |
| SharkShare.Share.constructor | apps/SharkShare.tsx:13-19 | discoverable and scanning with nothing found |
| SharkShare.Share.FireDiscovery | apps/SharkShare.tsx:42-47 | the next scanned device appears; invariant and status cycle kept |
| SharkShare.Share.ToggleDiscoverable | apps/SharkShare.tsx:22-33 | as written: turning off clears list, queue and active transfer (intervals and cool-downs stay), turning on clears the list |
| SharkShare.Share.ToggleDiscoverableCancelling | apps/SharkShare.tsx:22-33 | corrected: turning off leaves nothing pending; the status cycle is kept |
| SharkShare.Share.SelectDevice | apps/SharkShare.tsx:170-171 | only an idle device is queued |
| SharkShare.Share.Promote | apps/SharkShare.tsx:53-63 | the queue head becomes the active transfer, sending at 0 |
| SharkShare.Share.Tick | apps/SharkShare.tsx:66-88 | one interval tick; invariant and status cycle kept |
| SharkShare.Share.FireCooldown | apps/SharkShare.tsx:84-86 | the oldest cool-down fires; invariant and status cycle kept |
| PlayStore.InstallKeeps | apps/PlayStore.tsx:45-47 | installing an app neither installed nor processing keeps the tracker consistent |
| PlayStore.InstallDoneKeeps | apps/PlayStore.tsx:49-52 | the install timer makes the app installed and no longer processing |
| PlayStore.UninstallKeeps | apps/PlayStore.tsx:55-57 | uninstalling an installed app not processing keeps the tracker consistent |
| PlayStore.UninstallDoneKeeps | apps/PlayStore.tsx:59-62 | the uninstall timer removes the app from both lists |
| PlayStore.InstallUninstallRoundTrip | apps/PlayStore.tsx:45-63 | install then uninstall gives the tracker back |
| PlayStore.UninstallInstallMovesToEnd | apps/PlayStore.tsx:45-63 | uninstall then install moves the app to the end of the installed list |
| PlayStore.OpenRequest | apps/PlayStore.tsx:65-69 | the shell is asked to open exactly the app's system application, when it has one and the callback is given |
| PlayStore.MainButton | apps/PlayStore.tsx:111-114 | disabled exactly when processing or installed without an application; installs exactly when neither installed nor processing; opens otherwise |
| PlayStore.UninstallEnabled | apps/PlayStore.tsx:100-103 | uninstall is offered only for installed apps and never while processing |
| PlayStore.CardLabel | apps/PlayStore.tsx:121 | "..." exactly while processing, else "Open" exactly when installed, else "Install" |
| PlayStore.FeaturedLabel | apps/PlayStore.tsx:236-238 | "Processing..." exactly while processing, else "Open" or "Install" |
| PlayStore.LabelMatchesButton | apps/PlayStore.tsx:111-121 | the label says "Install" exactly when the button installs and "Open" whenever it opens |
| PlayStore.FeaturedNeverOpens | apps/PlayStore.tsx:227-229 | the featured game can never be opened, and is disabled once installed |
| PlayStore.CatalogueFacts | apps/PlayStore.tsx:19-43 | exactly the apps with a system application come pre-installed, catalogue ids are distinct, and the initial tracker is consistent |
| PlayStore.Store.constructor | apps/PlayStore.tsx:41-43 | installed {7, 10}, nothing processing |
| PlayStore.Store.HandleInstall | apps/PlayStore.tsx:45-53 | the tracker becomes `Install` |
| PlayStore.Store.HandleUninstall | apps/PlayStore.tsx:55-63 | the tracker becomes `Uninstall` |
| PlayStore.Store.FireInstall | apps/PlayStore.tsx:49-52 | the tracker becomes `InstallDone`, consistency kept |
| PlayStore.Store.FireUninstall | apps/PlayStore.tsx:59-62 | the tracker becomes `UninstallDone`, consistency kept |
| PlayStore.Store.ClickMain | apps/PlayStore.tsx:111-114 | a disabled button does nothing; an enabled one opens an installed app or installs another |
| PlayStore.Store.ClickUninstall | apps/PlayStore.tsx:100-103 | ignored while processing, otherwise uninstalls |
| MusicPlayer.FindIndex | apps/MusicPlayer.tsx:107 | `findIndex` is the first position with the id, or -1 exactly when there is none |
| MusicPlayer.FindIndexOfSong | apps/MusicPlayer.tsx:14-60 | every song is found at its own position |
| MusicPlayer.FindIndexAt | apps/MusicPlayer.tsx:107 | the song at a position is found at that position by its id |
| MusicPlayer.NextIndex | apps/MusicPlayer.tsx:115 | next is i + 1, wrapping from the last song to the first |
| MusicPlayer.PrevIndex | apps/MusicPlayer.tsx:124 | previous is i - 1, wrapping from the first song to the last |
| MusicPlayer.PrevNextInverse | apps/MusicPlayer.tsx:115-124 | previous undoes next and next undoes previous |
| MusicPlayer.StepsMove | apps/MusicPlayer.tsx:115-124 | with more than one song, next and previous always change the song |
| MusicPlayer.PickShuffled | apps/MusicPlayer.tsx:108-113 | the shuffle returns the first draw that differs from the current index, so it never repeats the song |
| MusicPlayer.Pad2 | apps/MusicPlayer.tsx:103 | two-digit padding is two digits reading back as the number |
| MusicPlayer.FormatTimeRoundTrip | apps/MusicPlayer.tsx:100-104 | the clock is the minutes, a colon and two digits of seconds below 60, and reads back as the seconds |
| MusicPlayer.FormatShortTime | apps/MusicPlayer.tsx:100-104 | below ten minutes with ten or more seconds the clock is four characters |
| MusicPlayer.DurationLabelsAgree | apps/MusicPlayer.tsx:14-60 | every song's duration label is its length in seconds, formatted |
| MusicPlayer.SongLabel | apps/MusicPlayer.tsx:14-60 | a song whose label is `m:ss` for its length has its length formatted as that label |
| MusicPlayer.Player.CurrentIndex | apps/MusicPlayer.tsx:107 | the current song is at the position found |
| MusicPlayer.Player.constructor | apps/MusicPlayer.tsx:63-68 | the first song, paused at 0, volume 80, shuffle and repeat off |
| MusicPlayer.Player.Advance | apps/MusicPlayer.tsx:106-120 | the next song in order, or the first draw not the current song; time 0, playing |
| MusicPlayer.Player.PlayFromStart | apps/MusicPlayer.tsx:113-127 | the song at the given position, from 0, playing, with the play effect run again |
| MusicPlayer.Player.Next | apps/MusicPlayer.tsx:106-120 | the next button changes the song, from its start, playing; in order when shuffle is off, else the first draw that differs from the current position |
| MusicPlayer.Player.Prev | apps/MusicPlayer.tsx:122-128 | the previous song, a different one, from its start, playing |
| MusicPlayer.Player.SelectSong | apps/MusicPlayer.tsx:146 | the chosen song, from its start, playing |
| MusicPlayer.Player.Seek | apps/MusicPlayer.tsx:130-132 | the clock takes the slider's value |
| MusicPlayer.Player.TogglePlay | apps/MusicPlayer.tsx:249 | play/pause flips the playing flag |
| MusicPlayer.Player.ToggleShuffle | apps/MusicPlayer.tsx:238 | the shuffle button flips shuffle; the running interval keeps the value it saw |
| MusicPlayer.Player.ToggleRepeat | apps/MusicPlayer.tsx:260 | the repeat button flips repeat |
| MusicPlayer.Player.SetVolume | apps/MusicPlayer.tsx:227-230 | the volume slider sets the volume |
| MusicPlayer.Player.Tick | apps/MusicPlayer.tsx:73-98 | as written: the clock rises by one up to the song's length, then goes to 0, keeping the song on repeat and otherwise moving to another one with the stale shuffle value: the next in order when that value is off, else the first draw that differs from the current position; after a song change the interval sees the current shuffle value again; the clock stays in [0, length] |
| MusicPlayer.Player.TickFresh | apps/MusicPlayer.tsx:73-98 | corrected: at the end of a song the next one follows the shuffle setting shown, and the restarted interval sees that setting |
| MusicPlayer.StaleShuffleAtSongEnd | apps/MusicPlayer.tsx:73-98 | with shuffle switched on mid-song, the song that follows is still the next in order |
| MusicPlayer.FreshShuffleAtSongEnd | apps/MusicPlayer.tsx:73-98 | with the correction, the same steps pick the shuffled song |

## Left out

- Rendering: all JSX, CSS, animations, icons and the boot screen's random animation.
- The Gemini chat, the notes editor's storage, the video and YouTube players, the search page, the gallery, the system information page and the game. They are driven by network calls, `localStorage`, media elements or static content.
- The Play Store search filter. It depends on Unicode `toLowerCase`.
- The desktop clock's locale formatting and its one-second refresh, and the Settings preview clock.
- The music visualizer's random bar heights.
- Real time. Each timer is a `Fire…`/`Tick` method, and the caller chooses the order between timers of different delays; timers of equal delay fire oldest first.
- React's batching of state updates, and the double invocation of updaters in development mode.
- Slider values. `parseInt`/`Number` of a range input is taken to be an integer within the slider's range, which is a `requires` on `VolumeChange`, `SetVolume` and `Seek`.
- The battery level, which the code never changes after setting it to 84.
- SharkShare.Share.FireDiscovery: requires that no transfer interval runs without an active transfer. The source guarantees this by timing: the first discovery comes 1.5 seconds after the scan restarts, and a transfer's interval lasts 1 second.
- SharkShare: the `failed` status, which no code path sets, and the `scanning` switch, which the code never changes.
- Shell.ShellSession.TaskbarWindowClick: that the active window ends visible is proved for a table with unique ids. The session does not carry unique ids as an invariant, because openApp gives two windows the same id when they open in the same millisecond.
- Shell.ShellSession.PinnedAppClick, and its helpers PinnedClickWithId and ApplyPinnedClick: the same, and when a window is opened, no minimized window may already have the new id.
- Shell.ShellSession.FrameCallback: that a visible active window stays visible is proved when a focus or maximize request names no minimized window. A mounted frame's window is visible (`components/WindowFrame.tsx:64`), and with unique ids no other window shares its id (`Windows.VisibleWindowShown`).
- MusicPlayer.Player.Tick: requires the player to be playing, since the interval exists only then. The one-second spacing of ticks and the restart of the interval when the song changes are not modelled.

## Findings

| source | as written | input that shows it | evidently intended | confidence | as-written member | corrected member |
|---|---|---|---|---|---|---|
| App.tsx:250-268 | turning Wi-Fi off clears the shown connection but does not cancel the pending connect and auto-connect timers | click "Deep Sea Link", turn Wi-Fi off within 2 seconds: the timer fires and the session is connected while Wi-Fi is off | turning Wi-Fi off cancels the timers, so nothing is connected while it is off | not executed; high | Shell.StaleConnectAfterWifiOff | Shell.ShellSession.WifiToggleCancelling |
| apps/SharkShare.tsx:22-28 | turning visibility off clears the device list, queue and active transfer, but not the transfer interval or the 2-second cool-down timer | complete a transfer to device "1", toggle visibility off and on, and queue "1" again as soon as it reappears: the old cool-down resets "1" to idle while it is the active transfer | stopping the scan cancels the transfer's timers, so the status cycle holds | not executed; medium | SharkShare.StaleCooldownBreaksCycle | SharkShare.Share.ToggleDiscoverableCancelling |
| apps/MusicPlayer.tsx:73-98 | the play interval calls the `handleNext` of the render in which the effect last ran; `shuffle` is not among the effect's dependencies, so that closure keeps an old `shuffle` | start playing with shuffle off, switch shuffle on, let the song end: the next song is "Coral Reef Drift", the next in order | the song that follows a finished one honours the shuffle setting shown | not executed; medium | MusicPlayer.StaleShuffleAtSongEnd | MusicPlayer.Player.TickFresh |
