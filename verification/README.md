# StatusBar+ bar service, modelled in Dafny

This project models `BarService`, the Android service behind the StatusBar+
replacement status bar. It covers:

- the guarded `create` and `destroy`;
- the wiring that depends on the preferences: the activity monitor thread and
  the screen and presence receivers;
- `createStatusBar`: the window placement, the configuration of the freshly
  inflated bar, and the hiding of indicator icons that are switched off;
- `destroyStatusBar`, and the closing of the indicator listeners;
- the foreground compatibility wrappers;
- the two broadcast receivers;
- the remote control interface (`mBinder`).

The service is modelled as an immutable `Service` record together with the
trace of every platform call it has made. `Platform.Replay` runs that trace
through a small automaton of what the rest of the device sees:

- whether a bar window is attached;
- which of the ENABLED and DISABLED broadcasts is sticky;
- whether the process is in the foreground;
- whether the ongoing notification is shown.

The automaton refuses an `addView` while a bar is attached, a stray `removeView`, and any moment
at which the notice shows while the process is not in the foreground.
`State.Valid` requires the trace to replay to exactly the world that the
service's flags predict. Every input the service reacts to keeps that
invariant (`Lifecycle.NextValid`), and so does any sequence of them
(`Lifecycle.Serve`).

The preferences object is live in the service: each handler reads it when it
runs. So every operation that reads it takes the current contents as a
`Snapshot`. The `mPrefs` reference is assigned inside the body of `create`, so
it is non-null exactly when `created` holds.

Modules, one per file: `Wrappers`, `Views` (the bar as the service sees it),
`Platform` (events and the device automaton), `Preferences`, `Compat`
(foreground methods), `Overlay` (creating and destroying the bar window),
`State`, `Receivers`, `Binder` and `Lifecycle`.

Where the code and its description differ, the model follows the code:

- The remote `create()` and `destroy()` go straight to `createStatusBar` and
  `destroyStatusBar`. They bypass the guard flags, the sticky broadcasts and
  the foreground calls.
- `destroy()` never unregisters the two receivers. It also never clears the
  monitor thread reference.
- `create()` after `destroy()` does nothing. Nothing resets `isCreated`, so an
  instance never re-establishes its overlay through `create`.
- The screen receiver returns before touching `wasScreenOn` when no bar is
  attached. Screen changes are therefore not tracked while the bar is absent.
- The fallback foreground path calls `setForeground` without checking that it
  was found. The model states, as a precondition, that a platform lacking
  `startForeground` (or `stopForeground`) has `setForeground`.
- `Preferences.java` and `StatusBarView.java` are not part of this model.
  The list of enumerated icon keys is a field of the snapshot. The bar's
  children are given as a sequence of indicator kinds.

## Model

| member | source | states |
|---|---|---|
| Compat.Resolve | WP7Bar/src/com/tombarrasso/android/wp7bar/BarService.java:310-343 | each slot is filled exactly when the platform offers that method, and then holds that method |
| Compat.StartCompat | WP7Bar/src/com/tombarrasso/android/wp7bar/BarService.java:349-375 | startForeground alone when it exists; otherwise setForeground(true) followed by posting the notice |
| Compat.StopCompat | WP7Bar/src/com/tombarrasso/android/wp7bar/BarService.java:381-407 | stopForeground alone when it exists; otherwise cancel the notice, then setForeground(false) |
| Compat.StartEntersForeground | WP7Bar/src/com/tombarrasso/android/wp7bar/BarService.java:349-375 | on either path the device is accepted into the foreground with the notice shown, and nothing else changes |
| Compat.StopLeavesForeground | WP7Bar/src/com/tombarrasso/android/wp7bar/BarService.java:381-407 | on either path a foreground process reaches the background with the notice gone, and never shows the notice out of the foreground on the way |
| Platform.CancelLateIsUnsafe | WP7Bar/src/com/tombarrasso/android/wp7bar/BarService.java:403-406 | the opposite order, setForeground(false) before cancel, is refused, because the notice would outlive the foreground |
| Platform.StickySwap | WP7Bar/src/com/tombarrasso/android/wp7bar/BarService.java:705-706 | withdrawing one sticky broadcast and sending the other changes only the sticky set, and in exactly that way |
| Platform.OverlaysNeverStack | WP7Bar/src/com/tombarrasso/android/wp7bar/BarService.java:506-599 | in any accepted trace, two addView calls always have a removeView between them |
| Overlay.Placement | WP7Bar/src/com/tombarrasso/android/wp7bar/BarService.java:487-520 | a system-error window exactly when drop is enabled, otherwise a system overlay; the six base flags always; NOT_TOUCHABLE exactly when drop is off; no other flag |
| Overlay.KindForInjective | WP7Bar/src/com/tombarrasso/android/wp7bar/BarService.java:562-594 | each icon key governs its own indicator class: no two keys hide the same class |
| Overlay.KeyHidesSpec | WP7Bar/src/com/tombarrasso/android/wp7bar/BarService.java:556-596 | the key loop for one child only ever hides that child, and hides it exactly when some enumerated key governing its class is stored false |
| Overlay.HideOpsSpec | WP7Bar/src/com/tombarrasso/android/wp7bar/BarService.java:551-597 | the hide calls are hide calls only, and name exactly the children whose class is switched off |
| Overlay.CreateStatusBar | WP7Bar/src/com/tombarrasso/android/wp7bar/BarService.java:499-601 | with a bar present nothing happens; otherwise a bar results, every configuration call comes first, and the single addView with the computed placement comes last |
| Overlay.SettingsApplied | WP7Bar/src/com/tombarrasso/android/wp7bar/BarService.java:537-549 | the property calls set both colours and the drop duration, turn drop off only when drop is disabled, turn expansion off only when swipe is disabled, and leave the children alone |
| Overlay.CreatedBarConfiguration | WP7Bar/src/com/tombarrasso/android/wp7bar/BarService.java:530-597 | the attached bar carries the preferred colours and drop duration; drop and expand are kept only when allowed; each child is GONE exactly when its class is switched off, otherwise as inflated |
| Overlay.NoDropKeepsExpand | WP7Bar/src/com/tombarrasso/android/wp7bar/HomeActivity.java:221-234 | with the settings screen forcing swipe on when drop is off, a bar created with drop off keeps its expansion |
| Overlay.Closing | WP7Bar/src/com/tombarrasso/android/wp7bar/BarService.java:454-484 | the listener closing makes close calls only |
| Overlay.ClosingCloses | WP7Bar/src/com/tombarrasso/android/wp7bar/BarService.java:460-484 | a listener is closed exactly when it reports having been initialised |
| Overlay.DestroyStatusBar | WP7Bar/src/com/tombarrasso/android/wp7bar/BarService.java:437-450 | the bar is forgotten; removeView happens exactly when a bar was present, and comes first; everything after it closes listeners, exactly the initialised ones |
| Overlay.DestroyDetaches | WP7Bar/src/com/tombarrasso/android/wp7bar/BarService.java:437-450 | the device accepts the calls, and ends detached with nothing else changed |
| Overlay.CreateAttaches | WP7Bar/src/com/tombarrasso/android/wp7bar/BarService.java:537-599 | on a device with no bar attached, the configuration calls change nothing observable and the add attaches the bar |
| State.Init | WP7Bar/src/com/tombarrasso/android/wp7bar/BarService.java:299-302 | a new instance is neither created nor destroyed, holds no bar, monitor or calls, and has the process's resolved foreground slots |
| State.InitValid | WP7Bar/src/com/tombarrasso/android/wp7bar/BarService.java:692-746 | a new instance satisfies the invariant |
| State.CallView | WP7Bar/src/com/tombarrasso/android/wp7bar/BarService.java:171-285 | a call on the attached view changes the view and records the call, and changes nothing else |
| State.CallViewValid | WP7Bar/src/com/tombarrasso/android/wp7bar/BarService.java:171-285 | a call on the attached view keeps the invariant |
| Receivers.SignalsPresence | WP7Bar/src/com/tombarrasso/android/wp7bar/BarService.java:844-849 | four unlock actions count on their own; the No Lock Screen lock-state action counts only when isActive is true; nothing else counts; every action that counts is in the presence filter |
| Receivers.ScreenReceive | WP7Bar/src/com/tombarrasso/android/wp7bar/BarService.java:797-828 | without an intent, an action, preferences or a bar, nothing changes. Screen off clears wasScreenOn, and disables expansion only when auto-disable is on; screen on sets wasScreenOn; other actions leave it. The calls appended are exactly the setExpand(false) of that case, then a setScreen with the resulting value when a monitor exists |
| Receivers.ScreenReceiveAppendsNeutral | WP7Bar/src/com/tombarrasso/android/wp7bar/BarService.java:797-828 | the screen receiver only appends calls, and none of them changes what the device observes |
| Receivers.ScreenReceiveTellsMonitor | WP7Bar/src/com/tombarrasso/android/wp7bar/BarService.java:826 | an existing monitor hears the new screen state as the last call; without a monitor no setScreen is made |
| Receivers.PresenceReceive | WP7Bar/src/com/tombarrasso/android/wp7bar/BarService.java:831-856 | a delivered unlock signal re-enables expansion exactly when auto-disable is on; every other case changes nothing |
| Receivers.LockSignalsIgnored | WP7Bar/src/com/tombarrasso/android/wp7bar/BarService.java:141-151 | the LOCKED actions, a lock-state without isActive true, and unknown actions never re-enable expansion |
| Receivers.ScreenOffThenUnlock | WP7Bar/src/com/tombarrasso/android/wp7bar/BarService.java:797-856 | with auto-disable on, screen off disables expansion, any recognised unlock re-enables it, and wasScreenOn stays false |
| Receivers.ScreenReceiveValid | WP7Bar/src/com/tombarrasso/android/wp7bar/BarService.java:797-828 | the screen receiver keeps the invariant |
| Receivers.PresenceReceiveValid | WP7Bar/src/com/tombarrasso/android/wp7bar/BarService.java:831-856 | the presence receiver keeps the invariant |
| Binder.Hide | WP7Bar/src/com/tombarrasso/android/wp7bar/BarService.java:171-174 | the bar becomes GONE, and only its visibility changes |
| Binder.Show | WP7Bar/src/com/tombarrasso/android/wp7bar/BarService.java:179-182 | the bar becomes VISIBLE, and only its visibility changes |
| Binder.Toggle | WP7Bar/src/com/tombarrasso/android/wp7bar/BarService.java:187-193 | a VISIBLE bar becomes GONE; a bar in any other state becomes VISIBLE |
| Binder.Drop | WP7Bar/src/com/tombarrasso/android/wp7bar/BarService.java:198-201 | the drop request is passed to the view; the service's view of the bar and every other field are unchanged |
| Binder.IsDropped | WP7Bar/src/com/tombarrasso/android/wp7bar/BarService.java:206-209 | reports the view's dropped state |
| Binder.DisableExpand | WP7Bar/src/com/tombarrasso/android/wp7bar/BarService.java:233-236 | expansion is turned off, and nothing else changes |
| Binder.EnableExpand | WP7Bar/src/com/tombarrasso/android/wp7bar/BarService.java:241-244 | expansion is turned on, and nothing else changes |
| Binder.GetIconColor | WP7Bar/src/com/tombarrasso/android/wp7bar/BarService.java:249-252 | the icon colour stored in the preferences now, not the view's |
| Binder.GetBackgroundColor | WP7Bar/src/com/tombarrasso/android/wp7bar/BarService.java:257-260 | the view's current background colour |
| Binder.GetHeight | WP7Bar/src/com/tombarrasso/android/wp7bar/BarService.java:265-268 | the view's height |
| Binder.MakeBackgroundTransparent | WP7Bar/src/com/tombarrasso/android/wp7bar/BarService.java:273-276 | the background becomes transparent, and nothing else changes |
| Binder.RestoreBackgroundColor | WP7Bar/src/com/tombarrasso/android/wp7bar/BarService.java:282-285 | the background becomes the colour stored in the preferences now |
| Binder.RemoteCreate | WP7Bar/src/com/tombarrasso/android/wp7bar/BarService.java:225-228 | a bar is present afterwards, and it is the bar createStatusBar yields (an existing bar is kept as is); the guard flags are untouched |
| Binder.RemoteDestroy | WP7Bar/src/com/tombarrasso/android/wp7bar/BarService.java:215-218 | the bar is gone afterwards and the guard flags and monitor are untouched |
| Binder.ToggleTwice | WP7Bar/src/com/tombarrasso/android/wp7bar/BarService.java:187-193 | two toggles restore a VISIBLE or GONE bar |
| Binder.ToggleTwiceFromInvisible | WP7Bar/src/com/tombarrasso/android/wp7bar/BarService.java:187-193 | two toggles do not restore an INVISIBLE bar: it ends GONE |
| Binder.HideHideShow | WP7Bar/src/com/tombarrasso/android/wp7bar/BarService.java:171-182 | repeated hides are harmless: hide, hide, show ends visible with everything else as before |
| Binder.RemoteRecreateUsesCurrentPreferences | WP7Bar/src/com/tombarrasso/android/wp7bar/BarService.java:215-228 | remote destroy then remote create builds the bar from the preferences of that moment, whatever the bar was before |
| Binder.RemoteCreateValid | WP7Bar/src/com/tombarrasso/android/wp7bar/BarService.java:225-228 | remote create keeps the invariant, even after destroy |
| Binder.RemoteDestroyValid | WP7Bar/src/com/tombarrasso/android/wp7bar/BarService.java:215-218 | remote destroy keeps the invariant, with or without a bar |
| Lifecycle.MonitorStart | WP7Bar/src/com/tombarrasso/android/wp7bar/BarService.java:873-885 | with the blacklist off, no call at all; otherwise exactly one start, preceded by an interrupt exactly when a monitor already exists |
| Lifecycle.Registrations | WP7Bar/src/com/tombarrasso/android/wp7bar/BarService.java:716-728 | only registrations, each at most once: the screen receiver exactly when the blacklist or auto-disable is on, the presence receiver exactly when auto-disable is on, and the screen receiver first |
| Lifecycle.CreateBroadcastsFirst | WP7Bar/src/com/tombarrasso/android/wp7bar/BarService.java:705-706 | a first create withdraws DISABLED and then sends ENABLED before any other call |
| Lifecycle.CreateWiringEvents | WP7Bar/src/com/tombarrasso/android/wp7bar/BarService.java:711-728 | the monitor and receiver calls of a first create are exactly those of startMonitorThread and the registrations |
| Lifecycle.CreateStartsMonitor | WP7Bar/src/com/tombarrasso/android/wp7bar/BarService.java:873-885 | a first create starts the monitor exactly when the blacklist is on, and interrupts an existing one, before the start, exactly when there is one |
| Lifecycle.CreateRegistersReceivers | WP7Bar/src/com/tombarrasso/android/wp7bar/BarService.java:716-728 | a first create registers each receiver exactly under its preference condition |
| Lifecycle.CreateAttachesLast | WP7Bar/src/com/tombarrasso/android/wp7bar/BarService.java:730-733 | with no bar present, the last call of a first create is the addView, and it comes after entering the foreground |
| Lifecycle.CreateAddsOnce | WP7Bar/src/com/tombarrasso/android/wp7bar/BarService.java:699-736 | a first create makes no addView before its last call |
| Lifecycle.CreateWithBarAddsNothing | WP7Bar/src/com/tombarrasso/android/wp7bar/BarService.java:506 | a first create with a bar already present adds no view at all |
| Lifecycle.Create | WP7Bar/src/com/tombarrasso/android/wp7bar/BarService.java:699-736 | a second create changes nothing; a first one leaves the service created, holding the bar createStatusBar yields, and with a monitor if the blacklist is on |
| Lifecycle.CreatePrefixReplays | WP7Bar/src/com/tombarrasso/android/wp7bar/BarService.java:705-732 | before the bar is created, a first create leaves a fresh device with ENABLED sticky, in the foreground with its notice |
| Lifecycle.CreateReplays | WP7Bar/src/com/tombarrasso/android/wp7bar/BarService.java:699-736 | the calls of a first create take a fresh device to ENABLED sticky, foreground with the notice, and the bar attached |
| Lifecycle.DestroyBroadcastsFirst | WP7Bar/src/com/tombarrasso/android/wp7bar/BarService.java:772-773 | a first destroy withdraws ENABLED and then sends DISABLED before any other call |
| Lifecycle.DestroyRemovesBarFirst | WP7Bar/src/com/tombarrasso/android/wp7bar/BarService.java:775-779 | a first destroy removes the view exactly when there is a bar, and before leaving the foreground |
| Lifecycle.DestroyCancelsFirst | WP7Bar/src/com/tombarrasso/android/wp7bar/BarService.java:403-406 | on the fallback path a first destroy cancels the notice before setForeground(false) |
| Lifecycle.DestroyInterruptsMonitorLast | WP7Bar/src/com/tombarrasso/android/wp7bar/BarService.java:781-783 | a first destroy interrupts the monitor exactly when one exists, as its last call |
| Lifecycle.DestroyClosesListeners | WP7Bar/src/com/tombarrasso/android/wp7bar/BarService.java:454-484 | a first destroy closes exactly the initialised listeners |
| Lifecycle.DestroyRegistersNothing | WP7Bar/src/com/tombarrasso/android/wp7bar/BarService.java:766-786 | a first destroy neither registers nor unregisters a receiver |
| Lifecycle.Destroy | WP7Bar/src/com/tombarrasso/android/wp7bar/BarService.java:766-786 | a second destroy changes nothing; a first one leaves the service destroyed and without a bar, with the monitor flag and slots kept |
| Lifecycle.CreateRunsOnce | WP7Bar/src/com/tombarrasso/android/wp7bar/BarService.java:699-701 | a second create, whatever the preferences say then, changes nothing |
| Lifecycle.CreateAfterDestroyIsNoOp | WP7Bar/src/com/tombarrasso/android/wp7bar/BarService.java:692-701 | in any reachable state, create after destroy changes nothing |
| Lifecycle.DestroyRunsOnce | WP7Bar/src/com/tombarrasso/android/wp7bar/BarService.java:766-768 | a second destroy changes nothing |
| Lifecycle.CreateValid | WP7Bar/src/com/tombarrasso/android/wp7bar/BarService.java:699-736 | create keeps the invariant: the device ends with ENABLED sticky, in the foreground with its notice, and with one bar attached |
| Lifecycle.DestroyValid | WP7Bar/src/com/tombarrasso/android/wp7bar/BarService.java:766-786 | destroy keeps the invariant: the device ends with DISABLED sticky, in the background without the notice, and with no bar attached |
| Lifecycle.NextValid | WP7Bar/src/com/tombarrasso/android/wp7bar/BarService.java:739-862 | every input the service reacts to keeps the invariant and the resolved slots, never clears a guard flag, and only appends calls |
| Lifecycle.Serve | WP7Bar/src/com/tombarrasso/android/wp7bar/BarService.java:739-862 | serving any input sequence from a valid state passes only through valid states, and stops only at an input with no defined behaviour |
| Lifecycle.ReachableNeverStacks | WP7Bar/src/com/tombarrasso/android/wp7bar/BarService.java:506-599 | in every reachable history, two bar windows are never attached at once |
| Lifecycle.ReachableNoticeSafe | WP7Bar/src/com/tombarrasso/android/wp7bar/BarService.java:403-406 | at no point of a reachable history does the notice show out of the foreground, and ENABLED and DISABLED are never sticky together |

## Left out

- Reflection mechanics (`Method.invoke` and its caught exceptions) are left out. Each foreground call is one event; a failed invocation is only logged in the source.
- The notification's contents (icon, title, pending intent) are left out. Only posting and cancelling it are modelled.
- `StatusBarView` internals (drawing, measuring, the drop animation, the state behind `isDropped`) are left out. `Binder.Drop` records the call but does not change the dropped flag.
- `MonitorActivityThread` internals are left out. The model keeps only whether a thread object exists, plus the start, interrupt and setScreen calls.
- The commented-out accessibility-service code and `onUnbind` are left out: they are not compiled.
- `onStartCommand` is left out: it only returns START_STICKY, which matters to the platform alone.
- `onBind` is left out: it only hands out the remote interface, which `Binder` models.
- `instanceof` checks on the bar's children are replaced by one indicator kind per child. Subclass relations between view classes are not modelled.
- The list of enumerated icon keys is a field of the preferences snapshot, because `Preferences.java` is not part of this model.
- The device automaton refuses an `addView` while a bar is attached. This encodes the requirement that the service shows a single bar window; it is not how the window manager behaves, since `createStatusBar` inflates a fresh view each time and a second add would open a second window. The invariant shows that the service never makes such a call.
- Inputs for which the source has no defined behaviour are excluded by `Lifecycle.Allowed`: a remote view call without a bar, and a destroy before create. In the source these are null dereferences, or cannot happen on the platform.
- The sticky broadcasts of earlier processes are not modelled: a new process starts with neither broadcast sticky.
- The HomeActivity rule that forces swipe on when drop is off appears only as the assumption `SettingsConsistent`. The service never enforces it.
- Lifecycle.Serve: every input, including each remote call, is one atomic step, and inputs are served one at a time. In the source the remote calls run on binder threads while the lifecycle callbacks and receivers run on the main thread, so they can interleave; that concurrency is not modelled.
- Binder.Drop: states only that the call reaches the view, because the effect of the call is internal to the view.
- Binder.IsDropped: reads a view-internal flag that no modelled call changes.
