/**
 * The service lifecycle: the guarded create and destroy, the inputs the service
 * reacts to, and the invariant every reachable state keeps.
 */
module Lifecycle {
  import opened Wrappers
  import opened Views
  import opened Platform
  import opened Preferences
  import opened Compat
  import opened Overlay
  import opened State
  import opened Receivers
  import opened Binder

  /**
   * startMonitorThread: nothing unless the blacklist is in use; otherwise a
   * monitor that already exists is interrupted before the new one starts.
   */
  function MonitorStart(hadMonitor: bool, p: Snapshot): (r: seq<Event>)
    ensures StartMonitor in r <==> p.usingBlacklist
    ensures InterruptMonitor in r <==> p.usingBlacklist && hadMonitor
    ensures InterruptMonitor in r ==> r == [InterruptMonitor, StartMonitor]
    ensures |r| == (if p.usingBlacklist then 1 else 0) + (if p.usingBlacklist && hadMonitor then 1 else 0)
    ensures forall i :: 0 <= i < |r| ==> Neutral(r[i])
  {
    if !p.usingBlacklist then [] else (if hadMonitor then [InterruptMonitor] else []) + [StartMonitor]
  }

  /** The receivers create registers: screen for the blacklist or auto-disable, presence for auto-disable only. */
  function Registrations(p: Snapshot): (r: seq<Event>)
    ensures RegisterScreen in r <==> p.usingBlacklist || p.expandDisabled
    ensures RegisterPresence in r <==> p.expandDisabled
    ensures forall i :: 0 <= i < |r| ==> r[i] == RegisterScreen || r[i] == RegisterPresence
    ensures |r| == (if p.usingBlacklist || p.expandDisabled then 1 else 0) + (if p.expandDisabled then 1 else 0)
    ensures |r| == 2 ==> r[0] == RegisterScreen && r[1] == RegisterPresence
  {
    (if p.usingBlacklist || p.expandDisabled then [RegisterScreen] else [])
    + (if p.expandDisabled then [RegisterPresence] else [])
  }

  /**
   * The calls of a first create, in order: withdraw DISABLED, send ENABLED,
   * start the monitor, register the receivers, enter the foreground with the
   * notice, create the bar.
   */
  function CreateEffects(s: Service, p: Snapshot, inflated: Bar, height: int): seq<Event>
    requires s.slots.start.Some? || s.slots.legacy.Some?
  {
    [RemoveSticky(Disabled), SendSticky(Enabled)]
    + MonitorStart(s.monitor, p)
    + Registrations(p)
    + StartCompat(s.slots)
    + CreateStatusBar(s.bar, p, inflated, height).events
  }

  /** A first create withdraws DISABLED and then sends ENABLED before anything else. */
  lemma CreateBroadcastsFirst(s: Service, p: Snapshot, inflated: Bar, height: int)
    requires s.slots.start.Some? || s.slots.legacy.Some?
    ensures var d := CreateEffects(s, p, inflated, height);
      |d| >= 2 && d[0] == RemoveSticky(Disabled) && d[1] == SendSticky(Enabled)
  {
  }

  /** The calls that start the monitor or register a receiver. */
  predicate Wiring(e: Event) {
    e.StartMonitor? || e.InterruptMonitor? || e.RegisterScreen? || e.RegisterPresence?
  }

  /** In a first create, the wiring calls are exactly those of startMonitorThread and the registrations. */
  lemma CreateWiringEvents(s: Service, p: Snapshot, inflated: Bar, height: int)
    requires s.slots.start.Some? || s.slots.legacy.Some?
    ensures forall e :: Wiring(e) ==>
      (e in CreateEffects(s, p, inflated, height) <==> e in MonitorStart(s.monitor, p) + Registrations(p))
  {
    var a := [RemoveSticky(Disabled), SendSticky(Enabled)];
    var m := MonitorStart(s.monitor, p);
    var g := Registrations(p);
    var f := StartCompat(s.slots);
    var o := CreateStatusBar(s.bar, p, inflated, height).events;
    BarCallsNoWiring(s.bar, p, inflated, height);
    WiringOnlyInMiddle(a, m, g, f, o);
  }

  /** Creating the bar neither starts a monitor nor registers a receiver. */
  lemma BarCallsNoWiring(bar: Option<Bar>, p: Snapshot, inflated: Bar, height: int)
    ensures var o := CreateStatusBar(bar, p, inflated, height).events;
      forall i :: 0 <= i < |o| ==> !Wiring(o[i])
  {
  }

  /** Wiring calls of a five-part sequence whose outer parts hold none come from the two middle parts. */
  lemma WiringOnlyInMiddle(a: seq<Event>, m: seq<Event>, g: seq<Event>, f: seq<Event>, o: seq<Event>)
    requires forall i :: 0 <= i < |a| ==> !Wiring(a[i])
    requires forall i :: 0 <= i < |f| ==> !Wiring(f[i])
    requires forall i :: 0 <= i < |o| ==> !Wiring(o[i])
    ensures forall e :: Wiring(e) ==> (e in a + m + g + f + o <==> e in m + g)
  {
    forall e | Wiring(e)
      ensures e in a + m + g + f + o <==> e in m + g
    {
      assert e !in a && e !in f && e !in o;
    }
  }


  /**
   * A first create starts the monitor iff the blacklist is in use, and
   * interrupts an existing monitor, before the start, iff there is one.
   */
  lemma CreateStartsMonitor(s: Service, p: Snapshot, inflated: Bar, height: int)
    requires s.slots.start.Some? || s.slots.legacy.Some?
    ensures var d := CreateEffects(s, p, inflated, height);
      && (StartMonitor in d <==> p.usingBlacklist)
      && (InterruptMonitor in d <==> p.usingBlacklist && s.monitor)
      && (InterruptMonitor in d ==> Before(d, InterruptMonitor, StartMonitor))
  {
    CreateWiringEvents(s, p, inflated, height);
    var d := CreateEffects(s, p, inflated, height);
    var m := MonitorStart(s.monitor, p);
    assert StartMonitor in m + Registrations(p) <==> StartMonitor in m;
    assert InterruptMonitor in m + Registrations(p) <==> InterruptMonitor in m;
    if InterruptMonitor in m {
      assert d[2] == InterruptMonitor && d[3] == StartMonitor;
    }
  }

  /**
   * A first create registers the screen receiver iff the blacklist or
   * auto-disable is on, and the presence receiver iff auto-disable is on.
   */
  lemma CreateRegistersReceivers(s: Service, p: Snapshot, inflated: Bar, height: int)
    requires s.slots.start.Some? || s.slots.legacy.Some?
    ensures var d := CreateEffects(s, p, inflated, height);
      && (RegisterScreen in d <==> p.usingBlacklist || p.expandDisabled)
      && (RegisterPresence in d <==> p.expandDisabled)
  {
    CreateWiringEvents(s, p, inflated, height);
    var m := MonitorStart(s.monitor, p);
    assert RegisterScreen !in m && RegisterPresence !in m;
  }

  /** A first create with no bar attached ends with the AddView, after the foreground has been entered. */
  lemma CreateAttachesLast(s: Service, p: Snapshot, inflated: Bar, height: int)
    requires s.slots.start.Some? || s.slots.legacy.Some?
    requires s.bar.None?
    ensures var d := CreateEffects(s, p, inflated, height);
      && d[|d| - 1] == AddView(Placement(p, height))
      && Before(d, StartCompat(s.slots)[0], AddView(Placement(p, height)))
  {
    var a := [RemoveSticky(Disabled), SendSticky(Enabled)];
    var m := MonitorStart(s.monitor, p);
    var g := Registrations(p);
    var f := StartCompat(s.slots);
    var d := CreateEffects(s, p, inflated, height);
    assert d[|a| + |m| + |g|] == f[0];
  }

  /** A first create adds at most one view: nothing before its last call is an AddView. */
  lemma CreateAddsOnce(s: Service, p: Snapshot, inflated: Bar, height: int)
    requires s.slots.start.Some? || s.slots.legacy.Some?
    ensures var d := CreateEffects(s, p, inflated, height);
      forall i :: 0 <= i < |d| - 1 ==> !d[i].AddView?
  {
    var a := [RemoveSticky(Disabled), SendSticky(Enabled)];
    var pre := a + MonitorStart(s.monitor, p) + Registrations(p) + StartCompat(s.slots);
    var o := CreateStatusBar(s.bar, p, inflated, height).events;
    assert CreateEffects(s, p, inflated, height) == pre + o;
    assert forall i :: 0 <= i < |pre| ==> !pre[i].AddView?;
    AddOnlyLast(pre, o);
  }

  /** A first create with a bar already present adds no view at all. */
  lemma CreateWithBarAddsNothing(s: Service, p: Snapshot, inflated: Bar, height: int)
    requires s.slots.start.Some? || s.slots.legacy.Some?
    requires s.bar.Some?
    ensures var d := CreateEffects(s, p, inflated, height);
      forall i :: 0 <= i < |d| ==> !d[i].AddView?
  {
    var a := [RemoveSticky(Disabled), SendSticky(Enabled)];
    var pre := a + MonitorStart(s.monitor, p) + Registrations(p) + StartCompat(s.slots);
    assert CreateEffects(s, p, inflated, height) == pre + [];
    assert forall i :: 0 <= i < |pre| ==> !pre[i].AddView?;
  }

  /** A sequence whose only AddView can be the last call of its second part adds only at its end. */
  lemma AddOnlyLast(pre: seq<Event>, o: seq<Event>)
    requires forall i :: 0 <= i < |pre| ==> !pre[i].AddView?
    requires forall i :: 0 <= i < |o| - 1 ==> !o[i].AddView?
    ensures forall i :: 0 <= i < |pre + o| - 1 ==> !(pre + o)[i].AddView?
  {
  }

  /**
   * create(): runs its body only once per instance, since nothing resets the
   * created flag, and so also never after destroy. The first run leaves the
   * service created with a bar attached.
   */
  function Create(s: Service, p: Snapshot, inflated: Bar, height: int): (r: Service)
    requires !s.created ==> s.slots.start.Some? || s.slots.legacy.Some?
    ensures s.created ==> r == s
    ensures r.created
    ensures !s.created ==> r.bar.Some?
    ensures !s.created ==> r.bar == CreateStatusBar(s.bar, p, inflated, height).bar
    ensures r.destroyed == s.destroyed && r.slots == s.slots && r.screenOn == s.screenOn
    ensures !s.created ==> r.monitor == (s.monitor || p.usingBlacklist)
    ensures !s.created ==> r.trace == s.trace + CreateEffects(s, p, inflated, height)
  {
    if s.created then s
    else
      var o := CreateStatusBar(s.bar, p, inflated, height);
      s.(created := true,
         bar := o.bar,
         monitor := s.monitor || p.usingBlacklist,
         trace := s.trace + CreateEffects(s, p, inflated, height))
  }

  /**
   * The calls of a first destroy, in order: withdraw ENABLED, send DISABLED,
   * destroy the bar, leave the foreground, interrupt the monitor if one exists.
   */
  function DestroyEffects(s: Service, initialised: set<Listener>): seq<Event>
    requires s.slots.stop.Some? || s.slots.legacy.Some?
  {
    [RemoveSticky(Enabled), SendSticky(Disabled)]
    + DestroyStatusBar(s.bar, initialised).events
    + StopCompat(s.slots)
    + (if s.monitor then [InterruptMonitor] else [])
  }

  /** A first destroy withdraws ENABLED and then sends DISABLED before anything else. */
  lemma DestroyBroadcastsFirst(s: Service, initialised: set<Listener>)
    requires s.slots.stop.Some? || s.slots.legacy.Some?
    ensures var d := DestroyEffects(s, initialised);
      |d| >= 2 && d[0] == RemoveSticky(Enabled) && d[1] == SendSticky(Disabled)
  {
  }

  /** A first destroy removes the bar iff there is one, and does so before leaving the foreground. */
  lemma DestroyRemovesBarFirst(s: Service, initialised: set<Listener>)
    requires s.slots.stop.Some? || s.slots.legacy.Some?
    ensures var d := DestroyEffects(s, initialised);
      && (RemoveView in d <==> s.bar.Some?)
      && (s.bar.Some? ==> Before(d, RemoveView, StopCompat(s.slots)[0]))
  {
    var a := [RemoveSticky(Enabled), SendSticky(Disabled)];
    var b := DestroyStatusBar(s.bar, initialised).events;
    var f := StopCompat(s.slots);
    var m := if s.monitor then [InterruptMonitor] else [];
    var d := a + b + f + m;
    assert RemoveView !in a + f + m;
    if s.bar.Some? {
      assert d[|a|] == RemoveView && d[|a| + |b|] == f[0];
    }
  }

  /** On the fallback path a first destroy cancels the notice before setForeground(false). */
  lemma DestroyCancelsFirst(s: Service, initialised: set<Listener>)
    requires s.slots.stop.None? && s.slots.legacy.Some?
    ensures Before(DestroyEffects(s, initialised), Cancel, SetFg(false))
  {
    var a := [RemoveSticky(Enabled), SendSticky(Disabled)];
    var b := DestroyStatusBar(s.bar, initialised).events;
    var d := DestroyEffects(s, initialised);
    assert d[|a| + |b|] == Cancel && d[|a| + |b| + 1] == SetFg(false);
  }

  /** A first destroy interrupts the monitor iff one exists, as its very last call. */
  lemma DestroyInterruptsMonitorLast(s: Service, initialised: set<Listener>)
    requires s.slots.stop.Some? || s.slots.legacy.Some?
    ensures var d := DestroyEffects(s, initialised);
      && (InterruptMonitor in d <==> s.monitor)
      && (s.monitor ==> d[|d| - 1] == InterruptMonitor)
  {
  }

  /** A first destroy closes exactly the initialised listeners. */
  lemma DestroyClosesListeners(s: Service, initialised: set<Listener>)
    requires s.slots.stop.Some? || s.slots.legacy.Some?
    ensures forall l :: CloseListener(l) in DestroyEffects(s, initialised) <==> l in initialised
  {
    var a := [RemoveSticky(Enabled), SendSticky(Disabled)];
    var b := DestroyStatusBar(s.bar, initialised).events;
    var f := StopCompat(s.slots);
    var m := if s.monitor then [InterruptMonitor] else [];
    forall l ensures CloseListener(l) !in a + f + m {
    }
  }

  /** A first destroy registers nothing, and has no call that unregisters the receivers either. */
  lemma DestroyRegistersNothing(s: Service, initialised: set<Listener>)
    requires s.slots.stop.Some? || s.slots.legacy.Some?
    ensures var d := DestroyEffects(s, initialised);
      RegisterScreen !in d && RegisterPresence !in d
  {
    var a := [RemoveSticky(Enabled), SendSticky(Disabled)];
    var b := DestroyStatusBar(s.bar, initialised).events;
    var f := StopCompat(s.slots);
    var m := if s.monitor then [InterruptMonitor] else [];
    DestroyBarCalls(s.bar, initialised);
    assert DestroyEffects(s, initialised) == a + b + f + m;
    NotInParts(a, b, f, m, RegisterScreen);
    NotInParts(a, b, f, m, RegisterPresence);
  }

  /** Destroying the bar makes only the remove and the listener closes. */
  lemma DestroyBarCalls(bar: Option<Bar>, initialised: set<Listener>)
    ensures forall e :: e in DestroyStatusBar(bar, initialised).events ==> e == RemoveView || e.CloseListener?
  {
    var b := DestroyStatusBar(bar, initialised).events;
    forall e | e in b ensures e == RemoveView || e.CloseListener? {
      var i :| 0 <= i < |b| && b[i] == e;
    }
  }

  lemma NotInParts(a: seq<Event>, b: seq<Event>, f: seq<Event>, m: seq<Event>, e: Event)
    requires e !in a && e !in b && e !in f && e !in m
    ensures e !in a + b + f + m
  {
  }


  /**
   * destroy(): runs its body only once. It forgets the bar but leaves the
   * monitor thread reference and the receiver registrations in place.
   */
  function Destroy(s: Service, initialised: set<Listener>): (r: Service)
    requires !s.destroyed ==> s.slots.stop.Some? || s.slots.legacy.Some?
    ensures s.destroyed ==> r == s
    ensures r.destroyed && r.created == s.created
    ensures !s.destroyed ==> r.bar.None?
    ensures r.monitor == s.monitor && r.slots == s.slots && r.screenOn == s.screenOn
    ensures !s.destroyed ==> r.trace == s.trace + DestroyEffects(s, initialised)
  {
    if s.destroyed then s
    else s.(destroyed := true, bar := None, trace := s.trace + DestroyEffects(s, initialised))
  }

  /** A second create, whatever the preferences then say, changes nothing. */
  lemma CreateRunsOnce(s: Service, p: Snapshot, inflated: Bar, height: int, p': Snapshot, inflated': Bar, height': int)
    requires !s.created ==> s.slots.start.Some? || s.slots.legacy.Some?
    ensures Create(Create(s, p, inflated, height), p', inflated', height') == Create(s, p, inflated, height)
  {
  }

  /** In any reachable state, create after destroy is a no-op: the overlay is not re-established. */
  lemma CreateAfterDestroyIsNoOp(s: Service, p: Snapshot, inflated: Bar, height: int)
    requires Valid(s) && s.destroyed
    ensures Create(s, p, inflated, height) == s
  {
  }

  /** A second destroy changes nothing. */
  lemma DestroyRunsOnce(s: Service, l: set<Listener>, l': set<Listener>)
    requires !s.destroyed ==> s.slots.stop.Some? || s.slots.legacy.Some?
    ensures Destroy(Destroy(s, l), l') == Destroy(s, l)
  {
  }

  lemma CreateValid(s: Service, p: Snapshot, inflated: Bar, height: int)
    requires Valid(s)
    requires !s.created ==> s.slots.start.Some? || s.slots.legacy.Some?
    ensures Valid(Create(s, p, inflated, height))
  {
    if !s.created {
      var r := Create(s, p, inflated, height);
      CreateReplays(s, p, inflated, height);
      assert Expected(s) == World(false, {}, false, false);
      assert Expected(r) == World(true, {Enabled}, true, true);
      Extend(s, CreateEffects(s, p, inflated, height), r);
    }
  }

  /** The calls of a first create take a fresh device to ENABLED, foreground with the notice, and the bar attached. */
  lemma CreateReplays(s: Service, p: Snapshot, inflated: Bar, height: int)
    requires s.slots.start.Some? || s.slots.legacy.Some?
    requires s.bar.None?
    ensures Replay(World(false, {}, false, false), CreateEffects(s, p, inflated, height))
      == Some(World(true, {Enabled}, true, true))
  {
    var pre := [RemoveSticky(Disabled), SendSticky(Enabled)] + MonitorStart(s.monitor, p) + Registrations(p) + StartCompat(s.slots);
    var o := CreateStatusBar(s.bar, p, inflated, height).events;
    var w0 := World(false, {}, false, false);
    var w2 := World(false, {Enabled}, true, true);
    CreatePrefixReplays(s, p);
    assert CreateEffects(s, p, inflated, height) == pre + o;
    ReplayAppend(w0, pre, o);
    CreateAttaches(p, inflated, height, w2);
    assert w2.(attached := true) == World(true, {Enabled}, true, true);
  }

  /** Everything a first create does before creating the bar: ENABLED sticky, foreground with the notice. */
  lemma CreatePrefixReplays(s: Service, p: Snapshot)
    requires s.slots.start.Some? || s.slots.legacy.Some?
    ensures Replay(World(false, {}, false, false),
      [RemoveSticky(Disabled), SendSticky(Enabled)] + MonitorStart(s.monitor, p) + Registrations(p) + StartCompat(s.slots))
      == Some(World(false, {Enabled}, true, true))
  {
    var a := [RemoveSticky(Disabled), SendSticky(Enabled)];
    var m := MonitorStart(s.monitor, p);
    var g := Registrations(p);
    var f := StartCompat(s.slots);
    var w0 := World(false, {}, false, false);
    StickySwap(w0, Disabled, Enabled);
    var w1 := w0.(sticky := {Enabled});
    assert w0.(sticky := w0.sticky - {Disabled} + {Enabled}) == w1;
    ReplayAppend(w0, a, m);
    ReplayNeutral(w1, m);
    ReplayAppend(w0, a + m, g);
    ReplayNeutral(w1, g);
    ReplayAppend(w0, a + m + g, f);
    StartEntersForeground(s.slots, w1);
  }

  lemma DestroyValid(s: Service, initialised: set<Listener>)
    requires Valid(s) && s.created
    requires !s.destroyed ==> s.slots.stop.Some? || s.slots.legacy.Some?
    ensures Valid(Destroy(s, initialised))
  {
    if !s.destroyed {
      var r := Destroy(s, initialised);
      var a := [RemoveSticky(Enabled), SendSticky(Disabled)];
      var b := DestroyStatusBar(s.bar, initialised).events;
      var f := StopCompat(s.slots);
      var m := if s.monitor then [InterruptMonitor] else [];
      var w0 := Expected(s);
      assert w0 == World(s.bar.Some?, {Enabled}, true, true);
      StickySwap(w0, Enabled, Disabled);
      var w1 := w0.(sticky := {Disabled});
      assert w0.(sticky := w0.sticky - {Enabled} + {Disabled}) == w1;
      ReplayAppend(w0, a, b);
      DestroyDetaches(s.bar, initialised, w1);
      var w2 := w1.(attached := false);
      ReplayAppend(w0, a + b, f);
      StopLeavesForeground(s.slots, w2);
      var w3 := w2.(foreground := false, notice := false);
      ReplayAppend(w0, a + b + f, m);
      ReplayNeutral(w3, m);
      assert Expected(r) == w3;
      Extend(s, a + b + f + m, r);
    }
  }

  /** The remote calls that change the service. */
  datatype RemoteCall =
    | HideCall
    | ShowCall
    | ToggleCall
    | DropCall
    | DisableExpandCall
    | EnableExpandCall
    | MakeTransparentCall
    | RestoreBackgroundCall(p: Snapshot)
    | CreateCall(p: Snapshot, inflated: Bar, height: int)
    | DestroyCall(initialised: set<Listener>)

  /** Everything the service reacts to, each carrying the environment it reads at that moment. */
  datatype Input =
    | OnCreate(p: Snapshot, inflated: Bar, height: int)
    | OnDestroy(initialised: set<Listener>)
    | ScreenBroadcast(p: Snapshot, intent: Option<Intent>)
    | PresenceBroadcast(p: Snapshot, intent: Option<Intent>)
    | Remote(call: RemoteCall)

  /**
   * When an input has defined behaviour: the platform creates the service
   * before destroying it, a receiver only hears broadcasts once registered,
   * the fallback foreground path needs setForeground, and the remote view calls
   * need a bar (and creating one needs the preferences).
   */
  predicate Allowed(s: Service, input: Input) {
    match input
    case OnCreate(_, _, _) => !s.created ==> s.slots.start.Some? || s.slots.legacy.Some?
    case OnDestroy(_) => s.created && (!s.destroyed ==> s.slots.stop.Some? || s.slots.legacy.Some?)
    case ScreenBroadcast(_, _) => RegisterScreen in s.trace
    case PresenceBroadcast(_, _) => RegisterPresence in s.trace
    case Remote(c) =>
      match c
      case CreateCall(_, _, _) => s.bar.Some? || s.created
      case DestroyCall(_) => true
      case RestoreBackgroundCall(_) => s.bar.Some? && s.created
      case _ => s.bar.Some?
  }

  /** The state after one input. */
  function Next(s: Service, input: Input): Service
    requires Allowed(s, input)
  {
    match input
    case OnCreate(p, inflated, height) => Create(s, p, inflated, height)
    case OnDestroy(l) => Destroy(s, l)
    case ScreenBroadcast(p, i) => ScreenReceive(s, p, i)
    case PresenceBroadcast(p, i) => PresenceReceive(s, p, i)
    case Remote(c) =>
      match c
      case HideCall => Hide(s)
      case ShowCall => Show(s)
      case ToggleCall => Toggle(s)
      case DropCall => Binder.Drop(s)
      case DisableExpandCall => DisableExpand(s)
      case EnableExpandCall => EnableExpand(s)
      case MakeTransparentCall => MakeBackgroundTransparent(s)
      case RestoreBackgroundCall(p) => RestoreBackgroundColor(s, p)
      case CreateCall(p, inflated, height) => RemoteCreate(s, p, inflated, height)
      case DestroyCall(l) => RemoteDestroy(s, l)
  }

  /**
   * Every input keeps the invariant, never resets the guard flags or the
   * resolved slots, and only appends to the trace.
   */
  lemma {:induction false} NextValid(s: Service, input: Input)
    requires Valid(s) && Allowed(s, input)
    ensures Valid(Next(s, input))
    ensures Next(s, input).slots == s.slots
    ensures s.created ==> Next(s, input).created
    ensures s.destroyed ==> Next(s, input).destroyed
    ensures |s.trace| <= |Next(s, input).trace| && Next(s, input).trace[..|s.trace|] == s.trace
  {
    match input
    case OnCreate(p, inflated, height) => CreateValid(s, p, inflated, height);
    case OnDestroy(l) => DestroyValid(s, l);
    case ScreenBroadcast(p, i) => ScreenReceiveValid(s, p, i);
    case PresenceBroadcast(p, i) => PresenceReceiveValid(s, p, i);
    case Remote(c) =>
      match c
      case CreateCall(p, inflated, height) => RemoteCreateValid(s, p, inflated, height);
      case DestroyCall(l) => RemoteDestroyValid(s, l);
      case HideCall => CallViewValid(s, SetVisibility(Gone));
      case ShowCall => CallViewValid(s, SetVisibility(Visible));
      case ToggleCall =>
        CallViewValid(s, SetVisibility(if s.bar.value.visibility == Visible then Gone else Visible));
      case DropCall => CallViewValid(s, ViewOp.Drop);
      case DisableExpandCall => CallViewValid(s, SetExpand(false));
      case EnableExpandCall => CallViewValid(s, SetExpand(true));
      case MakeTransparentCall => CallViewValid(s, SetBackgroundColor(Transparent));
      case RestoreBackgroundCall(p) => CallViewValid(s, SetBackgroundColor(p.backgroundColor));
  }

  /**
   * Serve inputs in order from a valid state, stopping at the first input the
   * service has no behaviour for. Every state passed through is valid.
   */
  method Serve(s: Service, inputs: seq<Input>) returns (r: Service, served: nat)
    requires Valid(s)
    ensures served <= |inputs|
    ensures served < |inputs| ==> !Allowed(r, inputs[served])
    ensures Valid(r)
    ensures r.slots == s.slots
    ensures s.created ==> r.created
    ensures s.destroyed ==> r.destroyed
    ensures |s.trace| <= |r.trace| && r.trace[..|s.trace|] == s.trace
  {
    r := s;
    served := 0;
    while served < |inputs| && Allowed(r, inputs[served])
      invariant served <= |inputs|
      invariant Valid(r)
      invariant r.slots == s.slots
      invariant s.created ==> r.created
      invariant s.destroyed ==> r.destroyed
      invariant |s.trace| <= |r.trace| && r.trace[..|s.trace|] == s.trace
      decreases |inputs| - served
    {
      NextValid(r, inputs[served]);
      var r' := Next(r, inputs[served]);
      assert r'.trace[..|s.trace|] == r'.trace[..|r.trace|][..|s.trace|];
      r := r';
      served := served + 1;
    }
  }

  /** In every reachable state no two bars were ever attached at once. */
  lemma ReachableNeverStacks(s: Service, i: nat, j: nat)
    requires Valid(s)
    requires i < j < |s.trace| && s.trace[i].AddView? && s.trace[j].AddView?
    ensures exists k :: i < k < j && s.trace[k] == RemoveView
  {
    OverlaysNeverStack(Boot, s.trace, i, j);
  }

  /**
   * In every reachable state the notice was never showing while the process
   * was out of the foreground, at any point of its history, and the two
   * lifecycle broadcasts were never sticky together at the end.
   */
  lemma ReachableNoticeSafe(s: Service, k: nat)
    requires Valid(s)
    requires 0 < k <= |s.trace|
    ensures Replay(Boot, s.trace[..k]).Some?
    ensures Safe(Replay(Boot, s.trace[..k]).value)
    ensures !(Enabled in Replay(Boot, s.trace).value.sticky && Disabled in Replay(Boot, s.trace).value.sticky)
  {
    EveryPrefixSafe(Boot, s.trace, k);
  }
}
