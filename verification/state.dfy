/**
 * The service state: one service instance together with the process-wide values
 * it shares, and the invariant that ties the state to its effect trace.
 */
module State {
  import opened Wrappers
  import opened Views
  import opened Platform
  import opened Compat

  /**
   * - created, destroyed: the one-way guard flags of create and destroy. The
   *   preferences reference is assigned inside the create body, so it is
   *   non-null exactly when `created` holds.
   * - bar: the attached status bar view, if any.
   * - monitor: whether a monitor thread object exists; nothing ever clears it.
   * - screenOn: the process-wide wasScreenOn flag.
   * - slots: the foreground methods resolved when the class was loaded.
   * - trace: every platform call made so far, oldest first.
   */
  datatype Service = Service(
    created: bool,
    destroyed: bool,
    bar: Option<Bar>,
    monitor: bool,
    screenOn: bool,
    slots: Slots,
    trace: seq<Event>)

  /** A new instance in a process whose platform offers `api` and whose wasScreenOn is `screenOn`. */
  function Init(api: set<Method>, screenOn: bool): (s: Service)
    ensures !s.created && !s.destroyed && s.bar.None? && !s.monitor && s.trace == []
    ensures s.screenOn == screenOn
    ensures s.slots.start.Some? <==> StartForeground in api
    ensures s.slots.stop.Some? <==> StopForeground in api
    ensures s.slots.legacy.Some? <==> SetForeground in api
  {
    Service(false, false, None, false, screenOn, Resolve(api), [])
  }

  /**
   * What the device should observe of a service in state `s`: the bar attached
   * iff the service holds one; ENABLED sticky while created and not destroyed,
   * DISABLED once destroyed, nothing before; foreground with the notice shown
   * exactly between create and destroy.
   */
  function Expected(s: Service): World {
    var live := s.created && !s.destroyed;
    World(
      s.bar.Some?,
      if s.destroyed then {Disabled} else if s.created then {Enabled} else {},
      live,
      live)
  }

  /** The invariant of every state the service can reach. */
  predicate Valid(s: Service) {
    && (s.destroyed ==> s.created)
    && (s.bar.Some? ==> s.created)
    && Replay(Boot, s.trace) == Some(Expected(s))
  }

  lemma InitValid(api: set<Method>, screenOn: bool)
    ensures Valid(Init(api, screenOn))
  {
  }

  /** A transition that appends `d` keeps the invariant when `d` takes the device to the new expected world. */
  lemma Extend(s: Service, d: seq<Event>, s': Service)
    requires Valid(s)
    requires s'.trace == s.trace + d
    requires s'.destroyed ==> s'.created
    requires s'.bar.Some? ==> s'.created
    requires Replay(Expected(s), d) == Some(Expected(s'))
    ensures Valid(s')
  {
    ReplayAppend(Boot, s.trace, d);
  }

  /** One call on the attached view: the view changes, the call is recorded, nothing else moves. */
  function CallView(s: Service, op: ViewOp): (r: Service)
    requires s.bar.Some?
    ensures r.bar == Some(ApplyView(s.bar.value, op))
    ensures r.trace == s.trace + [ViewCall(op)]
    ensures r.created == s.created && r.destroyed == s.destroyed && r.monitor == s.monitor
    ensures r.screenOn == s.screenOn && r.slots == s.slots
  {
    s.(bar := Some(ApplyView(s.bar.value, op)), trace := s.trace + [ViewCall(op)])
  }

  lemma CallViewValid(s: Service, op: ViewOp)
    requires Valid(s) && s.bar.Some?
    ensures Valid(CallView(s, op))
  {
    var r := CallView(s, op);
    assert Expected(r) == Expected(s);
    assert [ViewCall(op)][1..] == [];
    Extend(s, [ViewCall(op)], r);
  }
}
