/**
 * Foreground compatibility: the optional platform methods resolved once per
 * process, and the calls the start and stop wrappers make through them.
 */
module Compat {
  import opened Wrappers
  import opened Platform

  /** The service methods that may or may not exist on the running platform. */
  datatype Method = StartForeground | StopForeground | SetForeground

  /** The resolved slots; an empty slot selects the fallback path. */
  datatype Slots = Slots(start: Option<Method>, stop: Option<Method>, legacy: Option<Method>)

  /** One lookup: the method when the platform has it, nothing otherwise. */
  function Probe(api: set<Method>, m: Method): Option<Method> {
    if m in api then Some(m) else None
  }

  /** Resolve the three slots against the methods the platform offers. */
  function Resolve(api: set<Method>): (r: Slots)
    ensures r.start.Some? <==> StartForeground in api
    ensures r.stop.Some? <==> StopForeground in api
    ensures r.legacy.Some? <==> SetForeground in api
    ensures r.start.Some? ==> r.start.value == StartForeground
    ensures r.stop.Some? ==> r.stop.value == StopForeground
    ensures r.legacy.Some? ==> r.legacy.value == SetForeground
  {
    Slots(Probe(api, StartForeground), Probe(api, StopForeground), Probe(api, SetForeground))
  }

  /**
   * Enter the foreground: through startForeground when present, otherwise
   * setForeground(true) and then post the notice. The fallback calls
   * setForeground without checking that it was found.
   */
  function StartCompat(slots: Slots): (r: seq<Event>)
    requires slots.start.Some? || slots.legacy.Some?
    ensures slots.start.Some? ==> r == [StartFg]
    ensures slots.start.None? ==> r == [SetFg(true), Notify]
  {
    if slots.start.Some? then [StartFg] else [SetFg(true), Notify]
  }

  /**
   * Leave the foreground: through stopForeground when present, otherwise cancel
   * the notice strictly before setForeground(false).
   */
  function StopCompat(slots: Slots): (r: seq<Event>)
    requires slots.stop.Some? || slots.legacy.Some?
    ensures slots.stop.Some? ==> r == [StopFg]
    ensures slots.stop.None? ==> r == [Cancel, SetFg(false)]
  {
    if slots.stop.Some? then [StopFg] else [Cancel, SetFg(false)]
  }

  /** Whichever path is taken, starting brings a background process into the foreground with its notice. */
  lemma StartEntersForeground(slots: Slots, w: World)
    requires slots.start.Some? || slots.legacy.Some?
    requires Safe(w)
    ensures Replay(w, StartCompat(slots)) == Some(w.(foreground := true, notice := true))
  {
    var t := StartCompat(slots);
    if slots.start.Some? {
      assert t[1..] == [];
    } else {
      var v := w.(foreground := true);
      assert Step(w, t[0]) == Some(v);
      assert t[1..][1..] == [];
      assert Replay(v, t[1..]) == Step(v, Notify);
    }
  }

  /**
   * Whichever path is taken, stopping takes a foreground process with its notice
   * back to the background without ever leaving the notice orphaned.
   */
  lemma StopLeavesForeground(slots: Slots, w: World)
    requires slots.stop.Some? || slots.legacy.Some?
    requires w.foreground
    ensures Replay(w, StopCompat(slots)) == Some(w.(foreground := false, notice := false))
  {
    var t := StopCompat(slots);
    if slots.stop.Some? {
      assert t[1..] == [];
    } else {
      var v := w.(notice := false);
      assert Step(w, t[0]) == Some(v);
      assert t[1..][1..] == [];
      assert Replay(v, t[1..]) == Step(v, SetFg(false));
    }
  }
}
