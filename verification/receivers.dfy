/**
 * The two broadcast receivers: screen on/off, and the presence receiver that
 * folds the unlock signals of the system and of several third-party lock
 * screens into one decision to allow expansion again.
 */
module Receivers {
  import opened Wrappers
  import opened Views
  import opened Platform
  import opened Preferences
  import opened State

  /** The intent actions the receivers can be handed. */
  datatype Action =
    | ActionScreenOn
    | ActionScreenOff
    | ActionUserPresent
    | WidgetLockerUnlocked
    | WidgetLockerLocked
    | NoLockUnlocked
    | NoLockLocked
    | NoLockScreenLockState
    | RippleLockUnlocked
    | OtherAction(name: string)

  /** A delivered intent: its action, and its boolean "isActive" extra if present. */
  datatype Intent = Intent(action: Option<Action>, isActive: Option<bool>)

  /** The actions the screen receiver is registered for. */
  const ScreenFilter: set<Action> := {ActionScreenOn, ActionScreenOff}

  /** The actions the presence receiver is registered for; the LOCKED actions are not among them. */
  const LockFilter: set<Action> :=
    {ActionUserPresent, WidgetLockerUnlocked, NoLockUnlocked, NoLockScreenLockState, RippleLockUnlocked}

  /** Both receivers return at once unless there is an intent with an action, preferences and a bar. */
  predicate Delivered(s: Service, intent: Option<Intent>) {
    intent.Some? && intent.value.action.Some? && s.created && s.bar.Some?
  }

  /**
   * The normalisation of the unlock signals: four actions count on their own,
   * the No Lock Screen lock-state action counts only with isActive true, and
   * nothing else counts. Every action that counts is one the receiver is
   * registered for.
   */
  function SignalsPresence(i: Intent): (r: bool)
    ensures r <==>
      || i.action == Some(ActionUserPresent)
      || i.action == Some(WidgetLockerUnlocked)
      || i.action == Some(NoLockUnlocked)
      || i.action == Some(RippleLockUnlocked)
      || (i.action == Some(NoLockScreenLockState) && i.isActive == Some(true))
    ensures r ==> i.action.Some? && i.action.value in LockFilter
  {
    match i.action
    case None => false
    case Some(a) =>
      match a
      case ActionUserPresent => true
      case WidgetLockerUnlocked => true
      case NoLockUnlocked => true
      case RippleLockUnlocked => true
      case NoLockScreenLockState => i.isActive.GetOr(false)
      case _ => false
  }

  /**
   * The screen receiver. Screen off clears wasScreenOn and, when the preference
   * asks for it, disables expansion; screen on sets wasScreenOn; any other action
   * leaves it. An existing monitor is then told the (possibly unchanged) value.
   * With no intent, action, preferences or bar, nothing at all happens, so
   * wasScreenOn is not tracked while no bar is attached.
   */
  function ScreenReceive(s: Service, p: Snapshot, intent: Option<Intent>): (r: Service)
    ensures !Delivered(s, intent) ==> r == s
    ensures r.created == s.created && r.destroyed == s.destroyed
    ensures r.monitor == s.monitor && r.slots == s.slots
    ensures r.bar.Some? == s.bar.Some?
    ensures Delivered(s, intent) && intent.value.action.value == ActionScreenOff ==> !r.screenOn
    ensures Delivered(s, intent) && intent.value.action.value == ActionScreenOn ==> r.screenOn
    ensures Delivered(s, intent) && intent.value.action.value !in ScreenFilter ==> r.screenOn == s.screenOn
    ensures Delivered(s, intent) && intent.value.action.value == ActionScreenOff && p.expandDisabled
      ==> r.bar == Some(s.bar.value.(expand := false))
    ensures !(Delivered(s, intent) && intent.value.action.value == ActionScreenOff && p.expandDisabled)
      ==> r.bar == s.bar
    ensures Delivered(s, intent) ==>
      r.trace == s.trace
        + (if intent.value.action.value == ActionScreenOff && p.expandDisabled then [ViewCall(SetExpand(false))] else [])
        + (if s.monitor then [SetScreen(r.screenOn)] else [])
  {
    if !Delivered(s, intent) then s
    else
      var a := intent.value.action.value;
      var s1 :=
        if a == ActionScreenOff then
          (if p.expandDisabled then CallView(s, SetExpand(false)) else s).(screenOn := false)
        else if a == ActionScreenOn then s.(screenOn := true)
        else s;
      if s1.monitor then s1.(trace := s1.trace + [SetScreen(s1.screenOn)]) else s1
  }

  /**
   * The presence receiver: a recognised unlock signal re-enables expansion when
   * the preference asks for it; every other delivery, and every undelivered
   * intent, changes nothing.
   */
  function PresenceReceive(s: Service, p: Snapshot, intent: Option<Intent>): (r: Service)
    ensures Delivered(s, intent) && SignalsPresence(intent.value) && p.expandDisabled
      ==> r.bar == Some(s.bar.value.(expand := true))
          && r.trace == s.trace + [ViewCall(SetExpand(true))]
          && r == s.(bar := r.bar, trace := r.trace)
    ensures !(Delivered(s, intent) && SignalsPresence(intent.value) && p.expandDisabled) ==> r == s
  {
    if Delivered(s, intent) && SignalsPresence(intent.value) && p.expandDisabled then
      CallView(s, SetExpand(true))
    else s
  }

  /** The LOCKED signals, and a lock-state signal without isActive true, never re-enable expansion. */
  lemma LockSignalsIgnored(s: Service, p: Snapshot, i: Intent)
    requires
      || i.action == Some(WidgetLockerLocked)
      || i.action == Some(NoLockLocked)
      || (i.action == Some(NoLockScreenLockState) && i.isActive != Some(true))
      || (i.action.Some? && i.action.value.OtherAction?)
    ensures PresenceReceive(s, p, Some(i)) == s
  {
  }

  /**
   * With auto-disable on, turning the screen off disables expansion and any
   * recognised unlock then re-enables it, leaving wasScreenOn false.
   */
  lemma ScreenOffThenUnlock(s: Service, p: Snapshot, off: Intent, unlock: Intent)
    requires s.created && s.bar.Some?
    requires p.expandDisabled
    requires off.action == Some(ActionScreenOff)
    requires SignalsPresence(unlock)
    ensures !ScreenReceive(s, p, Some(off)).bar.value.expand
    ensures PresenceReceive(ScreenReceive(s, p, Some(off)), p, Some(unlock)).bar.value.expand
    ensures !PresenceReceive(ScreenReceive(s, p, Some(off)), p, Some(unlock)).screenOn
  {
    var s1 := ScreenReceive(s, p, Some(off));
    assert Delivered(s1, Some(unlock));
  }

  /** The screen receiver only appends, and only calls the device does not observe. */
  lemma ScreenReceiveAppendsNeutral(s: Service, p: Snapshot, intent: Option<Intent>)
    ensures var r := ScreenReceive(s, p, intent);
      && |s.trace| <= |r.trace| && r.trace[..|s.trace|] == s.trace
      && forall i :: |s.trace| <= i < |r.trace| ==> Neutral(r.trace[i])
  {
    if Delivered(s, intent) {
      var r := ScreenReceive(s, p, intent);
      var d := ScreenCalls(s, p, intent);
      assert r.trace == s.trace + d;
      assert forall i :: |s.trace| <= i < |r.trace| ==> r.trace[i] == d[i - |s.trace|];
    }
  }

  /** An existing monitor hears the new screen state as the last call; a missing one is told nothing. */
  lemma ScreenReceiveTellsMonitor(s: Service, p: Snapshot, intent: Option<Intent>)
    ensures var r := ScreenReceive(s, p, intent);
      && (Delivered(s, intent) && s.monitor ==> |r.trace| > 0 && r.trace[|r.trace| - 1] == SetScreen(r.screenOn))
      && (!s.monitor ==> forall i :: |s.trace| <= i < |r.trace| ==> !r.trace[i].SetScreen?)
  {
    if Delivered(s, intent) {
      var r := ScreenReceive(s, p, intent);
      var d := ScreenCalls(s, p, intent);
      assert r.trace == s.trace + d;
      assert forall i :: |s.trace| <= i < |r.trace| ==> r.trace[i] == d[i - |s.trace|];
    }
  }

  /** The calls a delivered screen intent appends, as the contract of the receiver lists them. */
  function ScreenCalls(s: Service, p: Snapshot, intent: Option<Intent>): seq<Event>
    requires Delivered(s, intent)
  {
    (if intent.value.action.value == ActionScreenOff && p.expandDisabled then [ViewCall(SetExpand(false))] else [])
    + (if s.monitor then [SetScreen(ScreenReceive(s, p, intent).screenOn)] else [])
  }

  lemma ScreenReceiveValid(s: Service, p: Snapshot, intent: Option<Intent>)
    requires Valid(s)
    ensures Valid(ScreenReceive(s, p, intent))
  {
    var r := ScreenReceive(s, p, intent);
    ScreenReceiveAppendsNeutral(s, p, intent);
    var d := r.trace[|s.trace|..];
    assert r.trace == s.trace + d;
    assert Expected(r) == Expected(s);
    ReplayNeutral(Expected(s), d);
    Extend(s, d, r);
  }

  lemma PresenceReceiveValid(s: Service, p: Snapshot, intent: Option<Intent>)
    requires Valid(s)
    ensures Valid(PresenceReceive(s, p, intent))
  {
    if Delivered(s, intent) && SignalsPresence(intent.value) && p.expandDisabled {
      CallViewValid(s, SetExpand(true));
    }
  }
}
