/**
 * The platform calls the service makes, recorded as an effect trace, and a small
 * automaton for what the rest of the device observes of them: whether the bar is
 * attached to the window manager, which lifecycle broadcasts are sticky, and
 * whether the process is in the foreground and shows its ongoing notification.
 */
module Platform {
  import opened Wrappers
  import opened Views

  /** The two sticky lifecycle broadcasts, ACTION_ENABLED and ACTION_DISABLED. */
  datatype Sticky = Enabled | Disabled

  datatype WindowType = SystemError | SystemOverlay

  datatype WindowFlag =
    | NotFocusable | LayoutInScreen | ShowWhenLocked | TouchableWhenWaking
    | WatchOutsideTouch | NotTouchModal | NotTouchable

  /** The window parameters handed to the window manager with the bar. */
  datatype LayoutParams = LayoutParams(windowType: WindowType, flags: set<WindowFlag>, height: int)

  /** The indicator state listeners that destroying the bar may close. */
  datatype Listener =
    | BatteryListener | BluetoothListener | PhoneListener | RingerListener
    | TimeListener | WifiListener | LanguageListener

  /** One platform call. */
  datatype Event =
    | RemoveSticky(sticky: Sticky)
    | SendSticky(sticky: Sticky)
    | StartMonitor
    | InterruptMonitor
    | SetScreen(on: bool)
    | RegisterScreen
    | RegisterPresence
    | StartFg
    | SetFg(foreground: bool)
    | Notify
    | Cancel
    | StopFg
    | AddView(params: LayoutParams)
    | RemoveView
    | CloseListener(listener: Listener)
    | ViewCall(op: ViewOp)

  /** What the device observes of the service. */
  datatype World = World(attached: bool, sticky: set<Sticky>, foreground: bool, notice: bool)

  /** A fresh process: no bar, no sticky broadcast, background, no notice. */
  const Boot: World := World(false, {}, false, false)

  /**
   * The ongoing notice is only ever shown by a foreground process: a background
   * process may be killed and would leave the notice behind.
   */
  predicate Safe(w: World) {
    w.notice ==> w.foreground
  }

  /** Calls that change nothing the device observes. */
  predicate Neutral(e: Event) {
    e.StartMonitor? || e.InterruptMonitor? || e.SetScreen? || e.RegisterScreen?
    || e.RegisterPresence? || e.CloseListener? || e.ViewCall?
  }

  /** The raw effect of one call; the window manager refuses a second add and a stray remove. */
  function Effect(w: World, e: Event): Option<World> {
    match e
    case RemoveSticky(x) => Some(w.(sticky := w.sticky - {x}))
    case SendSticky(x) => Some(w.(sticky := w.sticky + {x}))
    case AddView(_) => if w.attached then None else Some(w.(attached := true))
    case RemoveView => if w.attached then Some(w.(attached := false)) else None
    case StartFg => Some(w.(foreground := true, notice := true))
    case StopFg => Some(w.(foreground := false, notice := false))
    case SetFg(b) => Some(w.(foreground := b))
    case Notify => Some(w.(notice := true))
    case Cancel => Some(w.(notice := false))
    case _ => Some(w)
  }

  /** One call, refused when the platform refuses it or when it leaves the device unsafe. */
  function Step(w: World, e: Event): (r: Option<World>)
    ensures r.Some? ==> Safe(r.value)
    ensures Neutral(e) && Safe(w) ==> r == Some(w)
  {
    match Effect(w, e)
    case None => None
    case Some(v) => if Safe(v) then Some(v) else None
  }

  /** The device after the whole trace, or None if some call along the way was refused. */
  function Replay(w: World, t: seq<Event>): (r: Option<World>)
    ensures r.Some? && |t| > 0 ==> Safe(r.value)
    decreases |t|
  {
    if |t| == 0 then Some(w)
    else match Step(w, t[0])
      case None => None
      case Some(v) => Replay(v, t[1..])
  }

  lemma ReplaySingle(w: World, e: Event)
    ensures Replay(w, [e]) == Step(w, e)
  {
    assert [e][1..] == [];
  }

  /** Replaying two calls is replaying one after the other. */
  lemma ReplayPair(w: World, x: Event, y: Event)
    ensures Replay(w, [x, y]) == Then(Step(w, x), [y])
  {
    assert [x, y][1..] == [y];
  }

  /** Withdrawing one sticky broadcast and sending another changes only the sticky set. */
  lemma StickySwap(w: World, from: Sticky, to: Sticky)
    requires Safe(w)
    ensures Replay(w, [RemoveSticky(from), SendSticky(to)]) == Some(w.(sticky := w.sticky - {from} + {to}))
  {
    ReplayPair(w, RemoveSticky(from), SendSticky(to));
    var v := w.(sticky := w.sticky - {from});
    assert Step(w, RemoveSticky(from)) == Some(v);
    ReplaySingle(v, SendSticky(to));
  }

  /** Continue a replay that may already have been refused. */
  function Then(r: Option<World>, t: seq<Event>): Option<World> {
    match r
    case None => None
    case Some(v) => Replay(v, t)
  }

  lemma {:induction false} ReplayAppend(w: World, a: seq<Event>, b: seq<Event>)
    ensures Replay(w, a + b) == Then(Replay(w, a), b)
    decreases |a|
  {
    if |a| == 0 {
      assert a + b == b;
    } else {
      assert (a + b)[0] == a[0];
      assert (a + b)[1..] == a[1..] + b;
      match Step(w, a[0]) {
        case None =>
        case Some(v) => ReplayAppend(v, a[1..], b);
      }
    }
  }

  lemma {:induction false} ReplayNeutral(w: World, t: seq<Event>)
    requires Safe(w)
    requires forall i :: 0 <= i < |t| ==> Neutral(t[i])
    ensures Replay(w, t) == Some(w)
    decreases |t|
  {
    if |t| > 0 {
      ReplayNeutral(w, t[1..]);
    }
  }

  /** Every prefix of an accepted trace is accepted and, once non-empty, leaves the device safe. */
  lemma {:induction false} EveryPrefixSafe(w: World, t: seq<Event>, k: nat)
    requires Replay(w, t).Some?
    requires k <= |t|
    ensures Replay(w, t[..k]).Some?
    ensures k > 0 ==> Safe(Replay(w, t[..k]).value)
  {
    assert t == t[..k] + t[k..];
    ReplayAppend(w, t[..k], t[k..]);
  }

  /** An attached bar stays attached through any accepted run without a RemoveView. */
  lemma {:induction false} StaysAttached(v: World, u: seq<Event>)
    requires v.attached
    requires Replay(v, u).Some?
    requires forall k :: 0 <= k < |u| ==> u[k] != RemoveView
    ensures Replay(v, u).value.attached
    decreases |u|
  {
    if |u| > 0 {
      StaysAttached(Step(v, u[0]).value, u[1..]);
    }
  }

  /**
   * At most one bar is ever attached: between any two AddView calls of an
   * accepted trace there is a RemoveView.
   */
  lemma {:induction false} OverlaysNeverStack(w: World, t: seq<Event>, i: nat, j: nat)
    requires Replay(w, t).Some?
    requires i < j < |t| && t[i].AddView? && t[j].AddView?
    ensures exists k :: i < k < j && t[k] == RemoveView
  {
    if forall k :: i < k < j ==> t[k] != RemoveView {
      var pre := t[..i];
      var mid := t[i+1..j];
      var post := t[j..];
      assert t == pre + [t[i]] + mid + post;
      ReplayAppend(w, pre + [t[i]] + mid, post);
      ReplayAppend(w, pre + [t[i]], mid);
      ReplayAppend(w, pre, [t[i]]);
      var u := Replay(w, pre).value;
      assert [t[i]][1..] == [];
      assert Replay(u, [t[i]]) == Step(u, t[i]);
      var v1 := Replay(u, [t[i]]).value;
      assert v1.attached;
      assert forall k :: 0 <= k < |mid| ==> mid[k] == t[i + 1 + k];
      StaysAttached(v1, mid);
      assert false;
    }
  }

  /** `a` occurs at some position strictly before some occurrence of `b`. */
  predicate Before(t: seq<Event>, a: Event, b: Event) {
    exists i, j :: 0 <= i < j < |t| && t[i] == a && t[j] == b
  }

  /** Cancelling the notice after leaving the foreground is refused: the ordering of the legacy stop matters. */
  lemma CancelLateIsUnsafe(w: World)
    requires w.notice
    ensures Replay(w, [SetFg(false), Cancel]).None?
  {
  }
}
