/**
 * The status bar view as the service sees it: the properties the service sets
 * and reads back, and the row of indicator children it may hide. Drawing, the
 * drop animation and measurement belong to the view and are not modelled.
 */
module Views {

  /** The three visibility values of an Android view. */
  datatype Visibility = Visible | Invisible | Gone

  /** The colour value of Color.TRANSPARENT. */
  const Transparent: int := 0

  /** The indicator view classes a child of the bar can be; everything else is `OtherView`. */
  datatype Indicator =
    | SignalView | DataView | CarrierView | RoamingView | WifiView | BluetoothView
    | RingerView | LanguageView | BatteryPercentView | BatteryView | ClockView
    | OtherView

  datatype Child = Child(kind: Indicator, visibility: Visibility)

  /** The attached (or about to be attached) status bar view. */
  datatype Bar = Bar(
    visibility: Visibility,
    expand: bool,
    dropAllowed: bool,
    dropDuration: int,
    backgroundColor: int,
    iconColor: int,
    height: int,
    dropped: bool,
    children: seq<Child>)

  /** The mutating calls the service makes on the view. */
  datatype ViewOp =
    | SetBackgroundColor(color: int)
    | SetAllColors(color: int)
    | SetDropAllowed(allowed: bool)
    | SetExpand(expand: bool)
    | SetDropDuration(duration: int)
    | HideChild(index: nat)
    | SetVisibility(visibility: Visibility)
    | Drop

  /** The effect of one view call. No call changes which children the bar has. */
  function ApplyView(b: Bar, op: ViewOp): (r: Bar)
    ensures |r.children| == |b.children|
    ensures forall i :: 0 <= i < |b.children| ==> r.children[i].kind == b.children[i].kind
    ensures r.height == b.height && r.dropped == b.dropped
  {
    match op
    case SetBackgroundColor(c) => b.(backgroundColor := c)
    case SetAllColors(c) => b.(iconColor := c)
    case SetDropAllowed(a) => b.(dropAllowed := a)
    case SetExpand(e) => b.(expand := e)
    case SetDropDuration(d) => b.(dropDuration := d)
    case HideChild(i) =>
      if i < |b.children| then b.(children := b.children[i := b.children[i].(visibility := Gone)]) else b
    case SetVisibility(v) => b.(visibility := v)
    case Drop => b
  }

  /** The bar after each of `ops` in turn; the children keep their kinds. */
  function ApplyAll(b: Bar, ops: seq<ViewOp>): (r: Bar)
    ensures |r.children| == |b.children|
    ensures forall i :: 0 <= i < |b.children| ==> r.children[i].kind == b.children[i].kind
    ensures r.height == b.height && r.dropped == b.dropped
    decreases |ops|
  {
    if |ops| == 0 then b else ApplyAll(ApplyView(b, ops[0]), ops[1..])
  }

  lemma {:induction false} ApplyAllAppend(b: Bar, xs: seq<ViewOp>, ys: seq<ViewOp>)
    ensures ApplyAll(b, xs + ys) == ApplyAll(ApplyAll(b, xs), ys)
    decreases |xs|
  {
    if |xs| == 0 {
      assert xs + ys == ys;
    } else {
      assert (xs + ys)[0] == xs[0];
      assert (xs + ys)[1..] == xs[1..] + ys;
      ApplyAllAppend(ApplyView(b, xs[0]), xs[1..], ys);
    }
  }

  /**
   * A run of HideChild calls touches nothing but the children's visibility, and
   * a child ends up Gone exactly when some call named its index.
   */
  lemma {:induction false} HidesOnlyHide(b: Bar, ops: seq<ViewOp>)
    requires forall k :: 0 <= k < |ops| ==> ops[k].HideChild?
    ensures ApplyAll(b, ops) == b.(children := ApplyAll(b, ops).children)
    ensures forall i :: 0 <= i < |b.children| ==>
      ApplyAll(b, ops).children[i].visibility
        == (if HideChild(i) in ops then Gone else b.children[i].visibility)
    decreases |ops|
  {
    if |ops| > 0 {
      var b' := ApplyView(b, ops[0]);
      HidesOnlyHide(b', ops[1..]);
      forall i | 0 <= i < |b.children|
        ensures ApplyAll(b, ops).children[i].visibility
          == (if HideChild(i) in ops then Gone else b.children[i].visibility)
      {
        assert HideChild(i) in ops <==> ops[0] == HideChild(i) || HideChild(i) in ops[1..] by {
          assert ops == [ops[0]] + ops[1..];
        }
      }
    }
  }
}
