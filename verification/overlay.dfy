/**
 * Creating and destroying the status bar window: the placement computed from the
 * preferences, the configuration applied to the freshly inflated view before it
 * is added, and the indicator listeners closed on removal.
 */
module Overlay {
  import opened Wrappers
  import opened Views
  import opened Platform
  import opened Preferences

  /** The six flags every bar window carries. */
  const BaseFlags: set<WindowFlag> :=
    {NotFocusable, LayoutInScreen, ShowWhenLocked, TouchableWhenWaking, WatchOutsideTouch, NotTouchModal}

  /**
   * The window for the bar: a system-error window that takes touches when drop
   * is enabled, otherwise a system overlay that floats above the lock screen but
   * is not touchable.
   */
  function Placement(p: Snapshot, height: int): (r: LayoutParams)
    ensures r.windowType == SystemError <==> p.dropEnabled
    ensures r.windowType == SystemOverlay <==> !p.dropEnabled
    ensures BaseFlags <= r.flags
    ensures NotTouchable in r.flags <==> !p.dropEnabled
    ensures r.flags - BaseFlags <= {NotTouchable}
    ensures r.height == height
  {
    if p.dropEnabled then LayoutParams(SystemError, BaseFlags, height)
    else LayoutParams(SystemOverlay, BaseFlags + {NotTouchable}, height)
  }

  /** The indicator class each stored icon key governs. */
  function KindFor(k: IconKey): (r: Indicator)
    ensures r != OtherView
  {
    match k
    case SignalKey => SignalView
    case DataKey => DataView
    case CarrierKey => CarrierView
    case RoamingKey => RoamingView
    case WifiKey => WifiView
    case BluetoothKey => BluetoothView
    case RingerKey => RingerView
    case LanguageKey => LanguageView
    case BatteryPercentKey => BatteryPercentView
    case BatteryKey => BatteryView
    case TimeKey => ClockView
  }

  /** No two keys govern the same indicator class. */
  lemma KindForInjective(a: IconKey, b: IconKey)
    requires KindFor(a) == KindFor(b)
    ensures a == b
  {
  }

  /** An indicator class is hidden when some enumerated key that governs it is stored as false. */
  ghost predicate Hidden(p: Snapshot, kind: Indicator) {
    exists k :: k in p.iconKeys && !IconEnabled(p, k) && KindFor(k) == kind
  }

  /** The hide calls for child `i`: one per enumerated key that is off and governs the child's class. */
  function KeyHides(p: Snapshot, keys: seq<IconKey>, kind: Indicator, i: nat): seq<ViewOp>
    decreases |keys|
  {
    if |keys| == 0 then []
    else
      (if !IconEnabled(p, keys[0]) && KindFor(keys[0]) == kind then [HideChild(i)] else [])
      + KeyHides(p, keys[1..], kind, i)
  }

  /** The hide calls for the children from index `from` on, child by child. */
  function HideOps(p: Snapshot, children: seq<Child>, from: nat): seq<ViewOp>
    decreases |children| - from
  {
    if from >= |children| then []
    else KeyHides(p, p.iconKeys, children[from].kind, from) + HideOps(p, children, from + 1)
  }

  /** Child `i` gets hide calls only for itself, and some exactly when a key governing its class is off. */
  lemma {:induction false} KeyHidesSpec(p: Snapshot, keys: seq<IconKey>, kind: Indicator, i: nat)
    ensures forall m :: 0 <= m < |KeyHides(p, keys, kind, i)| ==> KeyHides(p, keys, kind, i)[m] == HideChild(i)
    ensures |KeyHides(p, keys, kind, i)| > 0 <==> exists k :: k in keys && !IconEnabled(p, k) && KindFor(k) == kind
    decreases |keys|
  {
    if |keys| > 0 {
      KeyHidesSpec(p, keys[1..], kind, i);
      assert forall k :: k in keys <==> k == keys[0] || k in keys[1..] by {
        assert keys == [keys[0]] + keys[1..];
      }
    }
  }

  /** The hide calls name exactly the children, from `from` on, whose class is hidden. */
  lemma {:induction false} HideOpsSpec(p: Snapshot, children: seq<Child>, from: nat)
    ensures forall m :: 0 <= m < |HideOps(p, children, from)| ==> HideOps(p, children, from)[m].HideChild?
    ensures forall j: nat ::
      (HideChild(j) in HideOps(p, children, from) <==> from <= j < |children| && Hidden(p, children[j].kind))
    decreases |children| - from
  {
    if from < |children| {
      var here := KeyHides(p, p.iconKeys, children[from].kind, from);
      KeyHidesSpec(p, p.iconKeys, children[from].kind, from);
      HideOpsSpec(p, children, from + 1);
      assert forall j: nat :: HideChild(j) in here <==> j == from && Hidden(p, children[from].kind) by {
        if |here| > 0 { assert here[0] == HideChild(from); }
      }
    }
  }

  /** The property calls made on the new view, in source order, before the children are visited. */
  function SettingOps(p: Snapshot): seq<ViewOp> {
    [SetBackgroundColor(p.backgroundColor), SetAllColors(p.iconColor)]
    + (if !p.dropEnabled then [SetDropAllowed(false)] else [])
    + (if !p.swipeEnabled then [SetExpand(false)] else [])
    + [SetDropDuration(p.dropDuration)]
  }

  /** Every configuration call made on the inflated view before it is added. */
  function ConfigOps(p: Snapshot, inflated: Bar): seq<ViewOp> {
    SettingOps(p) + HideOps(p, inflated.children, 0)
  }

  /** The view calls as trace events, in the same order. */
  function Calls(ops: seq<ViewOp>): (r: seq<Event>)
    ensures |r| == |ops|
    ensures forall i :: 0 <= i < |ops| ==> r[i] == ViewCall(ops[i])
    decreases |ops|
  {
    if |ops| == 0 then [] else [ViewCall(ops[0])] + Calls(ops[1..])
  }

  /** The bar reference after a window operation, and the calls it made. */
  datatype Outcome = Outcome(bar: Option<Bar>, events: seq<Event>)

  /**
   * createStatusBar: with a bar already attached nothing happens; otherwise the
   * inflated view is configured and then added, so the add is the one and only
   * window call and it comes after every configuration call.
   */
  function CreateStatusBar(bar: Option<Bar>, p: Snapshot, inflated: Bar, height: int): (r: Outcome)
    ensures bar.Some? ==> r == Outcome(bar, [])
    ensures bar.None? ==> r.bar.Some? && |r.events| > 0
    ensures bar.None? ==> r.events[|r.events| - 1] == AddView(Placement(p, height))
    ensures bar.None? ==> forall i :: 0 <= i < |r.events| - 1 ==> r.events[i].ViewCall?
  {
    if bar.Some? then Outcome(bar, [])
    else
      var ops := ConfigOps(p, inflated);
      Outcome(Some(ApplyAll(inflated, ops)), Calls(ops) + [AddView(Placement(p, height))])
  }

  /**
   * The bar a creation attaches: colours, drop duration, drop and expand as the
   * preferences say, and each child hidden exactly when its class is switched off.
   */
  lemma CreatedBarConfiguration(p: Snapshot, inflated: Bar, height: int)
    ensures CreateStatusBar(None, p, inflated, height).bar.Some?
    ensures var b := CreateStatusBar(None, p, inflated, height).bar.value;
      && b.backgroundColor == p.backgroundColor
      && b.iconColor == p.iconColor
      && b.dropDuration == p.dropDuration
      && (b.dropAllowed <==> p.dropEnabled && inflated.dropAllowed)
      && (b.expand <==> p.swipeEnabled && inflated.expand)
      && b.visibility == inflated.visibility
      && b.height == inflated.height
      && b.dropped == inflated.dropped
      && |b.children| == |inflated.children|
      && forall i :: 0 <= i < |b.children| ==>
           && b.children[i].kind == inflated.children[i].kind
           && b.children[i].visibility
                == (if Hidden(p, inflated.children[i].kind) then Gone else inflated.children[i].visibility)
  {
    var hides := HideOps(p, inflated.children, 0);
    HideOpsSpec(p, inflated.children, 0);
    ApplyAllAppend(inflated, SettingOps(p), hides);
    var mid := ApplyAll(inflated, SettingOps(p));
    SettingsApplied(p, inflated);
    HidesOnlyHide(mid, hides);
  }

  /** The property calls set exactly the properties they name and leave the children alone. */
  lemma SettingsApplied(p: Snapshot, b: Bar)
    ensures var m := ApplyAll(b, SettingOps(p));
      && m.backgroundColor == p.backgroundColor
      && m.iconColor == p.iconColor
      && m.dropDuration == p.dropDuration
      && m.dropAllowed == (p.dropEnabled && b.dropAllowed)
      && m.expand == (p.swipeEnabled && b.expand)
      && m.visibility == b.visibility
      && m.children == b.children
  {
    var a := [SetBackgroundColor(p.backgroundColor), SetAllColors(p.iconColor)];
    var d := if !p.dropEnabled then [SetDropAllowed(false)] else [];
    var e := if !p.swipeEnabled then [SetExpand(false)] else [];
    var f := [SetDropDuration(p.dropDuration)];
    ApplyAllAppend(b, a + d + e, f);
    ApplyAllAppend(b, a + d, e);
    ApplyAllAppend(b, a, d);
    var b1 := ApplyAll(b, a);
    var b0 := ApplyView(b, a[0]);
    assert a[1..] == [SetAllColors(p.iconColor)];
    assert ApplyAll(b0, a[1..]) == ApplyAll(ApplyView(b0, a[1..][0]), a[1..][1..]);
    assert a[1..][1..] == [];
    assert b1 == b.(backgroundColor := p.backgroundColor, iconColor := p.iconColor);
    var b2 := ApplyAll(b1, d);
    assert b2 == b1.(dropAllowed := p.dropEnabled && b.dropAllowed) by {
      if !p.dropEnabled { assert d[1..] == []; }
    }
    var b3 := ApplyAll(b2, e);
    assert b3 == b2.(expand := p.swipeEnabled && b.expand) by {
      if !p.swipeEnabled { assert e[1..] == []; }
    }
    assert f[1..] == [];
  }

  /**
   * Under the settings screen's rule, a bar created with drop off never has its
   * expansion switched off by the creation.
   */
  lemma NoDropKeepsExpand(p: Snapshot, inflated: Bar, height: int)
    requires SettingsConsistent(p)
    requires !p.dropEnabled
    ensures var b := CreateStatusBar(None, p, inflated, height).bar.value;
      !b.dropAllowed && b.expand == inflated.expand
  {
    CreatedBarConfiguration(p, inflated, height);
  }

  /** Close `l` if it reports having been initialised. */
  function CloseIf(l: Listener, initialised: set<Listener>): seq<Event> {
    if l in initialised then [CloseListener(l)] else []
  }

  /**
   * The listener closing of removeListeners: the seven listeners are looked at
   * in a fixed order and exactly the initialised ones are closed.
   */
  function Closing(initialised: set<Listener>): (r: seq<Event>)
    ensures forall i :: 0 <= i < |r| ==> r[i].CloseListener?
  {
    CloseIf(BatteryListener, initialised)
    + CloseIf(BluetoothListener, initialised)
    + CloseIf(PhoneListener, initialised)
    + CloseIf(RingerListener, initialised)
    + CloseIf(TimeListener, initialised)
    + CloseIf(WifiListener, initialised)
    + CloseIf(LanguageListener, initialised)
  }
  /** Exactly the initialised listeners are closed. */
  lemma ClosingCloses(initialised: set<Listener>)
    ensures forall l :: CloseListener(l) in Closing(initialised) <==> l in initialised
  {
    forall l ensures CloseListener(l) in Closing(initialised) <==> l in initialised {
      CloseIfOnly(l, BatteryListener, initialised);
      CloseIfOnly(l, BluetoothListener, initialised);
      CloseIfOnly(l, PhoneListener, initialised);
      CloseIfOnly(l, RingerListener, initialised);
      CloseIfOnly(l, TimeListener, initialised);
      CloseIfOnly(l, WifiListener, initialised);
      CloseIfOnly(l, LanguageListener, initialised);
    }
  }

  lemma CloseIfOnly(l: Listener, m: Listener, initialised: set<Listener>)
    ensures CloseListener(l) in CloseIf(m, initialised) <==> l == m && m in initialised
  {
  }


  /**
   * destroyStatusBar: remove the view only if one is attached and forget it, then
   * close exactly the initialised listeners in the fixed order.
   */
  function DestroyStatusBar(bar: Option<Bar>, initialised: set<Listener>): (r: Outcome)
    ensures r.bar.None?
    ensures RemoveView in r.events <==> bar.Some?
    ensures bar.Some? ==> |r.events| > 0 && r.events[0] == RemoveView
    ensures forall i :: (if bar.Some? then 1 else 0) <= i < |r.events| ==> r.events[i].CloseListener?
    ensures forall l :: CloseListener(l) in r.events <==> l in initialised
  {
    var closes := Closing(initialised);
    ClosingCloses(initialised);
    var head := if bar.Some? then [RemoveView] else [];
    assert RemoveView !in closes;
    assert forall l :: CloseListener(l) !in head;
    Outcome(None, head + closes)
  }

  /** Destroying the bar detaches it when there is one and changes nothing else the device observes. */
  lemma DestroyDetaches(bar: Option<Bar>, initialised: set<Listener>, w: World)
    requires Safe(w)
    requires w.attached <==> bar.Some?
    ensures Replay(w, DestroyStatusBar(bar, initialised).events) == Some(w.(attached := false))
  {
    var d := DestroyStatusBar(bar, initialised).events;
    var w' := w.(attached := false);
    if bar.Some? {
      var rest := d[1..];
      assert d == [RemoveView] + rest;
      assert forall i :: 0 <= i < |rest| ==> Neutral(rest[i]) by {
        forall i | 0 <= i < |rest| ensures Neutral(rest[i]) {
          assert rest[i] == d[i + 1];
        }
      }
      assert [RemoveView][1..] == [];
      assert Replay(w, [RemoveView]) == Some(w');
      ReplayAppend(w, [RemoveView], rest);
      ReplayNeutral(w', rest);
    } else {
      ReplayNeutral(w, d);
    }
  }

  /** Creating a bar where none is attached attaches it and changes nothing else the device observes. */
  lemma CreateAttaches(p: Snapshot, inflated: Bar, height: int, w: World)
    requires Safe(w) && !w.attached
    ensures Replay(w, CreateStatusBar(None, p, inflated, height).events) == Some(w.(attached := true))
  {
    var d := CreateStatusBar(None, p, inflated, height).events;
    var calls := d[..|d| - 1];
    var add := d[|d| - 1];
    assert d == calls + [add];
    ReplayNeutral(w, calls);
    ReplayAppend(w, calls, [add]);
    assert [add][1..] == [];
    assert Replay(w, [add]) == Step(w, add);
  }
}
