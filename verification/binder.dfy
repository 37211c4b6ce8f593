/**
 * The remote control surface bound by the settings screen. Every call other than
 * create, destroy and getIconColor goes straight to the attached view with no
 * null check, so each requires a bar; the model gives them no behaviour without one.
 */
module Binder {
  import opened Wrappers
  import opened Views
  import opened Platform
  import opened Preferences
  import opened Overlay
  import opened State

  /** hide(): make the bar GONE. */
  function Hide(s: Service): (r: Service)
    requires s.bar.Some?
    ensures r.bar == Some(s.bar.value.(visibility := Gone))
    ensures r.trace == s.trace + [ViewCall(SetVisibility(Gone))]
    ensures r == s.(bar := r.bar, trace := r.trace)
  {
    CallView(s, SetVisibility(Gone))
  }

  /** show(): make the bar VISIBLE. */
  function Show(s: Service): (r: Service)
    requires s.bar.Some?
    ensures r.bar == Some(s.bar.value.(visibility := Visible))
    ensures r.trace == s.trace + [ViewCall(SetVisibility(Visible))]
    ensures r == s.(bar := r.bar, trace := r.trace)
  {
    CallView(s, SetVisibility(Visible))
  }

  /** toggle(): a VISIBLE bar is hidden, a bar in any other state is shown. */
  function Toggle(s: Service): (r: Service)
    requires s.bar.Some?
    ensures r.bar == Some(s.bar.value.(visibility := if s.bar.value.visibility == Visible then Gone else Visible))
    ensures r.trace == s.trace + [ViewCall(SetVisibility(r.bar.value.visibility))]
    ensures r == s.(bar := r.bar, trace := r.trace)
  {
    if s.bar.value.visibility == Visible then Hide(s) else Show(s)
  }

  /** drop(): ask the view to drop its icons; the animation itself belongs to the view. */
  function Drop(s: Service): (r: Service)
    requires s.bar.Some?
    ensures r.bar == s.bar
    ensures r.trace == s.trace + [ViewCall(ViewOp.Drop)]
    ensures r == s.(trace := r.trace)
  {
    CallView(s, ViewOp.Drop)
  }

  /** isDropped(): read back from the view. */
  function IsDropped(s: Service): (r: bool)
    requires s.bar.Some?
    ensures r <==> s.bar.value.dropped
  {
    s.bar.value.dropped
  }

  /** disableExpand(). */
  function DisableExpand(s: Service): (r: Service)
    requires s.bar.Some?
    ensures r.bar == Some(s.bar.value.(expand := false))
    ensures r.trace == s.trace + [ViewCall(SetExpand(false))]
    ensures r == s.(bar := r.bar, trace := r.trace)
  {
    CallView(s, SetExpand(false))
  }

  /** enableExpand(). */
  function EnableExpand(s: Service): (r: Service)
    requires s.bar.Some?
    ensures r.bar == Some(s.bar.value.(expand := true))
    ensures r.trace == s.trace + [ViewCall(SetExpand(true))]
    ensures r == s.(bar := r.bar, trace := r.trace)
  {
    CallView(s, SetExpand(true))
  }

  /** getIconColor(): read from the preferences, not from the view, so it needs no bar but does need the preferences. */
  function GetIconColor(s: Service, p: Snapshot): (r: int)
    requires s.created
    ensures r == p.iconColor
  {
    p.iconColor
  }

  /** getBackgroundColor(): read back from the view. */
  function GetBackgroundColor(s: Service): (r: int)
    requires s.bar.Some?
    ensures r == s.bar.value.backgroundColor
  {
    s.bar.value.backgroundColor
  }

  /** getHeight(): read back from the view. */
  function GetHeight(s: Service): (r: int)
    requires s.bar.Some?
    ensures r == s.bar.value.height
  {
    s.bar.value.height
  }

  /** makeBackgroundTransparent(). */
  function MakeBackgroundTransparent(s: Service): (r: Service)
    requires s.bar.Some?
    ensures r.bar == Some(s.bar.value.(backgroundColor := Transparent))
    ensures r.trace == s.trace + [ViewCall(SetBackgroundColor(Transparent))]
    ensures r == s.(bar := r.bar, trace := r.trace)
  {
    CallView(s, SetBackgroundColor(Transparent))
  }

  /** restoreBackgroundColor(): the colour currently stored in the preferences. */
  function RestoreBackgroundColor(s: Service, p: Snapshot): (r: Service)
    requires s.bar.Some? && s.created
    ensures r.bar == Some(s.bar.value.(backgroundColor := p.backgroundColor))
    ensures r.trace == s.trace + [ViewCall(SetBackgroundColor(p.backgroundColor))]
    ensures r == s.(bar := r.bar, trace := r.trace)
  {
    CallView(s, SetBackgroundColor(p.backgroundColor))
  }

  /**
   * Remote create(): straight to createStatusBar, bypassing the create guard, the
   * sticky broadcasts and the foreground calls. Building a new bar reads the
   * preferences, which exist only once the service has been created.
   */
  function RemoteCreate(s: Service, p: Snapshot, inflated: Bar, height: int): (r: Service)
    requires s.bar.Some? || s.created
    ensures s.bar.Some? ==> r == s
    ensures r.bar.Some?
    ensures r.bar == CreateStatusBar(s.bar, p, inflated, height).bar
    ensures r.created == s.created && r.destroyed == s.destroyed && r.monitor == s.monitor
    ensures r.screenOn == s.screenOn && r.slots == s.slots
    ensures r.trace == s.trace + CreateStatusBar(s.bar, p, inflated, height).events
  {
    var o := CreateStatusBar(s.bar, p, inflated, height);
    s.(bar := o.bar, trace := s.trace + o.events)
  }

  /** Remote destroy(): straight to destroyStatusBar, bypassing the destroy guard and everything else destroy does. */
  function RemoteDestroy(s: Service, initialised: set<Listener>): (r: Service)
    ensures r.bar.None?
    ensures r.created == s.created && r.destroyed == s.destroyed && r.monitor == s.monitor
    ensures r.screenOn == s.screenOn && r.slots == s.slots
    ensures r.trace == s.trace + DestroyStatusBar(s.bar, initialised).events
  {
    s.(bar := None, trace := s.trace + DestroyStatusBar(s.bar, initialised).events)
  }

  /** Toggling twice restores a bar that was VISIBLE or GONE. */
  lemma ToggleTwice(s: Service)
    requires s.bar.Some?
    requires s.bar.value.visibility == Visible || s.bar.value.visibility == Gone
    ensures Toggle(Toggle(s)).bar == s.bar
  {
  }

  /** An INVISIBLE bar is not restored by two toggles: it comes back GONE. */
  lemma ToggleTwiceFromInvisible(s: Service)
    requires s.bar.Some? && s.bar.value.visibility == Invisible
    ensures Toggle(Toggle(s)).bar.value.visibility == Gone
  {
  }

  /** Redundant hides are harmless: hide, hide, show leaves the bar shown and otherwise as it was. */
  lemma HideHideShow(s: Service)
    requires s.bar.Some?
    ensures Show(Hide(Hide(s))).bar == Some(s.bar.value.(visibility := Visible))
    ensures Show(Hide(Hide(s))).trace
      == s.trace + [ViewCall(SetVisibility(Gone)), ViewCall(SetVisibility(Gone)), ViewCall(SetVisibility(Visible))]
  {
  }

  /**
   * A remote destroy followed by a remote create builds the new bar from the
   * preferences current at that moment, whatever the previous bar was.
   */
  lemma RemoteRecreateUsesCurrentPreferences(s: Service, l: set<Listener>, p: Snapshot, inflated: Bar, height: int)
    requires s.created
    ensures RemoteCreate(RemoteDestroy(s, l), p, inflated, height).bar
      == CreateStatusBar(None, p, inflated, height).bar
  {
  }

  lemma RemoteCreateValid(s: Service, p: Snapshot, inflated: Bar, height: int)
    requires Valid(s) && (s.bar.Some? || s.created)
    ensures Valid(RemoteCreate(s, p, inflated, height))
  {
    var r := RemoteCreate(s, p, inflated, height);
    var d := CreateStatusBar(s.bar, p, inflated, height).events;
    if s.bar.None? {
      CreateAttaches(p, inflated, height, Expected(s));
      assert Expected(r) == Expected(s).(attached := true);
    } else {
      assert d == [];
    }
    Extend(s, d, r);
  }

  lemma RemoteDestroyValid(s: Service, initialised: set<Listener>)
    requires Valid(s)
    ensures Valid(RemoteDestroy(s, initialised))
  {
    var r := RemoteDestroy(s, initialised);
    var d := DestroyStatusBar(s.bar, initialised).events;
    DestroyDetaches(s.bar, initialised, Expected(s));
    assert Expected(r) == Expected(s).(attached := false);
    Extend(s, d, r);
  }
}
