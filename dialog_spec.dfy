/**
 * The state machine of the base dialog class `qxl.dialog.Dialog`, as pure
 * functions over the dialog's observable state. The class in dialog.dfy
 * changes its fields in place and proves each of its methods against the
 * matching function here; the lemmas at the end relate several calls.
 */
module DialogSpec {
  import opened Wrappers

  /** Identity of a widget that can hold the keyboard focus. */
  type WidgetId = nat
  /** Identity of a callback function supplied by the application. */
  type CallbackId = nat
  /** Identity of the object a callback is called on. */
  type ContextId = nat

  /** The values of a widget's `visibility` property. */
  datatype Visibility = Visible | Hidden | Excluded

  /** The converter of the image, message and cancel-button bindings: a truthy value shows the widget. */
  function VisibilityFor(truthy: bool): (v: Visibility)
    ensures v == Visible <==> truthy
    ensures v != Hidden
  {
    if truthy then Visible else Excluded
  }

  /** Truthiness of a nullable string property such as `image` or `message`. */
  predicate StringTruthy(s: Option<string>) {
    s.Some? && s.value != ""
  }

  /** `Math.max` on integers. */
  function Max(a: int, b: int): (m: int)
    ensures a <= m && b <= m
    ensures m == a || m == b
  {
    if a < b then b else a
  }

  /**
   * The z-index `show` computes: the root's z-index, raised by each open
   * window in turn. It is the largest of them all.
   */
  function MaxZIndex(root: int, windows: seq<int>): (m: int)
    ensures root <= m
    ensures forall i :: 0 <= i < |windows| ==> windows[i] <= m
    ensures m == root || exists i :: 0 <= i < |windows| && windows[i] == m
  {
    if windows == [] then root
    else
      var prefix := windows[..|windows| - 1];
      var m := Max(MaxZIndex(root, prefix), windows[|windows| - 1]);
      assert forall i :: 0 <= i < |prefix| ==> prefix[i] == windows[i];
      m
  }

  /**
   * `Math.round(d / 2)` for an integer `d`. JavaScript rounds a half
   * toward positive infinity, so an odd `d` rounds up.
   */
  function HalfRounded(d: int): (r: int)
    ensures 2 * r - 1 <= d <= 2 * r
  {
    (d + 1) / 2
  }

  /** The margin that centers a dialog of `size` in a document of `extent` pixels. */
  function CenterMargin(extent: int, size: int): (r: int)
    ensures 2 * r - 1 <= extent - size <= 2 * r
  {
    HalfRounded(extent - size)
  }

  /** The key code of the Escape key. */
  const EscapeKeyCode := 27

  /**
   * Whether a key-up event cancels the dialog. The `allowCancel` property
   * takes no part in this decision.
   */
  predicate EscapeCancels(cancelOnEscape: bool, keyCode: int, hasContentElement: bool, seeable: bool) {
    cancelOnEscape && keyCode == EscapeKeyCode && hasContentElement && seeable
  }

  /** The callback property holds either an application function or the resolver `promise()` installs. */
  datatype Callback = UserCallback(id: CallbackId) | Resolver(promise: nat)

  /** `_handleOk` passes `true`; `_handleCancel` passes no value at all. */
  datatype CallbackArg = WithTrue | WithoutValue

  datatype Invocation = Invocation(callback: Callback, context: Option<ContextId>, arg: CallbackArg)

  datatype PromiseState = Pending | Resolved(value: CallbackArg)

  /** The events the dialog fires. */
  datatype DialogEvent = OkEvent | CancelEvent

  /** The best-effort calls the dialog makes on the widget that had the focus. */
  datatype FocusRequest = Blur(widget: WidgetId) | Focus(widget: WidgetId)

  /**
   * What `show`, `hide`, `promise` and the button handlers read and change:
   * the dialog's own properties, the state of its blocker (`blockedAt`, the
   * layer up to which content is blocked), and what it has done to the
   * outside world so far (requests to the focused widget, events fired,
   * callback invocations, and the state of each promise it has handed out,
   * indexed by creation order).
   */
  datatype Lifecycle = Lifecycle(
    visibility: Visibility,
    zIndex: int,
    blockedAt: Option<int>,
    previousFocus: Option<WidgetId>,
    callback: Option<Callback>,
    context: Option<ContextId>,
    allowCancel: bool,
    cancelOnEscape: bool,
    useBlocker: bool,
    focusRequests: seq<FocusRequest>,
    events: seq<DialogEvent>,
    invocations: seq<Invocation>,
    promises: seq<PromiseState>)

  /** An installed resolver always belongs to a promise that is still pending. */
  predicate WellFormed(d: Lifecycle) {
    ResolverPending(d.callback, d.promises)
  }

  predicate ResolverPending(callback: Option<Callback>, promises: seq<PromiseState>) {
    callback.Some? && callback.value.Resolver? ==>
      callback.value.promise < |promises| && promises[callback.value.promise].Pending?
  }

  /** Blocking is on when the instance property or the class-wide override asks for it. */
  predicate Blocking(d: Lifecycle, useBlockerOverride: bool) {
    d.useBlocker || useBlockerOverride
  }

  function BlurRequests(active: Option<WidgetId>): seq<FocusRequest> {
    if active.Some? then [Blur(active.value)] else []
  }

  function FocusRequests(previous: Option<WidgetId>): seq<FocusRequest> {
    if previous.Some? then [Focus(previous.value)] else []
  }

  /** `show()` given the root's z-index, the open windows' z-indices and the focused widget. */
  function AfterShow(d: Lifecycle, useBlockerOverride: bool, rootZIndex: int, windowZIndices: seq<int>,
                     activeWidget: Option<WidgetId>): (r: Lifecycle)
    ensures r.visibility == Visible
    ensures r.previousFocus == activeWidget
    ensures Blocking(d, useBlockerOverride) ==>
      && r.zIndex > rootZIndex
      && (forall i :: 0 <= i < |windowZIndices| ==> windowZIndices[i] < r.zIndex)
      && (r.zIndex - 1 == rootZIndex || r.zIndex - 1 in windowZIndices)
      && r.blockedAt == Some(r.zIndex - 1)
    ensures !Blocking(d, useBlockerOverride) ==> r.zIndex == d.zIndex && r.blockedAt == d.blockedAt
    ensures r.focusRequests == d.focusRequests + BlurRequests(activeWidget)
    ensures r.(visibility := d.visibility, zIndex := d.zIndex, blockedAt := d.blockedAt,
               previousFocus := d.previousFocus, focusRequests := d.focusRequests) == d
  {
    var raised :=
      if Blocking(d, useBlockerOverride) then
        var m := MaxZIndex(rootZIndex, windowZIndices);
        d.(zIndex := m + 1, blockedAt := Some(m))
      else d;
    raised.(visibility := Visible, previousFocus := activeWidget,
            focusRequests := d.focusRequests + BlurRequests(activeWidget))
  }

  /** `AfterShow` field by field, as a method that assigns the fields one by one sees it. */
  lemma AfterShowFields(d: Lifecycle, o: bool, rootZIndex: int, windowZIndices: seq<int>, activeWidget: Option<WidgetId>)
    ensures var r := AfterShow(d, o, rootZIndex, windowZIndices, activeWidget);
      && r.zIndex == (if Blocking(d, o) then MaxZIndex(rootZIndex, windowZIndices) + 1 else d.zIndex)
      && r.blockedAt == (if Blocking(d, o) then Some(MaxZIndex(rootZIndex, windowZIndices)) else d.blockedAt)
      && r == d.(zIndex := r.zIndex, blockedAt := r.blockedAt, visibility := Visible,
                 previousFocus := activeWidget, focusRequests := d.focusRequests + BlurRequests(activeWidget))
  {
  }

  /** `hide()`: release the blocker if blocking is on, refocus the widget captured by `show`, hide. */
  function AfterHide(d: Lifecycle, useBlockerOverride: bool): (r: Lifecycle)
    ensures r.visibility == Hidden
    ensures r.blockedAt == if Blocking(d, useBlockerOverride) then None else d.blockedAt
    ensures r.focusRequests == d.focusRequests + FocusRequests(d.previousFocus)
    ensures r.(visibility := d.visibility, blockedAt := d.blockedAt, focusRequests := d.focusRequests) == d
  {
    var released := if Blocking(d, useBlockerOverride) then d.(blockedAt := None) else d;
    released.(visibility := Hidden, focusRequests := d.focusRequests + FocusRequests(d.previousFocus))
  }

  /** A promise settles once: resolving one that is no longer pending changes nothing. */
  function Resolve(promises: seq<PromiseState>, p: nat, value: CallbackArg): (r: seq<PromiseState>)
    ensures |r| == |promises|
    ensures p < |promises| && promises[p].Pending? ==> r[p] == Resolved(value)
    ensures forall q :: 0 <= q < |r| && q != p ==> r[q] == promises[q]
    ensures forall q :: 0 <= q < |r| && promises[q].Resolved? ==> r[q] == promises[q]
  {
    if p < |promises| && promises[p].Pending? then promises[p := Resolved(value)] else promises
  }

  /**
   * Calls the installed callback on the context with `arg`. The resolver
   * installed by `promise()` first clears the callback and then resolves
   * its promise with the value it received.
   */
  function Invoke(d: Lifecycle, arg: CallbackArg): (r: Lifecycle)
    requires d.callback.Some?
    ensures r.invocations == d.invocations + [Invocation(d.callback.value, d.context, arg)]
    ensures d.callback.value.UserCallback? ==> r == d.(invocations := r.invocations)
    ensures d.callback.value.Resolver? ==>
      r == d.(invocations := r.invocations, callback := None,
              promises := Resolve(d.promises, d.callback.value.promise, arg))
  {
    var logged := d.(invocations := d.invocations + [Invocation(d.callback.value, d.context, arg)]);
    match d.callback.value
    case UserCallback(_) => logged
    case Resolver(p) => logged.(callback := None, promises := Resolve(d.promises, p, arg))
  }

  /** `_handleOk()`: hide, fire "ok", call the callback with `true` if one is set, clear the callback. */
  function AfterOk(d: Lifecycle, useBlockerOverride: bool): (r: Lifecycle)
    ensures r.visibility == Hidden && r.callback == None
    ensures r.events == d.events + [OkEvent]
    ensures r.invocations == d.invocations +
      (if d.callback.Some? then [Invocation(d.callback.value, d.context, WithTrue)] else [])
    ensures r.promises ==
      if d.callback.Some? && d.callback.value.Resolver? then Resolve(d.promises, d.callback.value.promise, WithTrue)
      else d.promises
    ensures r.blockedAt == AfterHide(d, useBlockerOverride).blockedAt
    ensures r.focusRequests == AfterHide(d, useBlockerOverride).focusRequests
    ensures r.(visibility := d.visibility, blockedAt := d.blockedAt, focusRequests := d.focusRequests,
               events := d.events, invocations := d.invocations, callback := d.callback,
               promises := d.promises) == d
  {
    var hidden := AfterHide(d, useBlockerOverride);
    var fired := hidden.(events := hidden.events + [OkEvent]);
    var called := if fired.callback.Some? then Invoke(fired, WithTrue) else fired;
    called.(callback := None)
  }

  /**
   * `_handleCancel()`: hide, fire "cancel", call the callback with no value
   * only when cancelling is allowed and a callback is set, clear the callback.
   */
  function AfterCancel(d: Lifecycle, useBlockerOverride: bool): (r: Lifecycle)
    ensures r.visibility == Hidden && r.callback == None
    ensures r.events == d.events + [CancelEvent]
    ensures r.invocations == d.invocations +
      (if d.allowCancel && d.callback.Some? then [Invocation(d.callback.value, d.context, WithoutValue)] else [])
    ensures r.promises ==
      if d.allowCancel && d.callback.Some? && d.callback.value.Resolver? then
        Resolve(d.promises, d.callback.value.promise, WithoutValue)
      else d.promises
    ensures r.blockedAt == AfterHide(d, useBlockerOverride).blockedAt
    ensures r.focusRequests == AfterHide(d, useBlockerOverride).focusRequests
    ensures r.(visibility := d.visibility, blockedAt := d.blockedAt, focusRequests := d.focusRequests,
               events := d.events, invocations := d.invocations, callback := d.callback,
               promises := d.promises) == d
  {
    var hidden := AfterHide(d, useBlockerOverride);
    var fired := hidden.(events := hidden.events + [CancelEvent]);
    var called := if fired.allowCancel && fired.callback.Some? then Invoke(fired, WithoutValue) else fired;
    called.(callback := None)
  }

  /** `promise()`: hand out a new pending promise and install its resolver as the callback. */
  function AfterPromise(d: Lifecycle): (r: (Lifecycle, nat))
    ensures r.1 == |d.promises| && r.0.promises == d.promises + [Pending]
    ensures r.0.callback == Some(Resolver(r.1))
    ensures r.0.(callback := d.callback, promises := d.promises) == d
  {
    var p := |d.promises|;
    (d.(callback := Some(Resolver(p)), promises := d.promises + [Pending]), p)
  }

  /** `_handleEscape(e)`: cancel when the key-up event meets `EscapeCancels`, otherwise nothing. */
  function AfterEscape(d: Lifecycle, useBlockerOverride: bool, keyCode: int, hasContentElement: bool,
                       seeable: bool): (r: Lifecycle)
    ensures EscapeCancels(d.cancelOnEscape, keyCode, hasContentElement, seeable) ==>
      r == AfterCancel(d, useBlockerOverride)
    ensures !EscapeCancels(d.cancelOnEscape, keyCode, hasContentElement, seeable) ==> r == d
  {
    if EscapeCancels(d.cancelOnEscape, keyCode, hasContentElement, seeable) then AfterCancel(d, useBlockerOverride)
    else d
  }

  /** Every operation keeps the resolver invariant. */
  lemma WellFormedPreserved(d: Lifecycle, o: bool, rootZIndex: int, windowZIndices: seq<int>,
                            activeWidget: Option<WidgetId>, keyCode: int, hasContentElement: bool, seeable: bool)
    requires WellFormed(d)
    ensures WellFormed(AfterShow(d, o, rootZIndex, windowZIndices, activeWidget))
    ensures WellFormed(AfterHide(d, o))
    ensures WellFormed(AfterOk(d, o)) && WellFormed(AfterCancel(d, o))
    ensures WellFormed(AfterPromise(d).0)
    ensures WellFormed(AfterEscape(d, o, keyCode, hasContentElement, seeable))
  {
  }

  /**
   * What the user can do to a dialog without installing a new callback:
   * show it, hide it, press OK or Cancel, or release a key.
   */
  datatype Interaction =
    | ShowStep(rootZIndex: int, windowZIndices: seq<int>, activeWidget: Option<WidgetId>)
    | HideStep
    | OkStep
    | CancelStep
    | KeyUpStep(keyCode: int, hasContentElement: bool, seeable: bool)

  function Apply(d: Lifecycle, o: bool, step: Interaction): Lifecycle {
    match step
    case ShowStep(rootZIndex, windowZIndices, activeWidget) => AfterShow(d, o, rootZIndex, windowZIndices, activeWidget)
    case HideStep => AfterHide(d, o)
    case OkStep => AfterOk(d, o)
    case CancelStep => AfterCancel(d, o)
    case KeyUpStep(keyCode, hasContentElement, seeable) => AfterEscape(d, o, keyCode, hasContentElement, seeable)
  }

  /** The state after the interactions `steps`, in order. */
  function Replay(d: Lifecycle, o: bool, steps: seq<Interaction>): Lifecycle
    decreases |steps|
  {
    if |steps| == 0 then d else Replay(Apply(d, o, steps[0]), o, steps[1..])
  }

  /** Without a callback, no interaction calls anything or settles any promise. */
  lemma {:induction false} NoCallbackNoInvocations(d: Lifecycle, o: bool, steps: seq<Interaction>)
    requires d.callback == None
    ensures var r := Replay(d, o, steps);
      r.callback == None && r.invocations == d.invocations && r.promises == d.promises
    decreases |steps|
  {
    if |steps| > 0 {
      var next := Apply(d, o, steps[0]);
      assert next.callback == None && next.invocations == d.invocations && next.promises == d.promises;
      NoCallbackNoInvocations(next, o, steps[1..]);
    }
  }

  /**
   * Once OK or Cancel has been handled, no sequence of show, hide, OK,
   * Cancel and key-up calls the callback again or settles a promise.
   */
  lemma AnsweredDialogCallsNothing(d: Lifecycle, o: bool, steps: seq<Interaction>)
    ensures var d1 := AfterOk(d, o);
      Replay(d1, o, steps).invocations == d1.invocations && Replay(d1, o, steps).promises == d1.promises
    ensures var d1 := AfterCancel(d, o);
      Replay(d1, o, steps).invocations == d1.invocations && Replay(d1, o, steps).promises == d1.promises
  {
    NoCallbackNoInvocations(AfterOk(d, o), o, steps);
    NoCallbackNoInvocations(AfterCancel(d, o), o, steps);
  }

  /**
   * What the resolver invariant buys: the promise whose resolver is
   * installed is settled by OK with `true`, by an allowed Cancel with no
   * value, and stays pending through a disallowed Cancel.
   */
  lemma InstalledResolverSettles(d: Lifecycle, o: bool, p: nat)
    requires WellFormed(d) && d.callback == Some(Resolver(p))
    ensures p < |AfterOk(d, o).promises| && AfterOk(d, o).promises[p] == Resolved(WithTrue)
    ensures p < |AfterCancel(d, o).promises|
    ensures d.allowCancel ==> AfterCancel(d, o).promises[p] == Resolved(WithoutValue)
    ensures !d.allowCancel ==> AfterCancel(d, o).promises[p] == Pending
  {
  }

  /** After OK, a second OK or Cancel invokes nothing and settles no promise. */
  lemma OkIsSingleShot(d: Lifecycle, o: bool)
    ensures var d1 := AfterOk(d, o);
      && AfterOk(d1, o).invocations == d1.invocations
      && AfterCancel(d1, o).invocations == d1.invocations
      && AfterOk(d1, o).promises == d1.promises
      && AfterCancel(d1, o).promises == d1.promises
  {
  }

  /** After Cancel, a second OK or Cancel invokes nothing and settles no promise. */
  lemma CancelIsSingleShot(d: Lifecycle, o: bool)
    ensures var d1 := AfterCancel(d, o);
      && AfterOk(d1, o).invocations == d1.invocations
      && AfterCancel(d1, o).invocations == d1.invocations
      && AfterOk(d1, o).promises == d1.promises
      && AfterCancel(d1, o).promises == d1.promises
  {
  }

  /** If `allowCancel` is false, Cancel hides and fires "cancel" but calls nothing. */
  lemma CancelDisallowedCallsNothing(d: Lifecycle, o: bool)
    requires !d.allowCancel
    ensures var r := AfterCancel(d, o);
      r.visibility == Hidden && r.events == d.events + [CancelEvent]
      && r.invocations == d.invocations && r.promises == d.promises
  {
  }

  /** A settled promise keeps its value through every later operation. */
  lemma SettledPromisesStay(d: Lifecycle, o: bool, p: nat)
    requires p < |d.promises| && d.promises[p].Resolved?
    ensures p < |AfterOk(d, o).promises| && AfterOk(d, o).promises[p] == d.promises[p]
    ensures p < |AfterCancel(d, o).promises| && AfterCancel(d, o).promises[p] == d.promises[p]
    ensures p < |AfterPromise(d).0.promises| && AfterPromise(d).0.promises[p] == d.promises[p]
  {
    var h := AfterHide(d, o);
    assert h.promises == d.promises;
  }

  /** After `promise()`, OK resolves the returned promise with `true`. */
  lemma PromiseResolvesOnOk(d: Lifecycle, o: bool)
    ensures var (d1, p) := AfterPromise(d);
      p < |AfterOk(d1, o).promises| && AfterOk(d1, o).promises[p] == Resolved(WithTrue)
  {
    var (d1, p) := AfterPromise(d);
    InstalledResolverSettles(d1, o, p);
  }

  /** After `promise()`, Cancel resolves the promise with no value when cancelling is allowed. */
  lemma PromiseResolvesOnAllowedCancel(d: Lifecycle, o: bool)
    requires d.allowCancel
    ensures var (d1, p) := AfterPromise(d);
      p < |AfterCancel(d1, o).promises| && AfterCancel(d1, o).promises[p] == Resolved(WithoutValue)
  {
  }

  /** After `promise()`, Cancel leaves the promise pending when cancelling is not allowed. */
  lemma PromisePendingOnDisallowedCancel(d: Lifecycle, o: bool)
    requires !d.allowCancel
    ensures var (d1, p) := AfterPromise(d);
      var d2 := AfterCancel(d1, o);
      p < |d2.promises| && d2.promises[p] == Pending && d2.callback == None
  {
  }

  /**
   * A second `promise()` before any interaction replaces the first
   * resolver: OK resolves the second promise and the first stays pending,
   * and no later OK or Cancel can settle it.
   */
  lemma SecondPromiseOrphansFirst(d: Lifecycle, o: bool)
    ensures var (d1, p1) := AfterPromise(d);
      var (d2, p2) := AfterPromise(d1);
      var d3 := AfterOk(d2, o);
      && p1 < p2 < |d3.promises|
      && d3.promises[p1] == Pending
      && d3.promises[p2] == Resolved(WithTrue)
      && AfterOk(d3, o).promises == d3.promises
      && AfterCancel(d3, o).promises == d3.promises
  {
  }

  /** `hide()` refocuses exactly the widget that had the focus at the last `show()`. */
  lemma HideRefocusesCapturedWidget(d: Lifecycle, o: bool, rootZIndex: int, windowZIndices: seq<int>,
                                    w: WidgetId)
    ensures var shown := AfterShow(d, o, rootZIndex, windowZIndices, Some(w));
      var hidden := AfterHide(shown, o);
      hidden.visibility == Hidden
      && hidden.focusRequests == d.focusRequests + [Blur(w), Focus(w)]
      && hidden.blockedAt == if Blocking(d, o) then None else d.blockedAt
  {
  }

  /** `hide()` without a prior `show()` makes no focus request and still hides. */
  lemma HideWithoutShow(d: Lifecycle, o: bool)
    requires d.previousFocus == None
    ensures AfterHide(d, o).focusRequests == d.focusRequests
    ensures AfterHide(d, o).visibility == Hidden
  {
  }

  /** Root 0 and windows at 5, 8 and 3: the dialog goes to layer 9 and blocks at 8. */
  lemma ShowBlockingExample(d: Lifecycle)
    requires d.useBlocker
    ensures var r := AfterShow(d, false, 0, [5, 8, 3], None);
      r.zIndex == 9 && r.blockedAt == Some(8)
  {
    assert MaxZIndex(0, [5, 8, 3]) == 8 by {
      assert [5, 8, 3][..2] == [5, 8];
      assert [5, 8][..1] == [5];
      assert [5][..0] == [];
    }
  }

  /**
   * The Escape key cancels even when `allowCancel` is false: the dialog is
   * hidden and "cancel" fires, yet the callback is not called.
   */
  lemma EscapeIgnoresAllowCancel(d: Lifecycle, o: bool)
    requires d.cancelOnEscape && !d.allowCancel
    ensures var r := AfterEscape(d, o, EscapeKeyCode, true, true);
      r.visibility == Hidden && r.events == d.events + [CancelEvent] && r.invocations == d.invocations
  {
  }

  /**
   * A hidden dialog is not seeable, so a key-up leaves it unchanged,
   * although its listener on the root stays registered.
   */
  lemma EscapeIgnoredWhileHidden(d: Lifecycle, o: bool, keyCode: int, hasContentElement: bool, seeable: bool)
    requires d.visibility != Visible && (seeable ==> d.visibility == Visible)
    ensures AfterEscape(d, o, keyCode, hasContentElement, seeable) == d
  {
  }

  /** A dialog with `cancelOnEscape` false ignores every key-up event. */
  lemma EscapeDisabledIgnoresKeys(d: Lifecycle, o: bool, keyCode: int, hasContentElement: bool, seeable: bool)
    requires !d.cancelOnEscape
    ensures AfterEscape(d, o, keyCode, hasContentElement, seeable) == d
  {
  }

  /** A 400x300 dialog in a 1000x800 document gets margin-left 300 and margin-top 250. */
  lemma CenterExample()
    ensures CenterMargin(1000, 400) == 300 && CenterMargin(800, 300) == 250
  {
  }

  /** An odd difference rounds up, as `Math.round` does with halves: 401 gives 201 and -401 gives -200. */
  lemma CenterRoundsHalfUp(d: int)
    requires d % 2 == 1
    ensures 2 * HalfRounded(d) == d + 1
  {
  }
}
