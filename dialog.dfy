/**
 * The base dialog class `qxl.dialog.Dialog`: a modal window that blocks
 * the screen on request, captures and restores the focus, and delivers
 * the user's answer to a single-shot callback or a promise.
 *
 * The host framework is reduced to what the dialog reads from it: the
 * root's and the open windows' z-indices and the focused widget are
 * arguments of `Show`, the document size and the dialog's measured bounds are
 * arguments of `Recenter`, and whether an event leaves a content element
 * and a seeable dialog are arguments of `HandleEscape`.
 */
module Dialog {
  import opened Wrappers
  import opened DialogSpec

  /** The first character in upper case (`qx.lang.String.firstUp`), for ASCII letters. */
  function FirstUp(s: string): (r: string)
    ensures |r| == |s| && (|s| > 0 ==> r[1..] == s[1..])
    ensures |s| > 0 && 'a' <= s[0] <= 'z' ==> r[0] as int == s[0] as int - 32
    ensures |s| > 0 && !('a' <= s[0] <= 'z') ==> r[0] == s[0]
  {
    if |s| == 0 then s
    else if 'a' <= s[0] <= 'z' then [(s[0] as int - 32) as char] + s[1..]
    else s
  }

  /**
   * `getInstanceByType(type)`: constructs the dialog class named by `type`
   * with its first letter raised. `constructible` holds the class names in
   * the dialog namespace whose construction succeeds; any other name makes
   * the construction throw, and the error is replaced by one that names
   * the type.
   */
  function GetInstanceByType(constructible: set<string>, dialogType: string): (r: Result<string, string>)
    ensures r.Success? <==> FirstUp(dialogType) in constructible
    ensures r.Success? ==> r.value == FirstUp(dialogType)
    ensures r.Failure? ==> |r.error| > |dialogType| && r.error[..|dialogType|] == dialogType
    ensures r.Failure? ==> r.error[|dialogType|..] == " is not a valid dialog type"
  {
    var className := FirstUp(dialogType);
    if className in constructible then Success(className)
    else Failure(dialogType + " is not a valid dialog type")
  }

  /**
   * The loop of `show()`: starts from the root's z-index and raises it to
   * each open window's z-index in turn. The result is the largest of them.
   */
  method TopZIndex(rootZIndex: int, windowZIndices: seq<int>) returns (maxWindowZIndex: int)
    ensures maxWindowZIndex == MaxZIndex(rootZIndex, windowZIndices)
    ensures rootZIndex <= maxWindowZIndex
    ensures forall i :: 0 <= i < |windowZIndices| ==> windowZIndices[i] <= maxWindowZIndex
  {
    maxWindowZIndex := rootZIndex;
    var i := 0;
    while i < |windowZIndices|
      invariant 0 <= i <= |windowZIndices|
      invariant maxWindowZIndex == MaxZIndex(rootZIndex, windowZIndices[..i])
    {
      assert windowZIndices[..i + 1][..i] == windowZIndices[..i];
      maxWindowZIndex := Max(maxWindowZIndex, windowZIndices[i]);
      i := i + 1;
    }
    assert windowZIndices[..i] == windowZIndices;
  }

  /** The class-wide state of the dialog class: the backwards-compatible blocker override. */
  class DialogStatics {
    var useBlocker: bool

    constructor ()
      ensures !useBlocker
    {
      useBlocker := false;
    }

    /** `Dialog.useBlocker(value)`: forces blocking on (or off) for every dialog. */
    method UseBlocker(value: bool)
      modifies this
      ensures useBlocker == value
    {
      useBlocker := value;
    }
  }

  /** The container widget the dialog lays its content out in. */
  class Composite {
    constructor () {}
  }

  /** The settings a dialog can be constructed with; an absent key is `None`. */
  datatype Settings = Settings(
    message: Option<string>,
    image: Option<string>,
    callback: Option<CallbackId>,
    context: Option<ContextId>,
    allowCancel: Option<bool>,
    cancelOnEscape: Option<bool>,
    useBlocker: Option<bool>)

  /** The constructor's argument: nothing, a message string, or a settings map. */
  datatype ConstructorArg = NoArg | MessageText(text: string) | SettingsMap(settings: Settings)

  /** A message string stands for the settings map holding only that message; no argument for the empty map. */
  function SettingsOf(arg: ConstructorArg): Settings {
    match arg
    case NoArg => Settings(None, None, None, None, None, None, None)
    case MessageText(text) => Settings(Some(text), None, None, None, None, None, None)
    case SettingsMap(settings) => settings
  }

  /** The state of the dialog's leaf widgets, its margins and its container. */
  datatype Widgets = Widgets(
    image: Option<string>,
    imageVisibility: Visibility,
    message: Option<string>,
    messageVisibility: Visibility,
    cancelButtonVisibility: Visibility,
    marginTop: int,
    marginLeft: int,
    container: Composite?)

  class Dialog {
    const statics: DialogStatics

    var visibility: Visibility
    var zIndex: int
    var blockedAt: Option<int>
    var previousFocus: Option<WidgetId>
    var callback: Option<Callback>
    var context: Option<ContextId>
    var allowCancel: bool
    var cancelOnEscape: bool
    var useBlocker: bool
    var focusRequests: seq<FocusRequest>
    var events: seq<DialogEvent>
    var invocations: seq<Invocation>
    var promises: seq<PromiseState>

    var image: Option<string>
    var imageVisibility: Visibility
    var message: Option<string>
    var messageVisibility: Visibility
    var cancelButtonVisibility: Visibility
    var marginTop: int
    var marginLeft: int
    var container: Composite?

    /** The lifecycle state, as the functions of DialogSpec see it. */
    function Core(): Lifecycle
      reads this
    {
      Lifecycle(visibility, zIndex, blockedAt, previousFocus, callback, context, allowCancel,
                cancelOnEscape, useBlocker, focusRequests, events, invocations, promises)
    }

    function WidgetState(): Widgets
      reads this
    {
      Widgets(image, imageVisibility, message, messageVisibility, cancelButtonVisibility,
              marginTop, marginLeft, container)
    }

    /** The resolver invariant, and the cancel button bound to `allowCancel`. */
    ghost predicate Valid()
      reads this
    {
      ResolverPending(callback, promises) && cancelButtonVisibility == VisibilityFor(allowCancel)
    }

    /**
     * A new dialog is hidden, allows cancelling, cancels on Escape and does
     * not block, unless the settings say otherwise. A message string or
     * the settings' `message` and `image` go through their apply methods.
     * `zIndex` is the z-index the window manager assigned.
     */
    constructor (statics: DialogStatics, arg: ConstructorArg, zIndex: int)
      ensures Valid() && this.statics == statics
      ensures visibility == Hidden && this.zIndex == zIndex && blockedAt == None && previousFocus == None
      ensures focusRequests == [] && events == [] && invocations == [] && promises == [] && container == null
      ensures var s := SettingsOf(arg);
        && allowCancel == s.allowCancel.GetOr(true)
        && cancelOnEscape == s.cancelOnEscape.GetOr(true)
        && useBlocker == s.useBlocker.GetOr(false)
        && callback == (if s.callback.Some? then Some(UserCallback(s.callback.value)) else None)
        && context == s.context
        && message == s.message && image == s.image
        && (s.message.Some? ==> messageVisibility == VisibilityFor(StringTruthy(s.message)))
        && (s.image.Some? ==> imageVisibility == VisibilityFor(StringTruthy(s.image)))
        && (s.message.None? ==> messageVisibility == Visible)
        && (s.image.None? ==> imageVisibility == Visible)
      ensures arg.MessageText? ==> message == Some(arg.text) && messageVisibility == VisibilityFor(arg.text != "")
    {
      var settings := SettingsOf(arg);
      this.statics := statics;
      visibility, this.zIndex, blockedAt, previousFocus := Hidden, zIndex, None, None;
      focusRequests, events, invocations, promises := [], [], [], [];
      marginTop, marginLeft, container := 0, 0, null;
      // The apply methods run only for the keys present; an absent key keeps the widget's default visibility.
      message := settings.message;
      messageVisibility := if settings.message.Some? then VisibilityFor(StringTruthy(settings.message)) else Visible;
      image := settings.image;
      imageVisibility := if settings.image.Some? then VisibilityFor(StringTruthy(settings.image)) else Visible;
      callback := if settings.callback.Some? then Some(UserCallback(settings.callback.value)) else None;
      context := settings.context;
      allowCancel := settings.allowCancel.GetOr(true);
      cancelOnEscape := settings.cancelOnEscape.GetOr(true);
      useBlocker := settings.useBlocker.GetOr(false);
      new;
      cancelButtonVisibility := VisibilityFor(allowCancel);
    }

    /**
     * The blocking half of `show()`: lifts the dialog one layer above the
     * root and every open window and blocks the content up to the topmost
     * of them.
     */
    method Raise(rootZIndex: int, windowZIndices: seq<int>)
      modifies this
      ensures Core() == old(Core()).(zIndex := MaxZIndex(rootZIndex, windowZIndices) + 1,
                                     blockedAt := Some(MaxZIndex(rootZIndex, windowZIndices)))
      ensures WidgetState() == old(WidgetState())
    {
      var maxWindowZIndex := TopZIndex(rootZIndex, windowZIndices);
      zIndex, blockedAt := maxWindowZIndex + 1, Some(maxWindowZIndex);
    }

    /**
     * `show()`: when blocking is on, raises the dialog and blocks what lies
     * below it; then shows the dialog and blurs the focused widget, whose
     * identity it keeps for `hide`. Returns the dialog itself.
     */
    method Show(rootZIndex: int, windowZIndices: seq<int>, activeWidget: Option<WidgetId>) returns (self: Dialog)
      requires Valid()
      modifies this
      ensures Valid() && self == this
      ensures Core() == AfterShow(old(Core()), statics.useBlocker, rootZIndex, windowZIndices, activeWidget)
      ensures WidgetState() == old(WidgetState())
    {
      AfterShowFields(Core(), statics.useBlocker, rootZIndex, windowZIndices, activeWidget);
      if useBlocker || statics.useBlocker {
        Raise(rootZIndex, windowZIndices);
      }
      visibility, previousFocus := Visible, activeWidget;
      focusRequests := focusRequests + BlurRequests(activeWidget);
      self := this;
    }

    /**
     * `hide()`: releases the blocker when blocking is on, asks the widget
     * captured by the last `show` to take the focus back, and hides the
     * dialog. Returns the dialog itself.
     */
    method Hide() returns (self: Dialog)
      requires Valid()
      modifies this
      ensures Valid() && self == this
      ensures Core() == AfterHide(old(Core()), statics.useBlocker)
      ensures WidgetState() == old(WidgetState())
    {
      var released := if useBlocker || statics.useBlocker then None else blockedAt;
      blockedAt, focusRequests, visibility := released, focusRequests + FocusRequests(previousFocus), Hidden;
      self := this;
    }

    /**
     * Calls the installed callback; a promise resolver clears the callback
     * before it resolves. The resolver invariant guarantees that the
     * resolver's promise is then settled with `arg`.
     */
    method InvokeCallback(arg: CallbackArg)
      requires Valid() && callback.Some?
      modifies this
      ensures Valid()
      ensures Core() == Invoke(old(Core()), arg)
      ensures WidgetState() == old(WidgetState())
      ensures old(callback).value.Resolver? ==>
        old(callback).value.promise < |promises| && promises[old(callback).value.promise] == Resolved(arg)
    {
      invocations := invocations + [Invocation(callback.value, context, arg)];
      match callback.value
      case UserCallback(_) =>
      case Resolver(p) =>
        callback := None;
        promises := Resolve(promises, p, arg);
    }

    /**
     * `promise()`: installs a resolver for a new pending promise as the
     * callback, replacing any callback set before, and returns the promise.
     */
    method Promise() returns (p: nat)
      requires Valid()
      modifies this
      ensures Valid()
      ensures (Core(), p) == AfterPromise(old(Core()))
      ensures WidgetState() == old(WidgetState())
    {
      p := |promises|;
      promises := promises + [Pending];
      callback := Some(Resolver(p));
    }

    /** `_handleOk()`: the OK button's handler. */
    method HandleOk()
      requires Valid()
      modifies this
      ensures Valid()
      ensures Core() == AfterOk(old(Core()), statics.useBlocker)
      ensures WidgetState() == old(WidgetState())
    {
      var _ := Hide();
      events := events + [OkEvent];
      if callback.Some? {
        InvokeCallback(WithTrue);
      }
      callback := None;
    }

    /** `_handleCancel()`: the Cancel button's handler. */
    method HandleCancel()
      requires Valid()
      modifies this
      ensures Valid()
      ensures Core() == AfterCancel(old(Core()), statics.useBlocker)
      ensures WidgetState() == old(WidgetState())
    {
      var _ := Hide();
      events := events + [CancelEvent];
      if allowCancel && callback.Some? {
        InvokeCallback(WithoutValue);
      }
      callback := None;
    }

    /**
     * `_handleEscape(e)`: the root's key-up listener. `seeable` is the
     * dialog's `isSeeable()`, which only a visible dialog can be.
     */
    method HandleEscape(keyCode: int, hasContentElement: bool, seeable: bool)
      requires Valid() && (seeable ==> visibility == Visible)
      modifies this
      ensures Valid()
      ensures Core() == AfterEscape(old(Core()), statics.useBlocker, keyCode, hasContentElement, seeable)
      ensures WidgetState() == old(WidgetState())
    {
      if cancelOnEscape && keyCode == EscapeKeyCode && hasContentElement && seeable {
        HandleCancel();
      }
    }

    /** `setCallback(value)`: installs an application callback, or clears it with `None`. */
    method SetCallback(value: Option<CallbackId>)
      requires Valid()
      modifies this
      ensures Valid()
      ensures Core() == old(Core()).(callback := if value.Some? then Some(UserCallback(value.value)) else None)
      ensures WidgetState() == old(WidgetState())
    {
      callback := if value.Some? then Some(UserCallback(value.value)) else None;
    }

    /** `setAllowCancel(value)`; the binding shows the cancel button exactly when cancelling is allowed. */
    method SetAllowCancel(value: bool)
      requires Valid()
      modifies this
      ensures Valid()
      ensures Core() == old(Core()).(allowCancel := value)
      ensures cancelButtonVisibility == (if value then Visible else Excluded)
      ensures WidgetState() == old(WidgetState()).(cancelButtonVisibility := cancelButtonVisibility)
    {
      allowCancel := value;
      cancelButtonVisibility := VisibilityFor(value);
    }

    /** `setCancelOnEscape(value)`. */
    method SetCancelOnEscape(value: bool)
      requires Valid()
      modifies this
      ensures Valid()
      ensures Core() == old(Core()).(cancelOnEscape := value)
      ensures WidgetState() == old(WidgetState())
    {
      cancelOnEscape := value;
    }

    /** `setUseBlocker(value)`. */
    method SetUseBlocker(value: bool)
      requires Valid()
      modifies this
      ensures Valid()
      ensures Core() == old(Core()).(useBlocker := value)
      ensures WidgetState() == old(WidgetState())
    {
      useBlocker := value;
    }

    /** `_applyImage(value)`: the image widget shows `value`, and is visible exactly when it is truthy. */
    method SetImage(value: Option<string>)
      modifies this
      ensures image == value
      ensures imageVisibility == (if StringTruthy(value) then Visible else Excluded)
      ensures Core() == old(Core())
      ensures WidgetState() == old(WidgetState()).(image := image, imageVisibility := imageVisibility)
    {
      image := value;
      imageVisibility := VisibilityFor(StringTruthy(value));
    }

    /** `_applyMessage(value)`: the label shows `value`, and is visible exactly when it is truthy. */
    method SetMessage(value: Option<string>)
      modifies this
      ensures message == value
      ensures messageVisibility == (if StringTruthy(value) then Visible else Excluded)
      ensures Core() == old(Core())
      ensures WidgetState() == old(WidgetState()).(message := message, messageVisibility := messageVisibility)
    {
      message := value;
      messageVisibility := VisibilityFor(StringTruthy(value));
    }

    /**
     * `getDialogContainer()`: creates the container on the first call and
     * returns the same one on every later call.
     */
    method GetDialogContainer() returns (c: Composite)
      modifies this
      ensures old(container) != null ==> c == old(container)
      ensures old(container) == null ==> fresh(c)
      ensures container == c
      ensures Core() == old(Core())
      ensures WidgetState() == old(WidgetState()).(container := c)
    {
      if container == null {
        container := new Composite();
      }
      c := container;
    }

    /**
     * The "resize" and "appear" listeners: center the dialog by setting its
     * margins from the document size and its own measured bounds.
     */
    method Recenter(documentWidth: int, documentHeight: int, width: int, height: int)
      modifies this
      ensures 2 * marginLeft - 1 <= documentWidth - width <= 2 * marginLeft
      ensures 2 * marginTop - 1 <= documentHeight - height <= 2 * marginTop
      ensures marginLeft == CenterMargin(documentWidth, width) && marginTop == CenterMargin(documentHeight, height)
      ensures Core() == old(Core())
      ensures WidgetState() == old(WidgetState()).(marginTop := marginTop, marginLeft := marginLeft)
    {
      marginTop := CenterMargin(documentHeight, height);
      marginLeft := CenterMargin(documentWidth, width);
    }
  }

  /** `getInstanceByType("nope")` with no such class throws "nope is not a valid dialog type". */
  lemma GetInstanceByTypeUnknown()
    ensures GetInstanceByType({"Alert", "Confirm"}, "nope") == Failure("nope is not a valid dialog type")
  {
    assert FirstUp("nope") == "Nope";
    assert "Nope" != "Alert" && "Nope" != "Confirm" by {
      assert "Nope"[0] != "Alert"[0] && "Nope"[0] != "Confirm"[0];
    }
    assert "nope" + " is not a valid dialog type" == "nope is not a valid dialog type";
  }

  /** A lower-case type names its class: "alert" constructs `Alert`. */
  lemma GetInstanceByTypeKnown()
    ensures GetInstanceByType({"Alert", "Confirm"}, "alert") == Success("Alert")
  {
    assert FirstUp("alert") == "Alert";
  }
}
