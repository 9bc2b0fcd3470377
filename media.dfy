/**
 * The media element wrapper `qx.bom.media.Abstract`. The native media
 * element is a record of the fields the wrapper reads and writes, and is
 * changed in place. The wrapper keeps its own registry of event listeners,
 * which `setLoop` uses to emulate looping where the element cannot loop.
 */
module Media {
  import opened Wrappers
  import opened Js

  /** Identity of a `MediaStream` object. */
  type StreamId = nat
  /** The identifier `addListener` returns. */
  type ListenerId = nat

  /** The fields of a native media element that the wrapper touches. */
  datatype MediaFields = MediaFields(
    id: string,
    src: string,
    srcObject: Option<StreamId>,
    muted: bool,
    autoplay: bool,
    controls: bool,
    preload: string,
    loop: JsValue)

  /** The native media element. */
  class MediaElement {
    var id: string
    var src: string
    var srcObject: Option<StreamId>
    var muted: bool
    var autoplay: bool
    var controls: bool
    var preload: string
    var loop: JsValue

    constructor (fields: MediaFields)
      ensures Fields() == fields
    {
      id, src, srcObject := fields.id, fields.src, fields.srcObject;
      muted, autoplay, controls := fields.muted, fields.autoplay, fields.controls;
      preload, loop := fields.preload, fields.loop;
    }

    function Fields(): MediaFields
      reads this
    {
      MediaFields(id, src, srcObject, muted, autoplay, controls, preload, loop)
    }
  }

  /** The three preload hints the wrapper accepts. */
  predicate IsPreloadHint(s: string) {
    s == "none" || s == "metadata" || s == "auto"
  }

  /**
   * The value `setPreload` stores: the argument when it equals one of the
   * three hints (JavaScript `==` against a string literal holds for those
   * strings only), otherwise "auto".
   */
  function PreloadValue(preload: JsValue): (r: string)
    ensures IsPreloadHint(r)
    ensures preload.Str? && IsPreloadHint(preload.s) ==> r == preload.s
    ensures !(preload.Str? && IsPreloadHint(preload.s)) ==> r == "auto"
  {
    if preload == Str("none") || preload == Str("metadata") || preload == Str("auto") then preload.s
    else "auto"
  }

  /** Storing the stored hint again changes nothing. */
  lemma PreloadValueIdempotent(preload: JsValue)
    ensures PreloadValue(Str(PreloadValue(preload))) == PreloadValue(preload)
  {
  }

  /** The only listener the wrapper registers on itself: replay the media when it has ended. */
  datatype Listener = ReplayOnEnded

  /** The wrapper's loop emulation: the id of its replay listener and its listener registry. */
  datatype LoopBookkeeping = LoopBookkeeping(
    loopId: Option<ListenerId>,
    listeners: map<ListenerId, Listener>,
    nextId: ListenerId)

  /** Every listener id was handed out before, and a recorded loop id names a registered listener. */
  predicate LoopWellFormed(s: LoopBookkeeping) {
    && (forall k :: k in s.listeners ==> k < s.nextId)
    && (s.loopId.Some? ==> s.loopId.value in s.listeners)
  }

  /**
   * The listener bookkeeping of `setLoop(value)`. Only when the element has
   * no native loop: `true` (strictly) registers a new replay listener and
   * records its id, `false` (strictly) with a recorded id removes that
   * listener and forgets the id. Anything else changes nothing.
   */
  function AfterSetLoop(hasLoop: bool, s: LoopBookkeeping, value: JsValue): (r: LoopBookkeeping)
    requires LoopWellFormed(s)
    ensures LoopWellFormed(r)
    ensures hasLoop ==> r == s
    ensures !hasLoop && value == Bool(true) ==>
      && r.loopId == Some(s.nextId) && s.nextId !in s.listeners
      && r.listeners == s.listeners[s.nextId := ReplayOnEnded]
    ensures !hasLoop && value == Bool(false) && s.loopId.Some? ==>
      r.loopId == None && r.listeners.Keys == s.listeners.Keys - {s.loopId.value}
    ensures value != Bool(true) && (value != Bool(false) || s.loopId == None) ==> r == s
  {
    if hasLoop then s
    else if value == Bool(true) then
      LoopBookkeeping(Some(s.nextId), s.listeners[s.nextId := ReplayOnEnded], s.nextId + 1)
    else if value == Bool(false) && s.loopId.Some? then
      LoopBookkeeping(None, s.listeners - {s.loopId.value}, s.nextId)
    else s
  }

  /** Without native loop, `setLoop(true)` then `setLoop(false)` restores the listener registry. */
  lemma SetLoopRoundTrip(s: LoopBookkeeping)
    requires LoopWellFormed(s) && s.loopId == None
    ensures var on := AfterSetLoop(false, s, Bool(true));
      var off := AfterSetLoop(false, on, Bool(false));
      off.loopId == None && off.listeners == s.listeners
  {
    var on := AfterSetLoop(false, s, Bool(true));
    var off := AfterSetLoop(false, on, Bool(false));
    assert off.listeners == s.listeners[s.nextId := ReplayOnEnded] - {s.nextId};
    assert s.nextId !in s.listeners;
    assert off.listeners.Keys == s.listeners.Keys;
  }

  /**
   * Without native loop, a second `setLoop(true)` registers a second
   * listener and overwrites the recorded id, so `setLoop(false)` removes
   * only the second: the first replay listener stays registered.
   */
  lemma SetLoopTwiceKeepsFirstListener(s: LoopBookkeeping)
    requires LoopWellFormed(s) && s.loopId == None
    ensures var once := AfterSetLoop(false, s, Bool(true));
      var twice := AfterSetLoop(false, once, Bool(true));
      var off := AfterSetLoop(false, twice, Bool(false));
      && off.loopId == None
      && s.nextId in off.listeners && off.listeners[s.nextId] == ReplayOnEnded
      && off.listeners == s.listeners[s.nextId := ReplayOnEnded]
  {
    var once := AfterSetLoop(false, s, Bool(true));
    var twice := AfterSetLoop(false, once, Bool(true));
    var off := AfterSetLoop(false, twice, Bool(false));
    assert twice.loopId == Some(s.nextId + 1);
    assert off.listeners == twice.listeners - {s.nextId + 1};
    assert s.nextId + 1 !in once.listeners;
    assert off.listeners.Keys == once.listeners.Keys;
  }

  /** The wrapper `qx.bom.media.Abstract`; `media` is null once it has been disposed. */
  class Abstract {
    var media: MediaElement?
    var hasLoop: bool
    var loopId: Option<ListenerId>
    var listeners: map<ListenerId, Listener>
    var nextListenerId: ListenerId

    function Loop(): LoopBookkeeping
      reads this
    {
      LoopBookkeeping(loopId, listeners, nextListenerId)
    }

    ghost predicate Valid()
      reads this
    {
      LoopWellFormed(Loop())
    }

    /**
     * Wraps `element`: records whether it loops natively (the truthiness
     * of its `loop` field) and sets its preload hint to "auto".
     */
    constructor (element: MediaElement)
      modifies element
      ensures Valid() && media == element
      ensures hasLoop == Truthy(old(element.loop))
      ensures element.Fields() == old(element.Fields()).(preload := "auto")
      ensures Loop() == LoopBookkeeping(None, map[], 0)
    {
      media := element;
      hasLoop := Truthy(element.loop);
      loopId, listeners, nextListenerId := None, map[], 0;
      new;
      element.preload := "auto";
    }

    /** `getMediaObject()`: the wrapped element, null once the wrapper is disposed. */
    function GetMediaObject(): (m: MediaElement?)
      reads this
      ensures m == media
    {
      media
    }

    function GetId(): string
      reads this, media
      requires media != null
    {
      media.id
    }

    function GetSource(): string
      reads this, media
      requires media != null
    {
      media.src
    }

    function GetSourceObject(): Option<StreamId>
      reads this, media
      requires media != null
    {
      media.srcObject
    }

    function IsMuted(): bool
      reads this, media
      requires media != null
    {
      media.muted
    }

    function GetAutoplay(): bool
      reads this, media
      requires media != null
    {
      media.autoplay
    }

    function HasControls(): bool
      reads this, media
      requires media != null
    {
      media.controls
    }

    function GetPreload(): string
      reads this, media
      requires media != null
    {
      media.preload
    }

    /** `isLoop()`: the truthiness of the element's `loop` field. */
    function IsLoop(): bool
      reads this, media
      requires media != null
    {
      Truthy(media.loop)
    }

    method SetId(id: string)
      requires media != null
      modifies media
      ensures media.Fields() == old(media.Fields()).(id := id)
      ensures GetId() == id
    {
      media.id := id;
    }

    method SetSource(source: string)
      requires media != null
      modifies media
      ensures media.Fields() == old(media.Fields()).(src := source)
      ensures GetSource() == source
    {
      media.src := source;
    }

    method SetSourceObject(sourceObject: Option<StreamId>)
      requires media != null
      modifies media
      ensures media.Fields() == old(media.Fields()).(srcObject := sourceObject)
      ensures GetSourceObject() == sourceObject
    {
      media.srcObject := sourceObject;
    }

    method SetMuted(muted: bool)
      requires media != null
      modifies media
      ensures media.Fields() == old(media.Fields()).(muted := muted)
      ensures IsMuted() == muted
    {
      media.muted := muted;
    }

    method SetAutoplay(autoplay: bool)
      requires media != null
      modifies media
      ensures media.Fields() == old(media.Fields()).(autoplay := autoplay)
      ensures GetAutoplay() == autoplay
    {
      media.autoplay := autoplay;
    }

    method ShowControls()
      requires media != null
      modifies media
      ensures media.Fields() == old(media.Fields()).(controls := true)
      ensures HasControls()
    {
      media.controls := true;
    }

    method HideControls()
      requires media != null
      modifies media
      ensures media.Fields() == old(media.Fields()).(controls := false)
      ensures !HasControls()
    {
      media.controls := false;
    }

    /** `setPreload(preload)`: stores a valid hint as it is and anything else as "auto". */
    method SetPreload(preload: JsValue)
      requires media != null
      modifies media
      ensures media.Fields() == old(media.Fields()).(preload := PreloadValue(preload))
      ensures IsPreloadHint(GetPreload())
    {
      if preload == Str("none") || preload == Str("metadata") || preload == Str("auto") {
        media.preload := preload.s;
      } else {
        media.preload := "auto";
      }
    }

    /**
     * `setLoop(value)`: emulates looping with a replay listener when the
     * element has no native loop, and always stores `value` in the
     * element's `loop` field.
     */
    method SetLoop(value: JsValue)
      requires media != null && Valid()
      modifies this, media
      ensures Valid() && media == old(media) && hasLoop == old(hasLoop)
      ensures Loop() == AfterSetLoop(hasLoop, old(Loop()), value)
      ensures media.Fields() == old(media.Fields()).(loop := value)
      ensures IsLoop() == Truthy(value)
    {
      if !hasLoop {
        if value == Bool(true) {
          loopId := Some(nextListenerId);
          listeners := listeners[nextListenerId := ReplayOnEnded];
          nextListenerId := nextListenerId + 1;
        } else if value == Bool(false) && loopId.Some? {
          listeners := listeners - {loopId.value};
          loopId := None;
        }
      }
      media.loop := value;
    }

    /** The destructor: empties the element's source, then lets go of the element. */
    method Dispose()
      requires media != null
      modifies this, media
      ensures media == null && GetMediaObject() == null
      ensures old(media).Fields() == old(media.Fields()).(src := "")
      ensures hasLoop == old(hasLoop) && Loop() == old(Loop())
    {
      SetSource("");
      media := null;
    }
  }
}
