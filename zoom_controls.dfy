/**
 * The zoom controls of the viewport: a vertical slider over a list of image
 * scales (reversed so that moving the handle up zooms in), zoom-in/zoom-out
 * buttons guarded against leaving the list or the configured scale bounds,
 * a mouse-wheel handler debounced by a scroll lock, and the pinch listeners
 * that turn a pinch gesture into a clamped CSS scale about an anchor point.
 */
module Zoom {
  import opened Basics

  /** The document events `_setImageScale` triggers, in the order it triggers them. */
  datatype ZoomEvent =
    | ImageScaleChanged(scale: real)
    | ReplotCelestialObjects
    | ReplotEventMarkers
    | EarthScale
    | UpdateExternalDatasourceIntegration

  /** The events announcing that the image scale is now `scale`. */
  function ScaleChangeEvents(scale: real): (evs: seq<ZoomEvent>)
    ensures |evs| == 5 && evs[0] == ImageScaleChanged(scale)
    ensures forall k :: 1 <= k < |evs| ==> !evs[k].ImageScaleChanged?
  {
    [ImageScaleChanged(scale), ReplotCelestialObjects, ReplotEventMarkers,
     EarthScale, UpdateExternalDatasourceIntegration]
  }

  // ---------------------------------------------------------------------------
  // The increments list and the slider index
  // ---------------------------------------------------------------------------

  /** The list in the opposite order (what `Array.prototype.reverse` leaves behind). */
  function Reversed(s: seq<real>): (r: seq<real>)
    ensures |r| == |s|
    ensures forall k :: 0 <= k < |s| ==> r[k] == s[|s| - 1 - k]
  {
    if s == [] then [] else [s[|s| - 1]] + Reversed(s[..|s| - 1])
  }

  /**
   * `$.inArray(x, s)`: the first position holding `x`, or -1 when `x` does
   * not occur.
   */
  function InArray(x: real, s: seq<real>): (r: int)
    ensures -1 <= r < |s|
    ensures r == -1 <==> x !in s
    ensures 0 <= r ==> s[r] == x && forall j :: 0 <= j < r ==> s[j] != x
  {
    if s == [] then -1
    else if s[0] == x then 0
    else
      var t := InArray(x, s[1..]);
      if t < 0 then -1 else t + 1
  }

  /**
   * `s[i]` in JavaScript: `undefined` (here None) when `i` is outside the
   * array, including a negative `i`.
   */
  function ElementAt(s: seq<real>, i: int): (r: Option<real>)
    ensures r.Some? <==> 0 <= i < |s|
    ensures r.Some? ==> r.value == s[i]
  {
    if 0 <= i < |s| then Some(s[i]) else None
  }

  /**
   * `_canZoomIn` for slider value `value`: the next entry must exist and be at
   * least `minImageScale` (`undefined >= m` is false in JavaScript).
   */
  predicate ZoomInAllowed(incs: seq<real>, value: int, minImageScale: real)
    ensures ZoomInAllowed(incs, value, minImageScale) <==>
              0 <= value + 1 < |incs| && incs[value + 1] >= minImageScale
  {
    match ElementAt(incs, value + 1)
    case None => false
    case Some(next) => next >= minImageScale
  }

  /** `_canZoomOut`: the previous entry must exist and be at most `maxImageScale`. */
  predicate ZoomOutAllowed(incs: seq<real>, value: int, maxImageScale: real)
    ensures ZoomOutAllowed(incs, value, maxImageScale) <==>
              0 <= value - 1 < |incs| && incs[value - 1] <= maxImageScale
  {
    match ElementAt(incs, value - 1)
    case None => false
    case Some(prev) => prev <= maxImageScale
  }

  /** What a zoom-in or zoom-out button click asks for. */
  datatype ZoomCommand = ZoomIn | ZoomOut

  /** The slider value after one click: one step in the asked direction, or no move when refused. */
  function Step(incs: seq<real>, value: int, minImageScale: real, maxImageScale: real,
                c: ZoomCommand): (r: int)
    ensures r != value ==> 0 <= r < |incs|
    ensures c == ZoomIn ==> r == value || r == value + 1
    ensures c == ZoomOut ==> r == value || r == value - 1
  {
    match c
    case ZoomIn => if ZoomInAllowed(incs, value, minImageScale) then value + 1 else value
    case ZoomOut => if ZoomOutAllowed(incs, value, maxImageScale) then value - 1 else value
  }

  /** A click that is not refused always lands on an existing entry; a click from the first entry never zooms out. */
  lemma StepLandsOnEntry(incs: seq<real>, value: int, minImageScale: real, maxImageScale: real,
                         c: ZoomCommand)
    ensures var r := Step(incs, value, minImageScale, maxImageScale, c);
            r != value ==> 0 <= r < |incs|
    ensures c == ZoomOut && value == 0 ==> Step(incs, value, minImageScale, maxImageScale, c) == 0
    ensures c == ZoomIn ==>
              (Step(incs, value, minImageScale, maxImageScale, c) == value + 1 <==>
               0 <= value + 1 < |incs| && incs[value + 1] >= minImageScale)
    ensures c == ZoomOut ==>
              (Step(incs, value, minImageScale, maxImageScale, c) == value - 1 <==>
               0 <= value - 1 < |incs| && incs[value - 1] <= maxImageScale)
  {
  }

  /** The slider value after a sequence of clicks. */
  function Run(incs: seq<real>, value: int, minImageScale: real, maxImageScale: real,
               cs: seq<ZoomCommand>): int
    decreases |cs|
  {
    if cs == [] then value
    else Run(incs, Step(incs, value, minImageScale, maxImageScale, cs[0]),
             minImageScale, maxImageScale, cs[1..])
  }

  /**
   * Clicks keep the slider value inside the slider's range [0, |incs| - 1]
   * when it starts there; when the initial scale was not in the list (value
   * -1) it never drops below -1.
   */
  lemma {:induction false} RunStaysInRange(incs: seq<real>, value: int, minImageScale: real,
                                           maxImageScale: real, cs: seq<ZoomCommand>)
    requires -1 <= value < |incs|
    ensures var r := Run(incs, value, minImageScale, maxImageScale, cs);
            -1 <= r < |incs| && (0 <= value ==> 0 <= r)
    decreases |cs|
  {
    if cs != [] {
      var next := Step(incs, value, minImageScale, maxImageScale, cs[0]);
      RunStaysInRange(incs, next, minImageScale, maxImageScale, cs[1..]);
    }
  }

  /**
   * Zoom-out undoes a zoom-in: after a successful zoom-in from a valid value,
   * zooming out returns to that value whenever its entry is within
   * `maxImageScale`.
   */
  lemma ZoomOutUndoesZoomIn(incs: seq<real>, value: int, minImageScale: real, maxImageScale: real)
    requires 0 <= value < |incs| && incs[value] <= maxImageScale
    requires ZoomInAllowed(incs, value, minImageScale)
    ensures Step(incs, Step(incs, value, minImageScale, maxImageScale, ZoomIn),
                 minImageScale, maxImageScale, ZoomOut) == value
  {
  }

  // ---------------------------------------------------------------------------
  // Pinch scale and anchor
  // ---------------------------------------------------------------------------

  const MinCssScale: real := 0.25
  const MaxCssScale: real := 2.5

  /** `1 + 3 * |pinch| / screen_size`: how strongly a pinch of this size scales. */
  function ScaleFactor(pinchSize: real, screenSize: real): (f: real)
    requires screenSize > 0.0
    ensures f >= 1.0
    ensures f == 1.0 <==> pinchSize == 0.0
  {
    1.0 + (Abs(pinchSize) / screenSize) * 3.0
  }

  /** The clamp of the pinch listener: the scale is kept within [0.25, 2.5] and left alone inside it. */
  function ClampCssScale(s: real): (r: real)
    ensures MinCssScale <= r <= MaxCssScale
    ensures MinCssScale <= s <= MaxCssScale ==> r == s
    ensures s > MaxCssScale ==> r == MaxCssScale
    ensures s < MinCssScale ==> r == MinCssScale
  {
    if s > MaxCssScale then MaxCssScale else if s < MinCssScale then MinCssScale else s
  }

  /**
   * The CSS scale after a pinch update: a pinch (negative size) divides the
   * reference scale by the factor, a stretch multiplies it; then the clamp.
   */
  function PinchCssScale(referenceScale: real, pinchSize: real, screenSize: real): (r: real)
    requires screenSize > 0.0
    ensures MinCssScale <= r <= MaxCssScale
  {
    var f := ScaleFactor(pinchSize, screenSize);
    ClampCssScale(if pinchSize < 0.0 then referenceScale / f else referenceScale * f)
  }

  /**
   * With the reference scale inside the clamp range, a pinch never enlarges,
   * a stretch never shrinks, and a zero-size update leaves the scale as it was.
   */
  lemma PinchDirection(referenceScale: real, pinchSize: real, screenSize: real)
    requires screenSize > 0.0
    requires MinCssScale <= referenceScale <= MaxCssScale
    ensures pinchSize < 0.0 ==> PinchCssScale(referenceScale, pinchSize, screenSize) <= referenceScale
    ensures pinchSize >= 0.0 ==> PinchCssScale(referenceScale, pinchSize, screenSize) >= referenceScale
    ensures pinchSize == 0.0 ==> PinchCssScale(referenceScale, pinchSize, screenSize) == referenceScale
  {
    var f := ScaleFactor(pinchSize, screenSize);
    if pinchSize < 0.0 {
      var q := referenceScale / f;
      assert q * f == referenceScale;
      assert q > 0.0;
      assert q * f >= q * 1.0;
    } else {
      assert referenceScale * f - referenceScale == referenceScale * (f - 1.0);
      assert referenceScale * (f - 1.0) >= 0.0;
    }
  }

  /** A coordinate in page pixels, as the gesture source and CSS styles give them. */
  datatype PagePoint = PagePoint(left: real, top: real)

  /** `parseInt` of a CSS length such as "12.5px": the integer part, truncated toward zero. */
  function ParseIntPx(v: real): (n: int)
    ensures Abs(v - n as real) < 1.0
    ensures 0.0 <= v ==> 0.0 <= n as real <= v
    ensures v < 0.0 ==> v <= n as real <= 0.0
  {
    if v >= 0.0 then v.Floor else -((-v).Floor)
  }

  /** A style value that `parseInt` reads back exactly. */
  predicate WholePixels(v: real)
  {
    v == v.Floor as real
  }

  /**
   * `_getMovingContainerAnchor`: the touch centre relative to the moving
   * container, from the parsed `left`/`top` styles of the sandbox and of the
   * container. As written, the vertical coordinate also starts from
   * `center.left`.
   */
  function MovingContainerAnchor(center: PagePoint, sandbox: PagePoint, container: PagePoint)
    : (a: PagePoint)
    ensures Abs(a.left - (center.left - sandbox.left - container.left)) < 2.0
    ensures Abs(a.top - (center.left - sandbox.top - container.top)) < 2.0
  {
    PagePoint(center.left - ParseIntPx(sandbox.left) as real - ParseIntPx(container.left) as real,
              center.left - ParseIntPx(sandbox.top) as real - ParseIntPx(container.top) as real)
  }

  /** With whole-pixel styles the anchor is exactly the touch point in container coordinates (top measured from `center.left`). */
  lemma AnchorOfWholePixels(center: PagePoint, sandbox: PagePoint, container: PagePoint)
    requires WholePixels(sandbox.left) && WholePixels(sandbox.top)
    requires WholePixels(container.left) && WholePixels(container.top)
    ensures var a := MovingContainerAnchor(center, sandbox, container);
            a.left + sandbox.left + container.left == center.left &&
            a.top + sandbox.top + container.top == center.left
  {
    ParseWholePixels(sandbox.left);
    ParseWholePixels(sandbox.top);
    ParseWholePixels(container.left);
    ParseWholePixels(container.top);
  }

  /** `parseInt` gives back a whole-pixel value unchanged. */
  lemma ParseWholePixels(v: real)
    requires WholePixels(v)
    ensures ParseIntPx(v) as real == v
  {
    var n := v.Floor;
    if v < 0.0 {
      assert -v == (-n) as real;
      assert (-v).Floor == -n;
    }
  }

  /** As written, the anchor does not depend on the touch centre's `top` at all. */
  lemma AnchorIgnoresCenterTop(c1: PagePoint, c2: PagePoint, sandbox: PagePoint, container: PagePoint)
    requires c1.left == c2.left
    ensures MovingContainerAnchor(c1, sandbox, container) == MovingContainerAnchor(c2, sandbox, container)
  {
  }

  // ---------------------------------------------------------------------------
  // The controller
  // ---------------------------------------------------------------------------

  class ZoomControls {
    /** The caller's increments array, reversed in place by the constructor. */
    const increments: array<real>
    const imageScale: real
    const minImageScale: real
    const maxImageScale: real
    /** `Math.hypot(screen.width, screen.height)`, read once when the pinch listeners are installed. */
    const screenSize: real

    /** The slider's value: an index into `increments`. */
    var sliderValue: int
    /** Document events triggered so far, oldest first. */
    var events: seq<ZoomEvent>
    /** The global mouse-wheel lock. */
    var scrollLock: bool
    /** The pinch listeners' closure variables `current_scale` and `reference_scale`. */
    var currentScale: real
    var referenceScale: real
    /** The moving container's `transform: scale(..)` and `transform-origin`, once a pinch has set them. */
    var cssScale: Option<real>
    var transformOrigin: Option<PagePoint>

    ghost predicate Valid()
      reads this
    {
      && screenSize > 0.0
      && MinCssScale <= currentScale <= MaxCssScale
      && MinCssScale <= referenceScale <= MaxCssScale
    }

    /**
     * `init` with `_initSlider` and `_enablePinchZoom`: the increments are
     * reversed in place, and the slider starts at the position of
     * `imageScale` in the reversed list (-1 when it is absent).
     */
    constructor (incs: array<real>, imageScale: real, minImageScale: real, maxImageScale: real,
                 screenSize: real)
      requires screenSize > 0.0
      modifies incs
      ensures Valid()
      ensures increments == incs && this.imageScale == imageScale
      ensures this.minImageScale == minImageScale && this.maxImageScale == maxImageScale
      ensures this.screenSize == screenSize
      ensures incs[..] == Reversed(old(incs[..]))
      ensures sliderValue == InArray(imageScale, incs[..])
      ensures 0 <= sliderValue ==> old(incs[..])[incs.Length - 1 - sliderValue] == imageScale
      ensures events == [] && !scrollLock
      ensures currentScale == 1.0 && referenceScale == 1.0
      ensures cssScale == None && transformOrigin == None
    {
      increments := incs;
      this.imageScale := imageScale;
      this.minImageScale := minImageScale;
      this.maxImageScale := maxImageScale;
      this.screenSize := screenSize;
      var original := incs[..];
      forall i | 0 <= i < incs.Length {
        incs[i] := original[incs.Length - 1 - i];
      }
      forall k | 0 <= k < incs.Length ensures incs[..][k] == Reversed(original)[k] {
      }
      assert incs[..] == Reversed(original);
      sliderValue := InArray(imageScale, incs[..]);
      events := [];
      scrollLock := false;
      currentScale := 1.0;
      referenceScale := 1.0;
      cssScale := None;
      transformOrigin := None;
    }

    /** `_canZoomIn`: the entry above the handle exists and is not below `minImageScale`. */
    predicate CanZoomIn()
      reads this, increments
      ensures CanZoomIn() <==>
                0 <= sliderValue + 1 < increments.Length && increments[sliderValue + 1] >= minImageScale
    {
      ZoomInAllowed(increments[..], sliderValue, minImageScale)
    }

    /** `_canZoomOut`: the entry below the handle exists and is not above `maxImageScale`. */
    predicate CanZoomOut()
      reads this, increments
      ensures CanZoomOut() <==>
                0 <= sliderValue - 1 < increments.Length && increments[sliderValue - 1] <= maxImageScale
    {
      ZoomOutAllowed(increments[..], sliderValue, maxImageScale)
    }

    /** `_setImageScale(v)`: announces `increments[v]` as the new image scale. */
    method SetImageScale(v: int)
      requires 0 <= v < increments.Length
      modifies this`events
      ensures events == old(events) + ScaleChangeEvents(increments[v])
    {
      events := events + ScaleChangeEvents(increments[v]);
    }

    /** `_onSlide`: the handle was dragged to `v`; the slider then holds `v`. */
    method OnSlide(v: int)
      requires 0 <= v < increments.Length
      modifies this`events, this`sliderValue
      ensures events == old(events) + ScaleChangeEvents(increments[v])
      ensures sliderValue == v
    {
      SetImageScale(v);
      sliderValue := v;
    }

    /** `_onZoomInBtnClick`: one step up the slider when allowed, announcing the new scale. */
    method OnZoomInBtnClick()
      modifies this`sliderValue, this`events
      ensures sliderValue == Step(increments[..], old(sliderValue), minImageScale, maxImageScale, ZoomIn)
      ensures old(CanZoomIn()) ==> events == old(events) + ScaleChangeEvents(increments[sliderValue])
      ensures !old(CanZoomIn()) ==> events == old(events)
    {
      var index := sliderValue + 1;
      if CanZoomIn() {
        sliderValue := index;
        SetImageScale(index);
      }
    }

    /** `_onZoomOutBtnClick`: one step down the slider when allowed, announcing the new scale. */
    method OnZoomOutBtnClick()
      modifies this`sliderValue, this`events
      ensures sliderValue == Step(increments[..], old(sliderValue), minImageScale, maxImageScale, ZoomOut)
      ensures old(CanZoomOut()) ==> events == old(events) + ScaleChangeEvents(increments[sliderValue])
      ensures !old(CanZoomOut()) ==> events == old(events)
    {
      var index := sliderValue - 1;
      if CanZoomOut() {
        sliderValue := index;
        SetImageScale(index);
      }
    }

    /**
     * `_onMouseWheelMove`: ignored while the scroll lock is held; otherwise
     * takes the lock and clicks zoom-in for a positive delta, zoom-out for
     * any other. Always answers false (stop the browser's own scrolling).
     */
    method OnMouseWheelMove(delta: real) returns (propagate: bool)
      modifies this`scrollLock, this`sliderValue, this`events
      ensures !propagate
      ensures old(scrollLock) ==> scrollLock && sliderValue == old(sliderValue) && events == old(events)
      ensures !old(scrollLock) ==> scrollLock
      ensures !old(scrollLock) ==>
                sliderValue == Step(increments[..], old(sliderValue), minImageScale, maxImageScale,
                                    if delta > 0.0 then ZoomIn else ZoomOut)
      ensures !old(scrollLock) && sliderValue != old(sliderValue) ==>
                events == old(events) + ScaleChangeEvents(increments[sliderValue])
      ensures !old(scrollLock) && sliderValue == old(sliderValue) ==> events == old(events)
    {
      if scrollLock {
        return false;
      }
      scrollLock := true;
      if delta > 0.0 {
        OnZoomInBtnClick();
      } else {
        OnZoomOutBtnClick();
      }
      return false;
    }

    /** The timeout that releases the scroll lock 500 ms after a wheel event. */
    method ReleaseScrollLock()
      modifies this`scrollLock
      ensures !scrollLock
    {
      scrollLock := false;
    }

    /** Pinch start: the scale at which the gesture begins becomes the reference. */
    method OnPinchStart()
      requires Valid()
      modifies this`referenceScale
      ensures Valid()
      ensures referenceScale == currentScale
    {
      referenceScale := currentScale;
    }

    /**
     * Pinch update: the clamped scale becomes the current scale and the
     * container's CSS scale, about the anchor under the touch centre.
     * `sandboxStyle` and `containerStyle` are the elements' `left`/`top` styles.
     */
    method OnPinchUpdate(pinchSize: real, center: PagePoint, sandboxStyle: PagePoint,
                         containerStyle: PagePoint)
      requires Valid()
      modifies this`currentScale, this`cssScale, this`transformOrigin
      ensures Valid()
      ensures currentScale == PinchCssScale(referenceScale, pinchSize, screenSize)
      ensures cssScale == Some(currentScale)
      ensures transformOrigin == Some(MovingContainerAnchor(center, sandboxStyle, containerStyle))
    {
      var css := PinchCssScale(referenceScale, pinchSize, screenSize);
      var anchor := MovingContainerAnchor(center, sandboxStyle, containerStyle);
      currentScale := css;
      cssScale := Some(css);
      transformOrigin := Some(anchor);
    }
  }
}
