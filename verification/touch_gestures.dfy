/**
 * The interaction state of the light slice-stack viewer and its touch
 * handlers, one event at a time: each handler's state updates are applied
 * before the next event arrives.
 */
module TouchGestures {
  import opened Common

  /**
   * A touch event: the touch points in order and the value of
   * `getTouchDistance` for them, which is 0 with fewer than two touches and
   * otherwise the distance between the first two.
   */
  datatype TouchEvent = TouchEvent(touches: seq<Vec>, distance: real)

  function Sq(r: real): real { r * r }

  /** `distance` is what `getTouchDistance` returns for `touches` (its square root stated by its square). */
  ghost predicate WellFormed(e: TouchEvent) {
    e.distance >= 0.0 &&
    if |e.touches| < 2 then e.distance == 0.0
    else Sq(e.distance) == Sq(e.touches[0].x - e.touches[1].x) + Sq(e.touches[0].y - e.touches[1].y)
  }

  /** `getTouchCenter`: the midpoint of the first two touches, the origin with fewer. */
  function TouchCenter(touches: seq<Vec>): (c: Vec)
    ensures |touches| >= 2 ==>
      c.x - touches[0].x == touches[1].x - c.x && c.y - touches[0].y == touches[1].y - c.y
    ensures |touches| < 2 ==> c == Origin
  {
    if |touches| < 2 then Origin
    else Vec((touches[0].x + touches[1].x) / 2.0, (touches[0].y + touches[1].y) / 2.0)
  }

  /** The fields `currentSlice`, `zoom`, `pan`, `isDragging`, `isZooming`, `dragStart`, `lastPinchDistance`. */
  datatype Gesture = Gesture(
    slice: int,
    zoom: real,
    pan: Vec,
    dragging: bool,
    zooming: bool,
    anchor: Vec,
    lastPinch: real)

  const MinZoom := 0.5
  const MaxZoom := 5.0
  /** Above this zoom a vertical swipe pans instead of changing the slice. */
  const NavigationZoomLimit := 1.1
  /** A one-finger move counts as a vertical swipe only when its vertical travel exceeds this. */
  const SwipeThreshold := 20.0
  /** Vertical travel needed to step one slice (the handler's `sensitivity`). */
  const SliceStepDistance := 100.0
  /** Factor applied to finger travel when panning. */
  const PanDamping := 0.8

  /** The state when the viewer mounts. */
  const Initial := Gesture(0, 1.0, Origin, false, false, Origin, 0.0)

  /** `slice` is a valid index, or 0 for an empty stack. */
  predicate InSliceRange(slice: int, slices: nat) {
    0 <= slice && (slice < slices || slice == 0)
  }

  /** What every reachable state satisfies. */
  ghost predicate Inv(g: Gesture, slices: nat) {
    && InSliceRange(g.slice, slices)
    && MinZoom <= g.zoom <= MaxZoom
    && !(g.dragging && g.zooming)
  }

  lemma InitialInv(slices: nat)
    ensures Inv(Initial, slices)
  {
  }

  /** `handleTouchStart`: one finger arms dragging, two fingers arm pinching. */
  function TouchStart(g: Gesture, e: TouchEvent): (g': Gesture)
    requires WellFormed(e)
    ensures g'.slice == g.slice && g'.zoom == g.zoom && g'.pan == g.pan
    ensures |e.touches| == 1 ==> g'.dragging && !g'.zooming && g'.anchor == e.touches[0] && g'.lastPinch == g.lastPinch
    ensures |e.touches| == 2 ==> g'.zooming && !g'.dragging && g'.anchor == TouchCenter(e.touches) && g'.lastPinch == e.distance
    ensures |e.touches| != 1 && |e.touches| != 2 ==> g' == g
    ensures !(g.dragging && g.zooming) ==> !(g'.dragging && g'.zooming)
  {
    if |e.touches| == 1 then
      g.(anchor := e.touches[0], dragging := true, zooming := false)
    else if |e.touches| == 2 then
      g.(lastPinch := e.distance, anchor := TouchCenter(e.touches), dragging := false, zooming := true)
    else
      g
  }

  /** The condition under which a one-finger move navigates slices rather than panning. */
  predicate IsVerticalSwipe(g: Gesture, e: TouchEvent) {
    && |e.touches| == 1
    && g.dragging
    && g.zoom <= NavigationZoomLimit
    && var dx, dy := e.touches[0].x - g.anchor.x, e.touches[0].y - g.anchor.y;
       Abs(dy) > Abs(dx) && Abs(dy) > SwipeThreshold
  }

  /** A one-finger drag move that pans: zoomed in, or not mostly vertical. */
  predicate IsPanMove(g: Gesture, e: TouchEvent) {
    |e.touches| == 1 && g.dragging && !IsVerticalSwipe(g, e)
  }

  /** A two-finger move while pinching. */
  predicate IsPinchMove(g: Gesture, e: TouchEvent) {
    |e.touches| == 2 && g.zooming
  }

  /** `handleTouchMove`: slice navigation, damped panning or pinch zoom. */
  function TouchMove(g: Gesture, e: TouchEvent, slices: nat): (g': Gesture)
    requires WellFormed(e)
    ensures g'.dragging == g.dragging && g'.zooming == g.zooming
    ensures g.slice - 1 <= g'.slice <= g.slice + 1
    ensures InSliceRange(g.slice, slices) ==> InSliceRange(g'.slice, slices)
    ensures MinZoom <= g.zoom <= MaxZoom ==> MinZoom <= g'.zoom <= MaxZoom
    ensures g'.slice != g.slice ==>
      IsVerticalSwipe(g, e) && g'.anchor == e.touches[0] && g'.pan == g.pan && g'.zoom == g.zoom
    ensures g'.pan != g.pan ==> IsPanMove(g, e)
    ensures g'.zoom != g.zoom ==> IsPinchMove(g, e) && g.lastPinch > 0.0
    ensures !IsVerticalSwipe(g, e) && !IsPanMove(g, e) && !IsPinchMove(g, e) ==> g' == g
  {
    if |e.touches| == 1 && g.dragging then
      var touch := e.touches[0];
      var dx, dy := touch.x - g.anchor.x, touch.y - g.anchor.y;
      if g.zoom <= NavigationZoomLimit && Abs(dy) > Abs(dx) && Abs(dy) > SwipeThreshold then
        if dy > SliceStepDistance && g.slice > 0 then
          g.(slice := g.slice - 1, anchor := touch)
        else if dy < -SliceStepDistance && g.slice < slices - 1 then
          g.(slice := g.slice + 1, anchor := touch)
        else
          g
      else
        g.(pan := Vec(g.pan.x + dx * PanDamping, g.pan.y + dy * PanDamping), anchor := touch)
    else if |e.touches| == 2 && g.zooming then
      var zoomed := if g.lastPinch > 0.0 then Clamp(g.zoom * (e.distance / g.lastPinch), MinZoom, MaxZoom) else g.zoom;
      g.(zoom := zoomed, lastPinch := e.distance)
    else
      g
  }

  /** `handleTouchEnd`: any lifted finger ends both dragging and pinching. */
  function TouchEnd(g: Gesture): (g': Gesture)
    ensures !g'.dragging && !g'.zooming && g'.lastPinch == 0.0
    ensures g'.slice == g.slice && g'.zoom == g.zoom && g'.pan == g.pan && g'.anchor == g.anchor
  {
    g.(dragging := false, zooming := false, lastPinch := 0.0)
  }

  /** `handleDoubleClick`: back to the unzoomed, centred view. */
  function ResetView(g: Gesture): (g': Gesture)
    ensures g'.zoom == 1.0 && g'.pan == Origin
    ensures g'.slice == g.slice && g'.dragging == g.dragging && g'.zooming == g.zooming
    ensures g'.anchor == g.anchor && g'.lastPinch == g.lastPinch
  {
    g.(zoom := 1.0, pan := Origin)
  }

  lemma ResetViewIdempotent(g: Gesture)
    ensures ResetView(ResetView(g)) == ResetView(g)
  {
  }

  /** The slice rule of a vertical swipe, with both neighbours' existence conditions. */
  lemma VerticalSwipeSteps(g: Gesture, e: TouchEvent, slices: nat)
    requires WellFormed(e) && IsVerticalSwipe(g, e)
    ensures var g', dy := TouchMove(g, e, slices), e.touches[0].y - g.anchor.y;
      && (g'.slice == g.slice - 1 <==> dy > SliceStepDistance && g.slice > 0)
      && (g'.slice == g.slice + 1 <==> dy < -SliceStepDistance && g.slice < slices - 1)
      && (g'.slice == g.slice ==> g' == g)
      && (g'.slice != g.slice ==> g' == g.(slice := g'.slice, anchor := e.touches[0]))
  {
  }

  /** Any other one-finger drag move adds the damped travel to the pan and re-anchors. */
  lemma PanMoveDamped(g: Gesture, e: TouchEvent, slices: nat)
    requires WellFormed(e) && IsPanMove(g, e)
    ensures var g' := TouchMove(g, e, slices);
      && g'.pan == Vec(g.pan.x + PanDamping * (e.touches[0].x - g.anchor.x),
                       g.pan.y + PanDamping * (e.touches[0].y - g.anchor.y))
      && g'.anchor == e.touches[0]
      && g'.slice == g.slice && g'.zoom == g.zoom
  {
  }

  /** A pinch move rescales zoom by the distance ratio, clamped, once a previous distance is known. */
  lemma PinchMoveZooms(g: Gesture, e: TouchEvent, slices: nat)
    requires WellFormed(e) && IsPinchMove(g, e)
    ensures var g' := TouchMove(g, e, slices);
      && g'.zoom == (if g.lastPinch > 0.0 then Clamp(g.zoom * (e.distance / g.lastPinch), MinZoom, MaxZoom) else g.zoom)
      && g'.lastPinch == e.distance
      && g'.slice == g.slice && g'.pan == g.pan && g'.anchor == g.anchor
  {
  }

  /** Once a swipe has stepped a slice, repeating the move at the same point changes nothing. */
  lemma SwipeStepsOnce(g: Gesture, e: TouchEvent, slices: nat)
    requires WellFormed(e) && |e.touches| == 1
    requires TouchMove(g, e, slices).slice != g.slice
    ensures var g' := TouchMove(g, e, slices); TouchMove(g', e, slices) == g'
  {
  }

  /** An upward swipe of 150 px at zoom 1 in a stack of five advances from slice 2 to slice 3. */
  lemma UpwardSwipeExample()
    ensures var g := Initial.(slice := 2, dragging := true, anchor := Vec(0.0, 200.0));
      var e := TouchEvent([Vec(0.0, 50.0)], 0.0);
      var g' := TouchMove(g, e, 5);
      g'.slice == 3 && g'.anchor == Vec(0.0, 50.0) && TouchMove(g', e, 5).slice == 3
  {
  }

  /** One-finger moves to the points `moves`, each handled before the next. */
  function Drag(g: Gesture, moves: seq<Vec>, slices: nat): Gesture
    decreases |moves|
  {
    if moves == [] then g else Drag(TouchMove(g, TouchEvent([moves[0]], 0.0), slices), moves[1..], slices)
  }

  /**
   * Zoomed in, every one-finger move pans, and re-anchoring after each makes
   * the pan follow the finger's whole travel since the drag began, damped.
   */
  lemma {:induction false} ZoomedDragFollowsFinger(g: Gesture, moves: seq<Vec>, slices: nat)
    requires g.dragging && g.zoom > NavigationZoomLimit && moves != []
    ensures var g', last := Drag(g, moves, slices), moves[|moves| - 1];
      && g'.anchor == last
      && g'.pan == Vec(g.pan.x + PanDamping * (last.x - g.anchor.x), g.pan.y + PanDamping * (last.y - g.anchor.y))
      && g'.slice == g.slice && g'.zoom == g.zoom
    decreases |moves|
  {
    var g1 := TouchMove(g, TouchEvent([moves[0]], 0.0), slices);
    assert g1 == g.(pan := Vec(g.pan.x + PanDamping * (moves[0].x - g.anchor.x),
                               g.pan.y + PanDamping * (moves[0].y - g.anchor.y)),
                    anchor := moves[0]);
    if |moves| > 1 {
      ZoomedDragFollowsFinger(g1, moves[1..], slices);
    }
  }

  /** One input to the viewer's gesture handlers. */
  datatype Event = Start(e: TouchEvent) | Move(e: TouchEvent) | End | DoubleClick

  ghost predicate EventWellFormed(ev: Event) {
    (ev.Start? || ev.Move?) ==> WellFormed(ev.e)
  }

  function Step(g: Gesture, ev: Event, slices: nat): Gesture
    requires EventWellFormed(ev)
  {
    match ev
    case Start(e) => TouchStart(g, e)
    case Move(e) => TouchMove(g, e, slices)
    case End => TouchEnd(g)
    case DoubleClick => ResetView(g)
  }

  function Run(g: Gesture, evs: seq<Event>, slices: nat): Gesture
    requires forall i :: 0 <= i < |evs| ==> EventWellFormed(evs[i])
    decreases |evs|
  {
    if evs == [] then g else Run(Step(g, evs[0], slices), evs[1..], slices)
  }

  /** After any sequence of touches and double-clicks the slice is in range, zoom in [0.5, 5], modes exclusive. */
  lemma {:induction false} RunKeepsInv(g: Gesture, evs: seq<Event>, slices: nat)
    requires Inv(g, slices)
    requires forall i :: 0 <= i < |evs| ==> EventWellFormed(evs[i])
    ensures Inv(Run(g, evs, slices), slices)
    decreases |evs|
  {
    if evs != [] {
      RunKeepsInv(Step(g, evs[0], slices), evs[1..], slices);
    }
  }

  /** An event of two fingers `d` apart (the second straight to the right of the first). */
  function PinchAt(d: real): (e: TouchEvent)
    requires d >= 0.0
    ensures WellFormed(e) && |e.touches| == 2 && e.distance == d
  {
    TouchEvent([Origin, Vec(d, 0.0)], d)
  }

  /** The moves of a pinch through the finger distances `ds`. */
  function Pinch(g: Gesture, ds: seq<real>, slices: nat): Gesture
    requires forall i :: 0 <= i < |ds| ==> ds[i] >= 0.0
    decreases |ds|
  {
    if ds == [] then g else Pinch(TouchMove(g, PinchAt(ds[0]), slices), ds[1..], slices)
  }

  /** Zoom is `k` times the last finger distance. */
  predicate ZoomTracksDistance(g: Gesture, k: real) {
    g.zoom == k * g.lastPinch
  }

  /** A finger distance at which a zoom of `k` times it needs no clamping. */
  predicate FitsUnclamped(k: real, d: real) {
    MinZoom <= k * d <= MaxZoom
  }

  /**
   * While no clamp intervenes, zoom stays proportional to the finger
   * distance: the pinch scales the zoom by the ratio of the current distance
   * to the distance it started from.
   */
  lemma {:induction false} PinchFollowsFingerRatio(g: Gesture, k: real, ds: seq<real>, slices: nat)
    requires g.zooming && g.lastPinch > 0.0 && ZoomTracksDistance(g, k)
    requires forall i :: 0 <= i < |ds| ==> ds[i] > 0.0 && FitsUnclamped(k, ds[i])
    ensures var g' := Pinch(g, ds, slices);
      && g'.zooming
      && g'.lastPinch == (if ds == [] then g.lastPinch else ds[|ds| - 1])
      && ZoomTracksDistance(g', k)
    decreases |ds|
  {
    if ds != [] {
      var g1 := ProportionalPinchStep(g, k, ds, slices);
      assert forall i :: 0 <= i < |ds[1..]| ==> ds[1..][i] > 0.0 && FitsUnclamped(k, ds[1..][i]) by {
        forall i | 0 <= i < |ds[1..]| ensures ds[1..][i] > 0.0 && FitsUnclamped(k, ds[1..][i]) {
          assert ds[1..][i] == ds[i + 1];
        }
      }
      PinchFollowsFingerRatio(g1, k, ds[1..], slices);
      if ds[1..] != [] {
        assert ds[1..][|ds[1..]| - 1] == ds[|ds| - 1];
      }
    }
  }

  /** The first move of such a pinch keeps zoom at `k` times the finger distance. */
  lemma ProportionalPinchStep(g: Gesture, k: real, ds: seq<real>, slices: nat) returns (g1: Gesture)
    requires g.zooming && g.lastPinch > 0.0 && ZoomTracksDistance(g, k)
    requires ds != [] && forall i :: 0 <= i < |ds| ==> ds[i] > 0.0 && FitsUnclamped(k, ds[i])
    ensures g1.zooming && g1.lastPinch == ds[0] && g1.lastPinch > 0.0 && ZoomTracksDistance(g1, k)
    ensures Pinch(g, ds, slices) == Pinch(g1, ds[1..], slices)
  {
    ProportionalStep(k, g.lastPinch, ds[0]);
    g1 := g.(zoom := k * ds[0], lastPinch := ds[0]);
    assert TouchMove(g, PinchAt(ds[0]), slices) == g1;
  }

  lemma ProportionalStep(k: real, last: real, d: real)
    requires last > 0.0
    ensures (k * last) * (d / last) == k * d
  {
    calc {
      (k * last) * (d / last);
      == k * (last * (d / last));
      == { assert last * (d / last) == d; }
      k * d;
    }
  }
}
