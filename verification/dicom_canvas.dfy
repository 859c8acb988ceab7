/**
 * The desktop canvas controller (`ViewerCanvas`). It is a controlled
 * component: zoom, pan and the window width/center arrive as values on every
 * render and leave through callbacks; a handler's callback is modelled as the
 * new value it reports. Only `isDragging` and `dragStart` are its own state.
 */
module DicomCanvas {
  import opened Common

  datatype Tool = Pan | Zoom | Windowing

  /** The controlled values the parent passes in. */
  datatype Props = Props(zoom: real, pan: Vec, windowWidth: real, windowCenter: real, activeTool: Tool)

  /** What a mouse move reports: nothing, `onPanChange(pan)` or `onWindowingChange(width, center)`. */
  datatype Report = NoReport | PanChange(pan: Vec) | WindowingChange(width: real, center: real)

  /** Window width/center change per pixel of pointer travel. */
  const WindowingSensitivity := 2.0
  const MinWindowWidth := 1.0
  const MinZoom := 0.1
  const MaxZoom := 10.0
  const WheelZoomOut := 0.9
  const WheelZoomIn := 1.1

  /** What a mouse move while dragging reports, for the pointer travel (dx, dy) since the anchor. */
  function DragReport(p: Props, dx: real, dy: real): (r: Report)
    ensures r.NoReport? <==> p.activeTool == Zoom
    ensures r.PanChange? <==> p.activeTool == Pan
    ensures r.PanChange? ==> r.pan.x - p.pan.x == dx && r.pan.y - p.pan.y == dy
    ensures r.WindowingChange? ==>
      && r.width >= MinWindowWidth
      && r.width >= p.windowWidth + WindowingSensitivity * dx
      && (r.width == MinWindowWidth || r.width == p.windowWidth + WindowingSensitivity * dx)
      && r.center - p.windowCenter == WindowingSensitivity * dy
  {
    match p.activeTool
    case Pan => PanChange(Vec(p.pan.x + dx, p.pan.y + dy))
    case Windowing =>
      var newWidth := p.windowWidth + dx * WindowingSensitivity;
      WindowingChange(if MinWindowWidth > newWidth then MinWindowWidth else newWidth,
                      p.windowCenter + dy * WindowingSensitivity)
    case Zoom => NoReport
  }

  /** `handleWheel`: the zoom it reports, if the zoom tool is active or Ctrl is held. */
  function WheelZoom(activeTool: Tool, ctrlKey: bool, deltaY: real, zoom: real): (r: Option<real>)
    ensures r.Some? <==> activeTool == Zoom || ctrlKey
    ensures r.Some? ==> MinZoom <= r.value <= MaxZoom
    ensures r.Some? && MinZoom <= zoom <= MaxZoom ==>
      (deltaY > 0.0 ==> r.value <= zoom) && (deltaY <= 0.0 ==> r.value >= zoom)
    ensures r.Some? ==>
      var step := if deltaY > 0.0 then WheelZoomOut else WheelZoomIn;
      r.value == zoom * step || (r.value == MinZoom && zoom * step < MinZoom) || (r.value == MaxZoom && zoom * step > MaxZoom)
  {
    if activeTool == Zoom || ctrlKey then
      var zoomFactor := if deltaY > 0.0 then WheelZoomOut else WheelZoomIn;
      Some(Clamp(zoom * zoomFactor, MinZoom, MaxZoom))
    else
      None
  }

  /** Two zoom-in ticks from 1.0 reach 1.21 (over the reals, without rounding). */
  lemma TwoWheelTicksExample()
    ensures WheelZoom(Zoom, false, -1.0, 1.0) == Some(1.1)
    ensures WheelZoom(Zoom, false, -1.0, 1.1) == Some(1.21)
  {
  }

  /** The cursor for a tool; the source's `default` case cannot arise, as `Tool` has three values. */
  function CursorName(activeTool: Tool, dragging: bool): (c: string)
    ensures c == "grabbing" <==> activeTool == Pan && dragging
    ensures c == "grab" <==> activeTool == Pan && !dragging
    ensures c == "zoom-in" <==> activeTool == Zoom
    ensures c == "crosshair" <==> activeTool == Windowing
  {
    match activeTool
    case Pan => if dragging then "grabbing" else "grab"
    case Zoom => "zoom-in"
    case Windowing => "crosshair"
  }

  /** The tool a cursor shows: the cursor tells the tools apart. */
  function ToolOfCursor(c: string): Option<Tool> {
    if c == "grab" || c == "grabbing" then Some(Pan)
    else if c == "zoom-in" then Some(Zoom)
    else if c == "crosshair" then Some(Windowing)
    else None
  }

  lemma CursorShowsTool(activeTool: Tool, dragging: bool)
    ensures ToolOfCursor(CursorName(activeTool, dragging)) == Some(activeTool)
  {
  }

  datatype Quality = Low | Medium | High

  function QualityRank(q: Quality): (n: nat)
    ensures 1 <= n
  {
    match q
    case Low => 1
    case Medium => 2
    case High => 3
  }

  datatype Resolution = Resolution(url: string, quality: Quality, size: int)

  /** `generateProgressiveResolutions`: one URL at three qualities, coarsest first. */
  function ProgressiveResolutions(url: string): (rs: seq<Resolution>)
    ensures |rs| == 3
    ensures forall k :: 0 <= k < |rs| ==> rs[k].url == url && rs[k].size == QualityRank(rs[k].quality)
    ensures forall a, b :: 0 <= a < b < |rs| ==> rs[a].size < rs[b].size
    ensures forall q: Quality :: QualityRank(q) <= |rs| && rs[QualityRank(q) - 1].quality == q
  {
    [Resolution(url, Low, 1), Resolution(url, Medium, 2), Resolution(url, High, 3)]
  }

  /** The state of a drag after a mouse-down, and the props the parent applies each report to. */
  datatype Session = Session(props: Props, anchor: Vec)

  /** The parent applying a report: the next render's props. */
  function Apply(p: Props, r: Report): Props {
    match r
    case NoReport => p
    case PanChange(pan) => p.(pan := pan)
    case WindowingChange(w, c) => p.(windowWidth := w, windowCenter := c)
  }

  /** A sequence of drag moves, each report applied by the parent before the next move. */
  function Drag(s: Session, moves: seq<Vec>): Session
    decreases |moves|
  {
    if moves == [] then s
    else
      var m := moves[0];
      var r := DragReport(s.props, m.x - s.anchor.x, m.y - s.anchor.y);
      Drag(Session(Apply(s.props, r), m), moves[1..])
  }

  /** Panning follows the pointer exactly: the pan moves by the pointer's travel since mouse-down. */
  lemma {:induction false} PanDragFollowsPointer(s: Session, moves: seq<Vec>)
    requires s.props.activeTool == Pan && moves != []
    ensures var s' := Drag(s, moves); var last := moves[|moves| - 1];
      && s'.anchor == last
      && s'.props.pan == Vec(s.props.pan.x + (last.x - s.anchor.x), s.props.pan.y + (last.y - s.anchor.y))
    decreases |moves|
  {
    if |moves| > 1 {
      var m := moves[0];
      var s1 := Session(Apply(s.props, DragReport(s.props, m.x - s.anchor.x, m.y - s.anchor.y)), m);
      PanDragFollowsPointer(s1, moves[1..]);
    }
  }

  /** Windowing never drives the width below 1, however the pointer moves. */
  lemma {:induction false} WindowWidthStaysPositive(s: Session, moves: seq<Vec>)
    requires s.props.activeTool == Windowing && s.props.windowWidth >= MinWindowWidth
    ensures Drag(s, moves).props.windowWidth >= MinWindowWidth
    ensures Drag(s, moves).props.activeTool == Windowing
    decreases |moves|
  {
    if moves != [] {
      var m := moves[0];
      var s1 := Session(Apply(s.props, DragReport(s.props, m.x - s.anchor.x, m.y - s.anchor.y)), m);
      WindowWidthStaysPositive(s1, moves[1..]);
    }
  }

  /** Windowing center follows the vertical travel since mouse-down, at twice its size. */
  lemma {:induction false} WindowCenterFollowsPointer(s: Session, moves: seq<Vec>)
    requires s.props.activeTool == Windowing && moves != []
    ensures var s' := Drag(s, moves); var last := moves[|moves| - 1];
      s'.props.windowCenter == s.props.windowCenter + WindowingSensitivity * (last.y - s.anchor.y)
    decreases |moves|
  {
    if |moves| > 1 {
      var m := moves[0];
      var s1 := Session(Apply(s.props, DragReport(s.props, m.x - s.anchor.x, m.y - s.anchor.y)), m);
      WindowCenterFollowsPointer(s1, moves[1..]);
    }
  }

  class ViewerCanvas {
    var isDragging: bool
    var dragStart: Vec

    constructor ()
      ensures !isDragging && dragStart == Origin
    {
      isDragging := false;
      dragStart := Origin;
    }

    /** `handleMouseDown`: start a drag anchored at the pointer's client position (x, y). */
    method OnMouseDown(x: real, y: real)
      modifies this
      ensures isDragging && dragStart == Vec(x, y)
    {
      isDragging := true;
      dragStart := Vec(x, y);
    }

    /** `handleMouseMove`: report the change for the travel since the anchor, then re-anchor. */
    method OnMouseMove(props: Props, x: real, y: real) returns (report: Report)
      modifies this
      ensures !old(isDragging) ==> report == NoReport && isDragging == old(isDragging) && dragStart == old(dragStart)
      ensures old(isDragging) ==>
        && report == DragReport(props, x - old(dragStart).x, y - old(dragStart).y)
        && isDragging && dragStart == Vec(x, y)
    {
      if !isDragging {
        return NoReport;
      }
      var deltaX, deltaY := x - dragStart.x, y - dragStart.y;
      if props.activeTool == Pan {
        report := PanChange(Vec(props.pan.x + deltaX, props.pan.y + deltaY));
      } else if props.activeTool == Windowing {
        var sensitivity := WindowingSensitivity;
        var newWidth := if MinWindowWidth > props.windowWidth + deltaX * sensitivity
          then MinWindowWidth else props.windowWidth + deltaX * sensitivity;
        var newCenter := props.windowCenter + deltaY * sensitivity;
        report := WindowingChange(newWidth, newCenter);
      } else {
        report := NoReport;
      }
      dragStart := Vec(x, y);
    }

    /** `handleMouseUp`, also bound to mouse-leave: end the drag, keep the anchor. */
    method OnMouseUp()
      modifies this
      ensures !isDragging && dragStart == old(dragStart)
    {
      isDragging := false;
    }

    /** `getCursor`: the cursor for the active tool and this canvas's drag state. */
    function Cursor(activeTool: Tool): string
      reads this`isDragging
    {
      CursorName(activeTool, isDragging)
    }
  }
}
