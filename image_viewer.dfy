/** The full-screen product picture viewer with wheel/button zoom and
    mouse/touch panning (the ImageModal component of script.js).

    The viewer keeps four pieces of state besides whether it is open: the
    zoom `scale`, the pan offset `position`, the `isDragging` flag and the
    drag anchor `dragStart` (pointer position minus the offset at the moment
    the drag began). Scales and coordinates are exact reals. */
module ImageViewer {

  datatype Point = Point(x: real, y: real) {
    function Plus(o: Point): Point { Point(x + o.x, y + o.y) }
    function Minus(o: Point): Point { Point(x - o.x, y - o.y) }
  }

  const Origin := Point(0.0, 0.0)

  /** The lower bound of every zoom path and the scale after a reset. */
  const MinScale: real := 1.0
  /** The upper bound of wheel zoom. */
  const WheelMaxScale: real := 4.0
  /** The upper bound of the zoom-in button. */
  const ButtonMaxScale: real := 3.0
  const WheelStep: real := 0.1
  const ZoomInStep: real := 0.2
  const ZoomOutStep: real := 0.3
  /** The scale the component is mounted with, and the one double-click tests for. */
  const PeekScale: real := 1.5

  function Min(a: real, b: real): real { if a <= b then a else b }
  function Max(a: real, b: real): real { if a >= b then a else b }

  /** Scale change of one wheel tick: scrolling down (positive deltaY) zooms
      out, any other tick (including deltaY = 0) zooms in. */
  function WheelDelta(deltaY: real): (d: real)
    ensures d == WheelStep || d == -WheelStep
    ensures d < 0.0 <==> deltaY > 0.0
  {
    if deltaY > 0.0 then -WheelStep else WheelStep
  }

  /** The scale after one wheel tick. */
  function WheelScale(s: real, deltaY: real): (r: real)
    ensures MinScale <= r <= WheelMaxScale
    ensures MinScale <= s <= WheelMaxScale ==>
              (deltaY > 0.0 ==> s - WheelStep <= r <= s) &&
              (deltaY <= 0.0 ==> s <= r <= s + WheelStep)
    ensures MinScale <= s + WheelDelta(deltaY) <= WheelMaxScale ==> r == s + WheelDelta(deltaY)
    ensures s + WheelDelta(deltaY) >= WheelMaxScale ==> r == WheelMaxScale
    ensures s + WheelDelta(deltaY) <= MinScale ==> r == MinScale
  {
    Max(MinScale, Min(WheelMaxScale, s + WheelDelta(deltaY)))
  }

  /** The scale after the zoom-in button. */
  function ZoomInScale(s: real): (r: real)
    ensures r <= ButtonMaxScale && r <= s + ZoomInStep
    ensures MinScale <= s ==> MinScale <= r
    ensures s + ZoomInStep <= ButtonMaxScale ==> r == s + ZoomInStep
    ensures s + ZoomInStep >= ButtonMaxScale ==> r == ButtonMaxScale
    ensures s > ButtonMaxScale ==> r < s
  {
    Min(ButtonMaxScale, s + ZoomInStep)
  }

  /** The scale after the zoom-out button. */
  function ZoomOutScale(s: real): (r: real)
    ensures MinScale <= r && s - ZoomOutStep <= r
    ensures MinScale <= s ==> r <= s
    ensures MinScale <= s - ZoomOutStep ==> r == s - ZoomOutStep
    ensures s - ZoomOutStep <= MinScale ==> r == MinScale
  {
    Max(MinScale, s - ZoomOutStep)
  }

  /** The viewer's state; `isOpen` is the `isOpen` property its host passes in. */
  datatype Viewer = Viewer(isOpen: bool, scale: real, position: Point, isDragging: bool, dragStart: Point)

  /** The state right after mounting: closed, at the peek scale, not panned. */
  const Mounted := Viewer(false, PeekScale, Origin, false, Origin)

  /** A wheel event. The listener is only installed while the viewer is open. */
  function OnWheel(v: Viewer, deltaY: real): (r: Viewer)
    ensures r == v.(scale := r.scale)
    ensures !v.isOpen ==> r == v
    ensures v.isOpen ==> r.scale == WheelScale(v.scale, deltaY)
  {
    if !v.isOpen then v
    else Viewer(v.isOpen, Max(MinScale, Min(WheelMaxScale, v.scale + WheelDelta(deltaY))),
                v.position, v.isDragging, v.dragStart)
  }

  /** Mouse-down on the picture at pointer `p`: starts a drag when zoomed in. */
  function OnMouseDown(v: Viewer, p: Point): (r: Viewer)
    ensures r.isOpen == v.isOpen && r.scale == v.scale && r.position == v.position
    ensures v.scale <= MinScale ==> r == v
    ensures v.scale > MinScale ==> r.isDragging && p.Minus(r.dragStart) == v.position
  {
    if v.scale > MinScale then
      Viewer(v.isOpen, v.scale, v.position, true, Point(p.x - v.position.x, p.y - v.position.y))
    else v
  }

  /** Mouse-move at pointer `p`: while dragging a zoomed picture, the offset
      becomes the pointer minus the anchor. */
  function OnMouseMove(v: Viewer, p: Point): (r: Viewer)
    ensures r == v.(position := r.position)
    ensures !(v.isDragging && v.scale > MinScale) ==> r == v
    ensures v.isDragging && v.scale > MinScale ==> r.position.Plus(v.dragStart) == p
  {
    if v.isDragging && v.scale > MinScale then
      Viewer(v.isOpen, v.scale, Point(p.x - v.dragStart.x, p.y - v.dragStart.y), v.isDragging, v.dragStart)
    else v
  }

  /** Mouse-up ends any drag and changes nothing else. */
  function OnMouseUp(v: Viewer): (r: Viewer)
    ensures !r.isDragging && r == v.(isDragging := false)
  {
    Viewer(v.isOpen, v.scale, v.position, false, v.dragStart)
  }

  /** Touch-start with the list of current touches. */
  function OnTouchStart(v: Viewer, touches: seq<Point>): (r: Viewer)
    ensures |touches| == 1 ==> r == OnMouseDown(v, touches[0])
    ensures |touches| != 1 ==> r == v
  {
    if |touches| == 1 && v.scale > MinScale then
      Viewer(v.isOpen, v.scale, v.position, true,
             Point(touches[0].x - v.position.x, touches[0].y - v.position.y))
    else v
  }

  /** Touch-move with the list of current touches. */
  function OnTouchMove(v: Viewer, touches: seq<Point>): (r: Viewer)
    ensures |touches| == 1 ==> r == OnMouseMove(v, touches[0])
    ensures |touches| != 1 ==> r == v
  {
    if |touches| == 1 && v.isDragging && v.scale > MinScale then
      Viewer(v.isOpen, v.scale, Point(touches[0].x - v.dragStart.x, touches[0].y - v.dragStart.y),
             v.isDragging, v.dragStart)
    else v
  }

  /** Touch-end behaves exactly as mouse-up. */
  function OnTouchEnd(v: Viewer): (r: Viewer)
    ensures r == OnMouseUp(v)
  {
    v.(isDragging := false)
  }

  /** The zoom-in button. */
  function ZoomIn(v: Viewer): (r: Viewer)
    ensures r == v.(scale := r.scale)
    ensures r.scale == ZoomInScale(v.scale)
    ensures MinScale <= v.scale ==> MinScale <= r.scale <= ButtonMaxScale
  {
    v.(scale := ZoomInScale(v.scale))
  }

  /** The zoom-out button. */
  function ZoomOut(v: Viewer): (r: Viewer)
    ensures r == v.(scale := r.scale)
    ensures r.scale == ZoomOutScale(v.scale)
    ensures MinScale <= r.scale && (MinScale <= v.scale ==> r.scale <= v.scale)
  {
    v.(scale := ZoomOutScale(v.scale))
  }

  /** The reset button: back to scale 1 and no pan, drag state untouched. */
  function ResetZoom(v: Viewer): (r: Viewer)
    ensures r.scale == MinScale && r.position == Origin
    ensures r.isOpen == v.isOpen && r.isDragging == v.isDragging && r.dragStart == v.dragStart
  {
    Viewer(v.isOpen, MinScale, Origin, v.isDragging, v.dragStart)
  }

  /** The effect that runs whenever the host's `isOpen` flag (or its close
      callback) changes: opening resets zoom and pan exactly like the reset
      button; closing keeps the state for the next session. */
  function OnOpenChange(v: Viewer, open: bool): (r: Viewer)
    ensures r.isOpen == open
    ensures open ==> r == ResetZoom(v).(isOpen := true)
    ensures !open ==> r == v.(isOpen := false)
  {
    if open then Viewer(true, MinScale, Origin, v.isDragging, v.dragStart)
    else v.(isOpen := false)
  }

  /** Double-click on the picture: zoom in at the peek scale, reset otherwise. */
  function OnDoubleClick(v: Viewer): (r: Viewer)
    ensures v.scale == PeekScale ==> r == v.(scale := 1.7)
    ensures v.scale != PeekScale ==> r.scale == MinScale && r.position == Origin
    ensures r.isOpen == v.isOpen && r.isDragging == v.isDragging && r.dragStart == v.dragStart
  {
    if v.scale == PeekScale then ZoomIn(v) else ResetZoom(v)
  }

  /** The inputs the viewer reacts to. */
  datatype Event =
    | Wheel(deltaY: real)
    | MouseDown(at: Point)
    | MouseMove(at: Point)
    | MouseUp
    | TouchStart(touches: seq<Point>)
    | TouchMove(touches: seq<Point>)
    | TouchEnd
    | ZoomInClick
    | ZoomOutClick
    | ResetClick
    | DoubleClick
    | OpenChange(open: bool)

  /** The state after one event. While the viewer is closed it renders
      nothing and has no wheel listener, so only a change of the open flag
      reaches it. */
  function Step(v: Viewer, e: Event): (r: Viewer)
    ensures !v.isOpen && !e.OpenChange? ==> r == v
    ensures r.isOpen == if e.OpenChange? then e.open else v.isOpen
  {
    if !v.isOpen && !e.OpenChange? then v
    else match e
    case Wheel(dy) => OnWheel(v, dy)
    case MouseDown(p) => OnMouseDown(v, p)
    case MouseMove(p) => OnMouseMove(v, p)
    case MouseUp => OnMouseUp(v)
    case TouchStart(ts) => OnTouchStart(v, ts)
    case TouchMove(ts) => OnTouchMove(v, ts)
    case TouchEnd => OnTouchEnd(v)
    case ZoomInClick => ZoomIn(v)
    case ZoomOutClick => ZoomOut(v)
    case ResetClick => ResetZoom(v)
    case DoubleClick => OnDoubleClick(v)
    case OpenChange(open) => OnOpenChange(v, open)
  }

  /** The state after handling `es` in order. */
  function Run(v: Viewer, es: seq<Event>): Viewer
    decreases |es|
  {
    if es == [] then v else Run(Step(v, es[0]), es[1..])
  }

  /** A closed viewer ignores everything but being opened. */
  lemma {:induction false} ClosedViewerIgnoresInput(v: Viewer, es: seq<Event>)
    requires !v.isOpen
    requires forall i :: 0 <= i < |es| ==> !es[i].OpenChange?
    ensures Run(v, es) == v
    decreases |es|
  {
    if es != [] {
      ClosedViewerIgnoresInput(Step(v, es[0]), es[1..]);
    }
  }

  /** Whatever happens, a scale in [1, 4] stays in [1, 4]. */
  lemma {:induction false} ScaleStaysInWheelRange(v: Viewer, es: seq<Event>)
    requires MinScale <= v.scale <= WheelMaxScale
    ensures MinScale <= Run(v, es).scale <= WheelMaxScale
    decreases |es|
  {
    if es != [] {
      ScaleStaysInWheelRange(Step(v, es[0]), es[1..]);
    }
  }

  /** Without the wheel, a scale in [1, 3] stays in [1, 3]. */
  lemma {:induction false} ScaleStaysInButtonRange(v: Viewer, es: seq<Event>)
    requires MinScale <= v.scale <= ButtonMaxScale
    requires forall i :: 0 <= i < |es| ==> !es[i].Wheel?
    ensures MinScale <= Run(v, es).scale <= ButtonMaxScale
    decreases |es|
  {
    if es != [] {
      ScaleStaysInButtonRange(Step(v, es[0]), es[1..]);
    }
  }

  /** `n` wheel ticks that scroll up. */
  function WheelUp(n: nat): (es: seq<Event>)
    ensures |es| == n && forall i :: 0 <= i < n ==> es[i] == Wheel(-1.0)
  {
    seq(n, i => Wheel(-1.0))
  }

  /** Each upward tick adds 0.1 until the scale sticks at 4. */
  lemma {:induction false} WheelUpTicks(v: Viewer, n: nat)
    requires v.isOpen && MinScale <= v.scale <= WheelMaxScale
    ensures Run(v, WheelUp(n)).scale == Min(WheelMaxScale, v.scale + n as real * WheelStep)
    decreases n
  {
    if n > 0 {
      var w := OnWheel(v, -1.0);
      assert WheelUp(n)[1..] == WheelUp(n - 1);
      WheelUpTicks(w, n - 1);
    }
  }

  /** Opening from the mounted state gives scale 1; one tick up gives 1.1;
      forty more give exactly 4. */
  lemma WheelScenario()
    ensures OnOpenChange(Mounted, true).scale == 1.0
    ensures Run(OnOpenChange(Mounted, true), WheelUp(1)).scale == 1.1
    ensures Run(OnOpenChange(Mounted, true), WheelUp(41)).scale == 4.0
  {
    var v := OnOpenChange(Mounted, true);
    WheelUpTicks(v, 1);
    WheelUpTicks(v, 41);
  }

  /** Mouse-move events at the given pointer positions. */
  function Moves(qs: seq<Point>): (es: seq<Event>)
    ensures |es| == |qs| && forall i :: 0 <= i < |qs| ==> es[i] == MouseMove(qs[i])
  {
    seq(|qs|, i requires 0 <= i < |qs| => MouseMove(qs[i]))
  }

  /** During a drag of a zoomed picture, the offset is the last pointer position minus the anchor. */
  lemma {:induction false} DragTracksAnchor(v: Viewer, qs: seq<Point>)
    requires v.isOpen && v.isDragging && v.scale > MinScale && qs != []
    ensures Run(v, Moves(qs)).position == qs[|qs| - 1].Minus(v.dragStart)
    ensures Run(v, Moves(qs)) == v.(position := Run(v, Moves(qs)).position)
    decreases |qs|
  {
    var w := OnMouseMove(v, qs[0]);
    assert Moves(qs)[1..] == Moves(qs[1..]);
    if |qs| > 1 {
      DragTracksAnchor(w, qs[1..]);
    }
  }

  /** A drag that starts at `p` and moves through `qs` shifts the
      offset by the last pointer position minus `p`. */
  lemma DragMovesByPointerDelta(v: Viewer, p: Point, qs: seq<Point>)
    requires v.isOpen && v.scale > MinScale && qs != []
    ensures Run(v, [MouseDown(p)] + Moves(qs)).position == v.position.Plus(qs[|qs| - 1].Minus(p))
  {
    var w := OnMouseDown(v, p);
    assert ([MouseDown(p)] + Moves(qs))[1..] == Moves(qs);
    DragTracksAnchor(w, qs);
  }

  /** At scale 2 with no pan, dragging from (100, 100) to (130, 160) pans by (30, 60). */
  lemma DragScenario(v: Viewer)
    requires v.isOpen && v.scale == 2.0 && v.position == Origin
    ensures Run(v, [MouseDown(Point(100.0, 100.0)), MouseMove(Point(130.0, 160.0))]).position == Point(30.0, 60.0)
  {
    DragMovesByPointerDelta(v, Point(100.0, 100.0), [Point(130.0, 160.0)]);
    assert [MouseDown(Point(100.0, 100.0))] + Moves([Point(130.0, 160.0)])
        == [MouseDown(Point(100.0, 100.0)), MouseMove(Point(130.0, 160.0))];
  }

  /** Double-click at the peek scale zooms to 1.7; at 1 or 2 it resets. */
  lemma DoubleClickScenario(v: Viewer)
    ensures OnDoubleClick(v.(scale := 1.5)).scale == 1.7
    ensures OnDoubleClick(v.(scale := 1.0)) == ResetZoom(v)
    ensures OnDoubleClick(v.(scale := 2.0)) == ResetZoom(v)
  {
  }

  /** The drag flag can outlive the zoom: a drag begun at 1.2 is still on
      after zooming out to 1, and opening the viewer does not clear it. */
  lemma DraggingSurvivesZoomOut()
    ensures var v := Run(Viewer(true, 1.2, Origin, false, Origin), [MouseDown(Origin), ZoomOutClick]);
            v.isDragging && v.scale == MinScale && OnOpenChange(v, true).isDragging
  {
    var v0 := Viewer(true, 1.2, Origin, false, Origin);
    var v1 := OnMouseDown(v0, Origin);
    var v2 := ZoomOut(v1);
    assert Run(v0, [MouseDown(Origin), ZoomOutClick]) == Run(v1, [ZoomOutClick]);
    assert Run(v1, [ZoomOutClick]) == Run(v2, []);
  }

  /** The component itself: each handler updates the fields in place. */
  class ImageModal {
    var isOpen: bool
    var scale: real
    var position: Point
    var isDragging: bool
    var dragStart: Point

    function State(): Viewer
      reads this
    {
      Viewer(isOpen, scale, position, isDragging, dragStart)
    }

    constructor ()
      ensures State() == Mounted
    {
      isOpen := false;
      scale := PeekScale;
      position := Origin;
      isDragging := false;
      dragStart := Origin;
    }

    method SetOpen(open: bool)
      modifies this
      ensures State() == OnOpenChange(old(State()), open)
    {
      isOpen := open;
      if open {
        scale := MinScale;
        position := Origin;
      }
    }

    method HandleWheel(deltaY: real)
      modifies this
      ensures State() == OnWheel(old(State()), deltaY)
    {
      if !isOpen {
        return;
      }
      var delta := if deltaY > 0.0 then -WheelStep else WheelStep;
      scale := Max(MinScale, Min(WheelMaxScale, scale + delta));
    }

    method HandleMouseDown(p: Point)
      modifies this
      ensures State() == OnMouseDown(old(State()), p)
    {
      if scale > MinScale {
        isDragging := true;
        dragStart := Point(p.x - position.x, p.y - position.y);
      }
    }

    method HandleMouseMove(p: Point)
      modifies this
      ensures State() == OnMouseMove(old(State()), p)
    {
      if isDragging && scale > MinScale {
        position := Point(p.x - dragStart.x, p.y - dragStart.y);
      }
    }

    method HandleMouseUp()
      modifies this
      ensures State() == OnMouseUp(old(State()))
    {
      isDragging := false;
    }

    method HandleTouchStart(touches: seq<Point>)
      modifies this
      ensures State() == OnTouchStart(old(State()), touches)
    {
      if |touches| == 1 && scale > MinScale {
        var touch := touches[0];
        isDragging := true;
        dragStart := Point(touch.x - position.x, touch.y - position.y);
      }
    }

    method HandleTouchMove(touches: seq<Point>)
      modifies this
      ensures State() == OnTouchMove(old(State()), touches)
    {
      if |touches| == 1 && isDragging && scale > MinScale {
        var touch := touches[0];
        position := Point(touch.x - dragStart.x, touch.y - dragStart.y);
      }
    }

    method HandleTouchEnd()
      modifies this
      ensures State() == OnTouchEnd(old(State()))
    {
      isDragging := false;
    }

    method ZoomInButton()
      modifies this
      ensures State() == ZoomIn(old(State()))
    {
      scale := Min(ButtonMaxScale, scale + ZoomInStep);
    }

    method ZoomOutButton()
      modifies this
      ensures State() == ZoomOut(old(State()))
    {
      scale := Max(MinScale, scale - ZoomOutStep);
    }

    method ResetButton()
      modifies this
      ensures State() == ResetZoom(old(State()))
    {
      scale := MinScale;
      position := Origin;
    }

    method HandleDoubleClick()
      modifies this
      ensures State() == OnDoubleClick(old(State()))
    {
      if scale == PeekScale {
        ZoomInButton();
      } else {
        ResetButton();
      }
    }
  }
}
