/**
 * `Viewport`: the arithmetic both render systems share. A real position is
 * drawn at `posReal * zoom` from the middle of the canvas; a scroll step
 * divides or multiplies the zoom by `zoomFactor` and clamps it at the
 * zoom limit it would cross; a right-drag pans the view centre by the mouse
 * offset, but once the centre is at or past the edge of the theatre a
 * further outward motion puts it exactly on that edge. Doubles are reals.
 */
module Viewport {
  import opened Common

  /** `CalculatePosDraw`: `posReal * zoom + canvasSize / 2`, componentwise. */
  function PosDraw(posReal: Pair, zoom: real, canvasSize: Pair): (r: Pair)
    ensures zoom != 0.0 ==>
      Pair((r.left - canvasSize.left / 2.0) / zoom, (r.right - canvasSize.right / 2.0) / zoom) == posReal
  {
    Pair(posReal.left * zoom + canvasSize.left / 2.0, posReal.right * zoom + canvasSize.right / 2.0)
  }

  /** The real origin is drawn in the middle of the canvas, and moving a
      real position by d moves its drawn position by d scaled by the zoom. */
  lemma PosDrawFacts(a: Pair, d: Pair, zoom: real, canvasSize: Pair)
    ensures PosDraw(Pair(0.0, 0.0), zoom, canvasSize) == Pair(canvasSize.left / 2.0, canvasSize.right / 2.0)
    ensures PosDraw(Add(a, d), zoom, canvasSize) == Add(PosDraw(a, zoom, canvasSize), Pair(d.left * zoom, d.right * zoom))
  {
    assert (a.left + d.left) * zoom == a.left * zoom + d.left * zoom;
    assert (a.right + d.right) * zoom == a.right * zoom + d.right * zoom;
  }

  /** The scroll handler: a negative `deltaY` zooms out by dividing by the
      factor, anything else zooms in by multiplying; a step that would reach
      or cross a limit lands on that limit instead. */
  function ZoomStep(zoom: real, zoomFactor: real, zoomLimits: Pair, deltaY: real): (z: real)
    requires zoomFactor != 0.0
    ensures deltaY < 0.0 ==> z >= zoomLimits.left
    ensures deltaY < 0.0 ==> (z == zoomLimits.left <==> zoom / zoomFactor <= zoomLimits.left)
    ensures deltaY < 0.0 && z != zoomLimits.left ==> z == zoom / zoomFactor
    ensures deltaY >= 0.0 ==> z <= zoomLimits.right
    ensures deltaY >= 0.0 ==> (z == zoomLimits.right <==> zoom * zoomFactor >= zoomLimits.right)
    ensures deltaY >= 0.0 && z != zoomLimits.right ==> z == zoom * zoomFactor
  {
    if deltaY < 0.0 then
      (if zoom / zoomFactor <= zoomLimits.left then zoomLimits.left else zoom / zoomFactor)
    else
      (if zoom * zoomFactor >= zoomLimits.right then zoomLimits.right else zoom * zoomFactor)
  }

  /** A zoom inside the limits stays inside them whenever dividing by the
      factor does not enlarge it and multiplying does not shrink it (a
      factor of at least 1 on a positive zoom). */
  lemma ZoomStepStaysWithin(zoom: real, zoomFactor: real, zoomLimits: Pair, deltaY: real)
    requires zoomFactor != 0.0
    requires zoomLimits.left <= zoom <= zoomLimits.right
    requires zoom / zoomFactor <= zoom <= zoom * zoomFactor
    ensures zoomLimits.left <= ZoomStep(zoom, zoomFactor, zoomLimits, deltaY) <= zoomLimits.right
  {
    var down, up := zoom / zoomFactor, zoom * zoomFactor;
    var z := ZoomStep(zoom, zoomFactor, zoomLimits, deltaY);
    if deltaY < 0.0 {
      assert z == (if down <= zoomLimits.left then zoomLimits.left else down);
    } else {
      assert z == (if up >= zoomLimits.right then zoomLimits.right else up);
    }
  }

  /** Zooming in one unclamped step and then out one unclamped step gives
      back the zoom. */
  lemma {:induction false} ZoomInThenOut(zoom: real, zoomFactor: real, zoomLimits: Pair)
    requires zoomFactor != 0.0
    requires zoom * zoomFactor < zoomLimits.right
    requires zoom > zoomLimits.left
    ensures ZoomStep(ZoomStep(zoom, zoomFactor, zoomLimits, 1.0), zoomFactor, zoomLimits, -1.0) == zoom
  {
    var up := ZoomStep(zoom, zoomFactor, zoomLimits, 1.0);
    assert up == zoom * zoomFactor;
    assert up / zoomFactor == zoom;
  }

  /** One axis of the right-drag pan after the edge checks. */
  datatype AxisPan = AxisPan(diff: real, reachedEdge: bool)

  /** The two edge checks of one axis, in the order they are written: with
      the view centre at or below the low edge `-half` and a negative offset,
      the offset is changed so that `firstCenter + diff` is that edge; then
      the same at the high edge `half` for a positive (possibly already
      changed) offset. */
  function PanAxis(center: real, half: real, firstCenter: real, diff: real): (r: AxisPan)
    ensures !(center <= -half && diff < 0.0) && !(center >= half && diff > 0.0) ==> r == AxisPan(diff, false)
    ensures r.reachedEdge ==> firstCenter + r.diff == -half || firstCenter + r.diff == half
    ensures half > 0.0 && center <= -half && diff < 0.0 ==> r.reachedEdge && firstCenter + r.diff == -half
    ensures half > 0.0 && center >= half && diff > 0.0 ==> r.reachedEdge && firstCenter + r.diff == half
  {
    var low := if center <= -half && diff < 0.0 then AxisPan(diff + (-half - (firstCenter + diff)), true)
               else AxisPan(diff, false);
    if center >= half && low.diff > 0.0 then AxisPan(low.diff + (half - (firstCenter + low.diff)), true)
    else low
  }

  /** The whole pan: both axes, and whether either reached an edge. */
  datatype Pan = Pan(diff: Pair, reachedEdge: bool)

  function PanClamp(center: Pair, theaterSize: Pair, firstCenter: Pair, diff: Pair): (r: Pan)
    ensures !r.reachedEdge ==> r.diff == diff
    ensures r.reachedEdge ==>
      firstCenter.left + r.diff.left == -theaterSize.left / 2.0 || firstCenter.left + r.diff.left == theaterSize.left / 2.0 ||
      firstCenter.right + r.diff.right == -theaterSize.right / 2.0 || firstCenter.right + r.diff.right == theaterSize.right / 2.0
  {
    var x := PanAxis(center.left, theaterSize.left / 2.0, firstCenter.left, diff.left);
    var y := PanAxis(center.right, theaterSize.right / 2.0, firstCenter.right, diff.right);
    Pan(Pair(x.diff, y.diff), x.reachedEdge || y.reachedEdge)
  }

  /** The mouse offset of a drag, scaled by the drag factor and divided by
      the zoom. */
  function DragDiff(posMouse: Pair, firstPos: Pair, mouseDragFactor: real, zoom: real): (r: Pair)
    requires zoom != 0.0
    ensures r.left * zoom == (posMouse.left - firstPos.left) * mouseDragFactor
    ensures r.right * zoom == (posMouse.right - firstPos.right) * mouseDragFactor
  {
    Pair((posMouse.left - firstPos.left) * mouseDragFactor / zoom,
         (posMouse.right - firstPos.right) * mouseDragFactor / zoom)
  }
}
