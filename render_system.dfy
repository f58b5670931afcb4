/**
 * `RenderSystem`: the JavaFX-node viewport. It keeps no shape queue (its
 * queue and the loops over it are commented out), so what remains is the
 * view centre, the zoom and the drag state that its listeners change: a
 * right-release with ALT held resets the view, a right-drag pans the
 * centre (and the canvas layout with it), clamped at the theatre edge, and
 * a scroll zooms within the zoom limits.
 *
 * The canvas size, the mouse position and buttons, the ALT key and the
 * editor's `rotating` flag are parameters; the editor callbacks are not
 * part of the model.
 */
module RenderSystems {
  import opened Common
  import Viewport

  class RenderSystem {
    const theaterSize: Pair
    const maxShapes: int
    const zoomLimits: Pair
    const zoomFactor: real
    const mouseDragFactor: real

    var center: Pair
    var zoom: real
    var mouseDragFirstPos: Option<Pair>
    var mouseDragFirstCenter: Option<Pair>
    var mouseDragReachedEdge: bool
    /** The canvas's layout position, which follows the centre on a pan. */
    var canvasLayout: Pair

    /** A drag that has started knows where the view centre was. */
    predicate Valid()
      reads this
    {
      mouseDragFirstPos.Some? ==> mouseDragFirstCenter.Some?
    }

    constructor (theaterSize: Pair, maxShapes: int, zoomLimits: Pair, zoomFactor: real, mouseDragFactor: real, canvasLayout: Pair)
      ensures this.theaterSize == theaterSize && this.maxShapes == maxShapes && this.zoomLimits == zoomLimits
      ensures this.zoomFactor == zoomFactor && this.mouseDragFactor == mouseDragFactor
      ensures center == Pair(0.0, 0.0) && zoom == 1.0 && this.canvasLayout == canvasLayout
      ensures mouseDragFirstPos.None? && mouseDragFirstCenter.None? && !mouseDragReachedEdge
      ensures Valid()
    {
      this.theaterSize := theaterSize;
      this.maxShapes := maxShapes;
      this.zoomLimits := zoomLimits;
      this.zoomFactor := zoomFactor;
      this.mouseDragFactor := mouseDragFactor;
      this.canvasLayout := canvasLayout;
      center := Pair(0.0, 0.0);
      zoom := 1.0;
      mouseDragFirstPos, mouseDragFirstCenter := None, None;
      mouseDragReachedEdge := false;
    }

    /** `Render`: its whole body is commented out, so it changes nothing. */
    method Render()
      ensures center == old(center) && zoom == old(zoom)
    {
    }

    /** `CalculatePosDraw` at the current zoom, which is `Viewport.PosDraw`
        (its inverse is proved there); the shape argument is not used. */
    function CalculatePosDraw(posReal: Pair, canvasSize: Pair): (posDraw: Pair)
      reads this`zoom
      ensures posDraw == Viewport.PosDraw(posReal, zoom, canvasSize)
    {
      Viewport.PosDraw(posReal, zoom, canvasSize)
    }

    /** The mouse-press listener: the next drag starts afresh. */
    method MousePressed()
      requires Valid()
      modifies this`mouseDragFirstPos
      ensures mouseDragFirstPos.None? && Valid()
    {
      mouseDragFirstPos := None;
    }

    /** The mouse-release listener: with the right button down and ALT held
        the centre goes back to the origin and the zoom to 1. */
    method MouseReleased(rmb: bool, alt: bool)
      modifies this`center, this`zoom
      ensures !(rmb && alt) ==> center == old(center) && zoom == old(zoom)
      ensures rmb && alt ==> center == Pair(0.0, 0.0) && zoom == 1.0
    {
      if rmb && alt {
        center := Pair(0.0, 0.0);
        zoom := 1.0;
      }
    }

    /** The drag listener, for a drag that passed the time throttle. A drag
        that has not started, or that reached an edge last time, starts
        afresh from this mouse position and the current centre. The offset
        handed to the editor is the mouse offset scaled by the drag factor
        over the zoom; with the right button down it is first clamped at the
        theatre edge, and the centre and the canvas layout move to the
        recorded centre plus that offset. */
    method MouseDragged(posMouse: Pair, rmb: bool) returns (mouseDiffPos: Pair)
      requires Valid() && zoom != 0.0
      modifies this`mouseDragFirstPos, this`mouseDragFirstCenter, this`mouseDragReachedEdge, this`center, this`canvasLayout
      ensures Valid() && mouseDragFirstPos.Some?
      ensures old(mouseDragFirstPos.None? || mouseDragReachedEdge) ==>
        mouseDragFirstPos == Some(posMouse) && mouseDragFirstCenter == Some(old(center))
      ensures old(mouseDragFirstPos.Some? && !mouseDragReachedEdge) ==>
        mouseDragFirstPos == old(mouseDragFirstPos) && mouseDragFirstCenter == old(mouseDragFirstCenter)
      ensures var raw := Viewport.DragDiff(posMouse, mouseDragFirstPos.value, mouseDragFactor, zoom);
        var pan := Viewport.PanClamp(old(center), theaterSize, mouseDragFirstCenter.value, raw);
        (!rmb ==> mouseDiffPos == raw && center == old(center) && canvasLayout == old(canvasLayout) &&
                  mouseDragReachedEdge == old(mouseDragReachedEdge)) &&
        (rmb ==> mouseDiffPos == pan.diff && mouseDragReachedEdge == pan.reachedEdge &&
                 center == Add(mouseDragFirstCenter.value, pan.diff) && canvasLayout == center)
    {
      if mouseDragFirstPos.None? || mouseDragReachedEdge {
        mouseDragFirstPos := Some(posMouse);
        mouseDragFirstCenter := Some(center);
      }
      var raw := Viewport.DragDiff(posMouse, mouseDragFirstPos.value, mouseDragFactor, zoom);
      mouseDiffPos := raw;
      if rmb {
        var first := mouseDragFirstCenter.value;
        var pan := Viewport.PanClamp(center, theaterSize, first, raw);
        mouseDragReachedEdge := pan.reachedEdge;
        mouseDiffPos := pan.diff;
        center := Add(first, pan.diff);
        canvasLayout := center;
      }
    }

    /** The scroll listener: while nothing is being rotated, one zoom step
        clamped at the zoom limits. */
    method Scroll(deltaY: real, rotating: bool)
      requires !rotating ==> zoomFactor != 0.0
      modifies this`zoom
      ensures rotating ==> zoom == old(zoom)
      ensures !rotating ==> zoom == Viewport.ZoomStep(old(zoom), zoomFactor, zoomLimits, deltaY)
    {
      if !rotating {
        if deltaY < 0.0 {
          if zoom / zoomFactor <= zoomLimits.left {
            zoom := zoomLimits.left;
          } else {
            zoom := zoom / zoomFactor;
          }
        } else {
          if zoom * zoomFactor >= zoomLimits.right {
            zoom := zoomLimits.right;
          } else {
            zoom := zoom * zoomFactor;
          }
        }
      }
    }
  }

  /** A right-drag that pushes outward from an edge it is already at or past
      puts the centre exactly on that edge, axis by axis. */
  lemma PanLandsOnEdge(center: Pair, theaterSize: Pair, firstCenter: Pair, diff: Pair)
    requires theaterSize.left > 0.0 && theaterSize.right > 0.0
    ensures var pan := Viewport.PanClamp(center, theaterSize, firstCenter, diff);
      var c := Add(firstCenter, pan.diff);
      (center.left <= -theaterSize.left / 2.0 && diff.left < 0.0 ==> c.left == -theaterSize.left / 2.0 && pan.reachedEdge) &&
      (center.left >= theaterSize.left / 2.0 && diff.left > 0.0 ==> c.left == theaterSize.left / 2.0 && pan.reachedEdge) &&
      (center.right <= -theaterSize.right / 2.0 && diff.right < 0.0 ==> c.right == -theaterSize.right / 2.0 && pan.reachedEdge) &&
      (center.right >= theaterSize.right / 2.0 && diff.right > 0.0 ==> c.right == theaterSize.right / 2.0 && pan.reachedEdge)
  {
  }
}
