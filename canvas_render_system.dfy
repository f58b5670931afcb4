/**
 * `CanvasRenderSystem`: the queue of canvas shapes of one viewport, with
 * the view centre and zoom that the mouse listeners change. A render pass
 * places every shape that has a real position and drops the shapes that are
 * not permanent; shapes are added up to `maxShapes`; a right-release with
 * ALT held recentres the view; a right-drag pans it and every positioned
 * shape with it, clamped at the edge of the theatre; a scroll zooms within
 * the zoom limits.
 *
 * The canvas size, the mouse position and buttons, the ALT key and the
 * editor's `rotating` flag are parameters; the editor callbacks and the
 * graphics context are not part of the model.
 */
module CanvasRenderSystems {
  import opened Common
  import Viewport
  import opened CanvasRenderShapes

  /** The elements of s that lie in keep, in order. */
  function Filter<T>(s: seq<T>, keep: set<T>): (r: seq<T>)
    ensures |r| <= |s|
  {
    if s == [] then []
    else Filter(s[..|s| - 1], keep) + (if s[|s| - 1] in keep then [s[|s| - 1]] else [])
  }

  /** The filter keeps exactly the elements of s that lie in keep. */
  lemma {:induction false} FilterKeeps<T>(s: seq<T>, keep: set<T>)
    ensures forall x :: x in Filter(s, keep) <==> x in s && x in keep
  {
    if s != [] {
      var init, last := s[..|s| - 1], s[|s| - 1];
      FilterKeeps(init, keep);
      assert s == init + [last];
      forall x
        ensures x in s <==> x in init || x == last
      {
        if x in s {
          var j :| 0 <= j < |s| && s[j] == x;
          if j < |s| - 1 {
            assert init[j] == x;
          }
        }
      }
    }
  }

  /** Filtering twice keeps what filtering once kept. */
  lemma {:induction false} FilterIdempotent<T>(s: seq<T>, keep: set<T>)
    ensures Filter(Filter(s, keep), keep) == Filter(s, keep)
  {
    if s != [] {
      var init, last := s[..|s| - 1], s[|s| - 1];
      FilterIdempotent(init, keep);
      var f := Filter(init, keep);
      assert Filter(s, keep) == f + (if last in keep then [last] else []);
      if last in keep {
        var g := f + [last];
        assert g[..|g| - 1] == f && g[|g| - 1] == last;
        assert Filter(g, keep) == Filter(f, keep) + [last];
      } else {
        assert f + [] == f;
      }
    }
  }

  /** A sequence whose elements all lie in keep is left alone. */
  lemma {:induction false} FilterAllKept<T>(s: seq<T>, keep: set<T>)
    requires forall j :: 0 <= j < |s| ==> s[j] in keep
    ensures Filter(s, keep) == s
  {
    if s != [] {
      FilterAllKept(s[..|s| - 1], keep);
      assert s[..|s| - 1] + [s[|s| - 1]] == s;
    }
  }

  /** Extending a sequence by one element extends its filtered part by that
      element exactly when it is kept. */
  lemma FilterSnoc<T>(s: seq<T>, keep: set<T>, k: nat)
    requires k < |s|
    ensures Filter(s[..k + 1], keep) == Filter(s[..k], keep) + (if s[k] in keep then [s[k]] else [])
  {
    assert s[..k + 1][..k] == s[..k];
  }

  /** One step of a removing walk over s, the sequence orig with its first k
      entries filtered: at index i, the size of the filtered part, sits
      orig[k]; keeping it means stepping over it, dropping it means removing
      index i, where it occurs for the first time. */
  lemma FilterStep<T>(orig: seq<T>, keep: set<T>, k: nat, s: seq<T>, i: nat)
    requires k < |orig|
    requires s == Filter(orig[..k], keep) + orig[k..]
    requires i == |Filter(orig[..k], keep)|
    ensures i < |s| && s[i] == orig[k]
    ensures orig[k] in keep ==>
      s == Filter(orig[..k + 1], keep) + orig[k + 1..] && i + 1 == |Filter(orig[..k + 1], keep)|
    ensures orig[k] !in keep ==>
      (forall j :: 0 <= j < i ==> s[j] != s[i]) &&
      RemoveAt(s, i) == Filter(orig[..k + 1], keep) + orig[k + 1..] && i == |Filter(orig[..k + 1], keep)|
  {
    var kept, rest := Filter(orig[..k], keep), orig[k + 1..];
    assert orig[k..] == [orig[k]] + rest;
    assert s == kept + [orig[k]] + rest;
    FilterSnoc(orig, keep, k);
    if orig[k] !in keep {
      FilterKeeps(orig[..k], keep);
      forall j | 0 <= j < i
        ensures s[j] != s[i]
      {
        assert s[j] == kept[j] && kept[j] in kept;
      }
      RemoveAtJoin(kept, orig[k], rest);
      assert kept + [] == kept;
    }
  }

  /** The entry at index i of that walk is orig[k]. */
  lemma FilterAt<T>(orig: seq<T>, keep: set<T>, k: nat, s: seq<T>, i: nat)
    requires k < |orig|
    requires s == Filter(orig[..k], keep) + orig[k..]
    requires i == |Filter(orig[..k], keep)|
    ensures i < |s| && s[i] == orig[k]
  {
    FilterStep(orig, keep, k, s, i);
  }

  /** The shapes of a queue that are marked permanent. */
  function Permanent(ss: seq<CanvasRenderShape>): (r: set<CanvasRenderShape>)
    reads ss`permanent
    ensures forall s: CanvasRenderShape :: s in r ==> s in ss && s.permanent
    ensures forall s: CanvasRenderShape :: s in ss && s.permanent ==> s in r
  {
    set s | s in ss && s.permanent
  }

  /** The permanent shapes of a queue, in queue order. */
  function Permanents(ss: seq<CanvasRenderShape>): (r: seq<CanvasRenderShape>)
    reads ss`permanent
    ensures |r| <= |ss|
  {
    Filter(ss, Permanent(ss))
  }

  /** A render pass keeps exactly the queued shapes that are permanent. */
  lemma PermanentsKeeps(ss: seq<CanvasRenderShape>)
    ensures forall s :: s in Permanents(ss) <==> s in ss && s.permanent
  {
    FilterKeeps(ss, Permanent(ss));
  }

  /** A second render pass right after a first one, with no shape changed
      in between, removes nothing more: the queue then holds permanent
      shapes only. */
  lemma RenderTwiceKeepsQueue(ss: seq<CanvasRenderShape>)
    ensures Permanents(Permanents(ss)) == Permanents(ss)
  {
    var p := Permanents(ss);
    PermanentsKeeps(ss);
    PermanentsKeeps(p);
    assert Permanent(p) <= Permanent(ss);
    FilterAllKept(p, Permanent(p));
  }

  /** No shape is queued twice. */
  predicate Distinct(ss: seq<CanvasRenderShape>)
  {
    forall a, b :: 0 <= a < b < |ss| ==> ss[a] != ss[b]
  }

  /** Adding a shape at idx and then removing it by value gives back the
      queue, provided the shape is not queued before idx already. */
  lemma {:induction false} AddThenRemoveShape(ss: seq<CanvasRenderShape>, idx: nat, shape: CanvasRenderShape)
    requires idx <= |ss|
    requires shape !in ss[..idx]
    ensures RemoveFirst(InsertAt(ss, idx, shape), shape) == ss
  {
    var t := InsertAt(ss, idx, shape);
    forall k | 0 <= k < idx
      ensures t[k] != t[idx]
    {
      assert t[k] == ss[k] && ss[k] in ss[..idx];
    }
    RemoveFirstAtFirstIndex(t, idx);
    RemoveAfterInsert(ss, idx, shape);
  }

  /** The index of the first queued shape without a real position, or the
      length of the queue when every shape has one: the ALT recentring
      dereferences the real position of every shape and throws there. */
  function Unplaced(ss: seq<CanvasRenderShape>): (n: nat)
    reads ss`posReal
    ensures n <= |ss|
    ensures forall j :: 0 <= j < n ==> ss[j].posReal.Some?
    ensures n < |ss| ==> ss[n].posReal.None?
  {
    if ss == [] then 0
    else if ss[0].posReal.None? then 0
    else 1 + Unplaced(ss[1..])
  }

  /** The index of the first queued shape that has a real position but no
      press position, or the length of the queue when there is none: moving
      the shapes during a drag dereferences the press position of every
      positioned shape and throws there. */
  function Unpressed(ss: seq<CanvasRenderShape>): (n: nat)
    reads ss`posReal, ss`posMousePress
    ensures n <= |ss|
    ensures forall j :: 0 <= j < n && ss[j].posReal.Some? ==> ss[j].posMousePress.Some?
    ensures n < |ss| ==> ss[n].posReal.Some? && ss[n].posMousePress.None?
  {
    if ss == [] then 0
    else if ss[0].posReal.Some? && ss[0].posMousePress.None? then 0
    else 1 + Unpressed(ss[1..])
  }

  /** How many queued shapes, from the front, `DrawShape` draws without
      throwing; a render pass stops at the first one it cannot draw. */
  function Drawn(ss: seq<CanvasRenderShape>): (n: nat)
    reads ss`points, ss`pointWidths, ss`pointColors, ss`pointOpacities, ss`lineIndices
    reads ss`lineWidths, ss`lineColors, ss`lineOpacities, ss`globalOpacity
    ensures n <= |ss|
    ensures forall j {:trigger ss[j].DrawSucceeds()} :: 0 <= j < n ==> ss[j].DrawSucceeds()
    ensures n < |ss| ==> !ss[n].DrawSucceeds()
  {
    if ss == [] then 0
    else if !ss[0].DrawSucceeds() then 0
    else 1 + Drawn(ss[1..])
  }

  /** The loop of `Render` over a queue: walks it with an index that stays
      put whenever the current shape is removed. Every shape it reaches gets
      its draw position at this zoom when it has a real position, then is
      drawn; the non-permanent ones are removed by value. A shape that
      `DrawShape` cannot draw throws (`thrown`): the pass ends there, and
      that shape and every later one stay queued. `keep` names the
      permanent shapes. */
  method RenderPass(queue: seq<CanvasRenderShape>, ghost keep: set<CanvasRenderShape>, ghost drawn: nat,
                    zoom: real, canvasSize: Pair)
    returns (list: seq<CanvasRenderShape>, thrown: bool)
    requires forall s :: s in queue ==> (s in keep <==> s.permanent)
    requires drawn <= |queue|
    requires forall j {:trigger queue[j].DrawSucceeds()} :: 0 <= j < drawn ==> queue[j].DrawSucceeds()
    requires drawn < |queue| ==> !queue[drawn].DrawSucceeds()
    modifies queue`posDraw
    ensures thrown <==> drawn < |queue|
    ensures list == Filter(queue[..drawn], keep) + queue[drawn..]
    ensures forall j {:trigger queue[j].posDraw} :: 0 <= j <= drawn && j < |queue| && queue[j].posReal.Some? ==>
      queue[j].posDraw == Viewport.PosDraw(queue[j].posReal.value, zoom, canvasSize)
    ensures forall s :: s in queue && s.posReal.None? ==> s.posDraw == old(s.posDraw)
  {
    ghost var k := 0;
    list := queue;
    var i := 0;
    while i < |list|
      invariant 0 <= k <= drawn <= |queue|
      invariant list == Filter(queue[..k], keep) + queue[k..]
      invariant i == |Filter(queue[..k], keep)| && |list| == i + |queue| - k
      invariant forall j {:trigger queue[j].posDraw} :: 0 <= j < k && queue[j].posReal.Some? ==>
        queue[j].posDraw == Viewport.PosDraw(queue[j].posReal.value, zoom, canvasSize)
      invariant forall s :: s in queue && s.posReal.None? ==> s.posDraw == old(s.posDraw)
      decreases |queue| - k
    {
      assert k < |queue|;
      FilterAt(queue, keep, k, list, i);
      // only draw positions change, so the shape draws and stays as before the pass
      assert queue[k].DrawSucceeds() == old(queue[k].DrawSucceeds()) && queue[k].permanent == old(queue[k].permanent);
      var next, j, drawable := RenderStep(list[i], queue, keep, k, list, i, zoom, canvasSize);
      if !drawable {
        // `DrawShape` throws and the rest of the queue is left as it is
        assert k == drawn;
        return list, true;
      }
      assert k < drawn;
      list, i := next, j;
      k := k + 1;
    }
    assert k == |queue| && queue[..k] == queue && queue[k..] == [];
    assert list == Filter(queue, keep) + [];
    thrown := false;
  }

  /** The list after the k-th shape of the queue is drawn: a permanent
      shape stays and the index moves past it; any other is removed by
      value, and since the shapes before it were its predecessors in the
      queue, the first occurrence is the one at the index, which stays put. */
  method Advance<T>(ghost queue: seq<T>, ghost keep: set<T>, ghost k: nat, list: seq<T>, i: nat, permanent: bool)
    returns (list': seq<T>, i': nat)
    requires k < |queue| && (permanent <==> queue[k] in keep)
    requires list == Filter(queue[..k], keep) + queue[k..] && i == |Filter(queue[..k], keep)|
    ensures list' == Filter(queue[..k + 1], keep) + queue[k + 1..] && i' == |Filter(queue[..k + 1], keep)|
  {
    FilterStep(queue, keep, k, list, i);
    if !permanent {
      RemoveFirstAtFirstIndex(list, i);
      list', i' := RemoveFirst(list, list[i]), i;
    } else {
      list', i' := list, i + 1;
    }
  }

  /** One turn of the loop of `Render`: the k-th shape of the queue, found
      at index i of the list, gets its draw position if it has a real
      position; `drawable` says whether `DrawShape` then draws it, and when
      it does the list and index move on as `Advance` says. Only that
      shape's draw position changes, and `DrawShape` does not read it. */
  method RenderStep(shape: CanvasRenderShape, ghost queue: seq<CanvasRenderShape>, ghost keep: set<CanvasRenderShape>,
                    ghost k: nat, list: seq<CanvasRenderShape>, i: nat, zoom: real, canvasSize: Pair)
    returns (list': seq<CanvasRenderShape>, i': nat, drawable: bool)
    requires k < |queue| && queue[k] == shape && (shape in keep <==> shape.permanent)
    requires list == Filter(queue[..k], keep) + queue[k..] && i == |Filter(queue[..k], keep)|
    requires forall j {:trigger queue[j].posDraw} :: 0 <= j < k && queue[j].posReal.Some? ==>
      queue[j].posDraw == Viewport.PosDraw(queue[j].posReal.value, zoom, canvasSize)
    modifies shape`posDraw
    ensures drawable == old(shape.DrawSucceeds()) && shape.permanent == old(shape.permanent)
    ensures drawable ==>
      list' == Filter(queue[..k + 1], keep) + queue[k + 1..] && i' == |Filter(queue[..k + 1], keep)|
    ensures forall j {:trigger queue[j].posDraw} :: 0 <= j <= k && queue[j].posReal.Some? ==>
      queue[j].posDraw == Viewport.PosDraw(queue[j].posReal.value, zoom, canvasSize)
    ensures shape.posReal.None? ==> shape.posDraw == old(shape.posDraw)
  {
    FilterStep(queue, keep, k, list, i);
    drawable := shape.DrawSucceeds();
    if shape.posReal.Some? {
      shape.posDraw := Viewport.PosDraw(shape.posReal.value, zoom, canvasSize);
    }
    list', i' := list, i;
    if drawable {
      list', i' := Advance(queue, keep, k, list, i, shape.permanent);
    }
  }

  class CanvasRenderSystem {
    const theaterSize: Pair
    const maxShapes: int
    const zoomLimits: Pair
    const zoomFactor: real
    const mouseDragFactor: real

    var shapes: seq<CanvasRenderShape>
    var center: Pair
    var zoom: real
    var mouseDragFirstPos: Option<Pair>
    var mouseDragFirstCenter: Option<Pair>
    var mouseDragReachedEdge: bool

    /** A drag that has started knows where the view centre was. */
    predicate Valid()
      reads this
    {
      mouseDragFirstPos.Some? ==> mouseDragFirstCenter.Some?
    }

    constructor (theaterSize: Pair, maxShapes: int, zoomLimits: Pair, zoomFactor: real, mouseDragFactor: real)
      ensures this.theaterSize == theaterSize && this.maxShapes == maxShapes && this.zoomLimits == zoomLimits
      ensures this.zoomFactor == zoomFactor && this.mouseDragFactor == mouseDragFactor
      ensures shapes == [] && center == Pair(0.0, 0.0) && zoom == 1.0
      ensures mouseDragFirstPos.None? && mouseDragFirstCenter.None? && !mouseDragReachedEdge
      ensures Valid()
    {
      this.theaterSize := theaterSize;
      this.maxShapes := maxShapes;
      this.zoomLimits := zoomLimits;
      this.zoomFactor := zoomFactor;
      this.mouseDragFactor := mouseDragFactor;
      shapes := [];
      center := Pair(0.0, 0.0);
      zoom := 1.0;
      mouseDragFirstPos, mouseDragFirstCenter := None, None;
      mouseDragReachedEdge := false;
    }

    /** `CalculatePosDraw` at the current zoom, which is `Viewport.PosDraw`
        (its inverse is proved there). */
    function CalculatePosDraw(posReal: Pair, canvasSize: Pair): (posDraw: Pair)
      reads this`zoom
      ensures posDraw == Viewport.PosDraw(posReal, zoom, canvasSize)
    {
      Viewport.PosDraw(posReal, zoom, canvasSize)
    }

    /** `Render`: one pass over the queue at the current zoom. `thrown`
        is the exception of the first shape that cannot be drawn; the queue
        then keeps that shape and everything after it. */
    method Render(canvasSize: Pair) returns (thrown: bool)
      modifies this`shapes, shapes`posDraw
      ensures thrown <==> old(Drawn(shapes)) < |old(shapes)|
      ensures var n := old(Drawn(shapes));
        shapes == Filter(old(shapes)[..n], old(Permanent(shapes))) + old(shapes)[n..]
      ensures !thrown ==> shapes == old(Permanents(shapes))
      ensures forall j :: 0 <= j <= old(Drawn(shapes)) && j < |old(shapes)| && old(shapes)[j].posReal.Some? ==>
        old(shapes)[j].posDraw == CalculatePosDraw(old(shapes)[j].posReal.value, canvasSize)
      ensures forall s :: s in old(shapes) && s.posReal.None? ==> s.posDraw == old(s.posDraw)
    {
      ghost var queue := shapes;
      shapes, thrown := RenderPass(shapes, Permanent(shapes), Drawn(shapes), zoom, canvasSize);
      if !thrown {
        assert queue[..|queue|] == queue;
      }
    }

    /** `AddShape`: nothing once the queue holds `maxShapes` shapes;
        otherwise a negative index appends and any other inserts there. */
    method AddShape(idx: int, shape: CanvasRenderShape)
      requires |shapes| < maxShapes && idx >= 0 ==> idx <= |shapes|
      modifies this`shapes
      ensures |old(shapes)| >= maxShapes ==> shapes == old(shapes)
      ensures |old(shapes)| < maxShapes && idx < 0 ==> shapes == old(shapes) + [shape]
      ensures |old(shapes)| < maxShapes && idx >= 0 ==> shapes == InsertAt(old(shapes), idx, shape)
      ensures |old(shapes)| <= maxShapes ==> |shapes| <= maxShapes
    {
      if |shapes| >= maxShapes {
        return;
      }
      if idx < 0 {
        shapes := shapes + [shape];
      } else {
        shapes := InsertAt(shapes, idx, shape);
      }
    }

    /** `RemoveShape`: removes the shape found at idx by value, that is its
        first occurrence in the queue, which may lie before idx. */
    method RemoveShape(idx: int)
      requires 0 <= idx < |shapes|
      modifies this`shapes
      ensures shapes == RemoveFirst(old(shapes), old(shapes)[idx])
      ensures |shapes| == |old(shapes)| - 1
      ensures Distinct(old(shapes)) ==> shapes == RemoveAt(old(shapes), idx)
    {
      if Distinct(shapes) {
        RemoveFirstAtFirstIndex(shapes, idx);
      }
      shapes := RemoveFirst(shapes, shapes[idx]);
    }

    /** The mouse-press listener: the next drag starts afresh. */
    method MousePressed()
      requires Valid()
      modifies this`mouseDragFirstPos
      ensures mouseDragFirstPos.None? && Valid()
    {
      mouseDragFirstPos := None;
    }

    /** The mouse-release listener: with the right button down and ALT
        held, every queued shape is moved by minus the view centre, then the
        centre goes back to the origin and the zoom to 1. A shape without a
        real position throws (`thrown`) when the loop reaches it: the shapes
        before it have been moved, the centre and zoom are left as they
        were. A shape queued twice is moved twice. */
    method MouseReleased(rmb: bool, alt: bool) returns (thrown: bool)
      modifies this`center, this`zoom, shapes`posReal
      ensures thrown <==> rmb && alt && old(Unplaced(shapes)) < |shapes|
      ensures !(rmb && alt) || thrown ==> center == old(center) && zoom == old(zoom)
      ensures !(rmb && alt) ==> forall s :: s in shapes ==> s.posReal == old(s.posReal)
      ensures rmb && alt && !thrown ==> center == Pair(0.0, 0.0) && zoom == 1.0
      ensures forall s :: s in shapes ==> s.posReal.Some? == old(s.posReal.Some?)
      ensures rmb && alt && Distinct(shapes) ==> var n := old(Unplaced(shapes));
        (forall j :: 0 <= j < n ==> shapes[j].posReal == Some(Sub(old(shapes[j].posReal).value, old(center)))) &&
        (forall j :: n <= j < |shapes| ==> shapes[j].posReal == old(shapes[j].posReal))
      ensures rmb && alt && !thrown && Distinct(shapes) ==>
        forall s :: s in shapes ==> Sub(s.posReal.value, center) == Sub(old(s.posReal).value, old(center))
    {
      thrown := false;
      if rmb && alt {
        var c := center;
        ghost var n := Unplaced(shapes);
        for i := 0 to |shapes|
          invariant i <= n && center == old(center) && zoom == old(zoom)
          invariant forall s :: s in shapes ==> s.posReal.Some? == old(s.posReal.Some?)
          invariant Distinct(shapes) ==> forall j :: 0 <= j < i ==> shapes[j].posReal == Some(Sub(old(shapes[j].posReal).value, c))
          invariant Distinct(shapes) ==> forall j :: i <= j < |shapes| ==> shapes[j].posReal == old(shapes[j].posReal)
        {
          var shape := shapes[i];
          if shape.posReal.None? {
            return true;
          }
          shape.posReal := Some(Sub(shape.posReal.value, c));
        }
        center := Pair(0.0, 0.0);
        zoom := 1.0;
        if Distinct(shapes) {
          forall s | s in shapes
            ensures Sub(s.posReal.value, center) == Sub(old(s.posReal).value, old(center))
          {
            var j :| 0 <= j < |shapes| && shapes[j] == s;
          }
        }
      }
    }

    /** The drag listener, for a drag that passed the time throttle. A drag
        that has not started, or that reached an edge last time, starts
        afresh from this mouse position and the current centre, and records
        every positioned shape's real position. The offset handed to the
        editor is the mouse offset scaled by the drag factor over the zoom;
        with the right button down it is first clamped at the theatre edge,
        and the centre and every positioned shape move to their recorded
        positions plus that offset. In a drag under way, a positioned shape
        with no recorded position throws (`thrown`) when the move reaches
        it: the centre and the edge flag are already updated and the shapes
        before it already moved. */
    method MouseDragged(posMouse: Pair, rmb: bool) returns (mouseDiffPos: Pair, thrown: bool)
      requires Valid() && zoom != 0.0
      modifies this`mouseDragFirstPos, this`mouseDragFirstCenter, this`mouseDragReachedEdge, this`center
      modifies shapes`posReal, shapes`posMousePress
      ensures Valid() && mouseDragFirstPos.Some?
      ensures thrown <==> rmb && old(mouseDragFirstPos.Some? && !mouseDragReachedEdge) && old(Unpressed(shapes)) < |shapes|
      ensures old(mouseDragFirstPos.None? || mouseDragReachedEdge) ==>
        mouseDragFirstPos == Some(posMouse) && mouseDragFirstCenter == Some(old(center))
      ensures old(mouseDragFirstPos.Some? && !mouseDragReachedEdge) ==>
        mouseDragFirstPos == old(mouseDragFirstPos) && mouseDragFirstCenter == old(mouseDragFirstCenter)
      ensures var raw := Viewport.DragDiff(posMouse, mouseDragFirstPos.value, mouseDragFactor, zoom);
        var pan := Viewport.PanClamp(old(center), theaterSize, mouseDragFirstCenter.value, raw);
        (!rmb ==> mouseDiffPos == raw && center == old(center) && mouseDragReachedEdge == old(mouseDragReachedEdge)) &&
        (rmb ==> mouseDiffPos == pan.diff && mouseDragReachedEdge == pan.reachedEdge &&
                 center == Add(mouseDragFirstCenter.value, pan.diff))
      ensures rmb && !thrown ==> forall s :: s in shapes && s.posReal.Some? ==>
        s.posMousePress.Some? && Sub(s.posReal.value, center) == Sub(s.posMousePress.value, mouseDragFirstCenter.value)
      ensures thrown && Distinct(shapes) ==> var n := old(Unpressed(shapes));
        (forall j :: 0 <= j < n && shapes[j].posReal.Some? ==>
           shapes[j].posMousePress.Some? &&
           Sub(shapes[j].posReal.value, center) == Sub(shapes[j].posMousePress.value, mouseDragFirstCenter.value)) &&
        (forall j :: n <= j < |shapes| ==> shapes[j].posReal == old(shapes[j].posReal))
      ensures !rmb ==> forall s :: s in shapes ==> s.posReal == old(s.posReal)
      ensures forall s :: s in shapes ==> s.posReal.Some? == old(s.posReal.Some?)
    {
      thrown := false;
      if mouseDragFirstPos.None? || mouseDragReachedEdge {
        mouseDragFirstPos := Some(posMouse);
        mouseDragFirstCenter := Some(center);
        RecordPressPositions();
        assert Unpressed(shapes) == |shapes|;
      }
      var raw := Viewport.DragDiff(posMouse, mouseDragFirstPos.value, mouseDragFactor, zoom);
      mouseDiffPos := raw;
      if rmb {
        mouseDiffPos, thrown := Pan(raw);
      }
    }

    /** The right-button part of the drag listener: the offset is clamped
        at the theatre edge, the centre moves to the recorded centre plus
        it, and so does every positioned shape from its press position; a
        positioned shape with no press position throws (`thrown`). */
    method Pan(raw: Pair) returns (diff: Pair, thrown: bool)
      requires mouseDragFirstCenter.Some?
      modifies this`mouseDragReachedEdge, this`center, shapes`posReal
      ensures var pan := Viewport.PanClamp(old(center), theaterSize, mouseDragFirstCenter.value, raw);
        diff == pan.diff && mouseDragReachedEdge == pan.reachedEdge && center == Add(mouseDragFirstCenter.value, diff)
      ensures thrown <==> old(Unpressed(shapes)) < |shapes|
      ensures !thrown ==> forall s :: s in shapes && s.posReal.Some? ==>
        s.posMousePress.Some? && Sub(s.posReal.value, center) == Sub(s.posMousePress.value, mouseDragFirstCenter.value)
      ensures thrown && Distinct(shapes) ==> var n := old(Unpressed(shapes));
        (forall j :: 0 <= j < n && shapes[j].posReal.Some? ==>
           shapes[j].posMousePress.Some? &&
           Sub(shapes[j].posReal.value, center) == Sub(shapes[j].posMousePress.value, mouseDragFirstCenter.value)) &&
        (forall j :: n <= j < |shapes| ==> shapes[j].posReal == old(shapes[j].posReal))
      ensures forall s :: s in shapes ==> s.posReal.Some? == old(s.posReal.Some?)
    {
      var first := mouseDragFirstCenter.value;
      var pan := Viewport.PanClamp(center, theaterSize, first, raw);
      mouseDragReachedEdge := pan.reachedEdge;
      diff := pan.diff;
      center := Add(first, diff);
      thrown := MoveFromPress(diff);
    }

    /** The first loop of the drag listener: every shape with a real
        position remembers it as its press position. */
    method RecordPressPositions()
      modifies shapes`posMousePress
      ensures forall s :: s in shapes && s.posReal.Some? ==> s.posMousePress == s.posReal
      ensures forall s :: s in shapes && s.posReal.None? ==> s.posMousePress == old(s.posMousePress)
    {
      for i := 0 to |shapes|
        invariant forall j :: 0 <= j < i && shapes[j].posReal.Some? ==> shapes[j].posMousePress == shapes[j].posReal
        invariant forall s :: s in shapes && s.posReal.None? ==> s.posMousePress == old(s.posMousePress)
      {
        var shape := shapes[i];
        if shape.posReal.Some? {
          shape.posMousePress := shape.posReal;
        }
      }
      forall s | s in shapes && s.posReal.Some?
        ensures s.posMousePress == s.posReal
      {
        var j :| 0 <= j < |shapes| && shapes[j] == s;
      }
    }

    /** The second loop of the drag listener: every shape with a real
        position is put at its press position plus the offset. The first
        positioned shape with no press position throws (`thrown`); the
        shapes before it have been moved. */
    method MoveFromPress(diff: Pair) returns (thrown: bool)
      modifies shapes`posReal
      ensures thrown <==> old(Unpressed(shapes)) < |shapes|
      ensures !thrown ==> forall s :: s in shapes && s.posReal.Some? ==>
        s.posMousePress.Some? && s.posReal == Some(Add(s.posMousePress.value, diff))
      ensures forall j :: 0 <= j < old(Unpressed(shapes)) && shapes[j].posReal.Some? ==>
        shapes[j].posMousePress.Some? && shapes[j].posReal == Some(Add(shapes[j].posMousePress.value, diff))
      ensures Distinct(shapes) ==>
        forall j :: old(Unpressed(shapes)) <= j < |shapes| ==> shapes[j].posReal == old(shapes[j].posReal)
      ensures forall s :: s in shapes ==> s.posReal.Some? == old(s.posReal.Some?)
    {
      ghost var n := Unpressed(shapes);
      for i := 0 to |shapes|
        invariant i <= n
        invariant forall j :: 0 <= j < i && shapes[j].posReal.Some? ==>
          shapes[j].posMousePress.Some? && shapes[j].posReal == Some(Add(shapes[j].posMousePress.value, diff))
        invariant Distinct(shapes) ==> forall j :: i <= j < |shapes| ==> shapes[j].posReal == old(shapes[j].posReal)
        invariant forall s :: s in shapes ==> s.posReal.Some? == old(s.posReal.Some?)
      {
        var shape := shapes[i];
        if shape.posReal.Some? {
          if shape.posMousePress.None? {
            return true;
          }
          shape.posReal := Some(Add(shape.posMousePress.value, diff));
        }
      }
      thrown := false;
      forall s | s in shapes && s.posReal.Some?
        ensures s.posReal == Some(Add(s.posMousePress.value, diff))
      {
        var j :| 0 <= j < |shapes| && shapes[j] == s;
      }
    }

    /** The scroll listener: while nothing is being rotated, one zoom step
        clamped at the zoom limits. */
    method Scroll(deltaY: real, rotating: bool)
      requires !rotating ==> zoomFactor != 0.0
      modifies this`zoom
      ensures rotating ==> zoom == old(zoom)
      ensures !rotating ==> zoom == Viewport.ZoomStep(old(zoom), zoomFactor, zoomLimits, deltaY)
    {
      if !rotating {
        if deltaY < 0.0 {
          if zoom / zoomFactor <= zoomLimits.left {
            zoom := zoomLimits.left;
          } else {
            zoom := zoom / zoomFactor;
          }
        } else {
          if zoom * zoomFactor >= zoomLimits.right {
            zoom := zoomLimits.right;
          } else {
            zoom := zoom * zoomFactor;
          }
        }
      }
    }
  }
}
