/**
 * Snap-point creation and refresh, shared by the node kinds. A kind names
 * its snap points by id when it creates them; a refresh walks the list in
 * order and moves each point to where its id says in the holder pane, and
 * stops with an error at the first id the kind does not know (the points
 * before it have been moved by then, the rest have not).
 *
 * Where a point lands is given by the kind as a function of the point
 * (`place`); for a box-shaped kind it is the midpoint of the local bounds'
 * two corners, each shifted by the id's offset and taken to the parent
 * pane by `localToParent`, which is a parameter.
 */
module Snaps {
  import opened Common
  import Nodes

  type SnapPoint = Nodes.SnapPoint

  /** `snapPoint.setTranslateX/Y(pos)`. */
  function Moved(sp: SnapPoint, pos: Pair): (r: SnapPoint)
    ensures r.id == sp.id && r.pos == sp.pos && r.translate == pos
  {
    sp.(translate := pos)
  }

  /** Every point of `sps` has a known id. */
  predicate AllPlaced(sps: seq<SnapPoint>, place: SnapPoint -> Option<Pair>)
  {
    forall i :: 0 <= i < |sps| ==> place(sps[i]).Some?
  }

  /** The list after a refresh: each point up to the first unknown id is
      moved to its place, and from that one on nothing changes. */
  function Refreshed(sps: seq<SnapPoint>, place: SnapPoint -> Option<Pair>): (r: seq<SnapPoint>)
    ensures |r| == |sps|
    ensures forall i :: 0 <= i < |sps| ==> r[i].id == sps[i].id && r[i].pos == sps[i].pos
    decreases |sps|
  {
    if sps == [] then []
    else
      var p := place(sps[0]);
      if p.None? then sps
      else [Moved(sps[0], p.value)] + Refreshed(sps[1..], place)
  }

  /** When every id is known, each point ends at its own place. */
  lemma {:induction false} RefreshedPlacesAll(sps: seq<SnapPoint>, place: SnapPoint -> Option<Pair>)
    requires AllPlaced(sps, place)
    ensures forall i :: 0 <= i < |sps| ==> Refreshed(sps, place)[i].translate == place(sps[i]).value
    decreases |sps|
  {
    if sps != [] {
      assert AllPlaced(sps[1..], place) by {
        forall i | 0 <= i < |sps[1..]| ensures place(sps[1..][i]).Some? {
          assert sps[1..][i] == sps[i + 1];
        }
      }
      RefreshedPlacesAll(sps[1..], place);
      forall i | 1 <= i < |sps| ensures Refreshed(sps, place)[i].translate == place(sps[i]).value {
        assert Refreshed(sps, place)[i] == Refreshed(sps[1..], place)[i - 1];
        assert sps[1..][i - 1] == sps[i];
      }
    }
  }

  /** A refresh stops at the first unknown id k: points before k are at
      their places and points from k on keep their old translate. */
  lemma RefreshedStopsAtUnknown(sps: seq<SnapPoint>, place: SnapPoint -> Option<Pair>, k: nat)
    requires k < |sps| && place(sps[k]).None? && AllPlaced(sps[..k], place)
    ensures Refreshed(sps, place)[k..] == sps[k..]
    ensures forall i :: 0 <= i < k ==> Refreshed(sps, place)[i].translate == place(sps[i]).value
  {
    var a, b := sps[..k], sps[k..];
    assert sps == a + b;
    RefreshedSplit(a, b, place);
    assert b[0] == sps[k];
    assert Refreshed(b, place) == b;
    RefreshedPlacesAll(a, place);
    var r := Refreshed(sps, place);
    assert r == Refreshed(a, place) + b;
    assert r[k..] == b;
    forall i | 0 <= i < k ensures r[i].translate == place(sps[i]).value {
      assert r[i] == Refreshed(a, place)[i];
      assert a[i] == sps[i];
    }
  }

  /** Refreshing a known prefix and then the rest is refreshing the whole. */
  lemma {:induction false} RefreshedSplit(a: seq<SnapPoint>, b: seq<SnapPoint>, place: SnapPoint -> Option<Pair>)
    requires AllPlaced(a, place)
    ensures Refreshed(a + b, place) == Refreshed(a, place) + Refreshed(b, place)
    decreases |a|
  {
    if a != [] {
      assert (a + b)[0] == a[0];
      assert (a + b)[1..] == a[1..] + b;
      assert AllPlaced(a[1..], place) by {
        forall i | 0 <= i < |a[1..]| ensures place(a[1..][i]).Some? {
          assert a[1..][i] == a[i + 1];
        }
      }
      assert place(a[0]).Some?;
      RefreshedSplit(a[1..], b, place);
      var m := Moved(a[0], place(a[0]).value);
      calc {
        Refreshed(a + b, place);
        [m] + Refreshed((a + b)[1..], place);
        [m] + Refreshed(a[1..] + b, place);
        [m] + (Refreshed(a[1..], place) + Refreshed(b, place));
        ([m] + Refreshed(a[1..], place)) + Refreshed(b, place);
        Refreshed(a, place) + Refreshed(b, place);
      }
    } else {
      assert a + b == b;
    }
  }

  /** `SnapPointsRefresh`: the loop over the node's snap points. `ok` is
      false where the source throws on an unknown id. */
  method Refresh(node: Nodes.EDANode, place: SnapPoint -> Option<Pair>) returns (ok: bool)
    modifies node`snapPoints
    ensures ok == AllPlaced(old(node.snapPoints), place)
    ensures node.snapPoints == Refreshed(old(node.snapPoints), place)
  {
    var sps := node.snapPoints;
    var cur := sps;
    var i := 0;
    while i < |sps|
      invariant 0 <= i <= |sps|
      invariant AllPlaced(sps[..i], place)
      invariant cur == Refreshed(sps[..i], place) + sps[i..]
    {
      var p := place(sps[i]);
      if p.None? {
        RefreshedSplit(sps[..i], sps[i..], place);
        assert sps[..i] + sps[i..] == sps;
        node.snapPoints := cur;
        return false;
      }
      cur := cur[i := Moved(sps[i], p.value)];
      PlaceNext(sps, place, i, p.value);
      i := i + 1;
    }
    assert sps[..i] == sps;
    node.snapPoints := cur;
    ok := true;
  }

  /** One step of the refresh loop: moving point i extends the refreshed
      prefix by one. */
  lemma PlaceNext(sps: seq<SnapPoint>, place: SnapPoint -> Option<Pair>, i: nat, p: Pair)
    requires i < |sps| && AllPlaced(sps[..i], place) && place(sps[i]) == Some(p)
    ensures AllPlaced(sps[..i + 1], place)
    ensures (Refreshed(sps[..i], place) + sps[i..])[i := Moved(sps[i], p)] == Refreshed(sps[..i + 1], place) + sps[i + 1..]
  {
    assert sps[..i + 1] == sps[..i] + [sps[i]];
    RefreshedSplit(sps[..i], [sps[i]], place);
    var next := sps[..i + 1];
    assert AllPlaced(next, place) by {
      forall k | 0 <= k < |next| ensures place(next[k]).Some? {
        if k < i { assert next[k] == sps[..i][k]; }
      }
    }
  }

  /** Snap points created at the origin with the given ids, in order. */
  function AtOrigin(ids: seq<string>): (r: seq<SnapPoint>)
    ensures |r| == |ids|
    ensures forall i :: 0 <= i < |ids| ==> r[i] == Nodes.NewSnapPoint(ids[i], Pair(0.0, 0.0))
  {
    seq(|ids|, i requires 0 <= i < |ids| => Nodes.NewSnapPoint(ids[i], Pair(0.0, 0.0)))
  }

  /** One `snapManual` point per given position, in order. */
  function Manual(positions: seq<Pair>): (r: seq<SnapPoint>)
    ensures |r| == |positions|
    ensures forall i :: 0 <= i < |positions| ==> r[i] == Nodes.NewSnapPoint(MANUAL, positions[i])
  {
    seq(|positions|, i requires 0 <= i < |positions| => Nodes.NewSnapPoint(MANUAL, positions[i]))
  }

  const MANUAL: string := "snapManual"

  /** Where the points currently are, in order (what a clone passes on). */
  function Translates(sps: seq<SnapPoint>): (r: seq<Pair>)
    ensures |r| == |sps|
    ensures forall i :: 0 <= i < |sps| ==> r[i] == sps[i].translate
  {
    seq(|sps|, i requires 0 <= i < |sps| => sps[i].translate)
  }

  /** The nine points of a box-shaped kind, row by row from the top left. */
  const BOX_IDS: seq<string> := ["snapTopLeft", "snapTopCenter", "snapTopRight",
                                 "snapLeft", "snapCenter", "snapRight",
                                 "snapBottomLeft", "snapBottomCenter", "snapBottomRight"]

  /** The offset of a box id from the middle of the bounds, in halves of
      the width and height: -1, 0 or 1 on each axis. */
  function BoxOffset(id: string): (r: Option<(int, int)>)
    ensures r.Some? <==> id in BOX_IDS
  {
    if id == "snapTopLeft" then Some((-1, -1))
    else if id == "snapTopCenter" then Some((0, -1))
    else if id == "snapTopRight" then Some((1, -1))
    else if id == "snapLeft" then Some((-1, 0))
    else if id == "snapCenter" then Some((0, 0))
    else if id == "snapRight" then Some((1, 0))
    else if id == "snapBottomLeft" then Some((-1, 1))
    else if id == "snapBottomCenter" then Some((0, 1))
    else if id == "snapBottomRight" then Some((1, 1))
    else None
  }

  /** `BoundsPosToHolderPane(offset)`: the midpoint of the two corners of
      the local bounds, each shifted by the offset and taken to the
      parent. */
  function BoundsPosToHolderPane(local: Nodes.Bounds, toParent: Pair -> Pair, offset: Pair): Pair
  {
    var l := toParent(Pair(local.minX + offset.left, local.minY + offset.right));
    var h := toParent(Pair(local.maxX + offset.left, local.maxY + offset.right));
    Pair((l.left + h.left) / 2.0, (l.right + h.right) / 2.0)
  }

  /** Where a box id lands: the offset is half the bounds' width and height
      times the id's direction. */
  function BoxPlace(local: Nodes.Bounds, toParent: Pair -> Pair, sp: SnapPoint): (r: Option<Pair>)
    ensures r.Some? <==> sp.id in BOX_IDS
  {
    var d := BoxOffset(sp.id);
    if d.None? then None
    else Some(BoundsPosToHolderPane(local, toParent, Scaled(local, d.value)))
  }

  /** A direction in halves of the bounds' width and height, as a distance. */
  function Scaled(local: Nodes.Bounds, d: (int, int)): Pair
  {
    Pair(d.0 as real * (local.maxX - local.minX) / 2.0, d.1 as real * (local.maxY - local.minY) / 2.0)
  }

  /** The refresh rule of a box-shaped kind for the given local bounds and
      transform. */
  function BoxPlacer(local: Nodes.Bounds, toParent: Pair -> Pair): (f: SnapPoint -> Option<Pair>)
    ensures forall sp :: f(sp) == BoxPlace(local, toParent, sp)
  {
    (sp: SnapPoint) => BoxPlace(local, toParent, sp)
  }

  /** A transform that only translates, as for an unrotated, unscaled
      shape. */
  ghost predicate Translation(toParent: Pair -> Pair, t: Pair)
  {
    forall p :: toParent(p) == Add(p, t)
  }

  /** For an unrotated shape, the nine box points sit on its bounds moved
      by the translate: the top-left one on the top-left corner, the centre
      one in the middle, the bottom-right one on the bottom-right corner,
      and the others between them. */
  lemma BoxPlaceOnBounds(local: Nodes.Bounds, toParent: Pair -> Pair, t: Pair, sp: SnapPoint)
    requires Translation(toParent, t) && sp.id in BOX_IDS
    ensures var d := BoxOffset(sp.id).value;
      var w, h := local.maxX - local.minX, local.maxY - local.minY;
      BoxPlace(local, toParent, sp).Some? &&
      BoxPlace(local, toParent, sp).value ==
        Pair((local.minX + local.maxX) / 2.0 + d.0 as real * w / 2.0 + t.left,
             (local.minY + local.maxY) / 2.0 + d.1 as real * h / 2.0 + t.right)
  {
    var d := BoxOffset(sp.id).value;
    var off := Scaled(local, d);
    var l := Pair(local.minX + off.left, local.minY + off.right);
    var u := Pair(local.maxX + off.left, local.maxY + off.right);
    assert BoxPlace(local, toParent, sp).value == BoundsPosToHolderPane(local, toParent, off);
    assert toParent(l) == Add(l, t);
    assert toParent(u) == Add(u, t);
  }

  /** The two ends of the nine: top-left is the bounds' minimum corner and
      bottom-right the maximum corner, both moved by the translate. */
  lemma BoxCornersOnBounds(local: Nodes.Bounds, toParent: Pair -> Pair, t: Pair)
    requires Translation(toParent, t)
    ensures BoxPlace(local, toParent, Nodes.NewSnapPoint("snapTopLeft", Pair(0.0, 0.0))).value ==
      Pair(local.minX + t.left, local.minY + t.right)
    ensures BoxPlace(local, toParent, Nodes.NewSnapPoint("snapBottomRight", Pair(0.0, 0.0))).value ==
      Pair(local.maxX + t.left, local.maxY + t.right)
  {
    BoxPlaceOnBounds(local, toParent, t, Nodes.NewSnapPoint("snapTopLeft", Pair(0.0, 0.0)));
    BoxPlaceOnBounds(local, toParent, t, Nodes.NewSnapPoint("snapBottomRight", Pair(0.0, 0.0)));
  }

  /** A `snapManual` point lands on its own position taken to the parent. */
  function ManualPlace(toParent: Pair -> Pair, sp: SnapPoint): (r: Option<Pair>)
    ensures r.Some? <==> sp.id == MANUAL
  {
    if sp.id == MANUAL then Some(toParent(sp.pos)) else None
  }
}
