/**
 * `EDALine`: a node wrapping a JavaFX line from `start` to `end` (in the
 * line's own coordinates). Lines do not rotate; their end point and width
 * are shown as stored, and their colour is the stroke.
 */
module Lines {
  import opened Common
  import Colors
  import Nodes
  import Snaps
  import opened Props

  /** The three snap points of a line, in creation order. */
  const LINE_IDS: seq<string> := ["snapStart", "snapMiddle", "snapEnd"]

  function Midpoint(a: Pair, b: Pair): Pair
  {
    Pair((a.left + b.left) / 2.0, (a.right + b.right) / 2.0)
  }

  /** Where a line's snap point lands: the start, the midpoint of start and
      end, or the end, taken to the parent; other ids are unknown. */
  function LinePlace(start: Pair, end: Pair, toParent: Pair -> Pair, sp: Snaps.SnapPoint): (r: Option<Pair>)
    ensures r.Some? <==> sp.id in LINE_IDS
    ensures sp.id == "snapStart" ==> r == Some(toParent(start))
    ensures sp.id == "snapEnd" ==> r == Some(toParent(end))
  {
    if sp.id == "snapStart" then Some(toParent(start))
    else if sp.id == "snapMiddle" then Some(toParent(Midpoint(start, end)))
    else if sp.id == "snapEnd" then Some(toParent(end))
    else None
  }

  function LinePlacer(start: Pair, end: Pair, toParent: Pair -> Pair): (f: Snaps.SnapPoint -> Option<Pair>)
    ensures forall sp :: f(sp) == LinePlace(start, end, toParent, sp)
  {
    (sp: Snaps.SnapPoint) => LinePlace(start, end, toParent, sp)
  }

  /** For a line that is only translated, the refreshed start point is the
      line's `GetSnapPos`, and the middle point lies halfway between the
      refreshed start and end. */
  lemma LineSnapsOnLine(start: Pair, end: Pair, toParent: Pair -> Pair, t: Pair)
    requires Snaps.Translation(toParent, t)
    ensures LinePlace(start, end, toParent, Nodes.NewSnapPoint("snapStart", Pair(0.0, 0.0))).value == Add(start, t)
    ensures LinePlace(start, end, toParent, Nodes.NewSnapPoint("snapMiddle", Pair(0.0, 0.0))).value ==
      Midpoint(LinePlace(start, end, toParent, Nodes.NewSnapPoint("snapStart", Pair(0.0, 0.0))).value,
               LinePlace(start, end, toParent, Nodes.NewSnapPoint("snapEnd", Pair(0.0, 0.0))).value)
  {
    assert toParent(start) == Add(start, t);
    assert toParent(end) == Add(end, t);
    assert toParent(Midpoint(start, end)) == Add(Midpoint(start, end), t);
  }

  class EDALine {
    const node: Nodes.EDANode
    var start: Pair
    var end: Pair
    var strokeWidth: real
    var stroke: Colors.Color
    /** The line's JavaFX id, which holds its PCB layer. */
    var layer: string

    /** A non-passive line built with `createSnapPoints` gets its three
        snap points. */
    constructor (id: string, name: string, start: Pair, end: Pair, strokeWidth: real,
                 stroke: Colors.Color, layer: string,
                 translate: Pair, rotate: real, createSnapPoints: bool, passive: bool, editor: Nodes.Editor)
      ensures node.id == id && node.name == name && node.passive == passive && node.editor == editor
      ensures node.translate == translate && node.rotate == rotate
      ensures !node.highlighted && !node.highlightedMouse && !node.highlightedBox && !node.selected
      ensures node.mousePressPos.None? && fresh(node)
      ensures node.snapPoints == if !passive && createSnapPoints then Snaps.AtOrigin(LINE_IDS) else []
      ensures this.start == start && this.end == end && this.strokeWidth == strokeWidth
      ensures this.stroke == stroke && this.layer == layer
    {
      var n := new Nodes.EDANode(id, name, passive, editor, translate, rotate);
      if !passive && createSnapPoints {
        n.snapPoints := Snaps.AtOrigin(LINE_IDS);
      }
      node := n;
      this.start, this.end, this.strokeWidth := start, end, strokeWidth;
      this.stroke, this.layer := stroke, layer;
    }

    /** `GetSnapPos`: the start point moved by the translate. */
    function GetSnapPos(): (p: Pair)
      reads this, node
      ensures p.left - node.translate.left == start.left && p.right - node.translate.right == start.right
    {
      Add(start, node.translate)
    }

    /** `Rotate` does nothing for a line. */
    method Rotate(deltaY: real)
      ensures node.rotate == old(node.rotate)
    {
    }

    /** `SnapPointsCreate`: start, middle and end, at the origin. */
    method SnapPointsCreate()
      modifies node`snapPoints
      ensures node.snapPoints == old(node.snapPoints) + Snaps.AtOrigin(LINE_IDS)
    {
      node.snapPoints := node.snapPoints + Snaps.AtOrigin(LINE_IDS);
    }

    /** `SnapPointsRefresh` for the given `localToParent`; `ok` is false
        where the source throws on an id that is not a line's. */
    method SnapPointsRefresh(toParent: Pair -> Pair) returns (ok: bool)
      modifies node`snapPoints
      ensures ok == Snaps.AllPlaced(old(node.snapPoints), LinePlacer(start, end, toParent))
      ensures node.snapPoints == Snaps.Refreshed(old(node.snapPoints), LinePlacer(start, end, toParent))
    {
      ok := Snaps.Refresh(node, LinePlacer(start, end, toParent));
    }

    /** `PropsLoadGlobal`: name and position; a line reports no rotation. */
    method PropsLoadGlobal(lists: Lists, paneSize: Pair)
      modifies lists`names, lists`posX, lists`posY
      ensures lists.names == old(lists.names) + Added(node.selected, node.name)
      ensures lists.posX == old(lists.posX) + Added(node.selected, ShownPos(node.translate.left, paneSize.left))
      ensures lists.posY == old(lists.posY) + Added(node.selected, ShownPos(node.translate.right, paneSize.right))
    {
      if !node.selected {
        return;
      }
      lists.names := lists.names + [node.name];
      lists.posX := lists.posX + [node.translate.left - paneSize.left / 2.0];
      lists.posY := lists.posY + [node.translate.right - paneSize.right / 2.0];
    }

    /** `PropsApplyGlobal`: the strict name rule and a grid-snapped
        position; the rotation box is ignored. */
    method PropsApplyGlobal(box: PropsBox, env: Env) returns (status: seq<Status>)
      modifies node`name, node`translate
      ensures !node.selected ==> node.name == old(node.name) && node.translate == old(node.translate) && status == []
      ensures node.selected ==>
        var n := ApplyName(old(node.name), box.name);
        var x := ApplyNumber(old(node.translate.left), FirstOf(box.pos), PlacePos(env.snap, env.paneSize.left), PosX);
        var y := ApplyNumber(old(node.translate.right), SecondOf(box.pos), PlacePos(env.snap, env.paneSize.right), PosY);
        node.name == n.value && node.translate == Pair(x.value, y.value) &&
        status == Msg(n.status) + Msg(x.status) + Msg(y.status)
    {
      if !node.selected {
        return [];
      }
      var n := ApplyName(node.name, box.name);
      var x := ApplyNumber(node.translate.left, FirstOf(box.pos), PlacePos(env.snap, env.paneSize.left), PosX);
      var y := ApplyNumber(node.translate.right, SecondOf(box.pos), PlacePos(env.snap, env.paneSize.right), PosY);
      node.name := n.value;
      node.translate := Pair(x.value, y.value);
      status := Msg(n.status) + Msg(x.status) + Msg(y.status);
    }

    /** `PropsLoadSymbol`: the colour (the stroke), the end point and the
        width, all as stored. */
    method PropsLoadSymbol(lists: Lists) returns (loaded: bool)
      modifies lists`colors, lists`lineEndPosX, lists`lineEndPosY, lists`lineWidths
      ensures loaded == node.selected
      ensures lists.colors == old(lists.colors) + Added(loaded, stroke)
      ensures lists.lineEndPosX == old(lists.lineEndPosX) + Added(loaded, end.left)
      ensures lists.lineEndPosY == old(lists.lineEndPosY) + Added(loaded, end.right)
      ensures lists.lineWidths == old(lists.lineWidths) + Added(loaded, strokeWidth)
    {
      if !node.selected {
        return false;
      }
      lists.colors := lists.colors + [stroke];
      lists.lineEndPosX := lists.lineEndPosX + [end.left];
      lists.lineEndPosY := lists.lineEndPosY + [end.right];
      lists.lineWidths := lists.lineWidths + [strokeWidth];
      loaded := true;
    }

    /** `PropsApplySymbol`: the colour picker sets the stroke; any number
        is taken as the end point; the width is taken as entered inside the
        line-width limits. */
    method PropsApplySymbol(box: PropsBox, env: Env) returns (status: seq<Status>)
      requires ValidColors(box)
      modifies this`stroke, this`end, this`strokeWidth
      ensures !node.selected ==> stroke == old(stroke) && end == old(end) && strokeWidth == old(strokeWidth) && status == []
      ensures node.selected ==>
        var c := ApplyColor(old(stroke), box.color, ShapeColor);
        var x := ApplyNumber(old(end.left), FirstOf(box.lineEndPoints), Identity(), LineEndX);
        var y := ApplyNumber(old(end.right), SecondOf(box.lineEndPoints), Identity(), LineEndY);
        var w := ApplyRanged(old(strokeWidth), box.lineWidth, env.limits.lineWidth, 1.0, LineWidth);
        stroke == c.value && end == Pair(x.value, y.value) && strokeWidth == w.value &&
        status == Msg(c.status) + Msg(x.status) + Msg(y.status) + Msg(w.status)
    {
      if !node.selected {
        return [];
      }
      var c := ApplyColor(stroke, box.color, ShapeColor);
      var x := ApplyNumber(end.left, FirstOf(box.lineEndPoints), Identity(), LineEndX);
      var y := ApplyNumber(end.right, SecondOf(box.lineEndPoints), Identity(), LineEndY);
      var w := ApplyRanged(strokeWidth, box.lineWidth, env.limits.lineWidth, 1.0, LineWidth);
      stroke, end, strokeWidth := c.value, Pair(x.value, y.value), w.value;
      status := Msg(c.status) + Msg(x.status) + Msg(y.status) + Msg(w.status);
    }

    /** `PropsLoadFootprint` (and `PropsLoadPCB`, which is the same): the
        layer, the end point and the width. */
    method PropsLoadFootprint(lists: Lists) returns (loaded: bool)
      modifies lists`layers, lists`lineEndPosX, lists`lineEndPosY, lists`lineWidths
      ensures loaded == node.selected
      ensures lists.layers == old(lists.layers) + Added(loaded, layer)
      ensures lists.lineEndPosX == old(lists.lineEndPosX) + Added(loaded, end.left)
      ensures lists.lineEndPosY == old(lists.lineEndPosY) + Added(loaded, end.right)
      ensures lists.lineWidths == old(lists.lineWidths) + Added(loaded, strokeWidth)
    {
      if !node.selected {
        return false;
      }
      lists.layers := lists.layers + [layer];
      lists.lineEndPosX := lists.lineEndPosX + [end.left];
      lists.lineEndPosY := lists.lineEndPosY + [end.right];
      lists.lineWidths := lists.lineWidths + [strokeWidth];
      loaded := true;
    }

    /** `PropsApplyFootprint` (and `PropsApplyPCB`, which is the same): a
        PCB layer moves the line to it and gives it the layer's colour; the
        end point and width follow the symbol rules. */
    method PropsApplyFootprint(box: PropsBox, env: Env) returns (status: seq<Status>)
      modifies this`layer, this`stroke, this`end, this`strokeWidth
      ensures !node.selected ==> layer == old(layer) && stroke == old(stroke) && end == old(end) &&
                                 strokeWidth == old(strokeWidth) && status == []
      ensures node.selected ==>
        var l := ChooseLayer(env.layers, box.layer);
        var x := ApplyNumber(old(end.left), FirstOf(box.lineEndPoints), Identity(), LineEndX);
        var y := ApplyNumber(old(end.right), SecondOf(box.lineEndPoints), Identity(), LineEndY);
        var w := ApplyRanged(old(strokeWidth), box.lineWidth, env.limits.lineWidth, 1.0, LineWidth);
        (l.value.Some? ==> layer == l.value.value && stroke == env.layerColor(layer)) &&
        (l.value.None? ==> layer == old(layer) && stroke == old(stroke)) &&
        end == Pair(x.value, y.value) && strokeWidth == w.value &&
        status == Msg(l.status) + Msg(x.status) + Msg(y.status) + Msg(w.status)
    {
      if !node.selected {
        return [];
      }
      var l := ChooseLayer(env.layers, box.layer);
      if l.value.Some? {
        layer := l.value.value;
        stroke := env.layerColor(layer);
      }
      var x := ApplyNumber(end.left, FirstOf(box.lineEndPoints), Identity(), LineEndX);
      var y := ApplyNumber(end.right, SecondOf(box.lineEndPoints), Identity(), LineEndY);
      var w := ApplyRanged(strokeWidth, box.lineWidth, env.limits.lineWidth, 1.0, LineWidth);
      end, strokeWidth := Pair(x.value, y.value), w.value;
      status := Msg(l.status) + Msg(x.status) + Msg(y.status) + Msg(w.status);
    }
  }
}
