/**
 * `EDACircle`: a node wrapping a JavaFX circle. Every non-passive circle
 * gets the nine box snap points. Unlike the other shapes its name takes any
 * non-empty text, its position is not snapped to the grid, its fill colour
 * is a global property, and its radius and border width are shown as
 * stored.
 */
module Circles {
  import opened Common
  import Colors
  import Nodes
  import Snaps
  import opened Props

  class EDACircle {
    const node: Nodes.EDANode
    var radius: real
    var strokeWidth: real
    var fill: Colors.Color
    var stroke: Colors.Color

    /** A non-passive circle always gets the nine box snap points. */
    constructor (id: string, name: string, radius: real, strokeWidth: real, fill: Colors.Color, stroke: Colors.Color,
                 translate: Pair, rotate: real, passive: bool, editor: Nodes.Editor)
      ensures node.id == id && node.name == name && node.passive == passive && node.editor == editor
      ensures node.translate == translate && node.rotate == rotate
      ensures !node.highlighted && !node.highlightedMouse && !node.highlightedBox && !node.selected
      ensures node.mousePressPos.None? && fresh(node)
      ensures node.snapPoints == if !passive then Snaps.AtOrigin(Snaps.BOX_IDS) else []
      ensures this.radius == radius && this.strokeWidth == strokeWidth && this.fill == fill && this.stroke == stroke
    {
      var n := new Nodes.EDANode(id, name, passive, editor, translate, rotate);
      if !passive {
        n.snapPoints := Snaps.AtOrigin(Snaps.BOX_IDS);
      }
      node := n;
      this.radius, this.strokeWidth, this.fill, this.stroke := radius, strokeWidth, fill, stroke;
    }

    /** `Rotate`: a selected circle turns ten degrees with the scroll's
        sign; an unselected one does not move. */
    method Rotate(deltaY: real)
      modifies node`rotate
      ensures node.selected ==> node.rotate == old(node.rotate) + RotateStep(deltaY)
      ensures !node.selected ==> node.rotate == old(node.rotate)
    {
      if !node.selected {
        return;
      }
      var angle := 10.0;
      if deltaY < 0.0 {
        angle := -10.0;
      }
      node.rotate := node.rotate + angle;
    }

    /** `SnapPointsCreate`: the nine box points, at the origin. */
    method SnapPointsCreate()
      modifies node`snapPoints
      ensures node.snapPoints == old(node.snapPoints) + Snaps.AtOrigin(Snaps.BOX_IDS)
    {
      node.snapPoints := node.snapPoints + Snaps.AtOrigin(Snaps.BOX_IDS);
    }

    /** `SnapPointsRefresh` for the given local bounds and `localToParent`;
        `ok` is false where the source throws on an id that is not one of
        the nine. */
    method SnapPointsRefresh(local: Nodes.Bounds, toParent: Pair -> Pair) returns (ok: bool)
      modifies node`snapPoints
      ensures ok == Snaps.AllPlaced(old(node.snapPoints), Snaps.BoxPlacer(local, toParent))
      ensures node.snapPoints == Snaps.Refreshed(old(node.snapPoints), Snaps.BoxPlacer(local, toParent))
    {
      ok := Snaps.Refresh(node, Snaps.BoxPlacer(local, toParent));
    }

    /** `PropsLoadGlobal`: name, position relative to the pane's centre,
        rotation, and also the fill colour. */
    method PropsLoadGlobal(lists: Lists, paneSize: Pair)
      modifies lists`names, lists`posX, lists`posY, lists`rots, lists`colors
      ensures lists.names == old(lists.names) + Added(node.selected, node.name)
      ensures lists.posX == old(lists.posX) + Added(node.selected, ShownPos(node.translate.left, paneSize.left))
      ensures lists.posY == old(lists.posY) + Added(node.selected, ShownPos(node.translate.right, paneSize.right))
      ensures lists.rots == old(lists.rots) + Added(node.selected, node.rotate)
      ensures lists.colors == old(lists.colors) + Added(node.selected, fill)
    {
      if !node.selected {
        return;
      }
      lists.names := lists.names + [node.name];
      lists.posX := lists.posX + [node.translate.left - paneSize.left / 2.0];
      lists.posY := lists.posY + [node.translate.right - paneSize.right / 2.0];
      lists.rots := lists.rots + [node.rotate];
      lists.colors := lists.colors + [fill];
    }

    /** `PropsApplyGlobal`: any non-empty name, the position as entered
        (no grid snap), the rotation, then the fill colour. */
    method PropsApplyGlobal(box: PropsBox, env: Env) returns (status: seq<Status>)
      requires ValidColors(box)
      modifies node`name, node`translate, node`rotate, this`fill
      ensures !node.selected ==> node.name == old(node.name) && node.translate == old(node.translate) &&
                                 node.rotate == old(node.rotate) && fill == old(fill) && status == []
      ensures node.selected ==>
        var n := ApplyNameAnyText(old(node.name), box.name);
        var x := ApplyNumber(old(node.translate.left), FirstOf(box.pos), PlacePos(Identity(), env.paneSize.left), PosX);
        var y := ApplyNumber(old(node.translate.right), SecondOf(box.pos), PlacePos(Identity(), env.paneSize.right), PosY);
        var r := ApplyNumber(old(node.rotate), box.rot, Identity(), Rotation);
        var c := ApplyColor(old(fill), box.color, ShapeColor);
        node.name == n.value && node.translate == Pair(x.value, y.value) && node.rotate == r.value && fill == c.value &&
        status == Msg(n.status) + Msg(x.status) + Msg(y.status) + Msg(r.status) + Msg(c.status)
    {
      if !node.selected {
        return [];
      }
      var n := ApplyNameAnyText(node.name, box.name);
      var x := ApplyNumber(node.translate.left, FirstOf(box.pos), PlacePos(Identity(), env.paneSize.left), PosX);
      var y := ApplyNumber(node.translate.right, SecondOf(box.pos), PlacePos(Identity(), env.paneSize.right), PosY);
      var r := ApplyNumber(node.rotate, box.rot, Identity(), Rotation);
      var c := ApplyColor(fill, box.color, ShapeColor);
      node.name := n.value;
      node.translate := Pair(x.value, y.value);
      node.rotate := r.value;
      fill := c.value;
      status := Msg(n.status) + Msg(x.status) + Msg(y.status) + Msg(r.status) + Msg(c.status);
    }

    /** `PropsLoadSymbol`: radius, border width and border colour, as
        stored. */
    method PropsLoadSymbol(lists: Lists) returns (loaded: bool)
      modifies lists`circlesRadii, lists`strokeWidths, lists`strokes
      ensures loaded == node.selected
      ensures lists.circlesRadii == old(lists.circlesRadii) + Added(loaded, radius)
      ensures lists.strokeWidths == old(lists.strokeWidths) + Added(loaded, strokeWidth)
      ensures lists.strokes == old(lists.strokes) + Added(loaded, stroke)
    {
      if !node.selected {
        return false;
      }
      lists.circlesRadii := lists.circlesRadii + [radius];
      lists.strokeWidths := lists.strokeWidths + [strokeWidth];
      lists.strokes := lists.strokes + [stroke];
      loaded := true;
    }

    /** `PropsApplySymbol`: the radius inside the circle-radius limits and
        the border width inside the editor's border limits, both taken as
        entered, then the border colour. */
    method PropsApplySymbol(box: PropsBox, env: Env) returns (status: seq<Status>)
      requires ValidColors(box)
      modifies this`radius, this`strokeWidth, this`stroke
      ensures !node.selected ==> radius == old(radius) && strokeWidth == old(strokeWidth) && stroke == old(stroke) && status == []
      ensures node.selected ==>
        var d := ApplyRanged(old(radius), box.circleRadius, env.limits.circleRadius, 1.0, CircleRadius);
        var b := ApplyRanged(old(strokeWidth), box.strokeWidth, env.limits.border, 1.0, BorderWidth);
        var s := ApplyColor(old(stroke), box.strokeColor, BorderColor);
        radius == d.value && strokeWidth == b.value && stroke == s.value &&
        status == Msg(d.status) + Msg(b.status) + Msg(s.status)
    {
      if !node.selected {
        return [];
      }
      var d := ApplyRanged(radius, box.circleRadius, env.limits.circleRadius, 1.0, CircleRadius);
      var b := ApplyRanged(strokeWidth, box.strokeWidth, env.limits.border, 1.0, BorderWidth);
      var s := ApplyColor(stroke, box.strokeColor, BorderColor);
      radius, strokeWidth, stroke := d.value, b.value, s.value;
      status := Msg(d.status) + Msg(b.status) + Msg(s.status);
    }
  }
}
