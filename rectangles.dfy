/**
 * `EDARectangle`: a node wrapping a JavaFX rectangle. The panel shows the
 * border width, the width and the height in tenths of the stored values.
 * In the footprint editor the rectangle's JavaFX id is its PCB layer, the
 * border takes the layer colour, and the fill is either the layer colour
 * or TRANSPARENT.
 */
module Rectangles {
  import opened Common
  import Colors
  import Nodes
  import Snaps
  import opened Props

  class EDARectangle {
    const node: Nodes.EDANode
    var width: real
    var height: real
    var strokeWidth: real
    var fill: Colors.Color
    var stroke: Colors.Color
    /** The rectangle's JavaFX id, which holds its PCB layer. */
    var layer: string

    /** A non-passive rectangle built with `createSnapPoints` gets the nine
        box snap points; the highlight and selection shapes are drawing and
        not part of the model. */
    constructor (id: string, name: string, width: real, height: real, strokeWidth: real,
                 fill: Colors.Color, stroke: Colors.Color, layer: string,
                 translate: Pair, rotate: real, createSnapPoints: bool, passive: bool, editor: Nodes.Editor)
      ensures node.id == id && node.name == name && node.passive == passive && node.editor == editor
      ensures node.translate == translate && node.rotate == rotate
      ensures !node.highlighted && !node.highlightedMouse && !node.highlightedBox && !node.selected
      ensures node.mousePressPos.None? && fresh(node)
      ensures node.snapPoints == if !passive && createSnapPoints then Snaps.AtOrigin(Snaps.BOX_IDS) else []
      ensures this.width == width && this.height == height && this.strokeWidth == strokeWidth
      ensures this.fill == fill && this.stroke == stroke && this.layer == layer
    {
      var n := new Nodes.EDANode(id, name, passive, editor, translate, rotate);
      if !passive && createSnapPoints {
        n.snapPoints := Snaps.AtOrigin(Snaps.BOX_IDS);
      }
      node := n;
      this.width, this.height, this.strokeWidth := width, height, strokeWidth;
      this.fill, this.stroke, this.layer := fill, stroke, layer;
    }

    /** `Rotate`: a selected rectangle turns ten degrees with the scroll's
        sign; an unselected one does not move. */
    method Rotate(deltaY: real)
      modifies node`rotate
      ensures node.selected ==> node.rotate == old(node.rotate) + RotateStep(deltaY)
      ensures !node.selected ==> node.rotate == old(node.rotate)
    {
      if !node.selected {
        return;
      }
      var angle := 10.0;
      if deltaY < 0.0 {
        angle := -10.0;
      }
      node.rotate := node.rotate + angle;
    }

    /** `SnapPointsCreate`: the nine box points, at the origin. */
    method SnapPointsCreate()
      modifies node`snapPoints
      ensures node.snapPoints == old(node.snapPoints) + Snaps.AtOrigin(Snaps.BOX_IDS)
    {
      node.snapPoints := node.snapPoints + Snaps.AtOrigin(Snaps.BOX_IDS);
    }

    /** `SnapPointsRefresh` for the given local bounds and `localToParent`;
        `ok` is false where the source throws on an id that is not one of
        the nine. */
    method SnapPointsRefresh(local: Nodes.Bounds, toParent: Pair -> Pair) returns (ok: bool)
      modifies node`snapPoints
      ensures ok == Snaps.AllPlaced(old(node.snapPoints), Snaps.BoxPlacer(local, toParent))
      ensures node.snapPoints == Snaps.Refreshed(old(node.snapPoints), Snaps.BoxPlacer(local, toParent))
    {
      ok := Snaps.Refresh(node, Snaps.BoxPlacer(local, toParent));
    }

    /** `PropsLoadGlobal`: a selected rectangle reports its name, its
        position relative to the pane's centre and its rotation. */
    method PropsLoadGlobal(lists: Lists, paneSize: Pair)
      modifies lists`names, lists`posX, lists`posY, lists`rots
      ensures lists.names == old(lists.names) + Added(node.selected, node.name)
      ensures lists.posX == old(lists.posX) + Added(node.selected, ShownPos(node.translate.left, paneSize.left))
      ensures lists.posY == old(lists.posY) + Added(node.selected, ShownPos(node.translate.right, paneSize.right))
      ensures lists.rots == old(lists.rots) + Added(node.selected, node.rotate)
    {
      if !node.selected {
        return;
      }
      lists.names := lists.names + [node.name];
      lists.posX := lists.posX + [node.translate.left - paneSize.left / 2.0];
      lists.posY := lists.posY + [node.translate.right - paneSize.right / 2.0];
      lists.rots := lists.rots + [node.rotate];
    }

    /** `PropsApplyGlobal`: the strict name rule, a grid-snapped position
        and a raw rotation, messages in that order. */
    method PropsApplyGlobal(box: PropsBox, env: Env) returns (status: seq<Status>)
      modifies node`name, node`translate, node`rotate
      ensures !node.selected ==> node.name == old(node.name) && node.translate == old(node.translate) &&
                                 node.rotate == old(node.rotate) && status == []
      ensures node.selected ==>
        var n := ApplyName(old(node.name), box.name);
        var x := ApplyNumber(old(node.translate.left), FirstOf(box.pos), PlacePos(env.snap, env.paneSize.left), PosX);
        var y := ApplyNumber(old(node.translate.right), SecondOf(box.pos), PlacePos(env.snap, env.paneSize.right), PosY);
        var r := ApplyNumber(old(node.rotate), box.rot, Identity(), Rotation);
        node.name == n.value && node.translate == Pair(x.value, y.value) && node.rotate == r.value &&
        status == Msg(n.status) + Msg(x.status) + Msg(y.status) + Msg(r.status)
    {
      if !node.selected {
        return [];
      }
      var n := ApplyName(node.name, box.name);
      var x := ApplyNumber(node.translate.left, FirstOf(box.pos), PlacePos(env.snap, env.paneSize.left), PosX);
      var y := ApplyNumber(node.translate.right, SecondOf(box.pos), PlacePos(env.snap, env.paneSize.right), PosY);
      var r := ApplyNumber(node.rotate, box.rot, Identity(), Rotation);
      node.name := n.value;
      node.translate := Pair(x.value, y.value);
      node.rotate := r.value;
      status := Msg(n.status) + Msg(x.status) + Msg(y.status) + Msg(r.status);
    }

    /** `PropsLoadSymbol`: fill, border width, border colour, width and
        height, the lengths in panel units (a tenth of the stored value). */
    method PropsLoadSymbol(lists: Lists) returns (loaded: bool)
      modifies lists`colors, lists`strokeWidths, lists`strokes, lists`rectsWidths, lists`rectsHeights
      ensures loaded == node.selected
      ensures lists.colors == old(lists.colors) + Added(loaded, fill)
      ensures lists.strokeWidths == old(lists.strokeWidths) + Added(loaded, strokeWidth / 10.0)
      ensures lists.strokes == old(lists.strokes) + Added(loaded, stroke)
      ensures lists.rectsWidths == old(lists.rectsWidths) + Added(loaded, width / 10.0)
      ensures lists.rectsHeights == old(lists.rectsHeights) + Added(loaded, height / 10.0)
    {
      if !node.selected {
        return false;
      }
      lists.colors := lists.colors + [fill];
      lists.strokeWidths := lists.strokeWidths + [strokeWidth / 10.0];
      lists.strokes := lists.strokes + [stroke];
      lists.rectsWidths := lists.rectsWidths + [width / 10.0];
      lists.rectsHeights := lists.rectsHeights + [height / 10.0];
      loaded := true;
    }

    /** `PropsApplySymbol`: the fill and border colours through the picker
        rule, and the border width, width and height each accepted inside
        its limits and stored at ten times the entry. */
    method PropsApplySymbol(box: PropsBox, env: Env) returns (status: seq<Status>)
      requires ValidColors(box)
      modifies this`fill, this`strokeWidth, this`stroke, this`width, this`height
      ensures !node.selected ==> fill == old(fill) && strokeWidth == old(strokeWidth) && stroke == old(stroke) &&
                                 width == old(width) && height == old(height) && status == []
      ensures node.selected ==>
        var f := ApplyColor(old(fill), box.color, ShapeColor);
        var b := ApplyRanged(old(strokeWidth), box.strokeWidth, env.limits.symbolBorder, 10.0, BorderWidth);
        var s := ApplyColor(old(stroke), box.strokeColor, BorderColor);
        var w := ApplyRanged(old(width), FirstOf(box.rect), env.limits.rectWidth, 10.0, RectWidth);
        var h := ApplyRanged(old(height), SecondOf(box.rect), env.limits.rectHeight, 10.0, RectHeight);
        fill == f.value && strokeWidth == b.value && stroke == s.value && width == w.value && height == h.value &&
        status == Msg(f.status) + Msg(b.status) + Msg(s.status) + Msg(w.status) + Msg(h.status)
    {
      if !node.selected {
        return [];
      }
      var f := ApplyColor(fill, box.color, ShapeColor);
      var b := ApplyRanged(strokeWidth, box.strokeWidth, env.limits.symbolBorder, 10.0, BorderWidth);
      var s := ApplyColor(stroke, box.strokeColor, BorderColor);
      var w := ApplyRanged(width, FirstOf(box.rect), env.limits.rectWidth, 10.0, RectWidth);
      var h := ApplyRanged(height, SecondOf(box.rect), env.limits.rectHeight, 10.0, RectHeight);
      fill, strokeWidth, stroke, width, height := f.value, b.value, s.value, w.value, h.value;
      status := Msg(f.status) + Msg(b.status) + Msg(s.status) + Msg(w.status) + Msg(h.status);
    }

    /** `PropsLoadFootprint` (and `PropsLoadPCB`, which is the same): the
        layer, whether the rectangle is filled, and the border width, width
        and height in panel units. */
    method PropsLoadFootprint(lists: Lists) returns (loaded: bool)
      modifies lists`layers, lists`fills, lists`strokeWidths, lists`rectsWidths, lists`rectsHeights
      ensures loaded == node.selected
      ensures lists.layers == old(lists.layers) + Added(loaded, layer)
      ensures lists.fills == old(lists.fills) + Added(loaded, fill != Colors.TRANSPARENT)
      ensures lists.strokeWidths == old(lists.strokeWidths) + Added(loaded, strokeWidth / 10.0)
      ensures lists.rectsWidths == old(lists.rectsWidths) + Added(loaded, width / 10.0)
      ensures lists.rectsHeights == old(lists.rectsHeights) + Added(loaded, height / 10.0)
    {
      if !node.selected {
        return false;
      }
      lists.layers := lists.layers + [layer];
      lists.fills := lists.fills + [fill != Colors.TRANSPARENT];
      lists.strokeWidths := lists.strokeWidths + [strokeWidth / 10.0];
      lists.rectsWidths := lists.rectsWidths + [width / 10.0];
      lists.rectsHeights := lists.rectsHeights + [height / 10.0];
      loaded := true;
    }

    /** `PropsApplyFootprint` (and `PropsApplyPCB`, which is the same): a
        PCB layer moves the rectangle to it, colouring the border and
        recolouring a fill that is not transparent; then the border width;
        then the fill checkbox, against the (possibly new) layer's colour;
        then width and height. */
    method PropsApplyFootprint(box: PropsBox, env: Env) returns (status: seq<Status>)
      modifies this`layer, this`fill, this`strokeWidth, this`stroke, this`width, this`height
      ensures !node.selected ==> layer == old(layer) && fill == old(fill) && strokeWidth == old(strokeWidth) &&
                                 stroke == old(stroke) && width == old(width) && height == old(height) && status == []
      ensures node.selected ==>
        var l := ChooseLayer(env.layers, box.layer);
        var id := if l.value.Some? then l.value.value else old(layer);
        var b := ApplyRanged(old(strokeWidth), box.strokeWidth, env.limits.symbolBorder, 10.0, BorderWidth);
        var w := ApplyRanged(old(width), FirstOf(box.rect), env.limits.rectWidth, 10.0, RectWidth);
        var h := ApplyRanged(old(height), SecondOf(box.rect), env.limits.rectHeight, 10.0, RectHeight);
        layer == id &&
        stroke == (if l.value.Some? then env.layerColor(id) else old(stroke)) &&
        fill == (if box.fill.Some? then FillChecked(box.fill.value, env.layerColor(id))
                 else if l.value.Some? then Recolored(old(fill), env.layerColor(id))
                 else old(fill)) &&
        strokeWidth == b.value && width == w.value && height == h.value &&
        status == Msg(l.status) + Msg(b.status) + Msg(w.status) + Msg(h.status)
    {
      if !node.selected {
        return [];
      }
      var l := ChooseLayer(env.layers, box.layer);
      if l.value.Some? {
        layer := l.value.value;
        stroke := env.layerColor(layer);
        fill := Recolored(fill, env.layerColor(layer));
      }
      var b := ApplyRanged(strokeWidth, box.strokeWidth, env.limits.symbolBorder, 10.0, BorderWidth);
      strokeWidth := b.value;
      if box.fill.Some? {
        fill := FillChecked(box.fill.value, env.layerColor(layer));
      }
      var w := ApplyRanged(width, FirstOf(box.rect), env.limits.rectWidth, 10.0, RectWidth);
      var h := ApplyRanged(height, SecondOf(box.rect), env.limits.rectHeight, 10.0, RectHeight);
      width, height := w.value, h.value;
      status := Msg(l.status) + Msg(b.status) + Msg(w.status) + Msg(h.status);
    }
  }
}
