/**
 * `EDAText`: a node wrapping a JavaFX text. Its colour is the fill; in the
 * footprint editor its JavaFX id is its PCB layer and the fill is that
 * layer's colour. Besides the nine box points its refresh also places
 * `snapManual` points at their own position.
 */
module Texts {
  import opened Common
  import Colors
  import Nodes
  import Snaps
  import opened Props

  /** Where a text's snap point lands: a box id as for a rectangle, a
      `snapManual` point at its own position taken to the parent. */
  function TextPlace(local: Nodes.Bounds, toParent: Pair -> Pair, sp: Snaps.SnapPoint): (r: Option<Pair>)
    ensures r.Some? <==> sp.id in Snaps.BOX_IDS || sp.id == Snaps.MANUAL
    ensures sp.id in Snaps.BOX_IDS ==> r == Snaps.BoxPlace(local, toParent, sp)
    ensures sp.id == Snaps.MANUAL ==> r == Some(toParent(sp.pos))
  {
    if sp.id in Snaps.BOX_IDS then Snaps.BoxPlace(local, toParent, sp)
    else Snaps.ManualPlace(toParent, sp)
  }

  function TextPlacer(local: Nodes.Bounds, toParent: Pair -> Pair): (f: Snaps.SnapPoint -> Option<Pair>)
    ensures forall sp :: f(sp) == TextPlace(local, toParent, sp)
  {
    (sp: Snaps.SnapPoint) => TextPlace(local, toParent, sp)
  }

  class EDAText {
    const node: Nodes.EDANode
    var text: string
    var fontSize: real
    var fill: Colors.Color
    /** The text's JavaFX id, which holds its PCB layer. */
    var layer: string

    /** A non-passive text built with `createSnapPoints` gets the nine box
        snap points. */
    constructor (id: string, name: string, text: string, fontSize: real, fill: Colors.Color, layer: string,
                 translate: Pair, rotate: real, createSnapPoints: bool, passive: bool, editor: Nodes.Editor)
      ensures node.id == id && node.name == name && node.passive == passive && node.editor == editor
      ensures node.translate == translate && node.rotate == rotate
      ensures !node.highlighted && !node.highlightedMouse && !node.highlightedBox && !node.selected
      ensures node.mousePressPos.None? && fresh(node)
      ensures node.snapPoints == if !passive && createSnapPoints then Snaps.AtOrigin(Snaps.BOX_IDS) else []
      ensures this.text == text && this.fontSize == fontSize && this.fill == fill && this.layer == layer
    {
      var n := new Nodes.EDANode(id, name, passive, editor, translate, rotate);
      if !passive && createSnapPoints {
        n.snapPoints := Snaps.AtOrigin(Snaps.BOX_IDS);
      }
      node := n;
      this.text, this.fontSize, this.fill, this.layer := text, fontSize, fill, layer;
    }

    /** `Rotate`: a selected text turns ten degrees with the scroll's
        sign; an unselected one does not move. */
    method Rotate(deltaY: real)
      modifies node`rotate
      ensures node.selected ==> node.rotate == old(node.rotate) + RotateStep(deltaY)
      ensures !node.selected ==> node.rotate == old(node.rotate)
    {
      if !node.selected {
        return;
      }
      var angle := 10.0;
      if deltaY < 0.0 {
        angle := -10.0;
      }
      node.rotate := node.rotate + angle;
    }

    /** `SnapPointsCreate`: the nine box points, at the origin. */
    method SnapPointsCreate()
      modifies node`snapPoints
      ensures node.snapPoints == old(node.snapPoints) + Snaps.AtOrigin(Snaps.BOX_IDS)
    {
      node.snapPoints := node.snapPoints + Snaps.AtOrigin(Snaps.BOX_IDS);
    }

    /** `SnapPointsRefresh` for the given local bounds and `localToParent`;
        `ok` is false where the source throws on an id that is neither one
        of the nine nor `snapManual`. */
    method SnapPointsRefresh(local: Nodes.Bounds, toParent: Pair -> Pair) returns (ok: bool)
      modifies node`snapPoints
      ensures ok == Snaps.AllPlaced(old(node.snapPoints), TextPlacer(local, toParent))
      ensures node.snapPoints == Snaps.Refreshed(old(node.snapPoints), TextPlacer(local, toParent))
    {
      ok := Snaps.Refresh(node, TextPlacer(local, toParent));
    }

    /** `PropsLoadGlobal`: a selected text reports its name, its
        position relative to the pane's centre and its rotation. */
    method PropsLoadGlobal(lists: Lists, paneSize: Pair)
      modifies lists`names, lists`posX, lists`posY, lists`rots
      ensures lists.names == old(lists.names) + Added(node.selected, node.name)
      ensures lists.posX == old(lists.posX) + Added(node.selected, ShownPos(node.translate.left, paneSize.left))
      ensures lists.posY == old(lists.posY) + Added(node.selected, ShownPos(node.translate.right, paneSize.right))
      ensures lists.rots == old(lists.rots) + Added(node.selected, node.rotate)
    {
      if !node.selected {
        return;
      }
      lists.names := lists.names + [node.name];
      lists.posX := lists.posX + [node.translate.left - paneSize.left / 2.0];
      lists.posY := lists.posY + [node.translate.right - paneSize.right / 2.0];
      lists.rots := lists.rots + [node.rotate];
    }

    /** `PropsApplyGlobal`: the strict name rule, a grid-snapped position
        and a raw rotation, messages in that order. */
    method PropsApplyGlobal(box: PropsBox, env: Env) returns (status: seq<Status>)
      modifies node`name, node`translate, node`rotate
      ensures !node.selected ==> node.name == old(node.name) && node.translate == old(node.translate) &&
                                 node.rotate == old(node.rotate) && status == []
      ensures node.selected ==>
        var n := ApplyName(old(node.name), box.name);
        var x := ApplyNumber(old(node.translate.left), FirstOf(box.pos), PlacePos(env.snap, env.paneSize.left), PosX);
        var y := ApplyNumber(old(node.translate.right), SecondOf(box.pos), PlacePos(env.snap, env.paneSize.right), PosY);
        var r := ApplyNumber(old(node.rotate), box.rot, Identity(), Rotation);
        node.name == n.value && node.translate == Pair(x.value, y.value) && node.rotate == r.value &&
        status == Msg(n.status) + Msg(x.status) + Msg(y.status) + Msg(r.status)
    {
      if !node.selected {
        return [];
      }
      var n := ApplyName(node.name, box.name);
      var x := ApplyNumber(node.translate.left, FirstOf(box.pos), PlacePos(env.snap, env.paneSize.left), PosX);
      var y := ApplyNumber(node.translate.right, SecondOf(box.pos), PlacePos(env.snap, env.paneSize.right), PosY);
      var r := ApplyNumber(node.rotate, box.rot, Identity(), Rotation);
      node.name := n.value;
      node.translate := Pair(x.value, y.value);
      node.rotate := r.value;
      status := Msg(n.status) + Msg(x.status) + Msg(y.status) + Msg(r.status);
    }

    /** `PropsLoadSymbol`: the colour (the fill), the content and the font
        size. */
    method PropsLoadSymbol(lists: Lists) returns (loaded: bool)
      modifies lists`colors, lists`textContents, lists`textFontSizes
      ensures loaded == node.selected
      ensures lists.colors == old(lists.colors) + Added(loaded, fill)
      ensures lists.textContents == old(lists.textContents) + Added(loaded, text)
      ensures lists.textFontSizes == old(lists.textFontSizes) + Added(loaded, fontSize)
    {
      if !node.selected {
        return false;
      }
      lists.colors := lists.colors + [fill];
      lists.textContents := lists.textContents + [text];
      lists.textFontSizes := lists.textFontSizes + [fontSize];
      loaded := true;
    }

    /** `PropsApplySymbol`: the colour picker sets the fill, the content
        follows the text rule, and the font size is taken as entered inside
        the font-size limits. */
    method PropsApplySymbol(box: PropsBox, env: Env) returns (status: seq<Status>)
      requires ValidColors(box)
      modifies this`fill, this`text, this`fontSize
      ensures !node.selected ==> fill == old(fill) && text == old(text) && fontSize == old(fontSize) && status == []
      ensures node.selected ==>
        var c := ApplyColor(old(fill), box.color, ShapeColor);
        var t := ApplyText(old(text), box.textContent, TextContent);
        var s := ApplyRanged(old(fontSize), box.fontSize, env.limits.textFontSize, 1.0, FontSize);
        fill == c.value && text == t.value && fontSize == s.value &&
        status == Msg(c.status) + Msg(t.status) + Msg(s.status)
    {
      if !node.selected {
        return [];
      }
      var c := ApplyColor(fill, box.color, ShapeColor);
      var t := ApplyText(text, box.textContent, TextContent);
      var s := ApplyRanged(fontSize, box.fontSize, env.limits.textFontSize, 1.0, FontSize);
      fill, text, fontSize := c.value, t.value, s.value;
      status := Msg(c.status) + Msg(t.status) + Msg(s.status);
    }

    /** `PropsLoadFootprint` (and `PropsLoadPCB`, which is the same): the
        layer, the content and the font size. */
    method PropsLoadFootprint(lists: Lists) returns (loaded: bool)
      modifies lists`layers, lists`textContents, lists`textFontSizes
      ensures loaded == node.selected
      ensures lists.layers == old(lists.layers) + Added(loaded, layer)
      ensures lists.textContents == old(lists.textContents) + Added(loaded, text)
      ensures lists.textFontSizes == old(lists.textFontSizes) + Added(loaded, fontSize)
    {
      if !node.selected {
        return false;
      }
      lists.layers := lists.layers + [layer];
      lists.textContents := lists.textContents + [text];
      lists.textFontSizes := lists.textFontSizes + [fontSize];
      loaded := true;
    }

    /** `PropsApplyFootprint` (and `PropsApplyPCB`, which is the same): a
        PCB layer moves the text to it and fills it with the layer's
        colour; content and font size follow the symbol rules. */
    method PropsApplyFootprint(box: PropsBox, env: Env) returns (status: seq<Status>)
      modifies this`layer, this`fill, this`text, this`fontSize
      ensures !node.selected ==> layer == old(layer) && fill == old(fill) && text == old(text) &&
                                 fontSize == old(fontSize) && status == []
      ensures node.selected ==>
        var l := ChooseLayer(env.layers, box.layer);
        var t := ApplyText(old(text), box.textContent, TextContent);
        var s := ApplyRanged(old(fontSize), box.fontSize, env.limits.textFontSize, 1.0, FontSize);
        (l.value.Some? ==> layer == l.value.value && fill == env.layerColor(layer)) &&
        (l.value.None? ==> layer == old(layer) && fill == old(fill)) &&
        text == t.value && fontSize == s.value &&
        status == Msg(l.status) + Msg(t.status) + Msg(s.status)
    {
      if !node.selected {
        return [];
      }
      var l := ChooseLayer(env.layers, box.layer);
      if l.value.Some? {
        layer := l.value.value;
        fill := env.layerColor(layer);
      }
      var t := ApplyText(text, box.textContent, TextContent);
      var s := ApplyRanged(fontSize, box.fontSize, env.limits.textFontSize, 1.0, FontSize);
      text, fontSize := t.value, s.value;
      status := Msg(l.status) + Msg(t.status) + Msg(s.status);
    }
  }
}
