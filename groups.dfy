/**
 * `EDAGroup`: the base of the node kinds that wrap a JavaFX group (holes,
 * vias, pins). Its snap points are `snapManual` points at given positions;
 * its name takes any non-empty text and its position is not snapped to the
 * grid. The group's children are what holes, vias and pins edit.
 */
module Groups {
  import opened Common
  import Colors
  import Nodes
  import Snaps
  import opened Props

  /** A child of the JavaFX group, as far as the kinds look at it: a
      circle, a text, another shape (which has a fill), or a node that is
      not a shape. */
  datatype Child =
    | CircleChild(radius: real, strokeWidth: real, fill: Colors.Color)
    | TextChild(text: string, fill: Colors.Color)
    | ShapeChild(fill: Colors.Color)
    | OtherChild

  /** `((Shape)child).setFill(c)`: the cast fails on a node that is not a
      shape. */
  function WithFill(c: Child, f: Colors.Color): (r: Child)
    requires !c.OtherChild?
    ensures !r.OtherChild? && r.fill == f
    ensures r.CircleChild? <==> c.CircleChild?
    ensures r.TextChild? <==> c.TextChild?
    ensures r.TextChild? ==> r.text == c.text
  {
    c.(fill := f)
  }

  /** A circle child seen as a ring: the radius through its middle and
      its width as the stroke. */
  datatype Ring = Ring(radius: real, strokeWidth: real)

  /** What a hole or via panel entry does to the ring: resize it, refuse
      with a message, or leave it silently. */
  datatype RingEdit = Resize(ring: Ring) | Refuse(status: Status) | Keep

  /** What the source throws: a group with the wrong number of children,
      or a child of the wrong class (a failed cast). */
  const CHILD_COUNT: string := "wrong number of children"
  const CHILD_KIND: string := "child of the wrong class"

  /** Where a group's snap point lands: a `snapManual` point at its own
      position taken to the parent; other ids are unknown. */
  function ManualPlacer(toParent: Pair -> Pair): (f: Snaps.SnapPoint -> Option<Pair>)
    ensures forall sp :: f(sp) == Snaps.ManualPlace(toParent, sp)
  {
    (sp: Snaps.SnapPoint) => Snaps.ManualPlace(toParent, sp)
  }

  class EDAGroup {
    const node: Nodes.EDANode
    var children: seq<Child>

    /** The fields the hole, via and pin constructors set; a kind that
        creates snap points adds them afterwards. */
    constructor (id: string, name: string, children: seq<Child>, translate: Pair, rotate: real,
                 passive: bool, editor: Nodes.Editor)
      ensures node.id == id && node.name == name && node.passive == passive && node.editor == editor
      ensures node.translate == translate && node.rotate == rotate
      ensures !node.highlighted && !node.highlightedMouse && !node.highlightedBox && !node.selected
      ensures node.mousePressPos.None? && node.snapPoints == [] && fresh(node)
      ensures this.children == children
    {
      node := new Nodes.EDANode(id, name, passive, editor, translate, rotate);
      this.children := children;
    }

    /** `Rotate`: a selected group turns ten degrees with the scroll's
        sign; an unselected one does not move. */
    method Rotate(deltaY: real)
      modifies node`rotate
      ensures node.selected ==> node.rotate == old(node.rotate) + RotateStep(deltaY)
      ensures !node.selected ==> node.rotate == old(node.rotate)
    {
      if !node.selected {
        return;
      }
      var angle := 10.0;
      if deltaY < 0.0 {
        angle := -10.0;
      }
      node.rotate := node.rotate + angle;
    }

    /** `SnapPointsCreate(positions)`: one `snapManual` point per position,
        in order. */
    method SnapPointsCreate(positions: seq<Pair>)
      modifies node`snapPoints
      ensures node.snapPoints == old(node.snapPoints) + Snaps.Manual(positions)
    {
      var i := 0;
      while i < |positions|
        invariant 0 <= i <= |positions|
        invariant node.snapPoints == old(node.snapPoints) + Snaps.Manual(positions[..i])
      {
        assert Snaps.Manual(positions[..i + 1]) == Snaps.Manual(positions[..i]) + [Nodes.NewSnapPoint(Snaps.MANUAL, positions[i])];
        node.snapPoints := node.snapPoints + [Nodes.NewSnapPoint(Snaps.MANUAL, positions[i])];
        i := i + 1;
      }
      assert positions[..i] == positions;
    }

    /** `SnapPointsRefresh` for the given `localToParent`; `ok` is false
        where the source throws on an id other than `snapManual`. */
    method SnapPointsRefresh(toParent: Pair -> Pair) returns (ok: bool)
      modifies node`snapPoints
      ensures ok == Snaps.AllPlaced(old(node.snapPoints), ManualPlacer(toParent))
      ensures node.snapPoints == Snaps.Refreshed(old(node.snapPoints), ManualPlacer(toParent))
    {
      ok := Snaps.Refresh(node, ManualPlacer(toParent));
    }

    /** `PropsLoadGlobal`: a selected group reports its name, its position
        relative to the pane's centre and its rotation. */
    method PropsLoadGlobal(lists: Lists, paneSize: Pair)
      modifies lists`names, lists`posX, lists`posY, lists`rots
      ensures lists.names == old(lists.names) + Added(node.selected, node.name)
      ensures lists.posX == old(lists.posX) + Added(node.selected, ShownPos(node.translate.left, paneSize.left))
      ensures lists.posY == old(lists.posY) + Added(node.selected, ShownPos(node.translate.right, paneSize.right))
      ensures lists.rots == old(lists.rots) + Added(node.selected, node.rotate)
    {
      if !node.selected {
        return;
      }
      lists.names := lists.names + [node.name];
      lists.posX := lists.posX + [node.translate.left - paneSize.left / 2.0];
      lists.posY := lists.posY + [node.translate.right - paneSize.right / 2.0];
      lists.rots := lists.rots + [node.rotate];
    }

    /** `PropsApplyGlobal`: any non-empty name, the position as entered
        (no grid snap) and the rotation. */
    method PropsApplyGlobal(box: PropsBox, env: Env) returns (status: seq<Status>)
      modifies node`name, node`translate, node`rotate
      ensures !node.selected ==> node.name == old(node.name) && node.translate == old(node.translate) &&
                                 node.rotate == old(node.rotate) && status == []
      ensures node.selected ==>
        var n := ApplyNameAnyText(old(node.name), box.name);
        var x := ApplyNumber(old(node.translate.left), FirstOf(box.pos), PlacePos(Identity(), env.paneSize.left), PosX);
        var y := ApplyNumber(old(node.translate.right), SecondOf(box.pos), PlacePos(Identity(), env.paneSize.right), PosY);
        var r := ApplyNumber(old(node.rotate), box.rot, Identity(), Rotation);
        node.name == n.value && node.translate == Pair(x.value, y.value) && node.rotate == r.value &&
        status == Msg(n.status) + Msg(x.status) + Msg(y.status) + Msg(r.status)
    {
      if !node.selected {
        return [];
      }
      var n := ApplyNameAnyText(node.name, box.name);
      var x := ApplyNumber(node.translate.left, FirstOf(box.pos), PlacePos(Identity(), env.paneSize.left), PosX);
      var y := ApplyNumber(node.translate.right, SecondOf(box.pos), PlacePos(Identity(), env.paneSize.right), PosY);
      var r := ApplyNumber(node.rotate, box.rot, Identity(), Rotation);
      node.name := n.value;
      node.translate := Pair(x.value, y.value);
      node.rotate := r.value;
      status := Msg(n.status) + Msg(x.status) + Msg(y.status) + Msg(r.status);
    }
  }
}
