/**
 * `EDAPin`: a group of two children, a circle (the pin) and a text (its
 * label). The symbol panel shows the pin's colour and its label; the
 * footprint panel has nothing for a pin. Non-passive pins get one
 * `snapManual` point per given position.
 */
module Pins {
  import opened Common
  import Colors
  import Nodes
  import Snaps
  import opened Props
  import opened Groups

  class EDAPin {
    const group: EDAGroup

    /** A non-passive pin gets one `snapManual` point per position. */
    constructor (id: string, name: string, children: seq<Child>, positions: seq<Pair>, translate: Pair, rotate: real,
                 passive: bool, editor: Nodes.Editor)
      ensures group.node.id == id && group.node.name == name && group.node.passive == passive
      ensures group.node.editor == editor && group.node.translate == translate && group.node.rotate == rotate
      ensures !group.node.highlighted && !group.node.highlightedMouse && !group.node.highlightedBox
      ensures !group.node.selected && group.node.mousePressPos.None?
      ensures group.node.snapPoints == if !passive then Snaps.Manual(positions) else []
      ensures group.children == children && fresh(group) && fresh(group.node)
    {
      var g := new EDAGroup(id, name, children, translate, rotate, passive, editor);
      if !passive {
        g.SnapPointsCreate(positions);
      }
      group := g;
    }

    /** The two children a pin needs: two of them, the second a text. */
    predicate WellFormed()
      reads this, group
    {
      |group.children| == 2 && group.children[1].TextChild?
    }

    /** `PropsLoadSymbol`: the circle's fill and the label. A selected pin
        without two children, whose second child is not a text, or whose
        first is not a circle, is an error. */
    method PropsLoadSymbol(lists: Lists) returns (r: Result<bool>)
      modifies lists`colors, lists`pinLabels
      ensures !group.node.selected ==> r.Ok? && !r.value
      ensures group.node.selected && |group.children| != 2 ==> r.Err? && r.error == CHILD_COUNT
      ensures group.node.selected && |group.children| == 2 && !WellFormed() ==> r.Err? && r.error == CHILD_KIND
      ensures group.node.selected && WellFormed() && !group.children[0].CircleChild? ==> r.Err? && r.error == CHILD_KIND
      ensures r.Ok? && r.value ==>
        (group.node.selected && WellFormed() && group.children[0].CircleChild? &&
         lists.colors == old(lists.colors) + [group.children[0].fill] &&
         lists.pinLabels == old(lists.pinLabels) + [group.children[1].text])
      ensures !(r.Ok? && r.value) ==> lists.colors == old(lists.colors) && lists.pinLabels == old(lists.pinLabels)
    {
      if !group.node.selected {
        return Ok(false);
      }
      if |group.children| != 2 {
        return Err(CHILD_COUNT);
      }
      if !group.children[1].TextChild? {
        return Err(CHILD_KIND);
      }
      var pin := group.children[0];
      if !pin.CircleChild? {
        return Err(CHILD_KIND);
      }
      lists.colors := lists.colors + [pin.fill];
      lists.pinLabels := lists.pinLabels + [group.children[1].text];
      r := Ok(true);
    }

    /** `PropsApplySymbol`: an accepted colour fills both children (the
        first must be a shape for that); then the label follows the text
        rule. */
    method PropsApplySymbol(box: PropsBox, env: Env) returns (r: Result<seq<Status>>)
      requires ValidColors(box)
      modifies group`children
      ensures !group.node.selected ==> r.Ok? && r.value == [] && group.children == old(group.children)
      ensures group.node.selected && |old(group.children)| != 2 ==>
        r.Err? && r.error == CHILD_COUNT && group.children == old(group.children)
      ensures group.node.selected && |old(group.children)| == 2 && !old(group.children)[1].TextChild? ==>
        r.Err? && r.error == CHILD_KIND && group.children == old(group.children)
      ensures group.node.selected && |old(group.children)| == 2 && old(group.children)[1].TextChild? ==>
        var pin := old(group.children)[0];
        var caption := old(group.children)[1];
        var c := ApplyColor(caption.fill, box.color, ShapeColor);
        var recolor := box.color.Some? && box.color.value.Some? && c.status.None?;
        var t := ApplyText(caption.text, box.pinLabel, PinLabel);
        (recolor && pin.OtherChild? ==> r.Err? && r.error == CHILD_KIND && group.children == old(group.children)) &&
        (!(recolor && pin.OtherChild?) ==>
           r.Ok? && r.value == Msg(c.status) + Msg(t.status) &&
           group.children == [if recolor then WithFill(pin, c.value) else pin,
                              caption.(fill := c.value, text := t.value)])
    {
      if !group.node.selected {
        return Ok([]);
      }
      if |group.children| != 2 {
        return Err(CHILD_COUNT);
      }
      if !group.children[1].TextChild? {
        return Err(CHILD_KIND);
      }
      var pin, caption := group.children[0], group.children[1];
      var c := ApplyColor(caption.fill, box.color, ShapeColor);
      var recolor := box.color.Some? && box.color.value.Some? && c.status.None?;
      if recolor {
        if pin.OtherChild? {
          return Err(CHILD_KIND);
        }
        pin := WithFill(pin, c.value);
        caption := WithFill(caption, c.value);
      }
      var t := ApplyText(caption.text, box.pinLabel, PinLabel);
      group.children := [pin, caption.(text := t.value)];
      r := Ok(Msg(c.status) + Msg(t.status));
    }

    /** `PropsLoadFootprint`: a pin shows nothing in the footprint panel
        and only reports whether it is selected. */
    method PropsLoadFootprint(lists: Lists) returns (loaded: bool)
      ensures loaded == group.node.selected
    {
      loaded := group.node.selected;
    }

    /** `PropsApplyFootprint` does nothing for a pin. */
    method PropsApplyFootprint(box: PropsBox, env: Env)
      ensures group.children == old(group.children)
    {
    }

    /** `Clone`: a new pin with the same name, children, translate,
        rotation and passivity, whose snap points are created at the
        current positions of this pin's snap points. */
    method Clone(id: string) returns (p: EDAPin)
      ensures fresh(p) && fresh(p.group) && fresh(p.group.node)
      ensures p.group.node.id == id && p.group.node.name == group.node.name
      ensures p.group.node.passive == group.node.passive && p.group.node.editor == group.node.editor
      ensures p.group.node.translate == group.node.translate && p.group.node.rotate == group.node.rotate
      ensures p.group.children == group.children && !p.group.node.selected
      ensures p.group.node.snapPoints ==
        if !group.node.passive then Snaps.Manual(Snaps.Translates(group.node.snapPoints)) else []
    {
      var positions: seq<Pair> := [];
      var i := 0;
      while i < |group.node.snapPoints|
        invariant 0 <= i <= |group.node.snapPoints|
        invariant positions == Snaps.Translates(group.node.snapPoints[..i])
      {
        assert group.node.snapPoints[..i + 1] == group.node.snapPoints[..i] + [group.node.snapPoints[i]];
        positions := positions + [group.node.snapPoints[i].translate];
        i := i + 1;
      }
      assert group.node.snapPoints[..i] == group.node.snapPoints;
      p := new EDAPin(id, group.node.name, group.children, positions, group.node.translate, group.node.rotate,
                      group.node.passive, group.node.editor);
    }
  }
}
