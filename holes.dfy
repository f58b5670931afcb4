/**
 * `EDAHole`: a group holding one circle whose stroke is the plated ring.
 * The footprint panel shows the ring's outer and inner radii; the circle
 * stores the radius through the middle of the ring and the ring's width as
 * its stroke width. The PCB load and apply are the footprint ones.
 */
module Holes {
  import opened Common
  import Nodes
  import opened Props
  import opened Groups

  /** The panel's view of a ring. */
  datatype Radii = Radii(outer: real, inner: real)

  /** What the load reports for a ring: its outer and inner edges. */
  function RadiiOf(g: Ring): (r: Radii)
    ensures r.outer - r.inner == g.strokeWidth
    ensures (r.outer + r.inner) / 2.0 == g.radius
  {
    Radii(g.radius + g.strokeWidth / 2.0, g.radius - g.strokeWidth / 2.0)
  }

  /** What the apply stores for entered radii: the middle radius and the
      width between them. */
  function RingOf(r: Radii): (g: Ring)
    ensures r.outer > r.inner ==> g.strokeWidth > 0.0
    ensures g.radius - g.strokeWidth / 2.0 == r.inner
  {
    Ring((r.outer + r.inner) / 2.0, r.outer - r.inner)
  }

  /** A load after a successful apply reports exactly the entered radii. */
  lemma {:induction false} LoadAfterApply(r: Radii)
    ensures RadiiOf(RingOf(r)) == r
  {
    var g := RingOf(r);
    assert g.radius + g.strokeWidth / 2.0 == r.outer;
    assert g.radius - g.strokeWidth / 2.0 == r.inner;
  }

  /** Applying what a load reported gives back the same ring. */
  lemma {:induction false} ApplyAfterLoad(g: Ring)
    ensures RingOf(RadiiOf(g)) == g
  {
    var r := RadiiOf(g);
    assert (r.outer + r.inner) / 2.0 == g.radius;
    assert r.outer - r.inner == g.strokeWidth;
  }

  /** The hole box: both radii numeric, each inside its limits (outer
      checked first) and the outer above the inner resize the ring; the
      sentinel in the outer field, or a number with the sentinel in the
      inner one, is silent; anything else is refused with the first failed
      check's message. */
  function HoleRule(box: Option<FieldPair>, limits: Limits): (e: RingEdit)
    ensures e.Resize? <==>
      box.Some? && box.value.first.Number? && box.value.second.Number? &&
      InRange(box.value.first.v, limits.holeOuter) && InRange(box.value.second.v, limits.holeInner) &&
      box.value.first.v > box.value.second.v
    ensures e.Resize? ==> RadiiOf(e.ring) == Radii(box.value.first.v, box.value.second.v)
    ensures e.Keep? <==> box.None? || box.value.first.Mixed? || (box.value.first.Number? && box.value.second.Mixed?)
    ensures (e.Refuse? && box.value.first.Number? && box.value.second.Number? &&
             InRange(box.value.first.v, limits.holeOuter) && InRange(box.value.second.v, limits.holeInner)) ==>
      e.status == OuterNotAboveInner
  {
    if box.None? then Keep
    else match box.value.first
      case Mixed => Keep
      case NonNumeric => Refuse(NotNumeric(HoleOuter))
      case Number(o) =>
        match box.value.second
        case Mixed => Keep
        case NonNumeric => Refuse(NotNumeric(HoleInner))
        case Number(i) =>
          if !InRange(o, limits.holeOuter) then Refuse(OutOfLimits(HoleOuter))
          else if !InRange(i, limits.holeInner) then Refuse(OutOfLimits(HoleInner))
          else if o <= i then Refuse(OuterNotAboveInner)
          else
            LoadAfterApply(Radii(o, i));
            Resize(RingOf(Radii(o, i)))
  }

  class EDAHole {
    const group: EDAGroup

    /** A hole creates no snap points. */
    constructor (id: string, name: string, children: seq<Child>, translate: Pair, rotate: real,
                 passive: bool, editor: Nodes.Editor)
      ensures group.node.id == id && group.node.name == name && group.node.passive == passive
      ensures group.node.editor == editor && group.node.translate == translate && group.node.rotate == rotate
      ensures !group.node.highlighted && !group.node.highlightedMouse && !group.node.highlightedBox
      ensures !group.node.selected && group.node.mousePressPos.None? && group.node.snapPoints == []
      ensures group.children == children && fresh(group) && fresh(group.node)
    {
      group := new EDAGroup(id, name, children, translate, rotate, passive, editor);
    }

    /** `PropsLoadFootprint` (and `PropsLoadPCB`): the ring's outer and
        inner radii, from the group's single circle. A selected hole without
        exactly one child, or whose child is not a circle, is an error. */
    method PropsLoadFootprint(lists: Lists) returns (r: Result<bool>)
      modifies lists`holeOuterRadii, lists`holeInnerRadii
      ensures !group.node.selected ==> r.Ok? && !r.value
      ensures group.node.selected && |group.children| != 1 ==> r.Err? && r.error == CHILD_COUNT
      ensures group.node.selected && |group.children| == 1 && !group.children[0].CircleChild? ==>
        r.Err? && r.error == CHILD_KIND
      ensures r.Ok? && r.value ==>
        (group.node.selected && |group.children| == 1 && group.children[0].CircleChild? &&
         var radii := RadiiOf(Ring(group.children[0].radius, group.children[0].strokeWidth));
         lists.holeOuterRadii == old(lists.holeOuterRadii) + [radii.outer] &&
         lists.holeInnerRadii == old(lists.holeInnerRadii) + [radii.inner])
      ensures !(r.Ok? && r.value) ==>
        lists.holeOuterRadii == old(lists.holeOuterRadii) && lists.holeInnerRadii == old(lists.holeInnerRadii)
    {
      if !group.node.selected {
        return Ok(false);
      }
      if |group.children| != 1 {
        return Err(CHILD_COUNT);
      }
      var c := group.children[0];
      if !c.CircleChild? {
        return Err(CHILD_KIND);
      }
      var radii := RadiiOf(Ring(c.radius, c.strokeWidth));
      lists.holeOuterRadii := lists.holeOuterRadii + [radii.outer];
      lists.holeInnerRadii := lists.holeInnerRadii + [radii.inner];
      r := Ok(true);
    }

    /** `PropsApplyFootprint` (and `PropsApplyPCB`): the hole rule on the
        single circle. The child count is checked first; the child is cast
        to a circle only when the ring is resized. */
    method PropsApplyFootprint(box: PropsBox, env: Env) returns (r: Result<seq<Status>>)
      modifies group`children
      ensures !group.node.selected ==> r.Ok? && r.value == [] && group.children == old(group.children)
      ensures group.node.selected && |old(group.children)| != 1 ==>
        r.Err? && r.error == CHILD_COUNT && group.children == old(group.children)
      ensures group.node.selected && |old(group.children)| == 1 ==>
        var e := HoleRule(box.hole, env.limits);
        var c := old(group.children)[0];
        (e.Resize? && !c.CircleChild? ==> r.Err? && r.error == CHILD_KIND && group.children == old(group.children)) &&
        (e.Resize? && c.CircleChild? ==>
           r.Ok? && r.value == [] && group.children == [c.(radius := e.ring.radius, strokeWidth := e.ring.strokeWidth)]) &&
        (e.Refuse? ==> r.Ok? && r.value == [e.status] && group.children == old(group.children)) &&
        (e.Keep? ==> r.Ok? && r.value == [] && group.children == old(group.children))
    {
      if !group.node.selected {
        return Ok([]);
      }
      if |group.children| != 1 {
        return Err(CHILD_COUNT);
      }
      var e := HoleRule(box.hole, env.limits);
      match e
      case Keep =>
        r := Ok([]);
      case Refuse(s) =>
        r := Ok([s]);
      case Resize(g) =>
        var c := group.children[0];
        if !c.CircleChild? {
          return Err(CHILD_KIND);
        }
        group.children := [c.(radius := g.radius, strokeWidth := g.strokeWidth)];
        r := Ok([]);
    }
  }

  /** Loading a hole the panel has just resized reports the entered radii,
      and the ring it stores is never empty. */
  lemma {:induction false} HoleRoundTrip(box: Option<FieldPair>, limits: Limits)
    requires HoleRule(box, limits).Resize?
    ensures RadiiOf(HoleRule(box, limits).ring) == Radii(box.value.first.v, box.value.second.v)
    ensures HoleRule(box, limits).ring.strokeWidth > 0.0
  {
    var o, i := box.value.first.v, box.value.second.v;
    assert HoleRule(box, limits).ring == RingOf(Radii(o, i));
  }
}
