/**
 * `EDAVia`: a group holding one circle whose stroke is the via's ring. The
 * footprint panel shows one via radius r; the circle stores radius 20·r
 * with stroke width 10·r, and the panel shows a tenth of half the stored
 * radius. The PCB load and apply are the footprint ones.
 */
module Vias {
  import opened Common
  import Nodes
  import opened Props
  import opened Groups

  /** What the apply stores for an entered via radius. */
  function ViaRing(r: real): (g: Ring)
    ensures g.strokeWidth * 2.0 == g.radius
  {
    Ring(r * 2.0 * 10.0, r * 10.0)
  }

  /** What the load reports for a stored circle radius. */
  function ViaShown(radius: real): real
  {
    radius / 10.0 / 2.0
  }

  /** A load after a successful apply reports the entered radius. */
  lemma {:induction false} LoadAfterApply(r: real)
    ensures ViaShown(ViaRing(r).radius) == r
  {
    assert ViaRing(r).radius == r * 20.0;
  }

  /** Applying what a load reported keeps the circle's radius and sets the
      stroke to half of it. */
  lemma {:induction false} ApplyAfterLoad(radius: real)
    ensures ViaRing(ViaShown(radius)).radius == radius
    ensures ViaRing(ViaShown(radius)).strokeWidth == radius / 2.0
  {
    assert ViaShown(radius) * 20.0 == radius;
  }

  /** The via box: a number inside the via-radius limits resizes the ring;
      a number outside them or other text is refused; an absent box or the
      sentinel is silent. */
  function ViaRule(box: Option<Field>, limits: Limits): (e: RingEdit)
    ensures e.Resize? <==> box.Some? && box.value.Number? && InRange(box.value.v, limits.viaRadius)
    ensures e.Resize? ==> ViaShown(e.ring.radius) == box.value.v
    ensures e.Keep? <==> box.None? || box.value.Mixed?
    ensures e.Refuse? ==> e.status == (if box.value.Number? then OutOfLimits(ViaRadius) else NotNumeric(ViaRadius))
  {
    if box.None? then Keep
    else match box.value
      case Mixed => Keep
      case NonNumeric => Refuse(NotNumeric(ViaRadius))
      case Number(r) =>
        if InRange(r, limits.viaRadius) then
          LoadAfterApply(r);
          Resize(ViaRing(r))
        else Refuse(OutOfLimits(ViaRadius))
  }

  class EDAVia {
    const group: EDAGroup

    /** A via creates no snap points. */
    constructor (id: string, name: string, children: seq<Child>, translate: Pair, rotate: real,
                 passive: bool, editor: Nodes.Editor)
      ensures group.node.id == id && group.node.name == name && group.node.passive == passive
      ensures group.node.editor == editor && group.node.translate == translate && group.node.rotate == rotate
      ensures !group.node.highlighted && !group.node.highlightedMouse && !group.node.highlightedBox
      ensures !group.node.selected && group.node.mousePressPos.None? && group.node.snapPoints == []
      ensures group.children == children && fresh(group) && fresh(group.node)
    {
      group := new EDAGroup(id, name, children, translate, rotate, passive, editor);
    }

    /** `PropsLoadFootprint` (and `PropsLoadPCB`): the via radius, from
        the group's single circle. A selected via without exactly one
        child, or whose child is not a circle, is an error. */
    method PropsLoadFootprint(lists: Lists) returns (r: Result<bool>)
      modifies lists`viaRadii
      ensures !group.node.selected ==> r.Ok? && !r.value
      ensures group.node.selected && |group.children| != 1 ==> r.Err? && r.error == CHILD_COUNT
      ensures group.node.selected && |group.children| == 1 && !group.children[0].CircleChild? ==>
        r.Err? && r.error == CHILD_KIND
      ensures r.Ok? && r.value ==>
        (group.node.selected && |group.children| == 1 && group.children[0].CircleChild? &&
         lists.viaRadii == old(lists.viaRadii) + [ViaShown(group.children[0].radius)])
      ensures !(r.Ok? && r.value) ==> lists.viaRadii == old(lists.viaRadii)
    {
      if !group.node.selected {
        return Ok(false);
      }
      if |group.children| != 1 {
        return Err(CHILD_COUNT);
      }
      var c := group.children[0];
      if !c.CircleChild? {
        return Err(CHILD_KIND);
      }
      lists.viaRadii := lists.viaRadii + [c.radius / 10.0 / 2.0];
      r := Ok(true);
    }

    /** `PropsApplyFootprint` (and `PropsApplyPCB`): the via rule on the
        single circle. The child count is checked first; the child is cast
        to a circle only when the ring is resized. */
    method PropsApplyFootprint(box: PropsBox, env: Env) returns (r: Result<seq<Status>>)
      modifies group`children
      ensures !group.node.selected ==> r.Ok? && r.value == [] && group.children == old(group.children)
      ensures group.node.selected && |old(group.children)| != 1 ==>
        r.Err? && r.error == CHILD_COUNT && group.children == old(group.children)
      ensures group.node.selected && |old(group.children)| == 1 ==>
        var e := ViaRule(box.viaRadius, env.limits);
        var c := old(group.children)[0];
        (e.Resize? && !c.CircleChild? ==> r.Err? && r.error == CHILD_KIND && group.children == old(group.children)) &&
        (e.Resize? && c.CircleChild? ==>
           r.Ok? && r.value == [] && group.children == [c.(radius := e.ring.radius, strokeWidth := e.ring.strokeWidth)]) &&
        (e.Refuse? ==> r.Ok? && r.value == [e.status] && group.children == old(group.children)) &&
        (e.Keep? ==> r.Ok? && r.value == [] && group.children == old(group.children))
    {
      if !group.node.selected {
        return Ok([]);
      }
      if |group.children| != 1 {
        return Err(CHILD_COUNT);
      }
      var e := ViaRule(box.viaRadius, env.limits);
      match e
      case Keep =>
        r := Ok([]);
      case Refuse(s) =>
        r := Ok([s]);
      case Resize(g) =>
        var c := group.children[0];
        if !c.CircleChild? {
          return Err(CHILD_KIND);
        }
        group.children := [c.(radius := g.radius, strokeWidth := g.strokeWidth)];
        r := Ok([]);
    }
  }
}
