/**
 * The editor's node list and the state every editor node (`EDANode`) keeps:
 * highlight and selection flags mirrored by the editor's two counters,
 * snap points, the drag anchor, and the shared static helpers.
 *
 * The wrapped JavaFX shape's translate and rotate live on the node here;
 * every node kind forwards `GetTranslate`/`SetTranslate`/`SetRotate` to it.
 */
module Nodes {
  import opened Common
  import Colors

  /** A snap point: its id, the position it was created with, and its
      current translate. */
  datatype SnapPoint = SnapPoint(id: string, pos: Pair, translate: Pair)

  /** `new SnapPoint(pos, …)`: the translate starts at the given position. */
  function NewSnapPoint(id: string, pos: Pair): SnapPoint
  {
    SnapPoint(id, pos, pos)
  }

  /** Bounds in the parent pane, as JavaFX reports them. */
  datatype Bounds = Bounds(minX: real, minY: real, maxX: real, maxY: real)

  // ---------------------------------------------------------------------
  // Highlight / selection flags as values

  datatype Flags = Flags(highlighted: bool, mouse: bool, box: bool, selected: bool)

  /** New flags plus the changes applied to `shapesHighlighted` and
      `shapesSelected`. */
  datatype Effect = Effect(flags: Flags, dHighlighted: int, dSelected: int)

  /** `highlighted` agrees with its two sources. */
  predicate Synced(f: Flags) { f.highlighted == (f.mouse || f.box) }

  /** Each counter moved by exactly the change of its flag. */
  predicate Balanced(f: Flags, e: Effect)
  {
    e.dHighlighted == (if e.flags.highlighted then 1 else 0) - (if f.highlighted then 1 else 0) &&
    e.dSelected == (if e.flags.selected then 1 else 0) - (if f.selected then 1 else 0)
  }

  /** The mouse source after `HighlightCheck` without CONTROL: on the shape
      it is set, except that with Q held it is dropped when several shapes
      are highlighted and taken only when none is. */
  function MouseHighlight(mouse: bool, shapesHighlighted: int, onShape: bool, q: bool): (r: bool)
    ensures !onShape ==> !r
    ensures onShape && !q ==> r
    ensures onShape && q && shapesHighlighted == 1 ==> r == mouse
  {
    if !onShape then false
    else if !q then true
    else if shapesHighlighted > 1 && mouse then false
    else if shapesHighlighted == 0 && !mouse then true
    else mouse
  }

  /** `HighlightCheck` on a non-passive node. `selectionBox` is None when
      there is no selection box, else whether it overlaps the node. */
  function HighlightCheckEffect(f: Flags, shapesHighlighted: int, ctrl: bool, q: bool,
                                onShape: bool, selectionBox: Option<bool>): (e: Effect)
    ensures e.flags.selected == f.selected && e.dSelected == 0
    ensures ctrl ==> !e.flags.mouse && !e.flags.box && !e.flags.highlighted
    ensures !ctrl ==> e.flags.box == (selectionBox == Some(true))
    ensures !ctrl ==> e.flags.mouse == MouseHighlight(f.mouse, shapesHighlighted, onShape, q)
  {
    var mouse := if ctrl then false else MouseHighlight(f.mouse, shapesHighlighted, onShape, q);
    var box := if ctrl then false else selectionBox == Some(true);
    var g := f.(mouse := mouse, box := box);
    if (mouse || box) && !f.highlighted then Effect(g.(highlighted := true), 1, 0)
    else if !mouse && !box && f.highlighted then Effect(g.(highlighted := false), -1, 0)
    else Effect(g, 0, 0)
  }

  /** After `HighlightCheck` the highlight flag agrees with its sources and
      the highlight counter moved by exactly the flag's change. */
  lemma HighlightCheckSyncs(f: Flags, shapesHighlighted: int, ctrl: bool, q: bool,
                            onShape: bool, selectionBox: Option<bool>)
    ensures var e := HighlightCheckEffect(f, shapesHighlighted, ctrl, q, onShape, selectionBox);
      Synced(e.flags) && Balanced(f, e)
  {
  }

  /** `SelectCheck`: select when either source highlights, unselect when
      neither does and SHIFT is up, then unhighlight a box-only highlight
      (without looking at `highlighted`). */
  function SelectCheckEffect(f: Flags, shift: bool): (e: Effect)
    ensures e.flags.selected == ((f.mouse || f.box) || (f.selected && shift))
    ensures e.flags.mouse == f.mouse && e.flags.box == f.box
    ensures e.flags.highlighted == (f.highlighted && !(f.box && !f.mouse))
  {
    var e1 :=
      if !f.selected && (f.mouse || f.box) then Effect(f.(selected := true), 0, 1)
      else if f.selected && !f.mouse && !f.box && !shift then Effect(f.(selected := false), 0, -1)
      else Effect(f, 0, 0);
    if f.box && !f.mouse then Effect(e1.flags.(highlighted := false), -1, e1.dSelected)
    else e1
  }

  /** From synced flags `SelectCheck` moves each counter by exactly its
      flag's change. */
  lemma SelectCheckBalanced(f: Flags, shift: bool)
    requires Synced(f)
    ensures Balanced(f, SelectCheckEffect(f, shift))
  {
  }

  /** Two `SelectCheck`s with no `HighlightCheck` between them, on a node
      highlighted by the selection box alone: the node loses its highlight
      once, but `shapesHighlighted` is lowered twice. */
  lemma SelectCheckTwiceDrifts()
    ensures var f0 := Flags(true, false, true, false);
      var e1 := SelectCheckEffect(f0, false);
      var e2 := SelectCheckEffect(e1.flags, false);
      Synced(f0) && Balanced(f0, e1) && !Balanced(e1.flags, e2) &&
      e1.dHighlighted + e2.dHighlighted == -2 &&
      !e2.flags.highlighted && f0.highlighted
  {
  }

  /** The offset a CONTROL-drag adds so that the node moves along one axis
      only: the smaller of the two drag components is cancelled. */
  function StraightOffset(ctrl: bool, diff: Pair): (r: Pair)
    ensures !ctrl ==> r == Pair(0.0, 0.0)
    ensures ctrl ==> Add(diff, r).left == 0.0 || Add(diff, r).right == 0.0
    ensures ctrl && Abs(diff.left) < Abs(diff.right) ==> Add(diff, r) == Pair(0.0, diff.right)
    ensures ctrl && Abs(diff.left) >= Abs(diff.right) ==> Add(diff, r) == Pair(diff.left, 0.0)
  {
    if !ctrl then Pair(0.0, 0.0)
    else if Abs(diff.left) < Abs(diff.right) then Pair(-diff.left, 0.0)
    else Pair(0.0, -diff.right)
  }

  function Abs(x: real): real { if x < 0.0 then -x else x }

  // ---------------------------------------------------------------------
  // Counting flags over the node list

  datatype Counter = Highlights | Selections

  function Flag(n: EDANode, k: Counter): bool
    reads n
  {
    if k.Highlights? then n.highlighted else n.selected
  }

  /** The flag k of every listed node, in list order. */
  ghost function Bits(ns: seq<EDANode>, k: Counter): (r: seq<bool>)
    reads ns
    ensures |r| == |ns| && forall i :: 0 <= i < |ns| ==> r[i] == Flag(ns[i], k)
  {
    if ns == [] then [] else [Flag(ns[0], k)] + Bits(ns[1..], k)
  }

  /** Number of set flags. */
  function CountBits(bs: seq<bool>): nat
  {
    if bs == [] then 0 else (if bs[0] then 1 else 0) + CountBits(bs[1..])
  }

  /** Number of nodes in ns whose flag k is set. */
  ghost function Count(ns: seq<EDANode>, k: Counter): nat
    reads ns
  {
    CountBits(Bits(ns, k))
  }

  /** Every id occurs once (ids are random UUIDs). */
  predicate UniqueIds(ns: seq<EDANode>)
  {
    forall i, j :: 0 <= i < j < |ns| ==> ns[i].id != ns[j].id
  }

  /** Index of the first node with the given id, or -1 (`NodeFindByID`). */
  function FindById(ns: seq<EDANode>, id: string): (r: int)
    ensures -1 <= r < |ns|
    ensures r == -1 <==> forall k :: 0 <= k < |ns| ==> ns[k].id != id
    ensures r != -1 ==> ns[r].id == id && forall k :: 0 <= k < r ==> ns[k].id != id
  {
    if ns == [] then -1
    else if ns[0].id == id then 0
    else
      var t := FindById(ns[1..], id);
      if t == -1 then -1 else t + 1
  }

  lemma {:induction false} CountBitsAppend(bs: seq<bool>, b: bool)
    ensures CountBits(bs + [b]) == CountBits(bs) + (if b then 1 else 0)
  {
    if bs != [] {
      assert (bs + [b])[1..] == bs[1..] + [b];
      CountBitsAppend(bs[1..], b);
    } else {
      assert [b][1..] == [];
    }
  }

  lemma {:induction false} CountBitsRemoveAt(bs: seq<bool>, i: nat)
    requires i < |bs|
    ensures CountBits(RemoveAt(bs, i)) == CountBits(bs) - (if bs[i] then 1 else 0)
  {
    if i == 0 {
      assert RemoveAt(bs, 0) == bs[1..];
    } else {
      assert RemoveAt(bs, i)[1..] == RemoveAt(bs[1..], i - 1);
      CountBitsRemoveAt(bs[1..], i - 1);
    }
  }

  lemma {:induction false} CountBitsUpdate(bs: seq<bool>, i: nat, b: bool)
    requires i < |bs|
    ensures CountBits(bs[i := b]) == CountBits(bs) - (if bs[i] then 1 else 0) + (if b then 1 else 0)
  {
    if i > 0 {
      assert bs[i := b][1..] == bs[1..][i - 1 := b];
      CountBitsUpdate(bs[1..], i - 1, b);
    }
  }

  /** The flags read now differ from the snapshot `before` at most at
      position i: the count moves by that position's change. */
  lemma CountOneChange(ns: seq<EDANode>, k: Counter, before: seq<bool>, i: nat)
    requires |before| == |ns| && i < |ns|
    requires forall j :: 0 <= j < |ns| && j != i ==> Flag(ns[j], k) == before[j]
    ensures Count(ns, k) == CountBits(before) - (if before[i] then 1 else 0) + (if Flag(ns[i], k) then 1 else 0)
  {
    var after := Bits(ns, k);
    assert after == before[i := after[i]];
    CountBitsUpdate(before, i, after[i]);
  }

  /** The flags read now are the snapshot `before` without position i. */
  lemma CountOneRemoved(ns: seq<EDANode>, k: Counter, before: seq<bool>, i: nat)
    requires |before| == |ns| + 1 && i < |before|
    requires forall j :: 0 <= j < i ==> Flag(ns[j], k) == before[j]
    requires forall j :: i <= j < |ns| ==> Flag(ns[j], k) == before[j + 1]
    ensures Count(ns, k) == CountBits(before) - (if before[i] then 1 else 0)
  {
    assert Bits(ns, k) == RemoveAt(before, i);
    CountBitsRemoveAt(before, i);
  }

  /** The flags read now are the snapshot `before` with b appended. */
  lemma CountOneAppended(ns: seq<EDANode>, k: Counter, before: seq<bool>, b: bool)
    requires |ns| == |before| + 1 && Flag(ns[|before|], k) == b
    requires forall j :: 0 <= j < |before| ==> Flag(ns[j], k) == before[j]
    ensures Count(ns, k) == CountBits(before) + (if b then 1 else 0)
  {
    var bits, after := Bits(ns, k), before + [b];
    forall j | 0 <= j < |bits|
      ensures bits[j] == after[j]
    {
      if j < |before| {
        assert after[j] == before[j];
      }
    }
    assert bits == after;
    CountBitsAppend(before, b);
  }

  /** With unique ids the node found by id is the only one equal to it. */
  lemma FoundIsOnlyOccurrence(ns: seq<EDANode>, n: EDANode, i: nat)
    requires UniqueIds(ns) && i < |ns| && ns[i] == n
    ensures n !in RemoveAt(ns, i)
    ensures UniqueIds(RemoveAt(ns, i))
  {
    var r := RemoveAt(ns, i);
    forall k | 0 <= k < |r|
      ensures r[k] != n
    {
      if k < i { assert r[k].id == ns[k].id != ns[i].id; }
      else { assert r[k].id == ns[k + 1].id != ns[i].id; }
    }
  }

  /** Distinct ids make distinct nodes. */
  lemma UniqueIdsDistinct(ns: seq<EDANode>)
    requires UniqueIds(ns)
    ensures forall i, j :: 0 <= i < j < |ns| ==> ns[i] != ns[j]
  {
    forall i, j | 0 <= i < j < |ns|
      ensures ns[i] != ns[j]
    {
      assert ns[i].id != ns[j].id;
    }
  }

  // ---------------------------------------------------------------------

  /** The part of an editor the nodes work against. */
  class Editor {
    var nodes: seq<EDANode>
    var shapesHighlighted: int
    var shapesSelected: int
    const maxShapes: int

    constructor (maxShapes: int)
      ensures this.maxShapes == maxShapes
      ensures nodes == [] && shapesHighlighted == 0 && shapesSelected == 0
    {
      this.maxShapes := maxShapes;
      nodes := [];
      shapesHighlighted := 0;
      shapesSelected := 0;
    }

    function NodeFindByID(id: string): (r: int)
      reads this
      ensures r == FindById(nodes, id)
    {
      FindById(nodes, id)
    }

    /** Ids are unique and the two counters count the flags set on the
        listed nodes. */
    ghost predicate Consistent()
      reads this, nodes
    {
      UniqueIds(nodes) &&
      shapesHighlighted == Count(nodes, Highlights) &&
      shapesSelected == Count(nodes, Selections)
    }
  }

  class EDANode {
    const id: string
    var name: string
    var highlighted: bool
    var highlightedMouse: bool
    var highlightedBox: bool
    var selected: bool
    var mousePressPos: Option<Pair>
    const passive: bool
    var snapPoints: seq<SnapPoint>
    /** Translate and rotation of the wrapped JavaFX shape. */
    var translate: Pair
    var rotate: real
    const editor: Editor

    /** The fields every kind's constructor sets; the random UUID is a
        parameter. Snap points are added by the kinds. */
    constructor (id: string, name: string, passive: bool, editor: Editor, translate: Pair, rotate: real)
      ensures this.id == id && this.name == name && this.passive == passive && this.editor == editor
      ensures !highlighted && !highlightedMouse && !highlightedBox && !selected
      ensures mousePressPos == None && snapPoints == []
      ensures this.translate == translate && this.rotate == rotate
    {
      this.id := id;
      this.name := name;
      this.passive := passive;
      this.editor := editor;
      this.translate := translate;
      this.rotate := rotate;
      highlighted, highlightedMouse, highlightedBox, selected := false, false, false, false;
      mousePressPos := None;
      snapPoints := [];
    }

    function GetFlags(): Flags
      reads this
    {
      Flags(highlighted, highlightedMouse, highlightedBox, selected)
    }

    /** A passive node never carries a flag: nothing but `HighlightCheck`,
        which skips passive nodes, raises one. */
    predicate PassiveQuiet()
      reads this
    {
      passive ==> !highlighted && !highlightedMouse && !highlightedBox && !selected
    }

    /** `Add`: refused (an Error in the source) once the editor holds
        maxShapes nodes; otherwise this node goes last. */
    method Add() returns (ok: bool)
      modifies editor
      ensures ok == (old(|editor.nodes|) < editor.maxShapes)
      ensures editor.nodes == if ok then old(editor.nodes) + [this] else old(editor.nodes)
      ensures editor.shapesHighlighted == old(editor.shapesHighlighted)
      ensures editor.shapesSelected == old(editor.shapesSelected)
      ensures (ok && old(editor.Consistent()) && old(editor.NodeFindByID(id)) == -1 &&
               !highlighted && !selected) ==> editor.Consistent()
    {
      ghost var hb, sb := Bits(editor.nodes, Highlights), Bits(editor.nodes, Selections);
      if |editor.nodes| >= editor.maxShapes {
        return false;
      }
      editor.nodes := editor.nodes + [this];
      ok := true;
      if old(editor.Consistent()) && old(editor.NodeFindByID(id)) == -1 && !highlighted && !selected {
        CountOneAppended(editor.nodes, Highlights, hb, false);
        CountOneAppended(editor.nodes, Selections, sb, false);
        assert UniqueIds(editor.nodes) by {
          assert forall k :: 0 <= k < |old(editor.nodes)| ==> old(editor.nodes)[k].id != id;
        }
      }
    }

    /** The second half of `Remove`, once the node is found at idx: the
        node leaves the list, each counter whose flag was set drops by one,
        and both flags are cleared. */
    method Unlist(idx: nat)
      requires idx < |editor.nodes|
      modifies this, editor
      ensures editor.nodes == RemoveAt(old(editor.nodes), idx)
      ensures editor.shapesHighlighted == old(editor.shapesHighlighted) - (if old(highlighted) then 1 else 0)
      ensures editor.shapesSelected == old(editor.shapesSelected) - (if old(selected) then 1 else 0)
      ensures !highlighted && !selected
      ensures highlightedMouse == old(highlightedMouse) && highlightedBox == old(highlightedBox)
      ensures mousePressPos == old(mousePressPos) && snapPoints == old(snapPoints)
      ensures translate == old(translate) && rotate == old(rotate) && name == old(name)
    {
      editor.nodes := RemoveAt(editor.nodes, idx);
      if highlighted {
        editor.shapesHighlighted := editor.shapesHighlighted - 1;
      }
      if selected {
        editor.shapesSelected := editor.shapesSelected - 1;
      }
      highlighted := false;
      selected := false;
    }

    /** `Remove`: false and no change when the id is not listed; otherwise
        the node leaves the list, each counter whose flag was set drops by
        one, and both flags are cleared. */
    method Remove() returns (removed: bool)
      modifies this, editor
      ensures removed == (old(editor.NodeFindByID(id)) != -1)
      ensures !removed ==> unchanged(this) && unchanged(editor)
      ensures removed ==> editor.nodes == RemoveAt(old(editor.nodes), old(editor.NodeFindByID(id)))
      ensures removed ==> editor.shapesHighlighted == old(editor.shapesHighlighted) - (if old(highlighted) then 1 else 0)
      ensures removed ==> editor.shapesSelected == old(editor.shapesSelected) - (if old(selected) then 1 else 0)
      ensures removed ==> !highlighted && !selected
      ensures highlightedMouse == old(highlightedMouse) && highlightedBox == old(highlightedBox)
      ensures mousePressPos == old(mousePressPos) && snapPoints == old(snapPoints)
      ensures translate == old(translate) && rotate == old(rotate) && name == old(name)
      ensures old(editor.Consistent()) && (this in old(editor.nodes) || old(editor.NodeFindByID(id)) == -1)
              ==> editor.Consistent()
    {
      ghost var hb, sb := Bits(editor.nodes, Highlights), Bits(editor.nodes, Selections);
      var idx := editor.NodeFindByID(id);
      if idx == -1 {
        return false;
      }
      Unlist(idx);
      removed := true;
      if old(editor.Consistent()) && this in old(editor.nodes) {
        ghost var ns := old(editor.nodes);
        ghost var j := IndexOf(ns, this);
        assert j == idx by {
          assert ns[j].id == ns[idx].id;
        }
        FoundIsOnlyOccurrence(ns, this, idx);
        ghost var rest := editor.nodes;
        forall j | 0 <= j < |rest|
          ensures rest[j].highlighted == old(rest[j].highlighted) && rest[j].selected == old(rest[j].selected)
        {
          assert rest[j] != this;
        }
        CountOneRemoved(rest, Highlights, hb, idx);
        CountOneRemoved(rest, Selections, sb, idx);
      }
    }

    /** `Move`: only a selected node moves; it goes to the grid-snapped
        drag target. A selected node without a press position fails (a
        null dereference in the source) and stays put. The pane and
        grid transforms are parameters. */
    method Move(ctrl: bool, dragDiff: Pair, toReal: Pair -> Pair, snap: Pair -> Pair, toDraw: Pair -> Pair)
      returns (ok: bool)
      modifies this
      ensures ok == (!old(selected) || old(mousePressPos).Some?)
      ensures old(selected) && old(mousePressPos).Some? ==>
        translate == toDraw(snap(toReal(Common.Add(old(mousePressPos).value, Common.Add(dragDiff, StraightOffset(ctrl, dragDiff))))))
      ensures !(old(selected) && old(mousePressPos).Some?) ==> translate == old(translate)
      ensures GetFlags() == old(GetFlags()) && mousePressPos == old(mousePressPos)
      ensures rotate == old(rotate) && snapPoints == old(snapPoints) && name == old(name)
    {
      if !selected {
        return true;
      }
      var offset := StraightOffset(ctrl, dragDiff);
      if mousePressPos.None? {
        return false;
      }
      var p := mousePressPos.value;
      var newPos := Pair(p.left + dragDiff.left + offset.left, p.right + dragDiff.right + offset.right);
      translate := toDraw(snap(toReal(newPos)));
      ok := true;
    }

    /** `MoveReset`: a selected node remembers its translate as the press
        position. */
    method MoveReset()
      modifies this
      ensures mousePressPos == if old(selected) then Some(old(translate)) else old(mousePressPos)
      ensures GetFlags() == old(GetFlags()) && translate == old(translate) && rotate == old(rotate)
      ensures snapPoints == old(snapPoints) && name == old(name)
    {
      if selected {
        mousePressPos := Some(translate);
      }
    }

    method Highlight()
      requires !passive
      modifies this, editor
      ensures GetFlags() == old(GetFlags()).(highlighted := true)
      ensures editor.shapesHighlighted == old(editor.shapesHighlighted) + 1
      ensures editor.shapesSelected == old(editor.shapesSelected) && editor.nodes == old(editor.nodes)
      ensures mousePressPos == old(mousePressPos) && translate == old(translate) && rotate == old(rotate)
      ensures snapPoints == old(snapPoints) && name == old(name)
    {
      highlighted := true;
      editor.shapesHighlighted := editor.shapesHighlighted + 1;
    }

    method Unhighlight()
      requires !passive
      modifies this, editor
      ensures GetFlags() == old(GetFlags()).(highlighted := false)
      ensures editor.shapesHighlighted == old(editor.shapesHighlighted) - 1
      ensures editor.shapesSelected == old(editor.shapesSelected) && editor.nodes == old(editor.nodes)
      ensures mousePressPos == old(mousePressPos) && translate == old(translate) && rotate == old(rotate)
      ensures snapPoints == old(snapPoints) && name == old(name)
    {
      highlighted := false;
      editor.shapesHighlighted := editor.shapesHighlighted - 1;
    }

    method Select()
      requires !passive
      modifies this, editor
      ensures GetFlags() == old(GetFlags()).(selected := true)
      ensures editor.shapesSelected == old(editor.shapesSelected) + 1
      ensures editor.shapesHighlighted == old(editor.shapesHighlighted) && editor.nodes == old(editor.nodes)
      ensures mousePressPos == old(mousePressPos) && translate == old(translate) && rotate == old(rotate)
      ensures snapPoints == old(snapPoints) && name == old(name)
    {
      selected := true;
      editor.shapesSelected := editor.shapesSelected + 1;
    }

    method Unselect()
      requires !passive
      modifies this, editor
      ensures GetFlags() == old(GetFlags()).(selected := false)
      ensures editor.shapesSelected == old(editor.shapesSelected) - 1
      ensures editor.shapesHighlighted == old(editor.shapesHighlighted) && editor.nodes == old(editor.nodes)
      ensures mousePressPos == old(mousePressPos) && translate == old(translate) && rotate == old(rotate)
      ensures snapPoints == old(snapPoints) && name == old(name)
    {
      selected := false;
      editor.shapesSelected := editor.shapesSelected - 1;
    }

    /** First half of `HighlightCheck`: the two highlight sources. The
        mouse source follows `MouseHighlight`, the box source the overlap
        test; CONTROL clears both. */
    method HighlightSources(ctrl: bool, q: bool, onShape: bool, selectionBox: Option<bool>)
      modifies this
      ensures highlightedMouse == (!ctrl && MouseHighlight(old(highlightedMouse), editor.shapesHighlighted, onShape, q))
      ensures highlightedBox == (!ctrl && selectionBox == Some(true))
      ensures highlighted == old(highlighted) && selected == old(selected)
      ensures mousePressPos == old(mousePressPos) && translate == old(translate) && rotate == old(rotate)
      ensures snapPoints == old(snapPoints) && name == old(name)
    {
      if !ctrl {
        if onShape {
          if q {
            if editor.shapesHighlighted > 1 && highlightedMouse {
              highlightedMouse := false;
            } else if editor.shapesHighlighted == 0 && !highlightedMouse {
              highlightedMouse := true;
            }
          } else {
            if !highlightedMouse {
              highlightedMouse := true;
            }
          }
        } else {
          if highlightedMouse {
            highlightedMouse := false;
          }
        }
        match selectionBox {
          case Some(overlaps) =>
            highlightedBox := overlaps;
          case None =>
            if highlightedBox {
              highlightedBox := false;
            }
        }
      } else {
        highlightedMouse := false;
        highlightedBox := false;
      }
    }

    /** `HighlightCheck` on a non-passive node, without the bookkeeping
        proof: flags and the highlight counter follow
        `HighlightCheckEffect`. */
    method HighlightFlags(ctrl: bool, q: bool, onShape: bool, selectionBox: Option<bool>)
      requires !passive
      modifies this, editor
      ensures var e := HighlightCheckEffect(old(GetFlags()), old(editor.shapesHighlighted), ctrl, q, onShape, selectionBox);
        GetFlags() == e.flags && editor.shapesHighlighted == old(editor.shapesHighlighted) + e.dHighlighted
      ensures editor.shapesSelected == old(editor.shapesSelected) && editor.nodes == old(editor.nodes)
      ensures mousePressPos == old(mousePressPos) && translate == old(translate) && rotate == old(rotate)
      ensures snapPoints == old(snapPoints) && name == old(name)
    {
      HighlightCheckSyncs(GetFlags(), editor.shapesHighlighted, ctrl, q, onShape, selectionBox);
      HighlightSources(ctrl, q, onShape, selectionBox);
      if (highlightedMouse || highlightedBox) && !highlighted {
        Highlight();
      } else if !highlightedMouse && !highlightedBox && highlighted {
        Unhighlight();
      }
    }

    /** `HighlightCheck`: passive nodes are skipped; otherwise the flags and
        the highlight counter follow `HighlightCheckEffect`, so a consistent
        editor stays consistent. Key state, the hit test and the
        selection-box overlap test are parameters. */
    method HighlightCheck(ctrl: bool, q: bool, onShape: bool, selectionBox: Option<bool>)
      modifies this, editor
      ensures var e := HighlightCheckEffect(old(GetFlags()), old(editor.shapesHighlighted), ctrl, q, onShape, selectionBox);
        if passive then unchanged(this) && unchanged(editor)
        else GetFlags() == e.flags &&
             editor.shapesHighlighted == old(editor.shapesHighlighted) + e.dHighlighted &&
             editor.shapesSelected == old(editor.shapesSelected) && editor.nodes == old(editor.nodes) &&
             mousePressPos == old(mousePressPos) && translate == old(translate) &&
             rotate == old(rotate) && snapPoints == old(snapPoints) && name == old(name)
      ensures old(editor.Consistent()) && this in old(editor.nodes) ==> editor.Consistent()
    {
      if passive {
        return;
      }
      ghost var hb, sb := Bits(editor.nodes, Highlights), Bits(editor.nodes, Selections);
      HighlightFlags(ctrl, q, onShape, selectionBox);
      if old(editor.Consistent()) && this in old(editor.nodes) {
        HighlightCheckSyncs(old(GetFlags()), old(editor.shapesHighlighted), ctrl, q, onShape, selectionBox);
        ghost var ns := editor.nodes;
        ghost var i := IndexOf(ns, this);
        UniqueIdsDistinct(ns);
        forall j | 0 <= j < |ns| && j != i
          ensures ns[j].highlighted == old(ns[j].highlighted) && ns[j].selected == old(ns[j].selected)
        {
          assert ns[j] != this;
        }
        CountOneChange(ns, Highlights, hb, i);
        CountOneChange(ns, Selections, sb, i);
      }
    }

    /** `SelectCheck` without the press-position reset and the bookkeeping
        proof: select when either source highlights, unselect when neither
        does and SHIFT is up, then drop a box-only highlight. */
    method SelectFlags(shift: bool)
      requires PassiveQuiet()
      modifies this, editor
      ensures var e := SelectCheckEffect(old(GetFlags()), shift);
        GetFlags() == e.flags &&
        editor.shapesHighlighted == old(editor.shapesHighlighted) + e.dHighlighted &&
        editor.shapesSelected == old(editor.shapesSelected) + e.dSelected
      ensures editor.nodes == old(editor.nodes) && mousePressPos == old(mousePressPos)
      ensures translate == old(translate) && rotate == old(rotate)
      ensures snapPoints == old(snapPoints) && name == old(name)
    {
      if !selected && (highlightedMouse || highlightedBox) {
        Select();
      } else if selected && (!highlightedMouse && !highlightedBox) && !shift {
        Unselect();
      }
      if highlightedBox && !highlightedMouse {
        Unhighlight();
      }
    }

    /** `SelectCheck`: flags and counters follow `SelectCheckEffect`, and the
        press position is cleared. A consistent editor stays consistent when
        the node enters with `highlighted` agreeing with its sources, which
        is how `HighlightCheck` leaves it. */
    method SelectCheck(shift: bool)
      requires PassiveQuiet()
      modifies this, editor
      ensures var e := SelectCheckEffect(old(GetFlags()), shift);
        GetFlags() == e.flags &&
        editor.shapesHighlighted == old(editor.shapesHighlighted) + e.dHighlighted &&
        editor.shapesSelected == old(editor.shapesSelected) + e.dSelected
      ensures mousePressPos == None && editor.nodes == old(editor.nodes)
      ensures translate == old(translate) && rotate == old(rotate)
      ensures snapPoints == old(snapPoints) && name == old(name)
      ensures old(editor.Consistent()) && this in old(editor.nodes) && Synced(old(GetFlags()))
              ==> editor.Consistent()
    {
      ghost var hb, sb := Bits(editor.nodes, Highlights), Bits(editor.nodes, Selections);
      SelectFlags(shift);
      mousePressPos := None;
      if old(editor.Consistent()) && this in old(editor.nodes) && Synced(old(GetFlags())) {
        SelectCheckBalanced(old(GetFlags()), shift);
        ghost var ns := editor.nodes;
        ghost var i := IndexOf(ns, this);
        UniqueIdsDistinct(ns);
        forall j | 0 <= j < |ns| && j != i
          ensures ns[j].highlighted == old(ns[j].highlighted) && ns[j].selected == old(ns[j].selected)
        {
          assert ns[j] != this;
        }
        CountOneChange(ns, Highlights, hb, i);
        CountOneChange(ns, Selections, sb, i);
      }
    }

    /** `MagneticSnapCheck`: passive nodes return (pos, minDist). Otherwise
        the result is the snap point nearest to pos among those no farther
        than minDist (the last one on a tie) with its distance, or
        (pos, minDist) when none is that close. The distance is a
        parameter. */
    method MagneticSnapCheck(pos: Pair, minDist: real, dist: (Pair, Pair) -> real)
      returns (snapped: Pair, d: real)
      ensures passive ==> snapped == pos && d == minDist
      ensures !passive ==> (d <= minDist &&
        forall j :: 0 <= j < |snapPoints| ==> d <= dist(pos, snapPoints[j].translate))
      ensures !passive && (forall j :: 0 <= j < |snapPoints| ==> dist(pos, snapPoints[j].translate) > minDist)
        ==> snapped == pos && d == minDist
      ensures !passive && (exists j :: 0 <= j < |snapPoints| && dist(pos, snapPoints[j].translate) <= minDist)
        ==> exists k :: 0 <= k < |snapPoints| && snapped == snapPoints[k].translate &&
              d == dist(pos, snapPoints[k].translate) &&
              forall j :: k < j < |snapPoints| ==> dist(pos, snapPoints[j].translate) > d
    {
      if passive {
        return pos, minDist;
      }
      snapped, d := pos, minDist;
      var found := false;
      var k := 0;
      for i := 0 to |snapPoints|
        invariant d <= minDist
        invariant forall j :: 0 <= j < i ==> d <= dist(pos, snapPoints[j].translate)
        invariant found == exists j :: 0 <= j < i && dist(pos, snapPoints[j].translate) <= minDist
        invariant !found ==> snapped == pos && d == minDist
        invariant found ==> (0 <= k < i && snapped == snapPoints[k].translate &&
          d == dist(pos, snapPoints[k].translate) &&
          forall j :: k < j < i ==> dist(pos, snapPoints[j].translate) > d)
      {
        var snapPos := snapPoints[i].translate;
        var currDist := dist(pos, snapPos);
        if currDist <= d {
          snapped, d := snapPos, currDist;
          found, k := true, i;
        }
      }
    }
  }

  /** (boundsX, boundsY) = ((minX, maxX), (minY, maxY)) is the smallest box
      holding every bounds in bs: each edge is reached by some bounds. */
  predicate Hull(bs: seq<Bounds>, boundsX: Pair, boundsY: Pair)
  {
    (forall j :: 0 <= j < |bs| ==>
      boundsX.left <= bs[j].minX && bs[j].maxX <= boundsX.right &&
      boundsY.left <= bs[j].minY && bs[j].maxY <= boundsY.right) &&
    (exists j :: 0 <= j < |bs| && boundsX.left == bs[j].minX) &&
    (exists j :: 0 <= j < |bs| && boundsX.right == bs[j].maxX) &&
    (exists j :: 0 <= j < |bs| && boundsY.left == bs[j].minY) &&
    (exists j :: 0 <= j < |bs| && boundsY.right == bs[j].maxY)
  }

  /** The hull is unique. */
  lemma HullUnique(bs: seq<Bounds>, x1: Pair, y1: Pair, x2: Pair, y2: Pair)
    requires Hull(bs, x1, y1) && Hull(bs, x2, y2)
    ensures x1 == x2 && y1 == y2
  {
    var a :| 0 <= a < |bs| && x1.left == bs[a].minX;
    var b :| 0 <= b < |bs| && x2.left == bs[b].minX;
    var c :| 0 <= c < |bs| && x1.right == bs[c].maxX;
    var d :| 0 <= d < |bs| && x2.right == bs[d].maxX;
    var e :| 0 <= e < |bs| && y1.left == bs[e].minY;
    var f :| 0 <= f < |bs| && y2.left == bs[f].minY;
    var g :| 0 <= g < |bs| && y1.right == bs[g].maxY;
    var h :| 0 <= h < |bs| && y2.right == bs[h].maxY;
  }

  /** `NodesGetRealBounds`: the hull of all bounds; ((0, 0), (0, 0)) for no
      nodes. */
  method NodesGetRealBounds(bs: seq<Bounds>) returns (boundsX: Pair, boundsY: Pair)
    ensures bs == [] ==> boundsX == Pair(0.0, 0.0) && boundsY == Pair(0.0, 0.0)
    ensures bs != [] ==> Hull(bs, boundsX, boundsY)
  {
    boundsX, boundsY := Pair(0.0, 0.0), Pair(0.0, 0.0);
    for i := 0 to |bs|
      invariant i == 0 ==> boundsX == Pair(0.0, 0.0) && boundsY == Pair(0.0, 0.0)
      invariant i > 0 ==> Hull(bs[..i], boundsX, boundsY)
    {
      var b := bs[i];
      if i == 0 {
        boundsX, boundsY := Pair(b.minX, b.maxX), Pair(b.minY, b.maxY);
        assert bs[..1][0] == b;
      } else {
        if b.minX < boundsX.left { boundsX := boundsX.(left := b.minX); }
        if b.maxX > boundsX.right { boundsX := boundsX.(right := b.maxX); }
        if b.minY < boundsY.left { boundsY := boundsY.(left := b.minY); }
        if b.maxY > boundsY.right { boundsY := boundsY.(right := b.maxY); }
        assert forall j :: 0 <= j < i ==> bs[..i + 1][j] == bs[..i][j];
        assert bs[..i + 1][i] == b;
      }
    }
    assert bs[..|bs|] == bs;
  }

  /** `NodesGetMiddlePos`: the centre of the hull of all bounds. */
  method NodesGetMiddlePos(bs: seq<Bounds>) returns (mid: Pair)
    ensures bs == [] ==> mid == Pair(0.0, 0.0)
    ensures bs != [] ==>
      (exists boundsX, boundsY :: (Hull(bs, boundsX, boundsY) &&
        2.0 * mid.left == boundsX.left + boundsX.right && 2.0 * mid.right == boundsY.left + boundsY.right))
  {
    var boundsX, boundsY := NodesGetRealBounds(bs);
    mid := Pair((boundsX.left + boundsX.right) / 2.0, (boundsY.left + boundsY.right) / 2.0);
  }

  /** `FillAddLeadingZeros`: the colour code padded with '0' to eight
      characters, as an FXML fill attribute. */
  method FillAddLeadingZeros(code: seq<char>) returns (attr: seq<char>)
    ensures attr == " fill=\"#" + Colors.PadTo8(code) + "\""
  {
    var padded := Colors.LeftPadZeros(code);
    attr := " fill=\"#" + padded + "\"";
  }
}
