/**
 * `MementoExperimental`: undo and redo stacks of whole snapshots of an
 * editor's node list. Undo and redo move one snapshot between the stacks
 * and make it the editor's node list; a history update pushes a snapshot,
 * clears the redo stack and trims the undo stack from the bottom.
 *
 * The snapshot pushed by an update (`RenderSystem_NodesClone()`) is a
 * parameter, and the limit `Editor_UndoStackMaxLen` is a constructor
 * argument.
 */
module MementoExperimental {
  import Nodes

  /** A snapshot of the editor's node list. */
  type Snapshot = seq<Nodes.EDANode>

  /** Both stacks as values; the top of each is its last element. */
  datatype Stacks = Stacks(undo: seq<Snapshot>, redo: seq<Snapshot>)

  /** `Memento_NodesUndo` on the stacks: move the undo top onto redo. */
  function UndoStep(st: Stacks): (r: Stacks)
  {
    if st.undo == [] then st
    else Stacks(st.undo[..|st.undo| - 1], st.redo + [st.undo[|st.undo| - 1]])
  }

  /** `Memento_NodesRedo` on the stacks: move the redo top onto undo. */
  function RedoStep(st: Stacks): (r: Stacks)
  {
    if st.redo == [] then st
    else Stacks(st.undo + [st.redo[|st.redo| - 1]], st.redo[..|st.redo| - 1])
  }

  /** The newest `maxLen` entries of s, in order: what the trimming loop of
      `Memento_NodeHistoryUpdate` leaves. */
  function Newest<T>(s: seq<T>, maxLen: nat): (r: seq<T>)
    ensures |r| <= maxLen
    ensures |s| <= maxLen ==> r == s
    ensures |s| > maxLen ==> |r| == maxLen
    ensures forall k :: 0 <= k < |r| ==> r[k] == s[|s| - |r| + k]
  {
    if |s| <= maxLen then s else s[|s| - maxLen..]
  }

  /** Undo moves exactly the undo top onto redo (and an empty undo stack
      is left alone), so the total stays the same. */
  lemma UndoStepFacts(st: Stacks)
    ensures st.undo == [] ==> UndoStep(st) == st
    ensures st.undo != [] ==>
      var r := UndoStep(st);
      r.undo + [st.undo[|st.undo| - 1]] == st.undo &&
      r.redo[..|r.redo| - 1] == st.redo &&
      r.redo[|r.redo| - 1] == st.undo[|st.undo| - 1]
  {
    if st.undo != [] {
      var r := UndoStep(st);
      assert r.redo[..|r.redo| - 1] == st.redo;
      assert r.undo + [st.undo[|st.undo| - 1]] == st.undo;
    }
  }

  /** Redo right after a successful undo gives back both stacks. */
  lemma {:induction false} RedoAfterUndo(st: Stacks)
    requires st.undo != []
    ensures RedoStep(UndoStep(st)) == st
  {
    var u := UndoStep(st);
    assert u.redo[..|u.redo| - 1] == st.redo;
    assert u.undo + [st.undo[|st.undo| - 1]] == st.undo;
  }

  /** Undo right after a successful redo gives back both stacks. */
  lemma {:induction false} UndoAfterRedo(st: Stacks)
    requires st.redo != []
    ensures UndoStep(RedoStep(st)) == st
  {
    var r := RedoStep(st);
    assert r.undo[..|r.undo| - 1] == st.undo;
    assert r.redo + [st.redo[|st.redo| - 1]] == st.redo;
  }

  class Memento {
    var undo: seq<Snapshot>
    var redo: seq<Snapshot>
    const editor: Nodes.Editor
    /** `EDAmameController.Editor_UndoStackMaxLen`. */
    const maxLen: nat

    constructor (editorValue: Nodes.Editor, maxLen: nat)
      ensures undo == [] && redo == [] && editor == editorValue && this.maxLen == maxLen
    {
      undo := [];
      redo := [];
      editor := editorValue;
      this.maxLen := maxLen;
    }

    /** `Memento_NodesUndo`: when there is something to undo, the editor's
        nodes become the popped snapshot and both counters are reset. */
    method NodesUndo()
      modifies this, editor
      ensures Stacks(undo, redo) == UndoStep(old(Stacks(undo, redo)))
      ensures old(undo) == [] ==> editor.nodes == old(editor.nodes)
      ensures old(undo) == [] ==> editor.shapesHighlighted == old(editor.shapesHighlighted)
      ensures old(undo) == [] ==> editor.shapesSelected == old(editor.shapesSelected)
      ensures old(undo) != [] ==> editor.nodes == old(undo)[|old(undo)| - 1]
      ensures old(undo) != [] ==> editor.shapesHighlighted == 0 && editor.shapesSelected == 0
    {
      if undo != [] {
        var undoneChange := undo[|undo| - 1];
        undo := undo[..|undo| - 1];
        redo := redo + [undoneChange];
        Restore(undoneChange);
      }
    }

    /** `Memento_NodesRedo`: the mirror image of `NodesUndo`. */
    method NodesRedo()
      modifies this, editor
      ensures Stacks(undo, redo) == RedoStep(old(Stacks(undo, redo)))
      ensures old(redo) == [] ==> editor.nodes == old(editor.nodes)
      ensures old(redo) == [] ==> editor.shapesHighlighted == old(editor.shapesHighlighted)
      ensures old(redo) == [] ==> editor.shapesSelected == old(editor.shapesSelected)
      ensures old(redo) != [] ==> editor.nodes == old(redo)[|old(redo)| - 1]
      ensures old(redo) != [] ==> editor.shapesHighlighted == 0 && editor.shapesSelected == 0
    {
      if redo != [] {
        var redoChange := redo[|redo| - 1];
        redo := redo[..|redo| - 1];
        undo := undo + [redoChange];
        Restore(redoChange);
      }
    }

    /** `RenderSystem_NodesClear` then `RenderSystem_NodesAdd(snapshot)`,
        then both counters to 0. */
    method Restore(snapshot: Snapshot)
      modifies editor
      ensures editor.nodes == snapshot
      ensures editor.shapesHighlighted == 0 && editor.shapesSelected == 0
    {
      editor.nodes := [];
      editor.nodes := editor.nodes + snapshot;
      editor.shapesHighlighted := 0;
      editor.shapesSelected := 0;
    }

    /** `Memento_NodeHistoryUpdate`, with `clone` the editor's cloned node
        list: push it, clear redo, drop bottom entries while undo is longer
        than `maxLen`. */
    method NodeHistoryUpdate(clone: Snapshot)
      modifies this
      ensures undo == Newest(old(undo) + [clone], maxLen)
      ensures redo == []
      ensures |undo| <= maxLen
      ensures maxLen > 0 ==> undo[|undo| - 1] == clone
    {
      undo := undo + [clone];
      redo := [];
      ghost var pushed := undo;
      while |undo| > maxLen
        invariant redo == []
        invariant |undo| <= |pushed|
        invariant undo == pushed[|pushed| - |undo|..]
        invariant |undo| < |pushed| ==> |undo| >= maxLen
        decreases |undo|
      {
        undo := undo[1..];
      }
    }
  }
}
