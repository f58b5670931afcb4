/**
 * `memento.Recorder`: bounded undo (`history`) and redo (`future`) stacks of
 * mementos kept for one editor. A stack is a sequence whose top is its last
 * element; `remove(0)` drops the oldest entry at the bottom.
 *
 * `Memento.restore()` puts the editor back into the state the memento holds
 * and returns a memento of the state it replaced. The editor's state is its
 * node list; `stateOf(m)` is the list memento `m` restores and `save(n)` is
 * the memento `restore()` returns when the editor held `n`. Both are
 * parameters, because the editor's memento class is not part of the model.
 */
module MementoRecorder {
  import Nodes

  const MaxStackSize: nat := 10

  /** Both stacks of a recorder, as values. */
  datatype Stacks<M> = Stacks(history: seq<M>, future: seq<M>)

  /** The stacks together with the editor state they act on. */
  datatype Session<M, N> = Session(stacks: Stacks<M>, state: N)

  /** The bound every recorder keeps on both stacks. */
  predicate Bounded<M>(st: Stacks<M>)
  {
    |st.history| <= MaxStackSize && |st.future| <= MaxStackSize
  }

  /** The loop in `record`: drop the bottom entry while the stack holds
      `MaxStackSize` or more. What is left is the newest entries, in order,
      and fewer than `MaxStackSize` of them. */
  function Trimmed<M>(s: seq<M>): (r: seq<M>)
    ensures |r| < MaxStackSize
    ensures |s| < MaxStackSize ==> r == s
    ensures |s| >= MaxStackSize ==> |r| == MaxStackSize - 1
    ensures forall k :: 0 <= k < |r| ==> r[k] == s[|s| - |r| + k]
  {
    if |s| < MaxStackSize then s else s[|s| - (MaxStackSize - 1)..]
  }

  /** The guarded push of `undo`/`redo`: one `remove(0)` when the stack is
      full, then `push`. */
  function PushCapped<M>(s: seq<M>, m: M): (r: seq<M>)
  {
    (if |s| >= MaxStackSize then s[1..] else s) + [m]
  }

  /** The stacks after `undo`: nothing on an empty history; otherwise the
      top of history is popped and `restored`, the memento its `restore()`
      returned, is pushed onto the future. */
  function UndoStep<M>(st: Stacks<M>, restored: M): (r: Stacks<M>)
  {
    if st.history == [] then st
    else Stacks(st.history[..|st.history| - 1], PushCapped(st.future, restored))
  }

  /** The stacks after `redo`: the mirror image of `undo`. */
  function RedoStep<M>(st: Stacks<M>, restored: M): (r: Stacks<M>)
  {
    if st.future == [] then st
    else Stacks(PushCapped(st.history, restored), st.future[..|st.future| - 1])
  }

  /** `undo` on the stacks and the editor: the popped memento's state
      replaces the editor's, and the memento of the replaced state goes onto
      the future. */
  function UndoSession<M, N>(s: Session<M, N>, stateOf: M -> N, save: N -> M): (r: Session<M, N>)
  {
    if s.stacks.history == [] then s
    else Session(UndoStep(s.stacks, save(s.state)), stateOf(s.stacks.history[|s.stacks.history| - 1]))
  }

  /** `redo` on the stacks and the editor, mirroring `UndoSession`. */
  function RedoSession<M, N>(s: Session<M, N>, stateOf: M -> N, save: N -> M): (r: Session<M, N>)
  {
    if s.stacks.future == [] then s
    else Session(RedoStep(s.stacks, save(s.state)), stateOf(s.stacks.future[|s.stacks.future| - 1]))
  }

  /** `record`: trim the history, push the memento, clear the future. */
  function RecordStep<M>(st: Stacks<M>, m: M): (r: Stacks<M>)
  {
    Stacks(Trimmed(st.history) + [m], [])
  }

  /** The guarded push keeps a bounded stack bounded, puts m on top and
      loses at most the bottom entry. */
  lemma PushCappedFacts<M>(s: seq<M>, m: M)
    requires |s| <= MaxStackSize
    ensures var r := PushCapped(s, m);
      |r| <= MaxStackSize && r[|r| - 1] == m &&
      (|s| < MaxStackSize ==> r == s + [m]) &&
      (|s| == MaxStackSize ==> r == s[1..] + [m])
  {
  }

  /** Undo keeps both stacks within `MaxStackSize`; on an empty history it
      changes nothing, otherwise the restored memento is the new top of the
      future and the rest of the history stays as it was. */
  lemma UndoStepFacts<M>(st: Stacks<M>, restored: M)
    requires Bounded(st)
    ensures Bounded(UndoStep(st, restored))
    ensures st.history == [] ==> UndoStep(st, restored) == st
    ensures st.history != [] ==>
      var r := UndoStep(st, restored);
      |r.history| == |st.history| - 1 &&
      r.history == st.history[..|r.history|] &&
      r.future[|r.future| - 1] == restored
  {
    if st.history != [] {
      PushCappedFacts(st.future, restored);
    }
  }

  /** Redo keeps both stacks within `MaxStackSize`, mirroring undo. */
  lemma RedoStepFacts<M>(st: Stacks<M>, restored: M)
    requires Bounded(st)
    ensures Bounded(RedoStep(st, restored))
    ensures st.future == [] ==> RedoStep(st, restored) == st
    ensures st.future != [] ==>
      var r := RedoStep(st, restored);
      |r.future| == |st.future| - 1 &&
      r.future == st.future[..|r.future|] &&
      r.history[|r.history| - 1] == restored
  {
    if st.future != [] {
      PushCappedFacts(st.history, restored);
    }
  }

  /** After `record` the history holds at most `MaxStackSize` entries with
      the new memento on top, below it the newest old entries in their old
      order, and the future is empty. */
  lemma RecordStepFacts<M>(st: Stacks<M>, m: M)
    ensures var r := RecordStep(st, m);
      Bounded(r) && r.future == [] &&
      |r.history| >= 1 && r.history[|r.history| - 1] == m &&
      (|st.history| < MaxStackSize ==> r.history == st.history + [m]) &&
      (forall k :: 0 <= k < |r.history| - 1 ==>
         r.history[k] == st.history[|st.history| - (|r.history| - 1) + k])
  {
  }

  /** Redo right after undo gives back the editor's state and both stacks
      when the future had room and the mementos are faithful: the memento
      of the replaced state restores it, and saving the popped memento's
      state gives that memento back. */
  lemma {:induction false} RedoUndoRoundTrip<M, N>(s: Session<M, N>, stateOf: M -> N, save: N -> M)
    requires Bounded(s.stacks) && s.stacks.history != [] && |s.stacks.future| < MaxStackSize
    requires stateOf(save(s.state)) == s.state
    requires save(stateOf(s.stacks.history[|s.stacks.history| - 1])) == s.stacks.history[|s.stacks.history| - 1]
    ensures RedoSession(UndoSession(s, stateOf, save), stateOf, save) == s
  {
    var st := s.stacks;
    var top := st.history[|st.history| - 1];
    var u := UndoSession(s, stateOf, save);
    assert u.stacks.future == st.future + [save(s.state)];
    assert u.stacks.future[..|u.stacks.future| - 1] == st.future;
    assert |u.stacks.history| < MaxStackSize;
    assert u.stacks.history + [top] == st.history;
  }

  /** With a full future, an undo followed by a redo loses the oldest
      future entry for good, whatever the mementos restore. */
  lemma UndoFullFutureLosesOldest<M, N>(s: Session<M, N>, stateOf: M -> N, save: N -> M)
    requires s.stacks.history != [] && |s.stacks.future| == MaxStackSize
    ensures UndoSession(s, stateOf, save).stacks.future[..MaxStackSize - 1] == s.stacks.future[1..]
    ensures RedoSession(UndoSession(s, stateOf, save), stateOf, save).stacks.future == s.stacks.future[1..]
  {
    var u := UndoSession(s, stateOf, save);
    assert u.stacks.future == s.stacks.future[1..] + [save(s.state)];
  }

  class Recorder<M> {
    var history: seq<M>
    var future: seq<M>
    const editor: Nodes.Editor

    /** The bound both stacks keep across every operation. */
    predicate Valid()
      reads this
    {
      Bounded(Stacks(history, future))
    }

    constructor (editorValue: Nodes.Editor)
      ensures history == [] && future == [] && editor == editorValue
      ensures Valid()
    {
      history := [];
      future := [];
      editor := editorValue;
    }

    /** The stacks and the editor's node list as a value. */
    function Current(): Session<M, seq<Nodes.EDANode>>
      reads this, editor
    {
      Session(Stacks(history, future), editor.nodes)
    }

    /** `undo`: on a non-empty history the popped memento restores the
        editor's nodes, the memento of the replaced nodes goes onto the
        future and the editor's counters are reset; on an empty history
        nothing changes. */
    method Undo(stateOf: M -> seq<Nodes.EDANode>, save: seq<Nodes.EDANode> -> M)
      requires Valid()
      modifies this, editor
      ensures Valid()
      ensures Current() == UndoSession(old(Current()), stateOf, save)
      ensures old(history) == [] ==> editor.shapesHighlighted == old(editor.shapesHighlighted)
      ensures old(history) == [] ==> editor.shapesSelected == old(editor.shapesSelected)
      ensures old(history) != [] ==> editor.shapesHighlighted == 0 && editor.shapesSelected == 0
    {
      if history != [] {
        var memento := history[|history| - 1];
        history := history[..|history| - 1];
        if |future| >= MaxStackSize {
          future := future[1..];
        }
        var replaced := save(editor.nodes);
        editor.nodes := stateOf(memento);
        future := future + [replaced];
        ResetCounters();
      }
      UndoStepFacts(old(Stacks(history, future)), save(old(editor.nodes)));
    }

    /** `redo`: the mirror image of `Undo`. */
    method Redo(stateOf: M -> seq<Nodes.EDANode>, save: seq<Nodes.EDANode> -> M)
      requires Valid()
      modifies this, editor
      ensures Valid()
      ensures Current() == RedoSession(old(Current()), stateOf, save)
      ensures old(future) == [] ==> editor.shapesHighlighted == old(editor.shapesHighlighted)
      ensures old(future) == [] ==> editor.shapesSelected == old(editor.shapesSelected)
      ensures old(future) != [] ==> editor.shapesHighlighted == 0 && editor.shapesSelected == 0
    {
      if future != [] {
        var memento := future[|future| - 1];
        future := future[..|future| - 1];
        if |history| >= MaxStackSize {
          history := history[1..];
        }
        var replaced := save(editor.nodes);
        editor.nodes := stateOf(memento);
        history := history + [replaced];
        ResetCounters();
      }
      RedoStepFacts(old(Stacks(history, future)), save(old(editor.nodes)));
    }

    /** `update`: records the editor's memento only when its state changed.
        `changed` is `hasStateChanged()` and `memento` is `saveToMemento()`;
        the result says whether `stateRecorded()` is called. */
    method Update(changed: bool, memento: M) returns (recorded: bool)
      requires Valid()
      modifies this
      ensures Valid()
      ensures recorded == changed
      ensures changed ==> Stacks(history, future) == RecordStep(old(Stacks(history, future)), memento)
      ensures !changed ==> history == old(history) && future == old(future)
    {
      if changed {
        Record(memento);
        recorded := true;
      } else {
        recorded := false;
      }
    }

    /** `record`: evicts the oldest entries until there is room, pushes the
        memento and clears the future. */
    method Record(memento: M)
      modifies this
      ensures Valid()
      ensures Stacks(history, future) == RecordStep(old(Stacks(history, future)), memento)
    {
      while |history| >= MaxStackSize
        invariant |history| <= |old(history)|
        invariant history == old(history)[|old(history)| - |history|..]
        invariant |history| < |old(history)| ==> |history| >= MaxStackSize - 1
        decreases |history|
      {
        history := history[1..];
      }
      history := history + [memento];
      future := [];
    }

    /** `resetCounters`: both editor counters become 0. */
    method ResetCounters()
      modifies editor
      ensures editor.shapesHighlighted == 0 && editor.shapesSelected == 0
      ensures editor.nodes == old(editor.nodes)
    {
      editor.shapesHighlighted := 0;
      editor.shapesSelected := 0;
    }
  }
}
