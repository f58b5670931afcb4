/**
 * `util.Recorder`: the older undo/redo pair of memento stacks, with no size
 * bound and no guard. Popping an empty `java.util.Stack` throws
 * `EmptyStackException` before anything changes; `undo` and `redo` then
 * report the throw and leave both stacks as they were.
 */
module UtilRecorder {

  /** Both stacks as values; the top of each is its last element. */
  datatype Stacks<M> = Stacks(history: seq<M>, future: seq<M>)

  /** `undo`: pop the history and push the popped memento's `restore()`
      onto the future. */
  function UndoStep<M>(st: Stacks<M>, restore: M -> M): (r: Stacks<M>)
    requires st.history != []
  {
    Stacks(st.history[..|st.history| - 1], st.future + [restore(st.history[|st.history| - 1])])
  }

  /** `redo`: pop the future and push the popped memento's `restore()`
      onto the history. */
  function RedoStep<M>(st: Stacks<M>, restore: M -> M): (r: Stacks<M>)
    requires st.future != []
  {
    Stacks(st.history + [restore(st.future[|st.future| - 1])], st.future[..|st.future| - 1])
  }

  /** Undo and redo move one memento between the stacks: the total number
      of mementos stays the same, and the moved one lands on top. */
  lemma StepsKeepTotal<M>(st: Stacks<M>, restore: M -> M)
    ensures st.history != [] ==>
      var r := UndoStep(st, restore);
      |r.history| + |r.future| == |st.history| + |st.future| &&
      r.future[|r.future| - 1] == restore(st.history[|st.history| - 1])
    ensures st.future != [] ==>
      var r := RedoStep(st, restore);
      |r.history| + |r.future| == |st.history| + |st.future| &&
      r.history[|r.history| - 1] == restore(st.future[|st.future| - 1])
  {
  }

  /** Redo right after undo gives back both stacks whenever restoring twice
      returns the memento undo popped; with no bound nothing is lost. */
  lemma {:induction false} RedoUndoRoundTrip<M>(st: Stacks<M>, restore: M -> M)
    requires st.history != []
    requires restore(restore(st.history[|st.history| - 1])) == st.history[|st.history| - 1]
    ensures RedoStep(UndoStep(st, restore), restore) == st
  {
    var u := UndoStep(st, restore);
    assert u.future[..|u.future| - 1] == st.future;
    assert u.history + [st.history[|st.history| - 1]] == st.history;
  }

  /** Undo right after redo, symmetrically. */
  lemma {:induction false} UndoRedoRoundTrip<M>(st: Stacks<M>, restore: M -> M)
    requires st.future != []
    requires restore(restore(st.future[|st.future| - 1])) == st.future[|st.future| - 1]
    ensures UndoStep(RedoStep(st, restore), restore) == st
  {
    var r := RedoStep(st, restore);
    assert r.history[..|r.history| - 1] == st.history;
    assert r.future + [st.future[|st.future| - 1]] == st.future;
  }

  class Recorder<M> {
    var history: seq<M>
    var future: seq<M>

    constructor ()
      ensures history == [] && future == []
    {
      history := [];
      future := [];
    }

    /** `undo`: `thrown` is the `EmptyStackException` of popping an empty
        history, after which nothing has changed. */
    method Undo(restore: M -> M) returns (thrown: bool)
      modifies this
      ensures thrown <==> old(history) == []
      ensures thrown ==> history == old(history) && future == old(future)
      ensures !thrown ==> Stacks(history, future) == UndoStep(old(Stacks(history, future)), restore)
    {
      if history == [] {
        return true;
      }
      var memento := history[|history| - 1];
      history := history[..|history| - 1];
      future := future + [restore(memento)];
      thrown := false;
    }

    /** `redo`: the mirror image of `Undo`. */
    method Redo(restore: M -> M) returns (thrown: bool)
      modifies this
      ensures thrown <==> old(future) == []
      ensures thrown ==> history == old(history) && future == old(future)
      ensures !thrown ==> Stacks(history, future) == RedoStep(old(Stacks(history, future)), restore)
    {
      if future == [] {
        return true;
      }
      var memento := future[|future| - 1];
      future := future[..|future| - 1];
      history := history + [restore(memento)];
      thrown := false;
    }

    /** `record`: an unbounded push that leaves the future alone. */
    method Record(memento: M)
      modifies this
      ensures history == old(history) + [memento]
      ensures future == old(future)
    {
      history := history + [memento];
    }
  }
}
