/**
 * `netlist.NetList`: a generic list of net-list entries over a
 * `java.util.LinkedList`. `Get(idx)` reads `list[idx]`. An index outside the
 * list makes the Java list throw `IndexOutOfBoundsException`, so every
 * indexed operation demands a valid index of its caller.
 */
module NetLists {
  import opened Common

  class NetList<T> {
    var list: seq<T>

    constructor ()
      ensures list == []
    {
      list := [];
    }

    /** `Get(idx)`. */
    function Get(idx: nat): T
      reads this
      requires idx < |list|
    {
      list[idx]
    }

    /** `Append`: the element goes last, the others stay where they were. */
    method Append(node: T)
      modifies this
      ensures |list| == |old(list)| + 1 && Get(|list| - 1) == node
      ensures forall k :: 0 <= k < |old(list)| ==> Get(k) == old(list)[k]
    {
      list := list + [node];
    }

    /** `Insert(idx, node)`: afterwards `Get(idx)` is the node and the
        elements from idx on have moved up by one. */
    method Insert(idx: nat, node: T)
      requires idx <= |list|
      modifies this
      ensures list == InsertAt(old(list), idx, node)
      ensures Get(idx) == node
    {
      list := list[..idx] + [node] + list[idx..];
    }

    /** `Remove(idx)`: returns the element that was at idx and closes the
        gap. */
    method Remove(idx: nat) returns (removed: T)
      requires idx < |list|
      modifies this
      ensures removed == old(list)[idx]
      ensures list == RemoveAt(old(list), idx)
    {
      removed := list[idx];
      list := list[..idx] + list[idx + 1..];
    }

    method Clear()
      modifies this
      ensures list == []
    {
      list := [];
    }
  }
}
