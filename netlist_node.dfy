/**
 * `netlist.NetListNode`: a value with a list of connections. Its only
 * initialiser, `NetListNode(T)`, is a `void` method rather than a
 * constructor, so a newly created object holds a null value and a null
 * connection list until that method is called; null is `None` here.
 * Using the connection list while it is null throws
 * a null dereference, so the `Conn*` operations demand that the
 * initialiser has run.
 */
module NetListNodes {
  import opened Common

  class NetListNode<T> {
    var node: Option<T>
    var connections: Option<seq<T>>

    /** Java's implicit constructor: both fields null. */
    constructor ()
      ensures node == None && connections == None
    {
      node := None;
      connections := None;
    }

    /** The `void NetListNode(T)` initialiser: afterwards `Get` returns the
        value and there are no connections. */
    method NetListNode(nodeValue: T)
      modifies this
      ensures Get() == Some(nodeValue)
      ensures connections == Some([])
    {
      node := Some(nodeValue);
      connections := Some([]);
    }

    /** `Set`: `Get` returns the new value; the connections stay. */
    method Set(nodeValue: T)
      modifies this
      ensures Get() == Some(nodeValue)
      ensures connections == old(connections)
    {
      node := Some(nodeValue);
    }

    /** `Get`; `None` stands for null. */
    function Get(): Option<T>
      reads this
    {
      node
    }

    method ConnAppend(n: T)
      requires connections.Some?
      modifies this
      ensures connections == Some(old(connections).value + [n])
      ensures Get() == old(Get())
    {
      connections := Some(connections.value + [n]);
    }

    method ConnInsert(idx: nat, n: T)
      requires connections.Some? && idx <= |connections.value|
      modifies this
      ensures connections == Some(InsertAt(old(connections).value, idx, n))
      ensures ConnGet(idx) == n
      ensures Get() == old(Get())
    {
      var cs := connections.value;
      connections := Some(cs[..idx] + [n] + cs[idx..]);
    }

    method ConnRemove(idx: nat) returns (removed: T)
      requires connections.Some? && idx < |connections.value|
      modifies this
      ensures removed == old(connections).value[idx]
      ensures connections == Some(RemoveAt(old(connections).value, idx))
      ensures Get() == old(Get())
    {
      var cs := connections.value;
      removed := cs[idx];
      connections := Some(cs[..idx] + cs[idx + 1..]);
    }

    /** `ConnClear`: empties the connections and keeps the value. */
    method ConnClear()
      requires connections.Some?
      modifies this
      ensures connections == Some([])
      ensures Get() == old(Get())
    {
      connections := Some([]);
    }

    /** `ConnGet(idx)`. */
    function ConnGet(idx: nat): T
      reads this
      requires connections.Some? && idx < |connections.value|
    {
      connections.value[idx]
    }
  }
}
