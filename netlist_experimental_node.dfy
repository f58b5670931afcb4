/**
 * `netlist.NetListExperimentalNode`: a value with a list of connections.
 * `GetValue`, `ConnGet` and `ConnGetNum` read the fields `value` and
 * `connections`. Indexed operations demand a valid index, since the Java
 * list throws otherwise.
 */
module ExperimentalNetListNodes {
  import opened Common

  const NodeStringError := "ERROR: Attempting to stringify an unrecognized net list node value!"

  class NetListExperimentalNode<T> {
    var value: T
    var connections: seq<T>

    /** Stores the value with an empty connection list. */
    constructor (nodeValue: T)
      ensures value == nodeValue && connections == []
    {
      value := nodeValue;
      connections := [];
    }

    /** The copy constructor: the same value and the same connections in
        the same order, in a new object. */
    constructor Copy(other: NetListExperimentalNode<T>)
      ensures value == other.value && connections == other.connections
    {
      value := other.value;
      var cs: seq<T> := [];
      for i := 0 to |other.connections|
        invariant cs == other.connections[..i]
      {
        cs := cs + [other.connections[i]];
      }
      connections := cs;
    }

    /** `SetValue`: `GetValue` returns the new value; the connections stay. */
    method SetValue(nodeValue: T)
      modifies this
      ensures value == nodeValue && connections == old(connections)
    {
      value := nodeValue;
    }

    method ConnAppend(n: T)
      modifies this
      ensures connections == old(connections) + [n] && value == old(value)
    {
      connections := connections + [n];
    }

    method ConnInsert(idx: nat, n: T)
      requires idx <= |connections|
      modifies this
      ensures connections == InsertAt(old(connections), idx, n) && value == old(value)
    {
      connections := connections[..idx] + [n] + connections[idx..];
    }

    method ConnRemove(idx: nat) returns (removed: T)
      requires idx < |connections|
      modifies this
      ensures removed == old(connections)[idx]
      ensures connections == RemoveAt(old(connections), idx) && value == old(value)
    {
      removed := connections[idx];
      connections := connections[..idx] + connections[idx + 1..];
    }

    method ConnClear()
      modifies this
      ensures connections == [] && value == old(value)
    {
      connections := [];
    }

    /** `ConnSet`: only the connection at idx changes. */
    method ConnSet(idx: nat, n: T)
      requires idx < |connections|
      modifies this
      ensures connections == old(connections)[idx := n] && value == old(value)
    {
      connections := connections[idx := n];
    }

    /** `ToString`: the value itself when it is a `String`, an error
        otherwise. `asString` gives the string a value is, or `None` when
        its class is not `String`. */
    function ToString(asString: T -> Option<string>): (r: Result<string>)
      reads this
      ensures r.Ok? <==> asString(value).Some?
      ensures r.Ok? ==> r.value == asString(value).value
      ensures r.Err? ==> r.error == NodeStringError
    {
      match asString(value)
      case Some(s) => Ok(s)
      case None => Err(NodeStringError)
    }
  }
}
