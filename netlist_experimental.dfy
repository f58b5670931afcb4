/**
 * `netlist.NetListExperimental`: a list of `NetListExperimentalNode`
 * objects. `Get(idx)` reads `list[idx]` and `GetNodeNum()` is `|list|`.
 * Nodes are objects: the same node may be appended twice, and `Set` changes
 * the node object itself, so every index holding it sees the new value.
 * Indexed operations demand a valid index, since the Java list throws
 * otherwise.
 */
module ExperimentalNetLists {
  import opened Common
  import opened ExperimentalNetListNodes

  /** The values of the nodes, in list order. */
  function ValuesOf<T>(ns: seq<NetListExperimentalNode<T>>): (vs: seq<T>)
    reads ns
    ensures |vs| == |ns|
    ensures forall i :: 0 <= i < |ns| ==> vs[i] == ns[i].value
  {
    if ns == [] then [] else ValuesOf(ns[..|ns| - 1]) + [ns[|ns| - 1].value]
  }

  /** The connections of one node as `ToString` lists them: each one
      followed by ", ". */
  function Joined<T>(cs: seq<T>, show: T -> string): string
  {
    if cs == [] then "" else Joined(cs[..|cs| - 1], show) + show(cs[|cs| - 1]) + ", "
  }

  /** The line `ToString` writes for one node. */
  function Line<T>(name: string, cs: seq<T>, show: T -> string): string
  {
    name + " --> " + Joined(cs, show) + "\n"
  }

  /** The lines `ToString` writes for the nodes ns, one per node, or the
      error of the first node whose value is not a `String`. */
  function Lines<T>(ns: seq<NetListExperimentalNode<T>>, asString: T -> Option<string>, show: T -> string): (r: Result<string>)
    reads ns
    ensures r.Err? ==> r.error == NodeStringError
  {
    if ns == [] then Ok("")
    else
      match Lines(ns[..|ns| - 1], asString, show)
      case Err(e) => Err(e)
      case Ok(prefix) =>
        var n := ns[|ns| - 1];
        match n.ToString(asString)
        case Err(e) => Err(e)
        case Ok(name) => Ok(prefix + Line(name, n.connections, show))
  }

  /** One more node adds its line, when its value is a `String`. */
  lemma LinesAppend<T>(ns: seq<NetListExperimentalNode<T>>, n: NetListExperimentalNode<T>, asString: T -> Option<string>, show: T -> string)
    requires Lines(ns, asString, show).Ok? && asString(n.value).Some?
    ensures Lines(ns + [n], asString, show) ==
      Ok(Lines(ns, asString, show).value + Line(asString(n.value).value, n.connections, show))
  {
    assert (ns + [n])[..|ns|] == ns;
  }

  /** Rendering succeeds exactly when every node's value is a `String`. */
  lemma {:induction false} LinesOkIffAllStrings<T>(ns: seq<NetListExperimentalNode<T>>, asString: T -> Option<string>, show: T -> string)
    ensures Lines(ns, asString, show).Ok? <==> forall i :: 0 <= i < |ns| ==> asString(ns[i].value).Some?
  {
    if ns != [] {
      var p := ns[..|ns| - 1];
      LinesOkIffAllStrings(p, asString, show);
      assert forall i :: 0 <= i < |p| ==> p[i] == ns[i];
    }
  }

  /** The body of the outer loop of `ToString` for one node whose value
      is the string `name`: the name, " --> ", each connection followed by
      ", ", and a newline, appended to str. */
  method AppendLine<T>(str: string, name: string, cs: seq<T>, show: T -> string) returns (r: string)
    ensures r == str + Line(name, cs, show)
  {
    r := str + name + " --> ";
    ghost var head := r;
    for j := 0 to |cs|
      invariant r == head + Joined(cs[..j], show)
    {
      assert cs[..j + 1][..j] == cs[..j];
      r := r + show(cs[j]) + ", ";
    }
    assert cs[..|cs|] == cs;
    r := r + "\n";
  }

  /** Setting a value in a copy leaves the original list's values alone. */
  method SetOnCopy<T(==)>(orig: NetListExperimental<T>, idx: nat, value: T) returns (copy: NetListExperimental<T>)
    requires idx < |orig.list|
    ensures fresh(copy)
    ensures copy.Values() == old(orig.Values())[idx := value]
    ensures orig.list == old(orig.list) && orig.Values() == old(orig.Values())
  {
    copy := new NetListExperimental.Copy(orig);
    copy.Set(idx, value);
  }

  class NetListExperimental<T(==)> {
    var list: seq<NetListExperimentalNode<T>>

    /** The node values, in order. */
    function Values(): (vs: seq<T>)
      reads this, list
      ensures vs == ValuesOf(list)
    {
      ValuesOf(list)
    }

    /** A new list has no nodes. */
    constructor ()
      ensures list == []
    {
      list := [];
    }

    /** The copy constructor: as many nodes, each a new copy with the same
        value and connections, so nothing done to the copy's nodes reaches
        the original's. */
    constructor Copy(other: NetListExperimental<T>)
      ensures |list| == |other.list|
      ensures forall i :: 0 <= i < |list| ==> fresh(list[i])
      ensures forall i, j :: 0 <= i < j < |list| ==> list[i] != list[j]
      ensures forall i :: 0 <= i < |list| ==> list[i].value == other.list[i].value
      ensures forall i :: 0 <= i < |list| ==> list[i].connections == other.list[i].connections
    {
      var l: seq<NetListExperimentalNode<T>> := [];
      for i := 0 to |other.list|
        invariant |l| == i
        invariant forall k :: 0 <= k < i ==> fresh(l[k])
        invariant forall k, m :: 0 <= k < m < i ==> l[k] != l[m]
        invariant forall k :: 0 <= k < i ==> l[k].value == other.list[k].value
        invariant forall k :: 0 <= k < i ==> l[k].connections == other.list[k].connections
      {
        var n := new NetListExperimentalNode.Copy(other.list[i]);
        l := l + [n];
      }
      list := l;
    }

    /** `Append`: the node goes last; the others stay. */
    method Append(node: NetListExperimentalNode<T>)
      modifies this
      ensures list == old(list) + [node]
    {
      list := list + [node];
    }

    /** `Insert(idx, node)`: the node lands at idx and later ones shift up. */
    method Insert(idx: nat, node: NetListExperimentalNode<T>)
      requires idx <= |list|
      modifies this
      ensures list == InsertAt(old(list), idx, node)
    {
      list := list[..idx] + [node] + list[idx..];
    }

    /** `Remove(idx)`: returns the node at idx and closes the gap. */
    method Remove(idx: nat) returns (removed: NetListExperimentalNode<T>)
      requires idx < |list|
      modifies this
      ensures removed == old(list)[idx]
      ensures list == RemoveAt(old(list), idx)
    {
      removed := list[idx];
      list := list[..idx] + list[idx + 1..];
    }

    method Clear()
      modifies this
      ensures list == []
    {
      list := [];
    }

    /** `Set(idx, value)`: the node at idx takes the value; every other
        node keeps its own unless it is that same object. */
    method Set(idx: nat, value: T)
      requires idx < |list|
      modifies list[idx]
      ensures list == old(list)
      ensures list[idx].value == value
      ensures forall j :: 0 <= j < |list| ==>
        list[j].value == (if list[j] == list[idx] then value else old(list[j].value))
      ensures forall j :: 0 <= j < |list| ==> list[j].connections == old(list[j].connections)
    {
      var node := list[idx];
      node.SetValue(value);
    }

    /** `Find`: the first index whose value equals the one searched for, or
        -1. Java compares with `==`, which for objects is identity; equality
        of `T` here is the same relation for class types. */
    method Find(searchValue: T) returns (r: int)
      ensures r == IndexOf(Values(), searchValue)
    {
      var i := 0;
      while i < |list|
        invariant 0 <= i <= |list|
        invariant forall k :: 0 <= k < i ==> list[k].value != searchValue
      {
        if list[i].value == searchValue {
          return i;
        }
        i := i + 1;
      }
      return -1;
    }

    /** `ToString`: "[\n", a line per node, "]"; an error if some node's
        value is not a `String`. */
    method ToString(asString: T -> Option<string>, show: T -> string) returns (r: Result<string>)
      ensures Lines(list, asString, show).Err? ==> r == Lines(list, asString, show)
      ensures Lines(list, asString, show).Ok? ==> r == Ok("[\n" + Lines(list, asString, show).value + "]")
    {
      var str := "[\n";
      ghost var body := "";
      for i := 0 to |list|
        invariant Lines(list[..i], asString, show) == Ok(body)
        invariant str == "[\n" + body
      {
        var node := list[i];
        var name := node.ToString(asString);
        if name.Err? {
          LinesOkIffAllStrings(list, asString, show);
          return name;
        }
        ghost var line := Line(name.value, node.connections, show);
        str := AppendLine(str, name.value, node.connections, show);
        assert list[..i + 1] == list[..i] + [node];
        LinesAppend(list[..i], node, asString, show);
        body := body + line;
      }
      assert list[..|list|] == list;
      return Ok(str + "]");
    }
  }
}
