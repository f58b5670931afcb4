/**
 * Shared vocabulary of the EDAmame model: optional values, results of
 * operations that the Java code lets throw, the mutable pair of doubles
 * (`PairMutable`) as an immutable record, and the `java.util.LinkedList`
 * operations the core uses, written on sequences.
 */
module Common {

  datatype Option<T> = None | Some(value: T)

  /** The outcome of a Java call that either returns or throws. */
  datatype Result<T> = Ok(value: T) | Err(error: string)
  {
    predicate IsFailure() { Err? }
  }

  /** `PairMutable` holding two doubles (left, right). */
  datatype Pair = Pair(left: real, right: real)

  function Add(a: Pair, b: Pair): (r: Pair)
    ensures r.left - a.left == b.left && r.right - a.right == b.right
  {
    Pair(a.left + b.left, a.right + b.right)
  }

  function Sub(a: Pair, b: Pair): (r: Pair)
    ensures Add(r, b) == a
  {
    Pair(a.left - b.left, a.right - b.right)
  }

  /** `list.add(idx, x)`: x lands at idx and the tail shifts up by one. */
  function InsertAt<T>(s: seq<T>, idx: nat, x: T): (r: seq<T>)
    requires idx <= |s|
    ensures |r| == |s| + 1 && r[idx] == x
    ensures forall k :: 0 <= k < idx ==> r[k] == s[k]
    ensures forall k :: idx <= k < |s| ==> r[k + 1] == s[k]
  {
    s[..idx] + [x] + s[idx..]
  }

  /** `list.remove(idx)`: the element at idx goes and the tail closes the gap. */
  function RemoveAt<T>(s: seq<T>, idx: nat): (r: seq<T>)
    requires idx < |s|
    ensures |r| == |s| - 1
    ensures forall k :: 0 <= k < idx ==> r[k] == s[k]
    ensures forall k :: idx <= k < |r| ==> r[k] == s[k + 1]
  {
    s[..idx] + s[idx + 1..]
  }

  /** Removing the element between two parts leaves the two parts. */
  lemma RemoveAtJoin<T>(a: seq<T>, x: T, b: seq<T>)
    ensures RemoveAt(a + [x] + b, |a|) == a + b
  {
    assert (a + [x] + b)[..|a|] == a;
    assert (a + [x] + b)[|a| + 1..] == b;
  }

  /** Removing what was just inserted gives back the list. */
  lemma RemoveAfterInsert<T>(s: seq<T>, idx: nat, x: T)
    requires idx <= |s|
    ensures RemoveAt(InsertAt(s, idx, x), idx) == s
  {
    var r := RemoveAt(InsertAt(s, idx, x), idx);
    assert forall k :: 0 <= k < |s| ==> r[k] == s[k];
  }

  /** Putting back what was just removed, where it was, gives back the list. */
  lemma InsertAfterRemove<T>(s: seq<T>, idx: nat)
    requires idx < |s|
    ensures InsertAt(RemoveAt(s, idx), idx, s[idx]) == s
  {
    var r := InsertAt(RemoveAt(s, idx), idx, s[idx]);
    assert forall k :: 0 <= k < |s| ==> r[k] == s[k];
  }

  /** Index of the first occurrence of x, or -1 (`list.indexOf`). */
  function IndexOf<T(==)>(s: seq<T>, x: T): (r: int)
    ensures -1 <= r < |s|
    ensures r == -1 <==> x !in s
    ensures r != -1 ==> s[r] == x && forall k :: 0 <= k < r ==> s[k] != x
  {
    if |s| == 0 then -1
    else if s[0] == x then 0
    else
      var t := IndexOf(s[1..], x);
      assert x in s[1..] ==> x in s;
      assert x in s ==> s[0] == x || x in s[1..];
      if t == -1 then -1 else t + 1
  }

  /** `list.remove(Object)`: drops the first occurrence of x, if any. */
  function RemoveFirst<T(==)>(s: seq<T>, x: T): (r: seq<T>)
    ensures x !in s ==> r == s
    ensures x in s ==> r == RemoveAt(s, IndexOf(s, x))
  {
    var i := IndexOf(s, x);
    if i == -1 then s else RemoveAt(s, i)
  }

  /** Removing an element by value and removing the index where it first
      occurs are the same thing; used where the source mixes the two. */
  lemma RemoveFirstAtFirstIndex<T>(s: seq<T>, i: nat)
    requires i < |s|
    requires forall k :: 0 <= k < i ==> s[k] != s[i]
    ensures RemoveFirst(s, s[i]) == RemoveAt(s, i)
  {
    assert s[i] in s;
    var j := IndexOf(s, s[i]);
    assert j <= i;
    assert j == i;
  }
}
