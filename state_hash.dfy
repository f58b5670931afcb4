/**
 * `StateHashUtil.generateStateHash`: the `java.util.List.hashCode` style fold
 * over the objects an editor reports as its state, in Java `int` arithmetic
 * (wrapping at 32 bits). The elements' own `hashCode` is a parameter.
 */
module StateHash {
  import opened Common

  const TWO32: int := 0x1_0000_0000
  const TWO31: int := 0x8000_0000

  /** The Java `int` a mathematical integer wraps to. */
  function Wrap32(x: int): (r: int)
    ensures -TWO31 <= r < TWO31
    ensures (r - x) % TWO32 == 0
  {
    var m := x % TWO32;
    if m < TWO31 then m else m - TWO32
  }

  /** Integers that agree modulo 2^32 wrap to the same `int`. */
  lemma Wrap32Congruent(u: int, v: int)
    requires (u - v) % TWO32 == 0
    ensures Wrap32(u) == Wrap32(v)
  {
    var k := (u - v) / TWO32;
    assert u == v + k * TWO32;
    ModShift(v, k);
  }

  lemma ModShift(v: int, k: int)
    ensures (v + k * TWO32) % TWO32 == v % TWO32
  {
    var q, r := v / TWO32, v % TWO32;
    assert v + k * TWO32 == (q + k) * TWO32 + r;
  }

  /** Each element's contribution: its hash code, or 0 for a null element. */
  function Hashes<T>(objs: seq<Option<T>>, hashCode: T -> int): (hs: seq<int>)
    ensures |hs| == |objs|
    ensures forall i :: 0 <= i < |objs| ==> hs[i] == (if objs[i].None? then 0 else hashCode(objs[i].value))
  {
    if objs == [] then []
    else [if objs[0].None? then 0 else hashCode(objs[0].value)] + Hashes(objs[1..], hashCode)
  }

  /** The fold the loop computes: start at 1, then hash := 31 * hash + h
      for each element hash h in iteration order, in `int` arithmetic. */
  function Fold(hs: seq<int>): int
  {
    if hs == [] then 1 else Wrap32(31 * Fold(hs[..|hs| - 1]) + hs[|hs| - 1])
  }

  /** The same polynomial over unbounded integers: 31^n plus each element
      hash times 31 to the number of elements after it. */
  function Poly(hs: seq<int>): int
  {
    if hs == [] then 1 else 31 * Poly(hs[..|hs| - 1]) + hs[|hs| - 1]
  }

  /** One step of the fold respects congruence modulo 2^32. */
  lemma StepCongruent(w: int, q: int, x: int)
    requires (w - q) % TWO32 == 0
    ensures Wrap32(31 * w + x) == Wrap32(31 * q + x)
  {
    var k := (w - q) / TWO32;
    assert w - q == k * TWO32;
    assert (31 * w + x) - (31 * q + x) == (31 * k) * TWO32;
    ModShift(31 * q + x, 31 * k);
    Wrap32Congruent(31 * w + x, 31 * q + x);
  }

  /** Wrapping after every step gives the same `int` as computing the whole
      polynomial exactly and wrapping once. */
  lemma {:induction false} FoldIsWrappedPoly(hs: seq<int>)
    ensures Fold(hs) == Wrap32(Poly(hs))
  {
    if hs == [] {
    } else {
      var p := hs[..|hs| - 1];
      var x := hs[|hs| - 1];
      FoldIsWrappedPoly(p);
      StepCongruent(Fold(p), Poly(p), x);
    }
  }

  /** Appending an element: the old hash times 31 plus the element's hash,
      wrapped. */
  lemma FoldAppend(hs: seq<int>, x: int)
    ensures Fold(hs + [x]) == Wrap32(31 * Fold(hs) + x)
  {
    assert (hs + [x])[..|hs|] == hs;
  }

  /** `generateStateHash`: 0 for a null state collection, otherwise the fold
      over the element hashes in iteration order (1 for an empty one). */
  method GenerateStateHash<T>(state: Option<seq<Option<T>>>, hashCode: T -> int) returns (hash: int)
    ensures state.None? ==> hash == 0
    ensures state.Some? ==> hash == Fold(Hashes(state.value, hashCode))
    ensures state.Some? ==> hash == Wrap32(Poly(Hashes(state.value, hashCode)))
    ensures state.Some? && state.value == [] ==> hash == 1
  {
    if state.None? {
      return 0;
    }
    var objs := state.value;
    ghost var hs := Hashes(objs, hashCode);
    hash := 1;
    for i := 0 to |objs|
      invariant hash == Fold(hs[..i])
    {
      var h := if objs[i].None? then 0 else hashCode(objs[i].value);
      assert hs[..i + 1] == hs[..i] + [h];
      FoldAppend(hs[..i], h);
      hash := Wrap32(31 * hash + h);
    }
    assert hs[..|objs|] == hs;
    FoldIsWrappedPoly(hs);
  }
}
