/**
 * The list helpers of `misc.Utils` and `util.Utils` (the two classes carry
 * the same search loops): first index of a name, first index of a maximum
 * or minimum with a `Double.MAX_VALUE` sentinel, and the dimension check of
 * the distance between coordinate lists. Doubles are reals.
 */
module ListSearch {
  import opened Common
  import Nodes

  /** `Double.MAX_VALUE`, (2^53 - 1) * 2^970. */
  const DoubleMax: real := 89884656743115785407263711865852178399035283762922498299458738401578630390014269380294779316383439085770229476757191232117160663444732091384233773351768758493024955288275641038122745045194664472037934254227566971152291618451611474082904279666061674137398913102072361584369088590459649940625202013092062429184.0

  /** `FindCanvasShape` of `misc.Utils`: the first node whose name equals
      the given one, or -1. */
  method FindCanvasShape(nodes: seq<Nodes.EDANode>, name: string) returns (r: int)
    ensures -1 <= r < |nodes|
    ensures r == -1 <==> forall k :: 0 <= k < |nodes| ==> nodes[k].name != name
    ensures r != -1 ==> nodes[r].name == name && forall k :: 0 <= k < r ==> nodes[k].name != name
  {
    for i := 0 to |nodes|
      invariant forall k :: 0 <= k < i ==> nodes[k].name != name
    {
      if nodes[i].name == name {
        return i;
      }
    }
    return -1;
  }

  /** `FindCanvasShape` of `util.Utils`, over the names of the shapes in
      list order: the first index of the name, or -1. */
  method FindShapeName(names: seq<string>, name: string) returns (r: int)
    ensures r == IndexOf(names, name)
  {
    for i := 0 to |names|
      invariant name !in names[..i]
    {
      if names[i] == name {
        return i;
      }
    }
    assert names[..|names|] == names;
    return -1;
  }

  /** `ListFindMaxIdx`: the first index holding the largest value, found by
      a strict `>` against a running maximum that starts at
      `-Double.MAX_VALUE`; -1 when no value beats the sentinel, in
      particular for an empty list. */
  method ListFindMaxIdx(list: seq<real>) returns (maxIdx: int)
    ensures -1 <= maxIdx < |list|
    ensures maxIdx == -1 <==> forall k :: 0 <= k < |list| ==> list[k] <= -DoubleMax
    ensures maxIdx != -1 ==> forall k :: 0 <= k < |list| ==> list[k] <= list[maxIdx]
    ensures maxIdx != -1 ==> forall k :: 0 <= k < maxIdx ==> list[k] < list[maxIdx]
  {
    maxIdx := -1;
    var max := -DoubleMax;
    for i := 0 to |list|
      invariant -1 <= maxIdx < i || (maxIdx == -1 && i == 0)
      invariant maxIdx == -1 ==> max == -DoubleMax && forall k :: 0 <= k < i ==> list[k] <= -DoubleMax
      invariant maxIdx != -1 ==> max == list[maxIdx] && max > -DoubleMax
      invariant forall k :: 0 <= k < i ==> list[k] <= max
      invariant maxIdx != -1 ==> forall k :: 0 <= k < maxIdx ==> list[k] < max
    {
      if list[i] > max {
        maxIdx := i;
        max := list[i];
      }
    }
  }

  /** `ListFindMinIdx`: the mirror image, with a strict `<` and the
      sentinel `Double.MAX_VALUE`. */
  method ListFindMinIdx(list: seq<real>) returns (minIdx: int)
    ensures -1 <= minIdx < |list|
    ensures minIdx == -1 <==> forall k :: 0 <= k < |list| ==> list[k] >= DoubleMax
    ensures minIdx != -1 ==> forall k :: 0 <= k < |list| ==> list[k] >= list[minIdx]
    ensures minIdx != -1 ==> forall k :: 0 <= k < minIdx ==> list[k] > list[minIdx]
  {
    minIdx := -1;
    var min := DoubleMax;
    for i := 0 to |list|
      invariant -1 <= minIdx < i || (minIdx == -1 && i == 0)
      invariant minIdx == -1 ==> min == DoubleMax && forall k :: 0 <= k < i ==> list[k] >= DoubleMax
      invariant minIdx != -1 ==> min == list[minIdx] && min < DoubleMax
      invariant forall k :: 0 <= k < i ==> list[k] >= min
      invariant minIdx != -1 ==> forall k :: 0 <= k < minIdx ==> list[k] > min
    {
      if list[i] < min {
        minIdx := i;
        min := list[i];
      }
    }
  }

  const IndexError := "IndexOutOfBoundsException: Index: -1"

  /** `ListFindMax`: the largest value; `list.get(-1)` fails when no value
      beats the sentinel, in particular on an empty list. */
  method ListFindMax(list: seq<real>) returns (r: Result<real>)
    ensures r.Err? <==> forall k :: 0 <= k < |list| ==> list[k] <= -DoubleMax
    ensures r.Ok? ==> r.value in list && forall k :: 0 <= k < |list| ==> list[k] <= r.value
  {
    var maxIdx := ListFindMaxIdx(list);
    if maxIdx == -1 {
      return Err(IndexError);
    }
    return Ok(list[maxIdx]);
  }

  /** `ListFindMin`: the smallest value, failing like `ListFindMax`. */
  method ListFindMin(list: seq<real>) returns (r: Result<real>)
    ensures r.Err? <==> forall k :: 0 <= k < |list| ==> list[k] >= DoubleMax
    ensures r.Ok? ==> r.value in list && forall k :: 0 <= k < |list| ==> list[k] >= r.value
  {
    var minIdx := ListFindMinIdx(list);
    if minIdx == -1 {
      return Err(IndexError);
    }
    return Ok(list[minIdx]);
  }

  /** A list holding only `-Double.MAX_VALUE` has a maximum, but the
      search reports none. */
  method MaxOfLowestDoubleIsMissed() returns (r: int)
    ensures r == -1
  {
    r := ListFindMaxIdx([-DoubleMax]);
  }

  /** The sum of squared coordinate differences. */
  function SquaredSum(a: seq<real>, b: seq<real>): (r: real)
    requires |a| == |b|
  {
    if a == [] then 0.0
    else SquaredSum(a[..|a| - 1], b[..|b| - 1]) + (b[|b| - 1] - a[|a| - 1]) * (b[|b| - 1] - a[|a| - 1])
  }

  /** A point is at distance zero from itself. */
  lemma {:induction false} SquaredSumSelf(a: seq<real>)
    ensures SquaredSum(a, a) == 0.0
  {
    if a != [] {
      SquaredSumSelf(a[..|a| - 1]);
    }
  }

  /** The distance from a to b is the distance from b to a. */
  lemma {:induction false} SquaredSumSymmetric(a: seq<real>, b: seq<real>)
    requires |a| == |b|
    ensures SquaredSum(a, b) == SquaredSum(b, a)
  {
    if a != [] {
      var n := |a| - 1;
      SquaredSumSymmetric(a[..n], b[..n]);
      var d := b[n] - a[n];
      assert (a[n] - b[n]) * (a[n] - b[n]) == (-d) * (-d) == d * d;
    }
  }

  const DimensionError := "ERROR: Attempting to get distance between points of different dimensions!"

  /** `GetDist` on coordinate lists up to the final square root: an error
      when the dimensions differ, otherwise the sum of squared differences
      accumulated in index order. */
  method GetDistSquared(pointA: seq<real>, pointB: seq<real>) returns (r: Result<real>)
    ensures |pointA| != |pointB| ==> r == Err(DimensionError)
    ensures |pointA| == |pointB| ==> r == Ok(SquaredSum(pointA, pointB))
  {
    if |pointA| != |pointB| {
      return Err(DimensionError);
    }
    var squaredSum := 0.0;
    for i := 0 to |pointA|
      invariant squaredSum == SquaredSum(pointA[..i], pointB[..i])
    {
      assert pointA[..i + 1][..i] == pointA[..i];
      assert pointB[..i + 1][..i] == pointB[..i];
      squaredSum := squaredSum + (pointB[i] - pointA[i]) * (pointB[i] - pointA[i]);
    }
    assert pointA[..|pointA|] == pointA && pointB[..|pointB|] == pointB;
    return Ok(squaredSum);
  }
}
