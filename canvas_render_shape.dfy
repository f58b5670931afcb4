/**
 * `CanvasRenderShape`: a shape drawn straight onto a canvas, held as four
 * parallel point lists (position, width, colour, opacity) and four parallel
 * line lists (endpoint indices, width, colour, opacity). Drawing checks the
 * list lengths and the line indices, turns every point into a filled oval
 * and every line into a stroke, and then recomputes the bounding box from
 * the first extreme points found by `ListFindMaxIdx`/`ListFindMinIdx`.
 *
 * The graphics context is replaced by the list of drawing operations
 * `DrawShape` would issue; `posReal` and `posMousePress`, which the canvas
 * render system reads and writes on every shape, are fields here that a new
 * shape leaves empty.
 */
module CanvasRenderShapes {
  import opened Common
  import opened Colors
  import ListSearch

  /** The two point indices a line joins (a `PairMutable` of integers). */
  datatype LineIndex = LineIndex(start: int, end: int)

  /** One call on the graphics context, with the global alpha in force. */
  datatype DrawOp =
    | FillOval(alpha: real, fill: Color, x: real, y: real, size: real)
    | StrokeLine(alpha: real, stroke: Color, width: real, from: Pair, to: Pair)

  /** Everything of a shape except its bounding box and draw position: what
      drawing leaves alone. */
  datatype Content = Content(
    name: string, points: seq<Pair>, pointWidths: seq<real>, pointColors: seq<Color>,
    pointOpacities: seq<real>, lineIndices: seq<LineIndex>, lineWidths: seq<real>,
    lineColors: seq<Color>, lineOpacities: seq<real>, globalOpacity: real,
    zoomScaling: bool, permanent: bool, posReal: Option<Pair>, posMousePress: Option<Pair>)

  function PointCountError(name: string): string
  {
    "ERROR: Attempting to draw canvas shape \"" + name + "\" with this.unequal amount of points, point widths or point colors!"
  }

  function LineCountError(name: string): string
  {
    "ERROR: Attempting to draw canvas shape \"" + name + "\" with unequal amount of lines, line widths or line colors!"
  }

  const StartIndexError := "ERROR: Drawing line with incorrect starting point index!"
  const EndIndexError := "ERROR: Drawing line with incorrect ending point index!"
  /** `LinkedList.get` past the end of an opacity list, or at index -1. */
  const OutOfBoundsError := "IndexOutOfBoundsException"

  /** Both endpoints of a line index a point that exists. */
  predicate InRange(l: LineIndex, pointCount: int)
  {
    0 <= l.start < pointCount && 0 <= l.end < pointCount
  }

  /** The lists of a shape that `DrawShape` draws without throwing: their
      lengths agree, the opacity lists it reads are long enough, every line
      joins two points, and the bounding-box searches find their extremes. */
  predicate ListsDrawable(points: seq<Pair>, pointWidths: seq<real>, pointColors: seq<Color>, pointOpacities: seq<real>,
                          lineIndices: seq<LineIndex>, lineWidths: seq<real>, lineColors: seq<Color>,
                          lineOpacities: seq<real>, globalOpacity: real)
  {
    |points| == |pointWidths| && |pointWidths| == |pointColors| &&
    |lineIndices| == |lineWidths| && |lineWidths| == |lineColors| &&
    (globalOpacity >= 1.0 ==> |pointOpacities| >= |points| && |lineOpacities| >= |lineIndices|) &&
    (forall i :: 0 <= i < |lineIndices| ==> InRange(lineIndices[i], |points|)) &&
    (exists k :: 0 <= k < |points| && points[k].left > -ListSearch.DoubleMax) &&
    (exists k :: 0 <= k < |points| && points[k].left < ListSearch.DoubleMax) &&
    (exists k :: 0 <= k < |points| && points[k].right > -ListSearch.DoubleMax) &&
    (exists k :: 0 <= k < |points| && points[k].right < ListSearch.DoubleMax)
  }

  /** The alpha drawn with: the element's own opacity while the global
      opacity is at least 1, the global opacity otherwise. */
  function Alpha(globalOpacity: real, opacities: seq<real>, i: int): real
    requires globalOpacity >= 1.0 ==> 0 <= i < |opacities|
  {
    if globalOpacity >= 1.0 then opacities[i] else globalOpacity
  }

  /** The x (or y) coordinates of a list of points. */
  function Xs(points: seq<Pair>): (xs: seq<real>)
    ensures |xs| == |points| && forall k :: 0 <= k < |points| ==> xs[k] == points[k].left
  {
    seq(|points|, k requires 0 <= k < |points| => points[k].left)
  }

  function Ys(points: seq<Pair>): (ys: seq<real>)
    ensures |ys| == |points| && forall k :: 0 <= k < |points| ==> ys[k] == points[k].right
  {
    seq(|points|, k requires 0 <= k < |points| => points[k].right)
  }

  /** What `ListFindMaxIdx` returns when it finds something: the first index
      of a largest value, which must beat the `-Double.MAX_VALUE` sentinel. */
  predicate IsFirstMax(list: seq<real>, i: int)
  {
    0 <= i < |list| && list[i] > -ListSearch.DoubleMax &&
    (forall k :: 0 <= k < |list| ==> list[k] <= list[i]) &&
    (forall k :: 0 <= k < i ==> list[k] < list[i])
  }

  /** The mirror image for `ListFindMinIdx`. */
  predicate IsFirstMin(list: seq<real>, i: int)
  {
    0 <= i < |list| && list[i] < ListSearch.DoubleMax &&
    (forall k :: 0 <= k < |list| ==> list[k] >= list[i]) &&
    (forall k :: 0 <= k < i ==> list[k] > list[i])
  }

  /** A search for a maximum (minimum) finds an index exactly when some value
      beats the sentinel. */
  predicate HasMax(list: seq<real>)
  {
    exists k :: 0 <= k < |list| && list[k] > -ListSearch.DoubleMax
  }

  predicate HasMin(list: seq<real>)
  {
    exists k :: 0 <= k < |list| && list[k] < ListSearch.DoubleMax
  }

  /** The searches over the coordinates of the points find their extremes
      exactly when some point beats the sentinels. */
  lemma PointExtremes(points: seq<Pair>)
    ensures HasMax(Xs(points)) <==> exists k :: 0 <= k < |points| && points[k].left > -ListSearch.DoubleMax
    ensures HasMin(Xs(points)) <==> exists k :: 0 <= k < |points| && points[k].left < ListSearch.DoubleMax
    ensures HasMax(Ys(points)) <==> exists k :: 0 <= k < |points| && points[k].right > -ListSearch.DoubleMax
    ensures HasMin(Ys(points)) <==> exists k :: 0 <= k < |points| && points[k].right < ListSearch.DoubleMax
  {
  }

  /** The extent along one axis: from the far side of the widest point at
      the maximum to the far side of the one at the minimum. */
  function Extent(coords: seq<real>, widths: seq<real>, hi: int, lo: int): real
    requires 0 <= hi < |coords| && 0 <= lo < |coords| && |widths| >= |coords|
  {
    widths[hi] / 2.0 + coords[hi] - coords[lo] + widths[lo] / 2.0
  }

  /** There is only one first maximum and one first minimum. */
  lemma FirstExtremesUnique(list: seq<real>, i: int, j: int)
    ensures IsFirstMax(list, i) && IsFirstMax(list, j) ==> i == j
    ensures IsFirstMin(list, i) && IsFirstMin(list, j) ==> i == j
  {
  }

  /** Every coordinate lies between the first minimum and the first maximum,
      so with widths that are not negative the extent is not negative. */
  lemma ExtentCoversPoints(coords: seq<real>, widths: seq<real>, hi: int, lo: int)
    requires IsFirstMax(coords, hi) && IsFirstMin(coords, lo) && |widths| >= |coords|
    requires widths[hi] >= 0.0 && widths[lo] >= 0.0
    ensures forall k :: 0 <= k < |coords| ==> coords[lo] <= coords[k] <= coords[hi]
    ensures Extent(coords, widths, hi, lo) >= coords[hi] - coords[lo] >= 0.0
  {
  }

  class CanvasRenderShape {
    var name: string
    var points: seq<Pair>
    var pointWidths: seq<real>
    var pointColors: seq<Color>
    var pointOpacities: seq<real>
    var lineIndices: seq<LineIndex>
    var lineWidths: seq<real>
    var lineColors: seq<Color>
    var lineOpacities: seq<real>
    var globalOpacity: real
    var boundingBox: Pair
    var posDraw: Pair
    var zoomScaling: bool
    var permanent: bool
    var posReal: Option<Pair>
    var posMousePress: Option<Pair>

    function Contents(): Content
      reads this`name, this`points, this`pointWidths, this`pointColors, this`pointOpacities, this`lineIndices
      reads this`lineWidths, this`lineColors, this`lineOpacities, this`globalOpacity, this`zoomScaling
      reads this`permanent, this`posReal, this`posMousePress
    {
      Content(name, points, pointWidths, pointColors, pointOpacities, lineIndices, lineWidths,
              lineColors, lineOpacities, globalOpacity, zoomScaling, permanent, posReal, posMousePress)
    }

    /** The checks `DrawShape` makes on the list lengths. */
    predicate PointListsAgree()
      reads this`points, this`pointWidths, this`pointColors
    {
      |points| == |pointWidths| && |pointWidths| == |pointColors|
    }

    predicate LineListsAgree()
      reads this`lineIndices, this`lineWidths, this`lineColors
    {
      |lineIndices| == |lineWidths| && |lineWidths| == |lineColors|
    }

    /** The opacity lists are read only while the global opacity is at
        least 1, and they are not checked: they must then be long enough. */
    predicate OpacitiesCover()
      reads this`globalOpacity, this`points, this`pointOpacities, this`lineIndices, this`lineOpacities
    {
      globalOpacity >= 1.0 ==> |pointOpacities| >= |points| && |lineOpacities| >= |lineIndices|
    }

    predicate LinesInRange()
      reads this`lineIndices, this`points
    {
      forall i :: 0 <= i < |lineIndices| ==> InRange(lineIndices[i], |points|)
    }

    /** `DrawShape` returns instead of throwing. */
    predicate DrawSucceeds()
      reads this`points, this`pointWidths, this`pointColors, this`pointOpacities, this`lineIndices
      reads this`lineWidths, this`lineColors, this`lineOpacities, this`globalOpacity
    {
      ListsDrawable(points, pointWidths, pointColors, pointOpacities, lineIndices, lineWidths, lineColors,
                    lineOpacities, globalOpacity)
    }

    /** `DrawShape` returns exactly when its checks pass and every bounding
        box search finds its extreme. */
    lemma DrawSucceedsMeans()
      ensures DrawSucceeds() <==>
        PointListsAgree() && LineListsAgree() && OpacitiesCover() && LinesInRange() &&
        HasMax(Xs(points)) && HasMin(Xs(points)) && HasMax(Ys(points)) && HasMin(Ys(points))
    {
      PointExtremes(points);
    }

    /** The oval drawn for point i. */
    function PointOp(i: int): DrawOp
      reads this`points, this`pointWidths, this`pointColors, this`pointOpacities, this`globalOpacity, this`posDraw
      requires PointListsAgree() && 0 <= i < |points|
      requires globalOpacity >= 1.0 ==> i < |pointOpacities|
    {
      FillOval(Alpha(globalOpacity, pointOpacities, i), pointColors[i],
               points[i].left - pointWidths[i] / 2.0 + posDraw.left,
               points[i].right - pointWidths[i] / 2.0 + posDraw.right,
               pointWidths[i])
    }

    /** The stroke drawn for line i. */
    function LineOp(i: int): DrawOp
      reads this`points, this`lineIndices, this`lineWidths, this`lineColors, this`lineOpacities, this`globalOpacity
      reads this`posDraw
      requires LineListsAgree() && 0 <= i < |lineIndices|
      requires globalOpacity >= 1.0 ==> i < |lineOpacities|
      requires InRange(lineIndices[i], |points|)
    {
      var l := lineIndices[i];
      StrokeLine(Alpha(globalOpacity, lineOpacities, i), lineColors[i], lineWidths[i],
                 Add(points[l.start], posDraw), Add(points[l.end], posDraw))
    }

    /** A new shape: no points, no lines, fully opaque, scaled by the zoom,
        and removed from the queue after its first render. */
    constructor ()
      ensures name == "" && points == [] && pointWidths == [] && pointColors == [] && pointOpacities == []
      ensures lineIndices == [] && lineWidths == [] && lineColors == [] && lineOpacities == []
      ensures globalOpacity == 1.0 && zoomScaling && !permanent
      ensures boundingBox == Pair(0.0, 0.0) && posDraw == Pair(0.0, 0.0)
      ensures posReal.None? && posMousePress.None?
      ensures PointListsAgree() && LineListsAgree()
    {
      name := "";
      points, pointWidths, pointColors, pointOpacities := [], [], [], [];
      lineIndices, lineWidths, lineColors, lineOpacities := [], [], [], [];
      globalOpacity := 1.0;
      boundingBox := Pair(0.0, 0.0);
      posDraw := Pair(0.0, 0.0);
      zoomScaling := true;
      permanent := false;
      posReal, posMousePress := None, None;
    }

    /** The copy constructor: re-adds every point and line of the other
        shape in order (reading the parallel lists at the point and line
        indices, so they must be at least that long), then copies the flags,
        bounding box and draw position. */
    constructor Copy(other: CanvasRenderShape)
      requires |other.pointWidths| >= |other.points| && |other.pointColors| >= |other.points|
      requires |other.pointOpacities| >= |other.points|
      requires |other.lineWidths| >= |other.lineIndices| && |other.lineColors| >= |other.lineIndices|
      requires |other.lineOpacities| >= |other.lineIndices|
      ensures name == other.name && globalOpacity == other.globalOpacity
      ensures points == other.points
      ensures pointWidths == other.pointWidths[..|other.points|]
      ensures pointColors == other.pointColors[..|other.points|]
      ensures pointOpacities == other.pointOpacities[..|other.points|]
      ensures lineIndices == other.lineIndices
      ensures lineWidths == other.lineWidths[..|other.lineIndices|]
      ensures lineColors == other.lineColors[..|other.lineIndices|]
      ensures lineOpacities == other.lineOpacities[..|other.lineIndices|]
      ensures boundingBox == other.boundingBox && posDraw == other.posDraw
      ensures zoomScaling == other.zoomScaling && permanent == other.permanent
      ensures posReal.None? && posMousePress.None?
      ensures PointListsAgree() && LineListsAgree()
    {
      name := other.name;
      points, pointWidths, pointColors, pointOpacities := [], [], [], [];
      lineIndices, lineWidths, lineColors, lineOpacities := [], [], [], [];
      globalOpacity := other.globalOpacity;
      posReal, posMousePress := None, None;
      new;
      CopyPoints(other);
      CopyLines(other);
      boundingBox := other.boundingBox;
      posDraw := other.posDraw;
      zoomScaling := other.zoomScaling;
      permanent := other.permanent;
    }

    /** The first loop of the copy constructor: `AddPoint` for every point
        of the other shape, in order. */
    method CopyPoints(other: CanvasRenderShape)
      requires other != this
      requires |other.pointWidths| >= |other.points| && |other.pointColors| >= |other.points|
      requires |other.pointOpacities| >= |other.points|
      modifies this
      ensures points == old(points) + other.points
      ensures pointWidths == old(pointWidths) + other.pointWidths[..|other.points|]
      ensures pointColors == old(pointColors) + other.pointColors[..|other.points|]
      ensures pointOpacities == old(pointOpacities) + other.pointOpacities[..|other.points|]
      ensures name == old(name) && globalOpacity == old(globalOpacity) && posReal == old(posReal)
      ensures posMousePress == old(posMousePress) && lineIndices == old(lineIndices)
      ensures lineWidths == old(lineWidths) && lineColors == old(lineColors) && lineOpacities == old(lineOpacities)
    {
      var n := |other.points|;
      for i := 0 to n
        invariant points == old(points) + other.points[..i]
        invariant pointWidths == old(pointWidths) + other.pointWidths[..i]
        invariant pointColors == old(pointColors) + other.pointColors[..i]
        invariant pointOpacities == old(pointOpacities) + other.pointOpacities[..i]
        invariant name == old(name) && globalOpacity == old(globalOpacity) && posReal == old(posReal)
        invariant posMousePress == old(posMousePress) && lineIndices == old(lineIndices)
        invariant lineWidths == old(lineWidths) && lineColors == old(lineColors) && lineOpacities == old(lineOpacities)
      {
        AddPoint(other.points[i].left, other.points[i].right, other.pointWidths[i], other.pointColors[i], other.pointOpacities[i]);
        assert other.points[..i + 1] == other.points[..i] + [other.points[i]];
        assert other.pointWidths[..i + 1] == other.pointWidths[..i] + [other.pointWidths[i]];
        assert other.pointColors[..i + 1] == other.pointColors[..i] + [other.pointColors[i]];
        assert other.pointOpacities[..i + 1] == other.pointOpacities[..i] + [other.pointOpacities[i]];
      }
      assert other.points[..n] == other.points;
    }

    /** The second loop of the copy constructor: `AddLine` for every line of
        the other shape, in order. */
    method CopyLines(other: CanvasRenderShape)
      requires other != this
      requires |other.lineWidths| >= |other.lineIndices| && |other.lineColors| >= |other.lineIndices|
      requires |other.lineOpacities| >= |other.lineIndices|
      modifies this
      ensures lineIndices == old(lineIndices) + other.lineIndices
      ensures lineWidths == old(lineWidths) + other.lineWidths[..|other.lineIndices|]
      ensures lineColors == old(lineColors) + other.lineColors[..|other.lineIndices|]
      ensures lineOpacities == old(lineOpacities) + other.lineOpacities[..|other.lineIndices|]
      ensures name == old(name) && globalOpacity == old(globalOpacity) && posReal == old(posReal)
      ensures posMousePress == old(posMousePress) && points == old(points)
      ensures pointWidths == old(pointWidths) && pointColors == old(pointColors) && pointOpacities == old(pointOpacities)
    {
      var m := |other.lineIndices|;
      for i := 0 to m
        invariant lineIndices == old(lineIndices) + other.lineIndices[..i]
        invariant lineWidths == old(lineWidths) + other.lineWidths[..i]
        invariant lineColors == old(lineColors) + other.lineColors[..i]
        invariant lineOpacities == old(lineOpacities) + other.lineOpacities[..i]
        invariant name == old(name) && globalOpacity == old(globalOpacity) && posReal == old(posReal)
        invariant posMousePress == old(posMousePress) && points == old(points)
        invariant pointWidths == old(pointWidths) && pointColors == old(pointColors) && pointOpacities == old(pointOpacities)
      {
        AddLine(other.lineIndices[i].start, other.lineIndices[i].end, other.lineWidths[i], other.lineColors[i], other.lineOpacities[i]);
        assert other.lineIndices[..i + 1] == other.lineIndices[..i] + [other.lineIndices[i]];
        assert other.lineWidths[..i + 1] == other.lineWidths[..i] + [other.lineWidths[i]];
        assert other.lineColors[..i + 1] == other.lineColors[..i] + [other.lineColors[i]];
        assert other.lineOpacities[..i + 1] == other.lineOpacities[..i] + [other.lineOpacities[i]];
      }
      assert other.lineIndices[..m] == other.lineIndices;
    }

    /** `AddPoint`: one entry on each of the four point lists. */
    method AddPoint(posX: real, posY: real, width: real, color: Color, opacity: real)
      modifies this`points, this`pointWidths, this`pointColors, this`pointOpacities
      ensures points == old(points) + [Pair(posX, posY)] && pointWidths == old(pointWidths) + [width]
      ensures pointColors == old(pointColors) + [color] && pointOpacities == old(pointOpacities) + [opacity]
      ensures old(PointListsAgree()) ==> PointListsAgree()
    {
      points := points + [Pair(posX, posY)];
      pointWidths := pointWidths + [width];
      pointColors := pointColors + [color];
      pointOpacities := pointOpacities + [opacity];
    }

    /** `AddLine`: one entry on each of the four line lists. */
    method AddLine(idx1: int, idx2: int, width: real, color: Color, opacity: real)
      modifies this`lineIndices, this`lineWidths, this`lineColors, this`lineOpacities
      ensures lineIndices == old(lineIndices) + [LineIndex(idx1, idx2)] && lineWidths == old(lineWidths) + [width]
      ensures lineColors == old(lineColors) + [color] && lineOpacities == old(lineOpacities) + [opacity]
      ensures old(LineListsAgree()) ==> LineListsAgree()
    {
      lineIndices := lineIndices + [LineIndex(idx1, idx2)];
      lineWidths := lineWidths + [width];
      lineColors := lineColors + [color];
      lineOpacities := lineOpacities + [opacity];
    }

    /** The drawing part of `DrawShape`: the length checks, then one oval
        per point and one stroke per line, in list order. A line whose start
        or end is not the index of a point stops the drawing with an error,
        and so does reading an opacity list past its end. While the global
        opacity is below 1 it overrides every per-element opacity. */
    method DrawOps() returns (r: Result<seq<DrawOp>>)
      ensures r.Ok? <==> PointListsAgree() && LineListsAgree() && OpacitiesCover() && LinesInRange()
      ensures !PointListsAgree() ==> r == Err(PointCountError(name))
      ensures PointListsAgree() && !LineListsAgree() ==> r == Err(LineCountError(name))
      ensures PointListsAgree() && LineListsAgree() && globalOpacity >= 1.0 && |pointOpacities| < |points| ==>
        r == Err(OutOfBoundsError)
      ensures forall i :: (0 <= i < |lineIndices| && PointListsAgree() && LineListsAgree() && OpacitiesCover() &&
                           !InRange(lineIndices[i], |points|) &&
                           (forall k :: 0 <= k < i ==> InRange(lineIndices[k], |points|))) ==>
          r == Err(if 0 <= lineIndices[i].start < |points| then EndIndexError else StartIndexError)
      ensures r.Ok? ==> |r.value| == |points| + |lineIndices|
      ensures r.Ok? ==> forall i :: 0 <= i < |points| ==> r.value[i] == PointOp(i)
      ensures r.Ok? ==> forall i :: 0 <= i < |lineIndices| ==> r.value[|points| + i] == LineOp(i)
      ensures r.Ok? && globalOpacity < 1.0 ==> forall i :: 0 <= i < |r.value| ==> r.value[i].alpha == globalOpacity
    {
      if !PointListsAgree() {
        return Err(PointCountError(name));
      }
      if !LineListsAgree() {
        return Err(LineCountError(name));
      }
      var ops: seq<DrawOp> := [];
      for i := 0 to |points|
        invariant |ops| == i
        invariant globalOpacity >= 1.0 ==> i <= |pointOpacities|
        invariant forall k :: 0 <= k < i ==> ops[k] == PointOp(k)
      {
        if globalOpacity >= 1.0 && i >= |pointOpacities| {
          return Err(OutOfBoundsError);
        }
        ops := ops + [PointOp(i)];
      }
      for i := 0 to |lineIndices|
        invariant |ops| == |points| + i
        invariant forall k :: 0 <= k < |points| ==> ops[k] == PointOp(k)
        invariant forall k :: 0 <= k < i ==> InRange(lineIndices[k], |points|)
        invariant globalOpacity >= 1.0 ==> i <= |lineOpacities|
        invariant forall k :: 0 <= k < i ==> ops[|points| + k] == LineOp(k)
      {
        var l := lineIndices[i];
        if l.start < 0 || l.start >= |points| {
          return Err(StartIndexError);
        }
        if l.end < 0 || l.end >= |points| {
          return Err(EndIndexError);
        }
        if globalOpacity >= 1.0 && i >= |lineOpacities| {
          return Err(OutOfBoundsError);
        }
        ops := ops + [LineOp(i)];
      }
      if globalOpacity < 1.0 {
        forall k | 0 <= k < |ops|
          ensures ops[k].alpha == globalOpacity
        {
          if k < |points| {
            assert ops[k] == PointOp(k);
          } else {
            assert ops[|points| + (k - |points|)] == LineOp(k - |points|);
          }
        }
      }
      return Ok(ops);
    }

    /** `CalculateBoundingBox`: the x extent between the first maximum and
        the first minimum of the point x coordinates, then the same for y.
        A search that finds nothing gives index -1 and `get(-1)` fails; the
        x extent is already stored when only the y search fails. */
    method CalculateBoundingBox() returns (ok: bool)
      requires |pointWidths| >= |points|
      modifies this`boundingBox
      ensures Contents() == old(Contents()) && posDraw == old(posDraw)
      ensures ok <==> HasMax(Xs(points)) && HasMin(Xs(points)) && HasMax(Ys(points)) && HasMin(Ys(points))
      ensures HasMax(Xs(points)) && HasMin(Xs(points)) ==>
        forall hi, lo :: IsFirstMax(Xs(points), hi) && IsFirstMin(Xs(points), lo) ==>
          boundingBox.left == Extent(Xs(points), pointWidths, hi, lo)
      ensures !(HasMax(Xs(points)) && HasMin(Xs(points))) ==> boundingBox == old(boundingBox)
      ensures ok ==>
        forall hi, lo :: IsFirstMax(Ys(points), hi) && IsFirstMin(Ys(points), lo) ==>
          boundingBox.right == Extent(Ys(points), pointWidths, hi, lo)
      ensures !ok ==> boundingBox.right == old(boundingBox.right)
    {
      var xs, ys := Xs(points), Ys(points);
      var maxX := ListSearch.ListFindMaxIdx(xs);
      var minX := ListSearch.ListFindMinIdx(xs);
      var maxY := ListSearch.ListFindMaxIdx(ys);
      var minY := ListSearch.ListFindMinIdx(ys);
      if maxX == -1 || minX == -1 {
        return false;
      }
      assert IsFirstMax(xs, maxX) && IsFirstMin(xs, minX);
      forall hi, lo | IsFirstMax(xs, hi) && IsFirstMin(xs, lo)
        ensures hi == maxX && lo == minX
      {
        FirstExtremesUnique(xs, hi, maxX);
        FirstExtremesUnique(xs, lo, minX);
      }
      boundingBox := Pair(Extent(xs, pointWidths, maxX, minX), boundingBox.right);
      if maxY == -1 || minY == -1 {
        return false;
      }
      assert IsFirstMax(ys, maxY) && IsFirstMin(ys, minY);
      forall hi, lo | IsFirstMax(ys, hi) && IsFirstMin(ys, lo)
        ensures hi == maxY && lo == minY
      {
        FirstExtremesUnique(ys, hi, maxY);
        FirstExtremesUnique(ys, lo, minY);
      }
      boundingBox := Pair(boundingBox.left, Extent(ys, pointWidths, maxY, minY));
      return true;
    }

    /** `DrawShape`: the drawing operations, then the bounding box. A shape
        whose checks pass still fails when the bounding box cannot be found,
        in particular when it has no points. */
    method DrawShape() returns (r: Result<seq<DrawOp>>)
      modifies this`boundingBox
      ensures r.Ok? <==> (PointListsAgree() && LineListsAgree() && OpacitiesCover() && LinesInRange() &&
                          HasMax(Xs(points)) && HasMin(Xs(points)) && HasMax(Ys(points)) && HasMin(Ys(points)))
      ensures r.Ok? ==> |r.value| == |points| + |lineIndices|
      ensures r.Ok? ==> forall i :: 0 <= i < |points| ==> r.value[i] == PointOp(i)
      ensures r.Ok? ==> forall i :: 0 <= i < |lineIndices| ==> r.value[|points| + i] == LineOp(i)
      ensures r.Ok? ==>
        forall hx, lx, hy, ly :: (IsFirstMax(Xs(points), hx) && IsFirstMin(Xs(points), lx) &&
                                  IsFirstMax(Ys(points), hy) && IsFirstMin(Ys(points), ly)) ==>
            boundingBox == Pair(Extent(Xs(points), pointWidths, hx, lx), Extent(Ys(points), pointWidths, hy, ly))
      ensures !PointListsAgree() ==> r == Err(PointCountError(name)) && boundingBox == old(boundingBox)
      ensures Contents() == old(Contents()) && posDraw == old(posDraw)
    {
      r := DrawOps();
      if r.Ok? {
        var ok := CalculateBoundingBox();
        if !ok {
          r := Err(OutOfBoundsError);
        }
      }
    }
  }
}
