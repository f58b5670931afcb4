/**
 * `RenderNode`: a JavaFX node on an editor's pane together with its
 * highlight and selection rectangles, its snap points (each kept at a fixed
 * offset from the node's translate) and its FXML text.
 *
 * The node is a record of the fields the class reads: its kind (circle,
 * rectangle, polygon, line, label or any other class), translate and
 * rotation. Bounds that JavaFX computes are parameters, as is
 * `Double.toString`, written `fmt`. A snap point is the translate of its
 * circle; the circle's radius, colour and visibility are not modelled.
 */
module RenderNodes {
  import opened Common
  import Colors
  import Nodes

  datatype Kind =
    | Circle(radius: real, fill: Colors.Color)
    | Rectangle(width: real, height: real, fill: Colors.Color)
    | Polygon(points: seq<real>, fill: Colors.Color)
    | Line(start: Pair, end: Pair, stroke: Colors.Color)
    | Label(text: string, textFill: Colors.Color, fontSize: real)
    | Other

  /** The wrapped JavaFX node. */
  datatype FxNode = FxNode(kind: Kind, translate: Pair, rotate: real)

  /** Every colour a node carries is a JavaFX colour. */
  predicate ColorsValid(k: Kind)
  {
    match k
    case Circle(_, fill) => Colors.Valid(fill)
    case Rectangle(_, _, fill) => Colors.Valid(fill)
    case Polygon(_, fill) => Colors.Valid(fill)
    case Line(_, _, stroke) => Colors.Valid(stroke)
    case Label(_, textFill, _) => Colors.Valid(textFill)
    case Other => true
  }

  /** A highlight or selection rectangle. */
  datatype Rect = Rect(translate: Pair, rotate: real, width: real, height: real)

  /** `new Rectangle()`. */
  const EmptyRect := Rect(Pair(0.0, 0.0), 0.0, 0.0, 0.0)

  /** The selection rectangle is anchored at the node's translate for
      rectangles and labels, whose translate is their corner. */
  predicate Anchored(k: Kind) { k.Rectangle? || k.Label? }

  /** `RenderNode_ShapeSelectedRefresh`: the local bounds' size and the
      node's rotation; for a rectangle or label the node's translate,
      otherwise that translate less half the size, so that the rectangle is
      centred on the node's translate. */
  function SelectedRect(node: FxNode, boundsLocal: Nodes.Bounds): (r: Rect)
    ensures r.rotate == node.rotate
    ensures r.width == boundsLocal.maxX - boundsLocal.minX && r.height == boundsLocal.maxY - boundsLocal.minY
    ensures Anchored(node.kind) ==> r.translate == node.translate
    ensures !Anchored(node.kind) ==> Add(r.translate, Pair(r.width / 2.0, r.height / 2.0)) == node.translate
  {
    var w, h := boundsLocal.maxX - boundsLocal.minX, boundsLocal.maxY - boundsLocal.minY;
    var t := if Anchored(node.kind) then node.translate
             else Pair(node.translate.left - w / 2.0, node.translate.right - h / 2.0);
    Rect(t, node.rotate, w, h)
  }

  /** `RenderNode_ShapeHighlightedRefresh`: the bounds in the parent, as a
      rectangle; the rotation is kept. */
  function HighlightedRect(old_: Rect, boundsInParent: Nodes.Bounds): (r: Rect)
    ensures r.rotate == old_.rotate && r.translate == Pair(boundsInParent.minX, boundsInParent.minY)
    ensures Add(r.translate, Pair(r.width, r.height)) == Pair(boundsInParent.maxX, boundsInParent.maxY)
  {
    Rect(Pair(boundsInParent.minX, boundsInParent.minY), old_.rotate,
         boundsInParent.maxX - boundsInParent.minX, boundsInParent.maxY - boundsInParent.minY)
  }

  // ---------------------------------------------------------------------
  // FXML text

  /** `" <name>=\"" + value + "\""`. */
  function Attr(name: string, value: string): string
  {
    " " + name + "=\"" + value + "\""
  }

  /** One polygon coordinate in the `<points>` list. */
  function Entry(x: real, fmt: real -> string): string
  {
    "\n\t\t\t\t<Double fx:value=\"" + fmt(x) + "\"/>"
  }

  function Entries(xs: seq<real>, fmt: real -> string): string
  {
    if xs == [] then "" else Entries(xs[..|xs| - 1], fmt) + Entry(xs[|xs| - 1], fmt)
  }

  /** The coordinates the polygon writer emits: all but the last. */
  function Emitted(points: seq<real>): (r: seq<real>)
    ensures points != [] ==> points == r + [points[|points| - 1]]
    ensures points == [] ==> r == []
  {
    if points == [] then [] else points[..|points| - 1]
  }

  /** The text of a circle, rectangle, polygon or label before and after
      its colour code. */
  function CircleHead(radius: real, fmt: real -> string): string
  {
    "<Circle" + Attr("radius", fmt(radius)) + " fill=\"#"
  }

  function RectangleHead(width: real, height: real, fmt: real -> string): string
  {
    "<Rectangle" + Attr("width", fmt(width)) + Attr("height", fmt(height)) + " fill=\"#"
  }

  const PolygonHead := "<Polygon" + " fill=\"#"

  function LabelHead(text: string): string
  {
    "<Label" + Attr("text", text) + " textFill=\"#"
  }

  /** The end of a circle's or rectangle's text. */
  function TranslateTail(translate: Pair, fmt: real -> string): string
  {
    "\"" + Attr("translateX", fmt(translate.left)) + Attr("translateY", fmt(translate.right)) + " />"
  }

  /** The end of a polygon's text, around its point entries. */
  function PolygonTail(entries: string, translate: Pair, fmt: real -> string): string
  {
    "\"" + Attr("translateX", fmt(translate.left)) + " translateY=\"" + fmt(translate.right) + "\">" +
    "\n\t\t\t<points>" + entries + "\n\t\t\t</points>\n\t\t</Polygon>"
  }

  /** A line's text; its stroke is written with `Color.toString`. */
  function LineText(start: Pair, end: Pair, stroke: string, fmt: real -> string): string
  {
    "<Line" + Attr("startX", fmt(start.left)) + Attr("startY", fmt(start.right)) +
    Attr("endX", fmt(end.left)) + Attr("endY", fmt(end.right)) + Attr("stroke", stroke) + " />"
  }

  function LabelTail(fontSize: real, fmt: real -> string): string
  {
    "\">\n" + "\t\t\t<font> \n\t\t\t\t<Font" + Attr("size", fmt(fontSize)) + "/>\n" + "\t\t\t</font>\n" + "\t\t</Label>"
  }

  /** `RenderNode_ToFXMLString` as a value; an unknown node class is an
      error. Fills are the padded eight-digit code, a line's stroke is the
      colour's `toString`. */
  function FxmlString(node: FxNode, fmt: real -> string): (r: Result<string>)
    requires ColorsValid(node.kind)
    ensures r.Err? <==> node.kind.Other?
  {
    match node.kind
    case Circle(radius, fill) =>
      Ok(CircleHead(radius, fmt) + Colors.HexCode(fill) + TranslateTail(node.translate, fmt))
    case Rectangle(width, height, fill) =>
      Ok(RectangleHead(width, height, fmt) + Colors.HexCode(fill) + TranslateTail(node.translate, fmt))
    case Polygon(points, fill) =>
      Ok(PolygonHead + Colors.HexCode(fill) + PolygonTail(Entries(Emitted(points), fmt), node.translate, fmt))
    case Line(start, end, stroke) =>
      Ok(LineText(start, end, Colors.ColorToString(stroke), fmt))
    case Label(text, textFill, fontSize) =>
      Ok(LabelHead(text) + Colors.HexCode(textFill) + LabelTail(fontSize, fmt))
    case Other => Err(UnknownNodeError)
  }

  const UnknownNodeError := "ERROR: Attempting to convert an unknown node type to FXML string!"

  /** The padded colour code of one fill: `Integer.toHexString` of the hash
      code, with '0' prepended until it has eight characters. */
  method FillCode(c: Colors.Color) returns (code: string)
    requires Colors.Valid(c)
    ensures code == Colors.HexCode(c)
  {
    var hex := Colors.ToHexString(Colors.HashCode(c));
    if |hex| < 8 {
      code := Colors.LeftPadZeros(hex);
    } else {
      code := hex;
    }
  }

  /** The `<points>` loop: every coordinate but the last, in order. */
  method PointEntries(points: seq<real>, fmt: real -> string) returns (str: string)
    ensures str == Entries(Emitted(points), fmt)
  {
    str := "";
    var i := 0;
    while i < |points| - 1
      invariant 0 <= i <= |points| && (points != [] ==> i <= |points| - 1)
      invariant str == Entries(points[..i], fmt)
      decreases |points| - i
    {
      assert points[..i + 1][..i] == points[..i];
      str := str + Entry(points[i], fmt);
      i := i + 1;
    }
  }

  /** Two strings that agree around a middle part of one length agree on
      that part too. */
  lemma MiddleEq(a: string, x: string, b: string, y: string, c: string)
    requires |x| == |y| && a + x + b == a + y + c
    ensures x == y
  {
    assert x == (a + x + b)[|a|..|a| + |x|];
    assert y == (a + y + c)[|a|..|a| + |y|];
  }

  /** Replace a node's fill (or text fill), leaving everything else. */
  function WithFill(k: Kind, c: Colors.Color): Kind
  {
    match k
    case Circle(radius, _) => Circle(radius, c)
    case Rectangle(width, height, _) => Rectangle(width, height, c)
    case Polygon(points, _) => Polygon(points, c)
    case Label(text, _, fontSize) => Label(text, c, fontSize)
    case _ => k
  }

  /** The FXML of a circle, rectangle, polygon or label determines its fill:
      two such nodes that differ only in fill give different text. */
  lemma {:induction false} FxmlDeterminesFill(node: FxNode, c: Colors.Color, fmt: real -> string)
    requires node.kind.Circle? || node.kind.Rectangle? || node.kind.Polygon? || node.kind.Label?
    requires ColorsValid(node.kind) && Colors.Valid(c)
    requires FxmlString(node, fmt) == FxmlString(node.(kind := WithFill(node.kind, c)), fmt)
    ensures WithFill(node.kind, c) == node.kind
  {
    var f := match node.kind
      case Circle(_, fill) => fill
      case Rectangle(_, _, fill) => fill
      case Polygon(_, fill) => fill
      case Label(_, textFill, _) => textFill;
    var x, y := Colors.HexCode(f), Colors.HexCode(c);
    Colors.HexCodeFacts(f);
    Colors.HexCodeFacts(c);
    match node.kind {
      case Circle(radius, _) =>
        MiddleEq(CircleHead(radius, fmt), x, TranslateTail(node.translate, fmt), y, TranslateTail(node.translate, fmt));
      case Rectangle(width, height, _) =>
        MiddleEq(RectangleHead(width, height, fmt), x, TranslateTail(node.translate, fmt), y, TranslateTail(node.translate, fmt));
      case Polygon(points, _) =>
        var tail := PolygonTail(Entries(Emitted(points), fmt), node.translate, fmt);
        MiddleEq(PolygonHead, x, tail, y, tail);
      case Label(text, _, fontSize) =>
        MiddleEq(LabelHead(text), x, LabelTail(fontSize, fmt), y, LabelTail(fontSize, fmt));
    }
    Colors.HexCodeInjective(f, c);
  }

  /** The polygon writer's loop stops one short: the last coordinate never
      reaches the text, whatever it is. */
  lemma {:induction false} PolygonDropsLastCoordinate(node: FxNode, points: seq<real>, x: real, y: real, fmt: real -> string)
    requires node.kind.Polygon? && Colors.Valid(node.kind.fill)
    ensures FxmlString(node.(kind := Polygon(points + [x], node.kind.fill)), fmt) ==
            FxmlString(node.(kind := Polygon(points + [y], node.kind.fill)), fmt)
  {
    assert Emitted(points + [x]) == points == Emitted(points + [y]) by {
      assert (points + [x])[..|points|] == points;
      assert (points + [y])[..|points|] == points;
    }
  }

  class RenderNode {
    const id: string
    var name: string
    var node: FxNode
    var highlighted: bool
    var highlightedMouse: bool
    var highlightedBox: bool
    var selected: bool
    var mousePressPos: Option<Pair>
    const passive: bool
    /** Absent (null) on a passive node. */
    var shapeHighlighted: Option<Rect>
    var shapeSelected: Option<Rect>
    /** The translate of each snap-point circle. */
    var snapPoints: seq<Pair>
    var snapPointOffsets: seq<Pair>

    /** Each snap point has its offset, and a node has its rectangles
        exactly when it is not passive. */
    predicate Valid()
      reads this
    {
      |snapPoints| == |snapPointOffsets| &&
      (passive <==> shapeHighlighted.None?) && (passive <==> shapeSelected.None?)
    }

    /** The constructor: no flags; a passive node gets nothing more, any
        other node two empty rectangles and a snap point at its centre, and a
        line two more at its start and end. The random UUID is a parameter. */
    constructor (id: string, name: string, node: FxNode, passive: bool)
      ensures this.id == id && this.name == name && this.node == node && this.passive == passive
      ensures !highlighted && !highlightedMouse && !highlightedBox && !selected && mousePressPos.None?
      ensures Valid()
      ensures passive ==> snapPointOffsets == []
      ensures !passive ==> shapeHighlighted == Some(EmptyRect) && shapeSelected == Some(EmptyRect)
      ensures !passive && !node.kind.Line? ==> snapPointOffsets == [Pair(0.0, 0.0)]
      ensures !passive && node.kind.Line? ==> snapPointOffsets == [Pair(0.0, 0.0), node.kind.start, node.kind.end]
      ensures forall i :: 0 <= i < |snapPoints| ==> snapPoints[i] == Pair(0.0, 0.0)
    {
      this.id := id;
      this.name := name;
      this.node := node;
      this.passive := passive;
      highlighted, highlightedMouse, highlightedBox, selected := false, false, false, false;
      mousePressPos := None;
      snapPoints := [];
      snapPointOffsets := [];
      shapeHighlighted, shapeSelected := None, None;
      new;
      if !passive {
        shapeHighlighted := Some(EmptyRect);
        shapeSelected := Some(EmptyRect);
        snapPoints := snapPoints + [Pair(0.0, 0.0)];
        snapPointOffsets := snapPointOffsets + [Pair(0.0, 0.0)];
        if node.kind.Line? {
          snapPoints := snapPoints + [Pair(0.0, 0.0)];
          snapPointOffsets := snapPointOffsets + [node.kind.start];
          snapPoints := snapPoints + [Pair(0.0, 0.0)];
          snapPointOffsets := snapPointOffsets + [node.kind.end];
        }
      }
    }

    /** `RenderNode_SnapPointsRefresh`: every snap point moves to its offset
        from the node's translate. */
    method SnapPointsRefresh()
      requires Valid()
      modifies this`snapPoints
      ensures Valid() && |snapPoints| == |snapPointOffsets|
      ensures forall i :: 0 <= i < |snapPoints| ==> Sub(snapPoints[i], node.translate) == snapPointOffsets[i]
    {
      for i := 0 to |snapPoints|
        invariant Valid()
        invariant forall j :: 0 <= j < i ==> snapPoints[j] == Add(snapPointOffsets[j], node.translate)
      {
        snapPoints := snapPoints[i := Add(snapPointOffsets[i], node.translate)];
      }
      forall i | 0 <= i < |snapPoints|
        ensures Sub(snapPoints[i], node.translate) == snapPointOffsets[i]
      {
      }
    }

    /** `RenderNode_ShapeHighlightedRefresh`. A passive node has no
        rectangle, and the source throws on it (`thrown`) before changing
        anything. */
    method ShapeHighlightedRefresh(boundsInParent: Nodes.Bounds) returns (thrown: bool)
      modifies this`shapeHighlighted
      ensures thrown <==> old(shapeHighlighted).None?
      ensures thrown ==> shapeHighlighted == old(shapeHighlighted)
      ensures !thrown ==> shapeHighlighted == Some(HighlightedRect(old(shapeHighlighted).value, boundsInParent))
    {
      if shapeHighlighted.None? {
        return true;
      }
      var r := shapeHighlighted.value;
      r := r.(translate := Pair(boundsInParent.minX, boundsInParent.minY));
      r := r.(width := boundsInParent.maxX - boundsInParent.minX, height := boundsInParent.maxY - boundsInParent.minY);
      shapeHighlighted := Some(r);
      thrown := false;
    }

    /** `RenderNode_ShapeSelectedRefresh`. A node without the rectangle
        throws (`thrown`) before changing anything. */
    method ShapeSelectedRefresh(boundsLocal: Nodes.Bounds) returns (thrown: bool)
      modifies this`shapeSelected
      ensures thrown <==> old(shapeSelected).None?
      ensures thrown ==> shapeSelected == old(shapeSelected)
      ensures !thrown ==> shapeSelected == Some(SelectedRect(node, boundsLocal))
    {
      if shapeSelected.None? {
        return true;
      }
      var w, h := boundsLocal.maxX - boundsLocal.minX, boundsLocal.maxY - boundsLocal.minY;
      var t: Pair;
      if node.kind.Rectangle? || node.kind.Label? {
        t := node.translate;
      } else {
        t := Pair(node.translate.left - w / 2.0, node.translate.right - h / 2.0);
      }
      shapeSelected := Some(Rect(t, node.rotate, w, h));
      thrown := false;
    }

    /** `RenderNode_BoundsRefresh`: both rectangles, the highlight one
        first; a missing rectangle throws (`thrown`) and stops it there. */
    method BoundsRefresh(boundsInParent: Nodes.Bounds, boundsLocal: Nodes.Bounds) returns (thrown: bool)
      modifies this`shapeHighlighted, this`shapeSelected
      ensures thrown <==> old(shapeHighlighted).None? || old(shapeSelected).None?
      ensures old(shapeHighlighted).None? ==> shapeHighlighted == old(shapeHighlighted) && shapeSelected == old(shapeSelected)
      ensures old(shapeHighlighted).Some? ==>
        shapeHighlighted == Some(HighlightedRect(old(shapeHighlighted).value, boundsInParent))
      ensures old(shapeHighlighted).Some? && old(shapeSelected).None? ==> shapeSelected == old(shapeSelected)
      ensures !thrown ==> shapeSelected == Some(SelectedRect(node, boundsLocal))
    {
      thrown := ShapeHighlightedRefresh(boundsInParent);
      if thrown {
        return;
      }
      thrown := ShapeSelectedRefresh(boundsLocal);
    }

    /** `RenderNode_ToFXMLString`: one branch per node class, each the
        text around the padded colour code (the polygon's with its point
        list), and an error for any other class. */
    method ToFXMLString(fmt: real -> string) returns (r: Result<string>)
      requires ColorsValid(node.kind)
      ensures r == FxmlString(node, fmt)
    {
      var str: string;
      match node.kind {
        case Circle(radius, fill) =>
          var code := FillCode(fill);
          str := CircleHead(radius, fmt) + code + TranslateTail(node.translate, fmt);
        case Rectangle(width, height, fill) =>
          var code := FillCode(fill);
          str := RectangleHead(width, height, fmt) + code + TranslateTail(node.translate, fmt);
        case Polygon(points, fill) =>
          var code := FillCode(fill);
          var entries := PointEntries(points, fmt);
          str := PolygonHead + code + PolygonTail(entries, node.translate, fmt);
        case Line(start, end, stroke) =>
          str := LineText(start, end, Colors.ColorToString(stroke), fmt);
        case Label(text, textFill, fontSize) =>
          var code := FillCode(textFill);
          str := LabelHead(text) + code + LabelTail(fontSize, fmt);
        case Other =>
          return Err(UnknownNodeError);
      }
      return Ok(str);
    }
  }
}
