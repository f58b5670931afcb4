/**
 * The property-panel rules every node kind applies. A panel box the window
 * does not show leaves its property alone; a text field holds a number, the
 * `"<mixed>"` sentinel (the selected shapes disagree: leave alone, say
 * nothing) or other text (leave alone, report it); a number is accepted
 * only inside its limits and is then stored scaled; a picked colour is
 * applied unless it is transparent; a layer name is looked up in the layer
 * list. Each rule yields the new value and at most one status message.
 *
 * The caller-supplied lists the `PropsLoad*` methods append to are the
 * fields of `Lists`.
 */
module Props {
  import opened Common
  import Colors

  const MIXED: string := "<mixed>"

  /** A text field as `IsStringNum` and `Double.parseDouble` read it. */
  datatype Field = Number(v: real) | Mixed | NonNumeric

  /** The two text fields of one box (position, rectangle size, line end
      point, hole radii). */
  datatype FieldPair = FieldPair(first: Field, second: Field)

  /** The property a status message is about. */
  datatype Prop =
    | Name | PosX | PosY | Rotation | ShapeColor | BorderWidth | BorderColor
    | RectWidth | RectHeight | LineEndX | LineEndY | LineWidth | TextContent
    | FontSize | CircleRadius | HoleOuter | HoleInner | HoleRadii | ViaRadius
    | PinLabel | Layer

  /** The status-bar messages, by cause. */
  datatype Status =
    | NotNumeric(prop: Prop)
    | OutOfLimits(prop: Prop)
    | EmptyText(prop: Prop)
    | TransparentColor(prop: Prop)
    | InvalidLayer
    | OuterNotAboveInner

  /** The properties window: one entry per box, None when the window does
      not show that box. A colour box holds the picker's value, which may be
      null (None). */
  datatype PropsBox = PropsBox(
    name: Option<string>,
    pos: Option<FieldPair>,
    rot: Option<Field>,
    color: Option<Option<Colors.Color>>,
    strokeWidth: Option<Field>,
    strokeColor: Option<Option<Colors.Color>>,
    rect: Option<FieldPair>,
    layer: Option<string>,
    fill: Option<bool>,
    lineEndPoints: Option<FieldPair>,
    lineWidth: Option<Field>,
    textContent: Option<string>,
    fontSize: Option<Field>,
    circleRadius: Option<Field>,
    hole: Option<FieldPair>,
    viaRadius: Option<Field>,
    pinLabel: Option<string>)

  /** An inclusive range of accepted input values. */
  datatype Range = Range(lo: real, hi: real)

  predicate InRange(v: real, r: Range) { r.lo <= v <= r.hi }

  /** The limit constants of the controller. */
  datatype Limits = Limits(
    symbolBorder: Range,
    rectWidth: Range,
    rectHeight: Range,
    lineWidth: Range,
    textFontSize: Range,
    circleRadius: Range,
    border: Range,
    holeOuter: Range,
    holeInner: Range,
    viaRadius: Range)

  /** What the rules read from the editor and the controller: the limits,
      the holder pane's size, the grid snap, the PCB layer names and their
      colours. */
  datatype Env = Env(
    limits: Limits,
    paneSize: Pair,
    snap: real -> real,
    layers: seq<string>,
    layerColor: string -> Colors.Color)

  /** A rule's result: the property's new value and the message, if any. */
  datatype Outcome<T> = Outcome(value: T, status: Option<Status>)

  /** The messages of a sequence of rules, in order. */
  function Msg(s: Option<Status>): (r: seq<Status>)
    ensures |r| <= 1 && (r == [] <==> s.None?)
  {
    if s.Some? then [s.value] else []
  }

  /** What a load appends to one list: the value when the node is
      selected, nothing otherwise. */
  function Added<T>(selected: bool, x: T): (r: seq<T>)
    ensures |r| == (if selected then 1 else 0) && (selected ==> r[0] == x)
  {
    if selected then [x] else []
  }

  /** The colour pickers of a window hold real colours (channels 0..255). */
  predicate ValidColors(box: PropsBox)
  {
    (box.color.Some? && box.color.value.Some? ==> Colors.Valid(box.color.value.value)) &&
    (box.strokeColor.Some? && box.strokeColor.value.Some? ==> Colors.Valid(box.strokeColor.value.value))
  }

  function FirstOf(b: Option<FieldPair>): (r: Option<Field>)
    ensures r.Some? <==> b.Some?
  {
    if b.Some? then Some(b.value.first) else None
  }

  function SecondOf(b: Option<FieldPair>): (r: Option<Field>)
    ensures r.Some? <==> b.Some?
  {
    if b.Some? then Some(b.value.second) else None
  }

  // ---------------------------------------------------------------------
  // Numeric fields

  /** A numeric field without limits (a position, a rotation, a line end
      point): a number is stored through `conv`, anything else keeps the
      value, and only text that is not the sentinel is reported. */
  function ApplyNumber(cur: real, box: Option<Field>, conv: real -> real, p: Prop): (r: Outcome<real>)
    ensures box.Some? && box.value.Number? ==> r == Outcome(conv(box.value.v), None)
    ensures !(box.Some? && box.value.Number?) ==> r.value == cur
    ensures r.status.Some? <==> box == Some(NonNumeric)
    ensures r.status.Some? ==> r.status.value == NotNumeric(p)
  {
    if box.None? then Outcome(cur, None)
    else match box.value
      case Number(v) => Outcome(conv(v), None)
      case Mixed => Outcome(cur, None)
      case NonNumeric => Outcome(cur, Some(NotNumeric(p)))
  }

  /** A numeric field with limits: a number inside the range is stored
      multiplied by `scale`; a number outside it keeps the value and reports
      the limits; the sentinel and other text behave as in `ApplyNumber`. */
  function ApplyRanged(cur: real, box: Option<Field>, range: Range, scale: real, p: Prop): (r: Outcome<real>)
    ensures r.value != cur ==> box.Some? && box.value.Number? && InRange(box.value.v, range)
    ensures box.Some? && box.value.Number? && InRange(box.value.v, range) ==> r.value == box.value.v * scale && r.status.None?
    ensures box.Some? && box.value.Number? && !InRange(box.value.v, range) ==> r == Outcome(cur, Some(OutOfLimits(p)))
    ensures box.Some? && box.value.NonNumeric? ==> r == Outcome(cur, Some(NotNumeric(p)))
    ensures (box.None? || box.value.Mixed?) ==> r == Outcome(cur, None)
  {
    if box.None? then Outcome(cur, None)
    else match box.value
      case Number(v) =>
        if range.lo <= v && v <= range.hi then Outcome(v * scale, None)
        else Outcome(cur, Some(OutOfLimits(p)))
      case Mixed => Outcome(cur, None)
      case NonNumeric => Outcome(cur, Some(NotNumeric(p)))
  }

  /** Loading a ranged property after a successful apply gives back the
      entered number: the load divides by the same scale the apply
      multiplied by (10 for rectangle sizes and rectangle borders, 1 for
      raw properties). */
  lemma {:induction false} RangedRoundTrip(cur: real, v: real, range: Range, scale: real, p: Prop)
    requires scale != 0.0 && InRange(v, range)
    ensures ApplyRanged(cur, Some(Number(v)), range, scale, p).value / scale == v
    ensures ApplyRanged(cur, Some(Number(v)), range, scale, p).status.None?
  {
    var r := ApplyRanged(cur, Some(Number(v)), range, scale, p);
    assert r.value == v * scale;
  }

  /** Applying what a load reported (a value already inside the limits)
      leaves the property as it was. */
  lemma {:induction false} RangedReapplyIdempotent(cur: real, range: Range, scale: real, p: Prop)
    requires scale != 0.0 && InRange(cur / scale, range)
    ensures ApplyRanged(cur, Some(Number(cur / scale)), range, scale, p).value == cur
    ensures ApplyRanged(cur, Some(Number(cur / scale)), range, scale, p).status.None?
  {
    assert cur / scale * scale == cur;
  }

  /** The position shown in the panel is the translate less half the pane;
      applying a position adds the half back after `conv` (the grid snap, or
      nothing for circles and groups). */
  function ShownPos(translate: real, paneExtent: real): real
  {
    translate - paneExtent / 2.0
  }

  function PlacePos(snap: real -> real, paneExtent: real): (r: real -> real)
  {
    (v: real) => snap(v) + paneExtent / 2.0
  }

  /** A position typed into the panel comes back from the next load as its
      grid-snapped value. */
  lemma {:induction false} PositionRoundTrip(cur: real, v: real, snap: real -> real, paneExtent: real)
    ensures ShownPos(ApplyNumber(cur, Some(Number(v)), PlacePos(snap, paneExtent), PosX).value, paneExtent) == snap(v)
  {
    var r := ApplyNumber(cur, Some(Number(v)), PlacePos(snap, paneExtent), PosX);
    assert r.value == snap(v) + paneExtent / 2.0;
  }

  function Identity(): (f: real -> real)
    ensures forall v :: f(v) == v
  {
    (v: real) => v
  }

  // ---------------------------------------------------------------------
  // Colours, names, texts, layers

  /** A colour picker: a colour is applied when it is neither TRANSPARENT
      nor hashes to 0; a refused colour is reported, a null value is not. */
  function ApplyColor(cur: Colors.Color, box: Option<Option<Colors.Color>>, p: Prop): (r: Outcome<Colors.Color>)
    requires box.Some? && box.value.Some? ==> Colors.Valid(box.value.value)
    ensures box.None? || box.value.None? ==> r == Outcome(cur, None)
  {
    if box.None? || box.value.None? then Outcome(cur, None)
    else
      var c := box.value.value;
      if c != Colors.TRANSPARENT && Colors.HashCode(c) != 0 then Outcome(c, None)
      else Outcome(cur, Some(TransparentColor(p)))
  }

  /** The picker accepts exactly the colours that are not fully transparent
      black: the hash test adds nothing to the TRANSPARENT test. */
  lemma ColorAcceptsExactlyOpaque(cur: Colors.Color, c: Colors.Color, p: Prop)
    requires Colors.Valid(c)
    ensures c != Colors.TRANSPARENT ==> ApplyColor(cur, Some(Some(c)), p).value == c
    ensures c != Colors.TRANSPARENT ==> ApplyColor(cur, Some(Some(c)), p).status.None?
    ensures c == Colors.TRANSPARENT ==> ApplyColor(cur, Some(Some(c)), p).value == cur
    ensures c == Colors.TRANSPARENT ==> ApplyColor(cur, Some(Some(c)), p).status == Some(TransparentColor(p))
  {
    if c != Colors.TRANSPARENT {
      Colors.HashZeroIffTransparent(c);
    }
  }

  /** The element name of rectangles, lines and texts: any text but the
      empty one and the sentinel; only the empty one is reported. */
  function ApplyName(cur: string, box: Option<string>): (r: Outcome<string>)
    ensures r.value != cur ==> box.Some? && box.value != "" && box.value != MIXED
    ensures box.Some? && box.value != "" && box.value != MIXED ==> r == Outcome(box.value, None)
    ensures r.status.Some? <==> box == Some("")
    ensures r.status.Some? ==> r.status.value == EmptyText(Name)
  {
    if box.None? then Outcome(cur, None)
    else if box.value != "" && box.value != MIXED then Outcome(box.value, None)
    else if box.value != MIXED then Outcome(cur, Some(EmptyText(Name)))
    else Outcome(cur, None)
  }

  /** The element name of circles and groups: any non-empty text, the
      sentinel included; the empty text is reported. */
  function ApplyNameAnyText(cur: string, box: Option<string>): (r: Outcome<string>)
    ensures box.Some? && box.value != "" ==> r == Outcome(box.value, None)
    ensures box.None? ==> r == Outcome(cur, None)
    ensures box == Some("") ==> r == Outcome(cur, Some(EmptyText(Name)))
  {
    if box.None? then Outcome(cur, None)
    else if box.value != "" then Outcome(box.value, None)
    else if box.value != MIXED then Outcome(cur, Some(EmptyText(Name)))
    else Outcome(cur, None)
  }

  /** The two name rules differ exactly on the sentinel: circles and groups
      take `"<mixed>"` as their new name where the other kinds leave the
      name alone. */
  lemma NameRulesDifferOnlyOnSentinel(cur: string, box: Option<string>)
    ensures ApplyName(cur, box) != ApplyNameAnyText(cur, box) <==> box == Some(MIXED) && cur != MIXED
    ensures ApplyNameAnyText(cur, Some(MIXED)).value == MIXED
  {
  }

  /** A text content or pin label: the empty text is refused and reported,
      the sentinel is left alone, any other text replaces the old one. */
  function ApplyText(cur: string, box: Option<string>, p: Prop): (r: Outcome<string>)
    ensures r.value != cur ==> box.Some? && box.value != "" && box.value != MIXED
    ensures box.Some? && box.value != "" && box.value != MIXED ==> r == Outcome(box.value, None)
    ensures r.status.Some? <==> box == Some("")
    ensures r.status.Some? ==> r.status.value == EmptyText(p)
  {
    if box.None? then Outcome(cur, None)
    else if box.value != "" then (if box.value != MIXED then Outcome(box.value, None) else Outcome(cur, None))
    else Outcome(cur, Some(EmptyText(p)))
  }

  /** The name rule of rectangles, lines and texts and the text rule accept
      and refuse the same entries. */
  lemma NameAndTextAgree(cur: string, box: Option<string>)
    ensures ApplyName(cur, box).value == ApplyText(cur, box, Name).value
    ensures ApplyName(cur, box).status == ApplyText(cur, box, Name).status
  {
  }

  /** `Editor.FindPCBLayer` followed by `Editor_PCBLayers[idx]`: the chosen
      layer when it is one of the PCB layers; otherwise nothing, reported
      unless the choice is the sentinel. */
  function ChooseLayer(layers: seq<string>, box: Option<string>): (r: Outcome<Option<string>>)
    ensures r.value.Some? <==> box.Some? && box.value in layers
    ensures r.value.Some? ==> r.value.value == box.value
    ensures r.status.Some? <==> box.Some? && box.value !in layers && box.value != MIXED
    ensures r.status.Some? ==> r.status.value == InvalidLayer
  {
    if box.None? then Outcome(None, None)
    else
      var idx := IndexOf(layers, box.value);
      if idx != -1 then Outcome(Some(layers[idx]), None)
      else if box.value != MIXED then Outcome(None, Some(InvalidLayer))
      else Outcome(None, None)
  }

  /** A new layer colour `c` for a shape's fill: a transparent fill stays
      transparent, any other fill takes the layer colour. */
  function Recolored(cur: Colors.Color, c: Colors.Color): (r: Colors.Color)
    ensures cur == Colors.TRANSPARENT ==> r == cur
    ensures cur != Colors.TRANSPARENT ==> r == c
    ensures c != Colors.TRANSPARENT ==> (r == Colors.TRANSPARENT <==> cur == Colors.TRANSPARENT)
  {
    if cur != Colors.TRANSPARENT then c else cur
  }

  /** The fill checkbox: the layer colour `c` when checked, TRANSPARENT
      otherwise; a later load reports the box as it was set. */
  function FillChecked(checked: bool, c: Colors.Color): (r: Colors.Color)
    ensures !checked ==> r == Colors.TRANSPARENT
    ensures c != Colors.TRANSPARENT ==> (r != Colors.TRANSPARENT <==> checked)
  {
    if checked then c else Colors.TRANSPARENT
  }

  // ---------------------------------------------------------------------
  // Rotation

  /** `Rotate` on a selected node: ten degrees down for a negative scroll,
      ten up otherwise. */
  function RotateStep(deltaY: real): (a: real)
    ensures a == 10.0 || a == -10.0
    ensures a < 0.0 <==> deltaY < 0.0
  {
    if deltaY < 0.0 then -10.0 else 10.0
  }

  /** One scroll each way brings a selected node back to its angle. */
  lemma {:induction false} RotateStepsCancel(rot: real, up: real, down: real)
    requires up >= 0.0 && down < 0.0
    ensures rot + RotateStep(up) + RotateStep(down) == rot
  {
    assert RotateStep(up) == 10.0;
    assert RotateStep(down) == -10.0;
  }

  // ---------------------------------------------------------------------
  // The lists the loads append to

  /** The caller's lists, one field per list the loads append to. */
  class Lists {
    var names: seq<string>
    var posX: seq<real>
    var posY: seq<real>
    var rots: seq<real>
    var colors: seq<Colors.Color>
    var strokeWidths: seq<real>
    var strokes: seq<Colors.Color>
    var circlesRadii: seq<real>
    var rectsWidths: seq<real>
    var rectsHeights: seq<real>
    var lineEndPosX: seq<real>
    var lineEndPosY: seq<real>
    var lineWidths: seq<real>
    var textContents: seq<string>
    var textFontSizes: seq<real>
    var pinLabels: seq<string>
    var layers: seq<string>
    var fills: seq<bool>
    var holeOuterRadii: seq<real>
    var holeInnerRadii: seq<real>
    var viaRadii: seq<real>

    constructor ()
      ensures names == [] && posX == [] && posY == [] && rots == [] && colors == []
      ensures strokeWidths == [] && strokes == [] && circlesRadii == [] && rectsWidths == []
      ensures rectsHeights == [] && lineEndPosX == [] && lineEndPosY == [] && lineWidths == []
      ensures textContents == [] && textFontSizes == [] && pinLabels == [] && layers == []
      ensures fills == [] && holeOuterRadii == [] && holeInnerRadii == [] && viaRadii == []
    {
      names, posX, posY, rots, colors := [], [], [], [], [];
      strokeWidths, strokes, circlesRadii, rectsWidths := [], [], [], [];
      rectsHeights, lineEndPosX, lineEndPosY, lineWidths := [], [], [], [];
      textContents, textFontSizes, pinLabels, layers := [], [], [], [];
      fills, holeOuterRadii, holeInnerRadii, viaRadii := [], [], [], [];
    }
  }
}
