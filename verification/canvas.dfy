/**
  The drawing primitives a label is made of, as issued against a page whose
  origin is the bottom-left corner with y growing upward, and the vector-path
  operator batch used for filled shapes together with its decoder.
*/
module Canvas {
  import opened Wrappers

  datatype Point = Point(x: real, y: real)

  datatype Color = Rgb(red: real, green: real, blue: real)

  const Black: Color := Rgb(0.0, 0.0, 0.0)
  const Burgundy: Color := Rgb(0.8, 0.2, 0.4)
  const Gray: Color := Rgb(0.5, 0.5, 0.5)

  /** The font a text is drawn in; `PageDefaultFont` when no font is passed. */
  datatype Font = PageDefaultFont | Helvetica | HelveticaBold

  /** Rendered width of a text at a font size, as the embedded font measures it. */
  type TextWidth = (string, real) -> real

  datatype PathOp =
    | PushGraphicsState
    | MoveTo(p: Point)
    | LineTo(p: Point)
    | ClosePath
    | SetFillingColor(c: Color)
    | Fill
    | PopGraphicsState

  datatype DrawCmd =
    | DrawImage(at: Point, scale: real)
    | DrawRectangle(corner: Point, width: real, height: real, borderColor: Color, borderWidth: real)
    | DrawText(text: string, at: Point, size: real, font: Font, color: Color)
    | DrawLine(start: Point, end: Point, thickness: real, color: Color)
    | PushOperators(ops: seq<PathOp>)

  /** A closed polygon filled with one colour, vertices in drawing order. */
  datatype Polygon = Polygon(vertices: seq<Point>, fill: Color)

  /**
    The operator batch that fills `poly` without disturbing the page's
    graphics state: move to the first vertex, line to each further one,
    close, set the fill colour and fill.
  */
  function FilledPolygonOps(poly: Polygon): seq<PathOp>
    requires |poly.vertices| >= 1
  {
    var rest := poly.vertices[1..];
    [PushGraphicsState, MoveTo(poly.vertices[0])]
      + seq(|rest|, i requires 0 <= i < |rest| => LineTo(rest[i]))
      + [ClosePath, SetFillingColor(poly.fill), Fill, PopGraphicsState]
  }

  /** The points of the longest run of `LineTo` operators that starts `ops`. */
  function LeadingLineTos(ops: seq<PathOp>): (pts: seq<Point>)
    ensures |pts| <= |ops|
    ensures forall i :: 0 <= i < |pts| ==> ops[i] == LineTo(pts[i])
    ensures |pts| < |ops| ==> !ops[|pts|].LineTo?
  {
    if ops != [] && ops[0].LineTo? then [ops[0].p] + LeadingLineTos(ops[1..]) else []
  }

  /** Recognises an operator batch of the shape `FilledPolygonOps` produces. */
  function DecodeFilledPolygon(ops: seq<PathOp>): (poly: Option<Polygon>)
    ensures poly.Some? ==> |poly.value.vertices| >= 1 && FilledPolygonOps(poly.value) == ops
  {
    if |ops| < 2 || ops[0] != PushGraphicsState || !ops[1].MoveTo? then
      None
    else
      var pts := LeadingLineTos(ops[2..]);
      var tail := ops[2 + |pts|..];
      if |tail| == 4 && tail[0] == ClosePath && tail[1].SetFillingColor?
         && tail[2] == Fill && tail[3] == PopGraphicsState
      then
        var poly := Polygon([ops[1].p] + pts, tail[1].c);
        assert FilledPolygonOps(poly) == ops[..2] + ops[2..2 + |pts|] + tail;
        Some(poly)
      else
        None
  }

  /** Decoding the operators of a polygon gives the polygon back. */
  lemma {:induction false} DecodeFilledPolygonOps(poly: Polygon)
    requires |poly.vertices| >= 1
    ensures DecodeFilledPolygon(FilledPolygonOps(poly)) == Some(poly)
  {
    var ops := FilledPolygonOps(poly);
    var rest := poly.vertices[1..];
    var pts := LeadingLineTos(ops[2..]);
    assert forall i :: 0 <= i < |rest| ==> ops[2 + i] == LineTo(rest[i]);
    assert ops[2 + |rest|] == ClosePath;
    assert |pts| == |rest|;
    assert pts == rest;
    assert poly.vertices == [poly.vertices[0]] + rest;
  }

  /** Every point a filled-polygon batch moves or draws to is one of its vertices. */
  lemma PolygonOpsVisitOnlyVertices(poly: Polygon)
    requires |poly.vertices| >= 1
    ensures forall i :: 0 <= i < |FilledPolygonOps(poly)| && FilledPolygonOps(poly)[i].MoveTo?
              ==> FilledPolygonOps(poly)[i].p in poly.vertices
    ensures forall i :: 0 <= i < |FilledPolygonOps(poly)| && FilledPolygonOps(poly)[i].LineTo?
              ==> FilledPolygonOps(poly)[i].p in poly.vertices
  {
    var ops := FilledPolygonOps(poly);
    var rest := poly.vertices[1..];
    forall i | 0 <= i < |ops| && (ops[i].MoveTo? || ops[i].LineTo?)
      ensures ops[i].p in poly.vertices
    {
      if i >= 2 {
        assert ops[i] == LineTo(rest[i - 2]);
        assert rest[i - 2] == poly.vertices[i - 1];
      }
    }
  }

  /** An axis-aligned region of the page. */
  datatype Box = Box(left: real, bottom: real, right: real, top: real)

  predicate InBox(p: Point, b: Box)
  {
    b.left <= p.x <= b.right && b.bottom <= p.y <= b.top
  }

  /**
    A command is anchored in a region: the anchor of an image or text, both
    ends of a line, the lower-left and upper-right corners of a rectangle
    and every point a path moves or draws to lie in the region.
  */
  predicate AnchoredIn(c: DrawCmd, b: Box)
  {
    match c
    case DrawImage(at, _) => InBox(at, b)
    case DrawRectangle(corner, w, h, _, _) =>
      InBox(corner, b) && InBox(Point(corner.x + w, corner.y + h), b)
    case DrawText(_, at, _, _, _) => InBox(at, b)
    case DrawLine(s, e, _, _) => InBox(s, b) && InBox(e, b)
    case PushOperators(ops) =>
      forall i :: 0 <= i < |ops| && (ops[i].MoveTo? || ops[i].LineTo?) ==> InBox(ops[i].p, b)
  }

  predicate Encloses(outer: Box, inner: Box)
  {
    outer.left <= inner.left && inner.right <= outer.right
    && outer.bottom <= inner.bottom && inner.top <= outer.top
  }

  /** A command anchored in a region is anchored in every region enclosing it. */
  lemma AnchoredInEnclosing(c: DrawCmd, inner: Box, outer: Box)
    requires AnchoredIn(c, inner) && Encloses(outer, inner)
    ensures AnchoredIn(c, outer)
  {
    if c.PushOperators? {
      forall i | 0 <= i < |c.ops| && (c.ops[i].MoveTo? || c.ops[i].LineTo?)
        ensures InBox(c.ops[i].p, outer)
      {
        assert InBox(c.ops[i].p, inner);
      }
    }
  }

  /** A filled polygon whose vertices all lie in a region is anchored in it. */
  lemma PolygonAnchoredIn(poly: Polygon, b: Box)
    requires |poly.vertices| >= 1
    requires forall v | v in poly.vertices :: InBox(v, b)
    ensures AnchoredIn(PushOperators(FilledPolygonOps(poly)), b)
  {
    PolygonOpsVisitOnlyVertices(poly);
  }
}
