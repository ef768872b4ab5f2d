/**
  The primitive drawers of the label: the postage-required box, the address
  block, the dotted perforation line, the direction triangles and the fold
  section that combines the last two. Each drawer is the list of primitives
  it issues, in issue order.
*/
module Drawers {
  import opened Canvas
  import Payload

  // The postage box's text.
  const PostageText: string := "POSTAGE"
  const RequiredText: string := "REQUIRED"
  const PostageTextSize: real := 13.0

  // The dotted line: segment i runs from DotStartX + DotPitch * i for DotLength.
  const DotStartX: real := 50.0
  const DotPitch: real := 6.0
  const DotLength: real := 3.0
  const DefaultDotCount: nat := 80
  /** Where the last of the default segments ends. */
  const PerforationEndX: real := DotStartX + DotPitch * ((DefaultDotCount - 1) as real) + DotLength

  // The triangles: a 50 x 12 unit base shape scaled horizontally by 0.4.
  const TriangleScale: real := 0.4
  const TriangleHeight: real := 12.0

  // The fold section.
  const SmallFontSize: real := 10.0
  const FoldX: real := 100.0
  const FoldY: real := 400.0
  const PerforationDrop: real := 35.0
  const PasteOutsideHint: string := "Please paste this address label on the outside of the box"
  const PutInsideHint: string := "Please put this part inside the box on top of your products,"
  const IdentifyHint: string := "so we can identify your return parcel upon arrival"

  /**
    The left edge that centres a text of width `textWidth` in a box whose
    left edge is `left`: the text's midpoint is the box's midpoint, so a text
    no wider than the box stays inside it.
  */
  function CenteredX(left: real, boxWidth: real, textWidth: real): (x: real)
    ensures x + textWidth / 2.0 == left + boxWidth / 2.0
    ensures 0.0 <= textWidth <= boxWidth ==> left <= x && x + textWidth <= left + boxWidth
  {
    left + (boxWidth - textWidth) / 2.0
  }

  /**
    `drawPostageRequired`: a gray bordered box of the given size whose right
    edge is `paddingRight` from the page's right edge and whose top edge is
    `paddingTop` below the page's top, holding "POSTAGE" above "REQUIRED",
    each centred horizontally by its measured width. "POSTAGE" sits 7 above
    the box's vertical centre and "REQUIRED" 30 below it; the texts are drawn
    without a font, so the page's default font applies.
  */
  function PostageRequired(pageWidth: real, pageHeight: real, width: real, height: real,
                           paddingRight: real, paddingTop: real, widthOf: TextWidth)
    : (cmds: seq<DrawCmd>)
    ensures |cmds| == 3
    ensures cmds[0].DrawRectangle? && cmds[1].DrawText? && cmds[2].DrawText?
    ensures cmds[0].width == width && cmds[0].height == height
    ensures cmds[0].corner.x + width + paddingRight == pageWidth
    ensures cmds[0].corner.y + height + paddingTop == pageHeight
    ensures cmds[0].borderColor == Gray && cmds[0].borderWidth == 1.0
    ensures cmds[1].text == PostageText && cmds[2].text == RequiredText
    ensures forall k :: 1 <= k < 3 ==>
              && cmds[k].at.x + widthOf(cmds[k].text, PostageTextSize) / 2.0
                   == cmds[0].corner.x + width / 2.0
              && cmds[k].size == PostageTextSize
              && cmds[k].font == PageDefaultFont
              && cmds[k].color == Gray
    ensures cmds[1].at.y == cmds[0].corner.y + height / 2.0 + 7.0
    ensures cmds[1].at.y - cmds[2].at.y == 30.0
  {
    var boxX := pageWidth - width - paddingRight;
    var boxY := pageHeight - height - paddingTop;
    var textSize := PostageTextSize;
    [ DrawRectangle(Point(boxX, boxY), width, height, Gray, 1.0),
      DrawText(PostageText,
               Point(CenteredX(boxX, width, widthOf(PostageText, PostageTextSize)),
                     boxY + height / 2.0 - (textSize - 20.0)),
               textSize, PageDefaultFont, Gray),
      DrawText(RequiredText,
               Point(CenteredX(boxX, width, widthOf(RequiredText, PostageTextSize)),
                     boxY + height / 2.0 - (textSize + 10.0)),
               textSize, PageDefaultFont, Gray) ]
  }

  /**
    When both words are no wider than the box and the box is at least 46
    high, each word starts and ends inside the box horizontally, and its
    baseline and the top of its em box lie inside the box vertically.
  */
  lemma PostageTextInsideBox(pageWidth: real, pageHeight: real, width: real, height: real,
                             paddingRight: real, paddingTop: real, widthOf: TextWidth)
    requires 0.0 <= widthOf(PostageText, PostageTextSize) <= width
    requires 0.0 <= widthOf(RequiredText, PostageTextSize) <= width
    requires height >= 46.0
    ensures var cmds := PostageRequired(pageWidth, pageHeight, width, height,
                                        paddingRight, paddingTop, widthOf);
            forall k :: 1 <= k < 3 ==>
              && cmds[0].corner.x <= cmds[k].at.x
              && cmds[k].at.x + widthOf(cmds[k].text, PostageTextSize) <= cmds[0].corner.x + width
              && cmds[0].corner.y <= cmds[k].at.y
              && cmds[k].at.y + cmds[k].size <= cmds[0].corner.y + height
  {
  }

  /** The four lines of an address block: company, street, "zip city", country. */
  function AddressLines(a: Payload.ReturnAddress): seq<string>
  {
    [a.company, a.address, a.zipCode + " " + a.city, a.country]
  }

  /**
    Texts drawn one below the other, the first with its baseline at `y` and
    each next one `spacing` lower, all starting at `x`.
  */
  function TextColumn(lines: seq<string>, x: real, y: real, spacing: real, size: real,
                      font: Font, color: Color): (cmds: seq<DrawCmd>)
    ensures |cmds| == |lines|
    ensures forall k :: 0 <= k < |lines| ==>
              cmds[k] == DrawText(lines[k], Point(x, y - (k as real) * spacing), size, font, color)
    decreases |lines|
  {
    if lines == [] then
      []
    else
      var rest := TextColumn(lines[1..], x, y - spacing, spacing, size, font, color);
      assert forall k :: 1 <= k < |lines| ==>
               rest[k - 1] == DrawText(lines[k], Point(x, y - (k as real) * spacing), size, font, color);
      [DrawText(lines[0], Point(x, y), size, font, color)] + rest
  }

  /**
    `drawAddress`: the company, the street address, the zip code and city
    joined by a space, and the country, in black, all left-aligned at `x`,
    line k with its baseline `k * lineSpacing` below `startY`.
  */
  function DrawAddress(a: Payload.ReturnAddress, x: real, startY: real, lineSpacing: real,
                       textSize: real, font: Font): (cmds: seq<DrawCmd>)
    ensures |cmds| == 4
    ensures forall k :: 0 <= k < 4 ==>
              && cmds[k].DrawText?
              && cmds[k].at == Point(x, startY - (k as real) * lineSpacing)
              && cmds[k].size == textSize && cmds[k].font == font && cmds[k].color == Black
    ensures cmds[0].text == a.company
    ensures cmds[1].text == a.address
    ensures cmds[2].text == a.zipCode + " " + a.city
    ensures cmds[3].text == a.country
  {
    TextColumn(AddressLines(a), x, startY, lineSpacing, textSize, font, Black)
  }

  /** The i-th perforation segment at height y. */
  function Segment(i: nat, y: real): DrawCmd
  {
    DrawLine(Point(DotStartX + DotPitch * (i as real), y),
             Point(DotStartX + DotLength + DotPitch * (i as real), y), 1.0, Black)
  }

  /**
    `drawDottedLine(y, count)`: `count` black horizontal segments at height
    `y`, each 3 long, segment i starting at 50 + 6i, so each segment ends
    strictly before the next one starts.
  */
  function DottedLine(y: real, count: nat): (cmds: seq<DrawCmd>)
    ensures |cmds| == count
    ensures forall i :: 0 <= i < count ==>
              && cmds[i].DrawLine?
              && cmds[i].start == Point(DotStartX + DotPitch * (i as real), y)
              && cmds[i].end == Point(cmds[i].start.x + DotLength, y)
              && cmds[i].thickness == 1.0 && cmds[i].color == Black
    ensures forall c | c in cmds :: c.DrawLine?
  {
    if count == 0 then [] else DottedLine(y, count - 1) + [Segment(count - 1, y)]
  }

  /**
    The segments are in strictly increasing x order and pairwise disjoint:
    each ends before any later one starts, with a gap of 3 to the next.
  */
  lemma DottedSegmentsDisjoint(y: real, count: nat)
    ensures var cmds := DottedLine(y, count);
            forall i, j :: 0 <= i < j < count ==> cmds[i].end.x < cmds[j].start.x
    ensures var cmds := DottedLine(y, count);
            forall i :: 0 <= i < count - 1 ==> cmds[i + 1].start.x - cmds[i].end.x == DotPitch - DotLength
  {
  }

  /** The perforation guide stays within x = 50 and x = 50 + 6 * count - 3. */
  lemma DottedLineExtent(y: real, count: nat)
    requires count > 0
    ensures var cmds := DottedLine(y, count);
            forall c | c in cmds ::
              && DotStartX <= c.start.x
              && c.end.x <= DotStartX + DotPitch * (count as real) - (DotPitch - DotLength)
  {
    var cmds := DottedLine(y, count);
    forall c | c in cmds
      ensures DotStartX <= c.start.x
      ensures c.end.x <= DotStartX + DotPitch * (count as real) - (DotPitch - DotLength)
    {
      var i :| 0 <= i < |cmds| && cmds[i] == c;
      assert (i as real) <= (count as real) - 1.0;
    }
  }

  datatype TriangleDirection = Upward | Downward

  /**
    `drawTriangle`: a burgundy filled triangle with base from (x, y) to
    (x + 20, y) and apex above the base midpoint, 12 above the base when
    pointing upward and 12 below it when pointing downward.
  */
  function Triangle(x: real, y: real, direction: TriangleDirection): (cmd: DrawCmd)
    ensures cmd.PushOperators?
    ensures var poly := DecodeFilledPolygon(cmd.ops);
            && poly.Some?
            && poly.value.fill == Burgundy
            && |poly.value.vertices| == 3
            && poly.value.vertices[0] == Point(x, y)
            && poly.value.vertices[1] == Point(x + 20.0, y)
            && poly.value.vertices[2].x == (poly.value.vertices[0].x + poly.value.vertices[1].x) / 2.0
            && (poly.value.vertices[2].y > y <==> direction == Upward)
            && (poly.value.vertices[2].y - y == TriangleHeight || y - poly.value.vertices[2].y == TriangleHeight)
  {
    var scale := TriangleScale;
    var apexY := if direction == Upward then 12.0 + y else -12.0 + y;
    var poly := Polygon([Point(x, y), Point(x + 50.0 * scale, y), Point(x + 25.0 * scale, apexY)],
                        Burgundy);
    DecodeFilledPolygonOps(poly);
    PushOperators(FilledPolygonOps(poly))
  }

  /**
    A marker points away from a horizontal line at height `lineY`: it is a
    triangle whose base lies entirely on one side of the line and whose apex
    lies farther from the line on that same side.
  */
  predicate PointsAwayFrom(poly: Polygon, lineY: real)
  {
    && |poly.vertices| == 3
    && poly.vertices[0].y == poly.vertices[1].y
    && ((lineY < poly.vertices[0].y < poly.vertices[2].y)
        || (poly.vertices[2].y < poly.vertices[0].y < lineY))
  }

  /**
    A fold marker for a perforation line at `lineY`: a filled triangle that
    points away from the line and lies within the line's horizontal extent.
  */
  predicate FoldMarker(c: DrawCmd, lineY: real)
  {
    && c.PushOperators?
    && DecodeFilledPolygon(c.ops).Some?
    && PointsAwayFrom(DecodeFilledPolygon(c.ops).value, lineY)
    && var v := DecodeFilledPolygon(c.ops).value.vertices;
       DotStartX <= v[0].x <= v[2].x <= v[1].x <= PerforationEndX
  }

  /**
    A triangle whose base is above a line and points upward, or whose base
    is below it and points downward, and whose base spans x to x + 20 within
    the dotted line's extent, is a fold marker for that line.
  */
  lemma TriangleIsFoldMarker(x: real, y: real, direction: TriangleDirection, lineY: real)
    requires DotStartX <= x && x + 20.0 <= PerforationEndX
    requires direction == Upward ==> y > lineY
    requires direction == Downward ==> y < lineY
    ensures FoldMarker(Triangle(x, y, direction), lineY)
  {
  }

  /** A triangle is anchored in any region holding its base and 12 above and below it. */
  lemma TriangleAnchoredIn(x: real, y: real, direction: TriangleDirection, b: Box)
    requires b.left <= x && x + 20.0 <= b.right
    requires b.bottom <= y - TriangleHeight && y + TriangleHeight <= b.top
    ensures AnchoredIn(Triangle(x, y, direction), b)
  {
    var poly := DecodeFilledPolygon(Triangle(x, y, direction).ops).value;
    assert poly.vertices == [poly.vertices[0], poly.vertices[1], poly.vertices[2]];
    PolygonAnchoredIn(poly, b);
  }

  /**
    The band the fold section occupies: from the dotted line's first to its
    last x, and from the lowest hint's baseline to the upper triangles' apex.
  */
  const FoldBand: Box := Box(DotStartX, FoldY - 93.0, PerforationEndX, FoldY + TriangleHeight)

  /** The height of the perforation line in the fold section. */
  const PerforationY: real := FoldY - PerforationDrop

  /** The upper half of the fold section: the upward pair and the paste-outside hint. */
  function UpperFoldMarks(): (cmds: seq<DrawCmd>)
  {
    var xOffset := FoldX;
    var yOffset := FoldY;
    [ Triangle(100.0, 400.0, Upward),
      Triangle(450.0, 400.0, Upward),
      DrawText(PasteOutsideHint, Point(xOffset + 50.0, yOffset), SmallFontSize, PageDefaultFont, Burgundy) ]
  }

  /** The lower half of the fold section: the downward pair and the put-inside hints. */
  function LowerFoldMarks(): (cmds: seq<DrawCmd>)
  {
    var xOffset := FoldX;
    var yOffset := FoldY;
    [ Triangle(100.0, 330.0, Downward),
      Triangle(450.0, 330.0, Downward),
      DrawText(PutInsideHint, Point(xOffset + 50.0, yOffset - 80.0), SmallFontSize, PageDefaultFont, Burgundy),
      DrawText(IdentifyHint, Point(xOffset + 70.0, yOffset - 93.0), SmallFontSize, PageDefaultFont, Burgundy) ]
  }

  /**
    `drawLabelSection`: two upward triangles at (100, 400) and (450, 400),
    the paste-outside hint, the 80-segment dotted line 35 below, two
    downward triangles at (100, 330) and (450, 330) and the two put-inside
    hints 80 and 93 below the upper triangles' base, the hints in burgundy.
  */
  function LabelSection(): (cmds: seq<DrawCmd>)
    ensures |cmds| == 87
    ensures cmds[3..83] == DottedLine(PerforationY, DefaultDotCount)
  {
    UpperFoldMarks() + DottedLine(FoldY - PerforationDrop, DefaultDotCount) + LowerFoldMarks()
  }

  /**
    The layout of the fold section, primitive by primitive: the upward
    triangles at (100, 400) and (450, 400) and the paste-outside hint at
    (150, 400), then the perforation line at 365, then the downward
    triangles at (100, 330) and (450, 330) and the put-inside hints at
    (150, 320) and (170, 307), all hints in burgundy at the small size.
  */
  lemma FoldSectionLayout()
    ensures var cmds := LabelSection();
            && cmds[0] == Triangle(100.0, 400.0, Upward)
            && cmds[1] == Triangle(450.0, 400.0, Upward)
            && cmds[2] == DrawText(PasteOutsideHint, Point(150.0, 400.0), SmallFontSize, PageDefaultFont, Burgundy)
            && cmds[3..83] == DottedLine(365.0, 80)
            && cmds[83] == Triangle(100.0, 330.0, Downward)
            && cmds[84] == Triangle(450.0, 330.0, Downward)
            && cmds[85] == DrawText(PutInsideHint, Point(150.0, 320.0), SmallFontSize, PageDefaultFont, Burgundy)
            && cmds[86] == DrawText(IdentifyHint, Point(170.0, 307.0), SmallFontSize, PageDefaultFont, Burgundy)
  {
    var cmds := LabelSection();
    var lower := LowerFoldMarks();
    assert cmds[83..] == lower;
  }

  /** Every command of the fold section is one of its marks or a perforation segment. */
  lemma FoldSectionParts(c: DrawCmd)
    requires c in LabelSection()
    ensures c in UpperFoldMarks() || c in LowerFoldMarks() || c in DottedLine(PerforationY, DefaultDotCount)
  {
  }

  /** The fold section's four triangles are fold markers for the perforation line. */
  lemma FoldTrianglesAreMarkers()
    ensures forall c | c in UpperFoldMarks() && c.PushOperators? :: FoldMarker(c, PerforationY)
    ensures forall c | c in LowerFoldMarks() && c.PushOperators? :: FoldMarker(c, PerforationY)
  {
    TriangleIsFoldMarker(100.0, 400.0, Upward, PerforationY);
    TriangleIsFoldMarker(450.0, 400.0, Upward, PerforationY);
    TriangleIsFoldMarker(100.0, 330.0, Downward, PerforationY);
    TriangleIsFoldMarker(450.0, 330.0, Downward, PerforationY);
  }

  /**
    The fold section brackets the perforation line: each of its filled
    shapes is a triangle pointing away from the line and lying within the
    line's horizontal extent.
  */
  lemma FoldMarkersPointAway()
    ensures forall c | c in LabelSection() && c.PushOperators? :: FoldMarker(c, PerforationY)
  {
    FoldTrianglesAreMarkers();
    forall c | c in LabelSection() && c.PushOperators?
      ensures FoldMarker(c, PerforationY)
    {
      FoldSectionParts(c);
    }
  }

  /**
    Of the fold section's hints, exactly the paste-outside one is above the
    perforation line; the two put-inside hints are below it.
  */
  lemma FoldHintsAroundPerforation()
    ensures forall c | c in LabelSection() && c.DrawText? ::
              (c.at.y > PerforationY <==> c.text == PasteOutsideHint)
    ensures forall c | c in LabelSection() && c.DrawText? ::
              c.text == PasteOutsideHint || c.text == PutInsideHint || c.text == IdentifyHint
  {
    forall c | c in LabelSection() && c.DrawText?
      ensures c.at.y > PerforationY <==> c.text == PasteOutsideHint
      ensures c.text == PasteOutsideHint || c.text == PutInsideHint || c.text == IdentifyHint
    {
      FoldSectionParts(c);
    }
  }

  /** The fold section's triangles and hints are anchored within the fold band. */
  lemma FoldMarksInBand()
    ensures forall c | c in UpperFoldMarks() :: AnchoredIn(c, FoldBand)
    ensures forall c | c in LowerFoldMarks() :: AnchoredIn(c, FoldBand)
  {
    TriangleAnchoredIn(100.0, 400.0, Upward, FoldBand);
    TriangleAnchoredIn(450.0, 400.0, Upward, FoldBand);
    TriangleAnchoredIn(100.0, 330.0, Downward, FoldBand);
    TriangleAnchoredIn(450.0, 330.0, Downward, FoldBand);
  }

  /** Every segment of the perforation line is anchored within the fold band. */
  lemma PerforationInBand()
    ensures forall c | c in DottedLine(PerforationY, DefaultDotCount) :: AnchoredIn(c, FoldBand)
  {
    var dots := DottedLine(PerforationY, DefaultDotCount);
    forall c | c in dots
      ensures AnchoredIn(c, FoldBand)
    {
      var i :| 0 <= i < |dots| && dots[i] == c;
      assert (i as real) <= ((DefaultDotCount - 1) as real);
    }
  }

  /** Every command of the fold section is anchored within the fold band. */
  lemma FoldSectionInBand()
    ensures forall c | c in LabelSection() :: AnchoredIn(c, FoldBand)
  {
    FoldMarksInBand();
    PerforationInBand();
    forall c | c in LabelSection()
      ensures AnchoredIn(c, FoldBand)
    {
      FoldSectionParts(c);
    }
  }
}
