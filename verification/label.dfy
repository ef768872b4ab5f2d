/**
  The shipping-label handler: the validation guard, the composition of the
  drawers in the order the handler issues them, and the outcome it answers
  with (400 for a rejected body, 500 for a failed generation, otherwise the
  one-page document).
*/
module Label {
  import opened Wrappers
  import opened JsValues
  import opened Canvas
  import opened Payload
  import opened Drawers

  datatype PageSize = PageSize(width: real, height: real)

  /** The size of a page added without arguments (A4, in points). */
  const DefaultPage: PageSize := PageSize(595.28, 841.89)

  const FontSize: real := 17.0
  const LogoScale: real := 0.2
  const OrderLabel: string := "Order Number:"
  const NameLabel: string := "Name:"

  /**
    The "Order Number:" and "Name:" rows: each caption in the regular font at
    x = 50 and its value in bold at x = 230 on the same baseline, the order
    row at y = 180 and the name row at y = 120, all at size 22 in black.
  */
  function OrderAndName(req: LabelRequest): (cmds: seq<DrawCmd>)
    ensures |cmds| == 4
    ensures forall k :: 0 <= k < 4 ==>
              && cmds[k].DrawText?
              && cmds[k].size == FontSize + 5.0
              && cmds[k].color == Black
              && (k % 2 == 0 ==> cmds[k].font == Helvetica && cmds[k].at.x == 50.0)
              && (k % 2 == 1 ==> cmds[k].font == HelveticaBold && cmds[k].at.x == 230.0)
    ensures cmds[0].text == OrderLabel && cmds[2].text == NameLabel
    ensures cmds[1].text == req.order && cmds[1].at == Point(230.0, 180.0)
    ensures cmds[3].text == req.name && cmds[3].at == Point(230.0, 120.0)
    ensures cmds[0].at.y == cmds[1].at.y && cmds[2].at.y == cmds[3].at.y
  {
    [ DrawText(OrderLabel, Point(50.0, 180.0), FontSize + 5.0, Helvetica, Black),
      DrawText(req.order, Point(230.0, 180.0), FontSize + 5.0, HelveticaBold, Black),
      DrawText(NameLabel, Point(50.0, 120.0), FontSize + 5.0, Helvetica, Black),
      DrawText(req.name, Point(230.0, 120.0), FontSize + 5.0, HelveticaBold, Black) ]
  }

  /**
    Everything drawn on the label page, in drawing order: the logo near the
    top-left, the postage box (120 x 140, 50 from the right, 70 from the
    top), the return address from 180 below the top with 24 between lines,
    the fold section, and the order and name rows.
  */
  function LabelCommands(req: LabelRequest, page: PageSize, widthOf: TextWidth): (cmds: seq<DrawCmd>)
    ensures |cmds| == 99
    ensures cmds[0] == DrawImage(Point(50.0, page.height - 120.0), LogoScale)
  {
    [DrawImage(Point(50.0, page.height - 120.0), LogoScale)]
    + PostageRequired(page.width, page.height, 120.0, 140.0, 50.0, 70.0, widthOf)
    + DrawAddress(req.returnAddress, 50.0, page.height - 180.0, 24.0, FontSize, HelveticaBold)
    + LabelSection()
    + OrderAndName(req)
  }

  /**
    The drawing order of the label, first half: the logo, then the postage
    box, then the address block, each occupying the slice that follows the
    previous part.
  */
  lemma LabelDrawOrderHead(req: LabelRequest, page: PageSize, widthOf: TextWidth)
    ensures var cmds := LabelCommands(req, page, widthOf);
            && cmds[1..4] == PostageRequired(page.width, page.height, 120.0, 140.0, 50.0, 70.0, widthOf)
            && cmds[4..8] == DrawAddress(req.returnAddress, 50.0, page.height - 180.0, 24.0, FontSize, HelveticaBold)
  {
    var cmds := LabelCommands(req, page, widthOf);
    var postage := PostageRequired(page.width, page.height, 120.0, 140.0, 50.0, 70.0, widthOf);
    var address := DrawAddress(req.returnAddress, 50.0, page.height - 180.0, 24.0, FontSize, HelveticaBold);
    assert cmds[1..4] == postage;
    assert cmds[4..8] == address;
  }

  /**
    The drawing order of the label, second half: after the address block
    come the fold section and then the order and name rows, which close the
    label.
  */
  lemma LabelDrawOrderTail(req: LabelRequest, page: PageSize, widthOf: TextWidth)
    ensures var cmds := LabelCommands(req, page, widthOf);
            && cmds[8..95] == LabelSection()
            && cmds[95..] == OrderAndName(req)
  {
    var cmds := LabelCommands(req, page, widthOf);
    assert cmds[8..95] == LabelSection();
    assert cmds[95..] == OrderAndName(req);
  }

  /** Every command of the label belongs to one of its parts. */
  lemma LabelParts(req: LabelRequest, page: PageSize, widthOf: TextWidth, c: DrawCmd)
    requires c in LabelCommands(req, page, widthOf)
    ensures || c == DrawImage(Point(50.0, page.height - 120.0), LogoScale)
            || c in PostageRequired(page.width, page.height, 120.0, 140.0, 50.0, 70.0, widthOf)
            || c in DrawAddress(req.returnAddress, 50.0, page.height - 180.0, 24.0, FontSize, HelveticaBold)
            || c in LabelSection()
            || c in OrderAndName(req)
  {
    var cmds := LabelCommands(req, page, widthOf);
    var postage := PostageRequired(page.width, page.height, 120.0, 140.0, 50.0, 70.0, widthOf);
    var address := DrawAddress(req.returnAddress, 50.0, page.height - 180.0, 24.0, FontSize, HelveticaBold);
    var section := LabelSection();
    var rows := OrderAndName(req);
    LabelDrawOrderHead(req, page, widthOf);
    LabelDrawOrderTail(req, page, widthOf);
    var i :| 0 <= i < |cmds| && cmds[i] == c;
    if i == 0 {
    } else if i < 4 {
      assert cmds[i] == postage[i - 1];
    } else if i < 8 {
      assert cmds[i] == address[i - 4];
    } else if i < 95 {
      assert cmds[i] == section[i - 8];
    } else {
      assert cmds[i] == rows[i - 95];
    }
  }

  /** The texts on the label that do not depend on the request. */
  const FixedTexts: seq<string> :=
    [PostageText, RequiredText, PasteOutsideHint, PutInsideHint, IdentifyHint, OrderLabel, NameLabel]

  /** The texts a request contributes: its address lines, its order and its name. */
  function RequestTexts(req: LabelRequest): seq<string>
  {
    AddressLines(req.returnAddress) + [req.order, req.name]
  }

  /** The postage box's texts are fixed captions. */
  lemma PostageTextsFixed(page: PageSize, widthOf: TextWidth)
    ensures forall c | c in PostageRequired(page.width, page.height, 120.0, 140.0, 50.0, 70.0, widthOf)
                       && c.DrawText? :: c.text in FixedTexts
  {
    var cmds := PostageRequired(page.width, page.height, 120.0, 140.0, 50.0, 70.0, widthOf);
    forall c | c in cmds && c.DrawText?
      ensures c.text in FixedTexts
    {
      var k :| 0 <= k < 3 && cmds[k] == c;
      assert c.text == FixedTexts[k - 1];
    }
  }

  /** The order and name rows show fixed captions and the request's order and name. */
  lemma RowTextsFromRequest(req: LabelRequest)
    ensures forall c | c in OrderAndName(req) && c.DrawText? ::
              c.text in FixedTexts || c.text in RequestTexts(req)
    ensures RequestTexts(req)[4] == OrderAndName(req)[1].text
    ensures RequestTexts(req)[5] == OrderAndName(req)[3].text
  {
    var cmds := OrderAndName(req);
    forall c | c in cmds && c.DrawText?
      ensures c.text in FixedTexts || c.text in RequestTexts(req)
    {
      var k :| 0 <= k < 4 && cmds[k] == c;
      if k == 0 {
        assert c.text == FixedTexts[5];
      } else if k == 1 {
        assert c.text == RequestTexts(req)[4];
      } else if k == 2 {
        assert c.text == FixedTexts[6];
      } else {
        assert c.text == RequestTexts(req)[5];
      }
    }
  }

  /** The fold section's texts are fixed captions. */
  lemma SectionTextsFixed()
    ensures forall c | c in LabelSection() && c.DrawText? :: c.text in FixedTexts
  {
    FoldHintsAroundPerforation();
    forall c | c in LabelSection() && c.DrawText?
      ensures c.text in FixedTexts
    {
      assert c.text == FixedTexts[2] || c.text == FixedTexts[3] || c.text == FixedTexts[4];
    }
  }

  /** The address block shows exactly the request's four address lines, in order. */
  lemma AddressTextsFromRequest(req: LabelRequest, page: PageSize)
    ensures var cmds := DrawAddress(req.returnAddress, 50.0, page.height - 180.0, 24.0, FontSize, HelveticaBold);
            forall k :: 0 <= k < 4 ==> cmds[k].text == RequestTexts(req)[k]
    ensures forall c | c in DrawAddress(req.returnAddress, 50.0, page.height - 180.0, 24.0, FontSize, HelveticaBold)
                       && c.DrawText? :: c.text in RequestTexts(req)
  {
    var cmds := DrawAddress(req.returnAddress, 50.0, page.height - 180.0, 24.0, FontSize, HelveticaBold);
    forall c | c in cmds && c.DrawText?
      ensures c.text in RequestTexts(req)
    {
      var k :| 0 <= k < 4 && cmds[k] == c;
      assert c.text == RequestTexts(req)[k];
    }
  }

  /**
    Every text on the label is either one of the fixed captions or one of
    the request's address lines, order or name, so the language never is.
  */
  lemma DrawnTextsComeFromRequest(req: LabelRequest, page: PageSize, widthOf: TextWidth)
    ensures forall c | c in LabelCommands(req, page, widthOf) && c.DrawText? ::
              c.text in FixedTexts || c.text in RequestTexts(req)
  {
    PostageTextsFixed(page, widthOf);
    AddressTextsFromRequest(req, page);
    SectionTextsFixed();
    RowTextsFromRequest(req);
    forall c | c in LabelCommands(req, page, widthOf) && c.DrawText?
      ensures c.text in FixedTexts || c.text in RequestTexts(req)
    {
      LabelParts(req, page, widthOf, c);
    }
  }

  /** The address block and the order and name rows are part of the label. */
  lemma RequestPartsInLabel(req: LabelRequest, page: PageSize, widthOf: TextWidth)
    ensures forall c | c in DrawAddress(req.returnAddress, 50.0, page.height - 180.0, 24.0, FontSize, HelveticaBold) ::
              c in LabelCommands(req, page, widthOf)
    ensures forall c | c in OrderAndName(req) :: c in LabelCommands(req, page, widthOf)
  {
    var cmds := LabelCommands(req, page, widthOf);
    var address := DrawAddress(req.returnAddress, 50.0, page.height - 180.0, 24.0, FontSize, HelveticaBold);
    var rows := OrderAndName(req);
    LabelDrawOrderHead(req, page, widthOf);
    LabelDrawOrderTail(req, page, widthOf);
    forall c | c in address
      ensures c in cmds
    {
      var k :| 0 <= k < 4 && address[k] == c;
      assert cmds[4 + k] == c;
    }
    forall c | c in rows
      ensures c in cmds
    {
      var k :| 0 <= k < 4 && rows[k] == c;
      assert cmds[95 + k] == c;
    }
  }

  /**
    Where the request's texts are drawn: its four address lines down the
    address column from 180 below the top, 24 apart, in bold at size 17, and
    its order and name in the value column of their rows, in bold at size 22.
  */
  lemma RequestTextsPlaced(req: LabelRequest, page: PageSize, widthOf: TextWidth)
    ensures var cmds := LabelCommands(req, page, widthOf);
            var a := req.returnAddress;
            && DrawText(a.company, Point(50.0, page.height - 180.0), FontSize, HelveticaBold, Black) in cmds
            && DrawText(a.address, Point(50.0, page.height - 204.0), FontSize, HelveticaBold, Black) in cmds
            && DrawText(a.zipCode + " " + a.city, Point(50.0, page.height - 228.0), FontSize, HelveticaBold, Black)
                 in cmds
            && DrawText(a.country, Point(50.0, page.height - 252.0), FontSize, HelveticaBold, Black) in cmds
            && DrawText(req.order, Point(230.0, 180.0), FontSize + 5.0, HelveticaBold, Black) in cmds
            && DrawText(req.name, Point(230.0, 120.0), FontSize + 5.0, HelveticaBold, Black) in cmds
  {
    var address := DrawAddress(req.returnAddress, 50.0, page.height - 180.0, 24.0, FontSize, HelveticaBold);
    var rows := OrderAndName(req);
    RequestPartsInLabel(req, page, widthOf);
    assert address[0] in address && address[1] in address;
    assert address[2] in address && address[3] in address;
    assert rows[1] in rows && rows[3] in rows;
  }

  /** Each of the request's address lines, its order and its name is drawn on the label. */
  lemma RequestTextsAreDrawn(req: LabelRequest, page: PageSize, widthOf: TextWidth)
    ensures forall t | t in RequestTexts(req) ::
              exists c :: c in LabelCommands(req, page, widthOf) && c.DrawText? && c.text == t
  {
    RequestTextsPlaced(req, page, widthOf);
    TextsShownBy(req, LabelCommands(req, page, widthOf), page.height);
  }

  /** Commands that draw each of the request's texts where the label puts them show all of them. */
  lemma TextsShownBy(req: LabelRequest, cmds: seq<DrawCmd>, height: real)
    requires var a := req.returnAddress;
             && DrawText(a.company, Point(50.0, height - 180.0), FontSize, HelveticaBold, Black) in cmds
             && DrawText(a.address, Point(50.0, height - 204.0), FontSize, HelveticaBold, Black) in cmds
             && DrawText(a.zipCode + " " + a.city, Point(50.0, height - 228.0), FontSize, HelveticaBold, Black)
                  in cmds
             && DrawText(a.country, Point(50.0, height - 252.0), FontSize, HelveticaBold, Black) in cmds
             && DrawText(req.order, Point(230.0, 180.0), FontSize + 5.0, HelveticaBold, Black) in cmds
             && DrawText(req.name, Point(230.0, 120.0), FontSize + 5.0, HelveticaBold, Black) in cmds
    ensures forall t | t in RequestTexts(req) :: exists c :: c in cmds && c.DrawText? && c.text == t
  {
  }

  /** The language of a request does not change the label. */
  lemma LanguageDoesNotAffectLabel(req: LabelRequest, language: string, page: PageSize, widthOf: TextWidth)
    ensures LabelCommands(req.(language := language), page, widthOf) == LabelCommands(req, page, widthOf)
  {
  }

  function PageBox(page: PageSize): Box
  {
    Box(0.0, 0.0, page.width, page.height)
  }

  /** The postage box and its words lie on any page of at least 170 x 210. */
  lemma PostageOnPage(page: PageSize, widthOf: TextWidth)
    requires page.width >= 170.0 && page.height >= 210.0
    requires 0.0 <= widthOf(PostageText, PostageTextSize) <= 120.0
    requires 0.0 <= widthOf(RequiredText, PostageTextSize) <= 120.0
    ensures forall c | c in PostageRequired(page.width, page.height, 120.0, 140.0, 50.0, 70.0, widthOf) ::
              AnchoredIn(c, PageBox(page))
  {
    var cmds := PostageRequired(page.width, page.height, 120.0, 140.0, 50.0, 70.0, widthOf);
    PostageTextInsideBox(page.width, page.height, 120.0, 140.0, 50.0, 70.0, widthOf);
    forall c | c in cmds
      ensures AnchoredIn(c, PageBox(page))
    {
      var k :| 0 <= k < 3 && cmds[k] == c;
    }
  }

  /** The address block lies on any page at least 252 high. */
  lemma AddressOnPage(req: LabelRequest, page: PageSize)
    requires page.width >= 50.0 && page.height >= 252.0
    ensures forall c | c in DrawAddress(req.returnAddress, 50.0, page.height - 180.0, 24.0, FontSize, HelveticaBold) ::
              AnchoredIn(c, PageBox(page))
  {
    var cmds := DrawAddress(req.returnAddress, 50.0, page.height - 180.0, 24.0, FontSize, HelveticaBold);
    forall c | c in cmds
      ensures AnchoredIn(c, PageBox(page))
    {
      var k :| 0 <= k < 4 && cmds[k] == c;
      assert (k as real) * 24.0 <= 72.0;
    }
  }

  /** The logo's anchor and the order and name rows lie on any page at least 230 wide and 180 high. */
  lemma LogoAndRowsOnPage(req: LabelRequest, page: PageSize)
    requires page.width >= 230.0 && page.height >= 180.0
    ensures AnchoredIn(DrawImage(Point(50.0, page.height - 120.0), LogoScale), PageBox(page))
    ensures forall c | c in OrderAndName(req) :: AnchoredIn(c, PageBox(page))
  {
    var rows := OrderAndName(req);
    forall c | c in rows
      ensures AnchoredIn(c, PageBox(page))
    {
      var k :| 0 <= k < 4 && rows[k] == c;
    }
  }

  /**
    The fixed layout fits any page at least 527 wide (the end of the dotted
    line) and 412 high (the apex of the upper triangles), provided the two
    postage words are no wider than their box: every anchor, corner, line
    end and path point is on the page.
  */
  lemma LabelFitsPage(req: LabelRequest, page: PageSize, widthOf: TextWidth)
    requires page.width >= PerforationEndX && page.height >= FoldY + TriangleHeight
    requires 0.0 <= widthOf(PostageText, PostageTextSize) <= 120.0
    requires 0.0 <= widthOf(RequiredText, PostageTextSize) <= 120.0
    ensures forall c | c in LabelCommands(req, page, widthOf) :: AnchoredIn(c, PageBox(page))
  {
    var cmds := LabelCommands(req, page, widthOf);
    PostageOnPage(page, widthOf);
    AddressOnPage(req, page);
    FoldSectionInBand();
    LogoAndRowsOnPage(req, page);
    forall c | c in cmds
      ensures AnchoredIn(c, PageBox(page))
    {
      LabelParts(req, page, widthOf, c);
      if c in LabelSection() {
        AnchoredInEnclosing(c, FoldBand, PageBox(page));
      }
    }
  }

  datatype Body = Message(text: string) | Document(page: PageSize, cmds: seq<DrawCmd>)

  /** The status, the body and the messages handed to the error reporter. */
  datatype Response = Response(status: nat, body: Body, reports: seq<string>)

  const InvalidPayloadMessage: string := "Invalid payload format"
  const GenerationFailedMessage: string := "Error generating PDF"

  /**
    `shippingLabel`: a body the validator rejects gets 400 with a short
    message and no document; otherwise a failure of an awaited generation
    step (its message given as `failure`) gets 500 and no document; otherwise the
    response carries the one-page label. Each error is reported exactly
    once, before the response; a success reports nothing.
  */
  function ShippingLabel(body: JsValue, failure: Option<string>, widthOf: TextWidth): (res: Response)
    ensures res.status == 400 || res.status == 500 || res.status == 200
    ensures res.status == 400 <==> !IsValidPayload(body)
    ensures res.status == 400 ==> res.body == Message(InvalidPayloadMessage)
                                  && res.reports == [InvalidPayloadMessage]
    ensures res.status == 500 <==> IsValidPayload(body) && failure.Some?
    ensures res.status == 500 ==> res.body == Message(GenerationFailedMessage)
                                  && res.reports == [failure.value]
    ensures res.body.Document? <==> res.status == 200
    ensures res.status == 200 ==>
              && res.reports == []
              && res.body.page == DefaultPage
              && res.body.cmds == LabelCommands(ToRequest(body), DefaultPage, widthOf)
  {
    if !IsValidPayload(body) then
      Response(400, Message(InvalidPayloadMessage), [InvalidPayloadMessage])
    else if failure.Some? then
      Response(500, Message(GenerationFailedMessage), [failure.value])
    else
      var req := ToRequest(body);
      Response(200, Document(DefaultPage, LabelCommands(req, DefaultPage, widthOf)), [])
  }

  /**
    A served label fits its default page whenever the postage words fit
    their box, and it shows the body's order and name in the value column.
  */
  lemma ServedLabelFitsPage(body: JsValue, widthOf: TextWidth)
    requires IsValidPayload(body)
    requires 0.0 <= widthOf(PostageText, PostageTextSize) <= 120.0
    requires 0.0 <= widthOf(RequiredText, PostageTextSize) <= 120.0
    ensures var res := ShippingLabel(body, None, widthOf);
            && res.body.Document?
            && (forall c | c in res.body.cmds :: AnchoredIn(c, PageBox(DefaultPage)))
            && DrawText(body.properties["order"].s, Point(230.0, 180.0), FontSize + 5.0, HelveticaBold, Black)
                 in res.body.cmds
            && DrawText(body.properties["name"].s, Point(230.0, 120.0), FontSize + 5.0, HelveticaBold, Black)
                 in res.body.cmds
  {
    var req := ToRequest(body);
    var cmds := LabelCommands(req, DefaultPage, widthOf);
    assert ShippingLabel(body, None, widthOf).body == Document(DefaultPage, cmds);
    assert req.order == body.properties["order"].s && req.name == body.properties["name"].s;
    DefaultPageHoldsLayout();
    LabelFitsPage(req, DefaultPage, widthOf);
    RequestTextsPlaced(req, DefaultPage, widthOf);
  }

  /** The default page is wide and high enough for the fixed layout. */
  lemma DefaultPageHoldsLayout()
    ensures DefaultPage.width >= PerforationEndX && DefaultPage.height >= FoldY + TriangleHeight
  {
  }

  /** The body of the end-to-end examples, with every field present. */
  function ExampleBody(): JsValue
  {
    Obj(map[
      "return_address" := Obj(map[
        "company" := Str("Co"), "address" := Str("Addr"), "zip_code" := Str("1234"),
        "city" := Str("City"), "country" := Str("NL")]),
      "order" := Str("ORD-1"), "name" := Str("Jane"), "language" := Str("en")])
  }

  /** The example body is accepted and read as the request it spells out. */
  lemma ExampleBodyRequest()
    ensures IsValidPayload(ExampleBody())
    ensures ToRequest(ExampleBody())
              == LabelRequest(ReturnAddress("Co", "Addr", "1234", "City", "NL"), "ORD-1", "Jane", "en")
  {
  }

  /**
    The end-to-end example: the complete body yields a document whose
    address block starts with the company, shows the postcode and city on
    one line, and whose value column shows the order and the name.
  */
  lemma EndToEndExample(widthOf: TextWidth)
    ensures var res := ShippingLabel(ExampleBody(), None, widthOf);
            && res.status == 200
            && res.body.Document?
            && DrawText("Co", Point(50.0, DefaultPage.height - 180.0), FontSize, HelveticaBold, Black)
                 in res.body.cmds
            && DrawText("1234 City", Point(50.0, DefaultPage.height - 228.0), FontSize, HelveticaBold, Black)
                 in res.body.cmds
            && DrawText("ORD-1", Point(230.0, 180.0), FontSize + 5.0, HelveticaBold, Black) in res.body.cmds
            && DrawText("Jane", Point(230.0, 120.0), FontSize + 5.0, HelveticaBold, Black) in res.body.cmds
  {
    var req := LabelRequest(ReturnAddress("Co", "Addr", "1234", "City", "NL"), "ORD-1", "Jane", "en");
    ExampleBodyRequest();
    RequestTextsPlaced(req, DefaultPage, widthOf);
    ExamplePostcodeLine();
  }

  /** The example's postcode and city share one line. */
  lemma ExamplePostcodeLine()
    ensures "1234" + " " + "City" == "1234 City"
  {
  }

  /** The end-to-end example without an order: 400, the short message, and no document. */
  lemma EndToEndMissingOrder(widthOf: TextWidth)
    ensures ShippingLabel(Obj(ExampleBody().properties - {"order"}), None, widthOf)
              == Response(400, Message(InvalidPayloadMessage), [InvalidPayloadMessage])
  {
  }
}
