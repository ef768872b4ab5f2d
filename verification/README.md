# Shipping-label generator: validation and label layout

This project models the shipping-label endpoint of the return-parcel
service. The endpoint takes a JSON body describing a return: a return
address, an order number, a customer name and a language. It checks that
body with `isValidPayload`. It then draws a one-page PDF label and answers
with it. A body the check rejects gets 400. A failure while the PDF is
built gets 500.

The model has six modules:

- `Wrappers`: the `Option` type.
- `JsValues`: the JavaScript values a parsed body can hold, with
  truthiness, `typeof` and property reads.
- `Payload`: the validator and the typed request the handler reads from a
  valid body.
- `Canvas`: the drawing primitives a page receives. These are images,
  rectangles, texts, lines and vector-path operator batches. The module
  also holds a decoder for the filled-polygon batches the triangles use.
- `Drawers`: the postage box, the address block, the dotted perforation
  line, the direction triangles and the fold section.
- `Label`: the order in which the handler composes the drawers, the
  order and name rows, and the handler's outcome (status, body and error
  reports).

A label is the sequence of primitives in issue order. Coordinates are
pdf-lib's, with the origin at the bottom-left and y growing upward. The
page is the one `addPage()` creates without arguments, A4 (595.28 x
841.89 points). Font metrics belong to the PDF library. They enter as a
parameter `widthOf: (text, size) -> width`.

## Model

| member | source | states |
|---|---|---|
| JsValues.Truthy | functions/src/shipping-label/index.ts:290-297 | the `!` tests: a value that passes one is never null or undefined, so the property reads after it cannot throw, and every object and array passes |
| JsValues.Get | functions/src/shipping-label/index.ts:295-308 | the `.` reads: a read that is truthy, or whose `typeof` is "string", found that key as an own property of an object, because a missing key reads as `undefined` |
| JsValues.TypeOf | functions/src/shipping-label/index.ts:290 | `typeof` answers "object" exactly for null, arrays and objects, and "string" exactly for strings |
| Payload.IsValidPayload | functions/src/shipping-label/index.ts:289-313 | a body is accepted exactly when it is an object whose `return_address` is an object with string `company`, `address`, `zip_code`, `city` and `country`, whose `order` and `name` are non-empty strings, and whose `language` is a string |
| Payload.ToRequest | functions/src/shipping-label/index.ts:326 | the typed view of a valid body, written back as JSON, is again valid and carries the same eight fields as the body |
| Payload.RequestRoundTrip | functions/src/shipping-label/index.ts:276-313 | a typed request survives the trip through its JSON body exactly when its order and name are non-empty, and then it comes back unchanged |
| Payload.RejectsNonObjects | functions/src/shipping-label/index.ts:290-292 | every value that is falsy or whose `typeof` is not "object" is rejected |
| Payload.RejectsFalsyRequiredField | functions/src/shipping-label/index.ts:295-297 | an object whose `return_address`, `order` or `name` is missing or falsy is rejected |
| Payload.RejectsNonStringField | functions/src/shipping-label/index.ts:306-311 | an object whose `order`, `name` or `language` holds a number is rejected |
| Payload.RejectsNonStringAddressField | functions/src/shipping-label/index.ts:300-305 | an object whose return address holds a number in any of its five fields is rejected |
| Payload.EmptyLanguageAccepted | functions/src/shipping-label/index.ts:295-308 | `language` is only type-checked: a valid body stays valid with an empty language |
| Payload.RejectsTestNonPayloads | functions/src/__tests__/shipping-label.test.ts:4-19 | null, a string and the empty object are rejected |
| Payload.RejectsTestNumericOrder | functions/src/__tests__/shipping-label.test.ts:21-35 | the body whose order is the number 123 is rejected |
| Payload.AcceptsTestPayload | functions/src/__tests__/shipping-label.test.ts:37-51 | the complete body with an empty language is accepted |
| Canvas.DecodeFilledPolygon | functions/src/shipping-label/index.ts:203-215 | the decoder accepts only batches that fill a polygon: push, move to the first vertex, a line to each further vertex, close, set the fill colour, fill, pop |
| Canvas.DecodeFilledPolygonOps | functions/src/shipping-label/index.ts:203-215 | decoding the batch of any polygon gives that polygon back |
| Canvas.PolygonOpsVisitOnlyVertices | functions/src/shipping-label/index.ts:203-215 | every point such a batch moves or draws to is a vertex of the polygon |
| Drawers.CenteredX | functions/src/shipping-label/index.ts:111-112 | the centred text's midpoint is the box's midpoint, so a text no wider than the box stays inside it |
| Drawers.PostageRequired | functions/src/shipping-label/index.ts:73-133 | a gray 1-point box of the given size, right edge `paddingRight` from the page's right and top edge `paddingTop` below the page's top, then "POSTAGE" and "REQUIRED" at size 13 in gray, each centred by its measured width, "POSTAGE" 7 above the box's centre and 30 above "REQUIRED" |
| Drawers.PostageTextInsideBox | functions/src/shipping-label/index.ts:98-132 | when both words are no wider than the box and the box is at least 46 high, each word lies inside the box horizontally and its baseline and em top lie inside it vertically |
| Drawers.TextColumn | functions/src/shipping-label/index.ts:153-167 | line k of a column is drawn at the column's x, `k * spacing` below the first baseline, with the column's size, font and colour |
| Drawers.DrawAddress | functions/src/shipping-label/index.ts:136-168 | four black texts: company, street, "zip city" and country, left-aligned, line k `k * lineSpacing` below the start |
| Drawers.DottedLine | functions/src/shipping-label/index.ts:170-183 | `count` black 1-point lines at the given height, segment i from x = 50 + 6i to 53 + 6i |
| Drawers.DottedSegmentsDisjoint | functions/src/shipping-label/index.ts:175-182 | the segments are in increasing x order, each ending before any later one starts, with a 3-point gap to the next |
| Drawers.DottedLineExtent | functions/src/shipping-label/index.ts:175-182 | all segments lie between x = 50 and x = 50 + 6 * count - 3 |
| Drawers.Triangle | functions/src/shipping-label/index.ts:190-216 | one filled burgundy triangle with base (x, y) to (x + 20, y) and its apex over the base's midpoint, 12 above the base exactly when it points upward and 12 below otherwise |
| Drawers.TriangleIsFoldMarker | functions/src/shipping-label/index.ts:190-216 | an upward triangle above a line, or a downward one below it, inside the dotted line's x range, points away from that line |
| Drawers.TriangleAnchoredIn | functions/src/shipping-label/index.ts:190-216 | a triangle lies in any region that holds its base and 12 above and below it |
| Drawers.LabelSection | functions/src/shipping-label/index.ts:218-274 | the fold section has 87 primitives, and the dotted line 35 below y = 400 follows the upper marks directly |
| Drawers.FoldSectionLayout | functions/src/shipping-label/index.ts:218-274 | primitive by primitive, the fold section is: upward triangles at (100, 400) and (450, 400), the paste-outside hint at (150, 400), the 80-segment dotted line at 365, downward triangles at (100, 330) and (450, 330), and the put-inside hints at (150, 320) and (170, 307), the hints burgundy at the small size |
| Drawers.FoldSectionParts | functions/src/shipping-label/index.ts:218-274 | every primitive of the fold section is an upper mark, a perforation segment or a lower mark |
| Drawers.FoldMarkersPointAway | functions/src/shipping-label/index.ts:219-260 | every filled shape in the fold section is a triangle pointing away from the perforation line and inside the line's x range |
| Drawers.FoldHintsAroundPerforation | functions/src/shipping-label/index.ts:235-274 | of the section's texts, exactly the paste-outside hint lies above the perforation line, and every text is one of the three hints |
| Drawers.FoldSectionInBand | functions/src/shipping-label/index.ts:218-274 | every primitive of the fold section lies in the band from x = 50 to 527 and from y = 307 to 412 |
| Label.OrderAndName | functions/src/shipping-label/index.ts:385-415 | captions in regular type at x = 50 and values in bold at x = 230, each caption on its value's baseline, order at y = 180 and name at y = 120, size 22 in black |
| Label.LabelCommands | functions/src/shipping-label/index.ts:349-415 | the label has 99 primitives and starts with the logo at (50, pageHeight - 120); which slice each later drawer fills is stated by Label.LabelDrawOrderHead and Label.LabelDrawOrderTail |
| Label.LabelDrawOrderHead | functions/src/shipping-label/index.ts:349-380 | after the logo come the postage box (120 x 140, 50 from the right, 70 from the top) and then the address block (from 180 below the top, 24 apart, bold at 17), each in the slice after the previous part |
| Label.LabelDrawOrderTail | functions/src/shipping-label/index.ts:382-415 | after the address block come the fold section and then the order and name rows, which close the label |
| Label.LabelParts | functions/src/shipping-label/index.ts:349-415 | every primitive of the label is the logo or belongs to one of the four drawers' outputs |
| Label.DrawnTextsComeFromRequest | functions/src/shipping-label/index.ts:349-415 | every text on the label is a fixed caption or one of the request's address lines, order or name |
| Label.RequestTextsPlaced | functions/src/shipping-label/index.ts:369-415 | the four address lines are drawn down the address column from 180 below the top, and the order and name are drawn in the value column |
| Label.RequestTextsAreDrawn | functions/src/shipping-label/index.ts:369-415 | each address line, the order and the name appears on the label |
| Label.LanguageDoesNotAffectLabel | functions/src/shipping-label/index.ts:349-415 | the label does not depend on the request's language |
| Label.LabelFitsPage | functions/src/shipping-label/index.ts:342-415 | on any page at least 527 wide and 412 high, every anchor, corner, line end and path point lies on the page, provided both postage words fit their box |
| Label.ShippingLabel | functions/src/shipping-label/index.ts:321-438 | a rejected body gets 400 with "Invalid payload format", reported once; a valid body whose generation fails gets 500 with "Error generating PDF", its failure reported once; otherwise 200 with the label on the default page and nothing reported |
| Label.ServedLabelFitsPage | functions/src/shipping-label/index.ts:342-415 | a served label fits its A4 page when the postage words fit their box, and it shows the body's order and name in the value column |
| Label.EndToEndExample | functions/src/shipping-label/index.ts:321-415 | a complete body yields a document that shows the company, "1234 City", the order and the name where the layout puts them |
| Label.EndToEndMissingOrder | functions/src/shipping-label/index.ts:327-331 | the same body without an order yields 400, the short message and one report |

## Left out

- HTTP routing, TLS and the Express wiring in functions/src/index.ts are not modelled. The handler is a function from the body to a status, a body and the error reports.
- PDF serialisation, the response headers and the stream piping (index.ts:417-432) are left out. A successful response carries the page size and the primitive list.
- `getLogo` and the logo's pixel size (index.ts:32-71) are left out. Reading the PNG needs the file system and sizing it needs the PDF library. The logo is a `DrawImage` of its anchor and scale factor.
- Font metrics (`estimateTextBoxWidth`, index.ts:26-30) belong to the PDF library. They are the `widthOf` parameter. Statements that need the postage words to fit their box take that as a precondition.
- Thrown errors are not modelled as exceptions. A failure inside the awaited part of the `try` block (index.ts:334-438) is the `failure` parameter, which carries `getErrorMessage` of the error. `reportError` is the `reports` list of a response.
- The model assumes `drawPostageRequired` cannot throw. It is an `async` function (index.ts:73) called without `await` (index.ts:358), so a throw inside it would become a rejected promise that the `catch` at index.ts:435 never sees. The handler would then answer 200 with a half-drawn postage box instead of 500. Its inputs are constants, so the model has no failure for it. Because its body awaits nothing, it runs to completion before the next drawer, and the model keeps its primitives in program order.
- Numbers are exact reals, so floating-point rounding of coordinates is not modelled. `Infinity` is not modelled. `NaN` is modelled because it is falsy.
- Property reads model own properties only. None of the nine keys the validator reads is a built-in property of any JSON value.
- The `await` sequencing is not modelled. Every drawer's output is appended in program order.
- Drawers.Triangle: the ensures state the decoded triangle's geometry, not the primitive's byte-level operator encoding. The decoder round trip (Canvas.DecodeFilledPolygonOps) ties the two together.
- `drawTriangle` multiplies only the x offsets by `scale = 0.4` (index.ts:201-210). So the base is 50 * 0.4 = 20 wide and the apex stays 12 from it. The model follows the code.
- `drawDottedLine`'s default height of 465 (index.ts:172) is never used. The only call passes 400 - 35 = 365 (index.ts:243). The model takes the height as an argument, and the fold section uses 365.
- "POSTAGE" and "REQUIRED" are drawn with no font option, so the page's default font applies. The Helvetica font is passed to `drawPostageRequired` only to measure widths. The model records the texts' font as `PageDefaultFont`.
