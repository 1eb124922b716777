/**
 * The report compositor: the template is rasterised (by a library, not
 * modelled) to a PNG of some pixel size; a one-page PDF of exactly that size
 * gets the PNG as its full-page background and, when calculator data is
 * given, three light-blue cards with the three ROI amounts drawn over them.
 *
 * The template's coordinates have their origin at the top left with y
 * growing downward; the PDF page's origin is the bottom left with y growing
 * upward. Every overlay coordinate is a template constant times one scale
 * factor, the raster width over the template's authoring width of 776.
 */
module SvgToPdf {
  import opened Js
  import opened RoiCalculator

  /** The template's authoring width, in template units. */
  const OriginalSvgWidth: real := 776.0

  /** Font size of the overlay amounts, in template units. */
  const FontSize: real := 28.0

  /** Rasteriser option: scale the template to the given pixel width. */
  datatype FitTo = FitToWidth(value: real)

  datatype Rgb = Rgb(red: real, green: real, blue: real)

  /** Fill of the cards, #ebf3ff. */
  const LightBlue: Rgb := Rgb(0.92, 0.95, 1.0)
  /** Colour of the amounts, #0F172A. */
  const TextColor: Rgb := Rgb(0.06, 0.09, 0.16)

  datatype Font = HelveticaBold

  /**
   * One drawing call on the page, in PDF coordinates. A text call carries the
   * amount it shows; the currency string drawn is that amount's
   * `formatCurrency` text.
   */
  datatype DrawOp =
    | Image(x: real, y: real, width: real, height: real)
    | Rectangle(x: real, y: real, width: real, height: real, color: Rgb)
    | Text(amount: real, x: real, y: real, size: real, font: Font, color: Rgb)

  /** A value card of the template: its box (top-left corner and size) and the top-left-based baseline point of its text. */
  datatype Card = Card(x: real, y: real, width: real, height: real, textX: real, textY: real)

  /** Efficiency gains, compliance savings and annual value, in that order. */
  const Cards: seq<Card> := [
    Card(55.0, 335.0, 210.0, 50.0, 65.0, 370.0),
    Card(285.0, 335.0, 210.0, 50.0, 295.0, 370.0),
    Card(540.0, 400.0, 150.0, 45.0, 560.0, 440.0)
  ]

  /** `fitTo` is requested only for a truthy width; otherwise the template renders at its native size. */
  function RasterOptions(width: Option<real>): (fit: Option<FitTo>)
    ensures fit.Some? <==> TruthyNumber(width)
    ensures fit.Some? ==> fit.value.value == width.value
  {
    if TruthyNumber(width) then Some(FitToWidth(width.value)) else None
  }

  /** Template units to pixels. */
  function Scale(pngWidth: nat): (s: real)
    ensures s >= 0.0
    ensures s * OriginalSvgWidth == pngWidth as real
  {
    pngWidth as real / OriginalSvgWidth
  }

  /** The card's box, scaled, with its top-left corner flipped to a bottom-left one. */
  function CardRectangle(c: Card, scale: real, pageHeight: real): DrawOp
  {
    Rectangle(c.x * scale, pageHeight - (c.y + c.height) * scale, c.width * scale, c.height * scale, LightBlue)
  }

  /** The card's amount, at its scaled and flipped baseline point. */
  function CardText(c: Card, amount: real, scale: real, pageHeight: real): DrawOp
  {
    Text(amount, c.textX * scale, pageHeight - c.textY * scale, FontSize * scale, HelveticaBold, TextColor)
  }

  /** The amounts the cards show, in card order. */
  function CardAmounts(roi: ROIResults): (amounts: seq<real>)
    ensures |amounts| == |Cards|
  {
    [roi.efficiencyGains, roi.complianceAccuracy, roi.annualValueSave]
  }

  /** A rectangle then a text for each card, in card order. */
  function CardOps(scale: real, pageHeight: real, amounts: seq<real>): (ops: seq<DrawOp>)
    requires |amounts| == |Cards|
    ensures |ops| == 2 * |Cards|
  {
    seq(2 * |Cards|, k requires 0 <= k < 2 * |Cards| =>
      if k % 2 == 0 then CardRectangle(Cards[k / 2], scale, pageHeight)
      else CardText(Cards[k / 2], amounts[k / 2], scale, pageHeight))
  }

  /** Every drawing call of one render, in order: the background, then the cards when there is calculator data. */
  function OverlayOps(pngWidth: nat, pngHeight: nat, calculatorData: Option<CalculatorInputs>): (ops: seq<DrawOp>)
    ensures |ops| >= 1 && ops[0] == Image(0.0, 0.0, pngWidth as real, pngHeight as real)
    ensures calculatorData.None? <==> |ops| == 1
  {
    var background := Image(0.0, 0.0, pngWidth as real, pngHeight as real);
    if calculatorData.None? then [background]
    else [background] + CardOps(Scale(pngWidth), pngHeight as real, CardAmounts(CalculateROI(calculatorData.value)))
  }

  /** A PDF page of fixed size and the drawing calls made on it so far. */
  class PdfPage {
    const width: real
    const height: real
    var ops: seq<DrawOp>

    /** `pdfDoc.addPage([width, height])`. */
    constructor (width: real, height: real)
      ensures this.width == width && this.height == height
      ensures ops == []
    {
      this.width := width;
      this.height := height;
      ops := [];
    }

    method DrawImage(x: real, y: real, w: real, h: real)
      modifies this
      ensures ops == old(ops) + [Image(x, y, w, h)]
    {
      ops := ops + [Image(x, y, w, h)];
    }

    method DrawRectangle(x: real, y: real, w: real, h: real, color: Rgb)
      modifies this
      ensures ops == old(ops) + [Rectangle(x, y, w, h, color)]
    {
      ops := ops + [Rectangle(x, y, w, h, color)];
    }

    method DrawText(amount: real, x: real, y: real, size: real, font: Font, color: Rgb)
      modifies this
      ensures ops == old(ops) + [Text(amount, x, y, size, font, color)]
    {
      ops := ops + [Text(amount, x, y, size, font, color)];
    }
  }

  /**
   * `convertSvgToPdf`: `fit` is the option handed to the rasteriser for the
   * requested `width`; `pngWidth` and `pngHeight` are the size of the raster
   * it produced. The page has the raster's size and receives exactly the
   * drawing calls of `OverlayOps`.
   */
  method ConvertSvgToPdf(width: Option<real>, pngWidth: nat, pngHeight: nat, calculatorData: Option<CalculatorInputs>)
    returns (fit: Option<FitTo>, page: PdfPage)
    ensures fit == RasterOptions(width)
    ensures fresh(page)
    ensures page.width == pngWidth as real && page.height == pngHeight as real
    ensures page.ops == OverlayOps(pngWidth, pngHeight, calculatorData)
  {
    fit := RasterOptions(width);
    var scale := pngWidth as real / OriginalSvgWidth;
    var h := pngHeight as real;
    page := new PdfPage(pngWidth as real, h);
    page.DrawImage(0.0, 0.0, pngWidth as real, h);
    if calculatorData.Some? {
      var roi := CalculateROI(calculatorData.value);
      // Card 1: efficiency gains
      page.DrawRectangle(55.0 * scale, h - (335.0 * scale) - (50.0 * scale), 210.0 * scale, 50.0 * scale, LightBlue);
      page.DrawText(roi.efficiencyGains, 65.0 * scale, h - (370.0 * scale), 28.0 * scale, HelveticaBold, TextColor);
      // Card 2: compliance savings
      page.DrawRectangle(285.0 * scale, h - (335.0 * scale) - (50.0 * scale), 210.0 * scale, 50.0 * scale, LightBlue);
      page.DrawText(roi.complianceAccuracy, 295.0 * scale, h - (370.0 * scale), 28.0 * scale, HelveticaBold, TextColor);
      // Card 3: annual value
      page.DrawRectangle(540.0 * scale, h - (400.0 * scale) - (45.0 * scale), 150.0 * scale, 45.0 * scale, LightBlue);
      page.DrawText(roi.annualValueSave, 560.0 * scale, h - (440.0 * scale), 28.0 * scale, HelveticaBold, TextColor);
      CardOpsListed(scale, h, CardAmounts(roi));
    }
  }

  lemma CardOpAt(scale: real, pageHeight: real, amounts: seq<real>, i: int)
    requires |amounts| == |Cards|
    requires 0 <= i < |Cards|
    ensures CardOps(scale, pageHeight, amounts)[2 * i] == CardRectangle(Cards[i], scale, pageHeight)
    ensures CardOps(scale, pageHeight, amounts)[2 * i + 1] == CardText(Cards[i], amounts[i], scale, pageHeight)
  {
  }

  lemma CardOpsListed(scale: real, pageHeight: real, amounts: seq<real>)
    requires |amounts| == |Cards|
    ensures CardOps(scale, pageHeight, amounts) == [
      Rectangle(55.0 * scale, pageHeight - (335.0 * scale) - (50.0 * scale), 210.0 * scale, 50.0 * scale, LightBlue),
      Text(amounts[0], 65.0 * scale, pageHeight - (370.0 * scale), 28.0 * scale, HelveticaBold, TextColor),
      Rectangle(285.0 * scale, pageHeight - (335.0 * scale) - (50.0 * scale), 210.0 * scale, 50.0 * scale, LightBlue),
      Text(amounts[1], 295.0 * scale, pageHeight - (370.0 * scale), 28.0 * scale, HelveticaBold, TextColor),
      Rectangle(540.0 * scale, pageHeight - (400.0 * scale) - (45.0 * scale), 150.0 * scale, 45.0 * scale, LightBlue),
      Text(amounts[2], 560.0 * scale, pageHeight - (440.0 * scale), 28.0 * scale, HelveticaBold, TextColor)
    ]
  {
    CardOpAt(scale, pageHeight, amounts, 0);
    CardOpAt(scale, pageHeight, amounts, 1);
    CardOpAt(scale, pageHeight, amounts, 2);
  }

  /** Without calculator data only the background is drawn; with it, the background and then a rectangle/text pair per card. */
  lemma OverlayShape(pngWidth: nat, pngHeight: nat, calculatorData: Option<CalculatorInputs>)
    ensures var ops := OverlayOps(pngWidth, pngHeight, calculatorData);
      && |ops| == (if calculatorData.Some? then 7 else 1)
      && ops[0] == Image(0.0, 0.0, pngWidth as real, pngHeight as real)
      && (forall k :: 1 <= k < |ops| && k % 2 == 1 ==> ops[k].Rectangle?)
      && (forall k :: 1 <= k < |ops| && k % 2 == 0 ==> ops[k].Text?)
  {
  }

  /** Leaving out the calculator data removes the cards and changes nothing else. */
  lemma BackgroundUnaffectedByData(pngWidth: nat, pngHeight: nat, data: CalculatorInputs)
    ensures OverlayOps(pngWidth, pngHeight, None) <= OverlayOps(pngWidth, pngHeight, Some(data))
  {
  }

  /** Card `i`'s rectangle is its template box, scaled by raster width / 776 and flipped: y = height - (top + boxHeight) * scale. */
  lemma CardRectangleFlipped(pngWidth: nat, pngHeight: nat, data: CalculatorInputs, i: nat)
    requires i < |Cards|
    ensures var op := OverlayOps(pngWidth, pngHeight, Some(data))[1 + 2 * i];
      var s := pngWidth as real / 776.0;
      && op.Rectangle?
      && op.x == Cards[i].x * s
      && op.y == pngHeight as real - (Cards[i].y + Cards[i].height) * s
      && op.width == Cards[i].width * s
      && op.height == Cards[i].height * s
      && op.color == LightBlue
  {
    CardOpAt(Scale(pngWidth), pngHeight as real, CardAmounts(CalculateROI(data)), i);
  }

  /** Card `i`'s text: baseline at height - textY * scale, x at textX * scale, size 28 * scale. */
  lemma CardTextPlaced(pngWidth: nat, pngHeight: nat, data: CalculatorInputs, i: nat)
    requires i < |Cards|
    ensures var op := OverlayOps(pngWidth, pngHeight, Some(data))[2 + 2 * i];
      var s := pngWidth as real / 776.0;
      && op.Text?
      && op.x == Cards[i].textX * s
      && op.y == pngHeight as real - Cards[i].textY * s
      && op.size == 28.0 * s
      && op.font == HelveticaBold
      && op.color == TextColor
  {
    CardOpAt(Scale(pngWidth), pngHeight as real, CardAmounts(CalculateROI(data)), i);
  }

  /** Cards 1, 2 and 3 show efficiency gains, compliance savings and the annual value. */
  lemma CardAmountsInOrder(pngWidth: nat, pngHeight: nat, data: CalculatorInputs)
    ensures var ops := OverlayOps(pngWidth, pngHeight, Some(data));
      var roi := CalculateROI(data);
      && ops[2].Text? && ops[2].amount == roi.efficiencyGains
      && ops[4].Text? && ops[4].amount == roi.complianceAccuracy
      && ops[6].Text? && ops[6].amount == roi.annualValueSave
  {
    var amounts := CardAmounts(CalculateROI(data));
    CardOpAt(Scale(pngWidth), pngHeight as real, amounts, 0);
    CardOpAt(Scale(pngWidth), pngHeight as real, amounts, 1);
    CardOpAt(Scale(pngWidth), pngHeight as real, amounts, 2);
  }

  /** Each text anchor lies within its card's rectangle, horizontally and vertically. */
  lemma TextInsideCard(pngWidth: nat, pngHeight: nat, data: CalculatorInputs, i: nat)
    requires i < |Cards|
    ensures var ops := OverlayOps(pngWidth, pngHeight, Some(data));
      var rect, text := ops[1 + 2 * i], ops[2 + 2 * i];
      && rect.Rectangle? && text.Text?
      && rect.x <= text.x <= rect.x + rect.width
      && rect.y <= text.y <= rect.y + rect.height
  {
    CardRectangleFlipped(pngWidth, pngHeight, data, i);
    CardTextPlaced(pngWidth, pngHeight, data, i);
  }

  /** Two rectangles overlap when they share interior points. */
  predicate Overlap(a: DrawOp, b: DrawOp)
    requires a.Rectangle? && b.Rectangle?
  {
    a.x < b.x + b.width && b.x < a.x + a.width && a.y < b.y + b.height && b.y < a.y + a.height
  }

  /** No two card rectangles overlap on a page of positive width. */
  lemma CardsDisjoint(pngWidth: nat, pngHeight: nat, data: CalculatorInputs, i: nat, j: nat)
    requires pngWidth > 0
    requires i < j < |Cards|
    ensures var ops := OverlayOps(pngWidth, pngHeight, Some(data));
      ops[1 + 2 * i].Rectangle? && ops[1 + 2 * j].Rectangle?
      && !Overlap(ops[1 + 2 * i], ops[1 + 2 * j])
  {
    CardRectangleFlipped(pngWidth, pngHeight, data, i);
    CardRectangleFlipped(pngWidth, pngHeight, data, j);
  }

  /** When the page is at least 445/776 as tall as it is wide, every card lies within the page. */
  lemma CardsWithinPage(pngWidth: nat, pngHeight: nat, data: CalculatorInputs, i: nat)
    requires 445 * pngWidth <= 776 * pngHeight
    requires i < |Cards|
    ensures var op := OverlayOps(pngWidth, pngHeight, Some(data))[1 + 2 * i];
      && op.Rectangle?
      && 0.0 <= op.x && op.x + op.width <= pngWidth as real
      && 0.0 <= op.y && op.y + op.height <= pngHeight as real
  {
    CardRectangleFlipped(pngWidth, pngHeight, data, i);
    var s := pngWidth as real / 776.0;
    assert 445.0 * s <= pngHeight as real;
  }
}
