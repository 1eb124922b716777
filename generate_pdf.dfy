/**
 * The on-demand PDF endpoint: accepts only POST, requires the four
 * calculator fields, renders the report at 1200 px wide and returns the
 * PDF bytes. The renderer's answer (bytes or a thrown error) is a parameter.
 */
module GeneratePdf {
  import opened Js
  import opened Http
  import opened RoiCalculator

  /** The request: its method and the four calculator fields of the JSON body. */
  datatype PdfRequest = PdfRequest(
    httpMethod: string,
    annualLifelineEnrollments: Option<real>,
    averageReviewTimeSeconds: Option<real>,
    annualOrderVolume: Option<real>,
    averageNonComplianceCost: Option<real>)

  /** A call to the converter: the pixel width and the calculator data. */
  datatype ConvertCall = ConvertCall(width: nat, calculatorData: CalculatorInputs)

  /** What the handler did: the converter call it made, if any, and the response it sent. */
  datatype Handled = Handled(call: Option<ConvertCall>, response: Response)

  const RenderWidth: nat := 1200

  /** The calculator data the request carries, by the rule the lead endpoint applies too. */
  function RequestCalculatorData(request: PdfRequest): Option<CalculatorInputs>
  {
    CalculatorDataFrom(request.annualLifelineEnrollments, request.averageReviewTimeSeconds,
      request.annualOrderVolume, request.averageNonComplianceCost)
  }

  /**
   * `handler`: `reply` is what the converter answers when it is called. The
   * converter is called exactly for a POST with all four fields, with those
   * fields unchanged; its bytes become a 200 reply and its error a 500.
   */
  function HandleGeneratePdf(request: PdfRequest, reply: Outcome<seq<int>>): (h: Handled)
    ensures request.httpMethod != "POST" ==> h == Handled(None, MethodNotAllowed)
    ensures request.httpMethod == "POST" && RequestCalculatorData(request).None?
      ==> h == Handled(None, Response(400, ErrorBody("Missing required calculator data")))
    ensures h.call.Some? <==> request.httpMethod == "POST" && RequestCalculatorData(request).Some?
    ensures h.call.Some? ==> (h.call.value.width == RenderWidth
      && h.call.value.calculatorData.annualLifelineEnrollments == request.annualLifelineEnrollments.value
      && h.call.value.calculatorData.averageReviewTimeSeconds == request.averageReviewTimeSeconds.value
      && h.call.value.calculatorData.annualOrderVolume == request.annualOrderVolume.value
      && h.call.value.calculatorData.averageNonComplianceCost == request.averageNonComplianceCost.value)
    ensures h.call.Some? && reply.Returned? ==> h.response == Response(200, PdfGenerated(true, reply.value))
    ensures h.call.Some? && reply.Threw?
      ==> h.response == Response(500, ErrorWithMessage("Failed to generate PDF", MessageOrUnknown(reply.error)))
    ensures h.response.status in {200, 400, 405, 500}
  {
    if request.httpMethod != "POST" then
      Handled(None, MethodNotAllowed)
    else if RequestCalculatorData(request).None? then
      Handled(None, Response(400, ErrorBody("Missing required calculator data")))
    else
      var call := ConvertCall(RenderWidth, RequestCalculatorData(request).value);
      match reply
      case Returned(pdfBytes) => Handled(Some(call), Response(200, PdfGenerated(true, pdfBytes)))
      case Threw(error) =>
        Handled(Some(call), Response(500, ErrorWithMessage("Failed to generate PDF", MessageOrUnknown(error))))
  }

  /** A request refused before rendering gets the same response whatever the converter would have answered. */
  lemma RefusalIgnoresConverter(request: PdfRequest, reply1: Outcome<seq<int>>, reply2: Outcome<seq<int>>)
    requires !(request.httpMethod == "POST" && RequestCalculatorData(request).Some?)
    ensures HandleGeneratePdf(request, reply1) == HandleGeneratePdf(request, reply2)
    ensures HandleGeneratePdf(request, reply1).response.status in {400, 405}
  {
  }

  /** A successful reply carries exactly the converter's bytes, and a 200 only ever follows a converter call that returned. */
  lemma SuccessIffRendered(request: PdfRequest, reply: Outcome<seq<int>>)
    ensures HandleGeneratePdf(request, reply).response.status == 200
      <==> request.httpMethod == "POST" && RequestCalculatorData(request).Some? && reply.Returned?
  {
  }
}
