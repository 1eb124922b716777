/**
 * The HTTP responses the two handlers send: a status code and a JSON body
 * (or none). Headers, including CORS, are not modelled.
 */
module Http {

  /** The JSON bodies the handlers produce. */
  datatype Body =
    | NoBody                                                    // `response.status(..).end()`
    | HealthOk                                                  // `{ status: 'ok' }`
    | ErrorBody(error: string)                                  // `{ error }`
    | ErrorWithMessage(error: string, message: string)          // `{ error, message }`
    | LeadCreated(success: bool, leadId: int, message: string)  // `{ success, leadId, message }`
    | PdfGenerated(success: bool, pdf: seq<int>)                // `{ success, pdf }`; the bytes stand for their base64 text

  datatype Response = Response(status: nat, body: Body)

  const MethodNotAllowed: Response := Response(405, ErrorBody("Method not allowed"))
}
