/** `errorHandler`, the Express error middleware: an `ApiError` is answered
    with its own status and JSON, anything else with a 500. */
module ErrorMiddleware {
  import opened ApiErrors

  /** A thrown value as the handler distinguishes it: an `ApiError`, or any
      other error, of which only `message` is read. */
  datatype Thrown = FromApiError(error: ApiError) | OtherError(message: string)

  datatype HttpResponse = HttpResponse(status: int, body: ErrorBody)

  function ErrorHandler(err: Thrown): (r: HttpResponse)
    ensures err.FromApiError? ==>
      r.status == err.error.statusCode && r.body == err.error.ToJson()
    ensures err.OtherError? ==>
      r == HttpResponse(500, ErrorBody(500, "Internal Server Error", [err.message], false))
    ensures !r.body.success && r.body.statusCode == r.status
  {
    match err
    case FromApiError(e) => HttpResponse(e.statusCode, e.ToJson())
    case OtherError(m) => HttpResponse(500, ErrorBody(500, "Internal Server Error", [m], false))
  }
}
