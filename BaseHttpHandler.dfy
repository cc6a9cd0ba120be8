/** The response side of BaseHttpHandler: every response the handler sends is
    described by a value (status, Content-Type header, body) instead of being
    written to an HttpExchange. */
module Http {
  import opened Wrappers
  import opened Model

  /** The Content-Type header set on every response. */
  const JsonContentType: string := "application/json; charset=UTF-8"

  /** What `sendJson` serialises: the list of movies or an error envelope. */
  datatype Payload = MovieList(movies: seq<Movie>) | ErrorBody(envelope: ErrorResponse)

  /** `NoBody` is `sendResponseHeaders(status, -1)`: no response body at all. */
  datatype Body = NoBody | Json(payload: Payload)

  datatype Response = Response(status: int, contentType: string, body: Body)

  /** The body is an error envelope whose label matches the status, whose
      `status` field is the HTTP status sent and whose message is `message`. */
  predicate IsErrorEnvelope(r: Response, message: string) {
    && r.body.Json? && r.body.payload.ErrorBody?
    && r.body.payload.envelope == ErrorResponse(Some(ErrorLabel(r.status)), Some(message), r.status)
  }

  /** The label `sendError` puts in the envelope for a status. */
  function ErrorLabel(status: int): string {
    match status
    case 400 => "Bad Request"
    case 404 => "Not Found"
    case 405 => "Method Not Allowed"
    case 500 => "Internal Server Error"
    case _ => "Error"
  }

  /** Four codes have their own label; every other status, 409 among them,
      gets the generic "Error". */
  lemma ErrorLabels(status: int)
    ensures status == 400 <==> ErrorLabel(status) == "Bad Request"
    ensures status == 404 <==> ErrorLabel(status) == "Not Found"
    ensures status == 405 <==> ErrorLabel(status) == "Method Not Allowed"
    ensures status == 500 <==> ErrorLabel(status) == "Internal Server Error"
    ensures ErrorLabel(status) == "Error" <==> status !in {400, 404, 405, 500}
  {
  }

  /** `sendJson`: the given status, the JSON Content-Type and the payload. */
  function SendJson(status: int, payload: Payload): (r: Response)
    ensures r.status == status && r.contentType == JsonContentType
    ensures r.body == Json(payload)
  {
    Response(status, JsonContentType, Json(payload))
  }

  /** `sendNoContent`: status 204, the JSON Content-Type and no body. */
  function SendNoContent(): (r: Response)
    ensures r.status == 204 && r.contentType == JsonContentType && r.body.NoBody?
  {
    Response(204, JsonContentType, NoBody)
  }

  /** `sendError`: the status sent on the wire is the one in the envelope, and
      the caller's message is carried verbatim. */
  function SendError(status: int, message: string): (r: Response)
    ensures r.status == status && r.contentType == JsonContentType
    ensures IsErrorEnvelope(r, message)
  {
    SendJson(status, ErrorBody(ErrorResponse(Some(ErrorLabel(status)), Some(message), status)))
  }

  function SendMethodNotAllowed(): (r: Response)
    ensures r.status == 405 && r.contentType == JsonContentType
    ensures IsErrorEnvelope(r, "Method not allowed")
  {
    SendError(405, "Method not allowed")
  }

  function SendNotFound(message: string): (r: Response)
    ensures r.status == 404 && r.contentType == JsonContentType
    ensures IsErrorEnvelope(r, message)
  {
    SendError(404, message)
  }

  function SendBadRequest(message: string): (r: Response)
    ensures r.status == 400 && r.contentType == JsonContentType
    ensures IsErrorEnvelope(r, message)
  {
    SendError(400, message)
  }

  /** `sendConflict`: 409 is not among the mapped codes, so its label is the
      generic "Error". */
  function SendConflict(message: string): (r: Response)
    ensures r.status == 409 && r.contentType == JsonContentType
    ensures IsErrorEnvelope(r, message)
  {
    SendError(409, message)
  }

  /** The helpers send the status they are named for, with its label; 409 is
      not a mapped code, so `sendConflict` carries the generic "Error". */
  lemma HelperLabels(message: string)
    ensures SendMethodNotAllowed().body.payload.envelope.error == Some("Method Not Allowed")
    ensures SendNotFound(message).body.payload.envelope.error == Some("Not Found")
    ensures SendBadRequest(message).body.payload.envelope.error == Some("Bad Request")
    ensures SendConflict(message).body.payload.envelope.error == Some("Error")
  {
  }
}
