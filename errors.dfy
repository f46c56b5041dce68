/**
  Error translation (yente/app.py, `api_error_handler`,
  `transport_error_handler` and the generic catch of `request_middleware`).

  The two fault handlers are registered with the framework for the search
  engine's `ApiError` and `TransportError`; they run inside the downstream
  call, so they take precedence over the middleware's catch-all, which only
  sees the faults no handler was registered for.
*/
module Errors {
  import opened Wrappers

  /** A response body: a flat JSON object of strings, or opaque content. */
  datatype Body = JsonObject(fields: map<string, string>) | Content(text: string)

  /** The status code and body a translated fault becomes. */
  datatype Envelope = Envelope(status: int, body: Body)

  /** What downstream handling can raise. */
  datatype Fault =
    | ApiFault(status: int, message: string)   // elasticsearch ApiError
    | TransportFault(message: string)          // elasticsearch TransportError
    | Other(kind: string)                      // any other exception, by its type name

  const InternalServerError: int := 500

  /** The body of a translated search-engine fault: `{"detail": message}`. */
  function DetailBody(message: string): Body {
    JsonObject(map["detail" := message])
  }

  /** The body of an untranslated fault: `{"status": "error"}`. */
  const GenericErrorBody: Body := JsonObject(map["status" := "error"])

  /** Reads the `detail` field back out of a JSON body. */
  function DetailOf(body: Body): Option<string> {
    if body.JsonObject? && "detail" in body.fields then Some(body.fields["detail"]) else None
  }

  /** The handler registered for a search `ApiError`: keeps the fault's own status. */
  function ApiErrorHandler(status: int, message: string): (e: Envelope)
    ensures e.status == status
    ensures DetailOf(e.body) == Some(message) && e.body.fields.Keys == {"detail"}
  {
    Envelope(status, DetailBody(message))
  }

  /** The handler registered for a `TransportError`: always an internal server error. */
  function TransportErrorHandler(message: string): (e: Envelope)
    ensures e.status == InternalServerError
    ensures DetailOf(e.body) == Some(message) && e.body.fields.Keys == {"detail"}
  {
    Envelope(InternalServerError, DetailBody(message))
  }

  /**
    The registered fault handlers, looked up by fault category: a response
    for the two recognised categories, nothing for any other fault.
  */
  function Dispatch(fault: Fault): (r: Option<Envelope>)
    ensures r.Some? <==> !fault.Other?
    ensures r.Some? ==>
      && r.value.status == (if fault.ApiFault? then fault.status else InternalServerError)
      && DetailOf(r.value.body) == MessageOf(fault)
      && r.value.body.fields.Keys == {"detail"}
  {
    match fault
    case ApiFault(status, message) => Some(ApiErrorHandler(status, message))
    case TransportFault(message) => Some(TransportErrorHandler(message))
    case Other(_) => None
  }

  /** The catch-all of the middleware, for faults no handler was registered for. */
  const GenericError: Envelope := Envelope(InternalServerError, GenericErrorBody)

  /** The message a recognised fault carries. */
  function MessageOf(fault: Fault): Option<string> {
    match fault
    case ApiFault(_, message) => Some(message)
    case TransportFault(message) => Some(message)
    case Other(_) => None
  }

  /**
    The only shapes of error response this layer produces: `{"detail": m}`
    or a 500 with `{"status": "error"}`.
  */
  predicate IsErrorEnvelope(e: Envelope) {
    e.body.JsonObject? &&
    ((e.body.fields.Keys == {"detail"}) || (e.status == InternalServerError && e.body == GenericErrorBody))
  }

  /**
    A fault's final status and body: a registered handler's response when
    there is one, the generic 500 otherwise.
  */
  function Translate(fault: Fault): (e: Envelope)
    ensures IsErrorEnvelope(e)
    ensures e.status != InternalServerError ==> fault.ApiFault? && e.status == fault.status
    ensures fault.ApiFault? ==> e.status == fault.status
    ensures DetailOf(e.body) == MessageOf(fault)
    ensures fault.Other? <==> e.body == GenericErrorBody
  {
    Dispatch(fault).GetOr(GenericError)
  }

  /** A registered handler always wins over the generic catch-all. */
  lemma HandlersPrecedeCatchAll(fault: Fault)
    requires Dispatch(fault).Some?
    ensures Translate(fault) == Dispatch(fault).value
    ensures Translate(fault) != GenericError
  {
  }

  /** Examples: a 404 search fault, a refused connection, an unrecognised fault. */
  lemma TranslateExamples()
    ensures Translate(ApiFault(404, "not found")) == Envelope(404, JsonObject(map["detail" := "not found"]))
    ensures Translate(TransportFault("connection refused"))
      == Envelope(500, JsonObject(map["detail" := "connection refused"]))
    ensures Translate(Other("ValueError")) == Envelope(500, JsonObject(map["status" := "error"]))
  {
  }
}
