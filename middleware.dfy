/**
  The request middleware (yente/app.py, `request_middleware`): binds the
  request's context, runs downstream handling, turns any untranslated fault
  into a generic 500, adds the diagnostic headers to the chosen response,
  records one log record and clears the context.

  The trace id (`uuid4().hex`) and the two clock readings are parameters;
  downstream handling is given as its outcome.
*/
module Middleware {
  import opened Wrappers
  import opened UserId
  import opened Errors

  const TraceHeader: string := "x-trace-id"
  const UserHeader: string := "x-user-id"
  const LoopbackAddress: string := "127.0.0.1"

  /** The headers a freshly built JSON response starts with. */
  const JsonResponseHeaders: map<string, string> := map["content-type" := "application/json"]

  /** An HTTP response whose headers are updated in place. */
  class Response {
    var status: int
    var body: Body
    var headers: map<string, string>

    constructor (status: int, body: Body, headers: map<string, string>)
      ensures this.status == status && this.body == body && this.headers == headers
    {
      this.status := status;
      this.body := body;
      this.headers := headers;
    }

    /** `response.headers[name] = value`: sets one header, leaves the others. */
    method SetHeader(name: string, value: string)
      modifies this
      ensures headers == old(headers)[name := value]
      ensures status == old(status) && body == old(body)
    {
      headers := headers[name := value];
    }
  }

  /** The result of downstream handling: a response, or a raised fault. */
  datatype Outcome = Ok(response: Response) | Raised(fault: Fault)

  /** A value bound into the logging context; the user id may be `None`. */
  datatype Field = Text(text: string) | Null

  /** The request-scoped logging context (structlog's context variables). */
  class Context {
    var fields: map<string, Field>

    constructor ()
      ensures fields == map[]
    {
      fields := map[];
    }

    /** `bind_contextvars`: adds the given fields, replacing earlier values. */
    method Bind(updates: map<string, Field>)
      modifies this
      ensures fields == old(fields) + updates
    {
      fields := fields + updates;
    }

    /** `clear_contextvars`: removes every bound field. */
    method Clear()
      modifies this
      ensures fields == map[]
    {
      fields := map[];
    }
  }

  datatype Address = Address(host: string, port: int)

  /** What the middleware reads of the request. */
  datatype Request = Request(
    headers: Headers,
    client: Option<Address>,
    httpMethod: string,
    path: string,
    query: string)

  /** The one info record emitted per request. */
  datatype LogRecord = LogRecord(
    event: string,
    action: string,
    httpMethod: string,
    path: string,
    query: string,
    agent: Option<string>,
    referer: Option<string>,
    code: int,
    took: real)

  function Lookup(headers: Headers, name: string): Option<string> {
    if name in headers then Some(headers[name]) else None
  }

  /** The connection's peer host, or the loopback address when there is no client. */
  function ClientIp(request: Request): string {
    match request.client
    case Some(address) => address.host
    case None => LoopbackAddress
  }

  /** The fields bound for the duration of a request. */
  function RequestFields(userId: Option<string>, traceId: string, clientIp: string): (f: map<string, Field>)
    ensures f.Keys == {"user_id", "trace_id", "client_ip"}
    ensures f["trace_id"] == Text(traceId) && f["client_ip"] == Text(clientIp)
    ensures f["user_id"] == if userId.Some? then Text(userId.value) else Null
  {
    map["user_id" := (match userId case Some(u) => Text(u) case None => Null),
        "trace_id" := Text(traceId),
        "client_ip" := Text(clientIp)]
  }

  /**
    The headers of the finalised response: the trace header always, the user
    header exactly when there is a user id, every other header as it was.
  */
  function FinalHeaders(headers: map<string, string>, traceId: string, userId: Option<string>)
    : (r: map<string, string>)
    ensures TraceHeader in r && r[TraceHeader] == traceId
    ensures userId.Some? ==> UserHeader in r && r[UserHeader] == userId.value
    ensures userId.None? ==> (UserHeader in r <==> UserHeader in headers)
    ensures r.Keys == headers.Keys + {TraceHeader} + (if userId.Some? then {UserHeader} else {})
    ensures forall k :: k in headers && k != TraceHeader && (userId.None? || k != UserHeader) ==>
      r[k] == headers[k]
  {
    var traced := headers[TraceHeader := traceId];
    match userId
    case Some(u) => traced[UserHeader := u]
    case None => traced
  }

  /** The objects handling one request may update: the context and a downstream response. */
  function Footprint(ctx: Context, outcome: Outcome): set<object> {
    if outcome.Ok? then {ctx, outcome.response} else {ctx}
  }

  /**
    One request through the middleware. `seen` is the bound context as
    downstream handling observes it.
  */
  method HandleRequest(
    ctx: Context, request: Request, outcome: Outcome, slugify: Slugifier,
    traceId: string, startTime: real, endTime: real)
    returns (response: Response, seen: map<string, Field>, record: LogRecord)
    modifies Footprint(ctx, outcome)
    ensures seen == old(ctx.fields) + RequestFields(GetUserId(request.headers, slugify), traceId, ClientIp(request))
    ensures seen["trace_id"] == Text(traceId)
    ensures request.client.None? ==> seen["client_ip"] == Text(LoopbackAddress)
    ensures ctx.fields == map[]
    ensures outcome.Ok? ==>
      && response == outcome.response
      && response.status == old(outcome.response.status)
      && response.body == old(outcome.response.body)
      && response.headers == FinalHeaders(old(outcome.response.headers), traceId, GetUserId(request.headers, slugify))
    ensures outcome.Raised? ==>
      && fresh(response)
      && response.status == Translate(outcome.fault).status
      && response.body == Translate(outcome.fault).body
      && response.headers == FinalHeaders(JsonResponseHeaders, traceId, GetUserId(request.headers, slugify))
    ensures TraceHeader in response.headers && response.headers[TraceHeader] == traceId
    ensures outcome.Raised? ==>
      (UserHeader in response.headers <==> GetUserId(request.headers, slugify).Some?)
    ensures GetUserId(request.headers, slugify).Some? ==>
      UserHeader in response.headers && response.headers[UserHeader] == GetUserId(request.headers, slugify).value
    ensures record == LogRecord(request.path, "request", request.httpMethod, request.path, request.query,
      Lookup(request.headers, "user-agent"), Lookup(request.headers, "referer"),
      response.status, endTime - startTime)
  {
    var userId := GetUserId(request.headers, slugify);
    var clientIp := ClientIp(request);
    ctx.Bind(RequestFields(userId, traceId, clientIp));
    seen := ctx.fields;

    match outcome {
      case Ok(r) =>
        response := r;
      case Raised(fault) =>
        match Dispatch(fault) {
          case Some(e) =>
            // a registered handler answered inside the downstream call
            response := new Response(e.status, e.body, JsonResponseHeaders);
          case None =>
            // the middleware's own catch-all
            response := new Response(GenericError.status, GenericError.body, JsonResponseHeaders);
        }
    }

    var took := endTime - startTime;
    response.SetHeader(TraceHeader, traceId);
    if userId.Some? {
      response.SetHeader(UserHeader, userId.value);
    }
    record := LogRecord(request.path, "request", request.httpMethod, request.path, request.query,
      Lookup(request.headers, "user-agent"), Lookup(request.headers, "referer"),
      response.status, took);
    ctx.Clear();
  }
}
