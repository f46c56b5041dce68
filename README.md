# yente request middleware, modelled in Dafny

This project models the request/response interception layer of the yente
search API (`yente/app.py`). Every request gets an advisory user id, which is
telemetry and not authentication. It comes from the `authorization` header.
Each request also gets a trace id and a client address, which are bound into
the logging context while the request runs. Downstream handling either
answers or raises a fault. The two search-engine fault categories are
translated by registered handlers. Any other fault becomes a generic 500.
The chosen response gets an `x-trace-id` header, and an `x-user-id` header
when there is a user id. One log record is produced, and the context is
cleared.

Files:

- `wrappers.dfy`: module `Wrappers`, the `Option` type that stands for Python's `Optional`.
- `user_id.dfy`: module `UserId`, which models `get_user_id`. The slugifier
  (`normality.slugify`, a foreign library) is a function-valued parameter
  `slugify: string -> Option<string>`. Every claim is made relative to it, and
  nothing is claimed about case, ASCII or separators.
- `errors.dfy`: module `Errors`, which models `api_error_handler`, `transport_error_handler`,
  their registration by fault category, and the middleware's catch-all.
- `middleware.dfy`: module `Middleware`, which models `request_middleware`.
  It is a method over a `Response` class whose header map is updated in place,
  and a `Context` class whose fields are bound and then cleared.

Design assumptions:

- The framework runs the handlers registered for `ApiError` and
  `TransportError` inside the downstream call. So those two faults come
  back from the downstream call as ordinary responses. Only other faults
  reach the middleware's `except` branch. `Errors.Dispatch` is that lookup,
  and `Errors.Translate` puts the generic 500 after it.
- A response the framework itself builds from an exception raised on
  purpose by a business handler (for example an HTTP 404) reaches the
  middleware as a normal response. It is an `Ok` outcome here.
- The trace id (`uuid4().hex`) and both clock readings (`time.time()`) are
  parameters of `Middleware.HandleRequest`.

## Model

| member | source | states |
|---|---|---|
| `UserId.FirstSpace` | yente/app.py:26-27 | there is a result exactly when the header contains a space, and the result is a position holding a space with no space before it |
| `UserId.SchemeRemainder` | yente/app.py:26-27 | without a space the whole header is kept; with one, the result is exactly what follows the first space |
| `UserId.RemainderAfterScheme` | yente/app.py:26-27 | the converse: for a space-free prefix, a space and any rest (later spaces included), the remainder is that rest |
| `UserId.BearerExample` | yente/app.py:26-28 | `Bearer John Doe!!` hands `John Doe!!` to the slugifier |
| `UserId.Truncate` | yente/app.py:30 | the result is a prefix of the input, at most n long, the whole input when it fits and exactly n long otherwise |
| `UserId.GetUserId` | yente/app.py:21-31 | `None` when `authorization` is absent; `None` exactly when the slugifier declines the header's remainder; any id is a prefix of the slug: the whole slug when it has at most 40 characters, exactly its first 40 characters otherwise |
| `Errors.ApiErrorHandler` | yente/app.py:70-72 | a search fault keeps its own status code; the body is a JSON object with the single key `detail` carrying the fault's message |
| `Errors.TransportErrorHandler` | yente/app.py:75-77 | a transport fault is always 500; the body has the single key `detail` carrying the message |
| `Errors.Dispatch` | yente/app.py:102-103 | a registered handler answers exactly the two recognised fault categories; its answer keeps a search fault's status (500 for a transport fault) and has the single body key `detail` carrying the fault's message |
| `Errors.Translate` | yente/app.py:46-50 | every fault becomes one of the two error-body shapes; the status is 500 unless the fault is a search fault, which keeps its own; `detail` carries exactly the fault's message; the body is `{"status": "error"}` exactly for unrecognised faults |
| `Errors.HandlersPrecedeCatchAll` | yente/app.py:102-103 | whenever a handler is registered for a fault, its response is the final one and the generic 500 is not used |
| `Errors.TranslateExamples` | yente/app.py:70-77 | examples: a 404 "not found" search fault gives 404 with `{"detail": "not found"}`, a "connection refused" transport fault gives 500 with `{"detail": "connection refused"}`, an unrecognised fault gives 500 with `{"status": "error"}` |
| `Middleware.RequestFields` | yente/app.py:40-45 | the bound context has exactly the keys user id, trace id and client address, with the user id `Null` when there is none |
| `Middleware.FinalHeaders` | yente/app.py:52-54 | the trace header is always set to the trace id; the user header is set to the user id when there is one and otherwise left as it was; no other header changes and no other header is added |
| `Middleware.Response.SetHeader` | yente/app.py:52 | one header is set in place; the status, body and other headers are unchanged |
| `Middleware.Context.Bind` | yente/app.py:41-45 | the given fields are added to the context, replacing earlier values of the same keys |
| `Middleware.Context.Clear` | yente/app.py:66 | the context is empty afterwards |
| `Middleware.HandleRequest` | yente/app.py:34-67 | downstream handling sees the context with the user id, trace id and client address (loopback `127.0.0.1` without a client) bound; afterwards the context is empty; a downstream response is returned with status and body unchanged and only the diagnostic headers added; a fault yields a fresh response with `Translate`'s status and body; the trace header is always the trace id; the user header is the user id whenever there is one, and on a fault path is present exactly then; the log record carries the final status code |

## Left out

- `create_app`: the service metadata, the CORS policy and the router inclusion are framework wiring. Only the registration of the two fault handlers, and their precedence over the catch-all, is modelled (`Errors.Dispatch`).
- `normality.slugify` is not part of this model. It is a parameter, so nothing is proved about the slugs it produces.
- Starlette's `Headers` (case-insensitive names, repeated headers) is not part of this model. Headers are a map keyed by lower-case name, and setting a header replaces its one value.
- A `JSONResponse` also gets a `content-length` header computed from the rendered JSON. The model gives it only `content-type`, because JSON rendering is not modelled.
- `uuid4()` randomness and `time.time()` are inputs. Uniqueness of trace ids, their 32-character hex form, and timing are not verified.
- The `log.exception` and `log.error` calls are log output and are left out. The one `log.info` record is returned as a `LogRecord` value.
- The async scheduling and task-local isolation of the context variables between concurrent requests are not modelled. One request's context is one `Context` object.
- Cancellation and client disconnects are not modelled. `clear_contextvars()` is not in a `finally`, so the model claims an empty context only on the two paths the code has: a normal return and a caught exception.
- The business routers and the search engine's exception classes are not modelled. They appear only as the `Outcome` and `Fault` variants.
