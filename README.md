# Request-boundary layer of the `routine` backend, in Dafny

This project models the request-boundary layer of a small Hono HTTP backend:

- the structured logger (levels, threshold filter, payload merge, child
  loggers, console routing, `serializeError`);
- the global error handler (`HttpError`, classification into status, code
  and public message, the `request.error` record, the JSON error body);
- the request-id middleware (trimmed `x-request-id` header or a generated
  id, stored in the context, echoed in the response header);
- the request-logger middleware (a logger bound to the request,
  `request.start`, then `request.end` with status and duration in a
  `finally`).

Modules, one per source file plus two supporting ones:

| module | file | models |
|---|---|---|
| `JsValues` | `js_values.dfy` | the JavaScript values that are logged, thrown and returned; `String(v)` |
| `Logging` | `logger.dfy` | `backend/src/utils/logger.ts` |
| `Hono` | `context.dfy` | the request context the middlewares read and write; the rest of the chain as an input |
| `ErrorHandling` | `error_handler.dfy` | `backend/src/middlewares/error-handler.ts` |
| `RequestId` | `request_id.dfy` | `backend/src/middlewares/request-id.ts` |
| `RequestLogging` | `request_logger.dfy` | `backend/src/middlewares/request-logger.ts`, and the two middlewares chained |

The console is a `Console` object whose `lines` sequence grows by one
structured record per write. A logger is a value `Logger(level, fields)`.
A thrown failure is a `Value`: `Err` and `HttpErr` are `Error` instances,
everything else is not. `await next()` is `Context.Next(d)`, where the
input `d: Downstream` says how the rest of the chain ends (returns or throws
a value), which status and headers it leaves on the response, and which
lines it logs. The clock readings, the ISO timestamps and the generated
UUID are parameters.

Two places where the code does something other than what one might expect.
The model follows the code in both:

- The record payload is written as `{level, msg, ts, ...base, ...call}`
  (`backend/src/utils/logger.ts:48`). A base or call field named `level`,
  `msg` or `ts` therefore replaces the fixed value. `FixedKeysOverridable`
  shows a `warn` call recorded with level "debug". `FixedKeysWhenNotShadowed`
  states when the fixed keys are kept.
- The request-id middleware has no `finally`
  (`backend/src/middlewares/request-id.ts:23-25`). When the rest of the
  chain throws, the `x-request-id` response header is not set at this layer.
  `RequestIdMiddleware` and `TaggedAndLogged` state both exits.

## Model

| member | source | states |
|---|---|---|
| `Logging.Order` | backend/src/utils/logger.ts:13-18 | each level's order is one of 10, 20, 30, 40 |
| `Logging.OrderStrictlyIncreasing` | backend/src/utils/logger.ts:13-18 | debug < info < warn < error in the numeric order, and distinct levels have distinct orders |
| `Logging.CreateLogger` | backend/src/utils/logger.ts:38-44 | the threshold is the given level, or `info`; the base fields are the given ones, or empty |
| `Logging.DefaultLogger` | backend/src/utils/logger.ts:42-43 | the default logger is `info` with no fields: it drops `debug` and passes every other level |
| `Logging.Logger.Child` | backend/src/utils/logger.ts:59-61 | a child keeps the threshold; its keys are parent keys plus new keys; a new key takes the new value, any other key keeps the parent's value |
| `Logging.ChildOfChild` | backend/src/utils/logger.ts:59-61 | `child(a).child(b)` has the parent's threshold and fields `base + a + b` |
| `Logging.ParentUntouchedByChild` | backend/src/utils/logger.ts:45-61 | a key that only a child's fields supply is in the child's fields and never in a record the parent writes |
| `Logging.ChannelFor` | backend/src/utils/logger.ts:22-35 | a record goes to the console method named after its level (`debug`, `info`, `warn`, `error`) |
| `Logging.ChannelForInjective` | backend/src/utils/logger.ts:20-35 | the routing sends distinct levels to distinct console channels |
| `Logging.Console.Write` | backend/src/utils/logger.ts:20-35 | one write appends exactly one line, on the channel of its level, and changes nothing else |
| `Logging.Emitted` | backend/src/utils/logger.ts:45-50 | a call writes at most one line; it writes one exactly when the level's order is at least the threshold's; the line is on the channel of the level |
| `Logging.Log` | backend/src/utils/logger.ts:45-50 | the console gains exactly the lines `Emitted` describes |
| `Logging.DebugSilentAtInfo` | backend/src/utils/logger.ts:46 | a `debug` call on an `info` logger writes nothing |
| `Logging.ErrorAlwaysEmitted` | backend/src/utils/logger.ts:46 | an `error` call is written whatever the threshold |
| `Logging.EmittedMonotone` | backend/src/utils/logger.ts:46 | lowering the threshold never silences a call that was written |
| `Logging.Payload` | backend/src/utils/logger.ts:48 | the record's keys are level/msg/ts, the base keys and the call keys; a call field's value is the record's value for that key (call fields win); a base field not in the call gives its value |
| `Logging.PayloadLookup` | backend/src/utils/logger.ts:48 | the payload agrees, key by key, with the precedence reading: call fields, then base fields, then level/msg/ts, otherwise absent |
| `Logging.FixedKeysOverridable` | backend/src/utils/logger.ts:48 | a base field `level: "debug"` makes a `warn` call's record read level "debug" on the warn channel |
| `Logging.FixedKeysWhenNotShadowed` | backend/src/utils/logger.ts:48 | when no field is named level/msg/ts, the record carries the call's level name, message and time |
| `JsValues.ToJsString` | backend/src/utils/logger.ts:75 | `String(v)` can fail only for a non-object value outside the primitives (a function whose `toString` throws) |
| `JsValues.NumberToString` | backend/src/utils/logger.ts:75 | `String(n)` of an integer below 10^21 in magnitude is non-empty and starts with '-' exactly when n is negative |
| `Logging.SerializeError` | backend/src/utils/logger.ts:66-79 | the description is always an object (or null) and never an `Error` instance; it never fails |
| `Logging.SerializeErrorOfError` | backend/src/utils/logger.ts:67-73 | an `Error`, an `HttpError` included, gives exactly `{name, message, stack}` of that error |
| `Logging.SerializeErrorKeepsObjects` | backend/src/utils/logger.ts:75 | a non-`Error` object, `null` included, is returned unchanged |
| `Logging.SerializeErrorOfPrimitive` | backend/src/utils/logger.ts:74-78 | any other value gives exactly `{message}`: `String(err)`, or 'Unknown error' when that throws |
| `Logging.SerializeErrorIdempotent` | backend/src/utils/logger.ts:66-79 | describing a description gives the same description |
| `ErrorHandling.NewHttpError` | backend/src/middlewares/error-handler.ts:5-14 | name 'HttpError', the message, status 400 unless given, the code verbatim (absent unless given) |
| `ErrorHandling.DefaultHttpError` | backend/src/middlewares/error-handler.ts:8-21 | `new HttpError(m)` is answered with 400, 'BAD_REQUEST' and message m |
| `ErrorHandling.Classify` | backend/src/middlewares/error-handler.ts:19-21 | an `HttpError` gives its own status and message and its code, or 'BAD_REQUEST' when it has none; any other failure, `Error` instances and thrown non-errors alike, gives 500, 'INTERNAL_ERROR' and 'Internal Server Error' |
| `ErrorHandling.ClassifyHttpError` | backend/src/middlewares/error-handler.ts:19-27 | an `HttpError` keeps its status unvalidated and its message; the code is its own code, and 'BAD_REQUEST' exactly when it has none or that one |
| `ErrorHandling.InternalIff` | backend/src/middlewares/error-handler.ts:20-21 | the answer is 500 'INTERNAL_ERROR' if and only if the failure is not an `HttpError` or is one with exactly that status and code |
| `ErrorHandling.ErrorBody` | backend/src/middlewares/error-handler.ts:25-31 | a client reading the body finds exactly the classified message, the classified code and the context's request id (absent if unset) |
| `ErrorHandling.InternalMessageHidden` | backend/src/middlewares/error-handler.ts:27 | for a failure that is not an `HttpError`, the body's message is the generic one, whatever the failure's own message |
| `ErrorHandling.ErrorLog` | backend/src/middlewares/error-handler.ts:23 | one line when the context has a logger and none otherwise, always on the error channel |
| `ErrorHandling.ErrorLogShape` | backend/src/middlewares/error-handler.ts:17-23 | with a logger, exactly one line on the error channel carrying the classified status and code and the serialised failure, and, when no field of the logger shadows them, message 'request.error' and level "error"; without one, no line |
| `ErrorHandling.OnError` | backend/src/middlewares/error-handler.ts:16-34 | the response status is the classified status; the answer is that status with the error body and the context's request id; the console gains the `ErrorLog` lines; nothing else in the context changes; the failure is not rethrown |
| `ErrorHandling.ValidationExample` | backend/src/middlewares/error-handler.ts:8-33 | `HttpError('bad input', 422, 'VALIDATION')` is answered with 422 and `{message: 'bad input', code: 'VALIDATION', requestId}` |
| `Hono.Context.RequestHeader` | backend/src/middlewares/request-id.ts:12 | stands in for Hono's `c.req.header` accessor: the value is present exactly when the request has the header, and is its value |
| `Hono.Context.Next` | backend/src/middlewares/request-id.ts:23 | the rest of the chain runs with the context variables as they are (recorded in `seen`); afterwards the response status and headers are the ones downstream left, its lines follow the console's, the context variables are unchanged, and the outcome is downstream's |
| `RequestId.Trim` | backend/src/middlewares/request-id.ts:13 | the trimmed string neither starts nor ends with whitespace and is no longer than the input |
| `RequestId.TrimSpec` | backend/src/middlewares/request-id.ts:13 | the trimmed string is the infix of the input between a blank prefix and a blank suffix |
| `RequestId.TrimOfTrimmed` | backend/src/middlewares/request-id.ts:13 | a string without surrounding whitespace is its own trim |
| `RequestId.TrimIdempotent` | backend/src/middlewares/request-id.ts:13 | trimming twice is trimming once |
| `RequestId.TrimEmptyIffBlank` | backend/src/middlewares/request-id.ts:13 | the trim is empty if and only if the string is all whitespace |
| `RequestId.ResolveRequestId` | backend/src/middlewares/request-id.ts:11-18 | a present, non-blank header gives exactly its trimmed value, which is non-empty and has no surrounding whitespace; an absent or blank header gives the generated id |
| `RequestId.ResolvedNonEmpty` | backend/src/middlewares/request-id.ts:13-17 | if the generator gives a non-empty id, the resolved id is never empty |
| `RequestId.ResolveStable` | backend/src/middlewares/request-id.ts:13 | when the generated id is non-empty and has no surrounding whitespace, sending back a resolved id as the header resolves to the same id |
| `RequestId.GetRequestId` | backend/src/middlewares/request-id.ts:11-18 | the id is the trimmed `x-request-id` request header when the request has one that is not blank, and the generated id otherwise |
| `RequestId.Enter` | backend/src/middlewares/request-id.ts:21-22 | the resolved id is stored as the context's `requestId`; nothing else changes |
| `RequestId.Leave` | backend/src/middlewares/request-id.ts:23-25 | after a return, `x-request-id` is set to the id over any earlier value and other headers stay; after a throw, no header changes |
| `RequestId.RequestIdMiddleware` | backend/src/middlewares/request-id.ts:20-26 | the context holds the resolved id, and the rest of the chain runs with it; on return the response headers are downstream's with `x-request-id` set to that id; on a throw they are downstream's; the outcome passes on unchanged |
| `RequestLogging.BoundLogger` | backend/src/middlewares/request-logger.ts:11-13 | the bound logger is `info` with exactly the fields requestId, path and method |
| `RequestLogging.BoundRecordsCarryRequestId` | backend/src/middlewares/request-logger.ts:11-14 | every record written through a logger bound to id `id` carries `requestId: id`, unless the call overrides it |
| `RequestLogging.RequestLog` | backend/src/middlewares/request-logger.ts:16-24 | with a logger that passes `info`, downstream's lines with one `info`-channel line before and one after; with one that does not, downstream's lines alone |
| `RequestLogging.RequestLogShape` | backend/src/middlewares/request-logger.ts:16-24 | the lines are `request.start` with the request fields, then downstream's lines, then `request.end` with the status downstream left and `duration = end - start` |
| `RequestLogging.DurationNonNegative` | backend/src/middlewares/request-logger.ts:16-21 | the recorded duration is non-negative when the clock does not go back |
| `RequestLogging.RequestLoggerMiddleware` | backend/src/middlewares/request-logger.ts:10-25 | the bound logger is in the context before the rest of the chain runs, and stays there; the console gains `request.start`, downstream's lines and `request.end` on both exits; the outcome passes on unchanged |
| `RequestLogging.TaggedAndLogged` | backend/src/index.ts:17-19 | with the request logger as the request-id middleware's `next`: the rest of the chain runs with the resolved id and the logger bound to it; the context id, the bound logger's id and, on return, the response header all equal the resolved id; on a throw the header is not set; the status is the one downstream left |
| `RequestLogging.HeaderMatchesLogs` | backend/src/middlewares/request-id.ts:21-25 | the resolved id, which `TaggedAndLogged` stores and echoes in the header, is the `requestId` of both the start and the end record |

## Left out

- JSON text: the exact output of `JSON.stringify`, including key order and
  the dropping of keys whose value is `undefined`. A record is a map from key
  to value, and the error body keeps an absent request id as `Undefined`.
- The real `console.*` streams: each write is one record on a channel.
- Clocks: `Date.now()` and `new Date().toISOString()` are parameters. The
  logger's timestamp is passed in even when the call is filtered out, where
  the source does not read the clock.
- `crypto.randomUUID()` is a parameter. The uniqueness and the UUID format of
  generated ids cannot be proved here.
- `async`/`await` and concurrent requests: `next()` is a synchronous call
  with an outcome.
- Hono's dispatcher and the wiring in `backend/src/index.ts`: how a throw
  reaches `onError`, what `c.json` does beyond carrying status and body, and
  CORS. The two middlewares are chained directly in `TaggedAndLogged`.
- Header names, of the request and of the response, are case-sensitive map
  keys in the model. Hono's request lookup and the response's `Headers`
  object are case-insensitive, so a response header `X-Request-Id` set by
  the rest of the chain would be replaced by `headers.set('x-request-id', id)`
  in the source but is kept beside it in the model.
- Logging.CreateLogger: the base fields are a value. In the source the
  logger keeps the caller's `fields` object by reference, exposes it as
  `logger.fields` and spreads it again on every call, so a later mutation of
  that object (by the rest of the chain, say) changes every later record,
  `request.end` included. The model does not capture that aliasing.
- Logging.Console.Write: `JSON.stringify` throws a TypeError on a
  BigInt or a cyclic object; the model writes every payload.
- ErrorHandling.OnError: `c.json` builds a `Response`, which throws a
  RangeError for a status outside 200-599; the model answers with any status.
- The rest of the chain may change the response status and headers and may
  log, but in the model it does not change the context variables.
- Numbers are integers. Fractional numbers, `NaN` and `-0`, and their
  `String()` forms, are not modelled. Nor are integers beyond 2^53, which
  are not exact JavaScript numbers, or the exponent form `String()` gives
  from 10^21 up: `NumberToString` writes every integer in plain decimal.
- `String()` of an object uses the default `Object.prototype.toString`.
  Custom `toString` methods on objects are not modelled, since
  `serializeError` returns objects before converting them. Arrays are not
  modelled either (`String([1, 2])` is "1,2"); an array thrown or logged
  would be an object.
- The contents of `Error.stack` are an opaque optional string.
- An `Error`'s `name` changed after construction, and other own properties
  of errors, are not modelled.
- The `status as StatusCode` cast is not checked at run time, and the model
  does not check it either: any integer is passed through.
- The four per-level emitters `debug`, `info`, `warn` and `error` are `Log`
  with a fixed level. The `level` and `fields` properties of the returned
  logger are the fields of the `Logger` value.
- `backend/src/routes/health.ts`, `backend/src/interfaces/http/graphql/schema.ts`
  and `backend/src/interfaces/http/graphql/server.ts` are not part of this
  model. They hold a constant body with a clock reading and a wrapper over
  the GraphQL server library.
