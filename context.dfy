/**
 * The parts of a Hono request context that the middlewares read and write:
 * the request's headers, path and method; the two context variables
 * `requestId` and `logger`; the response's status and headers. The rest of
 * the chain (`await next()`) is an input: what it leaves behind and whether
 * it returned or threw.
 */
module Hono {
  import opened JsValues
  import opened Logging

  /** How a call of the downstream chain ended. */
  datatype Outcome = Returned | Threw(failure: Value)

  /**
   * The rest of the chain, as seen from a middleware: how it ends, the
   * response status and headers it leaves, and the lines it logs.
   */
  datatype Downstream = Downstream(outcome: Outcome, status: int, headers: map<string, string>, logged: seq<LogLine>)

  /** What `c.json(body)` returns, after `c.status(status)`. */
  datatype Response = Response(status: int, body: Value)

  class Context {
    /** Request headers by lower-case name. */
    const reqHeaders: map<string, string>
    const reqPath: string
    const reqMethod: string
    /** `c.get('requestId')` */
    var requestId: Option<string>
    /** `c.get('logger')` */
    var logger: Option<Logger>
    /** `c.res.status` */
    var status: int
    /** `c.res.headers` */
    var resHeaders: map<string, string>
    /**
     * The context variables `requestId` and `logger` as each call of
     * `next()` found them: what the rest of the chain, `onError` included,
     * reads with `c.get`.
     */
    ghost var seen: seq<(Option<string>, Option<Logger>)>

    constructor (headers: map<string, string>, path: string, httpMethod: string)
      ensures reqHeaders == headers && reqPath == path && reqMethod == httpMethod
      ensures requestId == None && logger == None
      ensures status == 200 && resHeaders == map[]
      ensures seen == []
    {
      reqHeaders, reqPath, reqMethod := headers, path, httpMethod;
      requestId, logger := None, None;
      status, resHeaders := 200, map[];
      seen := [];
    }

    /** `c.req.header(name)` for a lower-case name. */
    function RequestHeader(name: string): (h: Option<string>)
      ensures h.Some? <==> name in reqHeaders
      ensures h.Some? ==> h.value == reqHeaders[name]
    {
      if name in reqHeaders then Some(reqHeaders[name]) else None
    }

    /**
     * `await next()`: the downstream chain runs with the context variables
     * as they are, leaves its status, headers and log lines, and ends as it
     * ends; the context variables stay.
     */
    method Next(d: Downstream, out: Console) returns (o: Outcome)
      modifies this, out
      ensures status == d.status && resHeaders == d.headers
      ensures requestId == old(requestId) && logger == old(logger)
      ensures seen == old(seen) + [(old(requestId), old(logger))]
      ensures out.lines == old(out.lines) + d.logged
      ensures o == d.outcome
    {
      seen := seen + [(requestId, logger)];
      status, resHeaders := d.status, d.headers;
      out.lines := out.lines + d.logged;
      o := d.outcome;
    }
  }
}
