/**
 * The request-logger middleware of backend/src/middlewares/request-logger.ts:
 * bind a logger to the request (`requestId`, then `path` and `method`),
 * store it in the context, log `request.start`, run the rest of the chain,
 * and in a `finally` log `request.end` with the response status and the
 * elapsed milliseconds. The two `Date.now()` readings and the ISO times of
 * the two records are inputs.
 */
module RequestLogging {
  import opened JsValues
  import opened Logging
  import opened Hono
  import opened RequestId

  /**
   * `createLogger({level: 'info', fields: {requestId}}).child({path, method})`;
   * `requestId` is undefined when no earlier middleware set it. The bound
   * logger filters at `info` and carries exactly the three request fields.
   */
  function BoundLogger(requestId: Option<string>, path: string, httpMethod: string): (lg: Logger)
    ensures lg == Logger(Info, map["requestId" := OptStr(requestId), "path" := Str(path), "method" := Str(httpMethod)])
  {
    var lg := CreateLogger(Some(Info), Some(map["requestId" := OptStr(requestId)]))
      .Child(map["path" := Str(path), "method" := Str(httpMethod)]);
    assert lg.fields.Keys == {"requestId", "path", "method"};
    lg
  }

  /**
   * Every record written through a logger bound to request id `id` carries
   * that id, unless the call itself passes a `requestId` field.
   */
  lemma {:induction false} BoundRecordsCarryRequestId(id: string, path: string, httpMethod: string,
                                                      level: LogLevel, message: string, call: Option<Fields>, ts: string)
    requires call.None? || "requestId" !in call.value
    ensures Payload(level, message, ts, BoundLogger(Some(id), path, httpMethod).fields, call)["requestId"] == Str(id)
  {
    PayloadLookup(level, message, ts, BoundLogger(Some(id), path, httpMethod).fields, call, "requestId");
  }

  /** The call fields of `request.end`. */
  function EndFields(status: int, duration: int): Fields {
    map["status" := Num(status), "duration" := Num(duration)]
  }

  /**
   * The lines of one pass through the middleware: `request.start`, what the
   * rest of the chain logged, and `request.end` with the status downstream
   * left and the time it took. A logger that filters out `info` adds
   * nothing to downstream's lines.
   */
  function RequestLog(lg: Logger, d: Downstream, startMs: int, endMs: int, startTs: string, endTs: string): (r: seq<LogLine>)
    ensures Enabled(lg.level, Info) ==>
              && |r| == |d.logged| + 2
              && r[1..|r| - 1] == d.logged
              && r[0].channel == ConsoleInfo && r[|r| - 1].channel == ConsoleInfo
    ensures !Enabled(lg.level, Info) ==> r == d.logged
  {
    Emitted(lg, Info, "request.start", None, startTs)
    + d.logged
    + Emitted(lg, Info, "request.end", Some(EndFields(d.status, endMs - startMs)), endTs)
  }

  /**
   * The bound logger writes both records, whether downstream returned or
   * threw: first `request.start` with the request fields, last
   * `request.end` with the status and `duration = end - start`, and the
   * downstream's own lines in between.
   */
  lemma {:induction false} RequestLogShape(requestId: Option<string>, path: string, httpMethod: string, d: Downstream,
                                           startMs: int, endMs: int, startTs: string, endTs: string)
    ensures var lines := RequestLog(BoundLogger(requestId, path, httpMethod), d, startMs, endMs, startTs, endTs);
            var request := map["requestId" := OptStr(requestId), "path" := Str(path), "method" := Str(httpMethod)];
            && |lines| == |d.logged| + 2
            && lines[0] == LogLine(ConsoleInfo,
                                   map["level" := Str("info"), "msg" := Str("request.start"), "ts" := Str(startTs)] + request)
            && lines[1..|lines| - 1] == d.logged
            && lines[|lines| - 1] == LogLine(ConsoleInfo,
                                   map["level" := Str("info"), "msg" := Str("request.end"), "ts" := Str(endTs)] + request
                                   + EndFields(d.status, endMs - startMs))
  {
    var lines := RequestLog(BoundLogger(requestId, path, httpMethod), d, startMs, endMs, startTs, endTs);
    assert lines[1..|lines| - 1] == d.logged;
  }

  /** The recorded duration is never negative when the clock does not go back. */
  lemma {:induction false} DurationNonNegative(requestId: Option<string>, path: string, httpMethod: string, d: Downstream,
                                               startMs: int, endMs: int, startTs: string, endTs: string)
    requires startMs <= endMs
    ensures var lines := RequestLog(BoundLogger(requestId, path, httpMethod), d, startMs, endMs, startTs, endTs);
            lines[|lines| - 1].payload["duration"].Num? && lines[|lines| - 1].payload["duration"].n >= 0
  {
    RequestLogShape(requestId, path, httpMethod, d, startMs, endMs, startTs, endTs);
  }

  /** Appending three pieces one after the other appends their concatenation. */
  lemma AppendThree<T>(a: seq<T>, x: seq<T>, y: seq<T>, z: seq<T>)
    ensures a + x + y + z == a + (x + y + z)
  {
  }

  /** `RequestLog` spelled with the status and duration the middleware reads. */
  lemma RequestLogOf(lg: Logger, d: Downstream, startMs: int, endMs: int, startTs: string, endTs: string,
                     status: int, duration: int)
    requires status == d.status && duration == endMs - startMs
    ensures RequestLog(lg, d, startMs, endMs, startTs, endTs)
            == Emitted(lg, Info, "request.start", None, startTs) + d.logged
               + Emitted(lg, Info, "request.end", Some(EndFields(status, duration)), endTs)
  {
    var call := Some(EndFields(status, duration));
    assert Some(EndFields(d.status, endMs - startMs)) == call;
    var last := Emitted(lg, Info, "request.end", call, endTs);
    assert RequestLog(lg, d, startMs, endMs, startTs, endTs) == Emitted(lg, Info, "request.start", None, startTs) + d.logged + last;
  }

  /**
   * `requestLoggerMiddleware`: the bound logger is in the context before
   * downstream runs; `request.start` comes before downstream's lines and
   * `request.end` after them on either exit; a failure from downstream
   * passes on unchanged (there is no `catch`).
   */
  method RequestLoggerMiddleware(c: Context, out: Console, d: Downstream,
                                 startMs: int, endMs: int, startTs: string, endTs: string) returns (o: Outcome)
    modifies c, out
    ensures c.logger == Some(BoundLogger(old(c.requestId), c.reqPath, c.reqMethod))
    ensures c.requestId == old(c.requestId)
    ensures c.status == d.status && c.resHeaders == d.headers
    ensures c.seen == old(c.seen) + [(old(c.requestId), Some(BoundLogger(old(c.requestId), c.reqPath, c.reqMethod)))]
    ensures out.lines == old(out.lines)
                         + RequestLog(BoundLogger(old(c.requestId), c.reqPath, c.reqMethod), d, startMs, endMs, startTs, endTs)
    ensures o == d.outcome
  {
    var requestId := c.requestId;
    var logger := BoundLogger(requestId, c.reqPath, c.reqMethod);
    c.logger := Some(logger);

    var start := startMs;
    ghost var before := out.lines;
    Log(logger, out, Info, "request.start", None, startTs);
    o := c.Next(d, out);
    // the `finally` block, run whether `o` is a return or a throw
    var duration := endMs - start;
    var status := c.status;
    Log(logger, out, Info, "request.end", Some(EndFields(status, duration)), endTs);
    AppendThree(before, Emitted(logger, Info, "request.start", None, startTs), d.logged,
                Emitted(logger, Info, "request.end", Some(EndFields(status, duration)), endTs));
    RequestLogOf(logger, d, startMs, endMs, startTs, endTs, status, duration);
  }

  /**
   * The request-id middleware with the request logger as its `next`, in the
   * order the application registers them: both records carry the id that the
   * response header receives when the chain returns; the rest of the chain
   * runs with that id and the logger bound to it; when it throws, the
   * records are still written and the header is not set.
   */
  method TaggedAndLogged(c: Context, out: Console, generated: string, d: Downstream,
                         startMs: int, endMs: int, startTs: string, endTs: string) returns (o: Outcome)
    modifies c, out
    ensures var id := GetRequestId(c, generated);
            && c.requestId == Some(id)
            && c.logger == Some(BoundLogger(Some(id), c.reqPath, c.reqMethod))
            && out.lines == old(out.lines)
                            + RequestLog(BoundLogger(Some(id), c.reqPath, c.reqMethod), d, startMs, endMs, startTs, endTs)
            && c.status == d.status
            && c.seen == old(c.seen) + [(Some(id), Some(BoundLogger(Some(id), c.reqPath, c.reqMethod)))]
            && (o.Returned? ==> c.resHeaders == d.headers[RequestIdHeader := id])
            && (o.Returned? ==> RequestIdHeader in c.resHeaders && c.resHeaders[RequestIdHeader] == c.requestId.value)
            && (o.Threw? ==> c.resHeaders == d.headers)
    ensures o == d.outcome
  {
    var id := Enter(c, generated);
    o := RequestLoggerMiddleware(c, out, d, startMs, endMs, startTs, endTs);
    Leave(c, id, o);
  }

  /**
   * Both records of the request carry the resolved id, the one that
   * `TaggedAndLogged` stores and echoes in the response header.
   */
  lemma {:induction false} HeaderMatchesLogs(header: Option<string>, generated: string, path: string, httpMethod: string,
                                             d: Downstream, startMs: int, endMs: int, startTs: string, endTs: string)
    ensures var id := ResolveRequestId(header, generated);
            var lines := RequestLog(BoundLogger(Some(id), path, httpMethod), d, startMs, endMs, startTs, endTs);
            && lines[0].payload["requestId"] == Str(id)
            && lines[|lines| - 1].payload["requestId"] == Str(id)
  {
    var id := ResolveRequestId(header, generated);
    RequestLogShape(Some(id), path, httpMethod, d, startMs, endMs, startTs, endTs);
  }
}
