/**
 * The global error handler of backend/src/middlewares/error-handler.ts:
 * the `HttpError` class, the classification of a failure into status, code
 * and public message, the one `request.error` record, and the JSON error
 * body carrying the request id.
 */
module ErrorHandling {
  import opened JsValues
  import opened Logging
  import opened Hono

  /** `new HttpError(message, status?, code?)`: status 400 unless given, no code unless given. */
  function NewHttpError(message: string, status: Option<int>, code: Option<string>, stack: Option<string>): (e: Value)
    ensures e.HttpErr? && IsError(e)
    ensures e.name == "HttpError" && e.message == message && e.stack == stack
    ensures status.Some? ==> e.status == status.value
    ensures status.None? ==> e.status == 400
    ensures e.code == code
  {
    HttpErr("HttpError", message, stack, status.GetOr(400), code)
  }

  /** What the handler answers for a failure. */
  datatype Classification = Classification(status: int, code: string, message: string)

  const InternalMessage: string := "Internal Server Error"

  /**
   * An `HttpError` keeps its status (unchecked), its code or
   * 'BAD_REQUEST', and its message; anything else is a 500
   * 'INTERNAL_ERROR' with the generic message.
   */
  function Classify(err: Value): (cls: Classification)
    ensures err.HttpErr? ==> cls.status == err.status && cls.message == err.message
    ensures err.HttpErr? && err.code.Some? ==> cls.code == err.code.value
    ensures err.HttpErr? && err.code.None? ==> cls.code == "BAD_REQUEST"
    ensures !err.HttpErr? ==> cls == Classification(500, "INTERNAL_ERROR", InternalMessage)
  {
    if err.HttpErr? then Classification(err.status, err.code.GetOr("BAD_REQUEST"), err.message)
    else Classification(500, "INTERNAL_ERROR", InternalMessage)
  }

  /** The classification of an `HttpError`, in both directions of its status and code. */
  lemma ClassifyHttpError(err: Value)
    requires err.HttpErr?
    ensures Classify(err).status == err.status
    ensures Classify(err).message == err.message
    ensures Classify(err).code == "BAD_REQUEST" <==> err.code.None? || err.code == Some("BAD_REQUEST")
    ensures err.code.Some? ==> Classify(err).code == err.code.value
  {
  }

  /** The status is 500 and the code 'INTERNAL_ERROR' exactly for the failures that are not `HttpError`s with another status and code. */
  lemma InternalIff(err: Value)
    ensures Classify(err).code == "INTERNAL_ERROR" && Classify(err).status == 500
            <==> !err.HttpErr? || (err.status == 500 && err.code == Some("INTERNAL_ERROR"))
  {
  }

  /** A bare `new HttpError(m)` is a 400 'BAD_REQUEST' with message m. */
  lemma DefaultHttpError(message: string, stack: Option<string>)
    ensures Classify(NewHttpError(message, None, None, stack)) == Classification(400, "BAD_REQUEST", message)
  {
  }

  /**
   * `{ error: { message, code, requestId } }`: a client reads back exactly
   * the classified message and code and the request id.
   */
  function ErrorBody(cls: Classification, requestId: Option<string>): (body: Value)
    ensures ReadErrorBody(body) == Some((cls.message, cls.code, requestId))
  {
    Obj(map["error" := Obj(map["message" := Str(cls.message), "code" := Str(cls.code), "requestId" := OptStr(requestId)])])
  }

  /** A client's reading of an error body: message, code and request id, if the body has that shape. */
  function ReadErrorBody(body: Value): Option<(string, string, Option<string>)> {
    if body.Obj? && "error" in body.props && body.props["error"].Obj? then
      var e := body.props["error"].props;
      if "message" in e && e["message"].Str? && "code" in e && e["code"].Str? && "requestId" in e then
        match e["requestId"]
        case Undefined => Some((e["message"].s, e["code"].s, None))
        case Str(id) => Some((e["message"].s, e["code"].s, Some(id)))
        case _ => None
      else None
    else None
  }

  /**
   * The body shown to the client never carries an internal failure's own
   * message, only the generic one.
   */
  lemma {:induction false} InternalMessageHidden(err: Value, requestId: Option<string>)
    requires !err.HttpErr?
    ensures ReadErrorBody(ErrorBody(Classify(err), requestId)) == Some((InternalMessage, "INTERNAL_ERROR", requestId))
  {
  }

  /** The fields of the `request.error` record. */
  function ErrorRecordFields(err: Value): Fields {
    var cls := Classify(err);
    map["status" := Num(cls.status), "code" := Str(cls.code), "error" := SerializeError(err)]
  }

  /** The lines `onError` writes: one `request.error` record when the context has a logger. */
  function ErrorLog(logger: Option<Logger>, err: Value, ts: string): (lines: seq<LogLine>)
    ensures |lines| == (if logger.Some? then 1 else 0)
    ensures forall i :: 0 <= i < |lines| ==> lines[i].channel == ConsoleError
  {
    if logger.Some? then Emitted(logger.value, Error, "request.error", Some(ErrorRecordFields(err)), ts) else []
  }

  /**
   * With a logger, exactly one error-level line carrying the classified
   * status and code and the serialised failure, and, unless the logger's
   * own fields shadow them, the message 'request.error' and the level
   * "error"; without a logger, nothing.
   */
  lemma {:induction false} ErrorLogShape(logger: Option<Logger>, err: Value, ts: string)
    ensures logger.None? ==> ErrorLog(logger, err, ts) == []
    ensures logger.Some? ==> |ErrorLog(logger, err, ts)| == 1
    ensures logger.Some? ==>
              var line := ErrorLog(logger, err, ts)[0];
              line.channel == ConsoleError
              && line.payload["status"] == Num(Classify(err).status)
              && line.payload["code"] == Str(Classify(err).code)
              && line.payload["error"] == SerializeError(err)
              && (FixedKeys !! logger.value.fields.Keys ==>
                    line.payload["msg"] == Str("request.error") && line.payload["level"] == Str("error"))
  {
    if logger.Some? {
      ErrorAlwaysEmitted(logger.value, "request.error", Some(ErrorRecordFields(err)), ts);
      var call := ErrorRecordFields(err);
      assert call.Keys == {"status", "code", "error"};
      if FixedKeys !! logger.value.fields.Keys {
        FixedKeysWhenNotShadowed(Error, "request.error", ts, logger.value.fields, Some(call));
      }
    }
  }

  /**
   * `onError`: classify, log once through the context's logger if there is
   * one (with `ts` the current time in ISO form), set the response status,
   * and answer the JSON error body with the context's request id. It does
   * not rethrow the failure.
   */
  method OnError(err: Value, c: Context, out: Console, ts: string) returns (res: Response)
    modifies c, out
    ensures c.status == Classify(err).status
    ensures c.requestId == old(c.requestId) && c.logger == old(c.logger) && c.resHeaders == old(c.resHeaders)
    ensures c.seen == old(c.seen)
    ensures out.lines == old(out.lines) + ErrorLog(old(c.logger), err, ts)
    ensures res == Response(Classify(err).status, ErrorBody(Classify(err), old(c.requestId)))
  {
    var logger := c.logger;
    var requestId := c.requestId;
    var isHttp := err.HttpErr?;
    var status := if isHttp then err.status else 500;
    var code := if isHttp then err.code.GetOr("BAD_REQUEST") else "INTERNAL_ERROR";

    if logger.Some? {
      Log(logger.value, out, Error, "request.error",
          Some(map["status" := Num(status), "code" := Str(code), "error" := SerializeError(err)]), ts);
    }

    var body := Obj(map["error" := Obj(map["message" := Str(if isHttp then err.message else InternalMessage),
                                           "code" := Str(code),
                                           "requestId" := OptStr(requestId)])]);
    c.status := status;
    res := Response(c.status, body);
  }

  /**
   * The example of a thrown `HttpError('bad input', 422, 'VALIDATION')`:
   * status 422 and the body `{error: {message: 'bad input', code:
   * 'VALIDATION', requestId}}`.
   */
  lemma ValidationExample(requestId: Option<string>, stack: Option<string>)
    ensures var err := NewHttpError("bad input", Some(422), Some("VALIDATION"), stack);
            Classify(err).status == 422
            && ReadErrorBody(ErrorBody(Classify(err), requestId)) == Some(("bad input", "VALIDATION", requestId))
  {
    var err := NewHttpError("bad input", Some(422), Some("VALIDATION"), stack);
  }
}
