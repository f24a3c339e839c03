/**
 * The structured logger of backend/src/utils/logger.ts: four levels with a
 * numeric order, a logger value made of a threshold and base fields, the
 * payload built by shallow merges, routing to the console channel of the
 * level, child loggers, and the safe serialisation of failures.
 *
 * Each console write is one structured record appended to a `Console`
 * sink; the JSON text of the line is not modelled.
 */
module Logging {
  import opened JsValues

  datatype LogLevel = Debug | Info | Warn | Error

  /** `levelOrder`: a positive multiple of ten, at most forty. */
  function Order(level: LogLevel): (r: nat)
    ensures 10 <= r <= 40 && r % 10 == 0
  {
    match level
    case Debug => 10
    case Info => 20
    case Warn => 30
    case Error => 40
  }

  /** The level as it appears in the `level` key of a record. */
  function LevelName(level: LogLevel): string {
    match level
    case Debug => "debug"
    case Info => "info"
    case Warn => "warn"
    case Error => "error"
  }

  /** The order is strictly increasing from debug to error. */
  lemma OrderStrictlyIncreasing()
    ensures Order(Debug) < Order(Info) < Order(Warn) < Order(Error)
    ensures forall a: LogLevel, b: LogLevel :: a != b ==> Order(a) != Order(b)
  {
  }

  /** A call at `level` passes a logger whose threshold is `threshold`. */
  predicate Enabled(threshold: LogLevel, level: LogLevel) {
    Order(level) >= Order(threshold)
  }

  /** The console methods a line can go to. */
  datatype Channel = ConsoleDebug | ConsoleInfo | ConsoleWarn | ConsoleError

  /** The name of the console method behind a channel. */
  function ChannelName(ch: Channel): string {
    match ch
    case ConsoleDebug => "debug"
    case ConsoleInfo => "info"
    case ConsoleWarn => "warn"
    case ConsoleError => "error"
  }

  /** The routing of `logToConsole`: a level goes to the console method of the same name. */
  function ChannelFor(level: LogLevel): (ch: Channel)
    ensures ChannelName(ch) == LevelName(level)
  {
    match level
    case Debug => ConsoleDebug
    case Info => ConsoleInfo
    case Warn => ConsoleWarn
    case Error => ConsoleError
  }

  /** Distinct levels go to distinct channels. */
  lemma ChannelForInjective(a: LogLevel, b: LogLevel)
    ensures ChannelFor(a) == ChannelFor(b) <==> a == b
  {
  }

  datatype LogLine = LogLine(channel: Channel, payload: Fields)

  /**
   * A logger value: its threshold and its base fields. The four per-level
   * emitters of the source are `Log` with a fixed level.
   */
  datatype Logger = Logger(level: LogLevel, fields: Fields) {

    /**
     * A logger with the same threshold whose base fields are these fields
     * merged with `more`, `more` winning on a shared key; the receiver, a
     * value, is left as it was.
     */
    function Child(more: Fields): (c: Logger)
      ensures c.level == level
      ensures c.fields.Keys == fields.Keys + more.Keys
      ensures forall k :: k in more ==> c.fields[k] == more[k]
      ensures forall k :: k in fields && k !in more ==> c.fields[k] == fields[k]
    {
      CreateLogger(Some(level), Some(fields + more))
    }
  }

  /** `createLogger`: threshold `info` and no base fields unless given. */
  function CreateLogger(level: Option<LogLevel>, fields: Option<Fields>): (lg: Logger)
    ensures level.Some? ==> lg.level == level.value
    ensures level.None? ==> lg.level == Info
    ensures fields.Some? ==> lg.fields == fields.value
    ensures fields.None? ==> lg.fields == map[]
  {
    Logger(level.GetOr(Info), fields.GetOr(map[]))
  }

  /** The default logger filters at `info` and carries no fields. */
  lemma DefaultLogger()
    ensures CreateLogger(None, None) == Logger(Info, map[])
    ensures !Enabled(CreateLogger(None, None).level, Debug)
    ensures forall l: LogLevel :: l != Debug ==> Enabled(CreateLogger(None, None).level, l)
  {
  }

  /** Children of children accumulate fields left to right. */
  lemma ChildOfChild(lg: Logger, a: Fields, b: Fields)
    ensures lg.Child(a).Child(b) == Logger(lg.level, lg.fields + a + b)
  {
  }

  /**
   * Making a child leaves the parent's records as they were: a key that only
   * the child's fields supply never appears in what the parent logs.
   */
  lemma {:induction false} ParentUntouchedByChild(lg: Logger, more: Fields, level: LogLevel, message: string,
                                                  call: Option<Fields>, ts: string, k: string)
    requires k in more && k !in lg.fields && k !in FixedKeys
    requires call.None? || k !in call.value
    ensures k in lg.Child(more).fields
    ensures k !in Payload(level, message, ts, lg.fields, call)
  {
    PayloadLookup(level, message, ts, lg.fields, call, k);
  }

  /** The keys the source writes before the spreads. */
  const FixedKeys: set<string> := {"level", "msg", "ts"}

  /**
   * `{ level, msg: message, ts, ...baseFields, ...(fields ?? {}) }`: the
   * fixed keys first, so base and call fields can replace them.
   */
  function Payload(level: LogLevel, message: string, ts: string, base: Fields, call: Option<Fields>): (p: Fields)
    ensures p.Keys == FixedKeys + base.Keys + call.GetOr(map[]).Keys
    ensures forall k :: k in call.GetOr(map[]) ==> p[k] == call.GetOr(map[])[k]
    ensures forall k :: k in base && k !in call.GetOr(map[]) ==> p[k] == base[k]
  {
    map["level" := Str(LevelName(level)), "msg" := Str(message), "ts" := Str(ts)] + base + call.GetOr(map[])
  }

  /**
   * What a reader of a record finds under `key`, by precedence: the call
   * fields, then the base fields, then the fixed keys.
   */
  function FieldOf(level: LogLevel, message: string, ts: string, base: Fields, call: Option<Fields>, key: string): Option<Value> {
    if call.Some? && key in call.value then Some(call.value[key])
    else if key in base then Some(base[key])
    else if key == "level" then Some(Str(LevelName(level)))
    else if key == "msg" then Some(Str(message))
    else if key == "ts" then Some(Str(ts))
    else None
  }

  /** The payload map agrees with the precedence reading on every key. */
  lemma PayloadLookup(level: LogLevel, message: string, ts: string, base: Fields, call: Option<Fields>, key: string)
    ensures var p := Payload(level, message, ts, base, call);
            var f := FieldOf(level, message, ts, base, call, key);
            (key in p <==> f.Some?) && (key in p ==> p[key] == f.value)
  {
  }

  /**
   * As written, a base or call field named `level` replaces the level of
   * the record: a `warn` call through a logger whose fields carry
   * `level: "debug"` is recorded as "debug" (and still routed to the warn
   * channel).
   */
  lemma FixedKeysOverridable(ts: string)
    ensures var lg := CreateLogger(None, Some(map["level" := Str("debug")]));
            Emitted(lg, Warn, "m", None, ts) ==
              [LogLine(ConsoleWarn, map["level" := Str("debug"), "msg" := Str("m"), "ts" := Str(ts)])]
  {
    var lg := CreateLogger(None, Some(map["level" := Str("debug")]));
    assert Payload(Warn, "m", ts, lg.fields, None) == map["level" := Str("debug"), "msg" := Str("m"), "ts" := Str(ts)];
  }

  /** When no field shadows them, the fixed keys carry level, message and time. */
  lemma FixedKeysWhenNotShadowed(level: LogLevel, message: string, ts: string, base: Fields, call: Option<Fields>)
    requires FixedKeys !! base.Keys
    requires call.None? || FixedKeys !! call.value.Keys
    ensures var p := Payload(level, message, ts, base, call);
            p["level"] == Str(LevelName(level)) && p["msg"] == Str(message) && p["ts"] == Str(ts)
  {
    assert "level" in FixedKeys && "msg" in FixedKeys && "ts" in FixedKeys;
  }

  /**
   * The lines one call of `log` writes: none below the threshold, otherwise
   * exactly one, on the channel of the call's level.
   */
  function Emitted(lg: Logger, level: LogLevel, message: string, call: Option<Fields>, ts: string): (lines: seq<LogLine>)
    ensures |lines| <= 1
    ensures |lines| == 1 <==> Order(level) >= Order(lg.level)
    ensures forall i :: 0 <= i < |lines| ==> lines[i].channel == ChannelFor(level)
  {
    if !Enabled(lg.level, level) then [] else [LogLine(ChannelFor(level), Payload(level, message, ts, lg.fields, call))]
  }

  /** A `debug` call on a logger at `info` writes nothing. */
  lemma DebugSilentAtInfo(fields: Fields, message: string, call: Option<Fields>, ts: string)
    ensures Emitted(Logger(Info, fields), Debug, message, call, ts) == []
  {
  }

  /** An `error` call is written whatever the threshold. */
  lemma ErrorAlwaysEmitted(lg: Logger, message: string, call: Option<Fields>, ts: string)
    ensures |Emitted(lg, Error, message, call, ts)| == 1
  {
  }

  /** Lowering the threshold never silences a call that was written. */
  lemma EmittedMonotone(lg: Logger, lower: LogLevel, level: LogLevel, message: string, call: Option<Fields>, ts: string)
    requires Order(lower) <= Order(lg.level)
    ensures |Emitted(Logger(lower, lg.fields), level, message, call, ts)| >= |Emitted(lg, level, message, call, ts)|
  {
  }

  /** The process's console: every line written so far, oldest first. */
  class Console {
    var lines: seq<LogLine>

    constructor ()
      ensures lines == []
    {
      lines := [];
    }

    /** `logToConsole`: one line, on the console method of the level. */
    method Write(level: LogLevel, payload: Fields)
      modifies this
      ensures lines == old(lines) + [LogLine(ChannelFor(level), payload)]
    {
      match level
      case Debug => lines := lines + [LogLine(ConsoleDebug, payload)];
      case Info => lines := lines + [LogLine(ConsoleInfo, payload)];
      case Warn => lines := lines + [LogLine(ConsoleWarn, payload)];
      case Error => lines := lines + [LogLine(ConsoleError, payload)];
    }
  }

  /**
   * The `log` closure of `createLogger`: drop the call below the threshold,
   * otherwise build the payload (with `ts`, the current time in ISO form)
   * and write it.
   */
  method Log(lg: Logger, out: Console, level: LogLevel, message: string, call: Option<Fields>, ts: string)
    modifies out
    ensures out.lines == old(out.lines) + Emitted(lg, level, message, call, ts)
  {
    if !Enabled(lg.level, level) {
      return;
    }
    var payload := Payload(level, message, ts, lg.fields, call);
    out.Write(level, payload);
  }

  /**
   * `serializeError`: an `Error` becomes `{name, message, stack}`, a value
   * whose `typeof` is 'object' is returned as it is, anything else becomes
   * `{message: String(err)}`, and a conversion that throws gives
   * `{message: 'Unknown error'}`.
   */
  function SerializeError(err: Value): (r: Value)
    ensures IsObjectType(r) && !IsError(r)
  {
    match err
    case Err(name, message, stack) =>
      Obj(map["name" := Str(name), "message" := Str(message), "stack" := OptStr(stack)])
    case HttpErr(name, message, stack, _, _) =>
      Obj(map["name" := Str(name), "message" := Str(message), "stack" := OptStr(stack)])
    case _ =>
      if IsObjectType(err) then err
      else match ToJsString(err)
        case Some(text) => Obj(map["message" := Str(text)])
        case None => Obj(map["message" := Str("Unknown error")])
  }

  /** An `Error`, `HttpError` included, is described by exactly its name, message and stack. */
  lemma SerializeErrorOfError(err: Value)
    requires IsError(err)
    ensures SerializeError(err).Obj?
    ensures SerializeError(err).props.Keys == {"name", "message", "stack"}
    ensures SerializeError(err).props["name"] == Str(err.name)
    ensures SerializeError(err).props["message"] == Str(err.message)
    ensures SerializeError(err).props["stack"] == OptStr(err.stack)
  {
  }

  /** A non-`Error` value that is an object, `null` included, comes back unchanged. */
  lemma SerializeErrorKeepsObjects(err: Value)
    requires IsObjectType(err) && !IsError(err)
    ensures SerializeError(err) == err
  {
  }

  /**
   * Any other value is described by a single `message`: its string form, or
   * the placeholder when that conversion throws.
   */
  lemma SerializeErrorOfPrimitive(err: Value)
    requires !IsObjectType(err)
    ensures SerializeError(err).Obj? && SerializeError(err).props.Keys == {"message"}
    ensures SerializeError(err).props["message"] == Str(ToJsString(err).GetOr("Unknown error"))
  {
  }

  /** Describing a description changes nothing more. */
  lemma {:induction false} SerializeErrorIdempotent(err: Value)
    ensures SerializeError(SerializeError(err)) == SerializeError(err)
  {
    var r := SerializeError(err);
    SerializeErrorKeepsObjects(r);
  }
}
