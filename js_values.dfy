/**
 * The JavaScript values that flow through the request-boundary layer:
 * log fields, thrown failures and JSON response bodies.
 *
 * Numbers are integers only (status codes, millisecond clock readings).
 * `Err` and `HttpErr` are instances of `Error` (the second one also of the
 * `HttpError` subclass); every other constructor is a value that is not an
 * `Error`.
 */
module JsValues {

  datatype Option<+T> = None | Some(value: T) {
    function GetOr(default: T): T {
      match this
      case Some(v) => v
      case None => default
    }
  }

  type Fields = map<string, Value>

  datatype Value =
    | Undefined
    | Null
    | Bool(b: bool)
    | Num(n: int)
    | Str(s: string)
      /** A plain object, by its own enumerable properties. */
    | Obj(props: Fields)
      /** An `Error` instance that is not an `HttpError`. */
    | Err(name: string, message: string, stack: Option<string>)
      /** An instance of the `HttpError` subclass of `Error`. */
    | HttpErr(name: string, message: string, stack: Option<string>, status: int, code: Option<string>)
      /**
       * Any other value whose `typeof` is not 'object' (a function, a symbol,
       * a bigint), known only by what `String(v)` gives for it; `None` when that
       * conversion throws (a function whose `toString` throws).
       */
    | Other(text: Option<string>)

  /** `v instanceof Error` */
  predicate IsError(v: Value) {
    v.Err? || v.HttpErr?
  }

  /** `typeof v === 'object'` (true of `null` as well). */
  predicate IsObjectType(v: Value) {
    v.Null? || v.Obj? || v.Err? || v.HttpErr?
  }

  /** Undefined for an absent optional string, the string otherwise. */
  function OptStr(o: Option<string>): (v: Value)
    ensures o.None? <==> v == Undefined
    ensures o.Some? ==> v == Str(o.value)
  {
    match o
    case None => Undefined
    case Some(s) => Str(s)
  }

  function DigitChar(d: nat): (c: char)
    requires d < 10
    ensures '0' <= c <= '9'
  {
    "0123456789"[d]
  }

  /** Decimal numeral of a natural number, most significant digit first. */
  function NatToDecimal(n: nat): (s: string)
    ensures |s| > 0
    ensures forall i :: 0 <= i < |s| ==> '0' <= s[i] <= '9'
    decreases n
  {
    if n < 10 then [DigitChar(n)] else NatToDecimal(n / 10) + [DigitChar(n % 10)]
  }

  /** `String(n)` for an integral number of magnitude below 10^21. */
  function NumberToString(n: int): (s: string)
    ensures |s| > 0
    ensures n < 0 <==> s[0] == '-'
  {
    if n < 0 then "-" + NatToDecimal(-n) else NatToDecimal(n)
  }

  /**
   * The builtin `Error.prototype.toString`: the name, the message, or both
   * joined by ": " when neither is empty. Only there to make `ToJsString`
   * total; `serializeError` never converts an `Error` to a string.
   */
  function ErrorToString(name: string, message: string): string {
    if name == "" then message
    else if message == "" then name
    else name + ": " + message
  }

  /**
   * `String(v)`; `None` stands for a conversion that throws. Plain objects
   * are converted by the default `Object.prototype.toString`.
   */
  function ToJsString(v: Value): (r: Option<string>)
    ensures !v.Other? ==> r.Some?
  {
    match v
    case Undefined => Some("undefined")
    case Null => Some("null")
    case Bool(b) => Some(if b then "true" else "false")
    case Num(n) => Some(NumberToString(n))
    case Str(s) => Some(s)
    case Obj(_) => Some("[object Object]")
    case Err(name, message, _) => Some(ErrorToString(name, message))
    case HttpErr(name, message, _, _, _) => Some(ErrorToString(name, message))
    case Other(text) => text
  }
}
