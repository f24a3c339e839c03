/**
 * The request-id middleware of backend/src/middlewares/request-id.ts: take
 * the trimmed `x-request-id` request header when it is not blank, otherwise
 * a freshly generated id (`crypto.randomUUID()`, an input here); store it in
 * the context; after the rest of the chain returns, echo it in the
 * `x-request-id` response header.
 */
module RequestId {
  import opened JsValues
  import opened Logging
  import opened Hono

  const RequestIdHeader: string := "x-request-id"

  /**
   * The characters `String.prototype.trim` removes: ECMAScript WhiteSpace
   * (tab, vertical tab, form feed, no-break space, byte-order mark and the
   * space separators) and LineTerminator.
   */
  predicate IsWhitespace(ch: char) {
    var n := ch as int;
    n == 0x09 || n == 0x0A || n == 0x0B || n == 0x0C || n == 0x0D || n == 0x20
    || n == 0xA0 || n == 0x1680 || (0x2000 <= n <= 0x200A) || n == 0x2028 || n == 0x2029
    || n == 0x202F || n == 0x205F || n == 0x3000 || n == 0xFEFF
  }

  /** All of `s` is whitespace. */
  predicate Blank(s: string) {
    forall i :: 0 <= i < |s| ==> IsWhitespace(s[i])
  }

  /** `s` neither starts nor ends with whitespace. */
  predicate Trimmed(s: string) {
    s == [] || (!IsWhitespace(s[0]) && !IsWhitespace(s[|s| - 1]))
  }

  /**
   * The first index at or after `i` that holds a non-whitespace character,
   * or `|s|` when there is none.
   */
  function SkipForward(s: string, i: nat): (j: nat)
    requires i <= |s|
    ensures i <= j <= |s|
    ensures forall k :: i <= k < j ==> IsWhitespace(s[k])
    ensures j < |s| ==> !IsWhitespace(s[j])
    decreases |s| - i
  {
    if i < |s| && IsWhitespace(s[i]) then SkipForward(s, i + 1) else i
  }

  /**
   * The end of the text in `s[lo..j]` once its trailing whitespace is
   * dropped: everything from it up to `j` is whitespace, and the character
   * just before it is not.
   */
  function SkipBackward(s: string, lo: nat, j: nat): (e: nat)
    requires lo <= j <= |s|
    ensures lo <= e <= j
    ensures forall k :: e <= k < j ==> IsWhitespace(s[k])
    ensures e > lo ==> !IsWhitespace(s[e - 1])
    decreases j
  {
    if j > lo && IsWhitespace(s[j - 1]) then SkipBackward(s, lo, j - 1) else j
  }

  /**
   * `s.trim()`: `s` without its leading and trailing whitespace; the result
   * neither starts nor ends with whitespace.
   */
  function Trim(s: string): (r: string)
    ensures |r| <= |s|
    ensures Trimmed(r)
  {
    var i := SkipForward(s, 0);
    var e := SkipBackward(s, i, |s|);
    assert e > i ==> s[i..e][0] == s[i] && s[i..e][e - i - 1] == s[e - 1];
    s[i..e]
  }

  /**
   * The trimmed string is the part of `s` between a blank prefix and a blank
   * suffix.
   */
  lemma {:induction false} TrimSpec(s: string)
    ensures var i := SkipForward(s, 0);
            var j := SkipBackward(s, i, |s|);
            0 <= i <= j <= |s| && Trim(s) == s[i..j] && Blank(s[..i]) && Blank(s[j..])
  {
    var i := SkipForward(s, 0);
    var j := SkipBackward(s, i, |s|);
    forall k | 0 <= k < i ensures IsWhitespace(s[..i][k]) {
      assert s[..i][k] == s[k];
    }
    forall k | 0 <= k < |s| - j ensures IsWhitespace(s[j..][k]) {
      assert s[j..][k] == s[j + k];
    }
  }

  /** A string that is already trimmed is its own trim. */
  lemma {:induction false} TrimOfTrimmed(s: string)
    requires Trimmed(s)
    ensures Trim(s) == s
  {
    if s != [] {
      assert SkipForward(s, 0) == 0;
      assert SkipBackward(s, 0, |s|) == |s|;
    }
    assert s[0..|s|] == s;
  }

  /** Trimming twice is trimming once. */
  lemma {:induction false} TrimIdempotent(s: string)
    ensures Trim(Trim(s)) == Trim(s)
  {
    TrimOfTrimmed(Trim(s));
  }

  /** Only a blank string trims to the empty string. */
  lemma {:induction false} TrimEmptyIffBlank(s: string)
    ensures Trim(s) == [] <==> Blank(s)
  {
    var i := SkipForward(s, 0);
    var e := SkipBackward(s, i, |s|);
    if Blank(s) {
      assert i == |s|;
    }
    if i < |s| {
      assert Trim(s)[0] == s[i];
    }
  }

  /**
   * `getRequestId` on the header value (absent or present) and the id
   * `crypto.randomUUID()` would give: a present header that is not blank
   * gives exactly its trimmed value, which is non-empty and has no
   * surrounding whitespace; an absent or blank header gives the generated id.
   */
  function ResolveRequestId(header: Option<string>, generated: string): (id: string)
    ensures header.Some? && !Blank(header.value) ==> id == Trim(header.value) && id != [] && Trimmed(id)
    ensures header.None? || Blank(header.value) ==> id == generated
  {
    if header.Some? then
      TrimEmptyIffBlank(header.value);
      if header.value != [] && |Trim(header.value)| > 0 then Trim(header.value) else generated
    else generated
  }

  /** The id is never empty as long as the generator never gives the empty string. */
  lemma {:induction false} ResolvedNonEmpty(header: Option<string>, generated: string)
    requires generated != []
    ensures ResolveRequestId(header, generated) != []
  {
  }

  /**
   * Sending back an id that was resolved from a header (or a generated id
   * without surrounding whitespace) resolves to the same id.
   */
  lemma {:induction false} ResolveStable(header: Option<string>, generated: string, generated2: string)
    requires generated != [] && Trimmed(generated)
    ensures var id := ResolveRequestId(header, generated);
            ResolveRequestId(Some(id), generated2) == id
  {
    var id := ResolveRequestId(header, generated);
    TrimOfTrimmed(id);
  }

  /**
   * `getRequestId(c)`: the trimmed `x-request-id` request header when it is
   * present and not blank, the generated id otherwise.
   */
  function GetRequestId(c: Context, generated: string): (id: string)
    ensures RequestIdHeader in c.reqHeaders && !Blank(c.reqHeaders[RequestIdHeader])
            ==> id == Trim(c.reqHeaders[RequestIdHeader])
    ensures RequestIdHeader !in c.reqHeaders || Blank(c.reqHeaders[RequestIdHeader]) ==> id == generated
  {
    ResolveRequestId(c.RequestHeader(RequestIdHeader), generated)
  }

  /** Lines 21-22 of the middleware: resolve the id and `c.set('requestId', id)`. */
  method Enter(c: Context, generated: string) returns (id: string)
    modifies c
    ensures id == GetRequestId(c, generated)
    ensures c.requestId == Some(id)
    ensures c.logger == old(c.logger) && c.status == old(c.status) && c.resHeaders == old(c.resHeaders)
    ensures c.seen == old(c.seen)
  {
    id := GetRequestId(c, generated);
    c.requestId := Some(id);
  }

  /**
   * Line 25, reached only when `await next()` returned:
   * `c.res.headers.set('x-request-id', id)`, replacing any value downstream
   * set and keeping every other header.
   */
  method Leave(c: Context, id: string, o: Outcome)
    modifies c
    ensures o.Returned? ==> c.resHeaders == old(c.resHeaders)[RequestIdHeader := id]
    ensures o.Threw? ==> c.resHeaders == old(c.resHeaders)
    ensures c.requestId == old(c.requestId) && c.logger == old(c.logger) && c.status == old(c.status)
    ensures c.seen == old(c.seen)
  {
    if o.Returned? {
      c.resHeaders := c.resHeaders[RequestIdHeader := id];
    }
  }

  /**
   * `requestIdMiddleware`: the id is stored before downstream runs, and is
   * the one echoed in the response header when downstream returns; when downstream throws, the failure
   * passes on unchanged and the header is not set, as there is no `finally`.
   */
  method RequestIdMiddleware(c: Context, out: Console, generated: string, d: Downstream) returns (o: Outcome)
    modifies c, out
    ensures c.requestId == Some(GetRequestId(c, generated))
    ensures o == d.outcome
    ensures d.outcome.Returned? ==> c.resHeaders == d.headers[RequestIdHeader := GetRequestId(c, generated)]
    ensures d.outcome.Threw? ==> c.resHeaders == d.headers
    ensures c.status == d.status && c.logger == old(c.logger)
    ensures c.seen == old(c.seen) + [(Some(GetRequestId(c, generated)), old(c.logger))]
    ensures out.lines == old(out.lines) + d.logged
  {
    var id := Enter(c, generated);
    o := c.Next(d, out);
    Leave(c, id, o);
  }
}
