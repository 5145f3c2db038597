/**
 * The parts of net/http and gin that the middleware touches: header maps with
 * canonical keys, the request data a handler can read, and gin.Context as an
 * object whose key/value bag and response headers are updated in place.
 */
module Http {
  import opened Text
  import opened JsonValues

  /** http.Header: canonical key to the list of values. */
  type Header = map<string, seq<string>>

  /** The bytes textproto accepts in a header field name (an RFC 7230 token). */
  predicate IsTokenChar(c: char) {
    ('a' <= c <= 'z') || ('A' <= c <= 'Z') || ('0' <= c <= '9') || c in "!#$%&'*+-.^_`|~"
  }

  /** Upper-case the first letter and every letter after a '-', lower-case the rest. */
  function Capitalize(s: string, upper: bool): (r: string)
    ensures |r| == |s|
    ensures forall i :: 0 <= i < |s| ==>
              r[i] == if (if i == 0 then upper else s[i - 1] == '-') then UpperChar(s[i]) else LowerChar(s[i])
  {
    if s == [] then []
    else
      var c := if upper then UpperChar(s[0]) else LowerChar(s[0]);
      [c] + Capitalize(s[1..], c == '-')
  }

  /**
   * textproto.CanonicalMIMEHeaderKey: a name made of token characters is
   * capitalised ("x-correlation-id" becomes "X-Correlation-Id"); any other
   * name is used as it is.
   */
  function CanonicalKey(k: string): (r: string)
    ensures |r| == |k|
    ensures (forall i :: 0 <= i < |k| ==> IsTokenChar(k[i])) ==>
              forall i :: 0 <= i < |k| ==>
                r[i] == if i == 0 || k[i - 1] == '-' then UpperChar(k[i]) else LowerChar(k[i])
    ensures !(forall i :: 0 <= i < |k| ==> IsTokenChar(k[i])) ==> r == k
  {
    if forall i :: 0 <= i < |k| ==> IsTokenChar(k[i]) then Capitalize(k, true) else k
  }

  lemma {:induction false} CapitalizeKeepsTokens(s: string, upper: bool)
    requires forall i :: 0 <= i < |s| ==> IsTokenChar(s[i])
    ensures forall i :: 0 <= i < |s| ==> IsTokenChar(Capitalize(s, upper)[i])
    ensures Capitalize(Capitalize(s, upper), upper) == Capitalize(s, upper)
  {
    if s != [] {
      var c := if upper then UpperChar(s[0]) else LowerChar(s[0]);
      assert (if upper then UpperChar(c) else LowerChar(c)) == c;
      CapitalizeKeepsTokens(s[1..], c == '-');
      var r := Capitalize(s, upper);
      assert r == [c] + Capitalize(s[1..], c == '-');
      assert r[1..] == Capitalize(s[1..], c == '-');
    }
  }

  /** Canonicalising a canonical key changes nothing. */
  lemma CanonicalKeyIdempotent(k: string)
    ensures CanonicalKey(CanonicalKey(k)) == CanonicalKey(k)
  {
    if forall i :: 0 <= i < |k| ==> IsTokenChar(k[i]) {
      CapitalizeKeepsTokens(k, true);
    }
  }

  /** Header.Get: the first value stored under the canonical form of `k`, or "". */
  function HeaderGet(h: Header, k: string): string {
    var ck := CanonicalKey(k);
    if ck in h && |h[ck]| > 0 then h[ck][0] else ""
  }

  /**
   * gin's Context.Header: an empty value deletes the header, any other value
   * replaces all values under the canonical key.
   */
  function GinHeader(h: Header, k: string, v: string): Header {
    if v == "" then h - {CanonicalKey(k)} else h[CanonicalKey(k) := [v]]
  }

  /** After c.Header(k, v), reading any spelling of k gives v and every other header reads as before. */
  lemma GinHeaderGet(h: Header, k: string, v: string, other: string)
    ensures HeaderGet(GinHeader(h, k, v), k) == v
    ensures CanonicalKey(other) != CanonicalKey(k) ==> HeaderGet(GinHeader(h, k, v), other) == HeaderGet(h, other)
    ensures CanonicalKey(other) == CanonicalKey(k) ==> HeaderGet(GinHeader(h, k, v), other) == v
  {
  }

  /** Two names of different lengths are never the same header. */
  lemma DistinctHeaderNames(a: string, b: string)
    requires |a| != |b|
    ensures CanonicalKey(a) != CanonicalKey(b)
  {
  }

  /** A route parameter (gin.Param). */
  datatype Param = Param(key: string, value: string)

  /** What the handler reads of the incoming request. */
  datatype Request = Request(
    header: Header,
    fullPath: string,
    params: seq<Param>,
    postForm: map<string, seq<string>>,
    query: map<string, seq<string>>)

  /**
   * A logger object as seen through Go interfaces: whether it implements
   * arbor.ILogger, and whether it has a `WithCorrelationId(string) interface{}`
   * method.
   */
  datatype Logger = Logger(id: int, isArborLogger: bool, hasWithCorrelationId: bool)

  /** The media type respondwithJSON sets and the JSON interceptor looks for. */
  const JsonContentType := "application/json"

  /** A value stored in gin's key/value bag (an `interface{}`). */
  datatype Value = StringValue(s: string) | LoggerValue(logger: Logger) | OtherValue(tag: int)

  /** Context.GetString: the string stored under `key`, or "" when absent or not a string. */
  function GetString(keys: map<string, Value>, key: string): (r: string)
    ensures r != "" ==> key in keys && keys[key] == StringValue(r)
    ensures key in keys && keys[key].StringValue? ==> r == keys[key].s
  {
    if key in keys && keys[key].StringValue? then keys[key].s else ""
  }

  /** One call of c.JSON / c.IndentedJSON. */
  datatype JsonRender = JsonRender(code: int, payload: Json, indented: bool)

  /** gin.Context: request data plus the state middlewares and handlers change. */
  class Context {
    var keys: map<string, Value>
    var respHeader: Header
    var status: int
    var rendered: seq<JsonRender>
    const request: Request

    constructor (request: Request)
      ensures this.request == request
      ensures keys == map[] && respHeader == map[] && status == 200 && rendered == []
    {
      this.request := request;
      keys := map[];
      respHeader := map[];
      status := 200;
      rendered := [];
    }

    /** c.Set(key, v). */
    method Set(key: string, v: Value)
      modifies this`keys
      ensures keys == old(keys)[key := v]
    {
      keys := keys[key := v];
    }

    /** c.Header(k, v). */
    method Header(k: string, v: string)
      modifies this`respHeader
      ensures respHeader == GinHeader(old(respHeader), k, v)
    {
      respHeader := GinHeader(respHeader, k, v);
    }
  }
}
