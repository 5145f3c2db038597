/**
 * Correlation-id resolution: the SetCorrelationID middleware, GetCorrelationID
 * and GetCorrelationIDOrGenerate. Ids generated by the uuid package are a
 * parameter (`generated`), which is never empty.
 */
module CorrelationId {
  import opened Http

  /** CORRELATION_ID_KEY: the context key and the legacy header name. */
  const CorrelationIdKey := "correlationid"
  const CorrelationIdHeader := "X-Correlation-ID"
  const Unknown := "unknown"

  /** Reference definition of a priority chain: the first non-empty candidate, else `fallback`. */
  function FirstNonEmpty(candidates: seq<string>, fallback: string): (r: string)
    ensures fallback != "" ==> r != ""
  {
    if candidates == [] then fallback
    else if candidates[0] != "" then candidates[0]
    else FirstNonEmpty(candidates[1..], fallback)
  }

  /** The result is the earliest non-empty candidate, or the fallback when all are empty. */
  lemma {:induction false} FirstNonEmptyIsFirst(candidates: seq<string>, fallback: string)
    ensures (forall i :: 0 <= i < |candidates| ==> candidates[i] == "") ==> FirstNonEmpty(candidates, fallback) == fallback
    ensures forall i :: 0 <= i < |candidates| && candidates[i] != "" && (forall j :: 0 <= j < i ==> candidates[j] == "")
                        ==> FirstNonEmpty(candidates, fallback) == candidates[i]
  {
    if candidates != [] && candidates[0] == "" {
      var rest := candidates[1..];
      FirstNonEmptyIsFirst(rest, fallback);
      forall i | 0 <= i < |candidates| && candidates[i] != "" && (forall j :: 0 <= j < i ==> candidates[j] == "")
        ensures FirstNonEmpty(candidates, fallback) == candidates[i]
      {
        assert rest[i - 1] == candidates[i];
        assert forall j :: 0 <= j < i - 1 ==> rest[j] == candidates[j + 1];
      }
      if forall i :: 0 <= i < |candidates| ==> candidates[i] == "" {
        assert forall i :: 0 <= i < |rest| ==> rest[i] == candidates[i + 1];
      }
    }
  }

  lemma FirstNonEmptyOfTwo(a: string, b: string, fallback: string)
    ensures FirstNonEmpty([a, b], fallback) == if a != "" then a else if b != "" then b else fallback
  {
    assert [b][1..] == [];
    assert FirstNonEmpty([b], fallback) == if b != "" then b else fallback;
    assert [a, b][1..] == [b];
  }

  lemma FirstNonEmptyOfThree(a: string, b: string, c: string, fallback: string)
    ensures FirstNonEmpty([a, b, c], fallback) == if a != "" then a else FirstNonEmpty([b, c], fallback)
  {
    assert [a, b, c][1..] == [b, c];
  }

  /**
   * GetCorrelationID: the context value under "correlationid", else the
   * X-Correlation-ID request header, else the correlationid request header,
   * else "unknown"; a nil context gives "unknown".
   */
  function GetCorrelationID(c: Context?): (r: string)
    reads c
    ensures r != ""
    ensures c == null ==> r == Unknown
    ensures c != null ==> r == FirstNonEmpty([GetString(c.keys, CorrelationIdKey),
                                              HeaderGet(c.request.header, CorrelationIdHeader),
                                              HeaderGet(c.request.header, CorrelationIdKey)], Unknown)
  {
    if c == null then Unknown
    else
      FirstNonEmptyOfThree(GetString(c.keys, CorrelationIdKey), HeaderGet(c.request.header, CorrelationIdHeader),
                           HeaderGet(c.request.header, CorrelationIdKey), Unknown);
      FirstNonEmptyOfTwo(HeaderGet(c.request.header, CorrelationIdHeader), HeaderGet(c.request.header, CorrelationIdKey), Unknown);
      var fromContext := GetString(c.keys, CorrelationIdKey);
      if fromContext != "" then fromContext
      else
        var fromHeader := HeaderGet(c.request.header, CorrelationIdHeader);
        if fromHeader != "" then fromHeader
        else
          var fromLegacyHeader := HeaderGet(c.request.header, CorrelationIdKey);
          if fromLegacyHeader != "" then fromLegacyHeader else Unknown
  }

  /** The id SetCorrelationID settles on: context value, else X-Correlation-ID request header, else a new one. */
  function ChosenId(keys: map<string, Value>, requestHeader: Header, generated: string): string {
    FirstNonEmpty([GetString(keys, CorrelationIdKey), HeaderGet(requestHeader, CorrelationIdHeader)], generated)
  }

  /** The response headers after the id is echoed under both names. */
  function EchoHeaders(h: Header, id: string): Header {
    GinHeader(GinHeader(h, CorrelationIdHeader, id), CorrelationIdKey, id)
  }

  /** The SetCorrelationID handler (before c.Next()). */
  method SetCorrelationID(ctx: Context, generated: string)
    requires generated != ""
    modifies ctx`keys, ctx`respHeader
    ensures ctx.keys == old(ctx.keys)[CorrelationIdKey := StringValue(ChosenId(old(ctx.keys), ctx.request.header, generated))]
    ensures ctx.respHeader == EchoHeaders(old(ctx.respHeader), ChosenId(old(ctx.keys), ctx.request.header, generated))
  {
    FirstNonEmptyOfTwo(GetString(ctx.keys, CorrelationIdKey), HeaderGet(ctx.request.header, CorrelationIdHeader), generated);
    var correlationID := GetString(ctx.keys, CorrelationIdKey);
    if correlationID == "" {
      correlationID := HeaderGet(ctx.request.header, CorrelationIdHeader);
    }
    if correlationID == "" {
      correlationID := generated;
    }
    ctx.Set(CorrelationIdKey, StringValue(correlationID));
    ctx.Header(CorrelationIdHeader, correlationID);
    ctx.Header(CorrelationIdKey, correlationID);
  }

  /**
   * The chosen id is never empty; it is the context value when there is one,
   * otherwise an incoming X-Correlation-ID header is echoed, otherwise the
   * generated id is used. The legacy correlationid request header is never read.
   */
  lemma ChosenIdPriority(keys: map<string, Value>, requestHeader: Header, generated: string, legacy: seq<string>)
    requires generated != ""
    ensures ChosenId(keys, requestHeader, generated) != ""
    ensures GetString(keys, CorrelationIdKey) != "" ==> ChosenId(keys, requestHeader, generated) == GetString(keys, CorrelationIdKey)
    ensures GetString(keys, CorrelationIdKey) == "" && HeaderGet(requestHeader, CorrelationIdHeader) != ""
            ==> ChosenId(keys, requestHeader, generated) == HeaderGet(requestHeader, CorrelationIdHeader)
    ensures GetString(keys, CorrelationIdKey) == "" && HeaderGet(requestHeader, CorrelationIdHeader) == ""
            ==> ChosenId(keys, requestHeader, generated) == generated
    ensures ChosenId(keys, requestHeader[CanonicalKey(CorrelationIdKey) := legacy], generated)
            == ChosenId(keys, requestHeader, generated)
  {
    FirstNonEmptyOfTwo(GetString(keys, CorrelationIdKey), HeaderGet(requestHeader, CorrelationIdHeader), generated);
    DistinctHeaderNames(CorrelationIdKey, CorrelationIdHeader);
  }

  /**
   * After SetCorrelationID the context value and both response headers hold
   * the chosen id, and GetCorrelationID reads that id back.
   */
  lemma SetCorrelationIdPublishes(keys: map<string, Value>, requestHeader: Header, respHeader: Header, generated: string)
    requires generated != ""
    ensures var id := ChosenId(keys, requestHeader, generated);
            var keys' := keys[CorrelationIdKey := StringValue(id)];
            var resp' := EchoHeaders(respHeader, id);
            && GetString(keys', CorrelationIdKey) == id
            && HeaderGet(resp', CorrelationIdHeader) == id
            && HeaderGet(resp', CorrelationIdKey) == id
            && FirstNonEmpty([GetString(keys', CorrelationIdKey),
                              HeaderGet(requestHeader, CorrelationIdHeader),
                              HeaderGet(requestHeader, CorrelationIdKey)], Unknown) == id
  {
    var id := ChosenId(keys, requestHeader, generated);
    DistinctHeaderNames(CorrelationIdKey, CorrelationIdHeader);
    GinHeaderGet(GinHeader(respHeader, CorrelationIdHeader, id), CorrelationIdKey, id, CorrelationIdHeader);
  }

  /** Running SetCorrelationID a second time, with any generated id, changes nothing. */
  lemma SetCorrelationIdIdempotent(keys: map<string, Value>, requestHeader: Header, respHeader: Header,
                                   generated: string, generatedAgain: string)
    requires generated != ""
    ensures var id := ChosenId(keys, requestHeader, generated);
            var keys' := keys[CorrelationIdKey := StringValue(id)];
            var resp' := EchoHeaders(respHeader, id);
            var id' := ChosenId(keys', requestHeader, generatedAgain);
            id' == id && keys'[CorrelationIdKey := StringValue(id')] == keys' && EchoHeaders(resp', id') == resp'
  {
    var id := ChosenId(keys, requestHeader, generated);
    var keys' := keys[CorrelationIdKey := StringValue(id)];
    assert GetString(keys', CorrelationIdKey) == id;
    FirstNonEmptyOfTwo(id, HeaderGet(requestHeader, CorrelationIdHeader), generatedAgain);
    EchoHeadersIdempotent(respHeader, id);
  }

  /** Echoing the same id twice leaves the headers as the first echo did. */
  lemma EchoHeadersIdempotent(h: Header, id: string)
    requires id != ""
    ensures EchoHeaders(EchoHeaders(h, id), id) == EchoHeaders(h, id)
  {
    var a, b := CanonicalKey(CorrelationIdHeader), CanonicalKey(CorrelationIdKey);
    assert EchoHeaders(h, id) == h[a := [id]][b := [id]];
    assert EchoHeaders(EchoHeaders(h, id), id) == h[a := [id]][b := [id]][a := [id]][b := [id]];
  }

  /**
   * GetCorrelationIDOrGenerate: GetCorrelationID's answer unless it is
   * "unknown"; then the generated id, which is also stored in the context and
   * echoed in both response headers when there is a context.
   */
  method GetCorrelationIDOrGenerate(c: Context?, generated: string) returns (r: string)
    requires generated != ""
    modifies c
    ensures r != ""
    ensures old(GetCorrelationID(c)) != Unknown ==> r == old(GetCorrelationID(c))
    ensures old(GetCorrelationID(c)) == Unknown ==> r == generated
    ensures c != null && old(GetCorrelationID(c)) == Unknown ==>
              c.keys == old(c.keys)[CorrelationIdKey := StringValue(generated)]
              && c.respHeader == EchoHeaders(old(c.respHeader), generated)
    ensures c != null && old(GetCorrelationID(c)) != Unknown ==>
              c.keys == old(c.keys) && c.respHeader == old(c.respHeader)
    ensures c != null ==> c.status == old(c.status) && c.rendered == old(c.rendered)
  {
    r := GetCorrelationID(c);
    if r == Unknown {
      r := generated;
      if c != null {
        c.Set(CorrelationIdKey, StringValue(r));
        c.Header(CorrelationIdHeader, r);
        c.Header(CorrelationIdKey, r);
      }
    }
  }
}
