/**
 * The render service: builds the ApiResponse envelope for the current request
 * (service metadata, correlation id, captured log lines, an echo of the
 * request) and renders it as JSON.
 *
 * Inputs from outside the package are parameters: `retrieved` is what the
 * logger's GetMemoryLogs answered, `goVersion` and `buildTime` are
 * runtime.Version() and the formatted time.Now(), and a WrappedError is what
 * errors.Wrap(err, 3) reports together with its stack split into lines.
 */
module Render {
  import opened Wrappers
  import opened Text
  import opened JsonValues
  import opened Http
  import opened ServiceConfigs
  import opened ApiResponses
  import CorrelationId

  /** The answer of GetMemoryLogs(cid, DebugLevel). */
  datatype MemoryLogs = Retrieved(logs: map<string, string>) | RetrievalError(message: string)

  /** An error as errors.Wrap reports it: its text and its stack, one line per entry. */
  datatype WrappedError = WrappedError(message: string, stack: seq<string>)

  const WarningKey := "000"
  const NoCorrelationWarning := "WRN|No correlation ID found - memory logging unavailable"
  const UrlKey := "url"
  const ProductionScope := "PRD"

  /** A log map made of one warning line under "000". */
  function Warning(text: string): (m: map<string, string>)
    ensures WarningKey in m && m[WarningKey] == text && m.Keys == {WarningKey}
  {
    map[WarningKey := text]
  }

  function RetrievalWarning(message: string): string {
    "WRN|error retrieving logs " + message
  }

  function NoLogsWarning(cid: string): string {
    "WRN|No logs found for this request (memory logging may not be properly configured) CorrelationID:" + cid
  }

  /** getVersion: the base version, then "+build.", the Go version, "." and the build time. */
  function GetVersion(config: Option<ServiceConfig>, goVersion: string, buildTime: string): (r: string)
    ensures |r| == |BaseVersion(config)| + 8 + |goVersion| + |buildTime|
    ensures r[..|BaseVersion(config)|] == BaseVersion(config)
    ensures r[|BaseVersion(config)|..|BaseVersion(config)| + 7] == "+build."
    ensures r[|BaseVersion(config)| + 7..] == goVersion + "." + buildTime
  {
    var base := BaseVersion(config);
    var r := base + "+build." + goVersion + "." + buildTime;
    assert r == base + ("+build." + (goVersion + "." + buildTime));
    r
  }

  /**
   * The `log` map: the retrieved lines when the id is not blank, retrieval
   * worked and found some; otherwise a single warning under "000" that says
   * which of the three cases happened. Never empty.
   */
  function LogMap(cid: string, retrieved: MemoryLogs): (r: map<string, string>)
    ensures r != map[]
    ensures IsBlank(cid) ==> r == Warning(NoCorrelationWarning)
    ensures !IsBlank(cid) && retrieved.RetrievalError? ==> r == Warning(RetrievalWarning(retrieved.message))
    ensures !IsBlank(cid) && retrieved.Retrieved? && retrieved.logs != map[] ==> r == retrieved.logs
    ensures !IsBlank(cid) && retrieved.Retrieved? && retrieved.logs == map[] ==> r == Warning(NoLogsWarning(cid))
  {
    if !HasContent(cid) then Warning(NoCorrelationWarning)
    else if retrieved.RetrievalError? then Warning(RetrievalWarning(retrieved.message))
    else if retrieved.logs == map[] then Warning(NoLogsWarning(cid))
    else retrieved.logs
  }

  /** The route parameters as a map; a key given twice keeps its later value. */
  function ParamsMap(params: seq<Param>): map<string, string> {
    if params == [] then map[]
    else ParamsMap(params[..|params| - 1])[params[|params| - 1].key := params[|params| - 1].value]
  }

  /** A key is in ParamsMap exactly when some parameter has it, and it maps to the value of the last such parameter. */
  lemma {:induction false} ParamsMapLastWins(params: seq<Param>)
    ensures forall k :: k in ParamsMap(params) <==> exists i :: 0 <= i < |params| && params[i].key == k
    ensures forall i :: 0 <= i < |params| && (forall j :: i < j < |params| ==> params[j].key != params[i].key)
                        ==> ParamsMap(params)[params[i].key] == params[i].value
  {
    if params != [] {
      var p := params[..|params| - 1];
      var last := params[|params| - 1];
      ParamsMapLastWins(p);
      forall k ensures k in ParamsMap(params) <==> exists i :: 0 <= i < |params| && params[i].key == k {
        if k in ParamsMap(params) && k != last.key {
          assert k in ParamsMap(p);
          var i :| 0 <= i < |p| && p[i].key == k;
          assert params[i] == p[i];
        }
        if exists i :: 0 <= i < |params| && params[i].key == k {
          var i :| 0 <= i < |params| && params[i].key == k;
          if i < |p| {
            assert p[i] == params[i];
          }
        }
      }
      forall i | 0 <= i < |params| && (forall j :: i < j < |params| ==> params[j].key != params[i].key)
        ensures ParamsMap(params)[params[i].key] == params[i].value
      {
        if i < |p| {
          assert p[i] == params[i];
          assert forall j :: i < j < |p| ==> p[j] == params[j];
        }
      }
    }
  }

  /** Every multi-valued entry joined with ",". */
  function JoinedValues(values: map<string, seq<string>>): map<string, string> {
    map k | k in values :: Join(values[k], ",")
  }

  /**
   * The `request` echo: empty in the "PRD" scope; otherwise "url", the route
   * parameters, the form values and the query values, each source overwriting
   * the ones before it.
   */
  function RequestEcho(scope: string, request: Request): (r: map<string, string>)
    ensures scope == ProductionScope ==> r == map[]
    ensures scope != ProductionScope ==>
              r.Keys == {UrlKey} + ParamsMap(request.params).Keys + request.postForm.Keys + request.query.Keys
    ensures scope != ProductionScope ==>
              forall k :: k in request.query ==> r[k] == Join(request.query[k], ",")
    ensures scope != ProductionScope ==>
              forall k :: k in request.postForm && k !in request.query ==> r[k] == Join(request.postForm[k], ",")
    ensures scope != ProductionScope ==>
              forall k :: k in ParamsMap(request.params) && k !in request.postForm && k !in request.query
                          ==> r[k] == ParamsMap(request.params)[k]
    ensures (scope != ProductionScope && UrlKey !in ParamsMap(request.params) && UrlKey !in request.postForm &&
             UrlKey !in request.query) ==> r[UrlKey] == request.fullPath
  {
    if scope == ProductionScope then map[]
    else map[UrlKey := request.fullPath] + ParamsMap(request.params) + JoinedValues(request.postForm)
         + JoinedValues(request.query)
  }

  /** The envelope getApiResponse returns, before a handler fills in result or error. */
  function Envelope(config: Option<ServiceConfig>, cid: string, request: Request, code: int,
                    retrieved: MemoryLogs, goVersion: string, buildTime: string): (r: ApiResponse)
    ensures r.status == code && r.correlationId == cid
    ensures r.version == GetVersion(config, goVersion, buildTime) && r.name == ServiceName(config)
            && r.scope == ServiceScope(config) && r.build == "" && r.support == ""
    ensures r.log == LogMap(cid, retrieved) && r.request == RequestEcho(ServiceScope(config), request)
    ensures r.result == Null && r.error == "" && r.stack == []
    ensures ServiceScope(config) == ProductionScope ==> r.request == map[]
    ensures r.version != "" && r.name != "" && r.scope != "" && r.log != map[]
  {
    ApiResponse(
      version := GetVersion(config, goVersion, buildTime),
      build := "",
      name := ServiceName(config),
      support := "",
      status := code,
      scope := ServiceScope(config),
      correlationId := cid,
      log := LogMap(cid, retrieved),
      result := Null,
      error := "",
      stack := [],
      request := RequestEcho(ServiceScope(config), request))
  }

  /** The error text and stack are attached only for a non-nil error in the "DEV" scope (exactly; "dev" does not count). */
  function WithErrorDetail(r: ApiResponse, err: Option<WrappedError>, scope: string): (r': ApiResponse)
    ensures err.Some? && scope == DefaultScope ==> r' == r.(error := err.value.message, stack := err.value.stack)
    ensures !(err.Some? && scope == DefaultScope) ==> r' == r
  {
    if err.Some? && scope == DefaultScope then r.(error := err.value.message, stack := err.value.stack) else r
  }

  /** respondwithJSON indents exactly when the upper-cased scope is "DEV". */
  predicate Indented(config: Option<ServiceConfig>): (r: bool)
    ensures config.None? || config.value.scope == "" ==> r
    ensures var s := ServiceScope(config);
            r <==> |s| == 3 && s[0] in "dD" && s[1] in "eE" && s[2] in "vV"
  {
    var s := ServiceScope(config);
    var u := ToUpper(s);
    assert u == DefaultScope <==> |u| == 3 && u[0] == 'D' && u[1] == 'E' && u[2] == 'V';
    u == DefaultScope
  }

  /** A lower-case "dev" scope gets indented output but never the stack. */
  lemma LowerCaseDevScope(config: Option<ServiceConfig>, r: ApiResponse, err: Option<WrappedError>)
    requires config.Some? && config.value.scope == "dev"
    ensures Indented(config)
    ensures WithErrorDetail(r, err, ServiceScope(config)) == r
  {
    assert ToUpper("dev") == "DEV";
  }

  /** The joined entries of `values` whose keys are in `done`. */
  function JoinedOn(values: map<string, seq<string>>, done: set<string>): map<string, string> {
    map k | k in values && k in done :: Join(values[k], ",")
  }

  lemma JoinedOnAdd(values: map<string, seq<string>>, done: set<string>, key: string)
    requires key in values
    ensures JoinedOn(values, done + {key}) == JoinedOn(values, done)[key := Join(values[key], ",")]
  {
  }

  /** result := out + every joined entry of `values`, added in any order (Go's map iteration). */
  method OverlayJoined(out: map<string, string>, values: map<string, seq<string>>) returns (r: map<string, string>)
    ensures r == out + JoinedValues(values)
  {
    r := out;
    var rest := values.Keys;
    ghost var done: set<string> := {};
    while rest != {}
      invariant rest <= values.Keys && done == values.Keys - rest
      invariant r == out + JoinedOn(values, done)
      decreases rest
    {
      var key :| key in rest;
      JoinedOnAdd(values, done, key);
      r := r[key := Join(values[key], ",")];
      rest := rest - {key};
      done := done + {key};
    }
    assert JoinedOn(values, done) == JoinedValues(values);
  }

  /** The `logs` map of getApiResponse, filled in step by step. */
  method BuildLogs(cid: string, retrieved: MemoryLogs) returns (logs: map<string, string>)
    ensures logs == LogMap(cid, retrieved)
  {
    logs := map[];
    if HasContent(cid) {
      match retrieved {
        case RetrievalError(message) =>
          logs := Warning(RetrievalWarning(message));
        case Retrieved(found) =>
          logs := found;
      }
    } else {
      logs := Warning(NoCorrelationWarning);
    }
    if logs == map[] {
      logs := Warning(NoLogsWarning(cid));
    }
  }

  /** The `output` map of getApiResponse: "url", then the parameters, the form and the query, one entry at a time. */
  method BuildRequestEcho(scope: string, request: Request) returns (output: map<string, string>)
    ensures output == RequestEcho(scope, request)
  {
    output := map[];
    if scope != ProductionScope {
      output := output[UrlKey := request.fullPath];
      var params := request.params;
      var i := 0;
      while i < |params|
        invariant 0 <= i <= |params|
        invariant output == map[UrlKey := request.fullPath] + ParamsMap(params[..i])
      {
        assert params[..i + 1][..i] == params[..i];
        output := output[params[i].key := params[i].value];
        i := i + 1;
      }
      assert params[..|params|] == params;
      output := OverlayJoined(output, request.postForm);
      output := OverlayJoined(output, request.query);
    }
  }

  /** renderservice: a gin context plus an optional logger and configuration. */
  class RenderService {
    const ctx: Context
    var logger: Option<Logger>
    var config: Option<ServiceConfig>

    /** RenderService(ctx); a nil context (which panics) is excluded by the type. */
    constructor (ctx: Context)
      ensures this.ctx == ctx && logger == None && config == None
    {
      this.ctx := ctx;
      logger := None;
      config := None;
    }

    method WithLogger(logger: Option<Logger>) returns (s: RenderService)
      modifies this`logger
      ensures s == this && this.logger == logger
    {
      this.logger := logger;
      s := this;
    }

    method WithConfig(config: Option<ServiceConfig>) returns (s: RenderService)
      modifies this`config
      ensures s == this && this.config == config
    {
      this.config := config;
      s := this;
    }

    /** getApiResponse: the envelope for this request, with its maps built entry by entry. */
    method GetApiResponse(code: int, retrieved: MemoryLogs, goVersion: string, buildTime: string) returns (r: ApiResponse)
      ensures r == Envelope(config, CorrelationId.GetCorrelationID(ctx), ctx.request, code, retrieved, goVersion, buildTime)
    {
      var cid := CorrelationId.GetCorrelationID(ctx);
      var logs := BuildLogs(cid, retrieved);
      var scope := ServiceScope(config);
      var output := BuildRequestEcho(scope, ctx.request);
      r := ApiResponse(
        version := GetVersion(config, goVersion, buildTime),
        build := "",
        name := ServiceName(config),
        support := "",
        status := code,
        scope := scope,
        correlationId := cid,
        log := logs,
        result := Null,
        error := "",
        stack := [],
        request := output);
    }

    /** respondwithJSON: set Content-Type, then render indented or compact. */
    method RespondWithJson(code: int, payload: Json)
      modifies ctx`respHeader, ctx`rendered
      ensures ctx.respHeader == GinHeader(old(ctx.respHeader), "Content-Type", JsonContentType)
      ensures ctx.rendered == old(ctx.rendered) + [JsonRender(code, payload, Indented(config))]
    {
      ctx.Header("Content-Type", JsonContentType);
      if ToUpper(ServiceScope(config)) == DefaultScope {
        ctx.rendered := ctx.rendered + [JsonRender(code, payload, true)];
        return;
      }
      ctx.rendered := ctx.rendered + [JsonRender(code, payload, false)];
    }

    /** AsResult: the envelope with `payload` as its result. */
    method AsResult(code: int, payload: Json, retrieved: MemoryLogs, goVersion: string, buildTime: string)
      modifies ctx`respHeader, ctx`rendered
      ensures ctx.respHeader == GinHeader(old(ctx.respHeader), "Content-Type", JsonContentType)
      ensures ctx.rendered == old(ctx.rendered) +
                [JsonRender(code, Encode(Envelope(config, old(CorrelationId.GetCorrelationID(ctx)), ctx.request, code,
                                                  retrieved, goVersion, buildTime).(result := payload)),
                            Indented(config))]
    {
      ghost var envelope := Envelope(config, CorrelationId.GetCorrelationID(ctx), ctx.request, code, retrieved,
                                     goVersion, buildTime);
      var output := GetApiResponse(code, retrieved, goVersion, buildTime);
      assert output == envelope;
      output := output.(result := payload);
      RespondWithJson(code, Encode(output));
    }

    /** AsResultWithError: the result, plus the error's text and stack in the "DEV" scope. */
    method AsResultWithError(code: int, payload: Json, err: Option<WrappedError>, retrieved: MemoryLogs,
                             goVersion: string, buildTime: string)
      modifies ctx`respHeader, ctx`rendered
      ensures ctx.respHeader == GinHeader(old(ctx.respHeader), "Content-Type", JsonContentType)
      ensures ctx.rendered == old(ctx.rendered) +
                [JsonRender(code, Encode(WithErrorDetail(
                                    Envelope(config, old(CorrelationId.GetCorrelationID(ctx)), ctx.request, code,
                                             retrieved, goVersion, buildTime).(result := payload),
                                    err, ServiceScope(config))),
                            Indented(config))]
    {
      ghost var envelope := Envelope(config, CorrelationId.GetCorrelationID(ctx), ctx.request, code, retrieved,
                                     goVersion, buildTime);
      var output := GetApiResponse(code, retrieved, goVersion, buildTime);
      assert output == envelope;
      output := output.(result := payload);
      output := WithErrorDetail(output, err, ServiceScope(config));
      RespondWithJson(code, Encode(output));
    }

    /** AsError: no result; the error's text and stack in the "DEV" scope. */
    method AsError(code: int, err: Option<WrappedError>, retrieved: MemoryLogs, goVersion: string, buildTime: string)
      modifies ctx`respHeader, ctx`rendered
      ensures ctx.respHeader == GinHeader(old(ctx.respHeader), "Content-Type", JsonContentType)
      ensures ctx.rendered == old(ctx.rendered) +
                [JsonRender(code, Encode(WithErrorDetail(
                                    Envelope(config, old(CorrelationId.GetCorrelationID(ctx)), ctx.request, code,
                                             retrieved, goVersion, buildTime),
                                    err, ServiceScope(config))),
                            Indented(config))]
    {
      ghost var envelope := Envelope(config, CorrelationId.GetCorrelationID(ctx), ctx.request, code, retrieved,
                                     goVersion, buildTime);
      var output := GetApiResponse(code, retrieved, goVersion, buildTime);
      assert output == envelope;
      output := WithErrorDetail(output, err, ServiceScope(config));
      RespondWithJson(code, Encode(output));
    }

    /**
     * AsModel: the envelope's wire form decoded into the caller's value
     * (`decodeInto` stands for json.Unmarshal into it). When decoding fails
     * nothing is rendered and no header changes.
     */
    method AsModel(code: int, decodeInto: Json -> Option<Json>, retrieved: MemoryLogs, goVersion: string, buildTime: string)
      modifies ctx`respHeader, ctx`rendered
      ensures var wire := Encode(Envelope(config, old(CorrelationId.GetCorrelationID(ctx)), ctx.request, code,
                                          retrieved, goVersion, buildTime));
              && (decodeInto(wire).None? ==> ctx.respHeader == old(ctx.respHeader) && ctx.rendered == old(ctx.rendered))
              && (decodeInto(wire).Some? ==>
                    ctx.respHeader == GinHeader(old(ctx.respHeader), "Content-Type", JsonContentType)
                    && ctx.rendered == old(ctx.rendered) + [JsonRender(code, decodeInto(wire).value, Indented(config))])
    {
      ghost var envelope := Envelope(config, CorrelationId.GetCorrelationID(ctx), ctx.request, code, retrieved,
                                     goVersion, buildTime);
      var apiresponse := GetApiResponse(code, retrieved, goVersion, buildTime);
      assert apiresponse == envelope;
      var output := decodeInto(Encode(apiresponse));
      if output.None? {
        return;
      }
      RespondWithJson(code, output.value);
    }
  }
}
