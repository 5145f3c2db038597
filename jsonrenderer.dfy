/**
 * The JSON response interceptor installed by JSONMiddleware: a wrapper
 * around the response writer that, on the first JSON write, re-emits an
 * envelope it recognises or wraps any other JSON body in a new ApiResponse,
 * pretty-printed or compact.
 *
 * encoding/json is a pair of parameters: `unmarshal` (json.Unmarshal into an
 * `interface{}`) and `marshal` (json.Marshal, or MarshalIndent with two
 * spaces when its flag is set); either may fail. `fmtOther` is fmt's "%v" of
 * a number, array or object.
 */
module JsonRenderer {
  import opened Wrappers
  import opened Text
  import opened JsonValues
  import opened Http
  import opened ServiceConfigs
  import opened ApiResponses
  import Render
  import CorrelationId

  type Bytes = seq<bv8>

  /** JSONRendererConfig. */
  datatype RendererConfig = RendererConfig(
    serviceConfig: Option<ServiceConfig>,
    defaultLogger: Option<Logger>,
    enablePrettyPrint: bool)

  /** REQUEST_LOGGER, the key a handler stores its logger under. */
  const RequestLoggerKey := "omnis_request_logger"
  /** The key the interceptor reads the correlation id from (not CORRELATION_ID_KEY). */
  const InterceptorCorrelationKey := "correlation-id"

  /** JSONMiddleware(config): a renderer configuration with only the service configuration set. */
  function MiddlewareConfig(config: Option<ServiceConfig>): (r: RendererConfig)
    ensures r.serviceConfig == config && r.defaultLogger.None? && !r.enablePrettyPrint
  {
    RendererConfig(config, None, false)
  }

  /** JSONMiddlewareWithDefaults() is JSONMiddleware(nil). */
  function DefaultsConfig(): (r: RendererConfig)
    ensures r.serviceConfig.None? && r.defaultLogger.None? && !r.enablePrettyPrint
    ensures IsDevelopmentMode(Some(r)) && Pretty(Some(r))
  {
    MiddlewareConfig(None)
  }

  /** isDevelopmentMode: no renderer or service configuration, or a scope of "", "DEV" or "DEVELOPMENT". */
  predicate IsDevelopmentMode(config: Option<RendererConfig>): (r: bool)
    ensures config.None? || config.value.serviceConfig.None? ==> r
    ensures config.Some? && config.value.serviceConfig.Some? ==>
              (r <==> config.value.serviceConfig.value.scope in {"", "DEV", "DEVELOPMENT"})
  {
    if config.None? || config.value.serviceConfig.None? then true
    else
      var scope := config.value.serviceConfig.value.scope;
      scope == "" || scope == "DEV" || scope == "DEVELOPMENT"
  }

  /** Output is indented when there is a configuration that asks for it or is in development mode. */
  predicate Pretty(config: Option<RendererConfig>): (r: bool)
    ensures r ==> config.Some?
    ensures config.Some? && config.value.enablePrettyPrint ==> r
    ensures config.Some? && !config.value.enablePrettyPrint ==> (r <==> IsDevelopmentMode(config))
  {
    config.Some? && (config.value.enablePrettyPrint || IsDevelopmentMode(config))
  }

  /** Pretty-printing, spelled out: a configuration, and either the flag, no service configuration or a development scope. */
  lemma PrettyExactly(config: Option<RendererConfig>)
    ensures Pretty(config) <==>
              config.Some? &&
              (config.value.enablePrettyPrint || config.value.serviceConfig.None? ||
               config.value.serviceConfig.value.scope in {"", "DEV", "DEVELOPMENT"})
  {
  }

  /** A top-level object with "version", "name" and "result" is taken to be an envelope already. */
  predicate IsWrapped(j: Json) {
    HasKey(j, "version") && HasKey(j, "name") && HasKey(j, "result")
  }

  /** An encoded envelope is recognised exactly when its version and name are non-empty. */
  lemma EncodedEnvelopeRecognised(r: ApiResponse)
    ensures IsWrapped(Encode(r)) <==> r.version != "" && r.name != ""
  {
  }

  /** The logger the interceptor finds: an arbor.ILogger under REQUEST_LOGGER, else the configured default. */
  function FindLogger(keys: map<string, Value>, config: Option<RendererConfig>): (r: Option<Logger>)
    ensures RequestLoggerKey in keys && keys[RequestLoggerKey].LoggerValue? && keys[RequestLoggerKey].logger.isArborLogger
            ==> r == Some(keys[RequestLoggerKey].logger)
    ensures !(RequestLoggerKey in keys && keys[RequestLoggerKey].LoggerValue? && keys[RequestLoggerKey].logger.isArborLogger)
            ==> r == if config.Some? then config.value.defaultLogger else None
  {
    if RequestLoggerKey in keys && keys[RequestLoggerKey].LoggerValue? && keys[RequestLoggerKey].logger.isArborLogger
    then Some(keys[RequestLoggerKey].logger)
    else if config.Some? then config.value.defaultLogger
    else None
  }

  /** fmt.Sprintf("%v", v): strings as they are, booleans as words, nil as "<nil>". */
  function ErrorText(v: Json, fmtOther: Json -> string): (r: string)
    ensures v.String? ==> r == v.s
    ensures v.Bool? ==> r == if v.b then "true" else "false"
    ensures v.Null? ==> r == "<nil>"
    ensures v.Num? || v.Array? || v.Object? ==> r == fmtOther(v)
  {
    match v
    case String(s) => s
    case Bool(b) => if b then "true" else "false"
    case Null => "<nil>"
    case _ => fmtOther(v)
  }

  /** The envelope built around a body that is not an envelope yet. */
  function NewEnvelope(config: Option<RendererConfig>, status: int, keys: map<string, Value>, parsed: Json,
                       fmtOther: Json -> string): (r: ApiResponse)
    ensures r.status == status && r.support == ""
    ensures r.log == map[] && r.stack == [] && r.request == map[]
    ensures config.None? || config.value.serviceConfig.None? ==>
              r.version == DefaultVersion && r.build == "" && r.name == "" && r.scope == ""
    ensures config.Some? && config.value.serviceConfig.Some? ==>
              var sc := config.value.serviceConfig.value;
              r.version == sc.version && r.build == sc.build && r.name == sc.name && r.scope == sc.scope
    ensures InterceptorCorrelationKey in keys && keys[InterceptorCorrelationKey].StringValue? ==>
              r.correlationId == keys[InterceptorCorrelationKey].s
    ensures !(InterceptorCorrelationKey in keys && keys[InterceptorCorrelationKey].StringValue?) ==> r.correlationId == ""
    ensures HasKey(parsed, "error") ==> r.error == ErrorText(parsed.fields["error"], fmtOther) && r.result == Null
    ensures !HasKey(parsed, "error") ==> r.error == "" && r.result == parsed
  {
    var base := ApiResponse(DefaultVersion, "", "", "", status, "", "", map[], parsed, "", [], map[]);
    var withConfig :=
      if config.Some? && config.value.serviceConfig.Some? then
        var sc := config.value.serviceConfig.value;
        base.(version := sc.version, build := sc.build, name := sc.name, scope := sc.scope)
      else base;
    var withId :=
      if InterceptorCorrelationKey in keys && keys[InterceptorCorrelationKey].StringValue? then
        withConfig.(correlationId := keys[InterceptorCorrelationKey].s)
      else withConfig;
    if HasKey(parsed, "error") then withId.(error := ErrorText(parsed.fields["error"], fmtOther), result := Null)
    else withId
  }

  /** What one Write hands to the wrapped writer. */
  datatype Decision = PassThrough | Emit(value: Json, pretty: bool)

  /** The decision of Write, given the state it reads. */
  function Intercept(written: bool, contentType: string, logger: Option<Logger>, config: Option<RendererConfig>,
                     status: int, keys: map<string, Value>, parsed: Option<Json>, fmtOther: Json -> string): (d: Decision)
    ensures written || !Contains(contentType, JsonContentType) || logger.None? || parsed.None? ==> d == PassThrough
    ensures !written && Contains(contentType, JsonContentType) && logger.Some? && parsed.Some? ==>
              d.Emit? && d.pretty == Pretty(config)
    ensures d.Emit? && IsWrapped(parsed.value) ==> d.value == parsed.value
    ensures d.Emit? && !IsWrapped(parsed.value) ==> d.value == Encode(NewEnvelope(config, status, keys, parsed.value, fmtOther))
  {
    if written || !Contains(contentType, JsonContentType) || logger.None? || parsed.None? then PassThrough
    else if IsWrapped(parsed.value) then Emit(parsed.value, Pretty(config))
    else Emit(Encode(NewEnvelope(config, status, keys, parsed.value, fmtOther)), Pretty(config))
  }

  /** The bytes that reach the wrapped writer; a marshal failure falls back to the original bytes. */
  function Output(d: Decision, data: Bytes, marshal: (Json, bool) -> Option<Bytes>): (out: Bytes)
    ensures d.PassThrough? ==> out == data
    ensures d.Emit? && marshal(d.value, d.pretty).None? ==> out == data
    ensures d.Emit? && marshal(d.value, d.pretty).Some? ==> out == marshal(d.value, d.pretty).value
  {
    match d
    case PassThrough => data
    case Emit(v, pretty) => marshal(v, pretty).GetOr(data)
  }

  /** The `written` flag after a Write: set by the first write whose Content-Type mentions JSON. */
  function NextWritten(written: bool, contentType: string): bool {
    written || Contains(contentType, JsonContentType)
  }

  /** jsonResponseInterceptor. `sent` is everything written to the wrapped writer so far. */
  class JsonInterceptor {
    const ctx: Context
    const config: Option<RendererConfig>
    var written: bool
    var sent: seq<Bytes>

    /** JSONMiddlewareWithConfig(config) installing the interceptor in place of c.Writer. */
    constructor (ctx: Context, config: Option<RendererConfig>)
      ensures this.ctx == ctx && this.config == config && !written && sent == []
    {
      this.ctx := ctx;
      this.config := config;
      written := false;
      sent := [];
    }

    function ContentType(): string
      reads this, ctx
    {
      HeaderGet(ctx.respHeader, "Content-Type")
    }

    /** Write(data). */
    method Write(data: Bytes, unmarshal: Bytes -> Option<Json>, marshal: (Json, bool) -> Option<Bytes>,
                 fmtOther: Json -> string)
      modifies this`written, this`sent
      ensures written == NextWritten(old(written), ContentType())
      ensures sent == old(sent) + [Output(Intercept(old(written), ContentType(), FindLogger(ctx.keys, config), config,
                                                    ctx.status, ctx.keys, unmarshal(data), fmtOther), data, marshal)]
    {
      if written {
        sent := sent + [data];
        return;
      }
      var contentType := HeaderGet(ctx.respHeader, "Content-Type");
      if !Contains(contentType, JsonContentType) {
        sent := sent + [data];
        return;
      }
      written := true;

      var logger := FindLogger(ctx.keys, config);
      if logger.None? {
        sent := sent + [data];
        return;
      }

      var parsed := unmarshal(data);
      if parsed.None? {
        sent := sent + [data];
        return;
      }
      var jsonData := parsed.value;

      if IsWrapped(jsonData) {
        var output := marshal(jsonData, Pretty(config));
        if output.None? {
          sent := sent + [data];
          return;
        }
        sent := sent + [output.value];
        return;
      }

      var apiResponse := NewEnvelope(config, ctx.status, ctx.keys, jsonData, fmtOther);
      var output := marshal(Encode(apiResponse), Pretty(config));
      if output.None? {
        sent := sent + [data];
        return;
      }
      sent := sent + [output.value];
    }
  }

  /** Once a JSON write has happened, every later write passes its bytes through unchanged. */
  lemma AfterFirstJsonWritePassThrough(contentType: string, logger: Option<Logger>, config: Option<RendererConfig>,
                                       status: int, keys: map<string, Value>, parsed: Option<Json>,
                                       fmtOther: Json -> string, data: Bytes, marshal: (Json, bool) -> Option<Bytes>)
    ensures NextWritten(true, contentType)
    ensures Output(Intercept(true, contentType, logger, config, status, keys, parsed, fmtOther), data, marshal) == data
  {
  }

  /** A write whose Content-Type does not mention JSON passes through and leaves `written` as it was. */
  lemma NonJsonWritePassThrough(written: bool, contentType: string, logger: Option<Logger>, config: Option<RendererConfig>,
                                status: int, keys: map<string, Value>, parsed: Option<Json>,
                                fmtOther: Json -> string, data: Bytes, marshal: (Json, bool) -> Option<Bytes>)
    requires !Contains(contentType, JsonContentType)
    ensures NextWritten(written, contentType) == written
    ensures Output(Intercept(written, contentType, logger, config, status, keys, parsed, fmtOther), data, marshal) == data
  {
  }

  /**
   * With the defaults (or no renderer configuration at all) there is no
   * default logger, so unless a handler stored one under REQUEST_LOGGER the
   * body is never rewritten; the first JSON write still sets `written`.
   */
  lemma NoLoggerNoRewrite(written: bool, contentType: string, keys: map<string, Value>, config: Option<RendererConfig>,
                          status: int, parsed: Option<Json>, fmtOther: Json -> string, data: Bytes,
                          marshal: (Json, bool) -> Option<Bytes>)
    requires config == None || config == Some(DefaultsConfig())
    requires !(RequestLoggerKey in keys && keys[RequestLoggerKey].LoggerValue? && keys[RequestLoggerKey].logger.isArborLogger)
    ensures FindLogger(keys, config) == None
    ensures Output(Intercept(written, contentType, FindLogger(keys, config), config, status, keys, parsed, fmtOther),
                   data, marshal) == data
    ensures Contains(contentType, JsonContentType) ==> NextWritten(written, contentType)
  {
  }

  /** The defaults wrap (and indent) once a request logger is present: no service configuration means development mode. */
  lemma DefaultsWrapWithRequestLogger(keys: map<string, Value>, contentType: string, status: int, parsed: Json,
                                      fmtOther: Json -> string)
    requires RequestLoggerKey in keys && keys[RequestLoggerKey].LoggerValue? && keys[RequestLoggerKey].logger.isArborLogger
    requires Contains(contentType, JsonContentType) && !IsWrapped(parsed) && !HasKey(parsed, "error")
    ensures var d := Intercept(false, contentType, FindLogger(keys, Some(DefaultsConfig())), Some(DefaultsConfig()),
                               status, keys, Some(parsed), fmtOther);
            d.Emit? && d.pretty && Decode(d.value).Some? && Decode(d.value).value.result == parsed
            && Decode(d.value).value.version == DefaultVersion && Decode(d.value).value.status == status
  {
    var r := NewEnvelope(Some(DefaultsConfig()), status, keys, parsed, fmtOther);
    DecodeEncode(r);
  }

  /** A body that is already an envelope is emitted as it was parsed; only its formatting can change. */
  lemma WrappedBodyReemitted(contentType: string, logger: Logger, config: Option<RendererConfig>, status: int,
                             keys: map<string, Value>, parsed: Json, fmtOther: Json -> string)
    requires Contains(contentType, JsonContentType) && IsWrapped(parsed)
    ensures Intercept(false, contentType, Some(logger), config, status, keys, Some(parsed), fmtOther)
            == Emit(parsed, Pretty(config))
  {
  }

  /** A top-level "error" key moves into the envelope's error text, and the result becomes null. */
  lemma ErrorBodyMovedToError(contentType: string, logger: Logger, config: Option<RendererConfig>, status: int,
                              keys: map<string, Value>, parsed: Json, fmtOther: Json -> string)
    requires Contains(contentType, JsonContentType) && !IsWrapped(parsed) && HasKey(parsed, "error")
    ensures var d := Intercept(false, contentType, Some(logger), config, status, keys, Some(parsed), fmtOther);
            var e := ErrorText(parsed.fields["error"], fmtOther);
            && d.Emit? && Decode(d.value).Some?
            && Decode(d.value).value.result == Null && Decode(d.value).value.error == e
            && ("error" in d.value.fields <==> e != "")
  {
    var r := NewEnvelope(config, status, keys, parsed, fmtOther);
    DecodeEncode(r);
  }

  /** The interceptor never reads CORRELATION_ID_KEY, the key SetCorrelationID writes. */
  lemma InterceptorIgnoresCorrelationIdKey(config: Option<RendererConfig>, status: int, keys: map<string, Value>,
                                           v: Value, parsed: Json, fmtOther: Json -> string)
    ensures NewEnvelope(config, status, keys[CorrelationId.CorrelationIdKey := v], parsed, fmtOther)
            == NewEnvelope(config, status, keys, parsed, fmtOther)
  {
    assert CorrelationId.CorrelationIdKey != InterceptorCorrelationKey by {
      assert |CorrelationId.CorrelationIdKey| != |InterceptorCorrelationKey|;
    }
  }

  /**
   * Every envelope that AsResult, AsResultWithError or AsError renders, with
   * any result and any error detail, is recognised by the interceptor and
   * re-emitted as it is: it is never wrapped twice. (AsModel renders the
   * caller's own decoded value, which this does not cover.)
   */
  lemma RenderedEnvelopeNotRewrapped(sc: Option<ServiceConfig>, cid: string, request: Request, code: int,
                                     retrieved: Render.MemoryLogs, goVersion: string, buildTime: string,
                                     payload: Json, err: Option<Render.WrappedError>,
                                     contentType: string, logger: Logger, config: Option<RendererConfig>,
                                     status: int, keys: map<string, Value>, fmtOther: Json -> string)
    requires Contains(contentType, JsonContentType)
    ensures var r := Render.WithErrorDetail(Render.Envelope(sc, cid, request, code, retrieved, goVersion, buildTime)
                                              .(result := payload), err, ServiceScope(sc));
            Intercept(false, contentType, Some(logger), config, status, keys, Some(Encode(r)), fmtOther)
            == Emit(Encode(r), Pretty(config))
  {
    var e := Render.Envelope(sc, cid, request, code, retrieved, goVersion, buildTime);
    NamedEnvelopeRecognised(e, payload, err, ServiceScope(sc));
    var r := Render.WithErrorDetail(e.(result := payload), err, ServiceScope(sc));
    WrappedBodyReemitted(contentType, logger, config, status, keys, Encode(r), fmtOther);
  }

  /** A named, versioned envelope stays recognisable whatever result and error detail are filled in. */
  lemma NamedEnvelopeRecognised(e: ApiResponse, payload: Json, err: Option<Render.WrappedError>, scope: string)
    requires e.version != "" && e.name != ""
    ensures IsWrapped(Encode(Render.WithErrorDetail(e.(result := payload), err, scope)))
  {
    var r := Render.WithErrorDetail(e.(result := payload), err, scope);
    assert r.version == e.version && r.name == e.name;
    EncodedEnvelopeRecognised(r);
  }

  /** The Content-Type respondwithJSON sets is one the interceptor treats as JSON. */
  lemma RespondedContentTypeIsJson(h: Header)
    ensures Contains(HeaderGet(GinHeader(h, "Content-Type", JsonContentType), "Content-Type"), JsonContentType)
  {
    GinHeaderGet(h, "Content-Type", JsonContentType, "Content-Type");
  }
}
