# omnis middleware, modelled in Dafny

omnis is a thin layer of HTTP middleware over the gin framework. This project models its decision procedures and proves what they promise:

- the JSON response interceptor, which wraps JSON bodies in an `ApiResponse` envelope unless they are one already;
- correlation-id resolution, and the middleware that publishes the id;
- the render service, which builds the envelope (service metadata, captured log lines, an echo of the request) and renders it;
- the static-content exception list, with its order-preserving de-duplication;
- the service-header middleware and the request-scoped logger middleware;
- the `ApiResponse` record and the keys its `omitempty` JSON form emits.

The gin context is the class `Http.Context`, which holds the key/value bag, the response headers, the writer status and the list of JSON renders made so far. The request it serves is a constant `Request` value with its headers, full path, route parameters, form and query. Middleware bodies are methods that change these fields and nothing else. They are proved against the pure functions that say what the new state is.

The modules are:

- `Wrappers`: an `Option` type.
- `Text`: the parts of Go's `strings` and `unicode` that are used.
- `JsonValues`: a JSON value datatype.
- `Http`: header maps with canonical keys, and the context.
- `ServiceConfigs`: the service configuration and its defaults.
- `ApiResponses`: the envelope and its encoding.
- One module for each middleware or service file: `CorrelationId`, `ScopedLogger`, `Headers`, `Static`, `Render` and `JsonRenderer`.

Everything outside the package is an input:

- encoding/json's Marshal, MarshalIndent and Unmarshal are function parameters that may fail;
- fmt's `%v` of a number, array or object is a function parameter;
- uuid generation, `time.Now`, `runtime.Version` and the RFC 3339 expiry time are string parameters;
- the answer of the logger's `GetMemoryLogs` is a `MemoryLogs` value;
- `errors.Wrap` with its stack split into lines is a `WrappedError` value;
- a logger's `WithCorrelationId` is a function parameter.

## Model

| member | source | states |
|---|---|---|
| ServiceConfigs.ServiceName | service_render.go:228-233 | getName: the configured name when it is non-empty, else "omnis-service"; never empty |
| ServiceConfigs.ServiceScope | service_render.go:235-240 | getScope: the configured scope when it is non-empty, else "DEV"; never empty |
| ServiceConfigs.BaseVersion | service_render.go:215-219 | the configured version when it is non-empty, else "1.0.0"; never empty |
| ApiResponses.Encode | model_apiresponse.go:9-22 | "status" and "result" are always emitted, a null result included; every other key is emitted exactly when its field is non-empty, including the log, stack and request collections |
| ApiResponses.DecodeEncode | model_apiresponse.go:9-22 | decoding the emitted object gives back the whole envelope, so omitting empty keys loses no information |
| ApiResponses.StringsRoundTrip | model_apiresponse.go:17-21 | a string-valued map encoded as a JSON object decodes back to the same map |
| ApiResponses.StackRoundTrip | model_apiresponse.go:20 | the stack lines encoded as a JSON array decode back to the same lines |
| Text.TrimSpaceEmptyIffBlank | service_render.go:154 | `strings.TrimSpace` leaves nothing exactly when every character is Unicode white space |
| Text.HasContent | service_render.go:154 | `len(strings.TrimSpace(s)) > 0` holds exactly when `s` is not blank |
| Text.ToUpper | service_render.go:129 | the upper-cased string has the same length, and each character is upper-cased in place |
| Http.CanonicalKey | middleware_correlationid.go:19 | textproto.CanonicalMIMEHeaderKey: a name made only of token characters gets its first letter and every letter after a '-' upper-cased and all other letters lower-cased, keeping its length; a name with any other character comes back unchanged |
| Http.CanonicalKeyIdempotent | middleware_correlationid.go:37-38 | canonicalising a canonical header name changes nothing |
| Http.GinHeaderGet | middleware_correlationid.go:37-38 | after `c.Header(k, v)`, reading any spelling of `k` gives `v`, and every other header reads as before |
| Http.GetString | middleware_correlationid.go:15 | `c.GetString` gives the stored string when the key holds a string, and a non-empty result only when exactly that string is stored; otherwise "" |
| Http.Context.Set | middleware_correlationid.go:34 | `c.Set(key, v)` stores `v` under `key` in the bag, and no other field changes |
| Http.Context.Header | middleware_correlationid.go:37-38 | the response headers become the gin header update of the old ones, and no other field changes |
| CorrelationId.FirstNonEmptyIsFirst | middleware_correlationid.go:52-68 | a priority chain yields its earliest non-empty candidate, or the fallback when all candidates are empty |
| CorrelationId.GetCorrelationID | middleware_correlationid.go:47-69 | the result is never empty; a nil context gives "unknown"; otherwise the result is the first non-empty value among the context's "correlationid" value, the X-Correlation-ID request header and the correlationid request header, else "unknown" |
| CorrelationId.SetCorrelationID | middleware_correlationid.go:12-43 | the context value becomes the chosen id, both response headers echo it, and nothing else changes |
| CorrelationId.ChosenIdPriority | middleware_correlationid.go:15-31 | the chosen id is never empty: the context value when there is one, else the incoming X-Correlation-ID header, else the generated id; the legacy correlationid request header has no influence |
| CorrelationId.SetCorrelationIdPublishes | middleware_correlationid.go:33-38 | afterwards the context value and both response headers hold the chosen id, and GetCorrelationID reads that id back |
| CorrelationId.SetCorrelationIdIdempotent | middleware_correlationid.go:15-38 | a second run, with any generated id, keeps the id and leaves the context and the headers as they are |
| CorrelationId.GetCorrelationIDOrGenerate | middleware_correlationid.go:72-92 | the result is GetCorrelationID's answer unless that is "unknown"; then the generated id is returned and, when there is a context, stored and echoed in both headers; otherwise the context is untouched |
| ScopedLogger.Configured | middleware_correlationid_scoped.go:30-40 | when the id is non-empty and the logger has WithCorrelationId, the stored value is whatever `WithCorrelationId(id)` returns; otherwise the created value is kept exactly |
| ScopedLogger.RequestScopedLoggerMiddleware | middleware_correlationid_scoped.go:24-54 | a nil factory leaves the bag unchanged; otherwise "logger" and "arbor" both hold the configured logger, and no other key changes |
| ScopedLogger.ScopedAfterSetCorrelationId | middleware_correlationid_scoped.go:19-38 | run after SetCorrelationID, as the usage comment wires it, the middleware always passes the id SetCorrelationID chose to `WithCorrelationId`, so a logger offering that method is always bound |
| Headers.SetHeaders | middleware_headers.go:9-33 | the response headers become the old ones with the two service headers written, and nothing else changes |
| Headers.ServiceHeadersEffect | middleware_headers.go:15-28 | x-t3b-app reads "app:" plus the name or "omnis-service"; x-t3b-version reads "version:" plus the version or "1.0.0"; every other header is unchanged |
| Static.FirstIndex | middleware_static.go:48-52 | the position lies in the list, holds the element, and no earlier position holds it, so it is the first occurrence |
| Static.DedupMembers | middleware_static.go:43-53 | a string is kept exactly when it occurs in the input |
| Static.DedupNoDuplicates | middleware_static.go:45-53 | the de-duplicated list has no repeats |
| Static.DedupOrder | middleware_static.go:48-52 | the de-duplicated list is in the order of first occurrences in the input |
| Static.DedupOfDistinct | middleware_static.go:43-55 | a list without repeats comes back unchanged |
| Static.DedupLength | middleware_static.go:43-55 | de-duplication never lengthens the list |
| Static.MergeUnique | middleware_static.go:41-56 | mergeUnique equals the reference de-duplication of `arr1 ++ arr2`: exactly the strings of either list, no repeats, in first-occurrence order, unchanged when already distinct, no longer than both lists together |
| Static.DefaultExceptionsMergeAlone | middleware_static.go:13 | the four default exceptions are distinct, so merging them with an empty list gives them back |
| Static.StaticRequests | middleware_static.go:16-39 | given the (never empty) RFC 3339 expiry time, Expires is set exactly when the route is non-empty, listed among the defaults or the caller's exceptions, and the scope is "DEV"; otherwise no header changes |
| Render.Warning | service_render.go:165-176 | a warning log map holds exactly one line, under "000" |
| Render.GetVersion | service_render.go:215-226 | getVersion is the base version, then "+build.", then the Go version, ".", and the build time |
| Render.LogMap | service_render.go:141-177 | the log map is never empty; a blank id, a retrieval error and an empty retrieval each give a single "000" warning saying which case happened; otherwise the retrieved lines are used |
| Render.BuildLogs | service_render.go:141-177 | the log map built step by step equals LogMap of the id and the retrieval result |
| Render.BuildRequestEcho | service_render.go:179-196 | the request echo built entry by entry, over the parameters and then the form and the query, equals RequestEcho |
| Render.ParamsMapLastWins | service_render.go:183-185 | a key is present exactly when some route parameter has it, and it holds the value of the last such parameter |
| Render.RequestEcho | service_render.go:179-196 | the echo is empty in "PRD"; otherwise its keys are "url", the parameters, the form keys and the query keys; query values win over form values, form over parameters, and parameters over "url"; lists are joined with "," |
| Render.OverlayJoined | service_render.go:188-195 | overlaying a form or query map, iterated in any order, gives the old map overwritten by every entry joined with "," |
| Render.Envelope | service_render.go:198-206 | status is the code and the correlation id the resolved id; version, name and scope come from getVersion, getName and getScope, the log map is LogMap and the request echo is RequestEcho (empty in "PRD"); result, error and stack are empty; version, name, scope and the log map are never empty |
| Render.WithErrorDetail | service_render.go:91-98 | error text and stack are attached only for a non-nil error in the scope "DEV" exactly; otherwise the envelope is unchanged |
| Render.Indented | service_render.go:129 | output is indented exactly when the scope is "dev" in any mix of ASCII case, so a missing or empty configured scope (which means "DEV") indents |
| Render.LowerCaseDevScope | service_render.go:91-129 | the scope "dev" gets indented output but never the error detail |
| Render.RenderService.constructor | service_render.go:30-44 | a new service holds the context, and neither a logger nor a configuration |
| Render.RenderService.WithLogger | service_render.go:46-49 | sets the logger and returns the same receiver |
| Render.RenderService.WithConfig | service_render.go:51-54 | sets the configuration and returns the same receiver |
| Render.RenderService.GetApiResponse | service_render.go:139-208 | the envelope built map by map over the parameters, form and query equals the Envelope of the configuration, the resolved id and the request |
| Render.RenderService.RespondWithJson | service_render.go:121-137 | Content-Type becomes application/json, and one render of the payload is recorded, indented exactly when the upper-cased scope is "DEV" |
| Render.RenderService.AsResult | service_render.go:56-64 | renders the encoded envelope with the payload as its result |
| Render.RenderService.AsResultWithError | service_render.go:85-102 | renders the envelope with the payload as its result, with error detail only for a non-nil error in "DEV" |
| Render.RenderService.AsError | service_render.go:104-119 | renders the envelope with a null result, with error detail only for a non-nil error in "DEV" |
| Render.RenderService.AsModel | service_render.go:66-83 | renders the envelope's wire form decoded into the caller's value; when decoding fails, nothing is rendered and no header changes |
| JsonRenderer.MiddlewareConfig | middleware_jsonrenderer.go:31-35 | JSONMiddleware: a renderer configuration holding the service configuration, with no default logger and pretty-printing off |
| JsonRenderer.DefaultsConfig | middleware_jsonrenderer.go:201-203 | JSONMiddlewareWithDefaults: a configuration without service configuration or default logger, which is in development mode and therefore pretty-prints |
| JsonRenderer.IsDevelopmentMode | middleware_jsonrenderer.go:191-197 | development mode holds without a renderer or service configuration, and otherwise exactly for the scopes "", "DEV" and "DEVELOPMENT" |
| JsonRenderer.Pretty | middleware_jsonrenderer.go:172-176 | pretty output needs a configuration; the flag forces it, and without the flag it follows development mode |
| JsonRenderer.PrettyExactly | middleware_jsonrenderer.go:172-197 | output is indented exactly when there is a configuration and either the flag is set, there is no service configuration, or the scope is exactly "", "DEV" or "DEVELOPMENT" |
| JsonRenderer.EncodedEnvelopeRecognised | middleware_jsonrenderer.go:112-115 | an encoded envelope counts as already wrapped exactly when its version and name are non-empty |
| JsonRenderer.FindLogger | middleware_jsonrenderer.go:79-90 | an arbor logger stored under "omnis_request_logger" is used; otherwise the configured default logger, or none |
| JsonRenderer.ErrorText | middleware_jsonrenderer.go:163 | `%v` of the error value: a string as it is, a boolean as "true" or "false", null as "<nil>", any other value as fmt renders it |
| JsonRenderer.NewEnvelope | middleware_jsonrenderer.go:133-166 | status is the writer's status; without a service configuration the version is "1.0.0" and build, name and scope are empty, and with one the four fields are copied verbatim; the correlation id comes only from a string under "correlation-id"; a top-level "error" moves into the error text and leaves a null result; otherwise the result is the parsed value |
| JsonRenderer.Intercept | middleware_jsonrenderer.go:66-183 | pass-through when already written, not JSON, without a logger or unparseable; otherwise emit with the pretty decision: the parsed value itself when already wrapped, else the new envelope |
| JsonRenderer.Output | middleware_jsonrenderer.go:117-182 | pass-through sends the original bytes; an emit sends the marshalled bytes, or the original bytes when marshalling fails |
| JsonRenderer.JsonInterceptor.constructor | middleware_jsonrenderer.go:40-50 | the installed interceptor holds the context and the configuration, has not written, and has sent nothing |
| JsonRenderer.JsonInterceptor.Write | middleware_jsonrenderer.go:66-183 | `written` becomes true on the first write whose Content-Type mentions JSON; exactly one chunk is sent, namely the output of the interceptor's decision |
| JsonRenderer.AfterFirstJsonWritePassThrough | middleware_jsonrenderer.go:66-69 | once written, every later write sends its bytes unchanged |
| JsonRenderer.NonJsonWritePassThrough | middleware_jsonrenderer.go:72-75 | a write whose Content-Type lacks application/json sends its bytes unchanged and leaves `written` as it was |
| JsonRenderer.NoLoggerNoRewrite | middleware_jsonrenderer.go:77-96 | with the defaults, or no configuration, and no arbor logger under "omnis_request_logger" (absent, not a logger, or not an arbor logger), no logger is found and the bytes pass unchanged, though a JSON write still sets `written` |
| JsonRenderer.DefaultsWrapWithRequestLogger | middleware_jsonrenderer.go:191-203 | with the defaults and a request logger, a plain JSON body is wrapped and indented, its envelope carrying the body as result, version "1.0.0" and the writer's status |
| JsonRenderer.WrappedBodyReemitted | middleware_jsonrenderer.go:112-128 | a body that is already an envelope is emitted as parsed; only its formatting may change |
| JsonRenderer.ErrorBodyMovedToError | middleware_jsonrenderer.go:159-166 | a top-level "error" becomes the envelope's error text with a null result, and the error key appears exactly when that text is non-empty |
| JsonRenderer.InterceptorIgnoresCorrelationIdKey | middleware_jsonrenderer.go:152-157 | the envelope does not depend on the "correlationid" key that SetCorrelationID writes |
| JsonRenderer.RenderedEnvelopeNotRewrapped | middleware_jsonrenderer.go:112-128 | every envelope rendered by AsResult, AsResultWithError or AsError, with any result and any error detail, is re-emitted as it is and never wrapped twice; AsModel is not covered, since it renders the caller's own decoded value |
| JsonRenderer.NamedEnvelopeRecognised | middleware_jsonrenderer.go:112-115 | an envelope with a non-empty version and name stays recognised whatever result and error detail are filled in |
| JsonRenderer.RespondedContentTypeIsJson | middleware_jsonrenderer.go:72-73 | the Content-Type that respondwithJSON sets is one the interceptor treats as JSON |

## Left out

- The gin engine is not modelled: routing, `c.Next()` chaining, `ServeHTTP`, `WriteHeader`, and the byte counts and errors that `Write` returns. Handler bodies are modelled up to the call of `c.Next()`.
- encoding/json's byte-level behaviour is not modelled. Marshal, MarshalIndent and Unmarshal are parameters. `Encode`/`Decode` give the envelope's key structure, not its bytes.
- Numbers are unbounded reals, so floating-point rounding is not captured.
- fmt's `%v` rendering of numbers, arrays and objects is a parameter. Only strings, booleans and nil are rendered in the model.
- The arbor and phuslu loggers are out of scope: the log calls, the internal logger and `GetMemoryLogs` itself, which is an input. service_render.go:157-163 picks the logger that answers `GetMemoryLogs`: the one set by `WithLogger`, else `arbor.GetLogger()`. That choice decides which lines end up in `Log`. In the model `RenderService.logger` is written by `WithLogger` but read by nothing, and `retrieved` is an unconstrained input, so the link between the chosen logger and the log lines is not captured.
- ScopedLogger.Configured: the logger's `WithCorrelationId` is foreign code, so it is a function parameter and nothing is assumed about the value it returns.
- uuid generation is out of scope, including its fallback when `NewRandom` fails. So are `time.Now`, `runtime.Version` and the RFC 3339 time formatting. All of these are string parameters.
- errors.Wrap, its stack, and funktion.SplitLines are a `WrappedError` input. funktion.ArrayContains is exact membership.
- Static.StaticRequests: the expiry time is taken as a non-empty string, as an RFC 3339 time always is. Only the `Service.Scope` string of the `satus.AppConfig` is modelled. A nil configuration, which would panic, is not.
- Text.ToUpper: only ASCII letters are upper-cased; other letters are kept as they are. Any scope is accepted, and a non-ASCII letter can neither become nor come from an ASCII "D", "E" or "V" under `strings.ToUpper`, so the `== "DEV"` test it serves is unaffected.
- Render.RenderService.constructor: `RenderService(nil)` panics, and the non-null `Context` type rules that call out.
- Go distinguishes a nil map or slice from an empty one; the model, like `omitempty`, does not.
- Render.LogMap: if `GetMemoryLogs` answered a nil map with a nil error, service_render.go:167 would store it and line 176 would panic with an assignment to an entry in a nil map. The model returns the "No logs found" warning instead. Whether arbor ever answers a nil map is not known here, since its source is not part of this model.
- The log and request maps of `ApiResponse` are string maps, which is how service_render.go builds them. model_apiresponse.go declares them `interface{}`-valued.
- ServiceConfig is declared twice, in model_serviceconfig.go and service_config_model.go. The model uses the declaration with `Build`, since the interceptor reads that field.
- service_render.go:95 and 112 write `output.Err`, which `ApiResponse` does not declare. The model reads it as the `Error` field.
- Render.RenderService.AsModel: the envelope always marshals, so the first error branch, at service_render.go:71-75, cannot occur. Only the failure of decoding into the caller's value is modelled.
- The `status` that gin's render sets on the writer is not modelled. The interceptor reads the context's `status` as it stands.
- `JSONMiddlewareWithDefaults()` is `JSONMiddleware(nil)`. That passes a renderer configuration that is present but has no service configuration, rather than no configuration at all. The model follows this: the defaults never rewrite a body without a request logger (`NoLoggerNoRewrite`), and with one they wrap a parseable JSON body that is not already an envelope and indent the output (`DefaultsWrapWithRequestLogger`).
- gin_extensions.go, the test files and the interface files are not part of this model.
