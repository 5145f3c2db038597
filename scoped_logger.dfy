/**
 * RequestScopedLoggerMiddleware: store a fresh logger, bound to the request's
 * correlation id when it can be, under "logger" and "arbor". The factory
 * `createLogger` is modelled by the value its one call returns, or None when
 * the factory is nil, and the logger's `WithCorrelationId` by a function.
 */
module ScopedLogger {
  import opened Wrappers
  import opened Http
  import CorrelationId

  const LoggerKey := "logger"
  const ArborKey := "arbor"

  /** The logger type-asserts to `interface { WithCorrelationId(string) interface{} }`. */
  predicate SupportsCorrelationId(v: Value) {
    v.LoggerValue? && v.logger.hasWithCorrelationId
  }

  /**
   * What gets stored: when `cid` is set and the logger supports it, whatever
   * its `WithCorrelationId(cid)` returns (the foreign method is the parameter
   * `withCid`); the created value itself otherwise.
   */
  function Configured(created: Value, cid: string, withCid: (Logger, string) -> Value): (v: Value)
    ensures cid == "" || !SupportsCorrelationId(created) ==> v == created
    ensures cid != "" && SupportsCorrelationId(created) ==> v == withCid(created.logger, cid)
  {
    if cid != "" && SupportsCorrelationId(created) then withCid(created.logger, cid)
    else created
  }

  /** The handler body (before c.Next()). */
  method RequestScopedLoggerMiddleware(ctx: Context, createLogger: Option<Value>, withCid: (Logger, string) -> Value)
    modifies ctx`keys
    ensures createLogger.None? ==> ctx.keys == old(ctx.keys)
    ensures createLogger.Some? ==>
              var stored := Configured(createLogger.value, GetString(old(ctx.keys), CorrelationId.CorrelationIdKey), withCid);
              ctx.keys == old(ctx.keys)[LoggerKey := stored][ArborKey := stored]
    ensures createLogger.Some? ==> ctx.keys[LoggerKey] == ctx.keys[ArborKey]
  {
    var correlationID := GetString(ctx.keys, CorrelationId.CorrelationIdKey);
    if createLogger.Some? {
      var requestLogger := createLogger.value;
      if correlationID != "" {
        if requestLogger.LoggerValue? && requestLogger.logger.hasWithCorrelationId {
          requestLogger := withCid(requestLogger.logger, correlationID);
        }
      }
      ctx.Set(LoggerKey, requestLogger);
      ctx.Set(ArborKey, requestLogger);
    }
  }

  /**
   * Used after SetCorrelationID, as the package recommends, the middleware
   * always hands the id SetCorrelationID chose to `WithCorrelationId`, so a
   * logger that offers that method is always bound.
   */
  lemma ScopedAfterSetCorrelationId(keys: map<string, Value>, requestHeader: Header, generated: string,
                                    created: Value, withCid: (Logger, string) -> Value)
    requires generated != ""
    ensures var id := CorrelationId.ChosenId(keys, requestHeader, generated);
            var keys' := keys[CorrelationId.CorrelationIdKey := StringValue(id)];
            Configured(created, GetString(keys', CorrelationId.CorrelationIdKey), withCid)
              == if SupportsCorrelationId(created) then withCid(created.logger, id) else created
  {
  }
}
