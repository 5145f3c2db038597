/** SetHeaders: advertise the service name and version in two response headers. */
module Headers {
  import opened Wrappers
  import opened Http
  import opened ServiceConfigs

  const AppHeader := "x-t3b-app"
  const VersionHeader := "x-t3b-version"

  /** The response headers after the two writes. */
  function WithServiceHeaders(h: Header, config: Option<ServiceConfig>): Header {
    GinHeader(GinHeader(h, AppHeader, "app:" + ServiceName(config)), VersionHeader, "version:" + BaseVersion(config))
  }

  /** The handler body (before c.Next()): nothing but the two headers changes. */
  method SetHeaders(config: Option<ServiceConfig>, ctx: Context)
    modifies ctx`respHeader
    ensures ctx.respHeader == WithServiceHeaders(old(ctx.respHeader), config)
  {
    var name := DefaultName;
    var version := DefaultVersion;
    if config.Some? {
      if config.value.name != "" {
        name := config.value.name;
      }
      if config.value.version != "" {
        version := config.value.version;
      }
    }
    ctx.Header(AppHeader, "app:" + name);
    ctx.Header(VersionHeader, "version:" + version);
  }

  /**
   * x-t3b-app reads "app:" followed by the name (configured, else
   * "omnis-service"), x-t3b-version reads "version:" followed by the version
   * (configured, else "1.0.0"), and every other header reads as before.
   */
  lemma ServiceHeadersEffect(h: Header, config: Option<ServiceConfig>, other: string)
    ensures HeaderGet(WithServiceHeaders(h, config), AppHeader) == "app:" + ServiceName(config)
    ensures HeaderGet(WithServiceHeaders(h, config), VersionHeader) == "version:" + BaseVersion(config)
    ensures CanonicalKey(other) != CanonicalKey(AppHeader) && CanonicalKey(other) != CanonicalKey(VersionHeader)
            ==> HeaderGet(WithServiceHeaders(h, config), other) == HeaderGet(h, other)
  {
    var h1 := GinHeader(h, AppHeader, "app:" + ServiceName(config));
    DistinctHeaderNames(AppHeader, VersionHeader);
    GinHeaderGet(h, AppHeader, "app:" + ServiceName(config), other);
    GinHeaderGet(h1, VersionHeader, "version:" + BaseVersion(config), AppHeader);
    GinHeaderGet(h1, VersionHeader, "version:" + BaseVersion(config), other);
  }
}
