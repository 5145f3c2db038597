/**
 * ServiceConfig (the variant with a Build field) and the defaults the
 * middlewares and the render service fall back to when it is nil or a field
 * is empty.
 */
module ServiceConfigs {
  import opened Wrappers

  datatype ServiceConfig = ServiceConfig(name: string, scope: string, version: string, build: string)

  const DefaultName := "omnis-service"
  const DefaultScope := "DEV"
  const DefaultVersion := "1.0.0"

  /** The configured name when there is one, "omnis-service" otherwise. */
  function ServiceName(config: Option<ServiceConfig>): (r: string)
    ensures r != ""
    ensures config.Some? && config.value.name != "" ==> r == config.value.name
    ensures config.None? || config.value.name == "" ==> r == DefaultName
  {
    if config.Some? && config.value.name != "" then config.value.name else DefaultName
  }

  /** The configured scope when there is one, "DEV" otherwise. */
  function ServiceScope(config: Option<ServiceConfig>): (r: string)
    ensures r != ""
    ensures config.Some? && config.value.scope != "" ==> r == config.value.scope
    ensures config.None? || config.value.scope == "" ==> r == DefaultScope
  {
    if config.Some? && config.value.scope != "" then config.value.scope else DefaultScope
  }

  /** The configured version when there is one, "1.0.0" otherwise. */
  function BaseVersion(config: Option<ServiceConfig>): (r: string)
    ensures r != ""
    ensures config.Some? && config.value.version != "" ==> r == config.value.version
    ensures config.None? || config.value.version == "" ==> r == DefaultVersion
  {
    if config.Some? && config.value.version != "" then config.value.version else DefaultVersion
  }
}
