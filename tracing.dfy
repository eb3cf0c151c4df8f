/** Tracing configuration read from the environment (tracing/config.go). */
module Tracing {
  import opened Results
  import opened Env

  /**
   * Go's `ExportType` is a named string type, so its zero value "" exists
   * beside the three constants.
   */
  type ExportType = string

  const ExportTypeStdout: ExportType := "stdout"
  const ExportTypeHttp: ExportType := "http"
  const ExportTypeGrpc: ExportType := "grpc"

  const ExportTypes: set<ExportType> := {ExportTypeStdout, ExportTypeHttp, ExportTypeGrpc}

  datatype TracingConfig = TracingConfig(exportType: ExportType, endpoint: string)

  /** `TracingConfig{}`. */
  const ZeroConfig: TracingConfig := TracingConfig("", "")

  /** `parseExportType`: exact, case-sensitive match of the three names; otherwise "" and an error. */
  function ParseExportType(exportType: string): (r: Fallible<ExportType>)
    ensures r.Ok() <==> exportType in ExportTypes
    ensures r.Ok() ==> r.value == exportType
    ensures !r.Ok() ==> r == Fallible("", Some(InvalidExportType(exportType)))
  {
    match exportType
    case "stdout" => Fallible(ExportTypeStdout, None)
    case "http" => Fallible(ExportTypeHttp, None)
    case "grpc" => Fallible(ExportTypeGrpc, None)
    case _ => Fallible("", Some(InvalidExportType(exportType)))
  }

  /** `FromEnv`: the exporter type (default "stdout") and the raw endpoint, or the zero config and an error. */
  function FromEnv(env: Environment): (r: Fallible<TracingConfig>)
    ensures r.Ok() <==> GetenvOrDefault(env, "TRACING_EXPORTER_TYPE", "stdout") in ExportTypes
    ensures r.Ok() ==> r.value.exportType == GetenvOrDefault(env, "TRACING_EXPORTER_TYPE", "stdout")
    ensures r.Ok() ==> r.value.endpoint == Getenv(env, "TRACING_EXPORTER_ENDPOINT")
    ensures !r.Ok() ==> r.value == ZeroConfig
  {
    var parsed := ParseExportType(GetenvOrDefault(env, "TRACING_EXPORTER_TYPE", "stdout"));
    if parsed.err.Some? then Fallible(ZeroConfig, parsed.err)
    else Fallible(TracingConfig(parsed.value, GetenvOrDefault(env, "TRACING_EXPORTER_ENDPOINT", "")), None)
  }

  /** Every constant reads back as itself, and nothing else reads back as a constant. */
  lemma ExportTypeRoundTrip(s: string, t: ExportType)
    requires t in ExportTypes
    ensures ParseExportType(t) == Fallible(t, None)
    ensures ParseExportType(s).Ok() && ParseExportType(s).value == t ==> s == t
  {
  }

  /** Matching is exact: upper-case names are refused (tracing/config_test.go). */
  lemma ExportTypeIsCaseSensitive()
    ensures ParseExportType("HTTP") == Fallible("", Some(InvalidExportType("HTTP")))
    ensures ParseExportType("Stdout").err.Some?
    ensures ParseExportType("invalid").err.Some?
  {
  }

  /** With TRACING_EXPORTER_TYPE unset or empty the exporter is stdout. */
  lemma DefaultExportIsStdout(env: Environment)
    requires Getenv(env, "TRACING_EXPORTER_TYPE") == ""
    ensures FromEnv(env) == Fallible(TracingConfig(ExportTypeStdout, Getenv(env, "TRACING_EXPORTER_ENDPOINT")), None)
  {
  }

  /** A set exporter type is used verbatim; an unknown one gives the zero config and its error. */
  lemma SetExportType(env: Environment, t: string)
    requires t != ""
    ensures t in ExportTypes ==>
      FromEnv(env["TRACING_EXPORTER_TYPE" := t]) == Fallible(TracingConfig(t, Getenv(env, "TRACING_EXPORTER_ENDPOINT")), None)
    ensures t !in ExportTypes ==>
      FromEnv(env["TRACING_EXPORTER_TYPE" := t]) == Fallible(ZeroConfig, Some(InvalidExportType(t)))
  {
    var env' := env["TRACING_EXPORTER_TYPE" := t];
    assert Getenv(env', "TRACING_EXPORTER_TYPE") == t;
    assert Getenv(env', "TRACING_EXPORTER_ENDPOINT") == Getenv(env, "TRACING_EXPORTER_ENDPOINT");
  }
}
