/** Metrics configuration read from the environment (metrics/config.go). */
module MetricsConfig {
  import opened Results
  import opened Env

  datatype MetricsConfig = MetricsConfig(
    enableGoCollector: bool,
    enableProcessCollector: bool,
    metricPrefix: string)

  /**
   * `FromEnv`: both collectors default to enabled; an invalid flag panics
   * (METRICS_ENABLE_GO is read first); the prefix is taken as it is.
   */
  function FromEnv(env: Environment): (r: Outcome<MetricsConfig>)
    ensures r.Returned? <==>
      (EnvBool(env, "METRICS_ENABLE_GO", "true").Ok() && EnvBool(env, "METRICS_ENABLE_PROCESS", "true").Ok())
    ensures r.Returned? ==> r.value.enableGoCollector == EnvBool(env, "METRICS_ENABLE_GO", "true").value
    ensures r.Returned? ==> r.value.enableProcessCollector == EnvBool(env, "METRICS_ENABLE_PROCESS", "true").value
    ensures r.Returned? ==> r.value.metricPrefix == Getenv(env, "METRICS_PREFIX")
    ensures !EnvBool(env, "METRICS_ENABLE_GO", "true").Ok() ==>
      r == Panicked(InvalidBool("METRICS_ENABLE_GO", Spelling(env, "METRICS_ENABLE_GO", "true")))
  {
    match MustEnvBool(env, "METRICS_ENABLE_GO", "true")
    case Panicked(e) => Panicked(e)
    case Returned(enableGo) =>
      match MustEnvBool(env, "METRICS_ENABLE_PROCESS", "true")
      case Panicked(e) => Panicked(e)
      case Returned(enableProcess) => Returned(MetricsConfig(enableGo, enableProcess, Getenv(env, "METRICS_PREFIX")))
  }

  /** With nothing set: both collectors on, no prefix (metrics/config_test.go). */
  lemma FromEmptyEnv()
    ensures FromEnv(map[]) == Returned(MetricsConfig(true, true, ""))
  {
    UnsetDefaultTrue("METRICS_ENABLE_GO");
    UnsetDefaultTrue("METRICS_ENABLE_PROCESS");
  }

  /** The prefix is neither trimmed nor defaulted. */
  lemma PrefixIsRaw(env: Environment, prefix: string)
    requires FromEnv(env).Returned?
    ensures FromEnv(env["METRICS_PREFIX" := prefix]) == Returned(FromEnv(env).value.(metricPrefix := prefix))
  {
    var env' := env["METRICS_PREFIX" := prefix];
    assert Getenv(env', "METRICS_ENABLE_GO") == Getenv(env, "METRICS_ENABLE_GO");
    assert Getenv(env', "METRICS_ENABLE_PROCESS") == Getenv(env, "METRICS_ENABLE_PROCESS");
    assert Getenv(env', "METRICS_PREFIX") == prefix;
  }
}
