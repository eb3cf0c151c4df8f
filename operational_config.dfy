/** Configuration of the operational HTTP server (operational/config.go). */
module OperationalConfig {
  import opened Results
  import opened Env
  import opened Strconv

  const DefaultPort: int := 42069
  const DefaultHost: string := "0.0.0.0"

  datatype OperationalServerConfig = OperationalServerConfig(host: string, port: int)

  /**
   * The port: OPERATIONAL_PORT when it parses as a decimal integer (any value,
   * no range check), otherwise 42069 without an error.
   */
  function Port(env: Environment): (port: int)
    ensures Getenv(env, "OPERATIONAL_PORT") == "" ==> port == DefaultPort
    ensures Atoi(Getenv(env, "OPERATIONAL_PORT")).Some? ==> port == Atoi(Getenv(env, "OPERATIONAL_PORT")).value
    ensures Atoi(Getenv(env, "OPERATIONAL_PORT")).None? ==> port == DefaultPort
  {
    var portStr := Getenv(env, "OPERATIONAL_PORT");
    if portStr != "" && Atoi(portStr).Some? then Atoi(portStr).value else DefaultPort
  }

  /** `FromEnv`. */
  function FromEnv(env: Environment): (c: OperationalServerConfig)
    ensures c.host != ""
    ensures c.host == (if Getenv(env, "OPERATIONAL_HOST") != "" then env["OPERATIONAL_HOST"] else DefaultHost)
    ensures c.port == Port(env)
  {
    OperationalServerConfig(GetenvOrDefault(env, "OPERATIONAL_HOST", DefaultHost), Port(env))
  }

  /** With nothing set: 0.0.0.0:42069 (operational/config_test.go). */
  lemma FromEmptyEnv()
    ensures FromEnv(map[]) == OperationalServerConfig(DefaultHost, DefaultPort)
  {
  }

  /** Any 64-bit integer written in decimal becomes the port, even one outside 0..65535. */
  lemma PortTakesAnyInteger(env: Environment, n: int)
    requires MinInt64 <= n <= MaxInt64
    ensures Port(env["OPERATIONAL_PORT" := Itoa(n)]) == n
  {
    AtoiItoa(n);
    assert Getenv(env["OPERATIONAL_PORT" := Itoa(n)], "OPERATIONAL_PORT") == Itoa(n);
  }

  /** A value that is not a decimal integer falls back to 42069 silently, e.g. "invalid" or " 8080". */
  lemma PortFallsBack(env: Environment, s: string, k: nat)
    requires k < |s| && !IsDigit(s[k])
    requires k == 0 ==> s[0] != '-' && s[0] != '+'
    ensures Port(env["OPERATIONAL_PORT" := s]) == DefaultPort
  {
    AtoiRejectsNonDigit(s, k);
    assert Getenv(env["OPERATIONAL_PORT" := s], "OPERATIONAL_PORT") == s;
  }

  /** The example of operational/config_test.go: "8080" is port 8080. */
  lemma Port8080(env: Environment)
    ensures Port(env["OPERATIONAL_PORT" := "8080"]) == 8080
  {
    PortTakesAnyInteger(env, 8080);
    assert Itoa(8080) == "8080" by {
      assert FormatNat(8080) == FormatNat(808) + ['0'];
      assert FormatNat(808) == FormatNat(80) + ['8'];
      assert FormatNat(80) == FormatNat(8) + ['0'];
    }
  }
}
