/** Logging configuration read from the environment (logging/config.go). */
module Logging {
  import opened Results
  import opened Strings
  import opened Env

  /** The four `slog` levels the parser can produce. */
  datatype Level = Debug | Info | Warn | Error {
    /** The numeric `slog.Level`. */
    function SlogValue(): int {
      match this
      case Debug => -4
      case Info => 0
      case Warn => 4
      case Error => 8
    }

    /** The canonical upper-case spelling. */
    function Name(): string {
      match this
      case Debug => "DEBUG"
      case Info => "INFO"
      case Warn => "WARN"
      case Error => "ERROR"
    }
  }

  /** The four levels keep `slog`'s order: Debug < Info < Warn < Error. */
  lemma LevelsOrdered()
    ensures Level.Debug.SlogValue() < Level.Info.SlogValue() < Level.Warn.SlogValue() < Level.Error.SlogValue()
    ensures forall a: Level, b: Level :: a.SlogValue() == b.SlogValue() ==> a == b
  {
  }

  datatype LoggingConfig = LoggingConfig(level: Level, asJson: bool, tracing: bool)

  /** `parseLogLevel`: matched after upper-casing, never trimmed; anything unknown is Info. */
  function ParseLogLevel(level: string): (r: Level)
    ensures r == Debug <==> ToUpper(level) == "DEBUG"
    ensures r == Warn <==> ToUpper(level) == "WARN" || ToUpper(level) == "WARNING"
    ensures r == Error <==> ToUpper(level) == "ERROR"
    ensures r == Info <==> ToUpper(level) !in {"DEBUG", "WARN", "WARNING", "ERROR"}
  {
    match ToUpper(level)
    case "DEBUG" => Debug
    case "INFO" => Info
    case "WARN" => Warn
    case "WARNING" => Warn
    case "ERROR" => Error
    case _ => Info
  }

  /** `FromEnv`: LOG_LEVEL defaults to "INFO"; the two flags default to false and panic when invalid. */
  function FromEnv(env: Environment): (r: Outcome<LoggingConfig>)
    ensures r.Returned? <==>
      (MustEnvBool(env, "LOG_AS_JSON", "false").Returned? && MustEnvBool(env, "LOG_TRACING", "false").Returned?)
    ensures r.Returned? ==> r.value.level == ParseLogLevel(GetenvOrDefault(env, "LOG_LEVEL", "INFO"))
    ensures r.Returned? ==> r.value.asJson == EnvBool(env, "LOG_AS_JSON", "false").value
    ensures r.Returned? ==> r.value.tracing == EnvBool(env, "LOG_TRACING", "false").value
  {
    var level := ParseLogLevel(GetenvOrDefault(env, "LOG_LEVEL", "INFO"));
    match MustEnvBool(env, "LOG_AS_JSON", "false")
    case Panicked(e) => Panicked(e)
    case Returned(asJson) =>
      match MustEnvBool(env, "LOG_TRACING", "false")
      case Panicked(e) => Panicked(e)
      case Returned(tracing) => Returned(LoggingConfig(level, asJson, tracing))
  }

  /** Every level reads back from its own name. */
  lemma ParseLevelName(l: Level)
    ensures ParseLogLevel(l.Name()) == l
  {
    var n := l.Name();
    assert ToUpper(n) == n;
  }

  /** Parsing ignores letter case: a lower-case spelling parses like the upper-case one. */
  lemma {:induction false} ParseLogLevelIgnoresCase(s: string)
    ensures ParseLogLevel(ToLower(s)) == ParseLogLevel(s)
  {
    CaseFolds(s);
  }

  /** Parsing does not trim: a level preceded by white space is unknown, hence Info. */
  lemma ParseLogLevelDoesNotTrim(c: char, s: string)
    requires IsSpace(c)
    ensures ParseLogLevel([c] + s) == Info
  {
    var u := ToUpper([c] + s);
    assert u[0] == c;
    assert u != "DEBUG" && u != "WARN" && u != "WARNING" && u != "ERROR" by {
      assert "DEBUG"[0] == 'D' && "WARN"[0] == 'W' && "WARNING"[0] == 'W' && "ERROR"[0] == 'E';
    }
  }

  /** Lower-case spellings are accepted (logging/config_test.go). */
  lemma ParseLogLevelLowerCase()
    ensures ParseLogLevel("debug") == Debug
    ensures ParseLogLevel("error") == Error
  {
    assert ToUpper("debug") == "DEBUG";
    assert ToUpper("error") == "ERROR";
  }

  /** "WARNING" is an alias of WARN (logging/config_test.go). */
  lemma ParseLogLevelWarning()
    ensures ParseLogLevel("WARNING") == Warn
  {
    assert ToUpper("WARNING") == "WARNING";
  }

  /** An unknown level is Info (logging/config_test.go). */
  lemma ParseLogLevelUnknown()
    ensures ParseLogLevel("INVALID") == Info
  {
    assert ToUpper("INVALID") == "INVALID";
  }

  /** With nothing set, the configuration is Info, text output, no trace correlation. */
  lemma FromEmptyEnv()
    ensures FromEnv(map[]) == Returned(LoggingConfig(Info, false, false))
  {
    UnsetDefaultFalse("LOG_AS_JSON");
    UnsetDefaultFalse("LOG_TRACING");
    ParseLevelName(Info);
  }

  /** An unset or empty LOG_LEVEL gives Info, whatever else is set. */
  lemma DefaultLevelIsInfo(env: Environment)
    requires Getenv(env, "LOG_LEVEL") == ""
    requires FromEnv(env).Returned?
    ensures FromEnv(env).value.level == Info
  {
    ParseLevelName(Info);
  }

  /** An invalid LOG_AS_JSON makes FromEnv panic with that variable's error. */
  lemma InvalidJsonFlagPanics(env: Environment)
    requires !EnvBool(env, "LOG_AS_JSON", "false").Ok()
    ensures FromEnv(env) == Panicked(InvalidBool("LOG_AS_JSON", Spelling(env, "LOG_AS_JSON", "false")))
  {
  }
}
