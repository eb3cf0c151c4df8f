/**
 * The process environment and the boolean grammar of internal/env.go.
 * The environment is a map from variable names to values; a variable that
 * is not set reads as the empty string, as `os.Getenv` returns it.
 */
module Env {
  import opened Results
  import opened Strings

  type Environment = map<string, string>

  /** `os.Getenv`. */
  function Getenv(env: Environment, key: string): (v: string)
    ensures key !in env ==> v == ""
    ensures key in env ==> v == env[key]
  {
    if key in env then env[key] else ""
  }

  /**
   * The `getEnvOrDefault(key, defaultValue)` helper that logging, tracing and
   * operational each define: a set, non-empty value wins, untrimmed.
   */
  function GetenvOrDefault(env: Environment, key: string, default: string): (v: string)
    ensures v == "" ==> default == ""
    ensures Getenv(env, key) != "" ==> v == env[key]
    ensures Getenv(env, key) == "" ==> v == default
  {
    var value := Getenv(env, key);
    if value != "" then value else default
  }

  /** Spellings accepted as true and as false, after trimming and lowering. */
  const TrueWords: set<string> := {"true", "t", "1", "yes", "y", "on"}
  const FalseWords: set<string> := {"false", "f", "0", "no", "n", "off"}

  /** `strings.ToLower(strings.TrimSpace(s))`. */
  function Normalize(s: string): string {
    ToLower(TrimSpace(s))
  }

  /** The spelling EnvBool matches: the variable's, or the default's when that is blank. */
  function Spelling(env: Environment, envVar: string, defaultValue: string): string {
    var value := Normalize(Getenv(env, envVar));
    if value == "" then Normalize(defaultValue) else value
  }

  /** The `switch` of EnvBool on an already normalised spelling. */
  function ParseBoolWord(envVar: string, value: string): (r: Fallible<bool>)
    ensures r.Ok() <==> value in TrueWords + FalseWords
    ensures r.Ok() ==> (r.value <==> value in TrueWords)
    ensures !r.Ok() ==> !r.value && r.err == Some(InvalidBool(envVar, value))
  {
    if value in TrueWords then Fallible(true, None)
    else if value in FalseWords then Fallible(false, None)
    else Fallible(false, Some(InvalidBool(envVar, value)))
  }

  /** `EnvBool(envVar, defaultValue)`: the boolean named by the variable, else by the default. */
  function EnvBool(env: Environment, envVar: string, defaultValue: string): (r: Fallible<bool>)
    ensures r == Fallible(true, None) <==> Spelling(env, envVar, defaultValue) in TrueWords
    ensures r == Fallible(false, None) <==> Spelling(env, envVar, defaultValue) in FalseWords
    ensures !r.Ok() <==> Spelling(env, envVar, defaultValue) !in TrueWords + FalseWords
    ensures !r.Ok() ==> !r.value
  {
    BoolWordsDisjoint();
    ParseBoolWord(envVar, Spelling(env, envVar, defaultValue))
  }

  /** `MustEnvBool`: EnvBool's boolean, or a panic carrying EnvBool's error. */
  function MustEnvBool(env: Environment, envVar: string, defaultValue: string): (r: Outcome<bool>)
    ensures r.Returned? <==> EnvBool(env, envVar, defaultValue).Ok()
    ensures r.Returned? ==> r.value == EnvBool(env, envVar, defaultValue).value
    ensures r.Panicked? ==> Some(r.cause) == EnvBool(env, envVar, defaultValue).err
  {
    var parsed := EnvBool(env, envVar, defaultValue);
    if parsed.err.Some? then Panicked(parsed.err.value) else Returned(parsed.value)
  }

  /** No spelling means both true and false. */
  lemma BoolWordsDisjoint()
    ensures TrueWords * FalseWords == {}
  {
    assert forall w :: w in TrueWords ==> w !in FalseWords;
  }

  /** Normalising trims and lowers: upper-casing and padding with white space change nothing. */
  lemma {:induction false} NormalizeIgnoresCaseAndPadding(s: string, p: string, q: string)
    requires AllSpace(p) && AllSpace(q)
    ensures Normalize(ToUpper(s)) == Normalize(s)
    ensures Normalize(p + s + q) == Normalize(s)
  {
    TrimOfUpper(s);
    CaseFolds(TrimSpace(s));
    TrimIgnoresPadding(p, s, q);
  }

  /** A blank normalised value is exactly a blank trimmed value. */
  lemma NormalizeBlank(s: string)
    ensures Normalize(s) == "" <==> TrimSpace(s) == ""
  {
  }

  /** EnvBool gives the same answer for s, for its upper-case form and for s padded with white space. */
  lemma {:induction false} EnvBoolIgnoresCaseAndPadding(
    env: Environment, envVar: string, defaultValue: string, s: string, p: string, q: string)
    requires AllSpace(p) && AllSpace(q)
    ensures EnvBool(env[envVar := ToUpper(s)], envVar, defaultValue) == EnvBool(env[envVar := s], envVar, defaultValue)
    ensures EnvBool(env[envVar := p + s + q], envVar, defaultValue) == EnvBool(env[envVar := s], envVar, defaultValue)
  {
    NormalizeIgnoresCaseAndPadding(s, p, q);
    assert Getenv(env[envVar := ToUpper(s)], envVar) == ToUpper(s);
    assert Getenv(env[envVar := p + s + q], envVar) == p + s + q;
    assert Getenv(env[envVar := s], envVar) == s;
  }

  /** A variable that is not blank always wins: the default is never looked at. */
  lemma EnvValueWins(env: Environment, envVar: string, d1: string, d2: string)
    requires TrimSpace(Getenv(env, envVar)) != ""
    ensures EnvBool(env, envVar, d1) == EnvBool(env, envVar, d2)
  {
    NormalizeBlank(Getenv(env, envVar));
  }

  /** A blank variable (unset, empty or only white space) reads as if it held the default. */
  lemma {:induction false} BlankVariableReadsDefault(env: Environment, envVar: string, defaultValue: string)
    requires TrimSpace(Getenv(env, envVar)) == ""
    ensures EnvBool(env, envVar, defaultValue) == EnvBool(env[envVar := defaultValue], envVar, defaultValue)
  {
    NormalizeBlank(Getenv(env, envVar));
    NormalizeBlank(defaultValue);
    assert Getenv(env[envVar := defaultValue], envVar) == defaultValue;
  }

  /** An unset variable with an unpadded default parses the lowered default. */
  lemma UnsetReadsDefault(envVar: string, w: string)
    requires w != [] && !IsSpace(w[0]) && !IsSpace(w[|w| - 1])
    ensures EnvBool(map[], envVar, w) == ParseBoolWord(envVar, ToLower(w))
  {
    TrimKeepsUnpadded(w);
    TrimKeepsUnpadded("");
  }

  /** An unset variable with an unpadded lower-case default parses the default itself. */
  lemma UnsetReadsLowerDefault(envVar: string, w: string)
    requires w != [] && !IsSpace(w[0]) && !IsSpace(w[|w| - 1])
    requires forall i :: 0 <= i < |w| ==> !IsUpperLetter(w[i])
    ensures EnvBool(map[], envVar, w) == ParseBoolWord(envVar, w)
  {
    UnsetReadsDefault(envVar, w);
    LowerKeepsLower(w);
  }

  /** The default "true" of an unset variable reads as true. */
  lemma UnsetDefaultTrue(envVar: string)
    ensures EnvBool(map[], envVar, "true") == Fallible(true, None)
  {
    UnsetReadsLowerDefault(envVar, "true");
  }

  /** The default "false" of an unset variable reads as false. */
  lemma UnsetDefaultFalse(envVar: string)
    ensures EnvBool(map[], envVar, "false") == Fallible(false, None)
  {
    UnsetReadsLowerDefault(envVar, "false");
  }

  /** An upper-case true word is accepted (internal/env_test.go). */
  lemma EnvBoolAcceptsUpperTrue(envVar: string)
    ensures EnvBool(map[], envVar, "TRUE") == Fallible(true, None)
  {
    UnsetReadsDefault(envVar, "TRUE");
    assert ToLower("TRUE") == "true";
  }

  /** An upper-case false word is accepted (internal/env_test.go). */
  lemma EnvBoolAcceptsUpperFalse(envVar: string)
    ensures EnvBool(map[], envVar, "OFF") == Fallible(false, None)
  {
    UnsetReadsDefault(envVar, "OFF");
    assert ToLower("OFF") == "off";
  }

  /** An unset variable whose default is an unpadded lower-case word outside both sets gives that word's error. */
  lemma UnsetRefusesWord(envVar: string, w: string)
    requires w != [] && !IsSpace(w[0]) && !IsSpace(w[|w| - 1])
    requires forall i :: 0 <= i < |w| ==> !IsUpperLetter(w[i])
    requires w !in TrueWords + FalseWords
    ensures EnvBool(map[], envVar, w) == Fallible(false, Some(InvalidBool(envVar, w)))
  {
    UnsetReadsLowerDefault(envVar, w);
  }

  /** A word that is neither true nor false is refused (internal/env_test.go). */
  lemma EnvBoolRefusesMaybe(envVar: string)
    ensures EnvBool(map[], envVar, "maybe") == Fallible(false, Some(InvalidBool(envVar, "maybe")))
  {
    UnsetRefusesWord(envVar, "maybe");
  }

  /** A digit other than 0 and 1 is refused (internal/env_test.go). */
  lemma EnvBoolRefusesOtherDigit(envVar: string)
    ensures EnvBool(map[], envVar, "2") == Fallible(false, Some(InvalidBool(envVar, "2")))
  {
    UnsetRefusesWord(envVar, "2");
  }

  /** MustEnvBool panics on "invalid" with that word's error (internal/env_test.go). */
  lemma MustEnvBoolPanics(envVar: string)
    ensures MustEnvBool(map[], envVar, "invalid") == Panicked(InvalidBool(envVar, "invalid"))
  {
    UnsetRefusesWord(envVar, "invalid");
  }
}
