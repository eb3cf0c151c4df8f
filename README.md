# corrupt-o11y-go, modelled in Dafny

This project models the sequential logic of corrupt-o11y-go, a small Go
observability library that sits on top of Prometheus, OpenTelemetry and
`slog`. It covers three parts:

- **The metrics tracking registry** (`Metrics`, metrics_collector.dfy).
  A `MetricsCollector` class holds an underlying registry and a map from the
  caller's names to the collectors registered through it. The class has
  `Register`, `Unregister`, `Clear`, `IsRegistered` and the `Create*` helpers.
  The Prometheus registry is modelled as the set of collector identities it
  holds, and it refuses a collector whose identity is already present.
  Pure functions over `CollectorState` (`Registered`, `Unregistered`,
  `Cleared`) specify every method. The lemmas about these functions carry
  the properties: consistency is preserved, an overwritten name orphans its
  old collector, and `Clear` keeps the built-in collectors.
- **The liveness/readiness `Status`** (`Status`, status.dfy). This is a class
  with two boolean fields that starts alive and not ready. The pure `Flags`
  view is used for the idempotence and independence lemmas. The HTTP status
  code that the /health and /ready handlers derive from a flag is included too.
- **The environment parsers**. The environment is a `map<string, string>`,
  and an unset variable reads as `""`. The parsers are:
  - the boolean grammar `EnvBool`/`MustEnvBool` (`Env`);
  - log-level parsing (`Logging`);
  - exporter-type parsing (`Tracing`);
  - the port/host defaults (`OperationalConfig`);
  - service metadata and its `AsMap` projection (`Metadata`);
  - the metrics flags and prefix (`MetricsConfig`).

Go's conventions appear as values (`Results`):
- a `(T, error)` pair is a `Fallible<T>`, which keeps the zero value Go returns beside an error;
- a function that may `panic` returns an `Outcome<T>` (`Returned` or `Panicked`).

`Strings` models the ASCII behaviour of `strings.ToLower`, `strings.ToUpper`
and `strings.TrimSpace`. `Strconv` models `strconv.Atoi` as an optional sign
followed by decimal digits, within the 64-bit range.

Two behaviours of the code are worth knowing before reading the model:

- `Register` does not refuse a name that is already tracked. It refuses only
  what the underlying registry refuses (metrics/collector.go:50-52). A
  different collector under a tracked name replaces the map entry
  (metrics/collector.go:54). The replaced collector stays registered with
  Prometheus, and no name reaches it any more (`Metrics.OverwriteOrphansOldCollector`).
- Every service-metadata field defaults to `"unknown-dev"`
  (metadata/service_info.go:9, 43-48).

## Model

| member | source | states |
|---|---|---|
| Strings.ToLower | internal/env.go:13 | `strings.ToLower` on ASCII: same length, and every character lowered |
| Strings.ToUpper | logging/config.go:29 | `strings.ToUpper` on ASCII: same length, and every character raised |
| Strings.CaseFolds | logging/config.go:29 | lowering after raising equals lowering, and raising after lowering equals raising, which is the basis of case-insensitive matching |
| Strings.TrimSpace | internal/env.go:13 | the result is s minus its leading and trailing white space, with no white space left at either end |
| Strings.TrimIsUnique | internal/env.go:13 | only one string is the trim of s |
| Strings.TrimKeepsUnpadded | internal/env.go:15 | a string with no white space at either end is its own trim |
| Strings.TrimIgnoresPadding | internal/env.go:13 | white space around s does not change its trim |
| Strings.TrimOfUpper | internal/env.go:13 | raising letters commutes with trimming |
| Strconv.Atoi | operational/config.go:19 | an accepted string is an optional sign followed by at least one digit and nothing else; its value is the digits' value under the sign, and it lies within 64 bits |
| Strconv.AtoiReadsNumeral | operational/config.go:19 | conversely, every numeral with no sign, '+' or '-', followed by digits, whose value fits in 64 bits, is accepted with that value |
| Strconv.AtoiLeadingZero | operational/config.go:19 | a leading zero is accepted and ignored, so "08080" reads as "8080" |
| Strconv.AtoiPlusSign | operational/config.go:19 | a '+' sign is accepted and ignored, so "+8080" reads as "8080" |
| Strconv.AtoiNegativeZero | operational/config.go:19 | "-0" reads as 0 |
| Strconv.FormatNat | operational/config.go:19 | the decimal numeral of n is all digits, evaluates back to n, and has no leading zero |
| Strconv.Itoa | operational/config.go:19 | a non-empty decimal numeral for any integer |
| Strconv.AtoiItoa | operational/config.go:19 | Atoi reads back every 64-bit integer that Itoa writes |
| Strconv.AtoiRejectsOverflow | operational/config.go:19 | a well-formed numeral above the 64-bit maximum is refused |
| Strconv.AtoiRejectsNonDigit | operational/config.go:19 | any character other than a leading sign or a digit makes the string invalid |
| Env.Getenv | internal/env.go:13 | a variable that is not set reads as "" and a set one reads as its value |
| Env.GetenvOrDefault | logging/config.go:43-48 | a non-empty value wins untrimmed, otherwise the default (the same helper appears at tracing/config.go:50-55 and operational/config.go:30-35) |
| Env.ParseBoolWord | internal/env.go:18-25 | true for exactly true/t/1/yes/y/on, false for exactly false/f/0/no/n/off, and anything else gives the error naming the variable and value together with false |
| Env.EnvBool | internal/env.go:12-26 | (true, no error) iff the chosen normalised spelling is a true word; (false, no error) iff it is a false word; otherwise an error and false |
| Env.MustEnvBool | internal/env.go:29-35 | returns EnvBool's boolean iff EnvBool has no error, and otherwise panics with EnvBool's error |
| Env.BoolWordsDisjoint | internal/env.go:19-22 | no spelling is both true and false |
| Env.NormalizeIgnoresCaseAndPadding | internal/env.go:13 | normalising s, its upper-case form, and s padded with white space gives the same result |
| Env.NormalizeBlank | internal/env.go:14 | the normalised value is blank exactly when the trimmed value is |
| Env.EnvBoolIgnoresCaseAndPadding | internal/env.go:13 | EnvBool gives the same result for s, upper(s) and s padded with white space |
| Env.EnvValueWins | internal/env.go:13-16 | a variable that is not blank decides alone, and the default is never consulted |
| Env.BlankVariableReadsDefault | internal/env.go:14-16 | a blank variable behaves as if it held the default |
| Env.UnsetReadsDefault | internal/env.go:13-16 | an unset variable parses the lowered default |
| Env.EnvBoolAcceptsUpperTrue | internal/env_test.go:13-24 | "TRUE" gives (true, no error) |
| Env.EnvBoolAcceptsUpperFalse | internal/env_test.go:26-37 | "OFF" gives (false, no error) |
| Env.EnvBoolRefusesMaybe | internal/env_test.go:39-42 | "maybe" gives false and an InvalidBool error naming the variable and "maybe" |
| Env.MustEnvBoolPanics | internal/env_test.go:70-76 | MustEnvBool panics with the InvalidBool error for "invalid" |
| Env.UnsetDefaultTrue | internal/env_test.go:64-68 | an unset variable with default "true" reads as (true, no error), so MustEnvBool returns true |
| Env.EnvBoolRefusesOtherDigit | internal/env.go:18-25 | "2" gives false and an InvalidBool error, because only the digits 0 and 1 are words |
| Status.WithReady | operational/status.go:31-33 | setting ready changes ready to the given value and leaves alive alone |
| Status.WithAlive | operational/status.go:36-38 | setting alive changes alive to the given value and leaves ready alone |
| Status.SettersIdempotent | operational/status.go:31-38 | setting a flag twice to the same value equals setting it once |
| Status.SettersCommute | operational/status.go:31-38 | SetReady and SetAlive commute because the flags are independent |
| Status.LastSetWins | operational/status.go:31-38 | a later set of a flag overrides an earlier one |
| Status.AllCombinationsReachable | operational/status.go:8-11 | every alive/ready combination can be reached from the initial state |
| Status.Status.constructor | operational/status.go:14-18 | a new status is alive and not ready |
| Status.Status.IsReady | operational/status.go:21-23 | returns the ready flag and changes nothing |
| Status.Status.IsAlive | operational/status.go:26-28 | returns the alive flag and changes nothing |
| Status.Status.SetReady | operational/status.go:31-33 | the new state is the old state with ready set, and alive is untouched |
| Status.Status.SetAlive | operational/status.go:36-38 | the new state is the old state with alive set, and ready is untouched |
| Status.ProbeCode | operational/server.go:97-111 | 200 iff the flag is up, and 503 iff it is down |
| Status.HandleHealth | operational/server.go:97-103 | /health answers 200 iff the status is alive |
| Status.HandleReady | operational/server.go:105-111 | /ready answers 200 iff the status is ready |
| Status.FreshStatusProbes | operational/server_test.go:72-105 | a fresh status answers /health with 200 and /ready with 503, and /ready with 200 after SetReady(true) |
| Metadata.GetEnvOrUnknown | metadata/service_info.go:43-48 | the variable if it is non-empty, otherwise "unknown-dev", so the result is never empty |
| Metadata.FromEnv | metadata/service_info.go:22-30 | each field comes from its own variable with the "unknown-dev" default |
| Metadata.AsMap | metadata/service_info.go:33-41 | exactly the five keys service_name, version, instance_id, commit_sha and build_time, each mapped to its field |
| Metadata.AsMapRoundTrip | metadata/service_info.go:33-41 | reading the five keys back reconstructs the record |
| Metadata.AsMapInjective | metadata/service_info.go:33-41 | distinct records give distinct maps |
| Metadata.FromEnvHasNoEmptyField | metadata/service_info.go:43-48 | no field produced by FromEnv is empty |
| Metadata.FromEmptyEnv | metadata/service_info_test.go:8-27 | with nothing set, every field is "unknown-dev" |
| Metadata.FieldsIndependent | metadata/service_info.go:24-28 | changing SERVICE_VERSION changes only the version field |
| Metadata.OtherVariablesIgnored | metadata/service_info.go:22-30 | variables other than the five are never read |
| Logging.LevelsOrdered | logging/config.go:30-37 | the four levels map to distinct `slog` values in the order Debug < Info < Warn < Error |
| Logging.ParseLogLevel | logging/config.go:28-41 | Debug, Warn and Error exactly for the upper-cased spellings DEBUG, WARN/WARNING and ERROR, and Info for everything else |
| Logging.FromEnv | logging/config.go:20-26 | returns iff both flags parse; the level comes from LOG_LEVEL (default INFO), and the flags come from EnvBool with default false |
| Logging.ParseLevelName | logging/config.go:30-37 | each level reads back from its canonical name |
| Logging.ParseLogLevelIgnoresCase | logging/config.go:29 | a lower-case spelling parses like the original |
| Logging.ParseLogLevelDoesNotTrim | logging/config.go:29 | a spelling that starts with white space is Info, so " DEBUG" is Info |
| Logging.ParseLogLevelLowerCase | logging/config_test.go:48-70 | "debug" gives Debug and "error" gives Error |
| Logging.ParseLogLevelWarning | logging/config_test.go:48-70 | "WARNING" gives Warn |
| Logging.ParseLogLevelUnknown | logging/config_test.go:48-70 | "INVALID" gives Info |
| Logging.FromEmptyEnv | logging/config_test.go:9-21 | with nothing set, the configuration is (Info, false, false) |
| Logging.DefaultLevelIsInfo | logging/config.go:22 | an unset or empty LOG_LEVEL gives Info |
| Logging.InvalidJsonFlagPanics | logging/config.go:23 | an invalid LOG_AS_JSON panics with that variable's error |
| Tracing.ParseExportType | tracing/config.go:37-48 | accepted exactly for stdout, http and grpc, with the input as the value; otherwise "" and InvalidExportType |
| Tracing.FromEnv | tracing/config.go:24-35 | success iff the type (default stdout) is a known one, and then the type is exactly that spelling; the endpoint is the raw variable; on error the config is zero |
| Tracing.ExportTypeRoundTrip | tracing/config.go:11-15 | every constant parses to itself, and only the constant's own spelling parses to it |
| Tracing.ExportTypeIsCaseSensitive | tracing/config.go:38-46 | "HTTP", "Stdout" and "invalid" are refused |
| Tracing.DefaultExportIsStdout | tracing/config.go:25 | an unset or empty TRACING_EXPORTER_TYPE gives stdout and the raw endpoint |
| Tracing.SetExportType | tracing/config.go:26-34 | a known type is used verbatim, and an unknown one gives the zero config and its error |
| OperationalConfig.Port | operational/config.go:17-22 | 42069 when unset or empty, the parsed integer when it parses, and 42069 otherwise |
| OperationalConfig.FromEnv | operational/config.go:16-28 | the host is OPERATIONAL_HOST if non-empty, otherwise 0.0.0.0, and the port is Port |
| OperationalConfig.FromEmptyEnv | operational/config_test.go:8-18 | with nothing set, the config is 0.0.0.0:42069 |
| OperationalConfig.PortTakesAnyInteger | operational/config.go:19-20 | any 64-bit integer written in decimal becomes the port, with no range check |
| OperationalConfig.PortFallsBack | operational/config.go:19-22 | a value that is not an integer silently gives 42069 |
| OperationalConfig.Port8080 | operational/config_test.go:20-37 | "8080" gives port 8080 |
| MetricsConfig.FromEnv | metrics/config.go:18-24 | returns iff both flags parse (default true); the prefix is the raw variable; an invalid METRICS_ENABLE_GO panics with its error |
| MetricsConfig.FromEmptyEnv | metrics/config_test.go:32-44 | with nothing set, both collectors are on and there is no prefix |
| MetricsConfig.PrefixIsRaw | metrics/config.go:22 | METRICS_PREFIX is used as it is, with no trimming or defaulting |
| Metrics.Builtins | metrics/collector.go:31-36 | the Go and process collectors are registered exactly when enabled |
| Metrics.Initial | metrics/collector.go:27-43 | the initial state is consistent, with only the enabled built-ins registered and nothing tracked |
| Metrics.Registered | metrics/collector.go:50-55 | name now tracks c and every other name is unchanged; c's identity is added to the registry |
| Metrics.Unregistered | metrics/collector.go:59-69 | name is untracked afterwards; if it was untracked, nothing changes; otherwise only its collector leaves the registry and other names keep their entries |
| Metrics.Cleared | metrics/collector.go:77-85 | nothing is tracked, and exactly the tracked collectors leave the registry |
| Metrics.ApplyPrefix | metrics/collector.go:168-172 | the visible name is prefix + name, and the name is unchanged when the prefix is empty |
| Metrics.ServiceInfoLabelNames | metrics/collector.go:122-129 | service, version, instance, then commit iff commitSHA is given, then build_time iff buildTime is given, with no duplicates |
| Metrics.ServiceInfoGauge | metrics/collector.go:118-154 | the "service_info" gauge; the label map has exactly the present keys with the given values; the value is 1 |
| Metrics.ServiceInfoLabelsMatchNames | metrics/collector.go:139-152 | the label map's keys are exactly the gauge's label names |
| Metrics.ServiceInfoGaugeFromServiceInfo | metrics/collector.go:157-165 | all five labels are present and carry the record's fields |
| Metrics.RegisterKeepsConsistent | metrics/collector.go:50-55 | a successful Register preserves the registry/tracking invariant |
| Metrics.RegisterKeepsDistinct | metrics/collector.go:50-55 | after a successful Register no two names track collectors of the same identity, because the registry refused any identity already tracked |
| Metrics.RegisterAddsOneId | metrics/collector.go:54 | Register adds at most the new collector's identity to the tracked identities |
| Metrics.UnregisterKeepsConsistent | metrics/collector.go:63-66 | Unregister preserves the invariant |
| Metrics.UnregisterDropsOneId | metrics/collector.go:63-66 | Unregistering a tracked name removes exactly its collector's identity from the tracked identities |
| Metrics.ClearStep | metrics/collector.go:80-83 | one iteration of Clear keeps the loop invariant: the registry is the old registry minus the identities already untracked |
| Metrics.ClearKeepsConsistent | metrics/collector.go:77-85 | Clear preserves the invariant, and the enabled built-ins stay registered |
| Metrics.RegisterTwiceRejected | metrics/collector_test.go:33-42 | registering the same collector a second time is refused |
| Metrics.RegisterThenUnregister | metrics/collector_test.go:44-47 | after a successful Register the name is tracked; Unregister removes it and restores the registry |
| Metrics.OverwriteOrphansOldCollector | metrics/collector.go:50-54 | a new collector under a tracked name replaces the entry; the old collector stays registered and untracked, and survives Clear |
| Metrics.UnregisterAfterClear | metrics/collector_test.go:55-72 | after Clear, nothing is tracked and Unregister of any name changes nothing |
| Metrics.UnregisterTouchesOnlyItsName | metrics/collector.go:59-69 | Unregister never touches another name's entry |
| Metrics.CreatedUnderOriginalName | metrics/collector.go:175-182 | a created metric is tracked under the unprefixed name and registered under the prefixed one |
| Metrics.MetricsCollector.WithConfig | metrics/collector.go:27-43 | a new collector keeps the config, registers the enabled built-ins and tracks nothing |
| Metrics.MetricsCollector.Register | metrics/collector.go:46-56 | error iff the registry refuses the collector, and then nothing changes; otherwise the new state is Registered |
| Metrics.MetricsCollector.Unregister | metrics/collector.go:59-69 | true iff name was tracked, and the new state is Unregistered |
| Metrics.MetricsCollector.Clear | metrics/collector.go:77-85 | the loop leaves the state Cleared of the old state and keeps the invariant |
| Metrics.MetricsCollector.IsRegistered | metrics/collector.go:88-94 | exactly membership of name in the tracking map |
| Metrics.MetricsCollector.Create | metrics/collector.go:175-182 | the visible name is prefixed, tracking uses the original name, and a refused registration leaves the state unchanged while the collector is still returned |
| Metrics.MetricsCollector.CreateCounterVec | metrics/collector.go:175-182 | as Create, for a counter vector |
| Metrics.MetricsCollector.CreateGaugeVec | metrics/collector.go:185-192 | as Create, for a gauge vector |
| Metrics.MetricsCollector.CreateHistogramVec | metrics/collector.go:195-202 | as Create, for a histogram vector |
| Metrics.MetricsCollector.CreateSummaryVec | metrics/collector.go:205-212 | as Create, for a summary vector |
| Metrics.MetricsCollector.CreateCounterFunc | metrics/collector.go:215-222 | as Create, for an unlabelled counter |
| Metrics.MetricsCollector.CreateGaugeFunc | metrics/collector.go:225-232 | as Create, for an unlabelled gauge |
| Metrics.MetricsCollector.CreateServiceInfoMetric | metrics/collector.go:97-104 | returns the service-info gauge and registers it under the fixed name "service_info", ignoring any error |
| Metrics.MetricsCollector.CreateServiceInfoMetricFromServiceInfo | metrics/collector.go:107-115 | as above, with all five fields supplied |
| Metrics.NewMetricsCollector | metrics/collector.go:22-24 | panics iff reading the metrics config from the environment panics, and then with the same InvalidBool cause; otherwise returns a fresh collector in its initial state |
| Metrics.RegisterUnregisterScenario | metrics/collector_test.go:23-53 | Register succeeds, the duplicate is refused, Unregister returns true, and Unregister of the never-registered "non_existent" returns false |

## Left out

- Concurrency: the `sync.RWMutex` of MetricsCollector and the `atomic.Bool` fields of Status are modelled as plain sequential state, one call at a time.
- Prometheus internals: descriptor validation, the real collision rules, metric values, GaugeVec children other than the one service-info child, and the `float64` callbacks of the `*Func` helpers. The registry is a set of identities. A metric's identity is its visible name, and the two built-ins each have their own identity.
- Metric options: only the metric name and the help text are modelled. `Namespace`, `Subsystem`, `ConstLabels` and the bucket and objective settings are not modelled.
- Metrics.ApplyPrefix: Go writes the prefixed name through a pointer into a copy of the options. The model returns the new name instead.
- Unicode: `strings.ToLower`, `strings.ToUpper` and `strings.TrimSpace` are modelled for ASCII letters and ASCII white space only.
- Strconv.Atoi: an optional sign and decimal digits within 64 bits. Go's error values and the clamped value returned on overflow are not modelled, because the caller discards both.
- Error texts: errors are datatype values that carry the variable and the value. The formatted `fmt.Errorf` messages are not modelled.
- operational/server.go: the listener, the HTTP mux, the background goroutine, `Start`, `Stop`, the /info and /metrics handlers and the URL rewriting are I/O and concurrency. Only the 200/503 choice is modelled.
- tracing/tracer.go and logging/logger.go: exporter construction, the global tracer provider, the propagator and the `slog` handler decoration are calls into libraries outside this model. The endpoint check for http/grpc therefore is not part of this model.
- The `Registry()` accessor (metrics/collector.go:72-74) only returns the underlying registry; its abstract content is `State().registry`.

