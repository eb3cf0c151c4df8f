/**
 * The metrics tracking registry of metrics/collector.go.
 *
 * A MetricsCollector keeps an underlying Prometheus registry and, beside it,
 * a map from caller-chosen names to the collectors registered through it.
 * The Prometheus registry is modelled as the set of identities it holds:
 * registering fails exactly when the collector's identity is already there.
 */
module Metrics {
  import opened Results
  import opened Env
  import opened MetricsConfig
  import Metadata

  datatype Kind = Counter | Gauge | Histogram | Summary

  /** Options common to every metric: the metric name and its help text. */
  datatype Opts = Opts(name: string, help: string)

  datatype Collector =
    | GoCollector
    | ProcessCollector
    | Metric(kind: Kind, fqName: string, help: string, labelNames: seq<string>)

  /** What the registry compares when it refuses a duplicate. */
  datatype Identity = GoRuntime | ProcessStats | Named(fqName: string)

  function Id(c: Collector): Identity {
    match c
    case GoCollector => GoRuntime
    case ProcessCollector => ProcessStats
    case Metric(_, fqName, _, _) => Named(fqName)
  }

  /** The registry and the tracking map together. */
  datatype CollectorState = CollectorState(registry: set<Identity>, metrics: map<string, Collector>)

  /** The built-in collectors a configuration enables. */
  function Builtins(config: MetricsConfig): (ids: set<Identity>)
    ensures GoRuntime in ids <==> config.enableGoCollector
    ensures ProcessStats in ids <==> config.enableProcessCollector
    ensures forall n :: Named(n) !in ids
  {
    (if config.enableGoCollector then {GoRuntime} else {}) +
    (if config.enableProcessCollector then {ProcessStats} else {})
  }

  /** Identities of the tracked collectors. */
  function TrackedIds(metrics: map<string, Collector>): (ids: set<Identity>)
    ensures forall n :: n in metrics ==> Id(metrics[n]) in ids
    ensures forall i :: i in ids ==> exists n :: n in metrics && Id(metrics[n]) == i
  {
    set n | n in metrics :: Id(metrics[n])
  }

  /**
   * What every reachable state satisfies: each tracked collector is in the
   * registry, no two names track collectors of the same identity, and the
   * enabled built-ins stay registered and untracked.
   */
  ghost predicate Consistent(config: MetricsConfig, st: CollectorState) {
    && (forall n :: n in st.metrics ==> Id(st.metrics[n]) in st.registry)
    && (forall n, m :: n in st.metrics && m in st.metrics && n != m ==> Id(st.metrics[n]) != Id(st.metrics[m]))
    && Builtins(config) <= st.registry
    && Builtins(config) !! TrackedIds(st.metrics)
  }

  /** State of `NewMetricsCollectorWithConfig`: the enabled built-ins, nothing tracked. */
  function Initial(config: MetricsConfig): (st: CollectorState)
    ensures Consistent(config, st)
    ensures st.metrics == map[]
  {
    CollectorState(Builtins(config), map[])
  }

  /** The underlying registry refuses a collector whose identity it already holds. */
  predicate Rejects(st: CollectorState, c: Collector) {
    Id(c) in st.registry
  }

  /** State after a successful `Register(name, c)`: nothing but `name` changes in the map. */
  function Registered(st: CollectorState, name: string, c: Collector): (st': CollectorState)
    ensures st'.metrics.Keys == st.metrics.Keys + {name}
    ensures st'.metrics[name] == c
    ensures forall n :: n in st.metrics && n != name ==> st'.metrics[n] == st.metrics[n]
    ensures st'.registry == st.registry + {Id(c)}
  {
    CollectorState(st.registry + {Id(c)}, st.metrics[name := c])
  }

  /** State after `Unregister(name)`. */
  function Unregistered(st: CollectorState, name: string): (st': CollectorState)
    ensures name !in st'.metrics
    ensures name !in st.metrics ==> st' == st
    ensures name in st.metrics ==> st'.registry == st.registry - {Id(st.metrics[name])}
    ensures forall n :: n != name ==> (n in st'.metrics <==> n in st.metrics)
    ensures forall n :: n in st'.metrics ==> st'.metrics[n] == st.metrics[n]
  {
    if name in st.metrics then CollectorState(st.registry - {Id(st.metrics[name])}, st.metrics - {name})
    else st
  }

  /** State after `Clear`: nothing tracked, and every tracked collector gone from the registry. */
  function Cleared(st: CollectorState): (st': CollectorState)
    ensures st'.metrics == map[]
    ensures st'.registry == st.registry - TrackedIds(st.metrics)
  {
    CollectorState(st.registry - TrackedIds(st.metrics), map[])
  }

  /** `applyPrefix`: the configured prefix is put in front of the name (nothing when it is empty). */
  function ApplyPrefix(prefix: string, name: string): (r: string)
    ensures r == prefix + name
    ensures prefix == "" ==> r == name
  {
    if prefix != "" then prefix + name else name
  }

  /** Result of the package-level `CreateServiceInfoMetric`: the gauge and its one child, set to 1. */
  datatype ServiceInfoMetric = ServiceInfoMetric(gauge: Collector, labels: map<string, string>, value: real)

  const ServiceInfoName: string := "service_info"
  const ServiceInfoHelp: string := "Service information and build metadata"

  /** The label names: service, version, instance, then commit and build_time when supplied. */
  function ServiceInfoLabelNames(commitSha: Option<string>, buildTime: Option<string>): (names: seq<string>)
    ensures |names| == 3 + (if commitSha.Some? then 1 else 0) + (if buildTime.Some? then 1 else 0)
    ensures names[..3] == ["service", "version", "instance"]
    ensures "commit" in names <==> commitSha.Some?
    ensures "build_time" in names <==> buildTime.Some?
    ensures commitSha.Some? ==> names[3] == "commit"
    ensures buildTime.Some? ==> names[|names| - 1] == "build_time"
    ensures forall i, j :: 0 <= i < j < |names| ==> names[i] != names[j]
  {
    var names := ["service", "version", "instance"];
    var names := if commitSha.Some? then names + ["commit"] else names;
    if buildTime.Some? then names + ["build_time"] else names
  }

  /** `CreateServiceInfoMetric`: the "service_info" gauge and its one child, labelled by the supplied values. */
  function ServiceInfoGauge(
    serviceName: string, serviceVersion: string, instanceId: string,
    commitSha: Option<string>, buildTime: Option<string>): (m: ServiceInfoMetric)
    ensures m.gauge == Metric(Gauge, ServiceInfoName, ServiceInfoHelp, ServiceInfoLabelNames(commitSha, buildTime))
    ensures m.labels.Keys == {"service", "version", "instance"}
      + (if commitSha.Some? then {"commit"} else {})
      + (if buildTime.Some? then {"build_time"} else {})
    ensures m.labels["service"] == serviceName && m.labels["version"] == serviceVersion
    ensures m.labels["instance"] == instanceId
    ensures commitSha.Some? ==> m.labels["commit"] == commitSha.value
    ensures buildTime.Some? ==> m.labels["build_time"] == buildTime.value
    ensures m.value == 1.0
  {
    var labels := map["service" := serviceName, "version" := serviceVersion, "instance" := instanceId];
    var labels := if commitSha.Some? then labels["commit" := commitSha.value] else labels;
    var labels := if buildTime.Some? then labels["build_time" := buildTime.value] else labels;
    ServiceInfoMetric(Metric(Gauge, ServiceInfoName, ServiceInfoHelp, ServiceInfoLabelNames(commitSha, buildTime)), labels, 1.0)
  }

  /**
   * The label map has exactly the gauge's label names as keys, so setting the
   * child with it cannot fail on a missing or extra label.
   */
  lemma ServiceInfoLabelsMatchNames(
    serviceName: string, serviceVersion: string, instanceId: string,
    commitSha: Option<string>, buildTime: Option<string>)
    ensures var m := ServiceInfoGauge(serviceName, serviceVersion, instanceId, commitSha, buildTime);
      forall l :: l in m.labels <==> l in m.gauge.labelNames
  {
    var m := ServiceInfoGauge(serviceName, serviceVersion, instanceId, commitSha, buildTime);
    var names := m.gauge.labelNames;
    var keys := {"service", "version", "instance"}
      + (if commitSha.Some? then {"commit"} else {})
      + (if buildTime.Some? then {"build_time"} else {});
    assert m.labels.Keys == keys;
    assert forall l :: l in names <==> l in keys;
  }

  /** `CreateServiceInfoMetricFromServiceInfo`: every field is supplied, so all five labels are present. */
  function ServiceInfoGaugeFromServiceInfo(si: Metadata.ServiceInfo): (m: ServiceInfoMetric)
    ensures m.gauge.Metric? && m.gauge.labelNames == ["service", "version", "instance", "commit", "build_time"]
    ensures m.labels == map["service" := si.name, "version" := si.version, "instance" := si.instanceId,
                            "commit" := si.commitSha, "build_time" := si.buildTime]
  {
    ServiceInfoGauge(si.name, si.version, si.instanceId, Some(si.commitSha), Some(si.buildTime))
  }

  // Properties of the registry operations.

  /** Register keeps the state consistent, whether it succeeds or not. */
  lemma {:induction false} RegisterKeepsConsistent(config: MetricsConfig, st: CollectorState, name: string, c: Collector)
    requires Consistent(config, st)
    requires !Rejects(st, c)
    ensures Consistent(config, Registered(st, name, c))
  {
    RegisterKeepsDistinct(config, st, name, c);
    RegisterAddsOneId(st, name, c);
    assert Id(c) !in Builtins(config);
  }

  /** After Register every tracked collector is registered, and no two names share an identity. */
  lemma RegisterKeepsDistinct(config: MetricsConfig, st: CollectorState, name: string, c: Collector)
    requires Consistent(config, st)
    requires !Rejects(st, c)
    ensures var st' := Registered(st, name, c);
      forall n, m :: n in st'.metrics && m in st'.metrics && n != m ==> Id(st'.metrics[n]) != Id(st'.metrics[m])
  {
    var st' := Registered(st, name, c);
    forall n, m | n in st'.metrics && m in st'.metrics && n != m
      ensures Id(st'.metrics[n]) != Id(st'.metrics[m])
    {
      if n == name {
        assert Id(st.metrics[m]) in st.registry;
      } else if m == name {
        assert Id(st.metrics[n]) in st.registry;
      }
    }
  }

  /** The identities tracked after Register are at most the old ones and the new collector's. */
  lemma RegisterAddsOneId(st: CollectorState, name: string, c: Collector)
    ensures TrackedIds(Registered(st, name, c).metrics) <= TrackedIds(st.metrics) + {Id(c)}
  {
    var st' := Registered(st, name, c);
    forall i | i in TrackedIds(st'.metrics) ensures i in TrackedIds(st.metrics) + {Id(c)} {
      var n :| n in st'.metrics && Id(st'.metrics[n]) == i;
      if n != name { assert n in st.metrics; }
    }
  }

  /** Unregister keeps the state consistent. */
  lemma {:induction false} UnregisterKeepsConsistent(config: MetricsConfig, st: CollectorState, name: string)
    requires Consistent(config, st)
    ensures Consistent(config, Unregistered(st, name))
  {
    var st' := Unregistered(st, name);
    if name in st.metrics {
      assert Id(st.metrics[name]) !in Builtins(config);
      forall i | i in TrackedIds(st'.metrics) ensures i in TrackedIds(st.metrics) {
        var n :| n in st'.metrics && Id(st'.metrics[n]) == i;
      }
    }
  }

  /** Unregistering a tracked name removes exactly its collector's identity from the tracked ones. */
  lemma {:induction false} UnregisterDropsOneId(config: MetricsConfig, st: CollectorState, name: string)
    requires Consistent(config, st) && name in st.metrics
    ensures Consistent(config, Unregistered(st, name))
    ensures TrackedIds(Unregistered(st, name).metrics) == TrackedIds(st.metrics) - {Id(st.metrics[name])}
  {
    UnregisterKeepsConsistent(config, st, name);
    var st' := Unregistered(st, name);
    forall i | i in TrackedIds(st.metrics) - {Id(st.metrics[name])} ensures i in TrackedIds(st'.metrics) {
      var n :| n in st.metrics && Id(st.metrics[n]) == i;
      assert n != name;
    }
  }

  /** One step of Clear: unregistering one tracked name keeps the loop's invariant. */
  lemma ClearStep(config: MetricsConfig, initial: CollectorState, st: CollectorState, name: string)
    requires Consistent(config, st) && name in st.metrics
    requires TrackedIds(st.metrics) <= TrackedIds(initial.metrics)
    requires st.registry == initial.registry - (TrackedIds(initial.metrics) - TrackedIds(st.metrics))
    ensures var st' := Unregistered(st, name);
      && Consistent(config, st')
      && TrackedIds(st'.metrics) <= TrackedIds(initial.metrics)
      && st'.registry == initial.registry - (TrackedIds(initial.metrics) - TrackedIds(st'.metrics))
  {
    UnregisterDropsOneId(config, st, name);
    var all, left, x := TrackedIds(initial.metrics), TrackedIds(st.metrics), Id(st.metrics[name]);
    assert (initial.registry - (all - left)) - {x} == initial.registry - (all - (left - {x}));
  }

  /** Clear keeps the state consistent, and the built-ins it never tracked stay registered. */
  lemma ClearKeepsConsistent(config: MetricsConfig, st: CollectorState)
    requires Consistent(config, st)
    ensures Consistent(config, Cleared(st))
    ensures Builtins(config) <= Cleared(st).registry
  {
  }

  /** Registering the same collector twice: the second attempt is refused (metrics/collector_test.go). */
  lemma RegisterTwiceRejected(st: CollectorState, name: string, c: Collector)
    requires !Rejects(st, c)
    ensures Rejects(Registered(st, name, c), c)
  {
  }

  /** A successful Register is seen by IsRegistered, and Unregister then removes it (metrics/collector_test.go). */
  lemma RegisterThenUnregister(config: MetricsConfig, st: CollectorState, name: string, c: Collector)
    requires Consistent(config, st)
    requires !Rejects(st, c)
    ensures var st' := Registered(st, name, c);
      && name in st'.metrics
      && Unregistered(st', name).registry == st.registry
      && name !in Unregistered(st', name).metrics
  {
  }

  /**
   * Register does not refuse a name that is already tracked: the new collector
   * replaces the old one in the map, while the old one stays in the registry.
   * No name tracks it any more, so neither Unregister nor Clear can remove it.
   */
  lemma {:induction false} OverwriteOrphansOldCollector(config: MetricsConfig, st: CollectorState, name: string, c: Collector)
    requires Consistent(config, st)
    requires name in st.metrics && !Rejects(st, c)
    ensures var st' := Registered(st, name, c);
      && st'.metrics[name] == c
      && Id(st.metrics[name]) in st'.registry
      && Id(st.metrics[name]) !in TrackedIds(st'.metrics)
      && Id(st.metrics[name]) in Cleared(st').registry
  {
    var old_ := st.metrics[name];
    var st' := Registered(st, name, c);
    assert Id(old_) != Id(c);
  }

  /** After Clear, Unregister of any name reports false and changes nothing (metrics/collector_test.go). */
  lemma UnregisterAfterClear(st: CollectorState, name: string)
    ensures name !in Cleared(st).metrics
    ensures Unregistered(Cleared(st), name) == Cleared(st)
  {
  }

  /** Unregister of a name that is not tracked changes nothing; of a tracked one, only that entry. */
  lemma UnregisterTouchesOnlyItsName(st: CollectorState, name: string, other: string)
    requires other != name
    ensures other in Unregistered(st, name).metrics <==> other in st.metrics
    ensures other in st.metrics ==> Unregistered(st, name).metrics[other] == st.metrics[other]
  {
  }

  /** A Create helper tracks its metric under the unprefixed name but exposes the prefixed one. */
  lemma CreatedUnderOriginalName(prefix: string, st: CollectorState, kind: Kind, opts: Opts, labelNames: seq<string>)
    requires !Rejects(st, Metric(kind, ApplyPrefix(prefix, opts.name), opts.help, labelNames))
    ensures var c := Metric(kind, ApplyPrefix(prefix, opts.name), opts.help, labelNames);
      && opts.name in Registered(st, opts.name, c).metrics
      && Named(prefix + opts.name) in Registered(st, opts.name, c).registry
  {
  }

  class MetricsCollector {
    const config: MetricsConfig
    var registry: set<Identity>
    var metrics: map<string, Collector>

    function State(): CollectorState
      reads this
    {
      CollectorState(registry, metrics)
    }

    ghost predicate Valid()
      reads this
    {
      Consistent(config, State())
    }

    /** `NewMetricsCollectorWithConfig`. */
    constructor WithConfig(config: MetricsConfig)
      ensures this.config == config
      ensures Valid() && State() == Initial(config)
    {
      this.config := config;
      registry := Builtins(config);
      metrics := map[];
    }

    /** `Register`: refused by the registry, or tracked under `name`, replacing what was there. */
    method Register(name: string, c: Collector) returns (err: Option<Error>)
      requires Valid()
      modifies this
      ensures Valid()
      ensures err.Some? <==> Rejects(old(State()), c)
      ensures err.Some? ==> err == Some(AlreadyRegistered) && State() == old(State())
      ensures err.None? ==> State() == Registered(old(State()), name, c)
    {
      if Id(c) in registry {
        return Some(AlreadyRegistered);
      }
      RegisterKeepsConsistent(config, State(), name, c);
      registry := registry + {Id(c)};
      metrics := metrics[name := c];
      err := None;
    }

    /** `Unregister`: true exactly when `name` was tracked. */
    method Unregister(name: string) returns (removed: bool)
      requires Valid()
      modifies this
      ensures Valid()
      ensures removed <==> name in old(State()).metrics
      ensures State() == Unregistered(old(State()), name)
    {
      UnregisterKeepsConsistent(config, State(), name);
      if name in metrics {
        var collector := metrics[name];
        registry := registry - {Id(collector)};
        metrics := metrics - {name};
        return true;
      }
      return false;
    }

    /** `Clear`: unregisters and forgets every tracked collector, one entry at a time. */
    method Clear()
      requires Valid()
      modifies this
      ensures Valid()
      ensures State() == Cleared(old(State()))
    {
      ghost var initial := State();
      while metrics != map[]
        invariant Valid()
        invariant TrackedIds(metrics) <= TrackedIds(initial.metrics)
        invariant registry == initial.registry - (TrackedIds(initial.metrics) - TrackedIds(metrics))
        decreases metrics.Keys
      {
        var name :| name in metrics;
        var collector := metrics[name];
        ClearStep(config, initial, State(), name);
        registry := registry - {Id(collector)};
        metrics := metrics - {name};
      }
      assert TrackedIds(metrics) == {};
    }

    /** `IsRegistered`: whether `name` is tracked. */
    function IsRegistered(name: string): (b: bool)
      reads this
      ensures b <==> name in State().metrics
    {
      name in metrics
    }

    /** The shared body of the Create helpers: prefix the visible name, track under the original, ignore the error. */
    method Create(kind: Kind, opts: Opts, labelNames: seq<string>) returns (c: Collector)
      requires Valid()
      modifies this
      ensures Valid()
      ensures c == Metric(kind, ApplyPrefix(config.metricPrefix, opts.name), opts.help, labelNames)
      ensures State() == if Rejects(old(State()), c) then old(State()) else Registered(old(State()), opts.name, c)
    {
      var originalName := opts.name;
      var visible := opts.(name := ApplyPrefix(config.metricPrefix, opts.name));
      c := Metric(kind, visible.name, visible.help, labelNames);
      var _ := Register(originalName, c);
    }

    method CreateCounterVec(opts: Opts, labelNames: seq<string>) returns (c: Collector)
      requires Valid()
      modifies this
      ensures Valid()
      ensures c == Metric(Counter, ApplyPrefix(config.metricPrefix, opts.name), opts.help, labelNames)
      ensures State() == if Rejects(old(State()), c) then old(State()) else Registered(old(State()), opts.name, c)
    {
      c := Create(Counter, opts, labelNames);
    }

    method CreateGaugeVec(opts: Opts, labelNames: seq<string>) returns (c: Collector)
      requires Valid()
      modifies this
      ensures Valid()
      ensures c == Metric(Gauge, ApplyPrefix(config.metricPrefix, opts.name), opts.help, labelNames)
      ensures State() == if Rejects(old(State()), c) then old(State()) else Registered(old(State()), opts.name, c)
    {
      c := Create(Gauge, opts, labelNames);
    }

    method CreateHistogramVec(opts: Opts, labelNames: seq<string>) returns (c: Collector)
      requires Valid()
      modifies this
      ensures Valid()
      ensures c == Metric(Histogram, ApplyPrefix(config.metricPrefix, opts.name), opts.help, labelNames)
      ensures State() == if Rejects(old(State()), c) then old(State()) else Registered(old(State()), opts.name, c)
    {
      c := Create(Histogram, opts, labelNames);
    }

    method CreateSummaryVec(opts: Opts, labelNames: seq<string>) returns (c: Collector)
      requires Valid()
      modifies this
      ensures Valid()
      ensures c == Metric(Summary, ApplyPrefix(config.metricPrefix, opts.name), opts.help, labelNames)
      ensures State() == if Rejects(old(State()), c) then old(State()) else Registered(old(State()), opts.name, c)
    {
      c := Create(Summary, opts, labelNames);
    }

    /** `CreateCounterFunc`: an unlabelled counter; its callback is not modelled. */
    method CreateCounterFunc(opts: Opts) returns (c: Collector)
      requires Valid()
      modifies this
      ensures Valid()
      ensures c == Metric(Counter, ApplyPrefix(config.metricPrefix, opts.name), opts.help, [])
      ensures State() == if Rejects(old(State()), c) then old(State()) else Registered(old(State()), opts.name, c)
    {
      c := Create(Counter, opts, []);
    }

    /** `CreateGaugeFunc`: an unlabelled gauge; its callback is not modelled. */
    method CreateGaugeFunc(opts: Opts) returns (c: Collector)
      requires Valid()
      modifies this
      ensures Valid()
      ensures c == Metric(Gauge, ApplyPrefix(config.metricPrefix, opts.name), opts.help, [])
      ensures State() == if Rejects(old(State()), c) then old(State()) else Registered(old(State()), opts.name, c)
    {
      c := Create(Gauge, opts, []);
    }

    /** The method `CreateServiceInfoMetric`: build the gauge, register it as "service_info", ignore the error. */
    method CreateServiceInfoMetric(
      serviceName: string, serviceVersion: string, instanceId: string,
      commitSha: Option<string>, buildTime: Option<string>) returns (m: ServiceInfoMetric)
      requires Valid()
      modifies this
      ensures Valid()
      ensures m == ServiceInfoGauge(serviceName, serviceVersion, instanceId, commitSha, buildTime)
      ensures State() == if Rejects(old(State()), m.gauge) then old(State())
                         else Registered(old(State()), ServiceInfoName, m.gauge)
    {
      m := ServiceInfoGauge(serviceName, serviceVersion, instanceId, commitSha, buildTime);
      var _ := Register(ServiceInfoName, m.gauge);
    }

    /** The method `CreateServiceInfoMetricFromServiceInfo`. */
    method CreateServiceInfoMetricFromServiceInfo(si: Metadata.ServiceInfo) returns (m: ServiceInfoMetric)
      requires Valid()
      modifies this
      ensures Valid()
      ensures m == ServiceInfoGaugeFromServiceInfo(si)
      ensures State() == if Rejects(old(State()), m.gauge) then old(State())
                         else Registered(old(State()), ServiceInfoName, m.gauge)
    {
      m := CreateServiceInfoMetric(si.name, si.version, si.instanceId, Some(si.commitSha), Some(si.buildTime));
    }
  }

  /** `NewMetricsCollector`: the configuration from the environment; panics with its error when that does. */
  method NewMetricsCollector(env: Environment) returns (r: Outcome<MetricsCollector>)
    ensures r.Panicked? <==> FromEnv(env).Panicked?
    ensures r.Panicked? ==> r.cause == FromEnv(env).cause
    ensures r.Returned? ==> fresh(r.value) && r.value.Valid() && r.value.config == FromEnv(env).value
    ensures r.Returned? ==> r.value.State() == Initial(r.value.config)
  {
    var outcome := FromEnv(env);
    if outcome.Panicked? {
      r := Panicked(outcome.cause);
    } else {
      var mc := new MetricsCollector.WithConfig(outcome.value);
      r := Returned(mc);
    }
  }

  /**
   * The collector_test.go scenario: register, refused duplicate, unregister,
   * and unregister of a name that was never registered.
   */
  method RegisterUnregisterScenario(config: MetricsConfig) returns (first: Option<Error>, second: Option<Error>, removed: bool, removedUnknown: bool)
    ensures first.None? && second == Some(AlreadyRegistered) && removed && !removedUnknown
  {
    var mc := new MetricsCollector.WithConfig(config);
    var counter := Metric(Counter, "test_counter", "A test counter", []);
    first := mc.Register("test_counter", counter);
    second := mc.Register("test_counter", counter);
    removed := mc.Unregister("test_counter");
    removedUnknown := mc.Unregister("non_existent");
  }
}
