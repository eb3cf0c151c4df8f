/** Service metadata read from the environment (metadata/service_info.go). */
module Metadata {
  import opened Env

  /** What a metadata field holds when its variable is unset or empty. */
  const UnknownValue: string := "unknown-dev"

  const ServiceNameVar: string := "SERVICE_NAME"
  const ServiceVersionVar: string := "SERVICE_VERSION"
  const InstanceIdVar: string := "INSTANCE_ID"
  const CommitShaVar: string := "COMMIT_SHA"
  const BuildTimeVar: string := "BUILD_TIME"

  datatype ServiceInfo = ServiceInfo(
    name: string,
    version: string,
    instanceId: string,
    commitSha: string,
    buildTime: string)

  /** `getEnvOrDefault(key)`: the variable when it is non-empty, "unknown-dev" otherwise. */
  function GetEnvOrUnknown(env: Environment, key: string): (v: string)
    ensures v != ""
    ensures Getenv(env, key) != "" ==> v == env[key]
    ensures Getenv(env, key) == "" ==> v == UnknownValue
  {
    GetenvOrDefault(env, key, UnknownValue)
  }

  /** `FromEnv`: each field from its own variable. */
  function FromEnv(env: Environment): (si: ServiceInfo)
    ensures si.name == GetEnvOrUnknown(env, ServiceNameVar)
    ensures si.version == GetEnvOrUnknown(env, ServiceVersionVar)
    ensures si.instanceId == GetEnvOrUnknown(env, InstanceIdVar)
    ensures si.commitSha == GetEnvOrUnknown(env, CommitShaVar)
    ensures si.buildTime == GetEnvOrUnknown(env, BuildTimeVar)
  {
    ServiceInfo(
      GetEnvOrUnknown(env, ServiceNameVar),
      GetEnvOrUnknown(env, ServiceVersionVar),
      GetEnvOrUnknown(env, InstanceIdVar),
      GetEnvOrUnknown(env, CommitShaVar),
      GetEnvOrUnknown(env, BuildTimeVar))
  }

  /** The keys of `AsMap`. */
  const MapKeys: set<string> := {"service_name", "version", "instance_id", "commit_sha", "build_time"}

  /** `AsMap`: the five fields under their label keys. */
  function AsMap(si: ServiceInfo): (m: map<string, string>)
    ensures m.Keys == MapKeys
    ensures |m| == 5
    ensures m["service_name"] == si.name && m["version"] == si.version
    ensures m["instance_id"] == si.instanceId && m["commit_sha"] == si.commitSha
    ensures m["build_time"] == si.buildTime
  {
    var m := map[
      "service_name" := si.name,
      "version" := si.version,
      "instance_id" := si.instanceId,
      "commit_sha" := si.commitSha,
      "build_time" := si.buildTime];
    assert m.Keys == MapKeys;
    m
  }

  /** Reads a ServiceInfo back from a map holding the five keys. */
  function FromMap(m: map<string, string>): ServiceInfo
    requires MapKeys <= m.Keys
  {
    ServiceInfo(m["service_name"], m["version"], m["instance_id"], m["commit_sha"], m["build_time"])
  }

  /** AsMap loses nothing: reading the five keys back gives the record. */
  lemma AsMapRoundTrip(si: ServiceInfo)
    ensures FromMap(AsMap(si)) == si
  {
  }

  /** Distinct records have distinct maps. */
  lemma AsMapInjective(a: ServiceInfo, b: ServiceInfo)
    requires AsMap(a) == AsMap(b)
    ensures a == b
  {
    AsMapRoundTrip(a);
    AsMapRoundTrip(b);
  }

  /** No field that FromEnv produces is empty. */
  lemma FromEnvHasNoEmptyField(env: Environment)
    ensures var si := FromEnv(env);
      si.name != "" && si.version != "" && si.instanceId != "" && si.commitSha != "" && si.buildTime != ""
  {
  }

  /** With nothing set, every field is "unknown-dev". */
  lemma FromEmptyEnv()
    ensures FromEnv(map[]) == ServiceInfo(UnknownValue, UnknownValue, UnknownValue, UnknownValue, UnknownValue)
  {
  }

  /**
   * Fields are defaulted independently: changing one variable changes only its
   * own field (here, SERVICE_VERSION changes only the version).
   */
  lemma FieldsIndependent(env: Environment, value: string)
    ensures FromEnv(env[ServiceVersionVar := value]) ==
            FromEnv(env).(version := if value != "" then value else UnknownValue)
  {
    var env' := env[ServiceVersionVar := value];
    assert Getenv(env', ServiceVersionVar) == value;
    assert Getenv(env', ServiceNameVar) == Getenv(env, ServiceNameVar);
    assert Getenv(env', InstanceIdVar) == Getenv(env, InstanceIdVar);
    assert Getenv(env', CommitShaVar) == Getenv(env, CommitShaVar);
    assert Getenv(env', BuildTimeVar) == Getenv(env, BuildTimeVar);
  }

  /** Variables other than the five are never read. */
  lemma OtherVariablesIgnored(env: Environment, key: string, value: string)
    requires key !in {ServiceNameVar, ServiceVersionVar, InstanceIdVar, CommitShaVar, BuildTimeVar}
    ensures FromEnv(env[key := value]) == FromEnv(env)
  {
    var env' := env[key := value];
    assert Getenv(env', ServiceNameVar) == Getenv(env, ServiceNameVar);
    assert Getenv(env', ServiceVersionVar) == Getenv(env, ServiceVersionVar);
    assert Getenv(env', InstanceIdVar) == Getenv(env, InstanceIdVar);
    assert Getenv(env', CommitShaVar) == Getenv(env, CommitShaVar);
    assert Getenv(env', BuildTimeVar) == Getenv(env, BuildTimeVar);
  }
}
