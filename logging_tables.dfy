/** The server logging configuration tables (src/config/logging.ts) and the
    selection by `NODE_ENV`. The remote service's URL and key are read from
    the environment and are parameters here. */
module LoggingTables {
  import opened Wrappers
  import LogConfig

  datatype Outputs = Outputs(console: bool, file: bool, remote: bool)
  datatype FileOptions = FileOptions(dir: string, maxSize: string, maxFiles: nat, compress: bool)
  datatype RemoteOptions = RemoteOptions(url: string, batchSize: nat, interval: nat, headers: map<string, string>)
  datatype Retention = Retention(days: nat, maxSize: string)

  /** The sampling and masking records have the same shape as the edge
      logger's. */
  datatype Config = Config(
    level: string,
    pretty: bool,
    enabled: bool,
    outputs: Outputs,
    fileOptions: Option<FileOptions>,
    remoteOptions: Option<RemoteOptions>,
    sampling: LogConfig.Sampling,
    masking: LogConfig.Masking,
    retention: Retention)

  /** The variables read: `NODE_ENV`, `LOG_SERVICE_URL`, `LOG_SERVICE_API_KEY`. */
  datatype Env = Env(nodeEnv: Option<string>, serviceUrl: Option<string>, serviceApiKey: Option<string>)

  /** `a || b` on an optional string. */
  function OrElse(a: Option<string>, fallback: string): string {
    if a.Some? && a.value != "" then a.value else fallback
  }

  const DevelopmentFields: seq<string> := ["password", "token", "apiKey", "secret", "credential"]

  /** `configurations` */
  function Configurations(env: Env): map<string, Config> {
    map[
      "development" := Config("debug", true, true, Outputs(true, true, false),
        Some(FileOptions("./logs", "10m", 5, false)), None,
        LogConfig.Sampling(false, 100), LogConfig.Masking(true, DevelopmentFields, "***"), Retention(7, "100m")),
      "test" := Config("info", false, true, Outputs(true, false, false), None, None,
        LogConfig.Sampling(false, 100), LogConfig.Masking(true, DevelopmentFields, "***"), Retention(1, "10m")),
      "production" := Config("info", false, true, Outputs(true, true, true),
        Some(FileOptions("/var/log/agc", "50m", 10, true)),
        Some(RemoteOptions(OrElse(env.serviceUrl, "https://logs.example.com/ingest"), 100, 10000,
          map["x-api-key" := OrElse(env.serviceApiKey, "")])),
        LogConfig.Sampling(true, 10),
        LogConfig.Masking(true, DevelopmentFields + ["ssn", "socialSecurityNumber", "creditCard", "cardNumber", "authToken", "authorization"], "***"),
        Retention(90, "5g"))]
  }

  /** `configurations[NODE_ENV || 'development'] || configurations.development` */
  function LoggingConfig(env: Env): (c: Config)
    ensures var name := if env.nodeEnv.Some? && env.nodeEnv.value != "" then env.nodeEnv.value else "development";
      c == if name in Configurations(env) then Configurations(env)[name] else Configurations(env)["development"]
  {
    var name := OrElse(env.nodeEnv, "development");
    var tables := Configurations(env);
    if name in tables then tables[name] else tables["development"]
  }

  /** An unset or unknown `NODE_ENV` selects the development table. */
  lemma UnknownIsDevelopment(env: Env)
    requires env.nodeEnv.None? || env.nodeEnv.value !in {"development", "test", "production"}
    ensures LoggingConfig(env) == Configurations(env)["development"]
    ensures LoggingConfig(env).level == "debug" && LoggingConfig(env).pretty
  {
  }

  /** The tables' invariants: file output comes with file options, remote
      output (production only) with remote options, only production samples,
      everything masks with `***`, and production masks development's fields. */
  lemma TableInvariants(env: Env)
    ensures var t := Configurations(env);
      forall name | name in t :: (t[name].outputs.file <==> t[name].fileOptions.Some?)
    ensures var t := Configurations(env);
      forall name | name in t :: (t[name].outputs.remote <==> name == "production") && (t[name].remoteOptions.Some? <==> name == "production")
    ensures var t := Configurations(env);
      forall name | name in t :: t[name].sampling.enabled <==> name == "production"
    ensures var t := Configurations(env);
      forall name | name in t :: t[name].masking.enabled && t[name].masking.maskChar == "***"
    ensures var t := Configurations(env);
      forall f | f in t["development"].masking.fields :: f in t["production"].masking.fields
  {
    assert Configurations(env).Keys == {"development", "test", "production"};
  }

  /** The selected table keeps the invariants, whatever the environment. */
  lemma SelectedConsistent(env: Env)
    ensures LoggingConfig(env).outputs.file <==> LoggingConfig(env).fileOptions.Some?
    ensures LoggingConfig(env).outputs.remote <==> LoggingConfig(env).remoteOptions.Some?
    ensures LoggingConfig(env).masking.enabled
  {
    TableInvariants(env);
  }
}
