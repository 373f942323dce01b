/** The edge logger's configuration (src/lib/logger/config.ts): a table per
    environment and the selection with the environment-variable overrides.
    Sampling rates are kept as whole percentages. */
module LogConfig {
  import opened Wrappers
  import opened Strings

  datatype Sampling = Sampling(enabled: bool, ratePercent: nat)
  datatype Masking = Masking(enabled: bool, fields: seq<string>, maskChar: string)
  datatype Config = Config(level: string, enabled: bool, sampling: Sampling, masking: Masking)

  const BaseMaskedFields: seq<string> := ["password", "token", "apiKey", "secret", "authorization"]

  /** `configurations` */
  const Configurations: map<string, Config> := map[
    "development" := Config("debug", true, Sampling(false, 100), Masking(true, BaseMaskedFields, "***")),
    "test" := Config("info", true, Sampling(false, 100), Masking(true, BaseMaskedFields, "***")),
    "production" := Config("info", true, Sampling(true, 25),
      Masking(true, BaseMaskedFields + ["credentials", "accessToken", "refreshToken"], "***"))]

  /** The variables read: `NEXT_PUBLIC_NODE_ENV`, `NEXT_PUBLIC_LOG_LEVEL` and
      `NEXT_PUBLIC_LOGGING_ENABLED`. */
  datatype Env = Env(nodeEnv: Option<string>, logLevel: Option<string>, loggingEnabled: Option<string>)

  /** `process.env.NEXT_PUBLIC_NODE_ENV || 'development'` */
  function EnvName(env: Env): (name: string)
    ensures env.nodeEnv.Some? && env.nodeEnv.value != "" ==> name == env.nodeEnv.value
    ensures env.nodeEnv.None? || env.nodeEnv.value == "" ==> name == "development"
  {
    if env.nodeEnv.Some? && env.nodeEnv.value != "" then env.nodeEnv.value else "development"
  }

  /** `loggingConfig` */
  function LoggingConfig(env: Env): (c: Config)
    ensures var name := EnvName(env);
      var table := if name in Configurations then Configurations[name] else Configurations["development"];
      c.sampling == table.sampling && c.masking == table.masking
    ensures c.enabled <==> env.loggingEnabled != Some("false")
  {
    var name := EnvName(env);
    var table := if name in Configurations then Configurations[name] else Configurations["development"];
    var level :=
      if env.logLevel.Some? && env.logLevel.value != "" then env.logLevel.value
      else if name in Configurations && Configurations[name].level != "" then Configurations[name].level
      else "info";
    table.(level := level, enabled := env.loggingEnabled != Some("false"))
  }

  /** Only `NEXT_PUBLIC_NODE_ENV=production` samples (a quarter) and masks the
      three extra token fields; any other setting, unset and unknown names
      included, samples nothing and masks the five base fields. */
  lemma TableSelection(env: Env)
    ensures LoggingConfig(env).sampling.enabled <==> env.nodeEnv == Some("production")
    ensures env.nodeEnv == Some("production") ==>
      LoggingConfig(env).sampling.ratePercent == 25 &&
      LoggingConfig(env).masking.fields == BaseMaskedFields + ["credentials", "accessToken", "refreshToken"]
    ensures env.nodeEnv != Some("production") ==>
      LoggingConfig(env).sampling == Sampling(false, 100) && LoggingConfig(env).masking.fields == BaseMaskedFields
    ensures LoggingConfig(env).masking.enabled && LoggingConfig(env).masking.maskChar == "***"
  {
  }

  /** The level is the override if set, else the environment's level, else
      `info`; an unknown environment does not inherit development's `debug`. */
  lemma LevelSelection(env: Env)
    ensures env.logLevel.Some? && env.logLevel.value != "" ==> LoggingConfig(env).level == env.logLevel.value
    ensures (env.logLevel.None? || env.logLevel.value == "") && EnvName(env) in Configurations ==>
      LoggingConfig(env).level == Configurations[EnvName(env)].level
    ensures (env.logLevel.None? || env.logLevel.value == "") && EnvName(env) !in Configurations ==>
      LoggingConfig(env).level == "info" != Configurations["development"].level
  {
  }

  /** Only production samples; every environment masks with `***`, and
      production masks at least development's fields. */
  lemma TableInvariants()
    ensures forall name | name in Configurations :: Configurations[name].sampling.enabled <==> name == "production"
    ensures forall name | name in Configurations ::
      Configurations[name].masking.enabled && Configurations[name].masking.maskChar == "***"
    ensures forall f | f in Configurations["development"].masking.fields :: f in Configurations["production"].masking.fields
    ensures forall name | name in Configurations :: Configurations[name].sampling.ratePercent <= 100
  {
    assert Configurations.Keys == {"development", "test", "production"};
  }

  /** Whatever the environment, the selected configuration masks and
      samples only where production's table does. */
  lemma SelectedMasks(env: Env)
    ensures LoggingConfig(env).masking.enabled && LoggingConfig(env).masking.maskChar == "***"
    ensures LoggingConfig(env).sampling.enabled <==> EnvName(env) == "production"
  {
    TableInvariants();
  }
}
