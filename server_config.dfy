/** The server's configuration (crates/server/src/config.rs): environment
    defaults and the logger set-up. */
module ServerConfig {
  import opened Wrappers
  import opened Text
  import opened Env
  import opened Logging

  const MaxPort: nat := 65535
  const MaxU64: nat := 0xFFFF_FFFF_FFFF_FFFF

  datatype ServerConfig = ServerConfig(
    apiKey: string,
    logLevel: string,
    mqttBrokerHost: string,
    mqttBrokerPort: nat,
    updateIntervalSeconds: nat)

  /** A variable parsed as an unsigned integer of at most `max`, or `default`
      when it is missing or does not parse. */
  function ParsedOr(v: Option<string>, max: nat, default: nat): (n: nat)
    requires default <= max
    ensures n <= max
    ensures v.None? ==> n == default
    ensures v.Some? ==> n == ParseUnsigned(v.value, max).UnwrapOr(default)
  {
    if v.None? then default else ParseUnsigned(v.value, max).UnwrapOr(default)
  }

  /** `ServerConfig::load`: `.env.server` (`envFile`) is loaded first without
      overriding variables already set, then each setting is read with its
      default. It always succeeds. */
  function Load(env: Environment, envFile: Option<Environment>): (cfg: ServerConfig)
    ensures cfg.mqttBrokerPort <= MaxPort && cfg.updateIntervalSeconds <= MaxU64
    ensures var e := if envFile.Some? then LoadFile(env, envFile.value) else env;
      && cfg.apiKey == Var(e, "CMC_API_KEY").UnwrapOr("YOUR_API_KEY_HERE")
      && cfg.logLevel == Var(e, "LOG_LEVEL").UnwrapOr("INFO")
      && cfg.mqttBrokerHost == Var(e, "MQTT_BROKER_HOST").UnwrapOr("0.0.0.0")
      && ("MQTT_BROKER_PORT" !in e ==> cfg.mqttBrokerPort == 1883)
      && ("UPDATE_INTERVAL_SECONDS" !in e ==> cfg.updateIntervalSeconds == 900)
    ensures "CMC_API_KEY" in env ==> cfg.apiKey == env["CMC_API_KEY"]
  {
    var e := if envFile.Some? then LoadFile(env, envFile.value) else env;
    ServerConfig(
      Var(e, "CMC_API_KEY").UnwrapOr("YOUR_API_KEY_HERE"),
      Var(e, "LOG_LEVEL").UnwrapOr("INFO"),
      Var(e, "MQTT_BROKER_HOST").UnwrapOr("0.0.0.0"),
      ParsedOr(Var(e, "MQTT_BROKER_PORT"), MaxPort, 1883),
      ParsedOr(Var(e, "UPDATE_INTERVAL_SECONDS"), MaxU64, 900))
  }

  /** The logger `setup_logging` builds: a base filter from the configured
      level, and per-module overrides. */
  datatype LoggerSetup = LoggerSetup(base: LevelFilter, moduleFilters: seq<(string, LevelFilter)>)

  /** `setup_logging`: the base level is chosen case-insensitively from the
      six names (anything else is Info); rumqttd's modules are always
      silenced and the publisher module is limited to warnings. */
  function SetupLogging(cfg: ServerConfig): (s: LoggerSetup)
    ensures s.base == LevelFilterFor(cfg.logLevel)
    ensures forall i :: 0 <= i < |s.moduleFilters| && s.moduleFilters[i].1 != Off ==>
              s.moduleFilters[i] == ("coin_crab_server::mqtt::publisher", Warn)
    ensures ("rumqttd", Off) in s.moduleFilters
  {
    LoggerSetup(LevelFilterFor(cfg.logLevel), [
      ("rumqttd", Off),
      ("rumqttd::router", Off),
      ("rumqttd::router::routing", Off),
      ("coin_crab_server::mqtt::publisher", Warn)])
  }
}
