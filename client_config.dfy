/** The client library's configuration (crates/ios_lib/src/config.rs):
    environment defaults and the broker address. */
module ClientConfig {
  import opened Wrappers
  import opened Text
  import opened Env

  const DefaultBrokerHost: string := "100.26.107.175"
  const DefaultBrokerPort: nat := 1883
  const MaxPort: nat := 65535

  datatype Config = Config(brokerHost: string, brokerPort: nat, enableDebugLogging: bool, logLevel: string)

  /** `MQTT_BROKER_PORT` parsed as a `u16`; missing or unparsable gives 1883. */
  function BrokerPortFrom(v: Option<string>): (port: nat)
    ensures port <= MaxPort
    ensures v.None? ==> port == DefaultBrokerPort
    ensures v.Some? && ParseUnsigned(v.value, MaxPort).None? ==> port == DefaultBrokerPort
    ensures v.Some? && ParseUnsigned(v.value, MaxPort).Some? ==> port == ParseUnsigned(v.value, MaxPort).value
  {
    match v
    case None => DefaultBrokerPort
    case Some(s) => ParseUnsigned(s, MaxPort).UnwrapOr(DefaultBrokerPort)
  }

  /** `ENABLE_DEBUG_LOGGING`: true when absent, otherwise true exactly when
      its lower-cased value is "true". */
  function DebugFlagFrom(v: Option<string>): (on: bool)
    ensures on <==> v.None? || Lower(v.value) == "true"
  {
    match v
    case None => true
    case Some(s) => Lower(s) == "true"
  }

  /** `Config::load`. It first sets ENABLE_DEBUG_LOGGING=true and
      LOG_LEVEL=DEBUG, then loads the bundle's `.env.client` (`envFile`,
      None when absent or unreadable), which cannot override those two,
      then reads the four settings. It never fails. Returns the config and
      the environment it leaves behind. */
  function Load(env: Environment, envFile: Option<Environment>): (r: (Config, Environment))
    ensures r.0.enableDebugLogging && r.0.logLevel == "DEBUG"
    ensures r.0.brokerPort <= MaxPort
    ensures "MQTT_BROKER_HOST" !in env && (envFile.None? || "MQTT_BROKER_HOST" !in envFile.value)
            ==> r.0.brokerHost == DefaultBrokerHost
    ensures "MQTT_BROKER_HOST" in env ==> r.0.brokerHost == env["MQTT_BROKER_HOST"]
    ensures "MQTT_BROKER_PORT" !in r.1 ==> r.0.brokerPort == DefaultBrokerPort
    ensures Var(r.1, "ENABLE_DEBUG_LOGGING") == Some("true") && Var(r.1, "LOG_LEVEL") == Some("DEBUG")
  {
    var preset := env["ENABLE_DEBUG_LOGGING" := "true"]["LOG_LEVEL" := "DEBUG"];
    var loaded := if envFile.Some? then LoadFile(preset, envFile.value) else preset;
    var cfg := Config(
      Var(loaded, "MQTT_BROKER_HOST").UnwrapOr(DefaultBrokerHost),
      BrokerPortFrom(Var(loaded, "MQTT_BROKER_PORT")),
      DebugFlagFrom(Var(loaded, "ENABLE_DEBUG_LOGGING")),
      Var(loaded, "LOG_LEVEL").UnwrapOr("DEBUG"));
    assert Lower("true") == "true";
    (cfg, loaded)
  }

  /** `broker_address`: "host:port". */
  function BrokerAddress(cfg: Config): (addr: string)
    ensures |addr| > |cfg.brokerHost| + 1
    ensures addr[..|cfg.brokerHost|] == cfg.brokerHost && addr[|cfg.brokerHost|] == ':'
  {
    cfg.brokerHost + ":" + NatToString(cfg.brokerPort)
  }

  /** For a host without ':', the address splits back into the host and a
      port text that parses to the configured port. */
  lemma BrokerAddressRoundTrip(cfg: Config)
    requires ':' !in cfg.brokerHost && cfg.brokerPort <= MaxPort
    ensures SplitOnce(BrokerAddress(cfg), ':') == Some((cfg.brokerHost, NatToString(cfg.brokerPort)))
    ensures ParseUnsigned(NatToString(cfg.brokerPort), MaxPort) == Some(cfg.brokerPort)
  {
    SplitOnceJoin(cfg.brokerHost, ':', NatToString(cfg.brokerPort));
    ParseNatToString(cfg.brokerPort, MaxPort);
  }
}
