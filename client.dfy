/** The client library's MQTT client (crates/ios_lib/src/mqtt/client.rs):
    the shared cells, the connection manager whose background loop feeds
    them, and the accessors the FFI layer calls. The background thread is
    modelled by `Poll`, which lets the loop take the events that arrived
    while the caller waited. */
module Client {
  import opened Wrappers
  import opened Text
  import opened SharedTypes
  import opened Mqtt
  import opened Env
  import opened ClientConfig
  import opened ClientState
  import opened Connection
  import Logging

  /** `max_retry_attempts`. */
  const MaxRetryAttempts: nat := 3

  /** The cache key `get_historical_data` looks up: the historical topic of
      the upper-cased symbol. */
  function HistoricalKey(symbol: string, timeframe: string): (k: string)
    ensures HistoricalPrefix <= k && k != LatestPricesTopic
  {
    HistoricalTopic(Upper(symbol), timeframe)
  }

  /** The lookup ignores the case of the symbol's letters. */
  lemma HistoricalKeyCaseInsensitive(symbol: string, timeframe: string)
    ensures HistoricalKey(Upper(symbol), timeframe) == HistoricalKey(symbol, timeframe)
  {
    UpperIdempotent(symbol);
  }

  /** `has_exceeded_max_retries` on a snapshot of the cells. */
  predicate Exceeded(v: ClientView) {
    v.connectionAttempts > MaxRetryAttempts
  }

  /** When the background loop gives up, the client reports that it has
      exceeded its retries. */
  lemma GivingUpImpliesExceeded(v: ClientView, events: seq<Event>)
    requires v.connectionAttempts <= MaxFailedAttempts
    ensures Run(v, events).gaveUp ==> Exceeded(Run(v, events).view)
  {
    AttemptsBounded(v, events);
  }

  /** What the background thread does with a batch of events: a running loop
      handles them and may give up; a loop that gave up never runs again. */
  function BackgroundStep(v: ClientView, running: bool, batch: seq<Event>): (r: (ClientView, bool))
    ensures r.1 ==> running
    ensures !running ==> r == (v, false)
    ensures r.0.priceUpdateCallback == v.priceUpdateCallback
    ensures v.historicalData.Keys <= r.0.historicalData.Keys
  {
    if running then
      var r := Run(v, batch);
      (r.view, !r.gaveUp)
    else (v, false)
  }

  /** `MQTTClient`. */
  class MqttClient {
    const cells: SharedState
    const manager: ConnectionManager
    const options: ClientOptions
    /** `max_retry_attempts`, fixed at 3 by `new`. */
    const maxRetryAttempts: nat := MaxRetryAttempts
    /** Whether the spawned event-loop thread is still polling. */
    var eventLoopRunning: bool

    /** The part of `MQTTClient::new` after the runtime exists: fresh cells,
        a manager for the configuration, and a started event loop. */
    constructor (config: Config)
      ensures fresh(cells) && cells.View() == InitialView
      ensures manager.config == config && options == manager.CreateClient()
      ensures maxRetryAttempts == MaxRetryAttempts && eventLoopRunning
    {
      var shared := new SharedState();
      var m := new ConnectionManager(config);
      cells := shared;
      manager := m;
      options := m.CreateClient();
      eventLoopRunning := true;
    }

    /** `MQTTClient::new`, with the logger installed by `try_init`: it
        first sets up logging (client.rs:32), which never fails that way,
        then fails only when the tokio runtime cannot be created
        (`runtimeError`); the configuration is loaded from `env` and the
        bundle's `.env.client`. Whether a logger was installed before has
        no effect on the result. */
    static method New(logger: Logging.GlobalLogger, runtimeError: Option<string>,
                      env: Environment, envFile: Option<Environment>)
      returns (r: Result<MqttClient, string>)
      modifies logger
      ensures logger.installed
      ensures r.Err? <==> runtimeError.Some?
      ensures r.Err? ==> r.error == "Failed to create runtime: " + runtimeError.value
      ensures r.Ok? ==> fresh(r.value) && fresh(r.value.cells) && r.value.cells.View() == InitialView
      ensures r.Ok? ==> r.value.manager.config == Load(env, envFile).0 && r.value.eventLoopRunning
      ensures r.Ok? ==> r.value.maxRetryAttempts == MaxRetryAttempts
    {
      var _ := logger.TryInit();
      if runtimeError.Some? {
        return Err("Failed to create runtime: " + runtimeError.value);
      }
      var config := Load(env, envFile).0;
      var client := new MqttClient(config);
      r := Ok(client);
    }

    /** `MQTTClient::new` as written: `init_logging` calls env_logger's
        `init`, which panics once a logger is installed. The result is None
        when the call panicked, and that happens exactly when an earlier
        construction in the process, successful or not, got past its first
        line. */
    static method NewAsWritten(logger: Logging.GlobalLogger, runtimeError: Option<string>,
                               env: Environment, envFile: Option<Environment>)
      returns (r: Option<Result<MqttClient, string>>)
      modifies logger
      ensures logger.installed
      ensures r.None? <==> old(logger.installed)
      ensures r.Some? ==> (r.value.Err? <==> runtimeError.Some?)
      ensures r.Some? && r.value.Ok? ==> fresh(r.value.value) && r.value.value.cells.View() == InitialView
    {
      var panicked := logger.Init();
      if panicked {
        return None;
      }
      var created := New(logger, runtimeError, env, envFile);
      r := Some(created);
    }

    /** The background thread handles the events that arrived meanwhile. */
    method Poll(batch: seq<Event>) returns (effects: seq<Effect>)
      modifies this`eventLoopRunning, cells
      ensures (cells.View(), eventLoopRunning) == BackgroundStep(old(cells.View()), old(eventLoopRunning), batch)
      ensures old(eventLoopRunning) ==> effects == Run(old(cells.View()), batch).effects
    {
      effects := [];
      if eventLoopRunning {
        var consumed, gaveUp;
        effects, consumed, gaveUp := manager.StartEventLoop(cells, batch);
        eventLoopRunning := !gaveUp;
      }
    }

    /** `connect`: the event loop connects by itself; always succeeds. */
    method Connect() returns (o: Outcome<string>)
      ensures o == Pass
    {
      o := Pass;
    }

    /** `get_latest_prices`: a copy of the latest cached list, if any. */
    method GetLatestPrices() returns (p: Option<seq<CryptoCurrency>>)
      ensures p == cells.latestPrices
    {
      p := cells.latestPrices;
    }

    /** `get_historical_data`: the result cached under the upper-cased
        symbol's topic, if any. */
    method GetHistoricalData(symbol: string, timeframe: string) returns (h: Option<HistoricalDataResult>)
      ensures h.Some? <==> HistoricalKey(symbol, timeframe) in cells.historicalData
      ensures h.Some? ==> h.value == cells.historicalData[HistoricalKey(symbol, timeframe)]
    {
      var topic := HistoricalTopic(Upper(symbol), timeframe);
      if topic in cells.historicalData {
        h := Some(cells.historicalData[topic]);
      } else {
        h := None;
      }
    }

    method IsConnected() returns (b: bool)
      ensures b == cells.isConnected
    {
      b := cells.isConnected;
    }

    method GetConnectionAttempts() returns (n: nat)
      ensures n == cells.connectionAttempts
    {
      n := cells.connectionAttempts;
    }

    /** `reset_connection_attempts`: only the counter changes. */
    method ResetConnectionAttempts()
      modifies cells`connectionAttempts
      ensures cells.View() == old(cells.View()).(connectionAttempts := 0)
    {
      cells.connectionAttempts := 0;
    }

    /** `has_exceeded_max_retries`: strictly more failures than allowed. */
    method HasExceededMaxRetries() returns (b: bool)
      ensures b <==> Exceeded(cells.View())
    {
      b := cells.connectionAttempts > maxRetryAttempts;
    }

    /** `publish_message`: a QoS 1, non-retained publish of the payload;
        `transportError` is the error the broker client reports, if any. */
    method PublishMessage(topic: string, payload: string, transportError: Option<string>)
      returns (sent: Publication, o: Outcome<string>)
      ensures sent.topic == topic && sent.body == Plain(payload)
      ensures sent.qos == AtLeastOnce && !sent.retain
      ensures o.Pass? <==> transportError.None?
      ensures o.Fail? ==> o.error == "Failed to publish: " + transportError.value
    {
      sent := Publication(topic, AtLeastOnce, false, Plain(payload));
      if transportError.Some? {
        o := Fail("Failed to publish: " + transportError.value);
      } else {
        o := Pass;
      }
    }

    /** `set_price_update_callback`: replaces any earlier callback. */
    method SetPriceUpdateCallback(callback: Callback)
      modifies cells`priceUpdateCallback
      ensures cells.View() == old(cells.View()).(priceUpdateCallback := Some(callback))
    {
      cells.priceUpdateCallback := Some(callback);
    }

    /** `trigger_price_update_callback`: calls the registered callback once
        with a null context; does nothing without one. */
    method TriggerPriceUpdateCallback() returns (calls: seq<CallbackCall>)
      ensures cells.priceUpdateCallback.None? <==> calls == []
      ensures cells.priceUpdateCallback.Some? ==> calls == [CallbackCall(cells.priceUpdateCallback.value, Null)]
    {
      calls := [];
      if cells.priceUpdateCallback.Some? {
        calls := [CallbackCall(cells.priceUpdateCallback.value, Null)];
      }
    }
  }
}
