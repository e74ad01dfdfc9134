/** The C boundary of the client library (crates/ios_lib/src/ffi.rs): the
    calls the app makes, the JSON replies it receives as heap strings, and
    their release. A reply string is modelled by the record it encodes;
    a handle is the pointer the host receives. The waits of these calls
    are modelled by the events the background loop takes meanwhile. */
module Ffi {
  import opened Wrappers
  import ClientConfig
  import opened SharedTypes
  import opened Mqtt
  import opened Env
  import opened ClientState
  import opened Client
  import opened Globals

  /** `CryptoClientResult` of crates/ios_lib/src/types.rs. */
  datatype CryptoClientResult = CryptoClientResult(
    success: bool,
    data: Option<seq<CryptoCurrency>>,
    error: Option<string>,
    lastUpdated: Option<string>,
    cached: bool)

  /** The record a returned string encodes. */
  datatype Reply = Crypto(result: CryptoClientResult) | Historical(history: HistoricalDataResult)

  /** A `*mut c_char` as the host sees it. */
  datatype Handle = NullHandle | Ptr(address: nat)

  /** A price reply either carries data and no error, or an error and no
      data. */
  predicate CryptoConsistent(r: CryptoClientResult) {
    (r.success <==> r.data.Some?) && (r.success <==> r.error.None?)
  }

  /** `return_mqtt_error`: a failure with the message and nothing else. */
  function ReturnMqttError(msg: string): (r: CryptoClientResult)
    ensures CryptoConsistent(r) && !r.success && r.error == Some(msg)
    ensures r.lastUpdated.None? && !r.cached
  {
    CryptoClientResult(false, None, Some(msg), None, false)
  }

  /** A failed historical reply. The literal JSON replies carry no symbol or
      timeframe, which decode as absent. */
  function HistoricalFailure(msg: string, symbol: Option<string>, timeframe: Option<string>): (r: HistoricalDataResult)
    ensures WellFormedResult(r) && !r.success && r.error == Some(msg)
    ensures r.symbol == symbol && r.timeframe == timeframe
  {
    HistoricalDataResult(false, [], Some(msg), symbol, timeframe)
  }

  const InitFailedMessage: string := "Failed to initialize MQTT client"
  const NoPricesMessage: string := "MQTT connection failed or no data available"
  const NoHistoryMessage: string := "MQTT data not available after request - server may be busy"

  /** `get_crypto_data` polls every 100 ms and stops once more than 5000 ms
      have elapsed, so it sleeps at most 51 times. */
  const PollIntervalMs: nat := 100
  const ConnectTimeoutMs: nat := 5000
  const MaxWaitPolls: nat := 51

  /** What the wait in `get_crypto_data` waits for. */
  predicate Ready(v: ClientView) {
    v.isConnected || v.latestPrices.Some?
  }

  /** The events the background loop takes during sleep number `j`. */
  function Batch(arrivals: seq<seq<Event>>, j: nat): seq<Event> {
    if j < |arrivals| then arrivals[j] else []
  }

  /** The cells and the loop's liveness after `k` sleeps. */
  function Waited(v: ClientView, running: bool, arrivals: seq<seq<Event>>, k: nat): (r: (ClientView, bool))
    ensures r.0.priceUpdateCallback == v.priceUpdateCallback
    ensures r.1 ==> running
    decreases k
  {
    if k == 0 then (v, running)
    else
      var p := Waited(v, running, arrivals, k - 1);
      BackgroundStep(p.0, p.1, Batch(arrivals, k - 1))
  }

  /** The wait loop of `get_crypto_data`: check, give up after the timeout,
      otherwise sleep 100 ms while the background loop runs. */
  method WaitForConnection(client: MqttClient, arrivals: seq<seq<Event>>) returns (polls: nat)
    modifies client, client.cells
    ensures (client.cells.View(), client.eventLoopRunning) ==
            Waited(old(client.cells.View()), old(client.eventLoopRunning), arrivals, polls)
    ensures polls <= MaxWaitPolls
    ensures Ready(client.cells.View()) || polls == MaxWaitPolls
    ensures forall j :: 0 <= j < polls ==>
              !Ready(Waited(old(client.cells.View()), old(client.eventLoopRunning), arrivals, j).0)
  {
    ghost var v0 := client.cells.View();
    ghost var r0 := client.eventLoopRunning;
    polls := 0;
    while true
      invariant polls <= MaxWaitPolls
      invariant (client.cells.View(), client.eventLoopRunning) == Waited(v0, r0, arrivals, polls)
      invariant forall j :: 0 <= j < polls ==> !Ready(Waited(v0, r0, arrivals, j).0)
      decreases MaxWaitPolls - polls
    {
      if client.cells.isConnected || client.cells.latestPrices.Some? {
        break;
      }
      if polls * PollIntervalMs > ConnectTimeoutMs {
        break;
      }
      var _ := client.Poll(Batch(arrivals, polls));
      polls := polls + 1;
    }
  }

  /** What `get_historical_data` ends with once a client is in place. */
  datatype Lookup = Lookup(result: HistoricalDataResult, request: Option<Publication>, view: ClientView, running: bool)

  /** The second half of `get_historical_data`, on a client whose cells are
      `v`: a cache hit is the answer and nothing is sent; on a miss the
      request `symbol:timeframe` is published (unless the broker client
      fails), the background loop takes `afterRequest`, and the cache is
      read once more. */
  function LookupOrRequest(v: ClientView, running: bool, symbol: string, timeframe: string,
                           publishError: Option<string>, afterRequest: seq<Event>): (r: Lookup)
    ensures HistoricalKey(symbol, timeframe) in v.historicalData ==>
              r == Lookup(v.historicalData[HistoricalKey(symbol, timeframe)], None, v, running)
    ensures HistoricalKey(symbol, timeframe) !in v.historicalData ==>
              (r.request.Some? <==> publishError.None?)
              && (r.view, r.running) == BackgroundStep(v, running, afterRequest)
              && r.result == if HistoricalKey(symbol, timeframe) in r.view.historicalData
                             then r.view.historicalData[HistoricalKey(symbol, timeframe)]
                             else HistoricalFailure(NoHistoryMessage, Some(symbol), Some(timeframe))
    ensures r.request.Some? ==>
              r.request.value == Publication(RequestTopic, AtLeastOnce, false, Plain(symbol + ":" + timeframe))
  {
    var key := HistoricalKey(symbol, timeframe);
    if key in v.historicalData then Lookup(v.historicalData[key], None, v, running)
    else
      var request := if publishError.None?
                     then Some(Publication(RequestTopic, AtLeastOnce, false, Plain(symbol + ":" + timeframe)))
                     else None;
      var after := BackgroundStep(v, running, afterRequest);
      var result := if key in after.0.historicalData then after.0.historicalData[key]
                    else HistoricalFailure(NoHistoryMessage, Some(symbol), Some(timeframe));
      Lookup(result, request, after.0, after.1)
  }

  /** The second half of `get_historical_data` on the installed client. */
  method AnswerOrRequest(client: MqttClient, symbol: string, timeframe: string,
                         publishError: Option<string>, afterRequest: seq<Event>)
    returns (result: HistoricalDataResult, request: Option<Publication>)
    modifies client, client.cells
    ensures Lookup(result, request, client.cells.View(), client.eventLoopRunning) ==
            LookupOrRequest(old(client.cells.View()), old(client.eventLoopRunning),
                            symbol, timeframe, publishError, afterRequest)
  {
    var cached := client.GetHistoricalData(symbol, timeframe);
    if cached.Some? {
      return cached.value, None;
    }
    request := None;
    var sent, outcome := client.PublishMessage(RequestTopic, symbol + ":" + timeframe, publishError);
    if outcome.Pass? {
      request := Some(sent);
    }
    var _ := client.Poll(afterRequest);
    var retried := client.GetHistoricalData(symbol, timeframe);
    if retried.Some? {
      result := retried.value;
    } else {
      result := HistoricalFailure(NoHistoryMessage, Some(symbol), Some(timeframe));
    }
  }

  /** The global slot and the reply strings currently owned by the host. */
  class Boundary {
    const slot: ClientSlot
    var live: map<nat, Reply>
    var nextHandle: nat

    /** Every live string has an address below the next one handed out. */
    predicate Valid()
      reads this
    {
      forall a :: a in live ==> a < nextHandle
    }

    constructor (slot: ClientSlot)
      ensures this.slot == slot && live == map[] && Valid()
    {
      this.slot := slot;
      live := map[];
      nextHandle := 0;
    }

    /** `CString::into_raw`: hand a new string to the host. */
    method Allocate(reply: Reply) returns (h: Handle)
      requires Valid()
      modifies this`live, this`nextHandle
      ensures Valid()
      ensures h.Ptr? && h.address !in old(live)
      ensures live == old(live)[h.address := reply]
    {
      h := Ptr(nextHandle);
      live := live[nextHandle := reply];
      nextHandle := nextHandle + 1;
    }

    /** `free_string`: null is ignored; otherwise the string, which must have
        come from this library, is released. */
    method FreeString(h: Handle)
      requires Valid()
      requires h.Ptr? ==> h.address in live
      modifies this`live
      ensures Valid()
      ensures h.NullHandle? ==> live == old(live)
      ensures h.Ptr? ==> live == old(live) - {h.address}
    {
      if h.Ptr? {
        live := live - {h.address};
      }
    }

    /** `get_crypto_data`. Without a client it creates and installs one and
        waits (`arrivals`) until it is connected or has prices, or 5 s have
        passed; an existing client is used as it is. Then it answers with
        the cached prices, or with an error. `now` is the RFC 3339 time. */
    method GetCryptoData(runtimeError: Option<string>, env: Environment, envFile: Option<Environment>,
                         arrivals: seq<seq<Event>>, now: string)
      returns (h: Handle, ghost polls: nat)
      requires Valid()
      modifies this, slot, slot.logger, slot.Footprint()
      ensures Valid()
      ensures h.Ptr? && h.address !in old(live) && h.address in live
      ensures live == old(live)[h.address := live[h.address]]
      ensures live[h.address].Crypto? && CryptoConsistent(live[h.address].result)
      ensures old(slot.client).None? && runtimeError.Some? ==>
                slot.client.None? && live[h.address].result == ReturnMqttError(InitFailedMessage)
      ensures old(slot.client).Some? ==>
                slot.client == old(slot.client) && slot.client.value.cells.View() == old(slot.client.value.cells.View())
                && slot.client.value.eventLoopRunning == old(slot.client.value.eventLoopRunning)
      ensures old(slot.client).None? && runtimeError.None? ==>
                slot.client.Some? && fresh(slot.client.value) && polls <= MaxWaitPolls
                && (slot.client.value.cells.View(), slot.client.value.eventLoopRunning) ==
                   Waited(InitialView, true, arrivals, polls)
                && (Ready(slot.client.value.cells.View()) || polls == MaxWaitPolls)
      ensures slot.client.Some? ==>
                (live[h.address].result.success <==> slot.client.value.cells.latestPrices.Some?)
      ensures slot.client.Some? && slot.client.value.cells.latestPrices.Some? ==>
                live[h.address].result ==
                CryptoClientResult(true, slot.client.value.cells.latestPrices, None, Some(now), true)
      ensures slot.client.Some? && slot.client.value.cells.latestPrices.None? ==>
                live[h.address].result == ReturnMqttError(NoPricesMessage)
    {
      polls := 0;
      if slot.client.None? {
        var created := MqttClient.New(slot.logger, runtimeError, env, envFile);
        if created.Err? {
          h := Allocate(Crypto(ReturnMqttError(InitFailedMessage)));
          return;
        }
        var c := created.value;
        var _ := c.Connect();
        slot.client := Some(c);
        polls := WaitForConnection(c, arrivals);
      }
      var prices := slot.client.value.GetLatestPrices();
      if prices.Some? {
        h := Allocate(Crypto(CryptoClientResult(true, Some(prices.value), None, Some(now), true)));
      } else {
        h := Allocate(Crypto(ReturnMqttError(NoPricesMessage)));
      }
    }

    /** `get_historical_data`. `symbol` and `timeframe` are None when their
        bytes are not UTF-8. Without a connected client it installs a new
        one and waits 1 s (`afterConnect`); it answers from the cache, or
        else publishes `symbol:timeframe` on the request topic, waits 2 s
        (`afterRequest`) and looks again. `publishError` is the broker
        client's error, if any; `request` is the request it delivered. */
    method GetHistoricalData(symbol: Option<string>, timeframe: Option<string>,
                             runtimeError: Option<string>, env: Environment, envFile: Option<Environment>,
                             afterConnect: seq<Event>, publishError: Option<string>, afterRequest: seq<Event>)
      returns (h: Handle, request: Option<Publication>)
      requires Valid()
      modifies this, slot, slot.logger, slot.Footprint()
      ensures Valid()
      ensures h.Ptr? && h.address !in old(live) && h.address in live
      ensures live == old(live)[h.address := live[h.address]]
      ensures live[h.address].Historical?
      ensures symbol.None? ==>
                live[h.address].history == HistoricalFailure("Invalid symbol", None, None)
                && request.None? && slot.client == old(slot.client)
      ensures symbol.Some? && timeframe.None? ==>
                live[h.address].history == HistoricalFailure("Invalid timeframe", None, None)
                && request.None? && slot.client == old(slot.client)
      ensures symbol.Some? && timeframe.Some? && runtimeError.Some?
              && !(old(slot.client).Some? && old(slot.client.value.cells.isConnected)) ==>
                live[h.address].history == HistoricalFailure(InitFailedMessage, None, None) && request.None?
      ensures symbol.None? || timeframe.None? || (runtimeError.Some? && !(old(slot.client).Some? && old(slot.client.value.cells.isConnected))) ==>
                slot.client == old(slot.client)
                && (old(slot.client).Some? ==>
                      slot.client.value.cells.View() == old(slot.client.value.cells.View())
                      && slot.client.value.eventLoopRunning == old(slot.client.value.eventLoopRunning))
      ensures request.Some? ==>
                symbol.Some? && timeframe.Some? && publishError.None?
                && request.value == Publication(RequestTopic, AtLeastOnce, false, Plain(symbol.value + ":" + timeframe.value))
      ensures symbol.Some? && timeframe.Some? && old(slot.client).Some? && old(slot.client.value.cells.isConnected) ==>
                slot.client == old(slot.client)
                && var o := LookupOrRequest(old(slot.client.value.cells.View()), old(slot.client.value.eventLoopRunning),
                                            symbol.value, timeframe.value, publishError, afterRequest);
                live[h.address].history == o.result && request == o.request
                && slot.client.value.cells.View() == o.view && slot.client.value.eventLoopRunning == o.running
      ensures symbol.Some? && timeframe.Some? && runtimeError.Some?
              && !(old(slot.client).Some? && old(slot.client.value.cells.isConnected)) ==>
                slot.client == old(slot.client)
      ensures symbol.Some? && timeframe.Some? && runtimeError.None?
              && !(old(slot.client).Some? && old(slot.client.value.cells.isConnected)) ==>
                slot.client.Some? && fresh(slot.client.value) && fresh(slot.client.value.cells)
                && slot.client.value.manager.config == ClientConfig.Load(env, envFile).0
                && var start := BackgroundStep(InitialView, true, afterConnect);
                var o := LookupOrRequest(start.0, start.1, symbol.value, timeframe.value, publishError, afterRequest);
                live[h.address].history == o.result && request == o.request
                && slot.client.value.cells.View() == o.view && slot.client.value.eventLoopRunning == o.running
      ensures symbol.Some? && timeframe.Some?
              && (runtimeError.None? || (old(slot.client).Some? && old(slot.client.value.cells.isConnected))) ==>
                slot.client.Some? &&
                var key := HistoricalKey(symbol.value, timeframe.value);
                var cache := slot.client.value.cells.historicalData;
                (key in cache ==> live[h.address].history == cache[key])
                && (key !in cache ==>
                      live[h.address].history == HistoricalFailure(NoHistoryMessage, symbol, timeframe)
                      && (request.Some? <==> publishError.None?))
    {
      request := None;
      if symbol.None? {
        h := Allocate(Historical(HistoricalFailure("Invalid symbol", None, None)));
        return;
      }
      if timeframe.None? {
        h := Allocate(Historical(HistoricalFailure("Invalid timeframe", None, None)));
        return;
      }
      var s, tf := symbol.value, timeframe.value;
      var connected := slot.IsMqttConnected();
      if !connected {
        var created := MqttClient.New(slot.logger, runtimeError, env, envFile);
        if created.Err? {
          h := Allocate(Historical(HistoricalFailure(InitFailedMessage, None, None)));
          return;
        }
        var c := created.value;
        var _ := c.Connect();
        slot.client := Some(c);
        var _ := c.Poll(afterConnect);
      }
      var client := slot.client.value;
      var result;
      result, request := AnswerOrRequest(client, s, tf, publishError, afterRequest);
      h := Allocate(Historical(result));
    }

    /** `register_price_update_callback`: installs the callback on the
        current client; without a client it is dropped. */
    method RegisterPriceUpdateCallback(callback: Callback)
      modifies if slot.client.Some? then {slot.client.value.cells} else {}
      ensures slot.client.Some? ==>
                slot.client.value.cells.View() == old(slot.client.value.cells.View()).(priceUpdateCallback := Some(callback))
    {
      if slot.client.Some? {
        slot.client.value.SetPriceUpdateCallback(callback);
      }
    }
  }
}
