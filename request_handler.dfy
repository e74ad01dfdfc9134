/** The server's MQTT request handling (crates/server/src/mqtt/request_handler.rs):
    publishes on the request topic carry `SYMBOL:TIMEFRAME`; each valid
    request is fetched and, when the fetch succeeds, published as
    historical data. The event loop never ends; it is driven here by a
    finite run of events, and the spawned fetch tasks are described by
    `ServeRequest`. */
module RequestHandler {
  import opened Wrappers
  import opened Text
  import opened SharedTypes
  import opened Mqtt
  import opened Publisher
  import opened Data
  import opened Env

  /** `std::str::from_utf8(payload).unwrap_or("")`. */
  function RequestText(body: Body): (s: string)
    ensures body.Plain? ==> s == body.text
    ensures !body.Plain? ==> s == ""
  {
    match body
    case Plain(text) => text
    case NonUtf8 => ""
    case Record(_) => ""
  }

  /** `payload.split_once(':')`: symbol and timeframe around the first ':'.
      Empty parts are accepted. */
  function ParseRequest(payload: string): (r: Option<(string, string)>)
    ensures r.None? <==> ':' !in payload
    ensures r.Some? ==> payload == r.value.0 + ":" + r.value.1 && ':' !in r.value.0
  {
    SplitOnce(payload, ':')
  }

  /** The payload a client builds parses back into its symbol and
      timeframe, provided the symbol holds no ':'. */
  lemma RequestRoundTrip(symbol: string, timeframe: string)
    requires ':' !in symbol
    ensures ParseRequest(symbol + ":" + timeframe) == Some((symbol, timeframe))
  {
    SplitOnceJoin(symbol, ':', timeframe);
  }

  /** A symbol holding ':' is split at its own ':': "A:B" with "24h"
      becomes symbol "A" and timeframe "B:24h". */
  lemma ColonInSymbolMisparses()
    ensures ParseRequest("A:B" + ":" + "24h") == Some(("A", "B:24h"))
  {
    SplitOnceJoin("A", ':', "B:24h");
    assert "A:B" + ":" + "24h" == "A" + [':'] + "B:24h";
  }

  /** Payloads with an empty part or a second ':' still split, so the
      loop dispatches them; only a payload without ':' is turned away. */
  lemma MalformedLookingRequestsSplit()
    ensures ParseRequest("BTC:") == Some(("BTC", ""))
    ensures ParseRequest(":24h") == Some(("", "24h"))
    ensures ParseRequest("BTC:24h:extra") == Some(("BTC", "24h:extra"))
    ensures ParseRequest("BTC-24h").None? && ParseRequest("").None?
  {
    SplitOnceJoin("BTC", ':', "");
    assert "BTC:" == "BTC" + [':'] + "";
    SplitOnceJoin("", ':', "24h");
    assert ":24h" == "" + [':'] + "24h";
    SplitOnceJoin("BTC", ':', "24h:extra");
    assert "BTC:24h:extra" == "BTC" + [':'] + "24h:extra";
  }

  const SubscriberClientId: string := "crypto-server-subscriber"
  const DefaultSubscriberHost: string := "127.0.0.1"
  const DefaultSubscriberPort: nat := 1883

  /** The event client's broker: `MQTT_BROKER_HOST` or 127.0.0.1, and
      `MQTT_BROKER_PORT` when it parses as a u16, else 1883. */
  function SubscriberBroker(env: Environment): (b: (string, nat))
    ensures "MQTT_BROKER_HOST" !in env ==> b.0 == DefaultSubscriberHost
    ensures "MQTT_BROKER_HOST" in env ==> b.0 == env["MQTT_BROKER_HOST"]
    ensures b.1 <= 65535
    ensures "MQTT_BROKER_PORT" !in env ==> b.1 == DefaultSubscriberPort
    ensures "MQTT_BROKER_PORT" in env && ParseUnsigned(env["MQTT_BROKER_PORT"], 65535).Some? ==>
              b.1 == ParseUnsigned(env["MQTT_BROKER_PORT"], 65535).value
  {
    var host := Var(env, "MQTT_BROKER_HOST").UnwrapOr(DefaultSubscriberHost);
    var port :=
      match Var(env, "MQTT_BROKER_PORT")
      case None => DefaultSubscriberPort
      case Some(text) => ParseUnsigned(text, 65535).UnwrapOr(DefaultSubscriberPort);
    (host, port)
  }

  /** `setup_mqtt_request_handling`: subscribe the shared client, then the
      event client; the first failure is reported and the loop is not
      started. The subscription errors are inputs. */
  function SetupRequestHandling(sharedSubscribeError: Option<string>, eventSubscribeError: Option<string>)
    : (o: Outcome<string>)
    ensures o.Pass? <==> sharedSubscribeError.None? && eventSubscribeError.None?
    ensures sharedSubscribeError.Some? ==> o == Fail("Failed to subscribe to request topic: " + sharedSubscribeError.value)
    ensures sharedSubscribeError.None? && eventSubscribeError.Some? ==>
              o == Fail("Failed to subscribe to request topic: " + eventSubscribeError.value)
  {
    match sharedSubscribeError
    case Some(e) => Fail("Failed to subscribe to request topic: " + e)
    case None =>
      match eventSubscribeError
      case Some(e) => Fail("Failed to subscribe to request topic: " + e)
      case None => Pass
  }

  /** What the loop does with one event. */
  datatype RequestEffect =
    | Dispatched(symbol: string, timeframe: string)
    | Rejected(payload: string)
    | Backoff(seconds: nat)

  /** Only publishes on exactly the request topic are read; a readable
      request is dispatched, anything else rejected; a connection error
      waits 5 s; every other event is ignored. */
  function OnRequestEvent(e: Event): (effects: seq<RequestEffect>)
    ensures |effects| <= 1
    ensures e.Publish? && e.topic != RequestTopic ==> effects == []
    ensures (exists s, t :: effects == [Dispatched(s, t)]) <==>
              e.Publish? && e.topic == RequestTopic && ':' in RequestText(e.body)
    ensures e.ConnectionError? <==> effects == [Backoff(5)]
  {
    match e
    case Publish(topic, body) =>
      if topic == RequestTopic then
        var payload := RequestText(body);
        match ParseRequest(payload)
        case Some((symbol, timeframe)) => [Dispatched(symbol, timeframe)]
        case None => [Rejected(payload)]
      else []
    case ConnectionError => [Backoff(5)]
    case ConnAck => []
    case PingResp => []
    case Disconnect => []
    case OtherEvent => []
  }

  /** The effects of the first `k` events. */
  function RequestEffects(events: seq<Event>, k: nat): seq<RequestEffect>
    requires k <= |events|
  {
    if k == 0 then [] else RequestEffects(events, k - 1) + OnRequestEvent(events[k - 1])
  }

  /** The event loop spawned by `setup_mqtt_request_handling`. */
  method RequestLoop(events: seq<Event>) returns (effects: seq<RequestEffect>)
    ensures effects == RequestEffects(events, |events|)
  {
    effects := [];
    var k := 0;
    while k < |events|
      invariant 0 <= k <= |events|
      invariant effects == RequestEffects(events, k)
    {
      match events[k] {
        case Publish(topic, body) =>
          if topic == RequestTopic {
            var payload := RequestText(body);
            var parsed := ParseRequest(payload);
            if parsed.Some? {
              effects := effects + [Dispatched(parsed.value.0, parsed.value.1)];
            } else {
              effects := effects + [Rejected(payload)];
            }
          }
        case ConnectionError =>
          effects := effects + [Backoff(5)];
        case ConnAck =>
        case PingResp =>
        case Disconnect =>
        case OtherEvent =>
      }
      k := k + 1;
    }
  }

  /** The work spawned for a dispatched request: fetch, then publish the
      result only when it succeeded (and encodes). */
  method ServeRequest(symbol: string, timeframe: string, lookup: IdLookup, history: HistoryFetch, resultEncodes: bool)
    returns (result: HistoricalDataResult, published: Option<Publication>)
    ensures result == HistoricalResult(symbol, timeframe, lookup, history)
    ensures published.Some? <==> result.success && resultEncodes
    ensures published.Some? ==> published == HistoricalPublication(symbol, timeframe, result, true)
  {
    var request;
    result, request := FetchHistoricalDataServer(symbol, timeframe, lookup, history);
    published := None;
    if result.success {
      published := HistoricalPublication(symbol, timeframe, result, resultEncodes);
    }
  }
}
