/** The publish/subscribe vocabulary both sides share: quality-of-service
    levels, topics, message bodies and the events a rumqttc event loop
    yields. JSON is abstracted: a body is either plain text, bytes that are
    not UTF-8, or the serde encoding of one of the shared records. */
module Mqtt {
  import opened Wrappers
  import opened SharedTypes

  datatype QoS = AtMostOnce | AtLeastOnce | ExactlyOnce

  /** A record as serde_json writes it onto the wire. */
  datatype Wire =
    | PriceList(prices: seq<CryptoCurrency>)
    | Currency(currency: CryptoCurrency)
    | History(result: HistoricalDataResult)

  /** A publish payload. `Plain("")` is the empty payload that clears a
      retained message. */
  datatype Body = Plain(text: string) | NonUtf8 | Record(wire: Wire)

  /** One outgoing publish: topic, QoS, retain flag and payload. */
  datatype Publication = Publication(topic: string, qos: QoS, retain: bool, body: Body)

  /** What `EventLoop::poll` yields; `ConnectionError` is its `Err` arm. */
  datatype Event =
    | ConnAck
    | PingResp
    | Publish(topic: string, body: Body)
    | Disconnect
    | OtherEvent
    | ConnectionError

  const LatestPricesTopic: string := "crypto/prices/latest"
  const PricesPrefix: string := "crypto/prices/"
  const HistoricalPrefix: string := "crypto/historical/"
  const HistoricalFilter: string := "crypto/historical/+/+"
  const RequestTopic: string := "crypto/requests/historical"

  /** `crypto/historical/{symbol}/{timeframe}`. Both the server's publisher
      and the client's lookup pass the symbol upper-cased. */
  function HistoricalTopic(symbol: string, timeframe: string): (t: string)
    ensures HistoricalPrefix <= t && |t| == |HistoricalPrefix| + |symbol| + 1 + |timeframe|
    ensures t != LatestPricesTopic && !(PricesPrefix <= t)
  {
    var t := HistoricalPrefix + symbol + "/" + timeframe;
    assert t[7] != PricesPrefix[7];
    t
  }

  /** The number of level separators '/' in a topic or part of one. */
  function Separators(s: string): (n: nat)
    ensures n == 0 <==> '/' !in s
    ensures n <= |s|
  {
    if s == [] then 0 else (if s[0] == '/' then 1 else 0) + Separators(s[1..])
  }

  lemma {:induction false} SeparatorsAppend(a: string, b: string)
    ensures Separators(a + b) == Separators(a) + Separators(b)
    decreases |a|
  {
    if a == [] {
      assert a + b == b;
    } else {
      assert (a + b)[0] == a[0] && (a + b)[1..] == a[1..] + b;
      SeparatorsAppend(a[1..], b);
    }
  }

  /** The topics the client's `crypto/historical/+/+` subscription
      receives: the prefix followed by exactly two levels, each of which
      the wildcard '+' matches whatever it holds, even nothing. */
  predicate ReceivedByHistoricalFilter(t: string) {
    HistoricalPrefix <= t && Separators(t[|HistoricalPrefix|..]) == 1
  }

  /** The answer for a symbol and timeframe reaches the client exactly
      when neither contains '/', which would add a level. */
  lemma HistoricalTopicReceived(symbol: string, timeframe: string)
    ensures ReceivedByHistoricalFilter(HistoricalTopic(symbol, timeframe)) <==> '/' !in symbol && '/' !in timeframe
  {
    var t := HistoricalTopic(symbol, timeframe);
    assert t[|HistoricalPrefix|..] == symbol + ("/" + timeframe);
    SeparatorsAppend(symbol, "/" + timeframe);
    SeparatorsAppend("/", timeframe);
    assert Separators("/") == 1 by {
      assert "/"[1..] == [];
    }
  }

  /** A text usable as one level of a topic name: no separator, and none of
      the wildcards '+' and '#', which MQTT forbids in the topic names of
      publishes. */
  predicate TopicLevel(s: string) {
    '/' !in s && '+' !in s && '#' !in s
  }

  /** `crypto/prices/{symbol}`, the per-currency topic. */
  function PriceTopic(symbol: string): (t: string)
    ensures PricesPrefix <= t && !(HistoricalPrefix <= t)
    ensures t == LatestPricesTopic <==> symbol == "latest"
  {
    var t := PricesPrefix + symbol;
    assert t[7] != HistoricalPrefix[7];
    assert t == LatestPricesTopic ==> t[|PricesPrefix|..] == symbol;
    t
  }

  /** `serde_json::from_str::<Vec<CryptoCurrency>>`: succeeds only on an
      encoded price list. */
  function DecodePriceList(b: Body): (r: Option<seq<CryptoCurrency>>)
    ensures r.Some? <==> b.Record? && b.wire.PriceList?
    ensures r.Some? ==> r.value == b.wire.prices
  {
    if b.Record? && b.wire.PriceList? then Some(b.wire.prices) else None
  }

  /** `serde_json::from_str::<HistoricalDataResult>`. */
  function DecodeHistorical(b: Body): (r: Option<HistoricalDataResult>)
    ensures r.Some? <==> b.Record? && b.wire.History?
    ensures r.Some? ==> r.value == b.wire.result
  {
    if b.Record? && b.wire.History? then Some(b.wire.result) else None
  }

  /** `serde_json::from_str::<CryptoCurrency>`. */
  function DecodeCurrency(b: Body): (r: Option<CryptoCurrency>)
    ensures r.Some? <==> b.Record? && b.wire.Currency?
    ensures r.Some? ==> r.value == b.wire.currency
  {
    if b.Record? && b.wire.Currency? then Some(b.wire.currency) else None
  }
}
