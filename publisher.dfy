/** The server's publishes (crates/server/src/mqtt/publisher.rs). Encoding
    is abstracted by `encodes`, which says whether serde can write a
    currency; a list encodes exactly when every element does. A failed
    publish is only logged, so the publishes returned are the ones
    attempted, in order. */
module Publisher {
  import opened Wrappers
  import opened Text
  import opened SharedTypes
  import opened Mqtt

  predicate ListEncodes(data: seq<CryptoCurrency>, encodes: CryptoCurrency -> bool) {
    forall i :: 0 <= i < |data| ==> encodes(data[i])
  }

  /** The per-currency publishes, in list order, skipping a currency that
      does not encode. */
  function IndividualPlan(data: seq<CryptoCurrency>, encodes: CryptoCurrency -> bool): (plan: seq<Publication>)
    ensures |plan| <= |data|
    ensures forall k :: 0 <= k < |plan| ==>
              plan[k].qos == AtLeastOnce && plan[k].retain && plan[k].body.Record? && plan[k].body.wire.Currency?
              && plan[k].topic == PriceTopic(plan[k].body.wire.currency.symbol)
    decreases |data|
  {
    if data == [] then []
    else
      var last := data[|data| - 1];
      IndividualPlan(data[..|data| - 1], encodes)
      + (if encodes(last) then [Publication(PriceTopic(last.symbol), AtLeastOnce, true, Record(Currency(last)))] else [])
  }

  /** `publish_crypto_data_to_mqtt`: nothing when the list does not encode;
      otherwise the whole list on the latest topic, then each currency on
      its own topic, all QoS 1 and retained. */
  function PricePlan(data: seq<CryptoCurrency>, encodes: CryptoCurrency -> bool): (plan: seq<Publication>)
    ensures !ListEncodes(data, encodes) ==> plan == []
    ensures ListEncodes(data, encodes) ==>
              |plan| >= 1 && plan[0] == Publication(LatestPricesTopic, AtLeastOnce, true, Record(PriceList(data)))
  {
    if ListEncodes(data, encodes) then
      [Publication(LatestPricesTopic, AtLeastOnce, true, Record(PriceList(data)))] + IndividualPlan(data, encodes)
    else []
  }

  /** When every currency encodes, currency `i` is published `i + 1`-th on
      its own topic: one publish per currency, in order. */
  lemma {:induction false} IndividualPlanComplete(data: seq<CryptoCurrency>, encodes: CryptoCurrency -> bool)
    requires ListEncodes(data, encodes)
    ensures |IndividualPlan(data, encodes)| == |data|
    ensures forall i :: 0 <= i < |data| ==>
              IndividualPlan(data, encodes)[i] == Publication(PriceTopic(data[i].symbol), AtLeastOnce, true, Record(Currency(data[i])))
    decreases |data|
  {
    if data != [] {
      IndividualPlanComplete(data[..|data| - 1], encodes);
    }
  }

  /** Since the list only encodes when every element does, the per-currency
      skip never happens: a non-empty plan has exactly one publish per
      currency after the list. */
  lemma PricePlanShape(data: seq<CryptoCurrency>, encodes: CryptoCurrency -> bool)
    ensures PricePlan(data, encodes) != [] ==> |PricePlan(data, encodes)| == |data| + 1
    ensures PricePlan(data, encodes) != [] ==>
              forall i :: 0 <= i < |data| ==> PricePlan(data, encodes)[i + 1].topic == PriceTopic(data[i].symbol)
  {
    if ListEncodes(data, encodes) {
      IndividualPlanComplete(data, encodes);
    }
  }

  /** Extending the list by one currency extends the plan by its publish,
      if it encodes. */
  lemma IndividualPlanStep(data: seq<CryptoCurrency>, i: nat, encodes: CryptoCurrency -> bool)
    requires i < |data|
    ensures IndividualPlan(data[..i + 1], encodes) == IndividualPlan(data[..i], encodes)
              + (if encodes(data[i]) then [Publication(PriceTopic(data[i].symbol), AtLeastOnce, true, Record(Currency(data[i])))] else [])
  {
    assert data[..i + 1][..i] == data[..i];
  }

  /** The publishing loop of `publish_crypto_data_to_mqtt`. */
  method PublishCryptoDataToMqtt(data: seq<CryptoCurrency>, encodes: CryptoCurrency -> bool)
    returns (published: seq<Publication>)
    ensures published == PricePlan(data, encodes)
  {
    if !ListEncodes(data, encodes) {
      return [];
    }
    var head := Publication(LatestPricesTopic, AtLeastOnce, true, Record(PriceList(data)));
    published := [head];
    var i := 0;
    while i < |data|
      invariant 0 <= i <= |data|
      invariant published == [head] + IndividualPlan(data[..i], encodes)
    {
      IndividualPlanStep(data, i, encodes);
      var crypto := data[i];
      if encodes(crypto) {
        published := published + [Publication(PriceTopic(crypto.symbol), AtLeastOnce, true, Record(Currency(crypto)))];
      }
      i := i + 1;
    }
    assert data[..|data|] == data;
  }

  /** `publish_historical_data_to_mqtt`: one QoS 0, retained publish on the
      topic of the upper-cased symbol; nothing when the result does not
      encode. */
  function HistoricalPublication(symbol: string, timeframe: string, data: HistoricalDataResult, resultEncodes: bool)
    : (p: Option<Publication>)
    ensures p.None? <==> !resultEncodes
    ensures p.Some? ==> p.value.topic == HistoricalTopic(Upper(symbol), timeframe)
    ensures p.Some? ==> p.value.qos == AtMostOnce && p.value.retain
    ensures p.Some? ==> DecodeHistorical(p.value.body) == Some(data)
  {
    if resultEncodes then Some(Publication(HistoricalTopic(Upper(symbol), timeframe), AtMostOnce, true, Record(History(data))))
    else None
  }

  /** `publish_empty_retained_message`: an empty retained QoS 1 payload,
      which clears the broker's retained message and decodes as nothing. */
  function EmptyRetained(topic: string): (p: Publication)
    ensures p.topic == topic && p.qos == AtLeastOnce && p.retain
    ensures DecodeHistorical(p.body).None? && DecodePriceList(p.body).None? && DecodeCurrency(p.body).None?
  {
    Publication(topic, AtLeastOnce, true, Plain(""))
  }
}
