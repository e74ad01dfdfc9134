/** How the server's publishes and the client's message handling fit
    together: a request the client builds comes back on the topic the
    client looks up, a price publish leaves the client holding the list,
    and the periodic clearing never changes what a client holds. */
module EndToEnd {
  import opened Wrappers
  import opened Text
  import opened SharedTypes
  import opened Mqtt
  import opened ClientState
  import opened MessageHandler
  import opened Publisher
  import opened Data
  import opened RequestHandler
  import opened Client

  /** The client's view after it has handled `ps`, in order. */
  function Deliver(v: ClientView, ps: seq<Publication>): ClientView
    decreases |ps|
  {
    if ps == [] then v
    else
      var last := ps[|ps| - 1];
      OnMessage(Deliver(v, ps[..|ps| - 1]), last.topic, last.body)
  }

  lemma {:induction false} DeliverAppend(v: ClientView, a: seq<Publication>, b: seq<Publication>)
    ensures Deliver(v, a + b) == Deliver(Deliver(v, a), b)
    decreases |b|
  {
    if b == [] {
      assert a + b == a;
    } else {
      var b0 := b[..|b| - 1];
      DeliverAppend(v, a, b0);
      assert (a + b)[..|a + b| - 1] == a + b0;
    }
  }

  /** A client handling the per-currency publishes changes nothing: they
      arrive on price topics, which it only logs. */
  lemma {:induction false} IndividualPlanInert(v: ClientView, data: seq<CryptoCurrency>, encodes: CryptoCurrency -> bool)
    ensures Deliver(v, IndividualPlan(data, encodes)) == v
    decreases |data|
  {
    if data != [] {
      var init := data[..|data| - 1];
      var last := data[|data| - 1];
      IndividualPlanInert(v, init, encodes);
      if encodes(last) {
        var prev := IndividualPlan(init, encodes);
        var p := Publication(PriceTopic(last.symbol), AtLeastOnce, true, Record(Currency(last)));
        assert IndividualPlan(data, encodes) == prev + [p];
        assert (prev + [p])[..|prev + [p]| - 1] == prev;
      } else {
        assert IndividualPlan(init, encodes) + [] == IndividualPlan(init, encodes);
      }
    }
  }

  /** After a price publish the client holds exactly the published list,
      and nothing else in its view has changed; a list that does not
      encode publishes nothing and changes nothing. */
  lemma PricePublishDelivered(v: ClientView, data: seq<CryptoCurrency>, encodes: CryptoCurrency -> bool)
    ensures ListEncodes(data, encodes) ==>
              Deliver(v, PricePlan(data, encodes)) == v.(latestPrices := Some(data))
    ensures !ListEncodes(data, encodes) ==> Deliver(v, PricePlan(data, encodes)) == v
  {
    if ListEncodes(data, encodes) {
      var head := Publication(LatestPricesTopic, AtLeastOnce, true, Record(PriceList(data)));
      DeliverAppend(v, [head], IndividualPlan(data, encodes));
      assert [head][..0] == [];
      IndividualPlanInert(v.(latestPrices := Some(data)), data, encodes);
    }
  }

  /** The message the broker retains on `topic` after `ps`: the last
      retained publish to it. */
  function RetainedOn(ps: seq<Publication>, topic: string): (r: Option<Publication>)
    ensures r.Some? ==> r.value.topic == topic && r.value.retain
    decreases |ps|
  {
    if ps == [] then None
    else if ps[|ps| - 1].topic == topic && ps[|ps| - 1].retain then Some(ps[|ps| - 1])
    else RetainedOn(ps[..|ps| - 1], topic)
  }

  predicate NamedLatest(data: seq<CryptoCurrency>) {
    exists i :: 0 <= i < |data| && data[i].symbol == "latest"
  }

  lemma {:induction false} RetainedAfterList(head: Publication, data: seq<CryptoCurrency>, encodes: CryptoCurrency -> bool)
    requires ListEncodes(data, encodes) && head.topic == LatestPricesTopic && head.retain
    ensures RetainedOn([head] + IndividualPlan(data, encodes), LatestPricesTopic).Some?
    ensures !NamedLatest(data) ==>
              RetainedOn([head] + IndividualPlan(data, encodes), LatestPricesTopic) == Some(head)
    ensures NamedLatest(data) ==>
              RetainedOn([head] + IndividualPlan(data, encodes), LatestPricesTopic).value.body.Record?
              && RetainedOn([head] + IndividualPlan(data, encodes), LatestPricesTopic).value.body.wire.Currency?
    decreases |data|
  {
    if data == [] {
      assert [head] + IndividualPlan(data, encodes) == [head];
      assert [head][..0] == [];
    } else {
      var init := data[..|data| - 1];
      var last := data[|data| - 1];
      assert ListEncodes(init, encodes);
      RetainedAfterList(head, init, encodes);
      var prev := [head] + IndividualPlan(init, encodes);
      var p := Publication(PriceTopic(last.symbol), AtLeastOnce, true, Record(Currency(last)));
      assert [head] + IndividualPlan(data, encodes) == prev + [p];
      assert (prev + [p])[..|prev + [p]| - 1] == prev;
      if last.symbol != "latest" {
        if NamedLatest(data) {
          var i :| 0 <= i < |data| && data[i].symbol == "latest";
          assert init[i] == data[i];
        }
        if NamedLatest(init) {
          var i :| 0 <= i < |init| && init[i].symbol == "latest";
          assert data[i] == init[i];
        }
      }
    }
  }

  /** What a client subscribing after a price publish receives on the
      latest topic: the list, unless some currency's symbol is "latest" —
      its own retained publish then replaces the list with a single
      currency, which the client cannot read as a list. */
  lemma LateSubscriberSeesList(data: seq<CryptoCurrency>, encodes: CryptoCurrency -> bool)
    requires ListEncodes(data, encodes)
    ensures RetainedOn(PricePlan(data, encodes), LatestPricesTopic).Some?
    ensures (DecodePriceList(RetainedOn(PricePlan(data, encodes), LatestPricesTopic).value.body) == Some(data))
              <==> !NamedLatest(data)
  {
    var head := Publication(LatestPricesTopic, AtLeastOnce, true, Record(PriceList(data)));
    RetainedAfterList(head, data, encodes);
  }

  /** A client's request for `symbol` and `timeframe` is dispatched as
      such, the answer the server publishes reaches the client's
      `crypto/historical/+/+` subscription, and it is stored under exactly
      the key the client's lookup uses. A symbol or timeframe holding '/'
      would put the answer on a topic the client does not receive, and one
      holding '+' or '#' cannot be published at all. */
  lemma HistoricalRequestRoundTrip(v: ClientView, symbol: string, timeframe: string,
                                   lookup: IdLookup, history: HistoryFetch)
    requires ':' !in symbol
    requires TopicLevel(symbol) && TopicLevel(timeframe)
    ensures ReceivedByHistoricalFilter(
              HistoricalPublication(symbol, timeframe, HistoricalResult(symbol, timeframe, lookup, history), true).value.topic)
    ensures OnRequestEvent(Publish(RequestTopic, Plain(symbol + ":" + timeframe))) == [Dispatched(symbol, timeframe)]
    ensures var result := HistoricalResult(symbol, timeframe, lookup, history);
            var p := HistoricalPublication(symbol, timeframe, result, true).value;
            Deliver(v, [p]).historicalData == v.historicalData[HistoricalKey(symbol, timeframe) := result]
            && Deliver(v, [p]).latestPrices == v.latestPrices
  {
    RequestRoundTrip(symbol, timeframe);
    UpperKeepsSeparator(symbol, '/');
    HistoricalTopicReceived(Upper(symbol), timeframe);
    var result := HistoricalResult(symbol, timeframe, lookup, history);
    var p := HistoricalPublication(symbol, timeframe, result, true).value;
    assert [p][..0] == [];
  }

  /** The publishes among clearing effects. */
  function ClearedPublications(es: seq<ClearEffect>): (ps: seq<Publication>)
    ensures |ps| <= |es|
    decreases |es|
  {
    if es == [] then []
    else
      ClearedPublications(es[..|es| - 1])
      + (match es[|es| - 1] case Cleared(p) => [p] case Paused(_) => [])
  }

  lemma {:induction false} EmptyRetainedInert(v: ClientView, es: seq<ClearEffect>)
    requires forall i :: 0 <= i < |es| && es[i].Cleared? ==> es[i].publication == EmptyRetained(es[i].publication.topic)
    ensures Deliver(v, ClearedPublications(es)) == v
    decreases |es|
  {
    if es != [] {
      var init := es[..|es| - 1];
      EmptyRetainedInert(v, init);
      var prev := ClearedPublications(init);
      match es[|es| - 1] {
        case Cleared(p) =>
          assert ClearedPublications(es) == prev + [p];
          assert (prev + [p])[..|prev + [p]| - 1] == prev;
        case Paused(_) =>
          assert prev + [] == prev;
      }
    }
  }

  /** A full clearing pass empties the broker's retained historical
      messages but leaves every client's view, its historical cache
      included, as it was. */
  lemma ClearingLeavesClientsUnchanged(v: ClientView)
    ensures Deliver(v, ClearedPublications(CyclePlan(|ClearTimeframes|))) == v
  {
    CyclePlanShape(|ClearTimeframes|);
    EmptyRetainedInert(v, CyclePlan(|ClearTimeframes|));
  }
}
