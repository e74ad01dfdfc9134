/** Routing of incoming publishes into the client's last-known-good caches
    (crates/ios_lib/src/mqtt/message_handler.rs). */
module MessageHandler {
  import opened Wrappers
  import opened SharedTypes
  import opened Mqtt
  import opened ClientState

  datatype Route = LatestPrices | HistoricalData | IndividualPrice | Unhandled

  /** The topic tests of `handle_message`, in their order. The exact latest
      topic is never taken for an individual price. */
  function RouteOf(topic: string): (r: Route)
    ensures r == LatestPrices <==> topic == LatestPricesTopic
    ensures r == HistoricalData <==> HistoricalPrefix <= topic
    ensures r == IndividualPrice <==> PricesPrefix <= topic && topic != LatestPricesTopic
    ensures r == Unhandled <==> !(PricesPrefix <= topic) && !(HistoricalPrefix <= topic)
  {
    assert HistoricalPrefix <= topic ==> topic[7] == 'h';
    assert PricesPrefix <= topic ==> topic[7] == 'p';
    if topic == LatestPricesTopic then LatestPrices
    else if HistoricalPrefix <= topic then HistoricalData
    else if PricesPrefix <= topic then IndividualPrice
    else Unhandled
  }

  /** The effect of one incoming publish on the cells. Only a price list on
      the exact latest topic, or a historical result under the historical
      prefix, changes anything; a body that does not decode changes nothing;
      connection state and the callback are never touched. */
  function OnMessage(v: ClientView, topic: string, body: Body): (r: ClientView)
    ensures r.isConnected == v.isConnected && r.connectionAttempts == v.connectionAttempts
    ensures r.priceUpdateCallback == v.priceUpdateCallback
    ensures v.historicalData.Keys <= r.historicalData.Keys
    ensures topic == LatestPricesTopic && DecodePriceList(body).Some? ==>
              r.latestPrices == DecodePriceList(body) && r.historicalData == v.historicalData
    ensures HistoricalPrefix <= topic && DecodeHistorical(body).Some? ==>
              r.latestPrices == v.latestPrices
              && r.historicalData == v.historicalData[topic := DecodeHistorical(body).value]
    ensures ((topic != LatestPricesTopic || DecodePriceList(body).None?)
             && (!(HistoricalPrefix <= topic) || DecodeHistorical(body).None?)) ==> r == v
  {
    match RouteOf(topic)
    case LatestPrices =>
      (match DecodePriceList(body)
       case Some(list) => v.(latestPrices := Some(list))
       case None => v)
    case HistoricalData =>
      (match DecodeHistorical(body)
       case Some(h) => v.(historicalData := v.historicalData[topic := h])
       case None => v)
    case IndividualPrice => v
    case Unhandled => v
  }

  /** A historical result stored under one topic leaves every other topic's
      entry as it was. */
  lemma OtherTopicsUnchanged(v: ClientView, topic: string, body: Body, other: string)
    requires other != topic
    ensures (other in OnMessage(v, topic, body).historicalData) == (other in v.historicalData)
    ensures other in v.historicalData ==>
              OnMessage(v, topic, body).historicalData[other] == v.historicalData[other]
  {
  }

  /** `MessageHandler`: holds the two cache cells it writes. */
  class MessageHandler {
    const cells: SharedState

    constructor (cells: SharedState)
      ensures this.cells == cells
    {
      this.cells := cells;
    }

    /** `handle_message`: route by topic. It writes only the two caches and
        never invokes the price-update callback. */
    method HandleMessage(topic: string, body: Body)
      modifies cells`latestPrices, cells`historicalData
      ensures cells.View() == OnMessage(old(cells.View()), topic, body)
    {
      var route := RouteOf(topic);
      match route
      case LatestPrices => HandleLatestPrices(body);
      case HistoricalData => HandleHistoricalData(topic, body);
      case IndividualPrice => var _ := HandleIndividualPrice(topic, body);
      case Unhandled =>
    }

    /** `handle_latest_prices`: a decoded list, even an empty one, replaces
        the whole cached list; a decode failure keeps the previous one. */
    method HandleLatestPrices(body: Body)
      modifies cells`latestPrices
      ensures DecodePriceList(body).Some? ==> cells.latestPrices == DecodePriceList(body)
      ensures DecodePriceList(body).None? ==> cells.latestPrices == old(cells.latestPrices)
    {
      var parsed := DecodePriceList(body);
      if parsed.Some? {
        cells.latestPrices := Some(parsed.value);
      }
    }

    /** `handle_historical_data`: a decoded result is inserted under the full
        topic, overwriting any earlier entry; a failure keeps the map. */
    method HandleHistoricalData(topic: string, body: Body)
      modifies cells`historicalData
      ensures DecodeHistorical(body).Some? ==>
                cells.historicalData == old(cells.historicalData)[topic := DecodeHistorical(body).value]
      ensures DecodeHistorical(body).None? ==> cells.historicalData == old(cells.historicalData)
    {
      var parsed := DecodeHistorical(body);
      if parsed.Some? {
        cells.historicalData := cells.historicalData[topic := parsed.value];
      }
    }

    /** `handle_individual_price`: decodes the currency for the log only and
        changes no state; returns what it decoded. */
    method HandleIndividualPrice(topic: string, body: Body) returns (logged: Option<CryptoCurrency>)
      ensures logged == DecodeCurrency(body)
    {
      logged := DecodeCurrency(body);
    }
  }
}
