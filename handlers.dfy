/** The HTTP handlers of the MQTT server (crates/server/src/handlers.rs). */
module Handlers {
  import opened Wrappers
  import opened Text
  import opened SharedTypes
  import opened Mqtt
  import opened ServerState
  import opened Publisher
  import opened Data

  /** `GET /api/crypto-prices`: reads the snapshot, changes nothing. */
  method GetPrices(state: AppState, now: Nanos) returns (r: ApiResponse)
    ensures r == PricesResponse(state.cache, state.lastFetch, now)
  {
    r := PricesResponse(state.cache, state.lastFetch, now);
  }

  /** The historical cache key: the symbol as given, not upper-cased,
      then ':' and the timeframe. */
  function HistoricalCacheKey(symbol: string, timeframe: string): (k: string)
    ensures |k| == |symbol| + 1 + |timeframe| && k[|symbol|] == ':'
    ensures k[..|symbol|] == symbol && k[|symbol| + 1..] == timeframe
  {
    symbol + ":" + timeframe
  }

  /** Two spellings of a symbol that differ only in case share an MQTT
      topic but not a cache entry. */
  lemma CacheKeyIsCaseSensitive(s1: string, s2: string, timeframe: string)
    requires s1 != s2 && Upper(s1) == Upper(s2)
    ensures HistoricalCacheKey(s1, timeframe) != HistoricalCacheKey(s2, timeframe)
    ensures HistoricalTopic(Upper(s1), timeframe) == HistoricalTopic(Upper(s2), timeframe)
  {
    assert |s1| == |s2|;
    assert HistoricalCacheKey(s1, timeframe)[..|s1|] == s1;
  }

  /** "btc" and "BTC" are two cache entries. */
  lemma CacheKeyExample()
    ensures HistoricalCacheKey("btc", "24h") != HistoricalCacheKey("BTC", "24h")
  {
    CacheKeyIsCaseSensitive("btc", "BTC", "24h");
  }

  /** `GET /api/historical/{symbol}?timeframe=`: fetch, always cache the
      result (failures too) under `symbol:timeframe` stamped `now`,
      publish it only on success, and answer with it unchanged. */
  method GetHistoricalData(state: AppState, symbol: string, timeframe: string,
                           lookup: IdLookup, history: HistoryFetch, resultEncodes: bool, now: Nanos)
    returns (result: HistoricalDataResult, published: Option<Publication>)
    modifies state`historicalCache
    ensures result == HistoricalResult(symbol, timeframe, lookup, history)
    ensures state.historicalCache == old(state.historicalCache)[HistoricalCacheKey(symbol, timeframe) := (result, now)]
    ensures published.Some? <==> result.success && resultEncodes
    ensures published.Some? ==> published == HistoricalPublication(symbol, timeframe, result, true)
  {
    var request;
    result, request := FetchHistoricalDataServer(symbol, timeframe, lookup, history);
    var key := symbol + ":" + timeframe;
    state.historicalCache := state.historicalCache[key := (result, now)];
    published := None;
    if result.success {
      published := HistoricalPublication(symbol, timeframe, result, resultEncodes);
    }
  }
}
