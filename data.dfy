/** The server's data layer (crates/server/src/data.rs): the listings
    fetch loop, the retained-message clearing cycle, the historical fetch
    and its result, and the symbol-to-id mapping. HTTP exchanges are
    inputs describing their outcome; RFC 3339 parsing is an input field. */
module Data {
  import opened Wrappers
  import opened Text
  import opened SharedTypes
  import opened Mqtt
  import opened ServerState
  import opened Publisher

  /** The part of the API key the fetch loop logs: its first eight
      characters, or all of a shorter key. */
  function ApiKeyPrefix(key: string): (p: string)
    ensures |p| == Min(8, |key|) && p <= key
  {
    key[..Min(8, |key|)]
  }

  /** The publishes of one tick: the price plan after a successful fetch. */
  function TickPublications(o: ListingFetch, encodes: CryptoCurrency -> bool): (ps: seq<Publication>)
    ensures !Succeeds(o) ==> ps == []
  {
    if Succeeds(o) then PricePlan(o.parsed.value, encodes) else []
  }

  /** All publishes of the first `k` ticks, in order. */
  function PublishedOver(ticks: seq<Tick>, encodes: CryptoCurrency -> bool, k: nat): seq<Publication>
    requires k <= |ticks|
  {
    if k == 0 then [] else PublishedOver(ticks, encodes, k - 1) + TickPublications(ticks[k - 1].outcome, encodes)
  }

  /** One pass of the fetch loop's body. */
  method FetchOnce(state: AppState, t: Tick, encodes: CryptoCurrency -> bool) returns (pubs: seq<Publication>)
    modifies state`cache, state`lastFetch
    ensures state.Snap() == FetchTick(old(state.Snap()), t.outcome, t.clock)
    ensures pubs == TickPublications(t.outcome, encodes)
  {
    pubs := [];
    match t.outcome {
      case Response(status, parsed) =>
        if IsSuccess(status) && parsed.Some? {
          state.cache := Some(parsed.value);
          state.lastFetch := t.clock;
          pubs := PublishCryptoDataToMqtt(parsed.value, encodes);
        }
      case NetworkError(_) =>
    }
  }

  /** `fetch_data_periodically` over a finite run of ticks, each with the
      outcome of its request and the clock reading taken after the
      response. A successful tick replaces the snapshot, stamped with that
      reading, and publishes the listing; nothing else changes the
      snapshot. The period must be positive: `tokio::time::interval`
      panics on zero. */
  method FetchDataPeriodically(state: AppState, ticks: seq<Tick>, encodes: CryptoCurrency -> bool)
    returns (published: seq<Publication>)
    requires state.updateIntervalSeconds > 0
    modifies state`cache, state`lastFetch
    ensures state.Snap() == Fetched(old(state.Snap()), ticks, |ticks|)
    ensures published == PublishedOver(ticks, encodes, |ticks|)
  {
    ghost var s0 := state.Snap();
    published := [];
    var k := 0;
    while k < |ticks|
      invariant 0 <= k <= |ticks|
      invariant state.Snap() == Fetched(s0, ticks, k)
      invariant published == PublishedOver(ticks, encodes, k)
    {
      var pubs := FetchOnce(state, ticks[k], encodes);
      published := published + pubs;
      k := k + 1;
    }
  }

  /** The timeframes and symbols whose retained messages are cleared. */
  const ClearTimeframes: seq<string> := ["1h", "24h", "7d", "30d", "90d", "365d"]
  const ClearSymbols: seq<string> := ["BTC", "ETH", "ADA", "SOL", "DOT", "MATIC", "LINK", "XRP", "LTC", "BCH"]
  const ClearStartDelaySeconds: nat := 300

  /** The pause after clearing one timeframe. */
  function ClearIntervalFor(timeframe: string): (secs: nat)
    ensures secs in {300, 3600, 7200, 21600, 86400}
    ensures timeframe !in ClearTimeframes ==> secs == 3600
  {
    match timeframe
    case "1h" => 300
    case "24h" => 3600
    case "7d" => 7200
    case "30d" => 21600
    case "90d" => 86400
    case "365d" => 86400
    case _ => 3600
  }

  datatype ClearEffect = Cleared(publication: Publication) | Paused(seconds: nat)

  /** Clearing one timeframe: an empty retained message on each symbol's
      topic, then the pause. */
  function TimeframeClearing(timeframe: string): (es: seq<ClearEffect>)
    ensures |es| == |ClearSymbols| + 1
    ensures es[|ClearSymbols|] == Paused(ClearIntervalFor(timeframe))
  {
    seq(|ClearSymbols|, i requires 0 <= i < |ClearSymbols| => Cleared(EmptyRetained(HistoricalTopic(ClearSymbols[i], timeframe))))
    + [Paused(ClearIntervalFor(timeframe))]
  }

  /** The effects of clearing the first `k` timeframes. */
  function CyclePlan(k: nat): seq<ClearEffect>
    requires k <= |ClearTimeframes|
  {
    if k == 0 then [] else CyclePlan(k - 1) + TimeframeClearing(ClearTimeframes[k - 1])
  }

  function Repeat(s: seq<ClearEffect>, n: nat): seq<ClearEffect> {
    if n == 0 then [] else Repeat(s, n - 1) + s
  }

  /** The first `k` timeframes clear `10 * k` topics and pause `k` times;
      every cleared topic is a historical topic and gets an empty retained
      payload. */
  lemma {:induction false} CyclePlanShape(k: nat)
    requires k <= |ClearTimeframes|
    ensures |CyclePlan(k)| == (|ClearSymbols| + 1) * k
    ensures forall i :: 0 <= i < |CyclePlan(k)| && CyclePlan(k)[i].Cleared? ==>
              HistoricalPrefix <= CyclePlan(k)[i].publication.topic
              && CyclePlan(k)[i].publication == EmptyRetained(CyclePlan(k)[i].publication.topic)
  {
    if k > 0 {
      CyclePlanShape(k - 1);
      var prev: seq<ClearEffect> := CyclePlan(k - 1);
      var t: seq<ClearEffect> := TimeframeClearing(ClearTimeframes[k - 1]);
      var all: seq<ClearEffect> := prev + t;
      forall i | 0 <= i < |all| && all[i].Cleared?
        ensures HistoricalPrefix <= all[i].publication.topic
        ensures all[i].publication == EmptyRetained(all[i].publication.topic)
      {
        if i >= |prev| {
          assert all[i] == t[i - |prev|];
        }
      }
    }
  }

  /** The inner loop: clear every symbol's topic for one timeframe, then
      pause. */
  method ClearTimeframe(timeframe: string) returns (effects: seq<ClearEffect>)
    ensures effects == TimeframeClearing(timeframe)
  {
    effects := [];
    var i := 0;
    while i < |ClearSymbols|
      invariant 0 <= i <= |ClearSymbols|
      invariant effects == seq(i, j requires 0 <= j < i => Cleared(EmptyRetained(HistoricalTopic(ClearSymbols[j], timeframe))))
    {
      var topic := HistoricalPrefix + ClearSymbols[i] + "/" + timeframe;
      effects := effects + [Cleared(EmptyRetained(topic))];
      i := i + 1;
    }
    effects := effects + [Paused(ClearIntervalFor(timeframe))];
  }

  /** One pass of the outer loop: the six timeframes in order. */
  method ClearCycle() returns (effects: seq<ClearEffect>)
    ensures effects == CyclePlan(|ClearTimeframes|)
  {
    effects := [];
    var k := 0;
    while k < |ClearTimeframes|
      invariant k <= |ClearTimeframes|
      invariant effects == CyclePlan(k)
    {
      var part := ClearTimeframe(ClearTimeframes[k]);
      effects := effects + part;
      k := k + 1;
    }
  }

  /** `clear_mqtt_cache_periodically`, for `cycles` passes of its endless
      loop: a 300 s start delay, then the six timeframes in order, again
      and again. */
  method ClearMqttCachePeriodically(cycles: nat) returns (effects: seq<ClearEffect>)
    ensures effects == [Paused(ClearStartDelaySeconds)] + Repeat(CyclePlan(|ClearTimeframes|), cycles)
  {
    effects := [Paused(ClearStartDelaySeconds)];
    var c := 0;
    while c < cycles
      invariant c <= cycles
      invariant effects == [Paused(ClearStartDelaySeconds)] + Repeat(CyclePlan(|ClearTimeframes|), c)
    {
      var pass := ClearCycle();
      effects := effects + pass;
      c := c + 1;
    }
  }

  /** The timeframes the tables know by name. */
  const KnownTimeframes: set<string> := {"1h", "24h", "1d", "7d", "30d", "90d", "365d", "1y", "all"}

  /** `get_interval_for_timeframe`: the sampling interval requested. */
  function IntervalForTimeframe(timeframe: string): (interval: string)
    ensures interval in {"5m", "1h", "2h", "6h", "1d"}
    ensures timeframe !in KnownTimeframes ==> interval == "1h"
  {
    match timeframe
    case "1h" => "5m"
    case "24h" => "1h"
    case "1d" => "1h"
    case "7d" => "2h"
    case "30d" => "6h"
    case "90d" => "1d"
    case "365d" => "1d"
    case "1y" => "1d"
    case "all" => "1d"
    case _ => "1h"
  }

  /** The number of days of history requested; "all" is capped at a year. */
  function DaysForTimeframe(timeframe: string): (days: nat)
    ensures days in {1, 7, 30, 90, 365}
    ensures timeframe !in KnownTimeframes ==> days == 30
  {
    match timeframe
    case "1h" => 1
    case "24h" => 1
    case "1d" => 1
    case "7d" => 7
    case "30d" => 30
    case "90d" => 90
    case "365d" => 365
    case "1y" => 365
    case "all" => 365
    case _ => 30
  }

  function IntervalMinutes(interval: string): nat {
    match interval
    case "5m" => 5
    case "1h" => 60
    case "2h" => 120
    case "6h" => 360
    case _ => 1440
  }

  /** For every timeframe, known or not, the requested window spans at
      least one sampling interval and at most 720 of them. */
  lemma WindowHoldsSamples(timeframe: string)
    ensures var samples := DaysForTimeframe(timeframe) * 1440 / IntervalMinutes(IntervalForTimeframe(timeframe));
            1 <= samples <= 720
  {
  }

  /** A quote's `timestamp` field: not a string, a string that is not
      RFC 3339, or the Unix seconds it denotes. */
  datatype TimeField = NotText | BadTime | Time(seconds: int)

  /** A quote's `quote.USD` object: its `price` and `volume_24h` numbers. */
  datatype RawUsd = RawUsd(price: Option<Float>, volume24h: Option<Float>)

  datatype RawQuote = RawQuote(timestamp: TimeField, usd: Option<RawUsd>)

  /** The point a quote yields: it needs a parsable timestamp and a USD
      price; the volume is optional. */
  function PointOf(q: RawQuote): (p: Option<HistoricalDataPoint>)
    ensures p.Some? <==> q.timestamp.Time? && q.usd.Some? && q.usd.value.price.Some?
    ensures p.Some? ==> p.value == HistoricalDataPoint(q.timestamp.seconds as real, q.usd.value.price.value, q.usd.value.volume24h)
  {
    if q.timestamp.Time? && q.usd.Some? && q.usd.value.price.Some? then
      Some(HistoricalDataPoint(q.timestamp.seconds as real, q.usd.value.price.value, q.usd.value.volume24h))
    else None
  }

  /** The points of a quote list, in order, skipping malformed quotes. */
  function PointsOf(quotes: seq<RawQuote>): (points: seq<HistoricalDataPoint>)
    ensures |points| <= |quotes|
  {
    if quotes == [] then []
    else
      var last := quotes[|quotes| - 1];
      PointsOf(quotes[..|quotes| - 1]) + (if PointOf(last).Some? then [PointOf(last).value] else [])
  }

  /** Extraction distributes over concatenation, so points keep the order
      of their quotes. */
  lemma {:induction false} PointsOfAppend(a: seq<RawQuote>, b: seq<RawQuote>)
    ensures PointsOf(a + b) == PointsOf(a) + PointsOf(b)
    decreases |b|
  {
    if b != [] {
      var init, last := b[..|b| - 1], b[|b| - 1];
      assert (a + b)[..|a + b| - 1] == a + init;
      assert (a + b)[|a + b| - 1] == last;
      PointsOfAppend(a, init);
      var tail := if PointOf(last).Some? then [PointOf(last).value] else [];
      assert PointsOf(b) == PointsOf(init) + tail;
      assert PointsOf(a + b) == PointsOf(a + init) + tail;
      assert PointsOf(a) + PointsOf(init) + tail == PointsOf(a) + (PointsOf(init) + tail);
    } else {
      assert a + b == a;
    }
  }

  /** No point is produced exactly when every quote is malformed. */
  lemma {:induction false} PointsEmptyIffAllMalformed(quotes: seq<RawQuote>)
    ensures PointsOf(quotes) == [] <==> forall i :: 0 <= i < |quotes| ==> PointOf(quotes[i]).None?
    decreases |quotes|
  {
    if quotes != [] {
      var init := quotes[..|quotes| - 1];
      PointsEmptyIffAllMalformed(init);
      assert forall i :: 0 <= i < |init| ==> init[i] == quotes[i];
    }
  }

  /** The loop that pushes the points of the quotes array. */
  method ExtractPoints(quotes: seq<RawQuote>) returns (points: seq<HistoricalDataPoint>)
    ensures points == PointsOf(quotes)
  {
    points := [];
    var i := 0;
    while i < |quotes|
      invariant 0 <= i <= |quotes|
      invariant points == PointsOf(quotes[..i])
    {
      assert quotes[..i + 1][..i] == quotes[..i];
      var quote := quotes[i];
      if quote.timestamp.Time? && quote.usd.Some? {
        var usd := quote.usd.value;
        if usd.price.Some? {
          points := points + [HistoricalDataPoint(quote.timestamp.seconds as real, usd.price.value, usd.volume24h)];
        }
      }
      i := i + 1;
    }
    assert quotes[..|quotes|] == quotes;
  }

  /** What `data.<SYMBOL>` of the quotes response holds. */
  datatype SymbolEntry = NoEntry | EntryWithoutId | EntryId(id: nat)

  /** The outcome of the id lookup request. */
  datatype IdLookup =
    | IdSendError(message: string)
    | IdHttpError(status: HttpStatus)
    | IdBadJson(message: string)
    | IdJson(entry: SymbolEntry)

  /** The outcome of the history request; `quotes` is None when
      `data.quotes` is not an array. */
  datatype HistoryFetch =
    | HistSendError(message: string)
    | HistHttpError(status: HttpStatus)
    | HistBadJson(message: string)
    | HistJson(quotes: Option<seq<RawQuote>>)

  /** The history request: currency id, window in days, interval. */
  datatype HistoryRequest = HistoryRequest(id: nat, days: nat, interval: string)

  /** A failed result for `symbol` (already upper-cased). */
  function Failure(msg: string, symbol: string, timeframe: string): (r: HistoricalDataResult)
    ensures WellFormedResult(r) && r.error == Some(msg)
    ensures r.symbol == Some(symbol) && r.timeframe == Some(timeframe)
  {
    HistoricalDataResult(false, [], Some(msg), Some(symbol), Some(timeframe))
  }

  /** The result of `fetch_historical_data_server` for the given outcomes
      of its two requests. It always names the upper-cased symbol and the
      timeframe, and succeeds exactly when the history yields a point. */
  function HistoricalResult(symbol: string, timeframe: string, lookup: IdLookup, history: HistoryFetch)
    : (r: HistoricalDataResult)
    ensures WellFormedResult(r)
    ensures r.symbol == Some(Upper(symbol)) && r.timeframe == Some(timeframe)
    ensures r.success <==> lookup.IdJson? && lookup.entry.EntryId? && history.HistJson?
                           && history.quotes.Some? && PointsOf(history.quotes.value) != []
    ensures r.success ==> r.data == PointsOf(history.quotes.value)
  {
    var s := Upper(symbol);
    match lookup
    case IdSendError(e) => Failure("Network error getting crypto ID: " + e, s, timeframe)
    case IdHttpError(status) => Failure("HTTP error getting crypto ID: " + status.text, s, timeframe)
    case IdBadJson(e) => Failure("JSON parsing error: " + e, s, timeframe)
    case IdJson(NoEntry) => Failure("Invalid symbol or no data found", s, timeframe)
    case IdJson(EntryWithoutId) => Failure("Could not find cryptocurrency ID", s, timeframe)
    case IdJson(EntryId(_)) =>
      match history
      case HistSendError(e) => Failure("Network error: " + e, s, timeframe)
      case HistHttpError(status) => Failure("HTTP error: " + status.text, s, timeframe)
      case HistBadJson(e) => Failure("JSON parsing error: " + e, s, timeframe)
      case HistJson(quotes) =>
        var points := if quotes.Some? then PointsOf(quotes.value) else [];
        if points == [] then Failure("No historical data points found", s, timeframe)
        else HistoricalDataResult(true, points, None, Some(s), Some(timeframe))
  }

  /** `fetch_historical_data_server`: look up the id of the upper-cased
      symbol; with an id, request the window and interval for the
      timeframe and extract the points. */
  method FetchHistoricalDataServer(symbol: string, timeframe: string, lookup: IdLookup, history: HistoryFetch)
    returns (result: HistoricalDataResult, request: Option<HistoryRequest>)
    ensures result == HistoricalResult(symbol, timeframe, lookup, history)
    ensures request.Some? <==> lookup.IdJson? && lookup.entry.EntryId?
    ensures request.Some? ==>
              request.value == HistoryRequest(lookup.entry.id, DaysForTimeframe(timeframe), IntervalForTimeframe(timeframe))
  {
    var s := Upper(symbol);
    var days := DaysForTimeframe(timeframe);
    request := None;
    var id: nat;
    match lookup {
      case IdSendError(e) =>
        return Failure("Network error getting crypto ID: " + e, s, timeframe), None;
      case IdHttpError(status) =>
        return Failure("HTTP error getting crypto ID: " + status.text, s, timeframe), None;
      case IdBadJson(e) =>
        return Failure("JSON parsing error: " + e, s, timeframe), None;
      case IdJson(entry) =>
        match entry {
          case NoEntry =>
            return Failure("Invalid symbol or no data found", s, timeframe), None;
          case EntryWithoutId =>
            return Failure("Could not find cryptocurrency ID", s, timeframe), None;
          case EntryId(n) =>
            id := n;
        }
    }
    var interval := IntervalForTimeframe(timeframe);
    request := Some(HistoryRequest(id, days, interval));
    match history {
      case HistSendError(e) =>
        result := Failure("Network error: " + e, s, timeframe);
      case HistHttpError(status) =>
        result := Failure("HTTP error: " + status.text, s, timeframe);
      case HistBadJson(e) =>
        result := Failure("JSON parsing error: " + e, s, timeframe);
      case HistJson(quotes) =>
        var points: seq<HistoricalDataPoint> := [];
        if quotes.Some? {
          points := ExtractPoints(quotes.value);
        }
        if points == [] {
          result := Failure("No historical data points found", s, timeframe);
        } else {
          result := HistoricalDataResult(true, points, None, Some(s), Some(timeframe));
        }
    }
  }

  /** One entry of the `/v1/cryptocurrency/map` listing. */
  datatype CmcEntry = CmcEntry(id: int, symbol: string)
  datatype CmcStatus = CmcStatus(errorCode: int, errorMessage: Option<string>)
  datatype CmcMappingResponse = CmcMappingResponse(status: CmcStatus, data: seq<CmcEntry>)

  /** The outcome of the mapping request: the send failed, or a status and
      the parsed body or the parse error. */
  datatype MappingFetch =
    | MapSendError(message: string)
    | MapResponse(status: HttpStatus, body: Result<CmcMappingResponse, string>)

  /** The map the entries build, later entries overwriting earlier ones
      with the same upper-cased symbol. */
  function MappingOf(entries: seq<CmcEntry>): (m: map<string, int>)
    ensures forall k :: k in m ==> exists i :: 0 <= i < |entries| && Upper(entries[i].symbol) == k
  {
    if entries == [] then map[]
    else
      var last := entries[|entries| - 1];
      var init := entries[..|entries| - 1];
      var m0 := MappingOf(init);
      assert forall k :: k in m0 ==> exists i :: 0 <= i < |init| && Upper(init[i].symbol) == k && init[i] == entries[i];
      m0[Upper(last.symbol) := last.id]
  }

  /** Every upper-cased symbol is a key, mapped to the id of its last
      entry. */
  lemma {:induction false} MappingLastWins(entries: seq<CmcEntry>, i: nat)
    requires i < |entries|
    requires forall j :: i < j < |entries| ==> Upper(entries[j].symbol) != Upper(entries[i].symbol)
    ensures Upper(entries[i].symbol) in MappingOf(entries)
    ensures MappingOf(entries)[Upper(entries[i].symbol)] == entries[i].id
    decreases |entries|
  {
    if i < |entries| - 1 {
      var init := entries[..|entries| - 1];
      MappingLastWins(init, i);
    }
  }

  /** The loop that builds the mapping. */
  method BuildMapping(entries: seq<CmcEntry>) returns (mapping: map<string, int>)
    ensures mapping == MappingOf(entries)
  {
    mapping := map[];
    var i := 0;
    while i < |entries|
      invariant 0 <= i <= |entries|
      invariant mapping == MappingOf(entries[..i])
    {
      assert entries[..i + 1][..i] == entries[..i];
      mapping := mapping[Upper(entries[i].symbol) := entries[i].id];
      i := i + 1;
    }
    assert entries[..|entries|] == entries;
  }

  /** `fetch_cmc_mapping`: replaces the whole mapping only for a 2xx
      response that parses with error code 0; otherwise the mapping is
      kept and the error described. */
  method FetchCmcMapping(state: AppState, fetch: MappingFetch) returns (o: Outcome<string>)
    modifies state`cmcMapping
    ensures o.Pass? <==> fetch.MapResponse? && IsSuccess(fetch.status) && fetch.body.Ok? && fetch.body.value.status.errorCode == 0
    ensures o.Pass? ==> state.cmcMapping == MappingOf(fetch.body.value.data)
    ensures o.Fail? ==> state.cmcMapping == old(state.cmcMapping)
    ensures fetch.MapSendError? ==> o == Fail("Failed to send CMC mapping request: " + fetch.message)
    ensures fetch.MapResponse? && !IsSuccess(fetch.status) ==>
              o == Fail("CMC mapping request failed with status: " + fetch.status.text)
    ensures fetch.MapResponse? && IsSuccess(fetch.status) && fetch.body.Err? ==>
              o == Fail("Failed to parse CMC mapping response: " + fetch.body.error)
    ensures fetch.MapResponse? && IsSuccess(fetch.status) && fetch.body.Ok? && fetch.body.value.status.errorCode != 0 ==>
              o == Fail("CMC API error: " + fetch.body.value.status.errorMessage.UnwrapOr("Unknown error")
                        + " (code: " + IntToString(fetch.body.value.status.errorCode) + ")")
  {
    match fetch {
      case MapSendError(e) =>
        return Fail("Failed to send CMC mapping request: " + e);
      case MapResponse(status, body) =>
        if !IsSuccess(status) {
          return Fail("CMC mapping request failed with status: " + status.text);
        }
        match body {
          case Err(e) =>
            return Fail("Failed to parse CMC mapping response: " + e);
          case Ok(response) =>
            if response.status.errorCode == 0 {
              var mapping := BuildMapping(response.data);
              state.cmcMapping := mapping;
              o := Pass;
            } else {
              o := Fail("CMC API error: " + response.status.errorMessage.UnwrapOr("Unknown error")
                        + " (code: " + IntToString(response.status.errorCode) + ")");
            }
        }
    }
  }
}
