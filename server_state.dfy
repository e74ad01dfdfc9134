/** The server's shared state (`AppState`, crates/server/src/types.rs) and
    the two rules every price server in the repository follows: the
    last-known-good snapshot update and the `/api/crypto-prices` response.
    Wall-clock times are integer nanoseconds supplied by the caller. */
module ServerState {
  import opened Wrappers
  import opened SharedTypes

  type Nanos = int

  const NanosPerSecond: nat := 1000000000
  /** A snapshot older than this is reported as cached. */
  const StaleAfterSeconds: nat := 30

  /** A response status: its code and its `Display` text. */
  datatype HttpStatus = HttpStatus(code: nat, text: string)

  predicate IsSuccess(s: HttpStatus) {
    200 <= s.code < 300
  }

  /** The outcome of one listings request: the send failed, or a response
      came back with a status and, when its body parsed, the listing. */
  datatype ListingFetch =
    | NetworkError(message: string)
    | Response(status: HttpStatus, parsed: Option<seq<CryptoCurrency>>)

  /** A 2xx response whose body parsed. */
  predicate Succeeds(o: ListingFetch) {
    o.Response? && IsSuccess(o.status) && o.parsed.Some?
  }

  /** What the fetch loop logs about one outcome. */
  datatype FetchVerdict =
    | Updated(count: nat)
    | ParseFailed
    | RateLimited
    | AuthFailed
    | HttpFailed(status: HttpStatus)
    | NetworkFailed

  function ClassifyFetch(o: ListingFetch): (v: FetchVerdict)
    ensures v.Updated? <==> Succeeds(o)
    ensures v.Updated? ==> v.count == |o.parsed.value|
    ensures v == RateLimited <==> o.Response? && !IsSuccess(o.status) && o.status.code == 429
    ensures v == AuthFailed <==> o.Response? && !IsSuccess(o.status) && o.status.code == 401
    ensures v == NetworkFailed <==> o.NetworkError?
  {
    match o
    case NetworkError(_) => NetworkFailed
    case Response(status, parsed) =>
      if IsSuccess(status) then
        (if parsed.Some? then Updated(|parsed.value|) else ParseFailed)
      else if status.code == 429 then RateLimited
      else if status.code == 401 then AuthFailed
      else HttpFailed(status)
  }

  /** The two cells the fetch loop writes. */
  datatype Snapshot = Snapshot(cache: Option<seq<CryptoCurrency>>, lastFetch: Nanos)

  /** One tick of a fetch loop at time `now`: a parsed 2xx listing replaces
      the cache and the fetch time together; every failure keeps both. */
  function FetchTick(s: Snapshot, o: ListingFetch, now: Nanos): (r: Snapshot)
    ensures Succeeds(o) ==> r.cache == Some(o.parsed.value) && r.lastFetch == now
    ensures !Succeeds(o) ==> r == s
    ensures (r.cache == s.cache) || (r.lastFetch == now)
  {
    if Succeeds(o) then Snapshot(Some(o.parsed.value), now) else s
  }

  /** When tick `k` of a loop started at `start` fires: `tokio::time::interval`
      fires at once and then every `periodSeconds`. */
  function TickTime(start: Nanos, periodSeconds: nat, k: nat): (t: Nanos)
    ensures t == start + k * periodSeconds * NanosPerSecond
    ensures k > 0 ==> t - TickTime(start, periodSeconds, k - 1) == periodSeconds * NanosPerSecond
  {
    start + k * periodSeconds * NanosPerSecond
  }

  /** One tick of a fetch loop: the outcome of its request and the clock
      reading (`SystemTime::now()`) taken once the response is in. */
  datatype Tick = Tick(outcome: ListingFetch, clock: Nanos)

  /** The clock is read no earlier than the tick fired: tick `j` of a loop
      started at `start` fires at `TickTime(start, periodSeconds, j)` or
      later (a slow fetch makes later ticks fire late). */
  predicate ReadAfterTicks(ticks: seq<Tick>, start: Nanos, periodSeconds: nat) {
    forall j :: 0 <= j < |ticks| ==> TickTime(start, periodSeconds, j) <= ticks[j].clock
  }

  /** The snapshot after the first `k` ticks. */
  function Fetched(s: Snapshot, ticks: seq<Tick>, k: nat): Snapshot
    requires k <= |ticks|
    decreases k
  {
    if k == 0 then s
    else FetchTick(Fetched(s, ticks, k - 1), ticks[k - 1].outcome, ticks[k - 1].clock)
  }

  /** Last-known-good: after any run of ticks the snapshot is the one from
      the last successful tick, stamped with that tick's clock reading, or
      the initial one when none succeeded. */
  lemma {:induction false} LastKnownGood(s: Snapshot, ticks: seq<Tick>, k: nat)
    requires k <= |ticks|
    ensures (forall j :: 0 <= j < k ==> !Succeeds(ticks[j].outcome)) ==> Fetched(s, ticks, k) == s
    ensures forall j :: 0 <= j < k && Succeeds(ticks[j].outcome) && (forall i :: j < i < k ==> !Succeeds(ticks[i].outcome)) ==>
              Fetched(s, ticks, k) == Snapshot(Some(ticks[j].outcome.parsed.value), ticks[j].clock)
    decreases k
  {
    if k > 0 {
      LastKnownGood(s, ticks, k - 1);
    }
  }

  /** The stored fetch time is never earlier than the scheduled time of the
      last successful tick. */
  lemma StoredTimeNotBeforeTick(s: Snapshot, ticks: seq<Tick>, start: Nanos, periodSeconds: nat, j: nat)
    requires ReadAfterTicks(ticks, start, periodSeconds)
    requires j < |ticks| && Succeeds(ticks[j].outcome)
    requires forall i :: j < i < |ticks| ==> !Succeeds(ticks[i].outcome)
    ensures Fetched(s, ticks, |ticks|).lastFetch >= TickTime(start, periodSeconds, j)
  {
    LastKnownGood(s, ticks, |ticks|);
  }

  /** `last_updated` of a prices response: `format!("{:?}", last_fetch)`,
      or the literal "Never". */
  datatype Stamp = Never | At(time: Nanos)

  /** `ApiResponse`. */
  datatype ApiResponse = ApiResponse(data: seq<CryptoCurrency>, lastUpdated: Stamp, cached: bool)

  /** `SystemTime::elapsed`, with an error (a fetch time in the future)
      counted as zero. */
  function Age(lastFetch: Nanos, now: Nanos): (a: nat)
    ensures now >= lastFetch ==> a == now - lastFetch
    ensures now < lastFetch ==> a == 0
  {
    if now >= lastFetch then now - lastFetch else 0
  }

  /** `get_prices`: the cached listing, flagged as cached when it is
      strictly older than 30 s; without a listing, an empty "Never"
      response. */
  function PricesResponse(cache: Option<seq<CryptoCurrency>>, lastFetch: Nanos, now: Nanos): (r: ApiResponse)
    ensures cache.None? ==> r == ApiResponse([], Never, false)
    ensures cache.Some? ==> r.data == cache.value && r.lastUpdated == At(lastFetch)
    ensures cache.Some? ==> (r.cached <==> now - lastFetch > StaleAfterSeconds * NanosPerSecond)
    ensures now <= lastFetch + StaleAfterSeconds * NanosPerSecond ==> !r.cached
  {
    match cache
    case None => ApiResponse([], Never, false)
    case Some(data) => ApiResponse(data, At(lastFetch), Age(lastFetch, now) > StaleAfterSeconds * NanosPerSecond)
  }

  /** A listing fetched exactly 30 s ago is still fresh; one nanosecond
      later it is cached. */
  lemma StaleBoundary(data: seq<CryptoCurrency>, t: Nanos)
    ensures !PricesResponse(Some(data), t, t + StaleAfterSeconds * NanosPerSecond).cached
    ensures PricesResponse(Some(data), t, t + StaleAfterSeconds * NanosPerSecond + 1).cached
  {
  }

  /** `AppState` of the MQTT server. */
  class AppState {
    var cache: Option<seq<CryptoCurrency>>
    var lastFetch: Nanos
    var historicalCache: map<string, (HistoricalDataResult, Nanos)>
    /** Upper-cased symbol to CoinMarketCap id. */
    var cmcMapping: map<string, int>
    const apiKey: string
    const updateIntervalSeconds: nat

    function Snap(): Snapshot
      reads this
    {
      Snapshot(cache, lastFetch)
    }

    /** Empty caches; `lastFetch` is the start time. */
    constructor (apiKey: string, updateIntervalSeconds: nat, now: Nanos)
      ensures Snap() == Snapshot(None, now)
      ensures historicalCache == map[] && cmcMapping == map[]
      ensures this.apiKey == apiKey && this.updateIntervalSeconds == updateIntervalSeconds
    {
      cache := None;
      lastFetch := now;
      historicalCache := map[];
      cmcMapping := map[];
      this.apiKey := apiKey;
      this.updateIntervalSeconds := updateIntervalSeconds;
    }
  }
}
