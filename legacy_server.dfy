/** The stand-alone HTTP price server (src/server.rs): the same snapshot
    rule and prices response as the MQTT server, with a fixed 15 s fetch
    period and no publishing. Its record types are the shared ones. */
module LegacyServer {
  import opened Wrappers
  import opened SharedTypes
  import opened Env
  import opened ServerState

  const FetchPeriodSeconds: nat := 15
  const PlaceholderApiKey: string := "YOUR_API_KEY_HERE"

  /** `CMC_API_KEY`, or the placeholder when it is unset. */
  function ApiKeyFrom(env: Environment): (key: string)
    ensures "CMC_API_KEY" in env ==> key == env["CMC_API_KEY"]
    ensures "CMC_API_KEY" !in env ==> key == PlaceholderApiKey
  {
    Var(env, "CMC_API_KEY").UnwrapOr(PlaceholderApiKey)
  }

  /** The legacy `AppState`. */
  class LegacyState {
    var cache: Option<seq<CryptoCurrency>>
    var lastFetch: Nanos
    const apiKey: string

    function Snap(): Snapshot
      reads this
    {
      Snapshot(cache, lastFetch)
    }

    /** The state `main` builds after loading `.env` (`envFile`, None when
        absent) without overriding: no listing, fetch time = start-up
        time. */
    constructor (env: Environment, envFile: Option<Environment>, now: Nanos)
      ensures Snap() == Snapshot(None, now)
      ensures apiKey == ApiKeyFrom(if envFile.Some? then LoadFile(env, envFile.value) else env)
    {
      cache := None;
      lastFetch := now;
      apiKey := ApiKeyFrom(if envFile.Some? then LoadFile(env, envFile.value) else env);
    }

    /** `get_prices`. */
    method GetPrices(now: Nanos) returns (r: ApiResponse)
      ensures r == PricesResponse(cache, lastFetch, now)
    {
      r := PricesResponse(cache, lastFetch, now);
    }

    /** `fetch_data_periodically`: the ticks of its 15 s interval, each with
        its outcome and the clock reading taken after the response. */
    method FetchDataPeriodically(ticks: seq<Tick>)
      modifies this`cache, this`lastFetch
      ensures Snap() == Fetched(old(Snap()), ticks, |ticks|)
    {
      ghost var s0 := Snap();
      var k := 0;
      while k < |ticks|
        invariant 0 <= k <= |ticks|
        invariant Snap() == Fetched(s0, ticks, k)
      {
        match ticks[k].outcome {
          case Response(status, parsed) =>
            if IsSuccess(status) && parsed.Some? {
              cache := Some(parsed.value);
              lastFetch := ticks[k].clock;
            }
          case NetworkError(_) =>
        }
        k := k + 1;
      }
    }
  }
}
