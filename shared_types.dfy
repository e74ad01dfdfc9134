/** The records shared by the server and the client library
    (crates/shared/src/types.rs). Floating-point fields are carried as
    opaque values: nothing in the core computes with them. */
module SharedTypes {
  import opened Wrappers

  /** An `f64` received from the provider, passed through unchanged. */
  type Float = real

  datatype UsdQuote = UsdQuote(
    price: Float,
    percentChange1h: Float,
    percentChange24h: Float,
    percentChange7d: Float,
    marketCap: Float,
    volume24h: Float,
    lastUpdated: string)

  datatype Quote = Quote(usd: UsdQuote)

  datatype CryptoCurrency = CryptoCurrency(id: int, name: string, symbol: string, quote: Quote)

  datatype HistoricalDataPoint = HistoricalDataPoint(timestamp: Float, price: Float, volume: Option<Float>)

  datatype HistoricalDataResult = HistoricalDataResult(
    success: bool,
    data: seq<HistoricalDataPoint>,
    error: Option<string>,
    symbol: Option<string>,
    timeframe: Option<string>)

  /** The shape every result built by the server's historical fetch has:
      it succeeded exactly when it carries points and no error. */
  predicate WellFormedResult(r: HistoricalDataResult) {
    && (r.success <==> r.data != [])
    && (r.success <==> r.error.None?)
  }
}
