/** The mutable cells an MQTT client shares with its connection manager and
    message handler (the `Arc<Mutex<..>>` fields of `MQTTClient` in
    crates/ios_lib/src/mqtt/client.rs). One object stands for the set of
    cells, so every holder sees the others' updates. */
module ClientState {
  import opened Wrappers
  import opened SharedTypes

  /** An `extern "C" fn(*const c_void)` registered by the host. */
  datatype Callback = Callback(address: nat)

  /** A raw pointer argument: only null is ever passed. */
  datatype Pointer = Null | Address(at: nat)

  /** One invocation of a host callback. */
  datatype CallbackCall = CallbackCall(callback: Callback, context: Pointer)

  /** The cells' contents as a value. */
  datatype ClientView = ClientView(
    latestPrices: Option<seq<CryptoCurrency>>,
    historicalData: map<string, HistoricalDataResult>,
    isConnected: bool,
    connectionAttempts: nat,
    priceUpdateCallback: Option<Callback>)

  /** What `MQTTClient::new` puts in the cells. */
  const InitialView: ClientView := ClientView(None, map[], false, 0, None)

  class SharedState {
    var latestPrices: Option<seq<CryptoCurrency>>
    var historicalData: map<string, HistoricalDataResult>
    var isConnected: bool
    var connectionAttempts: nat
    var priceUpdateCallback: Option<Callback>

    function View(): ClientView
      reads this
    {
      ClientView(latestPrices, historicalData, isConnected, connectionAttempts, priceUpdateCallback)
    }

    /** Fresh cells: no prices, no history, not connected, no attempts, no
        callback. */
    constructor ()
      ensures View() == InitialView
    {
      latestPrices := None;
      historicalData := map[];
      isConnected := false;
      connectionAttempts := 0;
      priceUpdateCallback := None;
    }
  }
}
