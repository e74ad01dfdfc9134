# coin-crab market-data distribution, modelled in Dafny

coin-crab delivers live crypto-currency prices to an iOS app without
putting the CoinMarketCap API key on the phone. Its Rust server keeps
two things up to date:

- a last-known-good snapshot of the CoinMarketCap listing;
- a map of historical results.

The server publishes both as retained MQTT messages and answers
`SYMBOL:TIMEFRAME` requests that arrive on `crypto/requests/historical`.
The app links a Rust library. That library runs an MQTT subscriber with
exponential back-off and routes incoming publishes into its caches. It
exposes the caches to Swift through a C interface that returns JSON
strings, which the host must free.

This project models the sequential rules that decide what each side
does, and proves properties of them.

**Client library** (`crates/ios_lib`):
- the connection state machine and its back-off;
- the topic router over the caches;
- the `MQTTClient` object;
- the global client slot;
- the C boundary with its string ownership;
- the configuration defaults.

**Server** (`crates/server`, and the older stand-alone server `src/server.rs`):
- the snapshot update rule of the fetch loops;
- the timeframe tables;
- historical result extraction;
- the symbol-to-id map;
- the publish plan;
- the request handler;
- the HTTP response shaping;
- configuration and log-level mapping.

How the model is built:
- Objects whose fields the code updates in place are classes whose methods
  are proved against specification functions. Examples are the shared
  client cells, `MQTTClient`, the global slot, the C boundary, and
  `AppState`.
- The code's loops are `while` loops with invariants. These are the
  event loop, the connection wait, the fetch loop, the clearing loop,
  point extraction, the mapping build and the publish loop.
- The tables and record constructions are functions.

The endless loops are driven by finite runs of inputs. Each run is a
sequence of fetch outcomes, or of events the MQTT event loop yields.
Everything the code gets from the network, the clock, serde or the
operating system is a parameter:
- HTTP outcomes;
- parse results;
- publish errors;
- the current time in nanoseconds, and the clock reading each fetch takes after its response;
- the events that arrive while the FFI thread sleeps;
- the environment as a map;
- the `.env` file as a map, or None.

Where a comment and the code disagree, the model follows the code. The
comment at crates/ios_lib/src/mqtt/connection.rs:121 promises back-off
delays of 2, 4, 8, 16 and 32 seconds. The formula on the next line gives
1, 2, 4, 8 and 16 seconds, and the loop gives up on the sixth consecutive
error. The model uses the formula.

Module layout: one module per source file, plus four shared modules:
- `Wrappers`: Option, Result, Outcome;
- `Text`: ASCII case mapping, `split_once`, integer formatting and parsing;
- `SharedTypes`: the records;
- `Mqtt`: topics, payload bodies, events and decoders.

`EndToEnd` states the properties that span the server and the client.

## Model

| member | source | states |
|---|---|---|
| Text.SplitOnceJoin | crates/server/src/mqtt/request_handler.rs:57 | joining two parts with a separator absent from the first part, then splitting at the first separator, returns the parts |
| Text.ParseNatToString | crates/ios_lib/src/config.rs:35-37 | parsing the decimal form of a number gives the number back exactly when it is within the bound |
| Mqtt.HistoricalTopic | crates/server/src/mqtt/publisher.rs:53 | a historical topic lies under `crypto/historical/`, is never the latest-prices topic and never lies under `crypto/prices/` |
| Mqtt.HistoricalTopicReceived | crates/ios_lib/src/mqtt/connection.rs:95-97 | the answer for a symbol and timeframe matches the client's `crypto/historical/+/+` subscription exactly when neither contains '/' |
| Mqtt.PriceTopic | crates/server/src/mqtt/publisher.rs:32 | a per-currency topic lies under `crypto/prices/`; it equals the latest-prices topic exactly when the symbol is "latest" |
| Env.LoadFile | crates/server/src/config.rs:25 | loading a `.env` file keeps every variable already set and adds only the absent ones |
| Logging.LevelFilterFor | crates/shared/src/logging.rs:42-50 | the filter is Info unless the upper-cased level is the name of the filter returned |
| Logging.LevelNameSelects | crates/shared/src/logging.rs:42-50 | each of the six names selects its filter whatever the case of its letters |
| Logging.LevelFilterCaseInsensitive | crates/server/src/config.rs:70-78 | two spellings that differ only in case select the same filter |
| Logging.InitLoggingLevel | crates/shared/src/logging.rs:40-50 | an absent `LOG_LEVEL` gives Info; otherwise its value is mapped |
| Logging.LogPath | crates/shared/src/logging.rs:15-23 | on iOS `$HOME/Documents/debug.log` with HOME defaulting to "/tmp"; elsewhere "debug.log" |
| Logging.GlobalLogger.constructor | crates/shared/src/logging.rs:52-54 | a process starts without a logger |
| Logging.GlobalLogger.Init | crates/shared/src/logging.rs:52-54 | as written: installs the logger, and panics exactly when one is already installed |
| Logging.GlobalLogger.TryInit | crates/shared/src/logging.rs:52-54 | the intended call: a logger is installed afterwards, by this call exactly when none was, and it never panics |
| ClientConfig.BrokerPortFrom | crates/ios_lib/src/config.rs:35-37 | a missing or unparsable port gives 1883; a parsable one is at most 65535 and is used |
| ClientConfig.DebugFlagFrom | crates/ios_lib/src/config.rs:39-41 | true when absent, otherwise exactly when the lower-cased value is "true" |
| ClientConfig.Load | crates/ios_lib/src/config.rs:16-54 | debug logging is on and the level is "DEBUG" whatever the `.env.client` file says; a host set beforehand wins; a missing host gives the default host |
| ClientConfig.BrokerAddress | crates/ios_lib/src/config.rs:92-94 | the address starts with the host followed by ':' |
| ClientConfig.BrokerAddressRoundTrip | crates/ios_lib/src/config.rs:92-94 | for a host without ':', the address splits back into the host and a port text that parses to the configured port |
| ServerConfig.ParsedOr | crates/server/src/config.rs:43-55 | a missing or unparsable value gives the default, and the result is within the bound |
| ServerConfig.Load | crates/server/src/config.rs:13-64 | the defaults are "YOUR_API_KEY_HERE", "INFO", "0.0.0.0", 1883 and 900 after `.env.server` is loaded without overriding; it never fails |
| ServerConfig.SetupLogging | crates/server/src/config.rs:66-93 | the base filter is the case-insensitive level mapping; rumqttd is always silenced and only the publisher module is limited to warnings |
| ClientState.SharedState.constructor | crates/ios_lib/src/mqtt/client.rs:48-53 | new cells hold no prices, no history, not connected, zero attempts and no callback |
| MessageHandler.RouteOf | crates/ios_lib/src/mqtt/message_handler.rs:31-39 | exactly the latest topic routes to latest prices; exactly the topics under `crypto/historical/` route to history; other topics under `crypto/prices/` are single prices; everything else is unhandled |
| MessageHandler.OnMessage | crates/ios_lib/src/mqtt/message_handler.rs:25-97 | a parsed list on the latest topic replaces the list, even an empty one; a parsed result on a historical topic is inserted under the full topic; anything else changes nothing; connection state and callback never change |
| MessageHandler.OtherTopicsUnchanged | crates/ios_lib/src/mqtt/message_handler.rs:67-74 | inserting under one topic leaves every other key's presence and entry unchanged |
| MessageHandler.MessageHandler.HandleMessage | crates/ios_lib/src/mqtt/message_handler.rs:25-40 | the cells become `OnMessage` of the old cells |
| MessageHandler.MessageHandler.HandleLatestPrices | crates/ios_lib/src/mqtt/message_handler.rs:42-63 | a parsed list replaces the cached list; a parse failure keeps it |
| MessageHandler.MessageHandler.HandleHistoricalData | crates/ios_lib/src/mqtt/message_handler.rs:65-80 | a parsed result is inserted under the topic; a parse failure keeps the map |
| MessageHandler.MessageHandler.HandleIndividualPrice | crates/ios_lib/src/mqtt/message_handler.rs:82-97 | the currency is decoded for the log only; no cell changes |
| Connection.BackoffDelay | crates/ios_lib/src/mqtt/connection.rs:122 | the delay is between 1 and 32 seconds, and is 2^(attempts-1) for attempts up to 6 |
| Connection.OnConnAck | crates/ios_lib/src/mqtt/connection.rs:88-89 | connected and zero attempts; caches and callback kept |
| Connection.OnConnectionError | crates/ios_lib/src/mqtt/connection.rs:109-131 | disconnected and one more attempt; it gives up exactly when 5 or more attempts had already failed, and otherwise retries after 2^(old attempts) seconds |
| Connection.Step | crates/ios_lib/src/mqtt/connection.rs:59-75 | the loop stops exactly on an error after 5 failures; events other than ConnAck and errors keep the counter; historical keys only grow |
| Connection.Run | crates/ios_lib/src/mqtt/connection.rs:58-76 | the loop consumes every event unless it gives up, and it gives up on an error; the callback is kept and historical keys only grow |
| Connection.RunAdvance | crates/ios_lib/src/mqtt/connection.rs:58-76 | a run either stops at the current event or equals the run of the rest after one step |
| Connection.ErrorRun | crates/ios_lib/src/mqtt/connection.rs:115-131 | consecutive errors within the limit each sleep the next power of two; one more error past the limit gives up |
| Connection.FirstBackoffs | crates/ios_lib/src/mqtt/connection.rs:122 | the first five back-off sleeps are 1, 2, 4, 8 and 16 seconds |
| Connection.BackoffSchedule | crates/ios_lib/src/mqtt/connection.rs:120-131 | from a fresh counter, six errors sleep 1, 2, 4, 8 and 16 seconds, then give up with 6 attempts counted |
| Connection.ConnAckRestartsBackoff | crates/ios_lib/src/mqtt/connection.rs:88-122 | after a ConnAck the next error again waits 1 second |
| Connection.AttemptsBounded | crates/ios_lib/src/mqtt/connection.rs:117-131 | while the loop runs the counter stays at most 5; when it gives up the counter is exactly 6 |
| Connection.ConnectionManager.CreateClient | crates/ios_lib/src/mqtt/connection.rs:25-37 | client id "rust-ios-client", the configured broker, keep-alive 60 s, clean session, 102400-byte packets, capacity 10 |
| Connection.ConnectionManager.StartEventLoop | crates/ios_lib/src/mqtt/connection.rs:39-79 | the polling loop leaves the cells, effects, consumed count and give-up flag exactly as `Run` specifies |
| Connection.ConnectionManager.PollOnce | crates/ios_lib/src/mqtt/connection.rs:59-75 | one dispatch of the polled event does exactly what `Step` specifies |
| Connection.ConnectionManager.HandleConnectionSuccess | crates/ios_lib/src/mqtt/connection.rs:81-101 | the cells become `OnConnAck`, then `crypto/prices/latest` at QoS 1 and `crypto/historical/+/+` at QoS 0 are subscribed, in that order |
| Connection.ConnectionManager.HandleDisconnect | crates/ios_lib/src/mqtt/connection.rs:103-107 | only the connected flag is cleared; the counter is kept |
| Connection.ConnectionManager.HandleConnectionError | crates/ios_lib/src/mqtt/connection.rs:109-131 | the cells become `OnConnectionError`; it stops exactly on give-up, and otherwise sleeps the computed delay |
| Client.HistoricalKey | crates/ios_lib/src/mqtt/client.rs:91-94 | the lookup key is a historical topic, never the latest-prices topic |
| Client.HistoricalKeyCaseInsensitive | crates/ios_lib/src/mqtt/client.rs:92 | only the symbol is case-normalised: upper-casing it first gives the same key |
| Client.GivingUpImpliesExceeded | crates/ios_lib/src/mqtt/client.rs:109-111 | when the event loop gives up, `has_exceeded_max_retries` holds |
| Client.BackgroundStep | crates/ios_lib/src/mqtt/connection.rs:54-78 | a stopped loop stays stopped and changes nothing; the callback is kept and historical keys only grow |
| Client.MqttClient.New | crates/ios_lib/src/mqtt/client.rs:30-78 | with the logger set up by `try_init` (see Findings): it never panics, leaves a logger installed, and fails only when the runtime cannot be created, with "Failed to create runtime: …"; otherwise fresh initial cells, the loaded configuration, a running loop and `max_retry_attempts` 3 |
| Client.MqttClient.NewAsWritten | crates/ios_lib/src/mqtt/client.rs:30-35 | as written: the construction panics exactly when a logger was already installed, and otherwise behaves as `New` |
| Client.MqttClient.Poll | crates/ios_lib/src/mqtt/connection.rs:54-78 | the background thread's progress over a batch is `BackgroundStep`, with `Run`'s effects while it runs |
| Client.MqttClient.Connect | crates/ios_lib/src/mqtt/client.rs:80-85 | always succeeds and changes nothing |
| Client.MqttClient.GetLatestPrices | crates/ios_lib/src/mqtt/client.rs:87-89 | exactly the cached list |
| Client.MqttClient.GetHistoricalData | crates/ios_lib/src/mqtt/client.rs:91-94 | the entry under the upper-cased historical key, if present |
| Client.MqttClient.IsConnected | crates/ios_lib/src/mqtt/client.rs:96-98 | the connected flag |
| Client.MqttClient.GetConnectionAttempts | crates/ios_lib/src/mqtt/client.rs:100-102 | the attempt counter |
| Client.MqttClient.ResetConnectionAttempts | crates/ios_lib/src/mqtt/client.rs:104-107 | the counter becomes 0 and nothing else changes |
| Client.MqttClient.HasExceededMaxRetries | crates/ios_lib/src/mqtt/client.rs:109-111 | true exactly when more than 3 attempts have failed |
| Client.MqttClient.PublishMessage | crates/ios_lib/src/mqtt/client.rs:113-126 | a QoS 1, non-retained publish of the payload; an error gives "Failed to publish: …" |
| Client.MqttClient.SetPriceUpdateCallback | crates/ios_lib/src/mqtt/client.rs:128-131 | the callback replaces any earlier one; nothing else changes |
| Client.MqttClient.TriggerPriceUpdateCallback | crates/ios_lib/src/mqtt/client.rs:133-138 | exactly one call with a null argument when a callback is set, none otherwise |
| Globals.ClientSlot.constructor | crates/ios_lib/src/globals.rs:5 | the slot starts empty, in a process with no logger installed |
| Globals.ClientSlot.InitMqttClient | crates/ios_lib/src/globals.rs:7-14 | as its doc comment intends ("Initialize or reinitialize"): on success a fresh client replaces any previous one; on failure the slot is unchanged and the error is reported |
| Globals.ClientSlot.InitMqttClientAsWritten | crates/ios_lib/src/globals.rs:8-14 | as written: it panics, leaving the slot as it was, exactly when a logger was installed before; otherwise it behaves as `InitMqttClient` |
| Globals.ReinitialisationPanicsAsWritten | crates/ios_lib/src/globals.rs:7-14 | as written, a second initialisation in a process panics although the first succeeded and the runtime starts both times |
| Globals.ReinitialisationReplaces | crates/ios_lib/src/globals.rs:7-14 | with `try_init`, both initialisations succeed and the second installs a different client |
| Globals.ClientSlot.WithMqttClient | crates/ios_lib/src/globals.rs:17-26 | None on an empty slot, otherwise `f` of the client |
| Globals.ClientSlot.IsMqttConnected | crates/ios_lib/src/globals.rs:29-31 | equals `with_mqtt_client(is_connected)` defaulting to false, that is, false without a client |
| Globals.ClientSlot.ResetMqttConnectionAttempts | crates/ios_lib/src/globals.rs:34-38 | zeroes the installed client's counter; only that client's cells may change, so the slot and the event-loop state stay as they were |
| Ffi.ReturnMqttError | crates/ios_lib/src/ffi.rs:222-237 | success false, no data, the message as error, no timestamp, not cached |
| Ffi.HistoricalFailure | crates/ios_lib/src/ffi.rs:207-213 | a failed, well-formed result with empty data and the message |
| Ffi.LookupOrRequest | crates/ios_lib/src/ffi.rs:163-205 | a cache hit is the answer, with no request and no change; after a miss the request `symbol:timeframe` goes out exactly when publishing succeeds, the background loop runs, and the reply is the entry found on the second lookup or the no-data failure |
| Ffi.AnswerOrRequest | crates/ios_lib/src/ffi.rs:163-205 | the lookup, request, wait and second lookup on the installed client give exactly `LookupOrRequest` of its cells |
| Ffi.Waited | crates/ios_lib/src/ffi.rs:53-67 | the callback is kept across the sleeps, and a stopped loop never restarts |
| Ffi.WaitForConnection | crates/ios_lib/src/ffi.rs:50-67 | it stops at the first poll that sees a connection or prices, or after at most 51 sleeps, and the cells are the background progress over those sleeps |
| Ffi.Boundary.Allocate | crates/ios_lib/src/ffi.rs:89 | a new handle, distinct from every live one, owns the reply |
| Ffi.Boundary.FreeString | crates/ios_lib/src/ffi.rs:12-19 | null is ignored; otherwise exactly that handle is released |
| Ffi.Boundary.GetCryptoData | crates/ios_lib/src/ffi.rs:23-104 | an existing client is reused untouched, cells and event-loop state alike; an empty slot is filled only with a client that started, after the bounded wait; the reply is a success with the cached prices exactly when the client holds prices, and an error reply otherwise |
| Ffi.Boundary.GetHistoricalData | crates/ios_lib/src/ffi.rs:108-219 | a symbol or timeframe that is not UTF-8 fails before any client state is touched: the slot, the client's cells and its event-loop state stay as they were. A connected client is kept and `LookupOrRequest` runs on its cells. Without one, a runtime error gives the init failure and leaves the slot and the old client's state as they were. Otherwise a fresh client, with fresh cells under the loaded configuration, replaces the old one and drops its callback, and `LookupOrRequest` runs from the background progress over the first second |
| Ffi.Boundary.RegisterPriceUpdateCallback | crates/ios_lib/src/ffi.rs:241-250 | the installed client's callback becomes the given one; only that client's cells may change, and nothing else in them does |
| ServerState.ClassifyFetch | crates/server/src/data.rs:31-77 | "updated" exactly for a parsed 2xx listing; 429 and 401 are told apart from other HTTP failures |
| ServerState.FetchTick | crates/server/src/data.rs:31-77 | a parsed 2xx listing replaces cache and fetch time together; every failure keeps both |
| ServerState.TickTime | crates/server/src/data.rs:15-18 | the ticks fire at the start and then once per period |
| ServerState.LastKnownGood | crates/server/src/data.rs:31-77 | after any run of ticks, the snapshot is the listing of the last successful tick, stamped with the clock reading taken after its response; the initial snapshot when no tick succeeded |
| ServerState.StoredTimeNotBeforeTick | crates/server/src/data.rs:15-48 | when every clock reading is taken after its tick fired, the stored fetch time is no earlier than the scheduled time of the last successful tick |
| ServerState.Age | crates/server/src/handlers.rs:15 | elapsed time, with a fetch time in the future counted as 0 |
| ServerState.PricesResponse | crates/server/src/handlers.rs:9-36 | with a listing: that data, its fetch time and `cached` exactly when older than 30 s; without one: empty, "Never", not cached |
| ServerState.StaleBoundary | crates/server/src/handlers.rs:16 | a listing exactly 30 s old is fresh, and one nanosecond later it is cached |
| ServerState.AppState.constructor | crates/server/src/types.rs:23-31 | empty caches, the start time as fetch time, the given key and interval |
| Publisher.IndividualPlan | crates/server/src/mqtt/publisher.rs:23-36 | every per-currency publish is QoS 1, retained, and goes to the topic of the currency it carries |
| Publisher.PricePlan | crates/server/src/mqtt/publisher.rs:6-37 | nothing when the list does not serialise; otherwise the whole list first, on the latest topic, QoS 1, retained |
| Publisher.IndividualPlanComplete | crates/server/src/mqtt/publisher.rs:23-36 | when every currency serialises, currency i is the i-th per-currency publish, on `crypto/prices/{symbol}` with the symbol unchanged |
| Publisher.PricePlanShape | crates/server/src/mqtt/publisher.rs:8-36 | a non-empty plan has exactly one publish per currency after the list, in list order |
| Publisher.IndividualPlanStep | crates/server/src/mqtt/publisher.rs:23-36 | one more currency adds its publish at the end if it serialises |
| Publisher.PublishCryptoDataToMqtt | crates/server/src/mqtt/publisher.rs:6-37 | the loop attempts exactly the publishes of the plan, in order |
| Publisher.HistoricalPublication | crates/server/src/mqtt/publisher.rs:39-62 | topic `crypto/historical/{upper(symbol)}/{timeframe}`, QoS 0, retained, decoding back to the result; nothing when serialisation fails |
| Publisher.EmptyRetained | crates/server/src/mqtt/publisher.rs:64-69 | an empty, retained, QoS 1 payload on the topic, which no decoder accepts |
| Data.ApiKeyPrefix | crates/server/src/data.rs:21 | the first min(8, length) characters of the key |
| Data.TickPublications | crates/server/src/data.rs:51-56 | a failed tick publishes nothing |
| Data.FetchOnce | crates/server/src/data.rs:23-77 | one tick: the snapshot becomes `FetchTick` of the outcome at the tick's clock reading, and the publishes are the tick's plan |
| Data.FetchDataPeriodically | crates/server/src/data.rs:11-79 | the snapshot after the ticks is `Fetched`, stamped with each successful tick's clock reading, and the publishes are the plans of the successful ticks, in order |
| Data.ClearIntervalFor | crates/server/src/data.rs:93-101 | one of 300, 3600, 7200, 21600 or 86400 seconds; a timeframe outside the cleared list gives 3600 |
| Data.TimeframeClearing | crates/server/src/data.rs:105-119 | one effect per cleared symbol, then the timeframe's pause as the last effect |
| Data.CyclePlanShape | crates/server/src/data.rs:90-120 | k timeframes give 11·k effects, and every clear is an empty retained message on a historical topic |
| Data.ClearTimeframe | crates/server/src/data.rs:106-119 | the inner loop produces exactly the timeframe's clearing |
| Data.ClearCycle | crates/server/src/data.rs:90-120 | one pass of the outer loop yields the clearing of the six timeframes, in order |
| Data.ClearMqttCachePeriodically | crates/server/src/data.rs:81-122 | a 300 s delay, then full passes over the six timeframes in order |
| Data.IntervalForTimeframe | crates/server/src/data.rs:217-228 | one of 5m, 1h, 2h, 6h, 1d; unknown timeframes give 1h |
| Data.DaysForTimeframe | crates/server/src/data.rs:239-248 | one of 1, 7, 30, 90, 365; unknown timeframes give 30 |
| Data.WindowHoldsSamples | crates/server/src/data.rs:239-248 | for every timeframe the window holds between 1 and 720 samples |
| Data.PointOf | crates/server/src/data.rs:352-365 | a quote yields a point exactly when its timestamp parses and it has a USD price; the volume is optional |
| Data.PointsOfAppend | crates/server/src/data.rs:351-367 | extraction distributes over concatenation, so points keep quote order |
| Data.PointsEmptyIffAllMalformed | crates/server/src/data.rs:370 | no point exactly when every quote is malformed |
| Data.ExtractPoints | crates/server/src/data.rs:348-368 | the push loop yields exactly `PointsOf` |
| Data.Failure | crates/server/src/data.rs:273-413 | a failure result has empty data, the message, the symbol and the timeframe |
| Data.HistoricalResult | crates/server/src/data.rs:230-415 | always well-formed, with the upper-cased symbol and the timeframe; success exactly when an id was found and the history yields a point, and then the data is the points |
| Data.FetchHistoricalDataServer | crates/server/src/data.rs:230-415 | the result is `HistoricalResult`; the history request is made exactly when an id was found, with that id and the timeframe's days and interval |
| Data.MappingOf | crates/server/src/data.rs:607-610 | every key is the upper-cased symbol of some entry |
| Data.MappingLastWins | crates/server/src/data.rs:607-610 | every upper-cased symbol maps to the id of its last entry |
| Data.BuildMapping | crates/server/src/data.rs:607-610 | the insert loop yields exactly `MappingOf` |
| Data.FetchCmcMapping | crates/server/src/data.rs:588-630 | the map is replaced wholesale exactly for a parsed 2xx response with error code 0; otherwise it is kept and the code's error text is returned |
| RequestHandler.RequestText | crates/server/src/mqtt/request_handler.rs:53 | a non-UTF-8 payload reads as "" |
| RequestHandler.ParseRequest | crates/server/src/mqtt/request_handler.rs:57 | no result exactly when there is no ':'; otherwise the payload is the symbol, ':' and the timeframe, and the symbol holds no ':' |
| RequestHandler.RequestRoundTrip | crates/ios_lib/src/ffi.rs:180 | the payload the client builds parses back into its symbol and timeframe when the symbol holds no ':' |
| RequestHandler.ColonInSymbolMisparses | crates/server/src/mqtt/request_handler.rs:57 | a symbol holding ':' is split at its own ':' |
| RequestHandler.MalformedLookingRequestsSplit | crates/server/src/mqtt/request_handler.rs:159-183 | "BTC:", ":24h" and "BTC:24h:extra" still split and dispatch; "BTC-24h" and "" do not |
| RequestHandler.SubscriberBroker | crates/server/src/mqtt/request_handler.rs:21-24 | host from the environment or 127.0.0.1; port parsed as u16 or 1883 |
| RequestHandler.SetupRequestHandling | crates/server/src/mqtt/request_handler.rs:9-36 | succeeds exactly when both subscriptions succeed; the first failure is reported |
| RequestHandler.OnRequestEvent | crates/server/src/mqtt/request_handler.rs:43-98 | only publishes on exactly the request topic act: dispatch exactly when the text holds ':', otherwise rejection; an error waits 5 s |
| RequestHandler.RequestLoop | crates/server/src/mqtt/request_handler.rs:42-99 | the loop's effects are those of its events, in order |
| RequestHandler.ServeRequest | crates/server/src/mqtt/request_handler.rs:64-84 | the spawned task publishes the historical result only on success |
| Handlers.GetPrices | crates/server/src/handlers.rs:9-36 | the response is `PricesResponse` of the snapshot, and nothing changes |
| Handlers.HistoricalCacheKey | crates/server/src/handlers.rs:61 | the key is exactly the symbol as given, then ':', then the timeframe; the symbol is not case-normalised |
| Handlers.CacheKeyIsCaseSensitive | crates/server/src/handlers.rs:61 | any two different spellings of a symbol with the same upper-case form share an MQTT topic but not a cache entry |
| Handlers.CacheKeyExample | crates/server/src/handlers.rs:61 | "btc" and "BTC" are two cache entries |
| Handlers.GetHistoricalData | crates/server/src/handlers.rs:47-79 | the result, failures included, is always cached under `symbol:timeframe`, overwriting; it is published only on success and returned unchanged |
| LegacyServer.ApiKeyFrom | src/server.rs:152-156 | `CMC_API_KEY` or "YOUR_API_KEY_HERE" |
| LegacyServer.LegacyState.constructor | src/server.rs:150-163 | no listing, the start time as fetch time, the key after `.env` is loaded |
| LegacyServer.LegacyState.GetPrices | src/server.rs:53-81 | the same response rule as the MQTT server |
| LegacyServer.LegacyState.FetchDataPeriodically | src/server.rs:83-135 | the snapshot after the ticks is `Fetched`: the last successful listing, stamped with the clock reading taken after its response |
| EndToEnd.DeliverAppend | crates/ios_lib/src/mqtt/message_handler.rs:25-40 | handling two runs of publishes is handling their concatenation |
| EndToEnd.IndividualPlanInert | crates/ios_lib/src/mqtt/message_handler.rs:82-97 | the per-currency publishes change nothing in a client |
| EndToEnd.PricePublishDelivered | crates/server/src/mqtt/publisher.rs:6-37 | after a price publish the client holds exactly the published list and nothing else changed |
| EndToEnd.RetainedOn | crates/server/src/mqtt/publisher.rs:16-33 | when present, a retained publish on that topic |
| EndToEnd.RetainedAfterList | crates/server/src/mqtt/publisher.rs:16-36 | after the list, the retained message on the latest topic stays the list unless a currency is named "latest" |
| EndToEnd.LateSubscriberSeesList | crates/server/src/mqtt/publisher.rs:16-36 | a client subscribing later reads the list from the latest topic exactly when no currency's symbol is "latest" |
| EndToEnd.HistoricalRequestRoundTrip | crates/ios_lib/src/ffi.rs:180 | for a symbol and timeframe usable as topic levels, a client's request is dispatched as sent, the server's answer, published on the upper-cased symbol's topic, reaches the client's `crypto/historical/+/+` subscription, and it is stored under exactly the key the client looks up |
| EndToEnd.ClearedPublications | crates/server/src/data.rs:106-116 | at most one publish per clearing effect |
| EndToEnd.EmptyRetainedInert | crates/server/src/mqtt/publisher.rs:64-69 | empty retained messages change no client state |
| EndToEnd.ClearingLeavesClientsUnchanged | crates/server/src/data.rs:81-122 | a full clearing pass leaves every client's view, including its historical cache, as it was |

## Left out

- Network, broker and timers are not modelled. HTTP requests, the rumqttd
  broker, rumqttc polling, tokio timers, `spawn`, `sleep` and `timeout`
  appear only as their outcomes, which are inputs. The endless loops are
  run over finite input sequences.
- Concurrency is not modelled. `Arc<Mutex<…>>` cells are plain fields
  updated one step at a time. The background thread makes progress only
  during the FFI sleeps, as batches of events.
- JSON and chrono are abstract. serde is a body holding a typed record,
  or plain text, or non-UTF-8 bytes. Whether a record serialises is an
  input predicate. RFC 3339 parsing is an input field of each quote.
  Timestamps and the `last_updated` text are inputs.
- Floats (`f64`) are `real`s that are passed through unchanged.
- Case mapping is ASCII only: `to_uppercase` and `to_lowercase` map only
  a–z and A–Z.
- Raw pointers and `CString` are integer handles in a live map.
  `free_string` requires a live handle. A null symbol or timeframe
  pointer is not modelled.
- MessageHandler.OnMessage: the byte slices of the log lines are not
  modelled. These are `&payload[..payload.len().min(300)]` at
  crates/ios_lib/src/mqtt/message_handler.rs:29, and the same with 200,
  1000, 800 and 500 bytes at lines 38, 60, 77 and 94. Each one panics when
  that byte falls inside a multi-byte character of the lossily decoded
  payload. The panic kills the event-loop thread, leaves `is_connected`
  as it was, and loses every later message. The model instead handles
  every message, and Connection.Run consumes every event.
- MessageHandler.MessageHandler.HandleMessage: the same panic at
  crates/ios_lib/src/mqtt/message_handler.rs:29 is not modelled; the
  method always completes with the cells as `OnMessage` gives them.
- Data.ApiKeyPrefix: it takes the first eight characters. The code
  (crates/server/src/data.rs:21) takes the first eight bytes. For a key
  with a non-ASCII character among them, the prefix differs, or the slice
  panics and ends the fetch task.
- Panics are not modelled: `unwrap` on a poisoned mutex, the
  `Runtime::new().unwrap()` at crates/ios_lib/src/ffi.rs:184, and
  `tokio::time::interval` with period 0.
  - Data.FetchDataPeriodically: requires a positive interval because
    the code panics on 0.
- Logging output is not modelled. `debug_log` file writes and console
  output are I/O. Only the level mapping, the log path and whether a
  global logger is installed are modelled.
- Globals.ClientSlot.InitMqttClient and Ffi.Boundary.GetHistoricalData
  follow the corrected construction (see Findings). The replaced client's
  event-loop thread is not stopped: it holds clones of the old cells
  (crates/ios_lib/src/mqtt/connection.rs:53-77) and keeps running under
  the same MQTT client id, so the broker sees two sessions that take
  each other over. Only the installed client is modelled.
- Client.MqttClient.New, Globals.ClientSlot.InitMqttClient,
  Ffi.Boundary.GetCryptoData and Ffi.Boundary.GetHistoricalData model
  the intended `try_init`. As written, a second construction in a
  process panics, and across the C boundary the process aborts.
  Client.MqttClient.NewAsWritten and
  Globals.ClientSlot.InitMqttClientAsWritten model that.
- Client.MqttClient.New does not pass the variables that `Config::load`
  sets on to later calls; the loaded configuration is returned
  separately by `ClientConfig.Load`.
- Connection.ConnectionManager.StartEventLoop: the counter is an
  unbounded `nat`, not a `u32`. It never passes 6, so wrap-around cannot
  occur.
- Connection.ConnectionManager.StartEventLoop: the message handler is
  built per call. The code builds one per loop. It holds only the same
  cells, so nothing observable differs.
- Ffi.WaitForConnection: elapsed time is taken to be the number of polls
  × 100 ms. Real elapsed time also counts lock waits and scheduling.
- Ffi.Boundary.GetCryptoData and Ffi.Boundary.GetHistoricalData: the
  reply is the record the JSON string encodes. The serialisation
  fallbacks are not modelled, because serialising these records never
  fails (serde_json writes a non-finite `f64` as null). `connect()`
  always succeeds, so its error branches are not modelled either.
- Serialisation on the server is over-approximated. Publisher.PricePlan,
  Publisher.HistoricalPublication, Handlers.GetHistoricalData and
  RequestHandler.ServeRequest take an input saying whether the record
  serialises. The model proves its properties for both answers, although
  with serde_json the answer is always yes.
- Publisher.PublishCryptoDataToMqtt: a publish timeout that cuts the
  plan short is not modelled. This affects the 100 ms timeout at
  crates/server/src/data.rs:53-56 and the 1000 ms timeouts in
  handlers.rs and the clearing loop. The model lists the publishes
  attempted.
- RequestHandler.RequestText: a request payload that is a serialised
  record is read as "", and so is rejected.
- The `health_check` endpoints, `publish_initial_priority_data`
  (test-only) and the server's `main` wiring are not modelled.
- `AppState` carries `cmc_mapping`, which crates/server/src/types.rs
  lacks but crates/server/src/data.rs writes. It carries no `logo_cache`,
  which nothing in the modelled functions uses.

## Findings

| source | as written | input that shows it | evidently intended | confidence | as-written member | corrected member |
|---|---|---|---|---|---|---|
| crates/shared/src/logging.rs:52-54 | `MQTTClient::new` calls `init_logging` first (crates/ios_lib/src/mqtt/client.rs:32), and its env_logger `init()` panics when a logger is already installed, so every construction after the first in a process panics | `init_mqtt_client` twice; or `get_crypto_data` with the broker unreachable, then `get_historical_data("BTC", "24h")`, which builds a new client because none is connected | `try_init()`, so that `init_mqtt_client` can "Initialize or reinitialize" and `get_historical_data` can replace a client that never connected | not executed | Globals.ReinitialisationPanicsAsWritten | Globals.ReinitialisationReplaces |
