/** The connection manager (crates/ios_lib/src/mqtt/connection.rs): client
    options, and the background event loop that tracks the connection,
    subscribes after each connect, backs off on errors and hands publishes
    to the message handler. The loop is driven by a finite sequence of
    events standing for what `poll` yields; sleeps are reported as effects. */
module Connection {
  import opened Wrappers
  import opened Text
  import opened Mqtt
  import opened ClientConfig
  import opened ClientState
  import opened MessageHandler

  /** What `create_client` hands to rumqttc. */
  datatype ClientOptions = ClientOptions(
    clientId: string, host: string, port: nat, keepAliveSeconds: nat,
    cleanSession: bool, maxIncomingPacket: nat, maxOutgoingPacket: nat, requestCapacity: nat)

  /** The number of failed attempts after which the loop gives up. */
  const MaxFailedAttempts: nat := 5

  function Pow2(n: nat): (p: nat)
    ensures p >= 1
  {
    if n == 0 then 1 else 2 * Pow2(n - 1)
  }

  /** The back-off before retry number `attempts`: two to the power
      `min(attempts - 1, 5)` seconds. */
  function BackoffDelay(attempts: nat): (d: nat)
    requires attempts >= 1
    ensures 1 <= d <= 32
    ensures attempts <= 6 ==> d == Pow2(attempts - 1)
  {
    var k := Min(attempts - 1, 5);
    assert k == 0 || k == 1 || k == 2 || k == 3 || k == 4 || k == 5;
    Pow2(k)
  }

  /** Where a connection error leaves the loop. */
  datatype ErrorVerdict = Retry(delaySeconds: nat) | GiveUp

  /** A side effect of the loop: a subscribe request, or a sleep. */
  datatype Effect = Subscribed(topic: string, qos: QoS) | Slept(seconds: nat)

  /** The two subscriptions sent after every ConnAck, in order. */
  const Subscriptions: seq<Effect> :=
    [Subscribed(LatestPricesTopic, AtLeastOnce), Subscribed(HistoricalFilter, AtMostOnce)]

  /** `handle_connection_success`: connected, the counter back to zero. */
  function OnConnAck(v: ClientView): (r: ClientView)
    ensures r.isConnected && r.connectionAttempts == 0
    ensures r.latestPrices == v.latestPrices && r.historicalData == v.historicalData
    ensures r.priceUpdateCallback == v.priceUpdateCallback
  {
    v.(isConnected := true, connectionAttempts := 0)
  }

  /** `handle_connection_error`: one more failed attempt; retry after the
      back-off while there have been at most five, give up after that. */
  function OnConnectionError(v: ClientView): (r: (ClientView, ErrorVerdict))
    ensures !r.0.isConnected && r.0.connectionAttempts == v.connectionAttempts + 1
    ensures r.0.latestPrices == v.latestPrices && r.0.historicalData == v.historicalData
    ensures r.0.priceUpdateCallback == v.priceUpdateCallback
    ensures r.1.GiveUp? <==> v.connectionAttempts >= MaxFailedAttempts
    ensures r.1.Retry? ==> r.1.delaySeconds == Pow2(v.connectionAttempts)
  {
    var attempts := v.connectionAttempts + 1;
    var w := v.(isConnected := false, connectionAttempts := attempts);
    if attempts <= MaxFailedAttempts then (w, Retry(BackoffDelay(attempts))) else (w, GiveUp)
  }

  /** What one event does: the new cells, the effects, and whether the loop
      breaks. */
  datatype StepResult = StepResult(view: ClientView, effects: seq<Effect>, stop: bool)

  function Step(v: ClientView, e: Event): (r: StepResult)
    ensures r.stop <==> e.ConnectionError? && v.connectionAttempts >= MaxFailedAttempts
    ensures r.view.priceUpdateCallback == v.priceUpdateCallback
    ensures v.historicalData.Keys <= r.view.historicalData.Keys
    ensures !e.ConnAck? && !e.ConnectionError? ==> r.view.connectionAttempts == v.connectionAttempts
  {
    match e
    case ConnAck => StepResult(OnConnAck(v), Subscriptions, false)
    case Publish(topic, body) => StepResult(OnMessage(v, topic, body), [], false)
    case Disconnect => StepResult(v.(isConnected := false), [], false)
    case ConnectionError =>
      (match OnConnectionError(v)
       case (w, Retry(d)) => StepResult(w, [Slept(d)], false)
       case (w, GiveUp) => StepResult(w, [], true))
    case PingResp => StepResult(v, [], false)
    case OtherEvent => StepResult(v, [], false)
  }

  /** The loop over a finite run of events: the final cells, all effects in
      order, how many events were taken, and whether it broke off. */
  datatype LoopResult = LoopResult(view: ClientView, effects: seq<Effect>, consumed: nat, gaveUp: bool)

  function Run(v: ClientView, events: seq<Event>): (r: LoopResult)
    ensures r.consumed <= |events|
    ensures !r.gaveUp ==> r.consumed == |events|
    ensures r.gaveUp ==> r.consumed >= 1 && events[r.consumed - 1].ConnectionError?
    ensures r.view.priceUpdateCallback == v.priceUpdateCallback
    ensures v.historicalData.Keys <= r.view.historicalData.Keys
    decreases |events|
  {
    if events == [] then LoopResult(v, [], 0, false)
    else
      var s := Step(v, events[0]);
      if s.stop then LoopResult(s.view, s.effects, 1, true)
      else
        var rest := Run(s.view, events[1..]);
        LoopResult(rest.view, s.effects + rest.effects, rest.consumed + 1, rest.gaveUp)
  }

  /** The rest of a run, after `i` events that produced `done`. */
  function After(done: seq<Effect>, i: nat, rest: LoopResult): LoopResult {
    LoopResult(rest.view, done + rest.effects, i + rest.consumed, rest.gaveUp)
  }

  /** Taking event `i` either ends the run or moves one event on. */
  lemma RunAdvance(v: ClientView, events: seq<Event>, i: nat, done: seq<Effect>)
    requires i < |events|
    ensures Step(v, events[i]).stop ==>
              After(done, i, Run(v, events[i..])) ==
              LoopResult(Step(v, events[i]).view, done + Step(v, events[i]).effects, i + 1, true)
    ensures !Step(v, events[i]).stop ==>
              After(done, i, Run(v, events[i..])) ==
              After(done + Step(v, events[i]).effects, i + 1, Run(Step(v, events[i]).view, events[i + 1..]))
  {
    assert events[i..][0] == events[i];
    assert events[i..][1..] == events[i + 1..];
    var s := Step(v, events[i]);
    if !s.stop {
      var rest := Run(s.view, events[i + 1..]);
      assert done + (s.effects + rest.effects) == (done + s.effects) + rest.effects;
    }
  }

  /** `n` consecutive connection errors. */
  function Errors(n: nat): (es: seq<Event>)
    ensures |es| == n && forall i :: 0 <= i < n ==> es[i] == ConnectionError
  {
    seq(n, _ => ConnectionError)
  }

  /** The sleeps of a back-off schedule starting after `a` failures. */
  function Backoffs(a: nat, n: nat): (es: seq<Effect>)
    ensures |es| == n
    decreases n
  {
    if n == 0 then [] else [Slept(Pow2(a))] + Backoffs(a + 1, n - 1)
  }

  /** From `a` earlier failures, `n` more errors within the limit each sleep
      twice as long as the one before; the error that goes past the limit
      breaks the loop without sleeping. */
  lemma {:induction false} ErrorRun(v: ClientView, n: nat)
    ensures v.connectionAttempts + n <= MaxFailedAttempts ==>
              Run(v, Errors(n)) == LoopResult(
                v.(isConnected := if n > 0 then false else v.isConnected,
                   connectionAttempts := v.connectionAttempts + n),
                Backoffs(v.connectionAttempts, n), n, false)
    ensures v.connectionAttempts + n > MaxFailedAttempts && v.connectionAttempts <= MaxFailedAttempts ==>
              Run(v, Errors(n)) == LoopResult(
                v.(isConnected := false, connectionAttempts := MaxFailedAttempts + 1),
                Backoffs(v.connectionAttempts, MaxFailedAttempts - v.connectionAttempts),
                MaxFailedAttempts + 1 - v.connectionAttempts, true)
    decreases n
  {
    if n > 0 {
      assert Errors(n)[0] == ConnectionError;
      assert Errors(n)[1..] == Errors(n - 1);
      var s := Step(v, ConnectionError);
      if !s.stop {
        ErrorRun(s.view, n - 1);
        if n - 1 == 0 {
          assert Run(s.view, []) == LoopResult(s.view, [], 0, false);
        }
      }
    }
  }

  /** The first five back-off sleeps, in seconds. */
  lemma FirstBackoffs()
    ensures Backoffs(0, 5) == [Slept(1), Slept(2), Slept(4), Slept(8), Slept(16)]
  {
    assert Pow2(1) == 2 && Pow2(2) == 4 && Pow2(3) == 8 && Pow2(4) == 16;
    assert Backoffs(4, 1) == [Slept(16)];
    assert Backoffs(3, 2) == [Slept(8), Slept(16)];
    assert Backoffs(2, 3) == [Slept(4), Slept(8), Slept(16)];
    assert Backoffs(1, 4) == [Slept(2), Slept(4), Slept(8), Slept(16)];
  }

  /** Starting from a fresh counter, the retries wait 1, 2, 4, 8 and 16
      seconds and the sixth consecutive error ends the loop. */
  lemma BackoffSchedule(v: ClientView)
    requires v.connectionAttempts == 0
    ensures Run(v, Errors(6)).gaveUp && Run(v, Errors(6)).consumed == 6
    ensures Run(v, Errors(6)).effects == [Slept(1), Slept(2), Slept(4), Slept(8), Slept(16)]
    ensures Run(v, Errors(6)).view.connectionAttempts == 6
  {
    ErrorRun(v, 6);
    FirstBackoffs();
  }

  /** A ConnAck resets the schedule: the next error retries after 1 second. */
  lemma ConnAckRestartsBackoff(v: ClientView)
    ensures Step(Step(v, ConnAck).view, ConnectionError) ==
              StepResult(v.(isConnected := false, connectionAttempts := 1), [Slept(1)], false)
  {
  }

  /** While the loop runs the counter stays at most 5, and it stops at 6:
      starting within the limit, the counter never exceeds 6, so the `u32`
      increment cannot overflow. */
  lemma {:induction false} AttemptsBounded(v: ClientView, events: seq<Event>)
    requires v.connectionAttempts <= MaxFailedAttempts
    ensures Run(v, events).view.connectionAttempts <= MaxFailedAttempts + 1
    ensures !Run(v, events).gaveUp ==> Run(v, events).view.connectionAttempts <= MaxFailedAttempts
    ensures Run(v, events).gaveUp ==> Run(v, events).view.connectionAttempts == MaxFailedAttempts + 1
    decreases |events|
  {
    if events != [] {
      var s := Step(v, events[0]);
      if !s.stop {
        AttemptsBounded(s.view, events[1..]);
      }
    }
  }

  /** `ConnectionManager`: holds the configuration it was built from. */
  class ConnectionManager {
    const config: Config

    /** `ConnectionManager::new` always succeeds. */
    constructor (config: Config)
      ensures this.config == config
    {
      this.config := config;
    }

    /** `create_client`: options for the configured broker, keep-alive 60 s,
        clean session, 102400-byte packets both ways, capacity 10. */
    function CreateClient(): (o: ClientOptions)
      ensures o.host == config.brokerHost && o.port == config.brokerPort
      ensures o.clientId == "rust-ios-client" && o.keepAliveSeconds == 60 && o.cleanSession
      ensures o.maxIncomingPacket == 102400 && o.maxOutgoingPacket == 102400 && o.requestCapacity == 10
    {
      ClientOptions("rust-ios-client", config.brokerHost, config.brokerPort, 60, true, 102400, 102400, 10)
    }

    /** `start_event_loop`: poll until the events run out or the loop gives
        up, updating the shared cells as it goes. */
    method StartEventLoop(cells: SharedState, events: seq<Event>)
      returns (effects: seq<Effect>, consumed: nat, gaveUp: bool)
      modifies cells
      ensures Run(old(cells.View()), events) == LoopResult(cells.View(), effects, consumed, gaveUp)
    {
      var handler := new MessageHandler(cells);
      ghost var v0 := cells.View();
      effects, consumed, gaveUp := [], 0, false;
      var i := 0;
      while i < |events| && !gaveUp
        invariant 0 <= i <= |events|
        invariant handler.cells == cells
        invariant !gaveUp ==> consumed == i && Run(v0, events) == After(effects, i, Run(cells.View(), events[i..]))
        invariant gaveUp ==> Run(v0, events) == LoopResult(cells.View(), effects, consumed, gaveUp)
        decreases |events| - i + (if gaveUp then 0 else 1)
      {
        RunAdvance(cells.View(), events, i, effects);
        var stepEffects, stop := PollOnce(cells, handler, events[i]);
        effects := effects + stepEffects;
        if stop {
          gaveUp := true;
          consumed := i + 1;
        } else {
          i := i + 1;
          consumed := i;
        }
      }
      if !gaveUp {
        assert events[i..] == [];
      }
    }

    /** One arm of the loop's `match` on the polled event. */
    static method PollOnce(cells: SharedState, handler: MessageHandler, e: Event)
      returns (effects: seq<Effect>, stop: bool)
      requires handler.cells == cells
      modifies cells
      ensures Step(old(cells.View()), e) == StepResult(cells.View(), effects, stop)
    {
      effects, stop := [], false;
      match e {
        case ConnAck =>
          effects := HandleConnectionSuccess(cells);
        case Publish(topic, body) =>
          handler.HandleMessage(topic, body);
        case Disconnect =>
          HandleDisconnect(cells);
        case ConnectionError =>
          stop, effects := HandleConnectionError(cells);
        case PingResp =>
        case OtherEvent =>
      }
    }

    /** `handle_connection_success`: mark connected, reset the counter, then
        request both subscriptions (a failed request is only logged). */
    static method HandleConnectionSuccess(cells: SharedState) returns (effects: seq<Effect>)
      modifies cells`isConnected, cells`connectionAttempts
      ensures cells.View() == OnConnAck(old(cells.View()))
      ensures effects == Subscriptions
    {
      cells.isConnected := true;
      cells.connectionAttempts := 0;
      effects := [Subscribed(LatestPricesTopic, AtLeastOnce)];
      effects := effects + [Subscribed(HistoricalFilter, AtMostOnce)];
    }

    /** `handle_disconnect`: mark disconnected; the counter is kept. */
    static method HandleDisconnect(cells: SharedState)
      modifies cells`isConnected
      ensures cells.View() == old(cells.View()).(isConnected := false)
    {
      cells.isConnected := false;
    }

    /** `handle_connection_error`: returns whether the loop must stop, and
        the sleep it took otherwise. */
    static method HandleConnectionError(cells: SharedState) returns (stop: bool, effects: seq<Effect>)
      modifies cells`isConnected, cells`connectionAttempts
      ensures cells.View() == OnConnectionError(old(cells.View())).0
      ensures stop <==> OnConnectionError(old(cells.View())).1.GiveUp?
      ensures !stop ==> effects == [Slept(OnConnectionError(old(cells.View())).1.delaySeconds)]
      ensures stop ==> effects == []
    {
      cells.isConnected := false;
      cells.connectionAttempts := cells.connectionAttempts + 1;
      var attempts := cells.connectionAttempts;
      if attempts <= MaxFailedAttempts {
        var delay := Pow2(Min(attempts - 1, 5));
        effects := [Slept(delay)];
        stop := false;
      } else {
        effects := [];
        stop := true;
      }
    }
  }
}
