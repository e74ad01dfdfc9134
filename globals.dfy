/** The process-wide client slot (crates/ios_lib/src/globals.rs): the
    `MQTT_CLIENT` mutex holding at most one client. */
module Globals {
  import opened Wrappers
  import opened Env
  import opened ClientConfig
  import opened ClientState
  import opened Client
  import Logging

  /** The closure `is_mqtt_connected` passes to `with_mqtt_client`. */
  function ConnectedOf(c: MqttClient): bool
    reads c.cells
  {
    c.cells.isConnected
  }

  class ClientSlot {
    var client: Option<MqttClient>
    /** The process's global logger, which every client construction sets up. */
    const logger: Logging.GlobalLogger

    /** The objects reachable from the slot that the FFI layer may change. */
    function Footprint(): set<object>
      reads this
    {
      if client.Some? then {client.value, client.value.cells} else {}
    }

    /** The static starts out empty. */
    constructor ()
      ensures client.None? && fresh(logger) && !logger.installed
    {
      client := None;
      logger := new Logging.GlobalLogger();
    }

    /** `init_mqtt_client`: build a client and install it, replacing any
        previous one; on failure the slot is left as it was. */
    method InitMqttClient(runtimeError: Option<string>, env: Environment, envFile: Option<Environment>)
      returns (o: Outcome<string>)
      modifies this, logger
      ensures o.Pass? <==> runtimeError.None?
      ensures o.Fail? ==> o.error == "Failed to create runtime: " + runtimeError.value && client == old(client)
      ensures o.Pass? ==> client.Some? && fresh(client.value) && fresh(client.value.cells)
      ensures o.Pass? ==> client.value.cells.View() == InitialView && client.value.eventLoopRunning
      ensures o.Pass? ==> client.value.manager.config == Load(env, envFile).0
    {
      var created := MqttClient.New(logger, runtimeError, env, envFile);
      if created.Err? {
        return Fail(created.error);
      }
      var c := created.value;
      o := c.Connect();
      client := Some(c);
    }

    /** `init_mqtt_client` as written, over `MqttClient.NewAsWritten`: None
        when the construction panicked, which leaves the slot as it was. */
    method InitMqttClientAsWritten(runtimeError: Option<string>, env: Environment, envFile: Option<Environment>)
      returns (o: Option<Outcome<string>>)
      modifies this, logger
      ensures logger.installed
      ensures o.None? <==> old(logger.installed)
      ensures o.None? ==> client == old(client)
      ensures o.Some? ==> (o.value.Pass? <==> runtimeError.None?)
      ensures o.Some? && o.value.Fail? ==> client == old(client)
      ensures o.Some? && o.value.Pass? ==> client.Some? && fresh(client.value) && client.value.cells.View() == InitialView
    {
      var created := MqttClient.NewAsWritten(logger, runtimeError, env, envFile);
      if created.None? {
        return None;
      }
      if created.value.Err? {
        return Some(Fail(created.value.error));
      }
      var c := created.value.value;
      var connected := c.Connect();
      client := Some(c);
      o := Some(connected);
    }

    /** `with_mqtt_client`: `f` applied to the installed client, or nothing
        when the slot is empty. */
    function WithMqttClient<T>(f: MqttClient ~> T): (r: Option<T>)
      requires client.Some? ==> f.requires(client.value)
      reads this, if client.Some? then f.reads(client.value) else {}
      ensures r.None? <==> client.None?
      ensures client.Some? ==> r == Some(f(client.value))
    {
      if client.Some? then Some(f(client.value)) else None
    }

    /** `is_mqtt_connected`: false when there is no client. */
    method IsMqttConnected() returns (b: bool)
      ensures b == WithMqttClient(ConnectedOf).UnwrapOr(false)
      ensures b <==> client.Some? && client.value.cells.isConnected
    {
      b := false;
      if client.Some? {
        b := client.value.IsConnected();
      }
    }

    /** `reset_mqtt_connection_attempts`: resets the installed client's
        counter, if there is one; nothing else changes. */
    method ResetMqttConnectionAttempts()
      modifies if client.Some? then {client.value.cells} else {}
      ensures client.Some? ==> client.value.cells.View() == old(client.value.cells.View()).(connectionAttempts := 0)
    {
      if client.Some? {
        client.value.ResetConnectionAttempts();
      }
    }
  }

  /** As written, initialising the client twice in one process panics the
      second time, even though the first call succeeded and the runtime
      starts both times. */
  method ReinitialisationPanicsAsWritten(env: Environment, envFile: Option<Environment>)
    returns (first: Option<Outcome<string>>, second: Option<Outcome<string>>)
    ensures first == Some(Pass) && second.None?
  {
    var slot := new ClientSlot();
    first := slot.InitMqttClientAsWritten(None, env, envFile);
    second := slot.InitMqttClientAsWritten(None, env, envFile);
  }

  /** With `try_init`, initialising twice succeeds both times and the second
      call installs a different client, as "Initialize or reinitialize"
      promises. */
  method ReinitialisationReplaces(env: Environment, envFile: Option<Environment>)
    returns (first: Outcome<string>, second: Outcome<string>, replaced: bool)
    ensures first == Pass && second == Pass && replaced
  {
    var slot := new ClientSlot();
    first := slot.InitMqttClient(None, env, envFile);
    var before := slot.client;
    second := slot.InitMqttClient(None, env, envFile);
    replaced := slot.client != before;
  }
}
