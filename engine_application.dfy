/** The engine-application's `Application`: it owns the one engine of the process,
    releases it (disconnecting the sensor) once no activity has been in front for
    LOGOUT_DELAY ms, and reconnects that sensor when the app is back within
    RECONNECT_TIMEOUT ms. Time is passed in as `now` (ms); the delayed logout is
    kept as the due times of the posted runnables. */
module EngineApp {
  import opened Sdk

  const LOGOUT_DELAY: int := 1000
  const RECONNECT_TIMEOUT: int := 60000

  /** The reconnect guard of `reconnectLastSensor`. */
  predicate ReconnectDue(gotDisconnected: bool, lastSensor: Option<Address>, disconnectedAt: int, now: int)
  {
    gotDisconnected && lastSensor.Some? && now - disconnectedAt < RECONNECT_TIMEOUT
  }

  class EngineApplication {
    /** The singleton engine, or null while released. */
    var engine: Engine?
    /** True if the engine was released while a sensor was connected. */
    var gotDisconnected: bool
    /** The sensor that was connected then. */
    var lastSensor: Option<Address>
    /** When that happened, or -1. */
    var disconnectedAt: int
    /** The due times of the delayed logouts posted and not yet run or cancelled. */
    var pendingLogouts: seq<int>

    /** Without a forced disconnect there is no reconnect information. */
    ghost predicate Valid()
      reads this
    {
      !gotDisconnected ==> lastSensor == None && disconnectedAt == -1
    }

    constructor ()
      ensures Valid() && engine == null && pendingLogouts == []
      ensures !gotDisconnected && lastSensor == None && disconnectedAt == -1
    {
      engine := null;
      gotDisconnected := false;
      lastSensor := None;
      disconnectedAt := -1;
      pendingLogouts := [];
    }

    /** `getEngine(reconnectLastSensor)`: the singleton, created on first use. Only a
        freshly created engine is asked to reconnect the last sensor. */
    method GetEngine(reconnectLastSensor: bool, now: int) returns (e: Engine)
      requires Valid()
      modifies this
      ensures Valid() && engine == e && pendingLogouts == old(pendingLogouts)
      ensures old(engine) != null ==> e == old(engine)
      ensures old(engine) != null ==> gotDisconnected == old(gotDisconnected) && lastSensor == old(lastSensor)
                                      && disconnectedAt == old(disconnectedAt)
      ensures old(engine) == null ==> fresh(e) && e.connection == Disconnected
      ensures old(engine) == null && reconnectLastSensor &&
              ReconnectDue(old(gotDisconnected), old(lastSensor), old(disconnectedAt), now) ==>
                e.log == [Connect(old(lastSensor).value)]
                && !gotDisconnected && lastSensor == None && disconnectedAt == -1
      ensures old(engine) == null && !(reconnectLastSensor &&
              ReconnectDue(old(gotDisconnected), old(lastSensor), old(disconnectedAt), now)) ==>
                e.log == []
                && gotDisconnected == old(gotDisconnected) && lastSensor == old(lastSensor)
                && disconnectedAt == old(disconnectedAt)
    {
      if engine == null {
        engine := new Engine();
        if reconnectLastSensor {
          ReconnectLastSensor(now);
        }
      }
      e := engine;
    }

    /** `reconnectLastSensor`: connect the sensor released less than
        RECONNECT_TIMEOUT ms ago, and forget it. */
    method ReconnectLastSensor(now: int)
      requires Valid() && engine != null
      modifies this, engine
      ensures Valid() && engine == old(engine) && pendingLogouts == old(pendingLogouts)
      ensures engine.connection == old(engine.connection) && engine.sensor == old(engine.sensor)
      ensures ReconnectDue(old(gotDisconnected), old(lastSensor), old(disconnectedAt), now) ==>
                engine.log == old(engine.log) + [Connect(old(lastSensor).value)]
                && !gotDisconnected && lastSensor == None && disconnectedAt == -1
      ensures !ReconnectDue(old(gotDisconnected), old(lastSensor), old(disconnectedAt), now) ==>
                engine.log == old(engine.log)
                && gotDisconnected == old(gotDisconnected) && lastSensor == old(lastSensor)
                && disconnectedAt == old(disconnectedAt)
    {
      if gotDisconnected && lastSensor.Some? && now - disconnectedAt < RECONNECT_TIMEOUT {
        engine.Issue(Connect(lastSensor.value));
        gotDisconnected := false;
        lastSensor := None;
        disconnectedAt := -1;
      }
    }

    /** `onActivityCreated`, `onActivityStarted` and `onActivityResumed` all cancel
        every pending delayed logout. */
    method OnActivityCreated()
      modifies this
      ensures pendingLogouts == []
      ensures engine == old(engine) && gotDisconnected == old(gotDisconnected)
      ensures lastSensor == old(lastSensor) && disconnectedAt == old(disconnectedAt)
    {
      CancelLogouts();
    }

    method OnActivityStarted()
      modifies this
      ensures pendingLogouts == []
      ensures engine == old(engine) && gotDisconnected == old(gotDisconnected)
      ensures lastSensor == old(lastSensor) && disconnectedAt == old(disconnectedAt)
    {
      CancelLogouts();
    }

    method OnActivityResumed()
      modifies this
      ensures pendingLogouts == []
      ensures engine == old(engine) && gotDisconnected == old(gotDisconnected)
      ensures lastSensor == old(lastSensor) && disconnectedAt == old(disconnectedAt)
    {
      CancelLogouts();
    }

    /** `mHandler.removeCallbacks(mDelayedLogout)`. */
    method CancelLogouts()
      modifies this
      ensures pendingLogouts == []
      ensures engine == old(engine) && gotDisconnected == old(gotDisconnected)
      ensures lastSensor == old(lastSensor) && disconnectedAt == old(disconnectedAt)
    {
      pendingLogouts := [];
    }

    /** `onActivityPaused`: post a logout due LOGOUT_DELAY ms from now. */
    method OnActivityPaused(now: int)
      modifies this
      ensures pendingLogouts == old(pendingLogouts) + [now + LOGOUT_DELAY]
      ensures engine == old(engine) && gotDisconnected == old(gotDisconnected)
      ensures lastSensor == old(lastSensor) && disconnectedAt == old(disconnectedAt)
    {
      pendingLogouts := pendingLogouts + [now + LOGOUT_DELAY];
    }

    /** The handler runs the posted logout `k`, which is due: it releases the
        engine. A logout that was cancelled can no longer run. */
    method RunDelayedLogout(k: nat, now: int)
      requires Valid() && k < |pendingLogouts| && pendingLogouts[k] <= now
      modifies this, engine
      ensures Valid() && engine == null
      ensures pendingLogouts == old(pendingLogouts[..k] + pendingLogouts[k + 1..])
      ensures old(engine) != null && old(engine.connection) == Connected ==>
                old(engine).log == old(engine.log) + [Disconnect, Release]
                && gotDisconnected && lastSensor == old(engine.sensor) && disconnectedAt == now
      ensures !(old(engine) != null && old(engine.connection) == Connected) ==>
                gotDisconnected == old(gotDisconnected) && lastSensor == old(lastSensor)
                && disconnectedAt == old(disconnectedAt)
      ensures old(engine) != null && old(engine.connection) != Connected ==>
                old(engine).log == old(engine.log) + [Release]
    {
      pendingLogouts := pendingLogouts[..k] + pendingLogouts[k + 1..];
      ReleaseEngine(now);
    }

    /** `releaseEngine`: if a sensor is connected, remember it and when, and
        disconnect it; then release the engine and drop it. Without an engine
        it does nothing. */
    method ReleaseEngine(now: int)
      requires Valid()
      modifies this, engine
      ensures Valid() && engine == null && pendingLogouts == old(pendingLogouts)
      ensures old(engine) != null && old(engine.connection) == Connected ==>
                old(engine).log == old(engine.log) + [Disconnect, Release]
                && old(engine).connection == old(engine.connection)
                && gotDisconnected && lastSensor == old(engine.sensor) && disconnectedAt == now
      ensures !(old(engine) != null && old(engine.connection) == Connected) ==>
                gotDisconnected == old(gotDisconnected) && lastSensor == old(lastSensor)
                && disconnectedAt == old(disconnectedAt)
      ensures old(engine) != null && old(engine.connection) != Connected ==>
                old(engine).log == old(engine.log) + [Release]
    {
      if engine != null {
        if engine.connection == Connected {
          lastSensor := engine.sensor;
          gotDisconnected := true;
          disconnectedAt := now;
          engine.Issue(Disconnect);
        }
        engine.Issue(Release);
        engine := null;
      }
    }
  }
}
