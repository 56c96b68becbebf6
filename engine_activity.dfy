/** The engine-service's base activity: it binds to the service that owns the
    engine and calls its subclass's `registerHandlers` / `unregisterHandlers` so
    that handlers are registered only while the service is bound, and never
    registered twice. */
module ServiceHost {
  import opened Sdk

  /** Which overridable hook a lifecycle or service callback invokes. */
  datatype Hook = NoHook | RegisterHandlersHook | UnregisterHandlersHook

  class EngineActivity {
    /** The engine handed over by the bound service, or null. */
    var engine: Engine?
    var bound: bool
    var handlersRegistered: bool

    /** Handlers are registered only while bound, and bound means an engine. */
    ghost predicate Valid()
      reads this
    {
      && (handlersRegistered ==> bound)
      && (bound <==> engine != null)
    }

    constructor ()
      ensures Valid() && engine == null && !bound && !handlersRegistered
    {
      engine := null;
      bound := false;
      handlersRegistered := false;
    }

    /** `onResume`: register the handlers if bound and not yet registered. */
    method OnResume() returns (hook: Hook)
      requires Valid()
      modifies this
      ensures (bound, handlersRegistered, hook) == HostStep(old(bound), old(handlersRegistered), Resume)
      ensures Valid() && engine == old(engine) && bound == old(bound)
      ensures hook == (if old(bound) && !old(handlersRegistered) then RegisterHandlersHook else NoHook)
      ensures handlersRegistered == (old(handlersRegistered) || old(bound))
      ensures old(bound) ==> handlersRegistered
      ensures !old(bound) ==> handlersRegistered == old(handlersRegistered)
    {
      hook := NoHook;
      if bound && !handlersRegistered {
        hook := RegisterHandlersHook;
        handlersRegistered := true;
      }
    }

    /** `onPause`: unregister the handlers if bound and registered. */
    method OnPause() returns (hook: Hook)
      requires Valid()
      modifies this
      ensures (bound, handlersRegistered, hook) == HostStep(old(bound), old(handlersRegistered), Pause)
      ensures Valid() && engine == old(engine) && bound == old(bound) && !handlersRegistered
      ensures hook == (if old(bound) && old(handlersRegistered) then UnregisterHandlersHook else NoHook)
    {
      hook := NoHook;
      if bound && handlersRegistered {
        hook := UnregisterHandlersHook;
        handlersRegistered := false;
      }
    }

    /** `onServiceConnected`: keep the service's engine and register the handlers
        unless they already are (the service may connect after `onResume`). */
    method OnServiceConnected(e: Engine) returns (hook: Hook)
      requires Valid()
      modifies this
      ensures (bound, handlersRegistered, hook) == HostStep(old(bound), old(handlersRegistered), ServiceConnected)
      ensures Valid() && engine == e && bound && handlersRegistered
      ensures hook == (if old(handlersRegistered) then NoHook else RegisterHandlersHook)
    {
      engine := e;
      bound := true;
      hook := NoHook;
      if !handlersRegistered {
        hook := RegisterHandlersHook;
        handlersRegistered := true;
      }
    }

    /** `onServiceDisconnected`: forget the engine; the handlers count as gone,
        without calling `unregisterHandlers`. */
    method OnServiceDisconnected() returns (hook: Hook)
      requires Valid()
      modifies this
      ensures (bound, handlersRegistered, hook) == HostStep(old(bound), old(handlersRegistered), ServiceDisconnected)
      ensures Valid() && engine == null && !bound && !handlersRegistered
      ensures hook == NoHook
    {
      bound := false;
      engine := null;
      handlersRegistered := false;
      hook := NoHook;
    }
  }

  /** One callback delivered to the activity. */
  datatype HostEvent = Resume | Pause | ServiceConnected | ServiceDisconnected

  /** The flags (bound, registered) after one callback, and the hook it invokes:
      the same decisions as the methods of `EngineActivity`, on values. */
  function HostStep(bound: bool, registered: bool, ev: HostEvent): (bool, bool, Hook)
  {
    match ev
    case Resume =>
      if bound && !registered then (bound, true, RegisterHandlersHook) else (bound, registered, NoHook)
    case Pause =>
      if bound && registered then (bound, false, UnregisterHandlersHook) else (bound, registered, NoHook)
    case ServiceConnected =>
      if registered then (true, true, NoHook) else (true, true, RegisterHandlersHook)
    case ServiceDisconnected => (false, false, NoHook)
  }

  /** The hooks a run of callbacks invokes, one per callback, starting from the given flags. */
  function HostHooks(bound: bool, registered: bool, evs: seq<HostEvent>): (hooks: seq<Hook>)
    ensures |hooks| == |evs|
    decreases |evs|
  {
    if evs == [] then []
    else
      var (b, r, h) := HostStep(bound, registered, evs[0]);
      [h] + HostHooks(b, r, evs[1..])
  }

  /** The flags after a run of callbacks. */
  function HostState(bound: bool, registered: bool, evs: seq<HostEvent>): (bool, bool)
    decreases |evs|
  {
    if evs == [] then (bound, registered)
    else
      var (b, r, _) := HostStep(bound, registered, evs[0]);
      HostState(b, r, evs[1..])
  }

  /** The hook of the `i`-th callback of a run is `HostStep`'s decision in the state
      the earlier callbacks left. */
  lemma {:induction false} HookOfCallback(bound: bool, registered: bool, evs: seq<HostEvent>, i: nat)
    requires i < |evs|
    ensures var (b, r) := HostState(bound, registered, evs[..i]);
            HostHooks(bound, registered, evs)[i] == HostStep(b, r, evs[i]).2
    decreases i
  {
    var (b, r, h) := HostStep(bound, registered, evs[0]);
    if i == 0 {
      assert evs[..0] == [];
    } else {
      HookOfCallback(b, r, evs[1..], i - 1);
      assert evs[..i][0] == evs[0];
      assert evs[..i][1..] == evs[1..][..i - 1];
      assert HostHooks(bound, registered, evs)[i] == HostHooks(b, r, evs[1..])[i - 1];
    }
  }

  /** In every state reachable from a newly created activity the handlers are
      registered only while bound. */
  lemma {:induction false} RegisteredOnlyWhileBound(bound: bool, registered: bool, evs: seq<HostEvent>)
    requires registered ==> bound
    ensures HostState(bound, registered, evs).1 ==> HostState(bound, registered, evs).0
    decreases |evs|
  {
    if evs != [] {
      var (b, r, _) := HostStep(bound, registered, evs[0]);
      RegisteredOnlyWhileBound(b, r, evs[1..]);
    }
  }

  /** Handlers are never registered twice: between two callbacks that invoke
      `registerHandlers` there is one that invokes `unregisterHandlers` or a
      service disconnection. */
  lemma {:induction false} NoDoubleRegistration(bound: bool, registered: bool, evs: seq<HostEvent>, i: nat, j: nat)
    requires registered ==> bound
    requires i < j < |evs|
    requires HostHooks(bound, registered, evs)[i] == RegisterHandlersHook
    requires HostHooks(bound, registered, evs)[j] == RegisterHandlersHook
    ensures exists k :: i < k < j && (HostHooks(bound, registered, evs)[k] == UnregisterHandlersHook
                                      || evs[k] == ServiceDisconnected)
    decreases |evs|
  {
    var (b, r, h) := HostStep(bound, registered, evs[0]);
    if i == 0 {
      // after the registration the handlers are registered
      assert r;
      RegisteredUntilUnregistered(b, r, evs[1..], j - 1);
      var k :| 0 <= k < j - 1 && (HostHooks(b, r, evs[1..])[k] == UnregisterHandlersHook || evs[1..][k] == ServiceDisconnected);
      assert HostHooks(bound, registered, evs)[k + 1] == HostHooks(b, r, evs[1..])[k];
    } else {
      NoDoubleRegistration(b, r, evs[1..], i - 1, j - 1);
      var k :| i - 1 < k < j - 1 && (HostHooks(b, r, evs[1..])[k] == UnregisterHandlersHook || evs[1..][k] == ServiceDisconnected);
      assert HostHooks(bound, registered, evs)[k + 1] == HostHooks(b, r, evs[1..])[k];
    }
  }

  /** While registered, no callback registers again until one unregisters or the
      service disconnects. */
  lemma {:induction false} RegisteredUntilUnregistered(bound: bool, registered: bool, evs: seq<HostEvent>, j: nat)
    requires registered && bound
    requires j < |evs|
    requires HostHooks(bound, registered, evs)[j] == RegisterHandlersHook
    ensures exists k :: 0 <= k < j && (HostHooks(bound, registered, evs)[k] == UnregisterHandlersHook
                                       || evs[k] == ServiceDisconnected)
    decreases |evs|
  {
    var (b, r, h) := HostStep(bound, registered, evs[0]);
    if h == UnregisterHandlersHook || evs[0] == ServiceDisconnected {
      assert HostHooks(bound, registered, evs)[0] == h;
    } else {
      // still bound and registered, and nothing was invoked
      assert b && r && h == NoHook;
      assert j != 0;
      RegisteredUntilUnregistered(b, r, evs[1..], j - 1);
      var k :| 0 <= k < j - 1 && (HostHooks(b, r, evs[1..])[k] == UnregisterHandlersHook || evs[1..][k] == ServiceDisconnected);
      assert HostHooks(bound, registered, evs)[k + 1] == HostHooks(b, r, evs[1..])[k];
    }
  }
}
