/** The vendor gesture SDK as the example apps see it from outside: the states it
    reports to them and the commands they issue to it. Nothing of the SDK's own
    behaviour (sensor protocol, Bluetooth, gesture inference) is modelled; an
    `Engine` only records the commands it receives, oldest first. */
module Sdk {

  datatype Option<T> = None | Some(value: T)

  /** A sensor ("band") is identified by its address. */
  type Address = string

  datatype ConnectionState = Disconnected | Connecting | Connected | Disconnecting

  /** `Unrecognised` stands for any code the SDK might report beyond the two named ones. */
  datatype ActivationState = Active | Inactive | Unrecognised(code: int)

  /** The two gestures the apps react to; every other gesture is `OtherGesture`. */
  datatype Gesture = RotateRL | RotateLR | OtherGesture(id: int)

  datatype PalmDirection = Upwards | Downwards | Sideways | Inconclusive

  datatype Led = Blue | Yellow

  datatype ListenerKind =
    | BatteryListener
    | StreamQualityListener
    | ActivationListener
    | ConnectionListener
    | GestureListener
    | AirmouseListener

  /** A registered callback: what it listens to and the object that implements it. */
  datatype Listener = Listener(kind: ListenerKind, owner: object)

  datatype Cmd =
    | Connect(address: Address)
    | Disconnect
    | Release
    | StartSearch(callback: object)
    | StopSearch
    | Buzz(millis: int)
    | SetLed(red: bool, green: bool, blue: bool)
    | SetBandLed(band: Address, color: Led)
    | StartAirmouse
    | StopAirmouse
    | Register(listener: Listener)
    | Unregister(listener: Listener)

  class Engine {
    /** Every command issued to this engine, oldest first. */
    var log: seq<Cmd>
    /** What `getConnectionState()` reports; only the SDK changes it. */
    var connection: ConnectionState
    /** What `getSensor()` reports: the address of the connected sensor, if any. */
    var sensor: Option<Address>

    constructor ()
      ensures log == [] && connection == Disconnected && sensor == None
    {
      log := [];
      connection := Disconnected;
      sensor := None;
    }

    /** Issue one command. The SDK may react later; that is not modelled. */
    method Issue(c: Cmd)
      modifies this
      ensures log == old(log) + [c]
      ensures connection == old(connection) && sensor == old(sensor)
    {
      log := log + [c];
    }

    /** The SDK's own change of its connection state (outside the apps). */
    method Report(state: ConnectionState, connected: Option<Address>)
      modifies this
      ensures connection == state && sensor == connected && log == old(log)
    {
      connection := state;
      sensor := connected;
    }
  }

  /** The commands that register the listeners `ls`, in order. */
  function Registrations(ls: seq<Listener>): seq<Cmd>
  {
    seq(|ls|, i requires 0 <= i < |ls| => Register(ls[i]))
  }

  /** The commands that unregister the listeners `ls`, in order. */
  function Unregistrations(ls: seq<Listener>): seq<Cmd>
  {
    seq(|ls|, i requires 0 <= i < |ls| => Unregister(ls[i]))
  }

  /** The listeners a command log leaves registered, reading the log as a set:
      a registration adds its listener, an unregistration removes it. */
  function Registered(log: seq<Cmd>): set<Listener>
  {
    if log == [] then {}
    else
      var before := Registered(log[..|log| - 1]);
      match log[|log| - 1]
      case Register(l) => before + {l}
      case Unregister(l) => before - {l}
      case _ => before
  }

  function ListenerSet(ls: seq<Listener>): set<Listener>
  {
    set l | l in ls
  }

  lemma RegisteredStep(log: seq<Cmd>, c: Cmd)
    ensures c.Register? ==> Registered(log + [c]) == Registered(log) + {c.listener}
    ensures c.Unregister? ==> Registered(log + [c]) == Registered(log) - {c.listener}
    ensures !c.Register? && !c.Unregister? ==> Registered(log + [c]) == Registered(log)
  {
    assert (log + [c])[..|log + [c]| - 1] == log;
  }

  /** Registering `ls` adds exactly the listeners of `ls`. */
  lemma {:induction false} RegisteredAfterRegistrations(log: seq<Cmd>, ls: seq<Listener>)
    ensures Registered(log + Registrations(ls)) == Registered(log) + ListenerSet(ls)
  {
    if ls == [] {
      assert log + [] == log;
    } else {
      var init, l := ls[..|ls| - 1], ls[|ls| - 1];
      assert ls == init + [l];
      RegisteredAfterRegistrations(log, init);
      assert Registrations(ls) == Registrations(init) + [Register(l)];
      assert log + Registrations(ls) == (log + Registrations(init)) + [Register(l)];
      RegisteredStep(log + Registrations(init), Register(l));
      assert ListenerSet(ls) == ListenerSet(init) + {l};
    }
  }

  /** Unregistering `ls` removes exactly the listeners of `ls`. */
  lemma {:induction false} RegisteredAfterUnregistrations(log: seq<Cmd>, ls: seq<Listener>)
    ensures Registered(log + Unregistrations(ls)) == Registered(log) - ListenerSet(ls)
  {
    if ls == [] {
      assert log + [] == log;
    } else {
      var init, l := ls[..|ls| - 1], ls[|ls| - 1];
      assert ls == init + [l];
      RegisteredAfterUnregistrations(log, init);
      assert Unregistrations(ls) == Unregistrations(init) + [Unregister(l)];
      assert log + Unregistrations(ls) == (log + Unregistrations(init)) + [Unregister(l)];
      RegisteredStep(log + Unregistrations(init), Unregister(l));
      assert ListenerSet(ls) == ListenerSet(init) + {l};
    }
  }

  /** None of the commands `more` registers or unregisters a listener of `ls`. */
  predicate LeavesAlone(more: seq<Cmd>, ls: set<Listener>)
  {
    forall i :: 0 <= i < |more| && (more[i].Register? || more[i].Unregister?) ==> more[i].listener !in ls
  }

  /** Unregistering what was just registered restores the registrations, as long as
      none of those listeners was registered before and the commands issued in
      between do not register or unregister any of them: the result is what the
      commands in between alone leave registered. */
  lemma {:induction false} RegisterThenUnregister(log: seq<Cmd>, ls: seq<Listener>, between: seq<Cmd>)
    requires ListenerSet(ls) !! Registered(log)
    requires LeavesAlone(between, ListenerSet(ls))
    ensures Registered(log + Registrations(ls) + between + Unregistrations(ls)) == Registered(log + between)
  {
    var mid, L := log + Registrations(ls), ListenerSet(ls);
    RegisteredAfterRegistrations(log, ls);
    RegisteredAfterUnregistrations(mid + between, ls);
    RegisteredOutsideAgree(mid, log, between, L);
    RegisteredStaysDisjoint(log, between, L);
  }

  /** Two logs that agree on the registrations outside `L` still agree after
      commands that leave `L` alone. */
  lemma {:induction false} RegisteredOutsideAgree(a: seq<Cmd>, b: seq<Cmd>, more: seq<Cmd>, L: set<Listener>)
    requires Registered(a) - L == Registered(b) - L
    requires LeavesAlone(more, L)
    ensures Registered(a + more) - L == Registered(b + more) - L
  {
    if more == [] {
      assert a + more == a && b + more == b;
    } else {
      var init, c := more[..|more| - 1], more[|more| - 1];
      assert LeavesAlone(init, L) by {
        forall i | 0 <= i < |init| ensures init[i] == more[i] { }
      }
      RegisteredOutsideAgree(a, b, init, L);
      assert a + more == (a + init) + [c];
      assert b + more == (b + init) + [c];
      RegisteredStep(a + init, c);
      RegisteredStep(b + init, c);
      var ra, rb := Registered(a + init), Registered(b + init);
      if c.Register? {
        assert c.listener !in L;
        assert (ra + {c.listener}) - L == (ra - L) + {c.listener};
        assert (rb + {c.listener}) - L == (rb - L) + {c.listener};
      } else if c.Unregister? {
        assert (ra - {c.listener}) - L == (ra - L) - {c.listener};
        assert (rb - {c.listener}) - L == (rb - L) - {c.listener};
      }
    }
  }

  /** Commands that leave `L` alone register none of `L` if none was registered. */
  lemma {:induction false} RegisteredStaysDisjoint(log: seq<Cmd>, more: seq<Cmd>, L: set<Listener>)
    requires Registered(log) !! L
    requires LeavesAlone(more, L)
    ensures Registered(log + more) !! L
  {
    if more == [] {
      assert log + more == log;
    } else {
      var init, c := more[..|more| - 1], more[|more| - 1];
      assert LeavesAlone(init, L) by {
        forall i | 0 <= i < |init| ensures init[i] == more[i] { }
      }
      RegisteredStaysDisjoint(log, init, L);
      assert log + more == (log + init) + [c];
      RegisteredStep(log + init, c);
    }
  }
}
