/** The engine-application's `Application` of the multi-sensor SDK: it creates the
    engine on first use, remembers the band that is disconnecting (also in the
    preferences) until it connects again, and colours a band's LED by its
    activation state. Preferences are a key/value map; the LED commands are posted
    with a 10 ms delay and kept as a queue until run. */
module DevelopApp {
  import opened Sdk

  const LAST_BAND_PREF_KEY := "de.kinemic.gesture.common.LAST_BAND"

  /** The remembered band after a connection-state change of `band`. */
  function NextLastBand(last: Option<Address>, band: Address, state: ConnectionState): (next: Option<Address>)
    ensures state == Disconnecting ==> next == Some(band)
    ensures state == Connected ==> next == (if last == Some(band) then None else last)
    ensures state != Disconnecting && state != Connected ==> next == last
    ensures next != last ==> state == Disconnecting || (state == Connected && last == Some(band))
  {
    match state
    case Disconnecting => Some(band)
    case Connected => if last == Some(band) then None else last
    case _ => last
  }

  /** The LED colour for an activation state, if it has one. */
  function LedFor(state: ActivationState): (color: Option<Led>)
    ensures color == Some(Blue) <==> state == Active
    ensures color == Some(Yellow) <==> state == Inactive
    ensures color == None <==> state.Unrecognised?
  {
    match state
    case Active => Some(Blue)
    case Inactive => Some(Yellow)
    case Unrecognised(_) => None
  }

  /** What `getString(key, default)` returns. */
  function PrefOr(prefs: map<string, Address>, key: string, default: Option<Address>): Option<Address>
  {
    if key in prefs then Some(prefs[key]) else default
  }

  class EngineApplicationDevelop {
    var lastConnectedBand: Option<Address>
    /** The default shared preferences. */
    var prefs: map<string, Address>
    /** The `engine` backing field: null until the lazy initialiser has run. */
    var engineLazy: Engine?
    /** LED commands posted with a 10 ms delay and not yet run, oldest first. */
    var pendingLeds: seq<Cmd>

    constructor (stored: map<string, Address>)
      ensures lastConnectedBand == None && prefs == stored && engineLazy == null && pendingLeds == []
    {
      lastConnectedBand := None;
      prefs := stored;
      engineLazy := null;
      pendingLeds := [];
    }

    function ActivationListenerOf(): Listener
    {
      Listener(ActivationListener, this)
    }

    function ConnectionListenerOf(): Listener
    {
      Listener(ConnectionListener, this)
    }

    /** The lazy `engine` property: on first use load the remembered band (keeping
        the current value when nothing is stored), create the engine and register
        both listeners on it; afterwards always the same engine. */
    method GetEngine() returns (e: Engine)
      modifies this
      ensures engineLazy == e && prefs == old(prefs) && pendingLeds == old(pendingLeds)
      ensures old(engineLazy) != null ==> e == old(engineLazy) && lastConnectedBand == old(lastConnectedBand)
      ensures old(engineLazy) == null ==>
                fresh(e) && e.log == [Register(ActivationListenerOf()), Register(ConnectionListenerOf())]
                && lastConnectedBand == PrefOr(prefs, LAST_BAND_PREF_KEY, old(lastConnectedBand))
    {
      if engineLazy == null {
        lastConnectedBand := PrefOr(prefs, LAST_BAND_PREF_KEY, lastConnectedBand);
        var created := new Engine();
        created.Issue(Register(ActivationListenerOf()));
        created.Issue(Register(ConnectionListenerOf()));
        engineLazy := created;
      }
      e := engineLazy;
    }

    /** The connection listener: remember a disconnecting band (and store it),
        forget it once it is connected again. */
    method OnConnectionStateChanged(band: Address, state: ConnectionState)
      modifies this
      ensures lastConnectedBand == NextLastBand(old(lastConnectedBand), band, state)
      ensures prefs == (if state == Disconnecting then old(prefs)[LAST_BAND_PREF_KEY := band] else old(prefs))
      ensures engineLazy == old(engineLazy) && pendingLeds == old(pendingLeds)
    {
      match state {
        case Disconnecting =>
          lastConnectedBand := Some(band);
          prefs := prefs[LAST_BAND_PREF_KEY := band];
        case Connected =>
          if lastConnectedBand == Some(band) {
            lastConnectedBand := None;
          }
        case _ =>
      }
    }

    /** The activation listener: post the LED colour for the band. */
    method OnActivationStateChanged(band: Address, state: ActivationState)
      modifies this
      ensures LedFor(state).Some? ==> pendingLeds == old(pendingLeds) + [SetBandLed(band, LedFor(state).value)]
      ensures LedFor(state).None? ==> pendingLeds == old(pendingLeds)
      ensures lastConnectedBand == old(lastConnectedBand) && prefs == old(prefs) && engineLazy == old(engineLazy)
    {
      match state {
        case Active => pendingLeds := pendingLeds + [SetBandLed(band, Blue)];
        case Inactive => pendingLeds := pendingLeds + [SetBandLed(band, Yellow)];
        case Unrecognised(_) =>
      }
    }

    /** The oldest posted LED command runs on the engine (through the lazy
        property, which exists by then). */
    method RunPendingLed()
      requires pendingLeds != [] && engineLazy != null
      modifies this, engineLazy
      ensures engineLazy == old(engineLazy) && pendingLeds == old(pendingLeds[1..])
      ensures engineLazy.log == old(engineLazy.log) + [old(pendingLeds[0])]
      ensures lastConnectedBand == old(lastConnectedBand) && prefs == old(prefs)
    {
      var c := pendingLeds[0];
      pendingLeds := pendingLeds[1..];
      var e := GetEngine();
      e.Issue(c);
    }
  }
}
