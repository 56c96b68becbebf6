/** The engine-application's main activity: it shows a PDF that the airmouse pans
    and zooms, listens to five kinds of engine events while it is in front, and
    starts or stops the airmouse on the two rotation gestures. Its engine comes
    from the application (`EngineApplicationDevelop`, the engine provider). */
module AppMain {
  import opened Sdk
  import opened DevelopApp
  import opened Airmouse

  /** The five listeners `onResume` registers and `onPause` unregisters, in their
      order there. */
  function AppListeners(owner: object): (ls: seq<Listener>)
    ensures |ls| == 5
    ensures forall i :: 0 <= i < |ls| ==> ls[i].owner == owner && ls[i].kind != AirmouseListener
    ensures forall i, j :: 0 <= i < j < |ls| ==> ls[i] != ls[j]
  {
    [ Listener(BatteryListener, owner), Listener(StreamQualityListener, owner),
      Listener(ActivationListener, owner), Listener(ConnectionListener, owner),
      Listener(GestureListener, owner) ]
  }

  /** Whether the airmouse should be on after `gesture`, given whether it is on:
      ROTATE_RL turns it on, ROTATE_LR turns it off, any other gesture keeps it. */
  function AirmouseAfter(gesture: Gesture, active: bool): (on: bool)
    ensures gesture == RotateRL ==> on
    ensures gesture == RotateLR ==> !on
    ensures gesture != RotateRL && gesture != RotateLR ==> on == active
    ensures on != active ==> (gesture == RotateRL && !active) || (gesture == RotateLR && active)
  {
    match gesture
    case RotateRL => true
    case RotateLR => false
    case OtherGesture(_) => active
  }

  /** After `onResume`'s registrations the owner listens to every kind of event
      except the airmouse's, whatever it listened to before. */
  lemma ResumedListeners(log: seq<Cmd>, owner: object)
    ensures forall k :: k != AirmouseListener ==>
              Listener(k, owner) in Registered(log + Registrations(AppListeners(owner)))
    ensures Listener(AirmouseListener, owner) in Registered(log + Registrations(AppListeners(owner)))
            <==> Listener(AirmouseListener, owner) in Registered(log)
  {
    RegisteredAfterRegistrations(log, AppListeners(owner));
  }

  /** `onPause` undoes `onResume`: if none of the owner's listeners was registered
      before, and the commands in between register or unregister none of the five,
      then afterwards exactly what those commands in between left is registered. */
  lemma {:induction false} PauseUndoesResume(log: seq<Cmd>, owner: object, between: seq<Cmd>)
    requires forall k :: Listener(k, owner) !in Registered(log)
    requires LeavesAlone(between, ListenerSet(AppListeners(owner)))
    ensures Registered(log + Registrations(AppListeners(owner)) + between + Unregistrations(AppListeners(owner)))
            == Registered(log + between)
  {
    assert ListenerSet(AppListeners(owner)) !! Registered(log) by {
      forall l | l in ListenerSet(AppListeners(owner))
        ensures l !in Registered(log)
      {
        assert l == Listener(l.kind, owner);
      }
    }
    RegisterThenUnregister(log, AppListeners(owner), between);
  }

  /** A whole resume/pause cycle of the activity as the platform runs it: the PDF
      adapter, a lifecycle observer, registers its airmouse listener after the
      activity's `onResume` and unregisters it before the activity's `onPause`.
      Whatever the engine is told meanwhile, as long as it does not register or
      unregister one of these six listeners, the registrations end as those
      commands alone leave them. */
  lemma {:induction false} ResumePauseCycle(log: seq<Cmd>, owner: object, adapter: object, middle: seq<Cmd>)
    requires forall k :: Listener(k, owner) !in Registered(log)
    requires Listener(AirmouseListener, adapter) !in Registered(log)
    requires LeavesAlone(middle, ListenerSet(AppListeners(owner)) + {Listener(AirmouseListener, adapter)})
    ensures Registered(log + Registrations(AppListeners(owner))
                           + [Register(Listener(AirmouseListener, adapter))] + middle
                           + [Unregister(Listener(AirmouseListener, adapter))]
                           + Unregistrations(AppListeners(owner)))
            == Registered(log + middle)
  {
    var a := [Listener(AirmouseListener, adapter)];
    var five := ListenerSet(AppListeners(owner));
    var between := Registrations(a) + middle + Unregistrations(a);
    assert Registrations(a) == [Register(Listener(AirmouseListener, adapter))];
    assert Unregistrations(a) == [Unregister(Listener(AirmouseListener, adapter))];
    assert Listener(AirmouseListener, adapter) !in five;
    assert LeavesAlone(between, five) by {
      forall i | 0 <= i < |between| && (between[i].Register? || between[i].Unregister?)
        ensures between[i].listener !in five
      {
        if 0 < i < |between| - 1 {
          assert between[i] == middle[i - 1];
        }
      }
    }
    PauseUndoesResume(log, owner, between);
    var r := Registrations(AppListeners(owner));
    var u := Unregistrations(AppListeners(owner));
    assert log + r + [Register(Listener(AirmouseListener, adapter))] + middle
               + [Unregister(Listener(AirmouseListener, adapter))] + u
           == log + r + between + u;
    assert ListenerSet(a) == {Listener(AirmouseListener, adapter)};
    assert LeavesAlone(middle, ListenerSet(a));
    RegisterThenUnregister(log, a, middle);
    assert log + between == log + Registrations(a) + middle + Unregistrations(a);
  }

  class MainActivity {
    /** The application, as the engine provider. */
    const app: EngineApplicationDevelop
    const airmouse: PDFViewAirmouseAdapter
    /** `mEngine`: the provider's engine while resumed, null after `onPause`. */
    var engine: Engine?

    /** The airmouse adapter drives the provider's (lazy, so fixed) engine, and so
        does the activity whenever it holds one. */
    ghost predicate Valid()
      reads this, app, airmouse
    {
      && app.engineLazy != null
      && airmouse.engine == app.engineLazy
      && (engine != null ==> engine == app.engineLazy)
    }

    /** `onCreate`: take the provider's engine and build the airmouse adapter on it
        for the PDF view. */
    constructor (provider: EngineApplicationDevelop, view: PdfView)
      modifies provider
      ensures Valid() && app == provider && engine == provider.engineLazy
      ensures airmouse.view == view && !airmouse.active && fresh(airmouse)
      ensures !airmouse.valid && airmouse.mode == Inconclusive && !airmouse.refreshPending
      ensures provider.prefs == old(provider.prefs) && provider.pendingLeds == old(provider.pendingLeds)
      ensures old(provider.engineLazy) != null ==>
                provider.engineLazy == old(provider.engineLazy)
                && provider.lastConnectedBand == old(provider.lastConnectedBand)
      ensures old(provider.engineLazy) == null ==>
                fresh(provider.engineLazy)
                && provider.engineLazy.log == [Register(provider.ActivationListenerOf()), Register(provider.ConnectionListenerOf())]
                && provider.lastConnectedBand == PrefOr(provider.prefs, LAST_BAND_PREF_KEY, old(provider.lastConnectedBand))
    {
      var e := provider.GetEngine();
      app := provider;
      engine := e;
      airmouse := new PDFViewAirmouseAdapter(e, view);
    }

    function Listeners(): seq<Listener>
    {
      AppListeners(this)
    }

    /** `onResume`: fetch the engine from the provider and register the five
        listeners. */
    method OnResume()
      requires Valid()
      modifies this, app, airmouse.engine
      ensures Valid() && engine == app.engineLazy && app.engineLazy == old(app.engineLazy)
      ensures engine.log == old(airmouse.engine.log) + Registrations(Listeners())
      ensures app.lastConnectedBand == old(app.lastConnectedBand) && app.prefs == old(app.prefs)
      ensures app.pendingLeds == old(app.pendingLeds)
    {
      var e := app.GetEngine();
      engine := e;
      e.Issue(Register(Listener(BatteryListener, this)));
      e.Issue(Register(Listener(StreamQualityListener, this)));
      e.Issue(Register(Listener(ActivationListener, this)));
      e.Issue(Register(Listener(ConnectionListener, this)));
      e.Issue(Register(Listener(GestureListener, this)));
    }

    /** `onPause`: unregister the same five listeners, then drop the engine. */
    method OnPause()
      requires Valid() && engine != null
      modifies this, engine
      ensures Valid() && engine == null
      ensures old(engine).log == old(engine.log) + Unregistrations(Listeners())
    {
      var e := engine;
      e.Issue(Unregister(Listener(BatteryListener, this)));
      e.Issue(Unregister(Listener(StreamQualityListener, this)));
      e.Issue(Unregister(Listener(ActivationListener, this)));
      e.Issue(Unregister(Listener(ConnectionListener, this)));
      e.Issue(Unregister(Listener(GestureListener, this)));
      engine := null;
    }

    /** `onGesture`: every gesture buzzes for 150 ms first; the rotations then
        start or stop the airmouse when it is not already in that state. */
    method OnGesture(gesture: Gesture)
      requires Valid() && engine != null
      modifies engine, airmouse
      ensures Valid() && airmouse.active == AirmouseAfter(gesture, old(airmouse.active))
      ensures airmouse.valid == old(airmouse.valid) && airmouse.mode == old(airmouse.mode)
      ensures airmouse.refreshPending == old(airmouse.refreshPending)
      ensures airmouse.x == old(airmouse.x) && airmouse.y == old(airmouse.y)
      ensures AirmouseAfter(gesture, old(airmouse.active)) == old(airmouse.active) ==>
                engine.log == old(engine.log) + [Cmd.Buzz(150)]
      ensures AirmouseAfter(gesture, old(airmouse.active)) && !old(airmouse.active) ==>
                engine.log == old(engine.log) + [Cmd.Buzz(150), StartAirmouse]
      ensures !AirmouseAfter(gesture, old(airmouse.active)) && old(airmouse.active) ==>
                engine.log == old(engine.log) + [Cmd.Buzz(150), StopAirmouse]
    {
      engine.Issue(Cmd.Buzz(150));
      if gesture == RotateRL {
        if airmouse.active {
          return;
        }
        airmouse.SetAirmouseActive(true);
      } else if gesture == RotateLR {
        if !airmouse.active {
          return;
        }
        airmouse.SetAirmouseActive(false);
      }
    }

    /** `buzz`: vibrate for 300 ms. */
    method Buzz()
      requires engine != null
      modifies engine
      ensures engine.log == old(engine.log) + [Cmd.Buzz(300)]
    {
      engine.Issue(Cmd.Buzz(300));
    }

    /** `changeColor`: the LED shows the red, green and blue checkbox states. */
    method ChangeColor(red: bool, green: bool, blue: bool)
      requires engine != null
      modifies engine
      ensures engine.log == old(engine.log) + [SetLed(red, green, blue)]
    {
      engine.Issue(SetLed(red, green, blue));
    }
  }
}
