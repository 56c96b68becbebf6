/** The engine-service's main activity: an `EngineActivity` whose handlers are four
    engine listeners, with a floating action button that disconnects the sensor
    while one is (being) connected and otherwise opens a sensor search. */
module ServiceMain {
  import opened Sdk
  import opened ServiceHost
  import opened SearchResults

  datatype FabIcon = CloseIcon | SearchIcon

  /** `nameOfAS`: the readable name of an activation state. */
  function NameOfAS(state: ActivationState): (name: string)
    ensures name == "Active" <==> state == Active
    ensures name == "Inactive" <==> state == Inactive
    ensures name == "Unknown" <==> state.Unrecognised?
  {
    match state
    case Active => "Active"
    case Inactive => "Inactive"
    case Unrecognised(_) => "Unknown"
  }

  /** The FAB disconnects exactly when the sensor is not disconnected. */
  function FabDisconnects(state: ConnectionState): bool
  {
    state != Disconnected
  }

  class MainActivity {
    /** The `EngineActivity` part of this activity. */
    const base: EngineActivity
    /** The action of the next FAB press: disconnect (true) or search (false). */
    var fabDisconnects: bool
    var fabIcon: FabIcon
    /** The adapter of the search dialog last shown, if any. */
    var dialog: SearchResultAdapter?

    ghost predicate Valid()
      reads this, base, dialog
    {
      && base.Valid()
      && (dialog != null ==> dialog.Valid())
      && fabIcon == (if fabDisconnects then CloseIcon else SearchIcon)
    }

    constructor ()
      ensures Valid() && fresh(base) && !base.bound && !base.handlersRegistered
      ensures !fabDisconnects && dialog == null
    {
      base := new EngineActivity();
      fabDisconnects := false;
      fabIcon := SearchIcon;
      dialog := null;
    }

    /** The four listeners `registerHandlers` and `unregisterHandlers` act on, in
        their order there. */
    function Handlers(): seq<Listener>
    {
      [ Listener(ConnectionListener, this), Listener(GestureListener, this),
        Listener(ActivationListener, this), Listener(BatteryListener, this) ]
    }

    /** `registerHandlers`: register the four listeners, then make the FAB match the
        current connection state. */
    method RegisterHandlers()
      requires Valid() && base.engine != null
      modifies this, base.engine
      ensures Valid() && dialog == old(dialog)
      ensures base.engine.log == old(base.engine.log) + Registrations(Handlers())
      ensures base.engine.connection == old(base.engine.connection)
      ensures fabDisconnects == FabDisconnects(base.engine.connection)
    {
      var e := base.engine;
      e.Issue(Register(Listener(ConnectionListener, this)));
      e.Issue(Register(Listener(GestureListener, this)));
      e.Issue(Register(Listener(ActivationListener, this)));
      e.Issue(Register(Listener(BatteryListener, this)));
      UpdateFabButton(e.connection);
    }

    /** `unregisterHandlers`: unregister the same four listeners. */
    method UnregisterHandlers()
      requires Valid() && base.engine != null
      modifies base.engine
      ensures base.engine.log == old(base.engine.log) + Unregistrations(Handlers())
      ensures base.engine.connection == old(base.engine.connection)
    {
      var e := base.engine;
      e.Issue(Unregister(Listener(ConnectionListener, this)));
      e.Issue(Unregister(Listener(GestureListener, this)));
      e.Issue(Unregister(Listener(ActivationListener, this)));
      e.Issue(Unregister(Listener(BatteryListener, this)));
    }

    /** Run the override of the hook `EngineActivity` invoked. */
    method RunHook(hook: Hook)
      requires Valid() && (hook != NoHook ==> base.engine != null)
      modifies this, base.engine
      ensures Valid() && dialog == old(dialog)
      ensures hook == NoHook ==> fabDisconnects == old(fabDisconnects)
      ensures hook == RegisterHandlersHook ==>
                base.engine.log == old(base.engine.log) + Registrations(Handlers())
                && fabDisconnects == FabDisconnects(base.engine.connection)
      ensures hook == UnregisterHandlersHook ==>
                base.engine.log == old(base.engine.log) + Unregistrations(Handlers())
                && fabDisconnects == old(fabDisconnects)
      ensures hook == NoHook && base.engine != null ==> base.engine.log == old(base.engine.log)
    {
      if hook == RegisterHandlersHook {
        RegisterHandlers();
      } else if hook == UnregisterHandlersHook {
        UnregisterHandlers();
      }
    }

    /** `onResume`: registers the handlers if bound and not yet registered. */
    method OnResume()
      requires Valid()
      modifies this, base, base.engine
      ensures Valid() && base.engine == old(base.engine) && dialog == old(dialog)
      ensures old(base.bound) && !old(base.handlersRegistered) ==>
                base.engine.log == old(base.engine.log) + Registrations(Handlers())
                && fabDisconnects == FabDisconnects(base.engine.connection)
      ensures !(old(base.bound) && !old(base.handlersRegistered)) ==>
                fabDisconnects == old(fabDisconnects)
                && (base.engine != null ==> base.engine.log == old(base.engine.log))
      ensures base.handlersRegistered == (old(base.handlersRegistered) || old(base.bound))
    {
      var hook := base.OnResume();
      RunHook(hook);
    }

    /** `onPause`: unregisters the handlers if bound and registered. */
    method OnPause()
      requires Valid()
      modifies this, base, base.engine
      ensures Valid() && base.engine == old(base.engine) && dialog == old(dialog)
      ensures !base.handlersRegistered && fabDisconnects == old(fabDisconnects)
      ensures old(base.bound) && old(base.handlersRegistered) ==>
                base.engine.log == old(base.engine.log) + Unregistrations(Handlers())
      ensures !(old(base.bound) && old(base.handlersRegistered)) && base.engine != null ==>
                base.engine.log == old(base.engine.log)
    {
      var hook := base.OnPause();
      RunHook(hook);
    }

    /** The service connection delivered its engine. */
    method OnServiceConnected(e: Engine)
      requires Valid()
      modifies this, base, e
      ensures Valid() && base.engine == e && base.bound && base.handlersRegistered
      ensures dialog == old(dialog)
      ensures !old(base.handlersRegistered) ==>
                e.log == old(e.log) + Registrations(Handlers())
                && fabDisconnects == FabDisconnects(e.connection)
      ensures old(base.handlersRegistered) ==> e.log == old(e.log) && fabDisconnects == old(fabDisconnects)
    {
      var hook := base.OnServiceConnected(e);
      RunHook(hook);
    }

    /** The service connection was lost: nothing is unregistered. */
    method OnServiceDisconnected()
      requires Valid()
      modifies this, base
      ensures Valid() && base.engine == null && !base.bound && !base.handlersRegistered
      ensures fabDisconnects == old(fabDisconnects) && dialog == old(dialog)
    {
      var hook := base.OnServiceDisconnected();
      RunHook(hook);
    }

    /** `updateFabButton`: the FAB disconnects unless the sensor is disconnected. */
    method UpdateFabButton(state: ConnectionState)
      requires Valid()
      modifies this
      ensures Valid() && dialog == old(dialog)
      ensures fabDisconnects == FabDisconnects(state)
    {
      fabDisconnects := state != Disconnected;
      fabIcon := if fabDisconnects then CloseIcon else SearchIcon;
    }

    /** The connection listener re-derives the FAB action from each new state. */
    method OnConnectionStateChanged(state: ConnectionState)
      requires Valid()
      modifies this
      ensures Valid() && dialog == old(dialog)
      ensures fabDisconnects == FabDisconnects(state)
    {
      UpdateFabButton(state);
    }

    /** `fabButtonClicked`: disconnect, or show the search dialog; never both. */
    method FabButtonClicked()
      requires Valid() && base.engine != null
      modifies this, base.engine
      ensures Valid() && fabDisconnects == old(fabDisconnects)
      ensures old(fabDisconnects) ==>
                base.engine.log == old(base.engine.log) + [Disconnect] && dialog == old(dialog)
      ensures !old(fabDisconnects) ==>
                dialog != null && fresh(dialog) && dialog.items == [] && !dialog.sorting
                && base.engine.log == old(base.engine.log) + [StartSearch(dialog)]
    {
      if fabDisconnects {
        base.engine.Issue(Disconnect);
      } else {
        ShowSearchDialog();
      }
    }

    /** `showSearchDialog`: a new, empty result list that the search fills. */
    method ShowSearchDialog()
      requires Valid() && base.engine != null
      modifies this, base.engine
      ensures Valid() && fabDisconnects == old(fabDisconnects)
      ensures dialog != null && fresh(dialog) && dialog.items == [] && !dialog.sorting
      ensures base.engine.log == old(base.engine.log) + [StartSearch(dialog)]
    {
      var adapter := new SearchResultAdapter();
      dialog := adapter;
      base.engine.Issue(StartSearch(adapter));
    }

    /** A sensor was picked in the dialog: stop searching and connect to it. */
    method OnSearchItemSelected(which: nat)
      requires Valid() && base.engine != null && dialog != null && which < |dialog.items|
      modifies base.engine
      ensures base.engine.log == old(base.engine.log) + [StopSearch, Connect(dialog.items[which].address)]
    {
      base.engine.Issue(StopSearch);
      base.engine.Issue(Connect(dialog.items[which].address));
    }

    /** The dialog was dismissed: stop searching. */
    method OnSearchDialogDismissed()
      requires Valid() && base.engine != null
      modifies base.engine
      ensures base.engine.log == old(base.engine.log) + [StopSearch]
    {
      base.engine.Issue(StopSearch);
    }

    /** The dialog's "Clear" button empties the result list and keeps the dialog open. */
    method OnClearClicked()
      requires Valid() && dialog != null
      modifies dialog
      ensures Valid() && dialog.items == [] && dialog.sorting == old(dialog.sorting)
    {
      dialog.Clear();
    }

    /** `buzz`: vibrate for 400 ms as haptic feedback. */
    method Buzz()
      requires base.engine != null
      modifies base.engine
      ensures base.engine.log == old(base.engine.log) + [Cmd.Buzz(400)]
    {
      base.engine.Issue(Cmd.Buzz(400));
    }

    /** `changeColor`: the LED shows the three checkbox states. */
    method ChangeColor(red: bool, green: bool, blue: bool)
      requires base.engine != null
      modifies base.engine
      ensures base.engine.log == old(base.engine.log) + [SetLed(red, green, blue)]
    {
      base.engine.Issue(SetLed(red, green, blue));
    }
  }
}
