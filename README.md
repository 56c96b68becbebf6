# Kinemic gesture SDK example apps — a Dafny model

This project models the app-side logic of the two Android example applications of
the Kinemic gesture SDK: "engine-application" (one engine per process, a PDF viewer
driven by the airmouse) and "engine-service" (the engine is owned by a bound
service). The SDK engine is not part of the repository. It is modelled as
`Sdk.Engine`, a recorder that appends every command it receives to its `log`
(connect, disconnect, release, search, buzz, LED, airmouse start/stop, listener
(un)registration). It also carries the connection state and sensor it reports.
Every operation is then stated as "from this state and event, these fields
change and exactly these commands are appended to the log".

Modules, one per source file:

- `Sdk`: the engine as a command log, and `Registered(log)`, the set of
  listeners that a log leaves registered.
- `SearchResults`: `SearchResultAdapter`, the scan-result list. `Update` scans
  for the reported address, then refreshes that entry's rssi or appends an entry,
  and re-sorts strongest first when sorting is on. The list is a `seq` field.
  The scan is a loop proved against the function `Upsert`. Lemmas prove what
  `Upsert` does: same length or one more entry, a permutation that is sorted,
  unique addresses, and other entries untouched.
- `EngineApp`: `EngineApplication`. It creates the singleton engine lazily,
  arms a delayed logout on every pause and cancels all of them on
  create/start/resume. The release records the connected sensor and the time.
  The reconnect is guarded by the 60 s window. Time is a `now` parameter. Posted
  logouts are kept as their due times, and a logout runs as an explicit event.
- `ServiceHost`: `EngineActivity`, the two flags `bound` and
  `handlersRegistered`. Each callback returns which overridable hook it invokes
  (`registerHandlers`, `unregisterHandlers` or none). `HostStep`, `HostHooks`
  and `HostState` give the same decisions on values. Two lemmas prove
  "registered implies bound" in every reachable state and "never registered
  twice" over every run of callbacks.
- `ServiceMain`: the engine-service `MainActivity`. It runs the hooks (four
  listeners), derives the floating action button's action from the connection
  state, and handles the search dialog (select, dismiss, clear).
- `Airmouse`: `PDFViewAirmouseAdapter`. It covers the active flag and its
  start/stop commands, and the `onMove` state machine (reset the origin, or
  pan/zoom/no-op by palm direction). It also covers the zoom guard, `wrapDx`
  and `onClick`. The PDF view records the requests it receives and keeps its
  zoom, which a centred relative zoom scales by its factor, so the guard sees the
  zoom the earlier samples produced. Floats are idealised as reals.
- `DevelopApp`: `EngineApplicationDevelop` (Kotlin). It covers the lazy engine
  with its two listeners, the remembered last band and its preference key, and
  the LED colour per activation state. The 10 ms delayed LED commands are a queue
  that runs as explicit events. Preferences are a `map`.
- `AppMain`: the engine-application `MainActivity`. It registers five listeners
  on resume and unregisters the same five on pause. Each gesture buzzes, and the
  two rotations start or stop the airmouse. It also forwards the LED checkboxes.

## Model

| member | source | states |
|---|---|---|
| SearchResults.IndexOf | engine-application/src/main/java/de/kinemic/example/SearchResultAdapter.java:107-116 | the scan finds the first entry with the address, or reports that no entry has it |
| SearchResults.InsertPermutes | engine-application/src/main/java/de/kinemic/example/SearchResultAdapter.java:119 | inserting into the sorted list adds exactly that entry (multiset) |
| SearchResults.InsertSorted | engine-application/src/main/java/de/kinemic/example/SearchResultAdapter.java:119 | inserting into a list ordered by rssi descending keeps it ordered |
| SearchResults.SortPermutes | engine-application/src/main/java/de/kinemic/example/SearchResultAdapter.java:119 | the sort is a permutation of its input |
| SearchResults.SortSorts | engine-application/src/main/java/de/kinemic/example/SearchResultAdapter.java:119 | the sort orders by rssi descending (comparator `rhs.rssi - lhs.rssi`) |
| SearchResults.InsertKeepsUnique | engine-application/src/main/java/de/kinemic/example/SearchResultAdapter.java:119 | inserting an entry with a new address keeps addresses pairwise distinct |
| SearchResults.SortKeepsUnique | engine-application/src/main/java/de/kinemic/example/SearchResultAdapter.java:112 | sorting keeps addresses pairwise distinct |
| SearchResults.UpsertKnownAddress | engine-application/src/main/java/de/kinemic/example/SearchResultAdapter.java:107-115 | a known address: same length, that entry's rssi replaced and nothing else (multiset); in place without sorting, sorted with it |
| SearchResults.UpsertNewAddress | engine-application/src/main/java/de/kinemic/example/SearchResultAdapter.java:118-119 | a new address: exactly one entry more, with that address and rssi; appended at the end without sorting, sorted with it |
| SearchResults.UpsertKeepsOthers | engine-application/src/main/java/de/kinemic/example/SearchResultAdapter.java:107-119 | entries of other addresses survive unchanged, and every resulting entry is old or the reported one |
| SearchResults.UpsertKeepsUnique | engine-application/src/main/java/de/kinemic/example/SearchResultAdapter.java:106-120 | addresses stay pairwise distinct, and the address set grows by just the reported address (no address changes) |
| SearchResults.SearchResultAdapter.constructor | engine-application/src/main/java/de/kinemic/example/SearchResultAdapter.java:44-59 | a new adapter is empty, with sorting off |
| SearchResults.SearchResultAdapter.SetSorting | engine-application/src/main/java/de/kinemic/example/SearchResultAdapter.java:51-53 | sets the flag; the list is unchanged |
| SearchResults.SearchResultAdapter.OnBandFound | engine-application/src/main/java/de/kinemic/example/SearchResultAdapter.java:62-64 | a report is an `update` |
| SearchResults.SearchResultAdapter.Update | engine-application/src/main/java/de/kinemic/example/SearchResultAdapter.java:106-120 | the scan loop leaves the list equal to `Upsert` of the old list, and keeps addresses unique |
| SearchResults.SearchResultAdapter.Add | engine-application/src/main/java/de/kinemic/example/SearchResultAdapter.java:123-125 | manual insertion always fails with the illegal-state error and changes nothing |
| SearchResults.SearchResultAdapter.AddAll | engine-application/src/main/java/de/kinemic/example/SearchResultAdapter.java:128-135 | both overloads always fail with the illegal-state error and change nothing |
| SearchResults.SearchResultAdapter.Clear | engine-service/src/main/java/de/kinemic/example/MainActivity.java:193 | "Clear" empties the list and keeps the sorting flag |
| Sdk.RegisteredAfterRegistrations | engine-service/src/main/java/de/kinemic/example/MainActivity.java:74-79 | after registering a list of listeners, exactly those are added to the registered set |
| Sdk.RegisteredAfterUnregistrations | engine-service/src/main/java/de/kinemic/example/MainActivity.java:65-71 | after unregistering a list of listeners, exactly those are removed |
| Sdk.RegisterThenUnregister | engine-service/src/main/java/de/kinemic/example/MainActivity.java:65-82 | registering listeners none of which was registered, then unregistering them, leaves exactly what the commands in between leave, provided those commands do not (un)register any of these listeners |
| EngineApp.EngineApplication.constructor | engine-application/src/main/java/de/kinemic/example/EngineApplication.java:29-41 | no engine, no pending logout, reconnect fields false/null/-1 |
| EngineApp.EngineApplication.GetEngine | engine-application/src/main/java/de/kinemic/example/EngineApplication.java:72-79 | always an engine; the same one once created; a fresh engine reconnects only when asked and the window allows it |
| EngineApp.EngineApplication.ReconnectLastSensor | engine-application/src/main/java/de/kinemic/example/EngineApplication.java:93-103 | connects the last sensor and resets the three fields iff disconnected by us, a sensor is known and less than 60000 ms passed; otherwise nothing changes |
| EngineApp.EngineApplication.OnActivityCreated | engine-application/src/main/java/de/kinemic/example/EngineApplication.java:106-108 | every pending logout is cancelled |
| EngineApp.EngineApplication.OnActivityStarted | engine-application/src/main/java/de/kinemic/example/EngineApplication.java:111-113 | every pending logout is cancelled |
| EngineApp.EngineApplication.OnActivityResumed | engine-application/src/main/java/de/kinemic/example/EngineApplication.java:116-118 | every pending logout is cancelled, so none can run before the next pause |
| EngineApp.EngineApplication.OnActivityPaused | engine-application/src/main/java/de/kinemic/example/EngineApplication.java:121-123 | a logout due 1000 ms from now is posted |
| EngineApp.EngineApplication.RunDelayedLogout | engine-application/src/main/java/de/kinemic/example/EngineApplication.java:44-49 | only a posted logout that is due can run; it leaves the queue and releases the engine |
| EngineApp.EngineApplication.ReleaseEngine | engine-application/src/main/java/de/kinemic/example/EngineApplication.java:140-154 | connected: sensor, flag and time recorded, disconnect before release; not connected: release only; no engine: no-op; the engine is null afterwards |
| ServiceHost.EngineActivity.constructor | engine-service/src/main/java/de/kinemic/example/EngineActivity.java:15-17 | unbound, unregistered, no engine |
| ServiceHost.EngineActivity.OnResume | engine-service/src/main/java/de/kinemic/example/EngineActivity.java:33-40 | registers (hook) iff bound and not registered; bound leaves handlers registered, unbound changes nothing |
| ServiceHost.EngineActivity.OnPause | engine-service/src/main/java/de/kinemic/example/EngineActivity.java:43-50 | unregisters (hook) iff bound and registered; afterwards not registered |
| ServiceHost.EngineActivity.OnServiceConnected | engine-service/src/main/java/de/kinemic/example/EngineActivity.java:62-71 | keeps the engine, becomes bound, registers iff not yet registered |
| ServiceHost.EngineActivity.OnServiceDisconnected | engine-service/src/main/java/de/kinemic/example/EngineActivity.java:74-78 | clears bound, engine and registered, invoking no hook |
| ServiceHost.HostHooks | engine-service/src/main/java/de/kinemic/example/EngineActivity.java:33-78 | a run of callbacks invokes one hook (or none) per callback |
| ServiceHost.HookOfCallback | engine-service/src/main/java/de/kinemic/example/EngineActivity.java:33-78 | the hook of each callback in a run is the decision in the state left by the callbacks before it |
| ServiceHost.RegisteredOnlyWhileBound | engine-service/src/main/java/de/kinemic/example/EngineActivity.java:33-78 | from any state with registered ⇒ bound, every run of callbacks ends in such a state |
| ServiceHost.NoDoubleRegistration | engine-service/src/main/java/de/kinemic/example/EngineActivity.java:36-70 | between two `registerHandlers` calls there is an `unregisterHandlers` call or a service disconnection |
| ServiceHost.RegisteredUntilUnregistered | engine-service/src/main/java/de/kinemic/example/EngineActivity.java:36-47 | while registered, no callback registers again before an unregistration or disconnection |
| ServiceMain.NameOfAS | engine-service/src/main/java/de/kinemic/example/MainActivity.java:125-134 | "Active" exactly for ACTIVE, "Inactive" exactly for INACTIVE, "Unknown" exactly for anything else |
| ServiceMain.MainActivity.constructor | engine-service/src/main/java/de/kinemic/example/MainActivity.java:29 | a fresh activity: unbound, FAB searching, no dialog |
| ServiceMain.MainActivity.RegisterHandlers | engine-service/src/main/java/de/kinemic/example/MainActivity.java:73-82 | registers the four listeners, then syncs the FAB with the engine's connection state |
| ServiceMain.MainActivity.UnregisterHandlers | engine-service/src/main/java/de/kinemic/example/MainActivity.java:64-71 | unregisters the same four listeners |
| ServiceMain.MainActivity.RunHook | engine-service/src/main/java/de/kinemic/example/MainActivity.java:64-82 | the overridden hook runs exactly when the base class invokes it |
| ServiceMain.MainActivity.OnResume | engine-service/src/main/java/de/kinemic/example/EngineActivity.java:33-40 | listener registration and FAB sync happen iff bound and not registered |
| ServiceMain.MainActivity.OnPause | engine-service/src/main/java/de/kinemic/example/EngineActivity.java:43-50 | the four listeners are unregistered iff bound and registered |
| ServiceMain.MainActivity.OnServiceConnected | engine-service/src/main/java/de/kinemic/example/EngineActivity.java:62-71 | the four listeners are registered on the delivered engine iff not yet registered |
| ServiceMain.MainActivity.OnServiceDisconnected | engine-service/src/main/java/de/kinemic/example/EngineActivity.java:74-78 | flags cleared; no unregistration, FAB unchanged |
| ServiceMain.MainActivity.UpdateFabButton | engine-service/src/main/java/de/kinemic/example/MainActivity.java:84-88 | action and icon follow the connection state (close icon iff disconnecting action) |
| ServiceMain.MainActivity.OnConnectionStateChanged | engine-service/src/main/java/de/kinemic/example/MainActivity.java:106-114 | every connection event re-derives the FAB action |
| ServiceMain.MainActivity.FabButtonClicked | engine-service/src/main/java/de/kinemic/example/MainActivity.java:162-170 | disconnect if the FAB disconnects, otherwise a new search dialog; never both |
| ServiceMain.MainActivity.ShowSearchDialog | engine-service/src/main/java/de/kinemic/example/MainActivity.java:174-196 | a new empty adapter, and a search that reports into it |
| ServiceMain.MainActivity.OnSearchItemSelected | engine-service/src/main/java/de/kinemic/example/MainActivity.java:184-188 | stop the search, then connect to the selected entry's address |
| ServiceMain.MainActivity.OnSearchDialogDismissed | engine-service/src/main/java/de/kinemic/example/MainActivity.java:183 | dismissing stops the search |
| ServiceMain.MainActivity.OnClearClicked | engine-service/src/main/java/de/kinemic/example/MainActivity.java:193 | "Clear" empties the dialog's list |
| ServiceMain.MainActivity.Buzz | engine-service/src/main/java/de/kinemic/example/MainActivity.java:136-141 | one 400 ms buzz |
| ServiceMain.MainActivity.ChangeColor | engine-service/src/main/java/de/kinemic/example/MainActivity.java:152-160 | the LED gets red, green, blue in that order |
| Airmouse.WrapDx | engine-application/src/main/java/de/kinemic/example/PDFViewAirmouseAdapter.java:94-98 | maps [-360, 360] into [-180, 180], is the identity on [-180, 180], and shifts by at most one turn |
| Airmouse.ZoomApplies | engine-application/src/main/java/de/kinemic/example/PDFViewAirmouseAdapter.java:128-133 | a step applies iff its size exceeds 0.01 and it zooms out only above 1 and in only below 14 |
| Airmouse.ZoomStepDirection | engine-application/src/main/java/de/kinemic/example/PDFViewAirmouseAdapter.java:127-133 | a zoom-out step applies only above MIN_ZOOM and lowers the zoom, and a zoom-in step only below MAX_ZOOM and raises it; at or past a bound, steps further past it no longer apply |
| Airmouse.Dispatch | engine-application/src/main/java/de/kinemic/example/PDFViewAirmouseAdapter.java:122-137 | downwards pans, upwards zooms iff the guard allows, sideways and inconclusive do nothing |
| Airmouse.PDFViewAirmouseAdapter.constructor | engine-application/src/main/java/de/kinemic/example/PDFViewAirmouseAdapter.java:45-64 | no origin, inconclusive mode, inactive |
| Airmouse.PDFViewAirmouseAdapter.SetAirmouseActive | engine-application/src/main/java/de/kinemic/example/PDFViewAirmouseAdapter.java:70-81 | the flag becomes the argument; one start or stop command exactly when it changes, none otherwise |
| Airmouse.PDFViewAirmouseAdapter.RegisterListeners | engine-application/src/main/java/de/kinemic/example/PDFViewAirmouseAdapter.java:83-86 | registers the adapter as airmouse listener |
| Airmouse.PDFViewAirmouseAdapter.UnregisterListeners | engine-application/src/main/java/de/kinemic/example/PDFViewAirmouseAdapter.java:88-91 | unregisters the same listener |
| Airmouse.PDFViewAirmouseAdapter.RefreshWhenIdle | engine-application/src/main/java/de/kinemic/example/PDFViewAirmouseAdapter.java:100-103 | one refresh pending, replacing any earlier one |
| Airmouse.PDFViewAirmouseAdapter.RunRefresher | engine-application/src/main/java/de/kinemic/example/PDFViewAirmouseAdapter.java:53 | the pending refresh reloads the pages |
| Airmouse.PDFViewAirmouseAdapter.OnMove | engine-application/src/main/java/de/kinemic/example/PDFViewAirmouseAdapter.java:106-142 | without an origin or on a palm change only the origin is set; otherwise the wrapped difference is dispatched, and an applied zoom step scales the view's zoom; the sample is always the new origin |
| Airmouse.PDFViewAirmouseAdapter.OnClick | engine-application/src/main/java/de/kinemic/example/PDFViewAirmouseAdapter.java:145-149 | the origin is dropped (so the next sample only resets it) and the airmouse is restarted |
| DevelopApp.NextLastBand | engine-application/src/main/java/de/kinemic/example/EngineDevelopApplication.kt:29-43 | DISCONNECTING remembers the band; CONNECTED forgets it only if it is that band; other states and bands keep it |
| DevelopApp.LedFor | engine-application/src/main/java/de/kinemic/example/EngineDevelopApplication.kt:22-27 | blue exactly for ACTIVE, yellow exactly for INACTIVE, none otherwise |
| DevelopApp.EngineApplicationDevelop.constructor | engine-application/src/main/java/de/kinemic/example/EngineDevelopApplication.kt:20 | no remembered band, no engine yet |
| DevelopApp.EngineApplicationDevelop.GetEngine | engine-application/src/main/java/de/kinemic/example/EngineDevelopApplication.kt:45-57 | created at most once; at creation the band is loaded (current value as default) and both listeners are registered exactly once |
| DevelopApp.EngineApplicationDevelop.OnConnectionStateChanged | engine-application/src/main/java/de/kinemic/example/EngineDevelopApplication.kt:29-43 | the band follows `NextLastBand`; DISCONNECTING also stores it under the preference key |
| DevelopApp.EngineApplicationDevelop.OnActivationStateChanged | engine-application/src/main/java/de/kinemic/example/EngineDevelopApplication.kt:22-27 | ACTIVE posts blue and INACTIVE yellow for the same band; other states post nothing |
| DevelopApp.EngineApplicationDevelop.RunPendingLed | engine-application/src/main/java/de/kinemic/example/EngineDevelopApplication.kt:24-25 | the oldest posted LED command reaches the engine |
| AppMain.AppListeners | engine-application/src/main/java/de/kinemic/example/MainActivity.java:114-119 | five distinct listeners of the activity, none of them the airmouse listener |
| AppMain.AirmouseAfter | engine-application/src/main/java/de/kinemic/example/MainActivity.java:148-156 | ROTATE_RL turns on, ROTATE_LR turns off, other gestures keep the state |
| AppMain.ResumedListeners | engine-application/src/main/java/de/kinemic/example/MainActivity.java:114-119 | after resume the activity listens to every event kind except the airmouse's |
| AppMain.PauseUndoesResume | engine-application/src/main/java/de/kinemic/example/MainActivity.java:99-120 | pause unregisters exactly what resume registered: afterwards only what the commands in between did remains, as long as they leave the five listeners alone |
| AppMain.ResumePauseCycle | engine-application/src/main/java/de/kinemic/example/PDFViewAirmouseAdapter.java:83-91 | a full cycle, with the airmouse adapter registering after the activity resumes and unregistering before it pauses, leaves exactly what the commands in between leave, provided they register or unregister none of the six listeners |
| AppMain.MainActivity.constructor | engine-application/src/main/java/de/kinemic/example/MainActivity.java:65-90 | the engine is the provider's, and the airmouse adapter drives it; an existing engine and remembered band are kept, otherwise the provider creates its engine with its two registrations and loads the band from the preferences; the adapter starts inactive, with no origin, in inconclusive mode and with no refresh pending |
| AppMain.MainActivity.OnResume | engine-application/src/main/java/de/kinemic/example/MainActivity.java:110-120 | fetches the provider's engine and registers the five listeners |
| AppMain.MainActivity.OnPause | engine-application/src/main/java/de/kinemic/example/MainActivity.java:98-108 | unregisters the same five listeners, then drops the engine |
| AppMain.MainActivity.OnGesture | engine-application/src/main/java/de/kinemic/example/MainActivity.java:143-157 | a 150 ms buzz first; then a start only on ROTATE_RL while inactive, a stop only on ROTATE_LR while active; the adapter's origin, mode and pending refresh are untouched |
| AppMain.MainActivity.Buzz | engine-application/src/main/java/de/kinemic/example/MainActivity.java:159-162 | one 300 ms buzz |
| AppMain.MainActivity.ChangeColor | engine-application/src/main/java/de/kinemic/example/MainActivity.java:164-171 | the LED gets red, green, blue in that order |

## Left out

- The SDK engine (sensor protocol, Bluetooth, gesture recognition) is not in the repository. It is a command log here, and the connection state and sensor come from its `Report` method. The engine-application SDK and the engine-service SDK are modelled by one `Engine`. The engine-service code uses integer state constants; only the four connection states and the two named activation states are distinguished.
- Floating-point arithmetic: pan and zoom magnitudes, `wrapDx` and the zoom guard are computed over reals, so float rounding is not modelled. `onLayerDrawn` (pointer drawing) and the `wrist_angle` argument of `onMove` are left out.
- Android UI: `getView`/`ViewHolder`, `notifyDataSetChanged`, Snackbar/Toast/log output, ButterKnife binding, dialog construction, fragment setup and the toolbar in `onCreate`, runtime permission requests, Intent extras and `navigateToChild`.
- Handler timing: posted runnables are explicit events. The app's logout is a due time, and the refresh and LED runnables are pending entries. The 250 ms refresh delay and the 10 ms LED delay only name when those events may run. `System.currentTimeMillis` is the `now` parameter, and `long` overflow is not modelled.
- `synchronized` and UI-thread dispatch: there is no concurrency to model.
- SharedPreferences are a `map` from key to band address; persistence across process restarts is not modelled.
- EngineApplication: `getEngine()` and the two static `getEngine(Activity…)` helpers only forward to `GetEngine` and are not separate members. `onCreate` only installs the callbacks and the handler. `onActivityStopped`, `onActivitySaveInstanceState` and `onActivityDestroyed` are empty.
- EngineActivity: `bindService`/`unbindService` in `onCreate`/`onDestroy`, and the empty default hooks. The binder is represented by the engine handed to `OnServiceConnected`.
- engine-service/src/main/java/de/kinemic/example/EngineService.java is not part of this model: it only creates, returns and releases the engine.
- The engine-service `MainActivity` uses a `SearchResultAdapter` of its own module, which is not in this repository selection; the engine-application adapter stands in for it.
- SearchResults: the `@Nullable` argument of `update` is not modelled (a report always carries a sensor). The list operations inherited from `ArrayAdapter` other than `clear` (`insert`, `remove`) are not modelled.
- SearchResults.SortByRssi: the sort is defined stably (equal rssi keep their order), but no lemma states stability; only permutation and order are proved.
- Airmouse: the view's zoom after `zoomCenteredRelativeTo` is the old zoom times the factor, as the viewer library does; any clamping inside the library is not modelled. `isAirmouseActive()` is the field `active`, which `AppMain.MainActivity.OnGesture` reads directly.
- Airmouse: no method composes the lifecycle observer's `registerListeners`/`unregisterListeners` with the activity's own `onResume`/`onPause`; `AppMain.ResumePauseCycle` takes the platform's order (the observer's ON_RESUME after the activity's `onResume`, its ON_PAUSE before the activity's `onPause`) as given.
- AppMain: which `Application` the activity gets is fixed to `EngineApplicationDevelop`, the repository's engine provider. The listener bodies other than `onGesture` only log or show a Snackbar.
- ServiceMain.MainActivity.FabButtonClicked, ServiceMain.MainActivity.ShowSearchDialog, ServiceMain.MainActivity.OnSearchItemSelected, ServiceMain.MainActivity.OnSearchDialogDismissed, ServiceMain.MainActivity.Buzz and ServiceMain.MainActivity.ChangeColor require a bound engine. The buttons are live before the service connects and after it disconnects, while `mEngine` is null (EngineActivity.java:15 and 76). A press then dereferences null (MainActivity.java:140, 159, 166, 195) and the app crashes with a NullPointerException. The model does not capture that crash.
- AppMain.MainActivity.OnGesture, AppMain.MainActivity.Buzz, AppMain.MainActivity.ChangeColor and AppMain.MainActivity.OnPause require the activity to hold its engine. After `onPause` sets `mEngine` to null, a button press would crash the same way. That is not modelled either.
