# Nutrition system integration layer, modelled in Dafny

`NutritionSystem` is the class that joins the six parts of the nutrition system:
the sensor manager, the nutrition analyzer and the supplement recommender; the intake
manager; DataSecurity; and the user-interface manager. The class keeps two pieces of state
of its own. The first is the running flag, guarded by `start` and `stop`. The second is
the registry of active users, a dict from user id to profile. Every other operation checks
the registry, makes calls on the components in a fixed order, and builds a response dict.

The model runs to about fourteen hundred lines in four modules:

- `Values` (values.dfy) holds the part of Python's data model the class relies on:
  - JSON-like values, and dicts with string keys;
  - truthiness and `dict.get` with a default;
  - the exceptions an operation can raise.
- `Components` (components.dfy) covers the components, seen only through the calls made on
  them:
  - each call is an `Event`;
  - the start-up and shut-down sequences, and the lifecycle projection of a call trace;
  - the lemmas about ordering.
- `Rules` (rules.dfy) holds the pure rules the class applies:
  - the stored profile and its dict view, and the response dicts;
  - the report window, alert routing and the key-by-key overwrite of a profile update;
  - the settings hooks, and the calls one sensor reading makes.
- `SystemIntegration` (system.dfy) holds the class itself:
  - `running` and `users` are fields that its methods update;
  - a ghost `trace` records every component call in order;
  - a ghost `cycles` counts completed start/stop cycles.

What a component answers is not known, and neither is what the clock reads. Each
answer and each clock reading is therefore a parameter of the operation that receives it.
The `cipher` parameter is DataSecurity's answer to an encryption. `plain` is its answer to
a decryption. `analysis` is the analyzer's answer, and `now` a reading of
`datetime.now().isoformat()`. The model never assumes `decrypt(encrypt(d)) == d`.

The class invariant `Valid()` states two things:
- every stored profile carries its own key as `id`;
- the start and stop calls of the trace are complete start/stop cycles, followed by one
  start-up while the system runs. So components are started and stopped in strict
  alternation, whatever other calls happen in between, as long as no component call
  raises (see "Left out").

Every method keeps it. Every per-user method also shows the uniform guard: for an
unregistered id it returns `{"status": "error", "message": "User not registered"}`. It
makes no call, and `users` and `trace` stay as they were. `handle_health_alert` has no
such guard. There, a high-severity alert for an unknown user raises KeyError after the
urgent notification has been sent (src/system_integration.py:256-259). The model follows
that code.

The stored profile has exactly the keys `id`, `encrypted_data`, `registered_at`,
`last_activity` and `components`. So its top-level `notify_healthcare_provider` lookup
always yields the default, and the healthcare provider is never notified
(`NeverNotifiesProvider`). The model keeps the branch and proves it dead.

## Model

| member | source | states |
|---|---|---|
| SystemIntegration.NutritionSystem.constructor | src/system_integration.py:33-57 | a new system is not running, has no active users and has made no component call |
| SystemIntegration.NutritionSystem.Start | src/system_integration.py:59-77 | returns true exactly when the system was not running. It then starts the six components in the order sensor, analyzer, recommender, intake, security, ui, and sets running. Otherwise it changes nothing. The users stay as they were, and the lifecycle invariant is kept |
| SystemIntegration.NutritionSystem.Stop | src/system_integration.py:79-97 | returns true exactly when the system was running. It then stops the six components in reverse order, clears running and completes one cycle. Otherwise it changes nothing |
| Components.StartTargets | src/system_integration.py:68-73 | `start` calls sensor, analyzer, recommender, intake, security and ui, in that order |
| Components.StopTargets | src/system_integration.py:88-93 | `stop` calls ui, security, intake, recommender, analyzer and sensor, in that order |
| Components.StartReachesEachOnce | src/system_integration.py:68-73 | start-up calls every component, each exactly once |
| Components.StartStopPalindrome | src/system_integration.py:68-93 | shut-down visits the components in the exact reverse of the start-up order, so a start followed by a stop is a palindrome over component ids |
| Components.StartAfterRuns | src/system_integration.py:68-75 | starting after complete cycles leaves those cycles plus one start-up in the lifecycle projection |
| Components.StopAfterStart | src/system_integration.py:88-95 | stopping after a start-up completes one more cycle in the lifecycle projection |
| Components.OthersKeepLifecycle | src/system_integration.py:109-466 | calls other than start and stop leave the lifecycle projection as it was, so no per-user operation disturbs the start/stop alternation |
| SystemIntegration.NutritionSystem.Touch | src/system_integration.py:157 | for a registered user, only that user's `last_activity` changes, to the clock reading; every other profile and field is kept, and so is the invariant. The same write is made at lines 227, 300, 338, 395 and 431 |
| SystemIntegration.NutritionSystem.RegisterUser | src/system_integration.py:109-138 | returns false for a registered id and changes nothing. Otherwise it encrypts the data, registers the user with the five components in source order and stores the new profile under the id, and nothing else changes |
| Rules.NewProfile | src/system_integration.py:119-132 | the new profile has `id` equal to the user id and the encrypted data and the two clock readings as given. Its components are exactly sensor, analyzer, recommender, intake_manager and ui, with no security entry, each holding that component's answer |
| Rules.AsDict | src/system_integration.py:119-125 | a stored profile has exactly the keys id, encrypted_data, registered_at, last_activity and components |
| SystemIntegration.NutritionSystem.ProcessSensorData | src/system_integration.py:150-179 | an unregistered id gets the not-registered error and nothing changes. Otherwise last_activity is updated, and the calls and the result are those of the sensor pipeline, including the exceptions the alert loop raises |
| Rules.SensorPipeline | src/system_integration.py:161-179 | a reading is always processed, then analyzed, before anything else, even when the alert loop later raises. A reading that completes answers success wrapping the analysis |
| Rules.HeadCalls | src/system_integration.py:161-168 | the calls before the alert loop are processing, then analysis, then exactly the recommend, schedule-update and UI-update calls of the refresh, in that order, when the analysis asks for one, and nothing more otherwise |
| Rules.OutcomeCases | src/system_integration.py:171-179 | alerts that cannot be iterated raise before any alert call. The loop and the UI update either raise AttributeError or TypeError or answer success wrapping the analysis |
| SystemIntegration.NutritionSystem.PipelineStart | src/system_integration.py:161-168 | processing and analysis calls first, then the recommendation refresh exactly when it is requested |
| SystemIntegration.NutritionSystem.PipelineFinish | src/system_integration.py:171-179 | the alert loop and the UI health update make the calls and give the outcome of `AlertOutcome` |
| SystemIntegration.NutritionSystem.HandleAlerts | src/system_integration.py:171-173 | handles the alerts in list order, one call each. It stops at the first alert that is not a dict, and it completes exactly when every alert is a dict |
| SystemIntegration.NutritionSystem.HandleRegisteredAlert | src/system_integration.py:172-173 | one turn of the alert loop for a registered user appends exactly the alert's one UI call, and the invariant is kept |
| Rules.AlertItems | src/system_integration.py:171-173 | a list iterates exactly its items, in order; an empty string or dict iterates nothing. A non-empty string or dict yields a string, which has no `.get`, so the result is AttributeError. Anything else is not iterable (TypeError) |
| Rules.DictPrefix | src/system_integration.py:172-173 | counts the leading alerts that are dicts; the next one, if any, is not a dict |
| Rules.AlertEvents | src/system_integration.py:172-173 | handling a run of dict alerts makes one call per alert, the i-th call being the route of the i-th alert |
| Rules.RefreshIffRequested | src/system_integration.py:167-168 | the recommender is called with the analysis exactly when its `update_recommendation` flag is truthy |
| Rules.PipelineCompletes | src/system_integration.py:171-179 | a sensor reading completes exactly when the alerts can be iterated and each is a dict. A completed reading answers success wrapping the analysis |
| Rules.HealthUpdateAfterAlerts | src/system_integration.py:171-176 | in a completed reading the calls just before the last one are exactly the alert routes, one per alert in list order. The last call is the UI health update, and it appears nowhere earlier |
| Rules.NoHealthUpdateOnError | src/system_integration.py:171-176 | a reading stopped by an exception never updates the UI health data |
| Rules.AlertEventsAreAlerts | src/system_integration.py:172-173 | the alert loop makes no recommendation call and no health-data update |
| SystemIntegration.NutritionSystem.UpdateRecommendations | src/system_integration.py:191-207 | an unregistered id gets the not-registered error and no call. Otherwise it makes the recommend, schedule-update and UI-update calls in order and returns the recommender's answer. last_activity is not touched |
| SystemIntegration.NutritionSystem.RecordSupplementIntake | src/system_integration.py:220-236 | an unregistered id gets the not-registered error and nothing changes. Otherwise last_activity is set, the intake and the UI status are recorded in order, and the intake manager's answer is returned |
| SystemIntegration.NutritionSystem.HandleHealthAlert | src/system_integration.py:238-271 | no registration check. The calls and the result are those of `HandleAlert` for the stored profile, or for none; the users are unchanged |
| Rules.RouteOf | src/system_integration.py:251-268 | "high" is urgent and "medium" is a standard notification, both if and only if; anything else goes to the report. A missing severity counts as medium |
| Rules.HandleAlert | src/system_integration.py:251-271 | exactly one UI action comes first, and only an urgent alert may add a provider call. KeyError is raised exactly for an urgent alert of an unregistered user; otherwise the answer is alert_handled. The provider is called exactly for an urgent alert of a registered user whose profile asks for it, so never on the KeyError path |
| Rules.AlertHandledOnce | src/system_integration.py:251-271 | for a registered user an alert gets exactly its one UI call and the answer alert_handled |
| Rules.NeverNotifiesProvider | src/system_integration.py:259-260 | a stored profile has no `notify_healthcare_provider` key, so the provider is never notified |
| SystemIntegration.NutritionSystem.GetUserDashboard | src/system_integration.py:293-319 | an unregistered id gets the not-registered error and nothing changes. Otherwise last_activity is set, the three undated queries are made in order and the dashboard holds their answers |
| Rules.ReportWindow | src/system_integration.py:340-349 | an unknown report type has no window (if and only if). A known one ends today and starts exactly its look-back of 0, 7 or 30 days earlier, so start <= end. An OverflowError is raised exactly when that start would fall before the first date |
| Rules.ReportWindowsNest | src/system_integration.py:342-347 | daily, weekly and monthly windows span 0, 7 and 30 days, and each lies inside the next longer one |
| Rules.ReportQueries | src/system_integration.py:351-361 | the report makes four queries, health data, intake history, compliance and trends in that order, each for the user and over the report's window |
| Rules.ReportShape | src/system_integration.py:363-374 | a report has exactly the nine keys of the source. It names the user and the type, spans the window's start and end, and carries the generation time and the four query answers unchanged |
| SystemIntegration.NutritionSystem.GetHealthReport | src/system_integration.py:321-377 | an unregistered id gets the not-registered error and nothing changes. Otherwise last_activity is set first. An unknown type then gets the invalid-type error with no query, and an overflowing window raises. A valid window gets the four dated queries in order and a report over that window; the default type is monthly |
| Rules.PublicProfile | src/system_integration.py:403-409 | the returned profile has no password key and carries the given registered_at and last_activity. Every other key of the decrypted data is kept with its value |
| SystemIntegration.NutritionSystem.GetUserProfile | src/system_integration.py:388-412 | an unregistered id gets the not-registered error and nothing changes. Otherwise only last_activity changes, and the stored encrypted data is decrypted once and kept as it was. The answer is the public profile with the stored registration time and the new activity time |
| Rules.Overwrite | src/system_integration.py:440-441 | every key of the update gets the update's value, every other key keeps its value, and no other key appears |
| SystemIntegration.NutritionSystem.Reencrypt | src/system_integration.py:434-447 | decrypts the stored data, encrypts the overwritten data and stores only the new encrypted data |
| Rules.HooksCallFlagged | src/system_integration.py:450-463 | the hooks of a list of components call exactly the flagged ones among them with the whole update, and nothing else |
| Rules.HookFiresIffFlag | src/system_integration.py:450-463 | a component's settings hook fires exactly when its flag in the update is truthy; DataSecurity has no hook, and no other call is made |
| Rules.HookOrder | src/system_integration.py:450-463 | the components offered a settings hook are exactly those other than DataSecurity, each listed once |
| Rules.SettingsHooks | src/system_integration.py:450-463 | no settings call is made twice in one profile update |
| Rules.HooksOnce | src/system_integration.py:450-463 | over a list of distinct components, the hooks make no call twice |
| SystemIntegration.NutritionSystem.RunSettingsHooks | src/system_integration.py:450-463 | the settings calls are exactly the hooks of the flagged components, in source order |
| SystemIntegration.NutritionSystem.UpdateUserProfile | src/system_integration.py:424-466 | an unregistered id gets the not-registered error and nothing changes. Otherwise only last_activity and encrypted_data change. DataSecurity gets one decryption, then an encryption of the decrypted data overwritten key by key with the update, then the flagged settings hooks run |

## Left out

- Logging is left out: the logger set-up, the `system.log` file handler and every log call (src/system_integration.py:18-27). They are I/O with no effect on the state or the results.
- The six component classes are left out; their modules are not part of this model (src/system_integration.py:36-51). A component call is an event in the ghost trace, and its answer is a parameter with no assumed value. In particular, decrypting an encryption is not assumed to give the data back.
- Component calls are assumed to return normally. If one raised part-way through `start` or `stop` (src/system_integration.py:68-75), some components would be started while `is_running` stays false, and a retried `start` would start them again. The lifecycle invariant in `Valid()` relies on this assumption.
- SystemIntegration.NutritionSystem.HandleHealthAlert: takes the alert as a dict. A direct call with a non-dict alert raises AttributeError at src/system_integration.py:248; the model has that error only inside the alert loop of `process_sensor_data` (`AlertOutcome`).
- The decryption and the analysis answers are typed as dicts, because the source indexes them and calls `.get` on them. An answer of another type, which would raise in the source, is not modelled.
- No aliasing is modelled between the dicts handed to components and the dicts the class keeps or returns. A component that mutated its argument would not be seen here.
- The clock is not modelled. Each `datetime.now()` reading is a parameter: ISO text where the source stores text, and a day ordinal where it does date arithmetic.
- Rules.Report: report dates are day ordinals, not `date.isoformat()` text.
- The dict insertion order of profiles and responses is not kept; dicts are maps.
- `_notify_healthcare_provider` is kept only as the trace event `ProviderNotified`, because the method itself only logs (src/system_integration.py:273-282).
- The `main` demo and its JSON printing are left out (src/system_integration.py:470-534). They are example usage and I/O.
- Python floats and any value type beyond None, bool, int, str, list and dict are not modelled. Truthiness is modelled for exactly these types.
