/** The integration class: the running flag, the registry of active users and every
    call the class makes on its six components, recorded in a ghost trace. What a
    component answers, and what the clock reads, are parameters of the operation
    that makes the call. */
module SystemIntegration {
  import opened Values
  import opened Components
  import opened Rules

  class NutritionSystem {
    var running: bool
    var users: map<UserId, Profile>
    /** Every component call made so far, in order. */
    ghost var trace: seq<Event>
    /** How many start/stop cycles have completed. */
    ghost var cycles: nat

    /** Stored profiles keep their shape, and components are started and stopped in
        strict alternation: the start and stop calls of the trace are complete cycles,
        followed by one start-up while the system runs. */
    ghost predicate Valid()
      reads this
    {
      && (forall u :: u in users ==> users[u].id == u)
      && Lifecycle(trace) == Runs(cycles) + (if running then StartEvents() else [])
    }

    constructor ()
      ensures Valid()
      ensures !running && users == map[] && trace == [] && cycles == 0
    {
      running := false;
      users := map[];
      trace := [];
      cycles := 0;
    }

    /** Records calls that neither start nor stop a component. */
    ghost method Log(es: seq<Event>)
      requires forall e :: e in es ==> !IsLifecycle(e)
      modifies this`trace
      ensures trace == old(trace) + es
      ensures old(Valid()) ==> Valid()
    {
      OthersKeepLifecycle(trace, es);
      trace := trace + es;
    }

    /** Stores a profile under its own id. */
    method Store(u: UserId, p: Profile)
      requires Valid() && p.id == u
      modifies this`users
      ensures Valid()
      ensures users == old(users)[u := p]
    {
      users := users[u := p];
    }

    /** Stores a new last-activity time for a registered user. */
    method Touch(u: UserId, now: string)
      requires Valid() && u in users
      modifies this`users
      ensures Valid()
      ensures users == old(users)[u := old(users)[u].(lastActivity := now)]
    {
      Store(u, users[u].(lastActivity := now));
    }

    /** Starts the six components in order, unless the system already runs. */
    method Start() returns (ok: bool)
      requires Valid()
      modifies this
      ensures Valid()
      ensures ok == !old(running)
      ensures running && users == old(users)
      ensures trace == old(trace) + (if ok then StartEvents() else [])
      ensures cycles == old(cycles)
    {
      if running {
        return false;
      }
      StartAfterRuns(trace, cycles);
      trace := trace + StartEvents();
      running := true;
      return true;
    }

    /** Stops the six components in the reverse order, unless the system is not running. */
    method Stop() returns (ok: bool)
      requires Valid()
      modifies this
      ensures Valid()
      ensures ok == old(running)
      ensures !running && users == old(users)
      ensures trace == old(trace) + (if ok then StopEvents() else [])
      ensures cycles == old(cycles) + (if ok then 1 else 0)
    {
      if !running {
        return false;
      }
      StopAfterStart(trace, cycles);
      trace := trace + StopEvents();
      running := false;
      cycles := cycles + 1;
      return true;
    }

    /** Registers a new user with encrypted data and an entry per component. `cipher` is
        DataSecurity's answer to encrypting `data`; `sensor` .. `ui` are the components'
        answers to their `register_user` calls; the two times are clock readings. */
    method RegisterUser(u: UserId, data: Value, cipher: Value,
                        registeredAt: string, lastActivity: string,
                        sensor: Value, analyzer: Value, recommender: Value,
                        intake: Value, ui: Value) returns (ok: bool)
      requires Valid()
      modifies this`trace, this`users
      ensures Valid() && running == old(running)
      ensures ok == (u !in old(users))
      ensures !ok ==> users == old(users) && trace == old(trace)
      ensures ok ==> users == old(users)[u := NewProfile(u, cipher, registeredAt, lastActivity,
                                                       sensor, analyzer, recommender, intake, ui)]
      ensures ok ==> trace == old(trace) + [Encrypted(data),
                                            Registered(Sensor, u, data),
                                            Registered(Analyzer, u, data),
                                            Registered(Recommender, u, data),
                                            Registered(Intake, u, data),
                                            Registered(Ui, u, data)]
    {
      if u in users {
        return false;
      }
      Log([Encrypted(data), Registered(Sensor, u, data), Registered(Analyzer, u, data),
           Registered(Recommender, u, data), Registered(Intake, u, data),
           Registered(Ui, u, data)]);
      Store(u, NewProfile(u, cipher, registeredAt, lastActivity,
                          sensor, analyzer, recommender, intake, ui));
      return true;
    }

    /** Refreshes a user's recommendations from an analysis; `recommendations` is the
        recommender's answer. The last-activity time is not touched. */
    method UpdateRecommendations(u: UserId, analysis: Value, recommendations: Value)
      returns (r: Fields)
      requires Valid()
      modifies this`trace
      ensures Valid() && users == old(users)
      ensures u !in users ==> r == NotRegistered() && trace == old(trace)
      ensures u in users ==>
        && r == Success("recommendations", recommendations)
        && trace == old(trace) + RecommendationEvents(u, analysis, recommendations)
    {
      if u !in users {
        return NotRegistered();
      }
      Log(RecommendationEvents(u, analysis, recommendations));
      return Success("recommendations", recommendations);
    }

    /** Handles one health alert. There is no registration check: a high alert for an
        unknown user raises KeyError once the urgent notification has gone out. */
    method HandleHealthAlert(u: UserId, alert: Fields) returns (r: Result<Fields>)
      requires Valid()
      modifies this`trace
      ensures Valid() && users == old(users)
      ensures var (es, out) := HandleAlert(u, alert, if u in users then Some(users[u]) else None);
        trace == old(trace) + es && r == out
    {
      Log([RouteEvent(u, alert)]);
      if RouteOf(alert) == Urgent {
        if u !in users {
          return Err(KeyError);
        }
        if NotifiesProvider(users[u]) {
          Log([ProviderNotified(u, alert)]);
        }
      }
      return Ok(AlertHandled());
    }

    /** One turn of the alert loop: for a registered user an alert gets exactly its one
        UI call. */
    method HandleRegisteredAlert(u: UserId, alert: Fields)
      requires Valid() && u in users
      modifies this`trace
      ensures Valid()
      ensures trace == old(trace) + [RouteEvent(u, alert)]
    {
      AlertHandledOnce(u, alert, users[u]);
      var _ := HandleHealthAlert(u, alert);
    }

    /** The alert loop of `process_sensor_data` for a registered user: handles the alerts
        in order and stops at the first one that is not a dict, which Python rejects with
        AttributeError. */
    method HandleAlerts(u: UserId, items: seq<Value>) returns (completed: bool)
      requires Valid() && u in users
      modifies this`trace
      ensures Valid() && users == old(users)
      ensures completed == (DictPrefix(items) == |items|)
      ensures trace == old(trace) + AlertEvents(u, items[..DictPrefix(items)])
    {
      var i := 0;
      while i < |items|
        invariant 0 <= i <= |items|
        invariant Valid() && users == old(users)
        invariant forall j :: 0 <= j < i ==> items[j].Dict?
        invariant trace == old(trace) + AlertEvents(u, items[..i])
      {
        if !items[i].Dict? {
          DictPrefixIs(items, i);
          return false;
        }
        HandleRegisteredAlert(u, items[i].fields);
        AlertEventsSnoc(u, items, i);
        AppendAssoc(old(trace), AlertEvents(u, items[..i]), [RouteEvent(u, items[i].fields)]);
        i := i + 1;
      }
      DictPrefixIs(items, i);
      assert items[..|items|] == items;
      return true;
    }

    /** The calls of a sensor reading before its alerts: processing, analysis and, when
        the analysis asks for it, the recommendation refresh. */
    method PipelineStart(u: UserId, raw: Value, validated: Value, analysis: Fields,
                         recommendations: Value)
      requires Valid() && u in users
      modifies this`trace
      ensures Valid()
      ensures trace == old(trace) + PipelineHead(u, raw, validated, analysis, recommendations)
    {
      Log([SensorDataProcessed(u, raw), Analyzed(u, validated)]);
      if RefreshRequested(analysis) {
        var _ := UpdateRecommendations(u, Dict(analysis), recommendations);
        AppendAssoc(old(trace), [SensorDataProcessed(u, raw), Analyzed(u, validated)],
                    RecommendationEvents(u, Dict(analysis), recommendations));
      }
    }

    /** The alerts of an analysis, then the UI health-data update once all are handled. */
    method PipelineFinish(u: UserId, analysis: Fields) returns (r: Result<Fields>)
      requires Valid() && u in users
      modifies this`trace
      ensures Valid()
      ensures trace == old(trace) + AlertOutcome(u, analysis).0 && r == AlertOutcome(u, analysis).1
    {
      var alerts := AnalysisAlerts(analysis);
      if alerts.Err? {
        return Err(alerts.exception);
      }
      var completed := HandleAlerts(u, alerts.value);
      if !completed {
        return Err(AttributeError);
      }
      assert alerts.value[..|alerts.value|] == alerts.value;
      Log([HealthDataShown(u, Dict(analysis))]);
      AppendAssoc(old(trace), AlertEvents(u, alerts.value), [HealthDataShown(u, Dict(analysis))]);
      return Ok(Success("result", Dict(analysis)));
    }

    /** Runs one sensor reading through the pipeline. `validated`, `analysis` and
        `recommendations` are the answers of the sensor manager, the analyzer and the
        recommender; `now` is the clock reading. */
    method ProcessSensorData(u: UserId, raw: Value, now: string, validated: Value,
                             analysis: Fields, recommendations: Value) returns (r: Result<Fields>)
      requires Valid()
      modifies this`trace, this`users
      ensures Valid() && running == old(running)
      ensures u !in old(users) ==>
        r == Ok(NotRegistered()) && users == old(users) && trace == old(trace)
      ensures u in old(users) ==>
        && users == old(users)[u := old(users)[u].(lastActivity := now)]
        && trace == old(trace) + SensorPipeline(u, raw, validated, analysis, recommendations).0
        && r == SensorPipeline(u, raw, validated, analysis, recommendations).1
    {
      if u !in users {
        return Ok(NotRegistered());
      }
      Touch(u, now);
      ghost var start := trace;
      PipelineStart(u, raw, validated, analysis, recommendations);
      r := PipelineFinish(u, analysis);
      AppendAssoc(start, PipelineHead(u, raw, validated, analysis, recommendations),
                  AlertOutcome(u, analysis).0);
    }

    /** Records that a user took a supplement; `result` is the intake manager's answer
        and `now` the clock reading. */
    method RecordSupplementIntake(u: UserId, supplement: string, now: string, result: Value,
                                  intakeTime: Value := Null) returns (r: Fields)
      requires Valid()
      modifies this`trace, this`users
      ensures Valid() && running == old(running)
      ensures u !in old(users) ==> r == NotRegistered() && users == old(users) && trace == old(trace)
      ensures u in old(users) ==>
        && users == old(users)[u := old(users)[u].(lastActivity := now)]
        && trace == old(trace) + [IntakeRecorded(u, supplement, intakeTime), IntakeStatusShown(u, result)]
        && r == Success("result", result)
    {
      if u !in users {
        return NotRegistered();
      }
      Touch(u, now);
      Log([IntakeRecorded(u, supplement, intakeTime), IntakeStatusShown(u, result)]);
      return Success("result", result);
    }

    /** Collects a user's dashboard from the analyzer's and the intake manager's answers. */
    method GetUserDashboard(u: UserId, now: string, health: Value, supplements: Value,
                            compliance: Value) returns (r: Fields)
      requires Valid()
      modifies this`trace, this`users
      ensures Valid() && running == old(running)
      ensures u !in old(users) ==> r == NotRegistered() && users == old(users) && trace == old(trace)
      ensures u in old(users) ==>
        && users == old(users)[u := old(users)[u].(lastActivity := now)]
        && trace == old(trace) + [HealthDataQueried(u, None), ScheduleQueried(u),
                                  ComplianceQueried(u, None)]
        && r == Success("dashboard", Dict(map["health_data" := health,
                                              "supplement_data" := supplements,
                                              "compliance_data" := compliance]))
    {
      if u !in users {
        return NotRegistered();
      }
      Touch(u, now);
      Log([HealthDataQueried(u, None), ScheduleQueried(u), ComplianceQueried(u, None)]);
      return Success("dashboard", Dict(map["health_data" := health,
                                           "supplement_data" := supplements,
                                           "compliance_data" := compliance]));
    }

    /** Builds a report over the window of `reportType` ending on day `today`. `now` and
        `generatedAt` are the other two clock readings; the four values are the answers
        of the period queries. An unknown report type is refused after the activity time
        has been stored and before any query. */
    method GetHealthReport(u: UserId, now: string, today: int, generatedAt: string,
                           health: Value, supplements: Value, compliance: Value, trends: Value,
                           reportType: string := "monthly") returns (r: Result<Fields>)
      requires Valid()
      requires MinOrdinal <= today <= MaxOrdinal
      modifies this`trace, this`users
      ensures Valid() && running == old(running)
      ensures u !in old(users) ==>
        r == Ok(NotRegistered()) && users == old(users) && trace == old(trace)
      ensures u in old(users) ==> users == old(users)[u := old(users)[u].(lastActivity := now)]
      ensures u in old(users) ==> match ReportWindow(reportType, today)
        case None =>
          r == Ok(Failure("Invalid report type: " + reportType)) && trace == old(trace)
        case Some(Err(e)) =>
          r == Err(e) && trace == old(trace)
        case Some(Ok(w)) =>
          && trace == old(trace) + ReportQueries(u, w)
          && r == Ok(Success("report", Dict(Report(u, reportType, w, generatedAt,
                                                   health, supplements, compliance, trends))))
    {
      if u !in users {
        return Ok(NotRegistered());
      }
      Touch(u, now);
      match ReportWindow(reportType, today)
      case None =>
        return Ok(Failure("Invalid report type: " + reportType));
      case Some(Err(e)) =>
        return Err(e);
      case Some(Ok(w)) =>
        Log(ReportQueries(u, w));
        return Ok(Success("report", Dict(Report(u, reportType, w, generatedAt,
                                                health, supplements, compliance, trends))));
    }

    /** Reads a user's profile; `plain` is DataSecurity's answer to decrypting the stored
        data. The stored data itself is left as it is. */
    method GetUserProfile(u: UserId, now: string, plain: Fields) returns (r: Fields)
      requires Valid()
      modifies this`trace, this`users
      ensures Valid() && running == old(running)
      ensures u !in old(users) ==> r == NotRegistered() && users == old(users) && trace == old(trace)
      ensures u in old(users) ==>
        && users == old(users)[u := old(users)[u].(lastActivity := now)]
        && trace == old(trace) + [Decrypted(old(users)[u].encryptedData)]
        && r == Success("profile", Dict(PublicProfile(plain, Str(old(users)[u].registeredAt),
                                                      Str(now))))
    {
      if u !in users {
        return NotRegistered();
      }
      Touch(u, now);
      var profile := users[u];
      Log([Decrypted(profile.encryptedData)]);
      return Success("profile", Dict(PublicProfile(plain, Str(profile.registeredAt),
                                                   Str(profile.lastActivity))));
    }

    /** Decrypts a user's data, overwrites keys of it and stores it re-encrypted. */
    method Reencrypt(u: UserId, update: Fields, plain: Fields, cipher: Value)
      requires Valid() && u in users
      modifies this`trace, this`users
      ensures Valid()
      ensures users == old(users)[u := old(users)[u].(encryptedData := cipher)]
      ensures trace == old(trace) + [Decrypted(old(users)[u].encryptedData),
                                     Encrypted(Dict(plain + update))]
    {
      var profile := users[u];
      var data := Overwrite(plain, update);
      Log([Decrypted(profile.encryptedData), Encrypted(Dict(data))]);
      Store(u, profile.(encryptedData := cipher));
    }

    /** Calls the settings hook of every component whose flag is set in the update. */
    method RunSettingsHooks(u: UserId, update: Fields)
      requires Valid()
      modifies this`trace
      ensures Valid()
      ensures trace == old(trace) + SettingsHooks(u, update)
    {
      HookFiresIffFlag(u, update);
      Log(SettingsHooks(u, update));
    }

    /** Overwrites keys of a user's data and stores it re-encrypted, then runs the settings
        hooks whose flags are set. `plain` is DataSecurity's answer to decrypting the
        stored data and `cipher` its answer to encrypting the updated data. */
    method UpdateUserProfile(u: UserId, update: Fields, now: string, plain: Fields, cipher: Value)
      returns (r: Fields)
      requires Valid()
      modifies this`trace, this`users
      ensures Valid() && running == old(running)
      ensures u !in old(users) ==> r == NotRegistered() && users == old(users) && trace == old(trace)
      ensures u in old(users) ==>
        && users == old(users)[u := old(users)[u].(lastActivity := now)
                                                 .(encryptedData := cipher)]
        && trace == old(trace) + [Decrypted(old(users)[u].encryptedData),
                                  Encrypted(Dict(plain + update))]
                                + SettingsHooks(u, update)
        && r == Success("message", Str("Profile updated successfully"))
    {
      if u !in users {
        return NotRegistered();
      }
      Touch(u, now);
      ghost var start := trace;
      Reencrypt(u, update, plain, cipher);
      RunSettingsHooks(u, update);
      AppendAssoc(start, [Decrypted(old(users)[u].encryptedData), Encrypted(Dict(plain + update))],
                  SettingsHooks(u, update));
      return Success("message", Str("Profile updated successfully"));
    }
  }
}
