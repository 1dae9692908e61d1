/** The rules the integration layer applies around its component calls: the shape of
    a stored profile, the responses it returns, how a report type becomes a date
    window, how an alert is routed, how a profile update overwrites keys, which
    settings hooks fire, and which calls one sensor reading triggers. */
module Rules {
  import opened Values
  import opened Components

  // ---------------------------------------------------------------- responses

  /** The uniform answer of every per-user operation for an unknown user id. */
  function NotRegistered(): Fields {
    Failure("User not registered")
  }

  /** `{"status": "success", key: v}`. */
  function Success(key: string, v: Value): Fields {
    map["status" := Str("success"), key := v]
  }

  /** `{"status": "error", "message": message}`. */
  function Failure(message: string): Fields {
    map["status" := Str("error"), "message" := Str(message)]
  }

  /** The answer of `handle_health_alert`. */
  function AlertHandled(): Fields {
    map["status" := Str("success"), "alert_handled" := Bool(true)]
  }

  // ----------------------------------------------------------------- profiles

  /** A stored user profile. The source keeps it as a dict; `AsDict` gives that view. */
  datatype Profile = Profile(id: UserId, encryptedData: Value, registeredAt: string,
                             lastActivity: string, components: Fields)

  /** The keys of a stored profile. */
  function ProfileKeys(): set<string> {
    {"id", "encrypted_data", "registered_at", "last_activity", "components"}
  }

  /** The components a user is registered with; DataSecurity is not among them. */
  function ComponentKeys(): set<string> {
    {"sensor", "analyzer", "recommender", "intake_manager", "ui"}
  }

  /** The profile as the dict the source stores. */
  function AsDict(p: Profile): (d: Fields)
    ensures d.Keys == ProfileKeys()
  {
    map["id" := Str(p.id),
        "encrypted_data" := p.encryptedData,
        "registered_at" := Str(p.registeredAt),
        "last_activity" := Str(p.lastActivity),
        "components" := Dict(p.components)]
  }

  /** The profile `register_user` stores, from the encrypted data, the two clock
      readings and the five components' answers to their `register_user` calls. */
  function NewProfile(u: UserId, cipher: Value, registeredAt: string, lastActivity: string,
                      sensor: Value, analyzer: Value, recommender: Value,
                      intake: Value, ui: Value): (p: Profile)
    ensures p.id == u && p.encryptedData == cipher
    ensures p.registeredAt == registeredAt && p.lastActivity == lastActivity
    ensures p.components.Keys == ComponentKeys() && "security" !in p.components
    ensures var cs := p.components;
      cs["sensor"] == sensor && cs["analyzer"] == analyzer && cs["recommender"] == recommender
      && cs["intake_manager"] == intake && cs["ui"] == ui
  {
    Profile(u, cipher, registeredAt, lastActivity,
            map["sensor" := sensor,
                "analyzer" := analyzer,
                "recommender" := recommender,
                "intake_manager" := intake,
                "ui" := ui])
  }

  /** The condition under which a high-severity alert is also sent to the provider:
      a truthy top-level `notify_healthcare_provider` key of the stored profile. */
  predicate NotifiesProvider(p: Profile) {
    Truthy(Get(AsDict(p), "notify_healthcare_provider", Bool(false)))
  }

  /** A stored profile never has that key, so the provider is never notified. */
  lemma NeverNotifiesProvider(p: Profile)
    ensures !NotifiesProvider(p)
  {
    assert "notify_healthcare_provider" !in ProfileKeys();
  }

  /** The profile `get_user_profile` returns: the decrypted data without its password,
      with the stored registration and activity times added. */
  function PublicProfile(plain: Fields, registeredAt: Value, lastActivity: Value): (r: Fields)
    ensures "password" !in r
    ensures r.Keys == (plain.Keys - {"password"}) + {"registered_at", "last_activity"}
    ensures r["registered_at"] == registeredAt && r["last_activity"] == lastActivity
    ensures forall k :: k in plain && k != "password" && k != "registered_at" && k != "last_activity"
                        ==> r[k] == plain[k]
  {
    var stripped := if "password" in plain then plain - {"password"} else plain;
    stripped["registered_at" := registeredAt]["last_activity" := lastActivity]
  }

  /** `for key, value in update.items(): data[key] = value`. The result is the
      key-by-key overwrite of `data` by `update`, which is Dafny's map union. */
  method Overwrite(data: Fields, update: Fields) returns (r: Fields)
    ensures r.Keys == data.Keys + update.Keys
    ensures forall k :: k in update ==> r[k] == update[k]
    ensures forall k :: k in data && k !in update ==> r[k] == data[k]
    ensures r == data + update
  {
    r := data;
    var pending := update.Keys;
    while pending != {}
      invariant pending <= update.Keys
      invariant r.Keys == data.Keys + (update.Keys - pending)
      invariant forall k :: k in update && k !in pending ==> r[k] == update[k]
      invariant forall k :: k in data && (k !in update || k in pending) ==> r[k] == data[k]
      decreases pending
    {
      var k :| k in pending;
      r := r[k := update[k]];
      pending := pending - {k};
    }
  }

  // ------------------------------------------------------------ report window

  /** The first and last day ordinals of Python's `date` (0001-01-01 and 9999-12-31). */
  const MinOrdinal: int := 1
  const MaxOrdinal: int := 3652059

  /** How many days before today a report of the given type starts. */
  function LookbackDays(reportType: string): Option<nat> {
    if reportType == "daily" then Some(0)
    else if reportType == "weekly" then Some(7)
    else if reportType == "monthly" then Some(30)
    else None
  }

  /** The date window of a report ending today: None for an unknown report type, an
      OverflowError when the start would fall before the first representable date. */
  function ReportWindow(reportType: string, today: int): (r: Option<Result<Window>>)
    requires MinOrdinal <= today <= MaxOrdinal
    ensures r.None? <==> reportType != "daily" && reportType != "weekly" && reportType != "monthly"
    ensures r.Some? && r.value.Ok? ==>
      r.value.value.end == today && MinOrdinal <= r.value.value.start <= r.value.value.end
    ensures r.Some? && r.value.Ok? ==> r.value.value.start == today - LookbackDays(reportType).value
    ensures r == Some(Err(OverflowError)) <==> r.Some? && today - LookbackDays(reportType).value < MinOrdinal
    ensures r.Some? ==> r.value.Ok? || r.value == Err(OverflowError)
  {
    match LookbackDays(reportType)
    case None => None
    case Some(days) =>
      if today - days < MinOrdinal then Some(Err(OverflowError))
      else Some(Ok(Window(today - days, today)))
  }

  /** Daily, weekly and monthly reports span 0, 7 and 30 days back from today, and each
      window lies inside the next longer one. */
  lemma ReportWindowsNest(today: int)
    requires MinOrdinal + 30 <= today <= MaxOrdinal
    ensures var d, w, m := ReportWindow("daily", today), ReportWindow("weekly", today),
                           ReportWindow("monthly", today);
      && d.Some? && d.value.Ok? && w.Some? && w.value.Ok? && m.Some? && m.value.Ok?
      && d.value.value.end - d.value.value.start == 0
      && w.value.value.end - w.value.value.start == 7
      && m.value.value.end - m.value.value.start == 30
      && m.value.value.start <= w.value.value.start <= d.value.value.start
  {
    assert LookbackDays("daily") == Some(0);
    assert LookbackDays("weekly") == Some(7);
    assert LookbackDays("monthly") == Some(30);
  }

  /** `e` is a query of user `u`'s data over the dates of `w`. */
  predicate DatedQuery(e: Event, u: UserId, w: Window) {
    match e
    case HealthDataQueried(v, ow) => v == u && ow == Some(w)
    case ComplianceQueried(v, ow) => v == u && ow == Some(w)
    case IntakeHistoryQueried(v, p) => v == u && p == w
    case TrendsQueried(v, p) => v == u && p == w
    case _ => false
  }

  /** The four period queries of `get_health_report`, in source order. */
  function ReportQueries(u: UserId, w: Window): (r: seq<Event>)
    ensures |r| == 4
    ensures forall i :: 0 <= i < |r| ==> DatedQuery(r[i], u, w)
    ensures r[0].HealthDataQueried? && r[1].IntakeHistoryQueried?
    ensures r[2].ComplianceQueried? && r[3].TrendsQueried?
  {
    [HealthDataQueried(u, Some(w)), IntakeHistoryQueried(u, w),
     ComplianceQueried(u, Some(w)), TrendsQueried(u, w)]
  }

  /** The keys of a health report. */
  function ReportKeys(): set<string> {
    {"user_id", "report_type", "start_date", "end_date", "generated_at",
     "health_data", "supplement_data", "compliance_data", "trends"}
  }

  /** The report itself; dates are day ordinals rather than ISO text. */
  function Report(u: UserId, reportType: string, w: Window, generatedAt: string,
                  health: Value, supplements: Value, compliance: Value, trends: Value): Fields {
    map["user_id" := Str(u), "report_type" := Str(reportType),
        "start_date" := Int(w.start), "end_date" := Int(w.end),
        "generated_at" := Str(generatedAt),
        "health_data" := health, "supplement_data" := supplements,
        "compliance_data" := compliance, "trends" := trends]
  }

  /** A report has exactly the nine keys of the source, names its user and type, spans
      the given window and carries the four query answers unchanged. */
  lemma ReportShape(u: UserId, reportType: string, w: Window, generatedAt: string,
                    health: Value, supplements: Value, compliance: Value, trends: Value)
    ensures var r := Report(u, reportType, w, generatedAt, health, supplements, compliance, trends);
      && r.Keys == ReportKeys()
      && r["user_id"] == Str(u) && r["report_type"] == Str(reportType)
      && r["start_date"] == Int(w.start) && r["end_date"] == Int(w.end)
      && r["generated_at"] == Str(generatedAt)
      && r["health_data"] == health && r["supplement_data"] == supplements
      && r["compliance_data"] == compliance && r["trends"] == trends
  {
  }

  // ------------------------------------------------------------------- alerts

  datatype Route = Urgent | Standard | ReportOnly

  /** `alert.get("severity", "medium")`. */
  function Severity(alert: Fields): Value {
    Get(alert, "severity", Str("medium"))
  }

  /** Which single UI action an alert gets. */
  function RouteOf(alert: Fields): (r: Route)
    ensures r == Urgent <==> Severity(alert) == Str("high")
    ensures r == Standard <==> Severity(alert) == Str("medium")
    ensures "severity" !in alert ==> r == Standard
  {
    if Severity(alert) == Str("high") then Urgent
    else if Severity(alert) == Str("medium") then Standard
    else ReportOnly
  }

  /** The UI call for an alert. */
  function RouteEvent(u: UserId, alert: Fields): Event {
    match RouteOf(alert)
    case Urgent => UrgentNotified(u, alert)
    case Standard => Notified(u, alert)
    case ReportOnly => AddedToReport(u, alert)
  }

  /** The calls and the outcome of `handle_health_alert`, given the stored profile of
      the user if there is one. A high alert for an unregistered user raises KeyError
      after the urgent notification has gone out. */
  function HandleAlert(u: UserId, alert: Fields, profile: Option<Profile>): (r: (seq<Event>, Result<Fields>))
    ensures |r.0| >= 1 && r.0[0] == RouteEvent(u, alert)
    ensures r.0[1..] == [] || (r.0[1..] == [ProviderNotified(u, alert)] && RouteOf(alert) == Urgent)
    ensures r.1.Err? <==> RouteOf(alert) == Urgent && profile.None?
    ensures r.1.Err? ==> r.1 == Err(KeyError)
    ensures r.1.Ok? ==> r.1.value == AlertHandled()
    ensures ProviderNotified(u, alert) in r.0 <==>
      RouteOf(alert) == Urgent && profile.Some? && NotifiesProvider(profile.value)
  {
    match RouteOf(alert)
    case Urgent =>
      if profile.None? then ([UrgentNotified(u, alert)], Err(KeyError))
      else if NotifiesProvider(profile.value) then
        ([UrgentNotified(u, alert), ProviderNotified(u, alert)], Ok(AlertHandled()))
      else ([UrgentNotified(u, alert)], Ok(AlertHandled()))
    case Standard => ([Notified(u, alert)], Ok(AlertHandled()))
    case ReportOnly => ([AddedToReport(u, alert)], Ok(AlertHandled()))
  }

  /** For a registered user an alert gets exactly one UI call and no provider call. */
  lemma AlertHandledOnce(u: UserId, alert: Fields, p: Profile)
    ensures HandleAlert(u, alert, Some(p)) == ([RouteEvent(u, alert)], Ok(AlertHandled()))
  {
    NeverNotifiesProvider(p);
  }

  /** `for alert in alerts`, where each alert must answer `.get`: a list gives its items;
      an empty string or dict gives none; a non-empty string or dict yields a string
      first, which has no `.get` (AttributeError); anything else is not iterable. */
  function AlertItems(alerts: Value): (r: Result<seq<Value>>)
    ensures r.Ok? <==> alerts.List? || alerts == Str("") || alerts == Dict(map[])
    ensures alerts.List? ==> r == Ok(alerts.items)
    ensures !alerts.List? && r.Ok? ==> r.value == []
    ensures r.Err? ==> r.exception == (if alerts.Str? || alerts.Dict? then AttributeError else TypeError)
  {
    match alerts
    case List(xs) => Ok(xs)
    case Str(s) => if s == "" then Ok([]) else Err(AttributeError)
    case Dict(m) => if m == map[] then Ok([]) else Err(AttributeError)
    case _ => Err(TypeError)
  }

  /** The number of leading items that are dicts: how far the alert loop gets. */
  function DictPrefix(items: seq<Value>): (n: nat)
    ensures n <= |items|
    ensures forall i :: 0 <= i < n ==> items[i].Dict?
    ensures n < |items| ==> !items[n].Dict?
  {
    if items == [] || !items[0].Dict? then 0 else 1 + DictPrefix(items[1..])
  }

  /** The UI calls of handling the given alerts of a registered user one after another. */
  function AlertEvents(u: UserId, alerts: seq<Value>): (es: seq<Event>)
    requires forall i :: 0 <= i < |alerts| ==> alerts[i].Dict?
    ensures |es| == |alerts|
    ensures forall i :: 0 <= i < |alerts| ==> es[i] == RouteEvent(u, alerts[i].fields)
  {
    if alerts == [] then []
    else AlertEvents(u, alerts[..|alerts| - 1]) + [RouteEvent(u, alerts[|alerts| - 1].fields)]
  }

  /** The dict prefix ends where the first non-dict alert is, or at the end. */
  lemma DictPrefixIs(items: seq<Value>, n: nat)
    requires n <= |items| && forall j :: 0 <= j < n ==> items[j].Dict?
    requires n < |items| ==> !items[n].Dict?
    ensures DictPrefix(items) == n
  {
  }

  /** Handling one more dict alert appends its one call. */
  lemma AlertEventsSnoc(u: UserId, items: seq<Value>, i: nat)
    requires i < |items|
    requires forall j :: 0 <= j <= i ==> items[j].Dict?
    ensures AlertEvents(u, items[..i + 1])
            == AlertEvents(u, items[..i]) + [RouteEvent(u, items[i].fields)]
  {
    assert items[..i + 1][..i] == items[..i];
  }

  // ---------------------------------------------------------- sensor pipeline

  /** `analysis_result.get("update_recommendation", False)` is truthy. */
  predicate RefreshRequested(analysis: Fields) {
    Truthy(Get(analysis, "update_recommendation", Bool(false)))
  }

  /** The calls of `update_recommendations` for a registered user. */
  function RecommendationEvents(u: UserId, analysis: Value, recommendations: Value): seq<Event> {
    [Recommended(u, analysis), ScheduleUpdated(u, recommendations),
     SupplementDataShown(u, recommendations)]
  }

  /** The alerts of an analysis, `analysis_result.get("alerts", [])`, as iterated. */
  function AnalysisAlerts(analysis: Fields): Result<seq<Value>> {
    AlertItems(Get(analysis, "alerts", List([])))
  }

  /** The calls of `process_sensor_data` before the alert loop. */
  function PipelineHead(u: UserId, raw: Value, validated: Value, analysis: Fields,
                        recommendations: Value): seq<Event>
  {
    [SensorDataProcessed(u, raw), Analyzed(u, validated)]
    + (if RefreshRequested(analysis)
       then RecommendationEvents(u, Dict(analysis), recommendations) else [])
  }

  /** The calls and the outcome of the alert loop of `process_sensor_data` and of the
      health-data update that follows it. */
  function AlertOutcome(u: UserId, analysis: Fields): (seq<Event>, Result<Fields>) {
    match AnalysisAlerts(analysis)
    case Err(e) => ([], Err(e))
    case Ok(items) =>
      var n := DictPrefix(items);
      if n < |items| then (AlertEvents(u, items[..n]), Err(AttributeError))
      else (AlertEvents(u, items) + [HealthDataShown(u, Dict(analysis))],
            Ok(Success("result", Dict(analysis))))
  }

  /** Processing and analysis always come first; the recommendation refresh adds its
      three calls exactly when the analysis asks for it. */
  lemma HeadCalls(u: UserId, raw: Value, validated: Value, analysis: Fields,
                  recommendations: Value)
    ensures var r := PipelineHead(u, raw, validated, analysis, recommendations);
      && |r| >= 2 && r[0] == SensorDataProcessed(u, raw) && r[1] == Analyzed(u, validated)
      && (Recommended(u, Dict(analysis)) in r <==> RefreshRequested(analysis))
      && |r| == (if RefreshRequested(analysis) then 5 else 2)
      && r[2..] == (if RefreshRequested(analysis)
                    then RecommendationEvents(u, Dict(analysis), recommendations) else [])
  {
  }

  /** Alerts that cannot be iterated make no call and raise; a run of the loop either
      raises AttributeError or TypeError, or succeeds with the analysis as its result. */
  lemma OutcomeCases(u: UserId, analysis: Fields)
    ensures var r := AlertOutcome(u, analysis);
      && (AnalysisAlerts(analysis).Err? ==> r == ([], Err(AnalysisAlerts(analysis).exception)))
      && (r.1.Ok? ==> r.1.value == Success("result", Dict(analysis)))
      && (r.1.Err? ==> r.1.exception == AttributeError || r.1.exception == TypeError)
  {
  }

  /** The calls and the outcome of `process_sensor_data` for a registered user, given the
      sensor manager's, the analyzer's and the recommender's answers. */
  function SensorPipeline(u: UserId, raw: Value, validated: Value, analysis: Fields,
                          recommendations: Value): (r: (seq<Event>, Result<Fields>))
    ensures |r.0| >= 2 && r.0[0] == SensorDataProcessed(u, raw) && r.0[1] == Analyzed(u, validated)
    ensures r.1.Ok? ==> r.1.value == Success("result", Dict(analysis))
  {
    var tail := AlertOutcome(u, analysis);
    (PipelineHead(u, raw, validated, analysis, recommendations) + tail.0, tail.1)
  }

  /** No alert call is a recommendation or a health-data update. */
  lemma AlertEventsAreAlerts(u: UserId, alerts: seq<Value>, e: Event)
    requires forall i :: 0 <= i < |alerts| ==> alerts[i].Dict?
    requires e.Recommended? || e.HealthDataShown?
    ensures e !in AlertEvents(u, alerts)
  {
    var es := AlertEvents(u, alerts);
    forall i | 0 <= i < |es| ensures es[i] != e {
      assert es[i] == RouteEvent(u, alerts[i].fields);
    }
  }

  /** The alert loop and the health-data update make no recommendation call. */
  lemma OutcomeMakesNoRefresh(u: UserId, analysis: Fields, e: Event)
    requires e.Recommended?
    ensures e !in AlertOutcome(u, analysis).0
  {
    match AnalysisAlerts(analysis)
    case Err(_) =>
    case Ok(items) =>
      if DictPrefix(items) < |items| {
        AlertEventsAreAlerts(u, items[..DictPrefix(items)], e);
      } else {
        AlertEventsAreAlerts(u, items, e);
      }
  }

  /** Recommendations are refreshed exactly when the analysis asks for it. */
  lemma RefreshIffRequested(u: UserId, raw: Value, validated: Value, analysis: Fields,
                            recommendations: Value)
    ensures var es := SensorPipeline(u, raw, validated, analysis, recommendations).0;
      Recommended(u, Dict(analysis)) in es <==> RefreshRequested(analysis)
  {
    var head := PipelineHead(u, raw, validated, analysis, recommendations);
    var wanted := Recommended(u, Dict(analysis));
    assert wanted in head <==> RefreshRequested(analysis) by {
      if RefreshRequested(analysis) {
        assert head[2] == wanted;
      }
    }
    OutcomeMakesNoRefresh(u, analysis, wanted);
  }

  /** The pipeline completes exactly when the alerts can be iterated and every one of
      them is a dict; a completed run answers with the analysis. */
  lemma PipelineCompletes(u: UserId, raw: Value, validated: Value, analysis: Fields,
                          recommendations: Value)
    ensures var out := SensorPipeline(u, raw, validated, analysis, recommendations).1;
      && (out.Ok? <==> AnalysisAlerts(analysis).Ok?
                       && forall i :: 0 <= i < |AnalysisAlerts(analysis).value| ==>
                            AnalysisAlerts(analysis).value[i].Dict?)
      && (out.Ok? ==> out.value == Success("result", Dict(analysis)))
  {
  }

  /** A completed alert loop handled every alert and then updated the UI health data. */
  lemma OutcomeOnSuccess(u: UserId, analysis: Fields)
    requires AlertOutcome(u, analysis).1.Ok?
    ensures AnalysisAlerts(analysis).Ok?
    ensures var items := AnalysisAlerts(analysis).value;
      && (forall i :: 0 <= i < |items| ==> items[i].Dict?)
      && AlertOutcome(u, analysis).0 == AlertEvents(u, items) + [HealthDataShown(u, Dict(analysis))]
  {
    assert DictPrefix(AnalysisAlerts(analysis).value) == |AnalysisAlerts(analysis).value|;
  }

  /** In `head + middle + [last]`, `last` comes once, at the end, right after `middle`. */
  lemma LastAfterMiddle(head: seq<Event>, middle: seq<Event>, last: Event)
    requires last !in head && last !in middle
    ensures var es := head + middle + [last];
      && |es| > |middle|
      && es[|es| - 1] == last
      && last !in es[..|es| - 1]
      && es[|es| - 1 - |middle|..|es| - 1] == middle
  {
    var es := head + middle + [last];
    assert es[..|es| - 1] == head + middle;
    assert es[|es| - 1 - |middle|..|es| - 1] == (head + middle)[|head|..];
  }

  /** Every alert of the analysis is handled once, in list order, and the UI health
      update is the last call, made once, after all of them. */
  lemma HealthUpdateAfterAlerts(u: UserId, raw: Value, validated: Value, analysis: Fields,
                                recommendations: Value)
    requires SensorPipeline(u, raw, validated, analysis, recommendations).1.Ok?
    ensures AnalysisAlerts(analysis).Ok?
    ensures var es := SensorPipeline(u, raw, validated, analysis, recommendations).0;
      var items := AnalysisAlerts(analysis).value;
      var shown := HealthDataShown(u, Dict(analysis));
      && |es| > |items|
      && es[|es| - 1] == shown
      && shown !in es[..|es| - 1]
      && es[|es| - 1 - |items|..|es| - 1] == AlertEvents(u, items)
  {
    OutcomeOnSuccess(u, analysis);
    var head := PipelineHead(u, raw, validated, analysis, recommendations);
    var items := AnalysisAlerts(analysis).value;
    var shown := HealthDataShown(u, Dict(analysis));
    var alerts := AlertEvents(u, items);
    AppendAssoc(head, alerts, [shown]);
    assert shown !in head;
    AlertEventsAreAlerts(u, items, shown);
    LastAfterMiddle(head, alerts, shown);
  }

  /** A run stopped by an alert that cannot be handled never updates the UI health data. */
  lemma NoHealthUpdateOnError(u: UserId, raw: Value, validated: Value, analysis: Fields,
                              recommendations: Value)
    requires SensorPipeline(u, raw, validated, analysis, recommendations).1.Err?
    ensures HealthDataShown(u, Dict(analysis))
            !in SensorPipeline(u, raw, validated, analysis, recommendations).0
  {
    var head := PipelineHead(u, raw, validated, analysis, recommendations);
    var shown := HealthDataShown(u, Dict(analysis));
    assert shown !in head;
    match AnalysisAlerts(analysis)
    case Err(e) =>
    case Ok(items) =>
      var n := DictPrefix(items);
      AlertEventsAreAlerts(u, items[..n], shown);
  }

  // ------------------------------------------------------------ settings hooks

  /** The update key that switches on a component's settings hook; DataSecurity has none. */
  function SettingsFlag(c: Component): Option<string> {
    match c
    case Sensor => Some("update_sensor_settings")
    case Analyzer => Some("update_analysis_settings")
    case Recommender => Some("update_recommendation_settings")
    case Intake => Some("update_intake_settings")
    case Security => None
    case Ui => Some("update_ui_settings")
  }

  /** The flag of component `c` is set in the update. */
  predicate Flagged(update: Fields, c: Component) {
    SettingsFlag(c).Some? && Truthy(Get(update, SettingsFlag(c).value, Bool(false)))
  }

  /** The settings hook of one component: called if its flag in the update is truthy. */
  function Hook(u: UserId, update: Fields, c: Component): seq<Event> {
    if Flagged(update, c) then [SettingsUpdated(c, u, update)] else []
  }

  /** No element of `s` occurs twice. */
  predicate NoRepeats<T(==)>(s: seq<T>) {
    forall i, j :: 0 <= i < j < |s| ==> s[i] != s[j]
  }

  /** The settings hooks of the given components, one after another. */
  function Hooks(u: UserId, update: Fields, cs: seq<Component>): seq<Event> {
    if cs == [] then [] else Hook(u, update, cs[0]) + Hooks(u, update, cs[1..])
  }

  /** The components `update_user_profile` offers a settings hook to, in source order. */
  function HookOrder(): (r: seq<Component>)
    ensures forall c :: c in r <==> c != Security
    ensures NoRepeats(r)
  {
    AllButSecurity();
    [Sensor, Analyzer, Recommender, Intake, Ui]
  }

  /** The five components with a settings hook are all but DataSecurity. */
  lemma AllButSecurity()
    ensures forall c :: c in [Sensor, Analyzer, Recommender, Intake, Ui] <==> c != Security
  {
    var r := [Sensor, Analyzer, Recommender, Intake, Ui];
    forall c: Component ensures c in r <==> c != Security {
      match c
      case Sensor => assert r[0] == c;
      case Analyzer => assert r[1] == c;
      case Recommender => assert r[2] == c;
      case Intake => assert r[3] == c;
      case Security =>
      case Ui => assert r[4] == c;
    }
  }

  /** The settings calls of `update_user_profile`: no hook is called twice. */
  function SettingsHooks(u: UserId, update: Fields): (r: seq<Event>)
    ensures NoRepeats(r)
  {
    HooksOnce(u, update, HookOrder());
    Hooks(u, update, HookOrder())
  }

  /** Over distinct components, no settings call is made twice. */
  lemma {:induction false} HooksOnce(u: UserId, update: Fields, cs: seq<Component>)
    requires NoRepeats(cs)
    ensures NoRepeats(Hooks(u, update, cs))
  {
    if cs != [] {
      var rest := cs[1..];
      HooksOnce(u, update, rest);
      if Flagged(update, cs[0]) {
        assert cs[0] !in rest by {
          assert forall k :: 0 <= k < |rest| ==> rest[k] == cs[k + 1];
        }
        HooksCallFlagged(u, update, rest);
        NoRepeatsCons(SettingsUpdated(cs[0], u, update), Hooks(u, update, rest));
      } else {
        assert Hooks(u, update, cs) == Hooks(u, update, rest);
      }
    }
  }

  /** Putting a new element in front keeps a sequence free of repeats. */
  lemma NoRepeatsCons<T>(x: T, t: seq<T>)
    requires x !in t && NoRepeats(t)
    ensures NoRepeats([x] + t)
  {
    var s := [x] + t;
    forall i, j | 0 <= i < j < |s| ensures s[i] != s[j] {
      assert s[j] == t[j - 1];
      if i > 0 {
        assert s[i] == t[i - 1];
      }
    }
  }

  /** The hooks of a list of components call exactly the flagged ones among them, and
      make no other call. */
  lemma {:induction false} HooksCallFlagged(u: UserId, update: Fields, cs: seq<Component>)
    ensures forall c :: SettingsUpdated(c, u, update) in Hooks(u, update, cs)
                        <==> c in cs && Flagged(update, c)
    ensures forall e :: e in Hooks(u, update, cs) ==>
              e.SettingsUpdated? && e.user == u && e.update == update && e.c in cs
  {
    if cs != [] {
      HooksCallFlagged(u, update, cs[1..]);
      assert forall c :: c in cs <==> c == cs[0] || c in cs[1..];
    }
  }

  /** A component's settings hook fires exactly when its flag is truthy; DataSecurity has
      none. No other call is made. */
  lemma HookFiresIffFlag(u: UserId, update: Fields)
    ensures forall c :: SettingsUpdated(c, u, update) in SettingsHooks(u, update)
                        <==> c != Security && Flagged(update, c)
    ensures forall e :: e in SettingsHooks(u, update) ==>
              e.SettingsUpdated? && e.user == u && e.update == update
  {
    HooksCallFlagged(u, update, HookOrder());
  }
}
