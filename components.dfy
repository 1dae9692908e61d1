/** The six components the nutrition system delegates to, seen only through the
    calls made on them. Each call is recorded as an `Event`; what a component does
    with a call, and what it answers, is outside the model. */
module Components {
  import opened Values

  type UserId = string

  datatype Component = Sensor | Analyzer | Recommender | Intake | Security | Ui

  /** A date range of a report, as day ordinals (1 is 0001-01-01). */
  datatype Window = Window(start: int, end: int)

  /** One call on a component, with the arguments it was given. */
  datatype Event =
    | Started(c: Component)
    | Stopped(c: Component)
      // DataSecurity
    | Encrypted(plain: Value)
    | Decrypted(cipher: Value)
      // register_user on every component except DataSecurity
    | Registered(c: Component, user: UserId, data: Value)
      // SensorManager.process_data, NutritionAnalyzer.analyze
    | SensorDataProcessed(user: UserId, raw: Value)
    | Analyzed(user: UserId, validated: Value)
      // SupplementRecommender.recommend, IntakeManager.update_schedule
    | Recommended(user: UserId, analysis: Value)
    | ScheduleUpdated(user: UserId, recommendations: Value)
      // IntakeManager.record_intake
    | IntakeRecorded(user: UserId, supplement: string, time: Value)
      // UserInterfaceManager updates
    | SupplementDataShown(user: UserId, recommendations: Value)
    | IntakeStatusShown(user: UserId, result: Value)
    | HealthDataShown(user: UserId, analysis: Value)
      // alert handling
    | UrgentNotified(user: UserId, alert: Fields)
    | Notified(user: UserId, alert: Fields)
    | AddedToReport(user: UserId, alert: Fields)
    | ProviderNotified(user: UserId, alert: Fields)
      // queries; a window of None is the query without a date range
    | HealthDataQueried(user: UserId, window: Option<Window>)
    | ScheduleQueried(user: UserId)
    | ComplianceQueried(user: UserId, window: Option<Window>)
    | IntakeHistoryQueried(user: UserId, period: Window)
    | TrendsQueried(user: UserId, period: Window)
      // update_user_settings
    | SettingsUpdated(c: Component, user: UserId, update: Fields)

  predicate IsLifecycle(e: Event) {
    e.Started? || e.Stopped?
  }

  /** The start and stop calls of a trace, in order. */
  function Lifecycle(t: seq<Event>): seq<Event> {
    if t == [] then []
    else (if IsLifecycle(t[0]) then [t[0]] else []) + Lifecycle(t[1..])
  }

  /** The calls `start` makes, in source order. */
  function StartEvents(): seq<Event> {
    [Started(Sensor), Started(Analyzer), Started(Recommender),
     Started(Intake), Started(Security), Started(Ui)]
  }

  /** The calls `stop` makes, in source order. */
  function StopEvents(): seq<Event> {
    [Stopped(Ui), Stopped(Security), Stopped(Intake),
     Stopped(Recommender), Stopped(Analyzer), Stopped(Sensor)]
  }

  /** The lifecycle calls of `n` complete start/stop cycles. */
  function Runs(n: nat): seq<Event> {
    if n == 0 then [] else Runs(n - 1) + StartEvents() + StopEvents()
  }

  /** `b` lists the elements of `a` back to front. */
  ghost predicate IsReverseOf<T>(b: seq<T>, a: seq<T>) {
    |a| == |b| && forall i :: 0 <= i < |a| ==> b[i] == a[|a| - 1 - i]
  }

  /** The component a start or stop call is made on. */
  function Target(e: Event): Component
    requires IsLifecycle(e)
  {
    match e
    case Started(c) => c
    case Stopped(c) => c
  }

  /** The components named by a sequence of lifecycle calls. */
  function Targets(t: seq<Event>): seq<Component>
    requires forall i :: 0 <= i < |t| ==> IsLifecycle(t[i])
  {
    if t == [] then [] else [Target(t[0])] + Targets(t[1..])
  }

  lemma {:induction false} TargetsAppend(a: seq<Event>, b: seq<Event>)
    requires forall i :: 0 <= i < |a| ==> IsLifecycle(a[i])
    requires forall i :: 0 <= i < |b| ==> IsLifecycle(b[i])
    ensures Targets(a + b) == Targets(a) + Targets(b)
  {
    if a == [] {
      assert a + b == b;
    } else {
      assert (a + b)[0] == a[0];
      assert (a + b)[1..] == a[1..] + b;
      TargetsAppend(a[1..], b);
      AppendAssoc([Target(a[0])], Targets(a[1..]), Targets(b));
    }
  }

  /** Concatenation of sequences is associative. */
  lemma AppendAssoc<T>(a: seq<T>, b: seq<T>, c: seq<T>)
    ensures (a + b) + c == a + (b + c)
  {
  }

  /** Projecting onto lifecycle calls distributes over concatenation. */
  lemma {:induction false} LifecycleAppend(a: seq<Event>, b: seq<Event>)
    ensures Lifecycle(a + b) == Lifecycle(a) + Lifecycle(b)
  {
    if a == [] {
      assert a + b == b;
    } else {
      assert (a + b)[0] == a[0];
      assert (a + b)[1..] == a[1..] + b;
      LifecycleAppend(a[1..], b);
      var first := if IsLifecycle(a[0]) then [a[0]] else [];
      AppendAssoc(first, Lifecycle(a[1..]), Lifecycle(b));
    }
  }

  /** A sequence of calls with no start or stop among them leaves the projection unchanged. */
  lemma {:induction false} LifecycleOfOthers(t: seq<Event>)
    requires forall e :: e in t ==> !IsLifecycle(e)
    ensures Lifecycle(t) == []
  {
    if t != [] {
      assert t[0] in t;
      LifecycleOfOthers(t[1..]);
    }
  }

  /** A sequence of start and stop calls is its own projection. */
  lemma {:induction false} LifecycleOfLifecycle(t: seq<Event>)
    requires forall i :: 0 <= i < |t| ==> IsLifecycle(t[i])
    ensures Lifecycle(t) == t
  {
    if t != [] {
      LifecycleOfLifecycle(t[1..]);
    }
  }

  /** Starting or stopping the system leaves exactly its own calls in the projection. */
  lemma LifecycleOfStartStop()
    ensures Lifecycle(StartEvents()) == StartEvents()
    ensures Lifecycle(StopEvents()) == StopEvents()
  {
    LifecycleOfLifecycle(StartEvents());
    LifecycleOfLifecycle(StopEvents());
  }

  /** Starting after complete cycles leaves one start-up after them. */
  lemma StartAfterRuns(t: seq<Event>, n: nat)
    requires Lifecycle(t) == Runs(n)
    ensures Lifecycle(t + StartEvents()) == Runs(n) + StartEvents()
  {
    LifecycleAppend(t, StartEvents());
    LifecycleOfStartStop();
  }

  /** Stopping after a start-up completes one more cycle. */
  lemma StopAfterStart(t: seq<Event>, n: nat)
    requires Lifecycle(t) == Runs(n) + StartEvents()
    ensures Lifecycle(t + StopEvents()) == Runs(n + 1)
  {
    LifecycleAppend(t, StopEvents());
    LifecycleOfStartStop();
  }

  /** Calls that neither start nor stop a component leave the projection as it was. */
  lemma OthersKeepLifecycle(t: seq<Event>, es: seq<Event>)
    requires forall e :: e in es ==> !IsLifecycle(e)
    ensures Lifecycle(t + es) == Lifecycle(t)
  {
    LifecycleOfOthers(es);
    LifecycleAppend(t, es);
  }

  /** The components `start` calls, in order. */
  lemma StartTargets()
    ensures Targets(StartEvents()) == [Sensor, Analyzer, Recommender, Intake, Security, Ui]
  {
  }

  /** The components `stop` calls, in order. */
  lemma StopTargets()
    ensures Targets(StopEvents()) == [Ui, Security, Intake, Recommender, Analyzer, Sensor]
  {
  }

  /** `start` reaches every component, each exactly once. */
  lemma StartReachesEachOnce()
    ensures forall c: Component :: c in Targets(StartEvents())
    ensures var cs := Targets(StartEvents());
      forall i, j :: 0 <= i < j < |cs| ==> cs[i] != cs[j]
  {
    var cs := Targets(StartEvents());
    StartTargets();
    forall c: Component ensures c in cs {
      match c
      case Sensor => assert cs[0] == c;
      case Analyzer => assert cs[1] == c;
      case Recommender => assert cs[2] == c;
      case Intake => assert cs[3] == c;
      case Security => assert cs[4] == c;
      case Ui => assert cs[5] == c;
    }
  }

  /** Stopping visits the components in the reverse of the starting order, so the
      components of a start followed by a stop read the same backwards. */
  lemma StartStopPalindrome()
    ensures IsReverseOf(Targets(StopEvents()), Targets(StartEvents()))
    ensures var cs := Targets(StartEvents() + StopEvents()); IsReverseOf(cs, cs)
  {
    var up := StartEvents();
    var down := StopEvents();
    StartTargets();
    StopTargets();
    TargetsAppend(up, down);
    ReverseThenPalindrome(Targets(up), Targets(down));
  }

  /** A sequence followed by its reverse reads the same backwards. */
  lemma ReverseThenPalindrome<T>(a: seq<T>, b: seq<T>)
    requires IsReverseOf(b, a)
    ensures IsReverseOf(a + b, a + b)
  {
    var s := a + b;
    forall i | 0 <= i < |s| ensures s[i] == s[|s| - 1 - i] {
      if i < |a| {
        assert s[|s| - 1 - i] == b[|a| - 1 - i];
      } else {
        assert s[i] == b[i - |a|];
      }
    }
  }
}
