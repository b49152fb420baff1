/** Quiescence: with spec, values, rendering and workload health frozen, and no errors, reconciling an Application
    again and again changes the cluster a bounded number of times, and then never again. */
module Quiescence {
  import opened Api
  import opened Server
  import opened Health
  import opened Controller
  import opened Machine
  import opened Soundness
  import opened Budget
  import opened Passes
  import opened Steady

  /** One round: time passes, then an undisturbed pass. */
  ghost function Round(c: Cluster, key: AppKey, dt: nat, nature: Nature): Cluster {
    Quiet(Environment(c, Tick(dt)), Worker.Reading(key), nature).0
  }

  /** Nothing but the clock has moved. */
  predicate Unchanged(c: Cluster, d: Cluster) {
    d == c.(clock := d.clock)
  }

  // ---------- what is still to be written ----------

  /** A poll now would find workloads on their way, with time left. */
  predicate ShowsProgress(c: Cluster, key: AppKey, nature: Nature) {
    && key in c.apps
    && Outlook(c, c.apps[key], nature).Some?
    && Outlook(c, c.apps[key], nature).value.grade !in {Current, Failing}
    && !DeadlineExceeded(c.apps[key], c.clock)
  }

  function DegradedNow(app: App, a: Assessment, now: Time): Status {
    var note := if app.status.lastFailed != 0 then " (already rolled back; awaiting a spec fix)"
                else " (no previous revision to roll back to)";
    DegradedStatus(app.status, app.generation, UnhealthyReason(a.grade), WithNote(UnhealthyDetail(app, a), note), now)
  }

  function FailedTarget(c: Cluster, app: App): Status {
    match app.spec.valuesRef
    case None => app.status
    case Some(ref) =>
      var key := SecretKey(app.key.namespace, ref.name);
      var cause :=
        if key !in c.secrets then Because("get values secret", ref.name, NotFound)
        else if DataKey(ref) !in c.secrets[key] then
          Because("values secret has no key", ref.name, NoSuchKey(DataKey(ref)))
        else Because("parse values", "", Unparsable(c.secrets[key][DataKey(ref)].text));
      FailedStatus(app, "ValuesError", cause, 0)
  }

  function Differs(app: App, target: Status): nat {
    if target == app.status then 0 else 1
  }

  /** Changes the rollback path may still make. */
  function UnhealthyMeasure(app: App, a: Assessment): nat {
    if app.status.lastFailed == 0 && 1 < app.status.revision then 4
    else Differs(app, DegradedNow(app, a, 0))
  }

  /** Changes an applied Application may still see, given the health of its release. */
  function HealthMeasure(app: App, a: Assessment, now: Time): nat {
    if Unhealthy(app, a.grade, now) then UnhealthyMeasure(app, a)
    else if a.grade == Current then
      if app.status.lastFailed == 0 then Differs(app, DeployedStatus(app, a.detail, 0)) else 0
    else if app.status.started.None? then Differs(app, ProgressStatus(app, a.detail, 0))
    else if app.status.lastFailed == 0 then 5 + Differs(app, ProgressStatus(app, a.detail, 0))
    else 2 + Differs(app, ProgressStatus(app, a.detail, 0))
  }

  function AppMeasure(c: Cluster, app: App, nature: Nature): nat {
    if !app.finalizer then 8
    else if CurrentHash(c, app).None? then Differs(app, FailedTarget(c, app))
    else if NeedsApply(app, CurrentHash(c, app).value) then 7
    else
      match Outlook(c, app, nature)
      case None => 0
      case Some(a) => HealthMeasure(app, a, c.clock)
  }

  function Measure(c: Cluster, key: AppKey, nature: Nature): nat {
    if key in c.apps then AppMeasure(c, c.apps[key], nature) else 0
  }

  // ---------- writing twice is writing once ----------

  /** The form of every status write but the marker and the apply: a phase and two conditions. */
  function Stamp(s: Status, g: nat, phase: Phase, t: ConditionType, holds: bool, reason: string, m: Text,
                 t': ConditionType, holds': bool, reason': string, m': Text, now: Time): Status
  {
    SetCondition(SetCondition(s.(phase := phase), g, t, holds, reason, m, now), g, t', holds', reason', m', now)
  }

  /** Whether a stamp would change anything does not depend on the time. */
  lemma StampFixed(s: Status, g: nat, phase: Phase, t: ConditionType, holds: bool, reason: string, m: Text,
                   t': ConditionType, holds': bool, reason': string, m': Text, now: Time, later: Time)
    requires t != t'
    requires Stamp(s, g, phase, t, holds, reason, m, t', holds', reason', m', now) == s
    ensures Stamp(s, g, phase, t, holds, reason, m, t', holds', reason', m', later) == s
  {
    var x := Stamp(s, g, phase, t, holds, reason, m, t', holds', reason', m', now);
    var y := Stamp(s, g, phase, t, holds, reason, m, t', holds', reason', m', later);
    assert s.conditions[t] == x.conditions[t] && s.conditions[t'] == x.conditions[t'];
    assert y.conditions == s.conditions;
  }

  /** Stamping again, whenever, changes nothing. */
  lemma StampAgain(s: Status, g: nat, phase: Phase, t: ConditionType, holds: bool, reason: string, m: Text,
                   t': ConditionType, holds': bool, reason': string, m': Text, now: Time, later: Time)
    requires t != t'
    ensures var once := Stamp(s, g, phase, t, holds, reason, m, t', holds', reason', m', now);
            Stamp(once, g, phase, t, holds, reason, m, t', holds', reason', m', later) == once
  {
    var once := Stamp(s, g, phase, t, holds, reason, m, t', holds', reason', m', now);
    var twice := Stamp(once, g, phase, t, holds, reason, m, t', holds', reason', m', later);
    assert twice.conditions == once.conditions;
  }

  // ---------- pieces of a round ----------

  /** The stored Application is this one, and nothing marks it for deletion. */
  predicate Holds(c: Cluster, key: AppKey, app: App) {
    key in c.apps && c.apps[key] == app && app.key == key && !app.deleting
  }

  function Put(c: Cluster, app: App, s: Status): Cluster {
    if app.status == s then c else Store(c, app.(status := s))
  }

  lemma QuietPersist(c: Cluster, key: AppKey, app: App, s: Status, cause: Cause, r: Result, nature: Nature)
    requires Holds(c, key, app)
    ensures Quiet(c, Persisting(app, s, cause, r), nature) == (Put(c, app, s), Idle(r))
  {
  }

  lemma QuietWrite(c: Cluster, key: AppKey, app: App, s: Status, cause: Cause, r: Result, nature: Nature)
    requires Holds(c, key, app)
    ensures Quiet(c, WriteUnlessSame(app, s, cause, r), nature).0 == Put(c, app, s)
  {
    if s != app.status { QuietPersist(c, key, app, s, cause, r, nature); }
  }

  /** What a round leaves as it is: everything the Application's values and desires depend on. */
  predicate Frozen(c: Cluster, d: Cluster, key: AppKey, app: App) {
    && key in d.apps
    && SameDesire(app, d.apps[key]) && !d.apps[key].deleting && (app.finalizer ==> d.apps[key].finalizer)
    && d.secrets == c.secrets && d.clock == c.clock
  }

  lemma FrozenHash(c: Cluster, d: Cluster, key: AppKey, app: App)
    requires Frozen(c, d, key, app)
    ensures CurrentHash(d, d.apps[key]) == CurrentHash(c, app)
  {
  }

  /** The outcome of a round: no change, or progress. */
  ghost predicate Settles(c: Cluster, d: Cluster, key: AppKey, nature: Nature) {
    d == c || (key in d.apps && !d.apps[key].deleting && Measure(d, key, nature) < Measure(c, key, nature))
  }

  lemma PutFrozen(c: Cluster, key: AppKey, app: App, s: Status)
    requires Holds(c, key, app)
    ensures Frozen(c, Put(c, app, s), key, app) && Put(c, app, s).releases == c.releases
    ensures Put(c, app, s).apps[key].status == s
  {
  }

  // ---------- values that do not resolve ----------

  lemma FailedRound(c: Cluster, key: AppKey, app: App, nature: Nature)
    requires Holds(c, key, app) && app.finalizer && CurrentHash(c, app).None?
    ensures Settles(c, Quiet(c, AfterRead(app), nature).0, key, nature)
  {
    var target := FailedTarget(c, app);
    var reason, cause := "ValuesError", target.conditions[Ready].message;
    var now := FailedStatus(app, reason, cause, c.clock);
    FailedPath(c, key, app, nature);
    PutFrozen(c, key, app, now);
    var d := Put(c, app, now);
    FrozenHash(c, d, key, app);
    if d != c {
      if target == app.status {
        StampFixed(app.status, app.generation, Phase.Failed, Released, false, reason, cause, Ready, false, reason,
                   cause, 0, c.clock);
      }
      StampAgain(app.status, app.generation, Phase.Failed, Released, false, reason, cause, Ready, false, reason, cause,
                 c.clock, 0);
      assert FailedTarget(d, d.apps[key]) == d.apps[key].status;
    }
  }

  lemma FailedPath(c: Cluster, key: AppKey, app: App, nature: Nature)
    requires Holds(c, key, app) && app.finalizer && CurrentHash(c, app).None?
    ensures var target := FailedTarget(c, app);
            Ready in target.conditions &&
            Quiet(c, AfterRead(app), nature).0 ==
            Put(c, app, FailedStatus(app, "ValuesError", target.conditions[Ready].message, c.clock))
  {
    SecretOnce(c, app, nature);
    var cause := FailedTarget(c, app).conditions[Ready].message;
    QuietPersist(c, key, app, FailedStatus(app, "ValuesError", cause, c.clock), Broke, Errored, nature);
  }

  lemma SecretOnce(c: Cluster, app: App, nature: Nature)
    requires app.finalizer && !app.deleting && app.spec.valuesRef.Some?
    ensures var ref := app.spec.valuesRef.value;
            var key := SecretKey(app.key.namespace, ref.name);
            Quiet(c, AfterRead(app), nature) ==
            Quiet(c,
                  if key in c.secrets then AfterSecret(app, ref, c.secrets[key], c.clock)
                  else Fail(app, "ValuesError", Because("get values secret", ref.name, NotFound), c.clock),
                  nature)
  {
  }

  // ---------- the first pass, and applying ----------

  lemma FinalizerRound(c: Cluster, key: AppKey, app: App, nature: Nature)
    requires Holds(c, key, app) && !app.finalizer
    ensures Settles(c, Quiet(c, AfterRead(app), nature).0, key, nature)
  {
    FinalizerPath(c, key, app, nature);
    var d := Store(c, app.(finalizer := true));
    MeasureBound(d, d.apps[key], nature);
  }

  lemma FinalizerPath(c: Cluster, key: AppKey, app: App, nature: Nature)
    requires Holds(c, key, app) && !app.finalizer
    ensures Quiet(c, AfterRead(app), nature).0 == Store(c, app.(finalizer := true))
  {
  }

  lemma MeasureBound(c: Cluster, app: App, nature: Nature)
    requires app.finalizer
    ensures AppMeasure(c, app, nature) <= 7
    ensures CurrentHash(c, app).Some? && !NeedsApply(app, CurrentHash(c, app).value) ==> AppMeasure(c, app, nature) <= 6
    ensures CurrentHash(c, app).Some? && !NeedsApply(app, CurrentHash(c, app).value) && app.status.lastFailed != 0 ==>
              AppMeasure(c, app, nature) <= 3
  {
  }

  /** Namespace, then release, then status. */
  function Ensured(c: Cluster, n: Name): Cluster {
    if n in c.namespaces then c else c.(namespaces := c.namespaces[n := true])
  }

  lemma NamespacePath(c: Cluster, app: App, values: Option<string>, nature: Nature)
    ensures Quiet(c, FindingNamespace(app, values), nature) ==
            Quiet(Ensured(c, app.spec.namespace), LoadingChart(app, values), nature)
  {
    if app.spec.namespace in c.namespaces { FoundNamespace(c, app, values, nature); }
    else { MissingNamespace(c, app, values, nature); MadeNamespace(c, app, values, nature); }
  }

  lemma FoundNamespace(c: Cluster, app: App, values: Option<string>, nature: Nature)
    requires app.spec.namespace in c.namespaces
    ensures Quiet(c, FindingNamespace(app, values), nature) == Quiet(c, LoadingChart(app, values), nature)
  {
  }

  lemma MissingNamespace(c: Cluster, app: App, values: Option<string>, nature: Nature)
    requires app.spec.namespace !in c.namespaces
    ensures Quiet(c, FindingNamespace(app, values), nature) == Quiet(c, CreatingNamespace(app, values), nature)
  {
  }

  lemma MadeNamespace(c: Cluster, app: App, values: Option<string>, nature: Nature)
    requires app.spec.namespace !in c.namespaces
    ensures Quiet(c, CreatingNamespace(app, values), nature) ==
            Quiet(Ensured(c, app.spec.namespace), LoadingChart(app, values), nature)
  {
  }

  /** Installing or upgrading, undisturbed. */
  function WithRevision(c: Cluster, rk: ReleaseKey, rev: Revision): Cluster {
    c.(releases := c.releases[rk := if rk in c.releases then c.releases[rk] + [rev] else [rev]])
  }

  lemma HelmPath(c: Cluster, app: App, values: Option<string>, nature: Nature)
    requires app.spec.namespace in c.namespaces
    ensures var source := SourceOf(app.spec, values);
            var d := WithRevision(c, ReleaseOf(app), Revision(source, nature.render(source)));
            Quiet(c, LoadingChart(app, values), nature) ==
            Quiet(d, Persisting(app, AppliedStatus(app, values, |d.releases[ReleaseOf(app)]|, c.clock), Applied(source),
                                RequeueAfter(HEALTH_POLL)), nature)
  {
    ChartOnce(c, app, values, nature);
    HistoryOnce(c, app, values, nature);
    ApplyOnce(c, app, values, nature);
  }

  lemma ChartOnce(c: Cluster, app: App, values: Option<string>, nature: Nature)
    ensures Quiet(c, LoadingChart(app, values), nature) == Quiet(c, CheckingHistory(app, values), nature)
  {
  }

  lemma HistoryOnce(c: Cluster, app: App, values: Option<string>, nature: Nature)
    ensures Quiet(c, CheckingHistory(app, values), nature) ==
            Quiet(c, Applying(app, values, ReleaseOf(app) in c.releases), nature)
  {
  }

  lemma ApplyOnce(c: Cluster, app: App, values: Option<string>, nature: Nature)
    requires app.spec.namespace in c.namespaces
    ensures var source := SourceOf(app.spec, values);
            var d := WithRevision(c, ReleaseOf(app), Revision(source, nature.render(source)));
            Quiet(c, Applying(app, values, ReleaseOf(app) in c.releases), nature) ==
            Quiet(d, Persisting(app, AppliedStatus(app, values, |d.releases[ReleaseOf(app)]|, c.clock), Applied(source),
                                RequeueAfter(HEALTH_POLL)), nature)
  {
    var w := Applying(app, values, ReleaseOf(app) in c.releases);
    var source := SourceOf(app.spec, values);
    var d := WithRevision(c, ReleaseOf(app), Revision(source, nature.render(source)));
    HelmServes(c, app, values, nature);
    ResumeDescends(w, GotRelease(|d.releases[ReleaseOf(app)]|, nature.render(source)), c.clock);
  }

  lemma HelmServes(c: Cluster, app: App, values: Option<string>, nature: Nature)
    requires app.spec.namespace in c.namespaces
    ensures var w := Applying(app, values, ReleaseOf(app) in c.releases);
            var source := SourceOf(app.spec, values);
            var d := WithRevision(c, ReleaseOf(app), Revision(source, nature.render(source)));
            Serve(c, NextCall(w), OutcomeFor(w, nature)) ==
            (d, GotRelease(|d.releases[ReleaseOf(app)]|, nature.render(source)))
  {
  }

  lemma ValuesOnce(c: Cluster, app: App, nature: Nature) returns (values: Option<string>)
    requires app.finalizer && !app.deleting && CurrentHash(c, app).Some?
    ensures HashValues(values) == CurrentHash(c, app).value
    ensures Quiet(c, AfterRead(app), nature) == Quiet(c, AfterValues(app, values), nature)
  {
    match app.spec.valuesRef
    case None => values := None;
    case Some(ref) =>
      SecretOnce(c, app, nature);
      values := Some(c.secrets[SecretKey(app.key.namespace, ref.name)][DataKey(ref)].text);
  }

  lemma ApplyRound(c: Cluster, key: AppKey, app: App, values: Option<string>, nature: Nature)
    requires Holds(c, key, app) && app.finalizer && CurrentHash(c, app) == Some(HashValues(values))
    requires NeedsApply(app, HashValues(values))
    ensures Settles(c, Quiet(c, FindingNamespace(app, values), nature).0, key, nature)
  {
    NamespacePath(c, app, values, nature);
    var e := Ensured(c, app.spec.namespace);
    HelmPath(e, app, values, nature);
    var source := SourceOf(app.spec, values);
    var f := WithRevision(e, ReleaseOf(app), Revision(source, nature.render(source)));
    var s := AppliedStatus(app, values, |f.releases[ReleaseOf(app)]|, c.clock);
    QuietPersist(f, key, app, s, Applied(source), RequeueAfter(HEALTH_POLL), nature);
    PutFrozen(f, key, app, s);
    var d := Put(f, app, s);
    FrozenHash(c, d, key, app);
    MeasureBound(d, d.apps[key], nature);
  }

  // ---------- health ----------

  /** A round that ends in a status write which leaves the books and the release alone. */
  lemma BookkeepingOutlook(c: Cluster, key: AppKey, app: App, s: Status, nature: Nature)
    requires Holds(c, key, app) && SameBooks(app.status, s)
    requires CurrentHash(c, app).Some? && !NeedsApply(app, CurrentHash(c, app).value) && app.finalizer
    ensures var d := Put(c, app, s);
            key in d.apps && d.apps[key].status == s && !d.apps[key].deleting &&
            Measure(d, key, nature) ==
              (match Outlook(c, app, nature)
               case None => 0
               case Some(a) => HealthMeasure(app.(status := s), a, c.clock))
  {
    PutFrozen(c, key, app, s);
    var d := Put(c, app, s);
    FrozenHash(c, d, key, app);
    if d != c { SameMeasure(d.apps[key], app.(status := s), c.clock); }
  }

  lemma SameMeasure(a: App, b: App, now: Time)
    requires b == a.(rv := b.rv)
    ensures forall h :: HealthMeasure(a, h, now) == HealthMeasure(b, h, now)
  {
  }

  predicate UpToDate(c: Cluster, app: App) {
    app.finalizer && CurrentHash(c, app).Some? && !NeedsApply(app, CurrentHash(c, app).value)
  }

  lemma DeployedRound(c: Cluster, key: AppKey, app: App, a: Assessment, nature: Nature)
    requires Holds(c, key, app) && UpToDate(c, app) && Outlook(c, app, nature) == Some(a)
    requires !Unhealthy(app, a.grade, c.clock) && a.grade == Current && app.status.lastFailed == 0
    ensures Settles(c, Put(c, app, DeployedStatus(app, a.detail, c.clock)), key, nature)
  {
    var s, g, steady := DeployedStatus(app, a.detail, c.clock), app.generation, Plain("release deployed and healthy");
    BookkeepingOutlook(c, key, app, s, nature);
    if s != app.status {
      if DeployedStatus(app, a.detail, 0) == app.status {
        StampFixed(app.status, g, Phase.Deployed, Healthy, true, "AllWorkloadsCurrent", a.detail, Ready, true,
                   "Deployed", steady, 0, c.clock);
      }
      StampAgain(app.status, g, Phase.Deployed, Healthy, true, "AllWorkloadsCurrent", a.detail, Ready, true,
                 "Deployed", steady, c.clock, 0);
      assert DeployedStatus(app.(status := s), a.detail, 0) == s;
    }
  }

  lemma ProgressRound(c: Cluster, key: AppKey, app: App, a: Assessment, nature: Nature)
    requires Holds(c, key, app) && UpToDate(c, app) && Outlook(c, app, nature) == Some(a)
    requires !Unhealthy(app, a.grade, c.clock) && a.grade != Current
    ensures Settles(c, Put(c, app, ProgressStatus(app, a.detail, c.clock)), key, nature)
  {
    var s, g := ProgressStatus(app, a.detail, c.clock), app.generation;
    BookkeepingOutlook(c, key, app, s, nature);
    if s != app.status {
      if ProgressStatus(app, a.detail, 0) == app.status {
        StampFixed(app.status, g, Phase.Deploying, Healthy, false, "Progressing", a.detail, Ready, false,
                   "Progressing", a.detail, 0, c.clock);
      }
      StampAgain(app.status, g, Phase.Deploying, Healthy, false, "Progressing", a.detail, Ready, false, "Progressing",
                 a.detail, c.clock, 0);
      assert ProgressStatus(app.(status := s), a.detail, 0) == s;
    }
  }

  lemma DegradedRound(c: Cluster, key: AppKey, app: App, a: Assessment, nature: Nature)
    requires Holds(c, key, app) && UpToDate(c, app) && Outlook(c, app, nature) == Some(a)
    requires Unhealthy(app, a.grade, c.clock) && (app.status.lastFailed != 0 || app.status.revision <= 1)
    ensures Settles(c, Put(c, app, DegradedNow(app, a, c.clock)), key, nature)
  {
    var s, g, reason := DegradedNow(app, a, c.clock), app.generation, UnhealthyReason(a.grade);
    var note := if app.status.lastFailed != 0 then " (already rolled back; awaiting a spec fix)"
                else " (no previous revision to roll back to)";
    var m := WithNote(UnhealthyDetail(app, a), note);
    BookkeepingOutlook(c, key, app, s, nature);
    if s != app.status {
      if DegradedNow(app, a, 0) == app.status {
        StampFixed(app.status, g, Phase.Degraded, Healthy, false, reason, m, Ready, false, "Degraded", m, 0, c.clock);
      }
      StampAgain(app.status, g, Phase.Degraded, Healthy, false, reason, m, Ready, false, "Degraded", m, c.clock, 0);
      assert DegradedNow(app.(status := s), a, 0) == s;
    }
  }

  lemma DegradedPath(c: Cluster, key: AppKey, app: App, a: Assessment, nature: Nature)
    requires Holds(c, key, app) && (app.status.lastFailed != 0 || app.status.revision <= 1)
    ensures Quiet(c, HandleUnhealthy(app, a, c.clock), nature).0 == Put(c, app, DegradedNow(app, a, c.clock))
  {
    var w := HandleUnhealthy(app, a, c.clock);
    if w.Persisting? { QuietPersist(c, key, app, w.status, w.cause, w.result, nature); }
  }

  // ---------- the rollback ----------

  /** From the marker on, whatever Helm answers, the marker stays and the pass stays with its Application. */
  predicate Past(c: Cluster, d: Cluster, key: AppKey, app: App) {
    && Frozen(c, d, key, app)
    && d.apps[key].status.lastFailed != 0
    && d.apps[key].status.observed == app.status.observed
    && d.apps[key].status.valuesHash == app.status.valuesHash
  }

  lemma MarkerPath(c: Cluster, key: AppKey, app: App, s: Status, nature: Nature)
    requires Holds(c, key, app) && s != app.status
    ensures var d := Store(c, app.(status := s));
            Quiet(c, WritingAhead(app, s), nature) == Quiet(d, Worker.RollingBack(d.apps[key]), nature)
  {
  }

  function RolledBackCluster(c: Cluster, rk: ReleaseKey): Cluster {
    if rk in c.releases && 2 <= |c.releases[rk]| then c.(releases := c.releases[rk := RolledBack(c.releases[rk])])
    else c
  }

  lemma RollbackPath(c: Cluster, app: App, nature: Nature)
    returns (local: Status, reason: string, m: Text, seconds: nat)
    ensures SameBooks(app.status.(revision := local.revision), local)
    ensures Quiet(c, Worker.RollingBack(app), nature) ==
            Quiet(RolledBackCluster(c, ReleaseOf(app)), SetDegraded(app, local, reason, m, seconds, c.clock), nature)
  {
    var rk := ReleaseOf(app);
    var d := RolledBackCluster(c, rk);
    if rk in c.releases && 2 <= |c.releases[rk]| {
      RollbackServed(c, app, nature);
      RefetchServed(d, app, nature);
      local := app.status.(revision := |d.releases[rk]|);
      reason, m, seconds := "RolledBack", FailedRevision(app.status.lastFailed), STEADY_POLL;
    } else {
      RollbackRefused(c, app, nature);
      local, reason, seconds := app.status, "RollbackFailed", HEALTH_POLL;
      m := Because("helm rollback", app.key.name, if rk in c.releases then NoRevision else NotFound);
    }
  }

  lemma RollbackServed(c: Cluster, app: App, nature: Nature)
    requires ReleaseOf(app) in c.releases && 2 <= |c.releases[ReleaseOf(app)]|
    ensures Quiet(c, Worker.RollingBack(app), nature) ==
            Quiet(RolledBackCluster(c, ReleaseOf(app)), Refetching(app), nature)
  {
    QuietOnce(c, Worker.RollingBack(app), nature);
    RollbackReply(c, ReleaseOf(app));
  }

  lemma RollbackReply(c: Cluster, rk: ReleaseKey)
    ensures Serve(c, HelmRollback(rk), CALM) ==
            (RolledBackCluster(c, rk),
             if rk !in c.releases then Failure(NotFound)
             else if |c.releases[rk]| < 2 then Failure(NoRevision)
             else Done)
  {
  }

  lemma RollbackRefused(c: Cluster, app: App, nature: Nature)
    requires !(ReleaseOf(app) in c.releases && 2 <= |c.releases[ReleaseOf(app)]|)
    ensures var e := if ReleaseOf(app) in c.releases then NoRevision else NotFound;
            Quiet(c, Worker.RollingBack(app), nature) ==
            Quiet(c, SetDegraded(app, app.status, "RollbackFailed", Because("helm rollback", app.key.name, e),
                                 HEALTH_POLL, c.clock), nature)
  {
    QuietOnce(c, Worker.RollingBack(app), nature);
    RollbackReply(c, ReleaseOf(app));
  }

  lemma RefetchServed(c: Cluster, app: App, nature: Nature)
    requires ReleaseOf(app) in c.releases
    ensures Quiet(c, Refetching(app), nature) ==
            Quiet(c, SetDegraded(app, app.status.(revision := |c.releases[ReleaseOf(app)]|), "RolledBack",
                                 FailedRevision(app.status.lastFailed), STEADY_POLL, c.clock), nature)
  {
    QuietOnce(c, Refetching(app), nature);
    GetReply(c, ReleaseOf(app));
  }

  lemma SetDegradedPast(c: Cluster, key: AppKey, app: App, local: Status, reason: string, m: Text, seconds: nat,
                        nature: Nature)
    requires Holds(c, key, app) && SameBooks(app.status.(revision := local.revision), local) &&
             app.status.lastFailed != 0
    ensures Past(c, Quiet(c, SetDegraded(app, local, reason, m, seconds, c.clock), nature).0, key, app)
  {
    var w := SetDegraded(app, local, reason, m, seconds, c.clock);
    SetDegradedShape(app, local, reason, m, seconds, c.clock);
    if w.Persisting? {
      QuietPersist(c, key, app, w.status, w.cause, w.result, nature);
      PutFrozen(c, key, app, w.status);
    }
  }

  lemma RollbackRound(c: Cluster, key: AppKey, app: App, a: Assessment, nature: Nature)
    requires Holds(c, key, app) && UpToDate(c, app) && Outlook(c, app, nature) == Some(a)
    requires Unhealthy(app, a.grade, c.clock) && app.status.lastFailed == 0 && 1 < app.status.revision
    ensures Settles(c, Quiet(c, HandleUnhealthy(app, a, c.clock), nature).0, key, nature)
  {
    var s := MarkedStatus(app, UnhealthyReason(a.grade), UnhealthyDetail(app, a), c.clock);
    MarkerPath(c, key, app, s, nature);
    var d := Store(c, app.(status := s));
    var marked := d.apps[key];
    var local, reason, m, seconds := RollbackPath(d, marked, nature);
    var e := RolledBackCluster(d, ReleaseOf(marked));
    SetDegradedPast(e, key, marked, local, reason, m, seconds, nature);
    var f := Quiet(e, SetDegraded(marked, local, reason, m, seconds, e.clock), nature).0;
    assert Quiet(c, HandleUnhealthy(app, a, c.clock), nature).0 == f;
    FrozenHash(c, f, key, app);
    MeasureBound(f, f.apps[key], nature);
  }

  // ---------- rounds ----------

  lemma HealthRound(c: Cluster, key: AppKey, app: App, hash: Hash, nature: Nature)
    requires Holds(c, key, app) && UpToDate(c, app)
    ensures Settles(c, Quiet(c, Fetching(app, hash), nature).0, key, nature)
  {
    var m, seen := QuietFetch(c, app, hash, nature);
    if Outlook(c, app, nature).Some? {
      var a := Outlook(c, app, nature).value;
      if Unhealthy(app, a.grade, c.clock) {
        if app.status.lastFailed != 0 || app.status.revision <= 1 {
          DegradedPath(c, key, app, a, nature);
          DegradedRound(c, key, app, a, nature);
        } else {
          RollbackRound(c, key, app, a, nature);
        }
      } else if a.grade == Current && app.status.lastFailed == 0 {
        QuietWrite(c, key, app, DeployedStatus(app, a.detail, c.clock), Claim(hash, m, seen),
                   RequeueAfter(STEADY_POLL), nature);
        DeployedRound(c, key, app, a, nature);
      } else if a.grade != Current {
        QuietWrite(c, key, app, ProgressStatus(app, a.detail, c.clock), Progress, RequeueAfter(HEALTH_POLL), nature);
        ProgressRound(c, key, app, a, nature);
      }
    }
  }

  /** An undisturbed pass changes nothing, or brings the Application closer to rest. */
  lemma PassSettles(c: Cluster, key: AppKey, nature: Nature)
    requires Sound(c) && (key in c.apps ==> !c.apps[key].deleting)
    ensures Settles(c, Quiet(c, Worker.Reading(key), nature).0, key, nature)
  {
    ReadOnce(c, key, nature);
    if key in c.apps {
      var app := c.apps[key];
      if !app.finalizer { FinalizerRound(c, key, app, nature); }
      else if CurrentHash(c, app).None? { FailedRound(c, key, app, nature); }
      else {
        var values := ValuesOnce(c, app, nature);
        if NeedsApply(app, HashValues(values)) { ApplyRound(c, key, app, values, nature); }
        else { HealthRound(c, key, app, HashValues(values), nature); }
      }
    }
  }

  lemma ReadOnce(c: Cluster, key: AppKey, nature: Nature)
    ensures Quiet(c, Worker.Reading(key), nature) ==
            if key in c.apps then Quiet(c, AfterRead(c.apps[key]), nature) else (c, Idle(Settled))
  {
  }
}
