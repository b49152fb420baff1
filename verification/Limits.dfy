/** What the rollback protocol does not promise: a rollback that is cut short is never made up for, a rollback restores
    what ran before whether or not that was good, and a lost status write can leave status and Helm at odds. */
module Limits {
  import opened Api
  import opened Server
  import opened Controller
  import opened Machine
  import opened Soundness
  import opened Fresh
  import opened Budget
  import opened Steady
  import opened Quiescence
  import opened Latency
  import opened Overwritten
  import opened Lifecycle
  import opened Mirror
  import opened Outgrown
  import opened Sticky

  // ---------- at most once, not exactly once ----------

  /** The process stops right after the marker of a failed revision was stored. From then on, as long as the spec and
      the values stay the same, the rollback that the marker announced is never issued. */
  lemma MissedRollbackStaysMissed(s: State, o: Outcome, events: seq<Event>)
    requires FreshInv(s) && s.worker.WritingAhead? && Executes(s.cluster, NextCall(s.worker), o)
    requires PendingWrite(s.worker) && !s.worker.app.deleting && NothingNew(s.cluster, s.worker.app)
    requires UndisturbedRun(Run(s, [Call(o), Crash]), events, s.worker.app.key)
    ensures var u := Run(s, [Call(o), Crash]);
            var uid := s.worker.app.uid;
            Stuck(u.cluster, s.worker.app.key, uid) &&
            Stuck(Run(u, events).cluster, s.worker.app.key, uid) && NoHelmWork(Run(u, events).log, |u.log|, uid) &&
            NoHelmWork(u.log, |s.log|, uid)
  {
    var u, key := Run(s, [Call(o), Crash]), s.worker.app.key;
    TwoEvents(s, Call(o), Crash);
    MarkerStored(s, o);
    StepSound(s, Call(o));
    RollbackSticks(u, events, key);
    assert u.log == s.log + CallEntries(s, o);
  }

  lemma MarkerStored(s: State, o: Outcome)
    requires FreshInv(s) && s.worker.WritingAhead? && Executes(s.cluster, NextCall(s.worker), o)
    requires PendingWrite(s.worker) && !s.worker.app.deleting && NothingNew(s.cluster, s.worker.app)
    ensures Stuck(Step(s, Call(o)).cluster, s.worker.app.key, s.worker.app.uid)
    ensures CallEntries(s, o) ==
            [StatusWritten(s.worker.app.uid, s.worker.app.generation, s.worker.status, Marker)]
  {
    assert s.cluster.apps[s.worker.app.key] == s.worker.app;
  }

  /** The log goes on from here without a rollback. */
  ghost predicate NoRollbackSince(log: seq<Entry>, more: seq<Entry>) {
    && |log| <= |more| && more[..|log|] == log
    && forall i :: |log| <= i < |more| ==> !more[i].RollbackIssued?
  }

  lemma {:induction false} EnvRollsNothingBack(s: State, env: seq<EnvStep>)
    ensures NoRollbackSince(s.log, Run(s, EnvEvents(env)).log)
    decreases |env|
  {
    if env != [] {
      assert EnvEvents(env)[1..] == EnvEvents(env[1..]);
      var u := Step(s, Env(env[0]));
      EnvRollsNothingBack(u, env[1..]);
      assert u.log == s.log + EnvEntries(s.cluster, env[0]);
      assert Run(u, EnvEvents(env[1..])).log[..|u.log|][..|s.log|] == s.log;
    }
  }

  /** A turn issues a rollback exactly if the pass is at that point and the process lives on to it. */
  lemma TurnRollback(s: State, b: Beat)
    requires !s.worker.Idle?
    ensures var t := Turn(s, b);
            if s.worker.RollingBack? && !b.crash then
              t.log != [] && |s.log| < |t.log| && t.log[|t.log| - 1].RollbackIssued?
            else NoRollbackSince(s.log, t.log)
  {
    TurnAsStep(s, b);
    EnvRollsNothingBack(s, b.env);
    RunEnvKeepsWorker(s, b.env);
    var u := Run(s, EnvEvents(b.env));
    var e := if b.crash then Crash else Call(b.outcome);
    StepLogs(u, e);
    assert Turn(s, b).log == u.log + Added(u, e);
    AddedRollback(u, e);
    assert (u.log + Added(u, e))[..|s.log|] == u.log[..|s.log|];
  }

  lemma AddedRollback(s: State, e: Event)
    requires !s.worker.Idle? && (e.Call? || e.Crash?)
    ensures if s.worker.RollingBack? && e.Call? then |Added(s, e)| == 1 && Added(s, e)[0].RollbackIssued?
            else |Added(s, e)| <= 1 && forall i :: 0 <= i < |Added(s, e)| ==> !Added(s, e)[i].RollbackIssued?
  {
  }

  /** After the rollback, a pass only fetches and writes. */
  predicate PastRollback(w: Worker) { w.Idle? || w.Refetching? || w.Persisting? }

  lemma {:induction false} NoFurtherRollback(s: State, weather: seq<Beat>)
    requires PastRollback(s.worker)
    ensures NoRollbackSince(s.log, Drive(s, weather).0.log)
    decreases Stage(s.worker)
  {
    if !s.worker.Idle? {
      var u := Turn(s, Head(weather));
      TurnDescends(s, Head(weather));
      TurnRollback(s, Head(weather));
      StaysPastRollback(s, Head(weather));
      NoFurtherRollback(u, Rest(weather));
      var t := Drive(u, Rest(weather)).0;
      assert t.log[..|u.log|][..|s.log|] == s.log;
    }
  }

  lemma StaysPastRollback(s: State, b: Beat)
    requires s.worker.Refetching? || s.worker.Persisting? || s.worker.RollingBack?
    ensures PastRollback(Turn(s, b).worker)
  {
    TurnAsStep(s, b);
    RunEnvKeepsWorker(s, b.env);
  }

  /** The write of the marker goes through and its reply arrives: the process lives, the call meets no fault, and the
      stored Application is still the one the pass read. */
  predicate MarkerAcknowledged(s: State, b: Beat)
    requires s.worker.WritingAhead?
  {
    !b.crash && b.outcome.fault.NoFault? && MatchesStored(Run(s, EnvEvents(b.env)).cluster, s.worker.app)
  }

  lemma AfterMarker(s: State, b: Beat)
    requires s.worker.WritingAhead?
    ensures if MarkerAcknowledged(s, b) then Turn(s, b).worker.RollingBack? else Turn(s, b).worker.Idle?
  {
    TurnAsStep(s, b);
    RunEnvKeepsWorker(s, b.env);
  }

  ghost predicate RollsBackSince(log: seq<Entry>, more: seq<Entry>) {
    && |log| <= |more| && more[..|log|] == log
    && exists i :: |log| <= i < |more| && more[i].RollbackIssued?
  }

  /** A pass at the rollback issues it exactly if the process lives on to the call. */
  lemma FromRollback(u: State, weather: seq<Beat>)
    requires u.worker.RollingBack?
    ensures if Head(weather).crash then NoRollbackSince(u.log, Drive(u, weather).0.log)
            else RollsBackSince(u.log, Drive(u, weather).0.log)
  {
    var b, t := Head(weather), Turn(u, Head(weather));
    TurnRollback(u, b);
    TurnKeepsLog(u, b);
    StaysPastRollback(u, b);
    NoFurtherRollback(t, Rest(weather));
    TurnDescends(u, b);
    LogsChain(u.log, t.log, Drive(t, Rest(weather)).0.log);
  }

  lemma LogsChain(a: seq<Entry>, b: seq<Entry>, c: seq<Entry>)
    requires |a| <= |b| && b[..|a|] == a && NoRollbackSince(b, c)
    ensures |a| <= |c| && c[..|a|] == a
    ensures NoRollbackSince(a, b) ==> NoRollbackSince(a, c)
    ensures |a| < |b| && b[|b| - 1].RollbackIssued? ==> RollsBackSince(a, c)
  {
    assert c[..|b|][..|a|] == c[..|a|];
    assert forall i :: 0 <= i < |b| ==> c[i] == c[..|b|][i];
    if |a| < |b| && b[|b| - 1].RollbackIssued? { assert c[|b| - 1].RollbackIssued?; }
  }

  lemma TurnKeepsLog(s: State, b: Beat)
    requires !s.worker.Idle?
    ensures |s.log| <= |Turn(s, b).log| && Turn(s, b).log[..|s.log|] == s.log
  {
    TurnAsStep(s, b);
    EnvRollsNothingBack(s, b.env);
    var u := Run(s, EnvEvents(b.env));
    var e := if b.crash then Crash else Call(b.outcome);
    StepLogs(u, e);
    assert (u.log + Added(u, e))[..|s.log|] == u.log[..|s.log|];
  }

  /** A pass that has found the release unhealthy issues the rollback exactly if the write of its marker is
      acknowledged and the process lives on to the next call. */
  lemma RollbackIssuedExactly(s: State, weather: seq<Beat>)
    requires s.worker.WritingAhead?
    ensures var log := Drive(s, weather).0.log;
            if MarkerAcknowledged(s, Head(weather)) && !Head(Rest(weather)).crash then RollsBackSince(s.log, log)
            else NoRollbackSince(s.log, log)
  {
    var u := Turn(s, Head(weather));
    TurnRollback(s, Head(weather));
    AfterMarker(s, Head(weather));
    assert Drive(s, weather).0 == Drive(u, Rest(weather)).0;
    if u.worker.RollingBack? {
      FromRollback(u, Rest(weather));
      var log := Drive(u, Rest(weather)).0.log;
      assert log[..|u.log|][..|s.log|] == log[..|s.log|];
      assert forall i :: |s.log| <= i < |u.log| ==> log[i] == log[..|u.log|][i];
    }
  }

  // ---------- the previous revision, good or bad ----------

  /** A release that is there, and an upgrade that is due. */
  predicate UpgradeDue(c: Cluster, key: AppKey, values: Option<string>) {
    && key in c.apps
    && var app := c.apps[key];
       && app.key == key && app.finalizer && !app.deleting
       && ReleaseOf(app) in c.releases && app.spec.namespace in c.namespaces
       && CurrentHash(c, app) == Some(HashValues(values)) && NeedsApply(app, HashValues(values))
  }

  /** A pass after this gap would find the release unhealthy. */
  predicate TurnsOutBad(d: Cluster, key: AppKey, gap: nat, nature: Nature) {
    && key in d.apps && Outlook(d, d.apps[key], nature).Some?
    && Unhealthy(d.apps[key], Outlook(d, d.apps[key], nature).value.grade, d.clock + gap)
  }

  /** An upgrade, then a pass that finds it unhealthy: the rollback brings back exactly the revision that ran before the
      upgrade. */
  lemma RollbackUndoesUpgrade(c: Cluster, key: AppKey, values: Option<string>, before: Nature, gap: nat, after: Nature)
    requires UpgradeDue(c, key, values)
    requires TurnsOutBad(Upgraded(c, c.apps[key], values, before), key, gap, after)
    ensures var rk := ReleaseOf(c.apps[key]);
            var f := Round(Upgraded(c, c.apps[key], values, before), key, gap, after);
            rk in f.releases && Latest(f.releases[rk]) == Latest(c.releases[rk]) &&
            |f.releases[rk]| == |c.releases[rk]| + 2
  {
    UpgradePath(c, key, values, before);
    BadRound(Upgraded(c, c.apps[key], values, before), key, gap, after);
  }

  lemma BadRound(c: Cluster, key: AppKey, gap: nat, nature: Nature)
    requires key in c.apps && Holds(c, key, c.apps[key]) && c.apps[key].finalizer && Clean(c, c.apps[key])
    requires c.apps[key].status.lastFailed == 0 && 1 < c.apps[key].status.revision && TurnsOutBad(c, key, gap, nature)
    requires var rk := ReleaseOf(c.apps[key]); rk in c.releases && 2 <= |c.releases[rk]|
    ensures var rk := ReleaseOf(c.apps[key]);
            Round(c, key, gap, nature).releases == c.releases[rk := RolledBack(c.releases[rk])]
  {
    LaterOutlook(c, key, Visit(gap, nature));
    RollbackPass(Environment(c, Tick(gap)), key, nature);
  }

  /** The cluster after an undisturbed apply. */
  ghost function Upgraded(c: Cluster, app: App, values: Option<string>, nature: Nature): Cluster {
    Quiet(c, FindingNamespace(app, values), nature).0
  }

  lemma UpgradePath(c: Cluster, key: AppKey, values: Option<string>, nature: Nature)
    requires UpgradeDue(c, key, values)
    ensures var app, d := c.apps[key], Upgraded(c, c.apps[key], values, nature);
            var source := SourceOf(app.spec, values);
            Frozen(c, d, key, app) && Clean(d, d.apps[key]) && d.apps[key].finalizer && d.apps[key].key == key &&
            d.apps[key].status.lastFailed == 0 && d.apps[key].status.revision == |c.releases[ReleaseOf(app)]| + 1 &&
            d.releases ==
            c.releases[ReleaseOf(app) := c.releases[ReleaseOf(app)] + [Revision(source, nature.render(source))]]
  {
    var app := c.apps[key];
    NamespacePath(c, app, values, nature);
    HelmPath(c, app, values, nature);
    var source := SourceOf(app.spec, values);
    var f := WithRevision(c, ReleaseOf(app), Revision(source, nature.render(source)));
    var s := AppliedStatus(app, values, |f.releases[ReleaseOf(app)]|, c.clock);
    QuietPersist(f, key, app, s, Applied(source), RequeueAfter(HEALTH_POLL), nature);
    PutFrozen(f, key, app, s);
    FrozenHash(c, Put(f, app, s), key, app);
  }

  lemma RollbackPass(c: Cluster, key: AppKey, nature: Nature)
    requires key in c.apps && Holds(c, key, c.apps[key]) && c.apps[key].finalizer && Clean(c, c.apps[key])
    requires c.apps[key].status.lastFailed == 0 && 1 < c.apps[key].status.revision
    requires Outlook(c, c.apps[key], nature).Some?
    requires Unhealthy(c.apps[key], Outlook(c, c.apps[key], nature).value.grade, c.clock)
    requires var rk := ReleaseOf(c.apps[key]); rk in c.releases && 2 <= |c.releases[rk]|
    ensures var rk := ReleaseOf(c.apps[key]);
            var d := Quiet(c, Worker.Reading(key), nature).0;
            d.releases == c.releases[rk := RolledBack(c.releases[rk])]
  {
    var app, a := c.apps[key], Outlook(c, c.apps[key], nature).value;
    VisitReads(c, key, nature);
    var m, seen := QuietFetch(c, app, app.status.valuesHash, nature);
    MarkedRollback(c, key, app, a, nature);
  }

  lemma MarkedRollback(c: Cluster, key: AppKey, app: App, a: Health.Assessment, nature: Nature)
    requires Holds(c, key, app) && app.status.lastFailed == 0 && 1 < app.status.revision
    requires ReleaseOf(app) in c.releases && 2 <= |c.releases[ReleaseOf(app)]|
    ensures var rk := ReleaseOf(app);
            Quiet(c, HandleUnhealthy(app, a, c.clock), nature).0.releases ==
            c.releases[rk := RolledBack(c.releases[rk])]
  {
    var s := MarkedStatus(app, UnhealthyReason(a.grade), UnhealthyDetail(app, a), c.clock);
    MarkerPath(c, key, app, s, nature);
    var d := Store(c, app.(status := s));
    var marked := d.apps[key];
    var local, reason, text, seconds := RollbackPath(d, marked, nature);
    var e := RolledBackCluster(d, ReleaseOf(marked));
    var w := SetDegraded(marked, local, reason, text, seconds, d.clock);
    if w.Persisting? { QuietPersist(e, key, marked, w.status, w.cause, w.result, nature); }
  }

  /** So the restored release is as healthy as the one that was replaced: if that one was never good, neither is what
      the rollback restores. */
  lemma RestoredAsGoodAsReplaced(c: Cluster, key: AppKey, values: Option<string>, before: Nature, gap: nat,
                                 after: Nature)
    requires UpgradeDue(c, key, values)
    requires TurnsOutBad(Upgraded(c, c.apps[key], values, before), key, gap, after)
    ensures var f := Round(Upgraded(c, c.apps[key], values, before), key, gap, after);
            Outlook(f, c.apps[key], after) == Outlook(c, c.apps[key], after)
  {
    RollbackUndoesUpgrade(c, key, values, before, gap, after);
  }

  /** Version 1 was applied; before it ever became healthy, the spec was edited to version 2. */
  const EDITED_APP :=
    App(WEB, 0, 5, 2, Spec("web", "https://charts.example", "2", "prod", None, 300), false, true,
        Status(Phase.Deploying, map[], 1, "web", 1, NoHash, 0, Some(100)))
  const EDITED :=
    Cluster(map[WEB := EDITED_APP], [EDITED_APP], map["prod" := true], map[], map[ReleaseKey("prod", "web") := [OLD]],
            120, 5, 1)

  const CRASHING := Nature((source: Source) => [POD], (m: Manifest, d: Doc) => Computed(Failing, "crash loop"))

  /** Both versions fail; the rollback of the second one lands on the first one, which was never Deployed. */
  lemma RollbackLandsOnBad()
    ensures var d := Upgraded(EDITED, EDITED_APP, None, CRASHING);
            var f := Round(d, WEB, 30, CRASHING);
            var rk := ReleaseKey("prod", "web");
            rk in f.releases && Latest(f.releases[rk]) == OLD && |f.releases[rk]| == 3 &&
            Outlook(f, EDITED_APP, CRASHING).Some? && Outlook(f, EDITED_APP, CRASHING).value.grade == Failing
  {
    UpgradePath(EDITED, WEB, None, CRASHING);
    var d := Upgraded(EDITED, EDITED_APP, None, CRASHING);
    OnePod(CRASHING, Failing, "crash loop");
    assert Outlook(d, d.apps[WEB], CRASHING) == HealthOf([POD], CRASHING);
    RollbackUndoesUpgrade(EDITED, WEB, None, CRASHING, 30, CRASHING);
    RestoredAsGoodAsReplaced(EDITED, WEB, None, CRASHING, 30, CRASHING);
    assert Outlook(EDITED, EDITED_APP, CRASHING) == HealthOf([POD], CRASHING);
  }

  // ---------- a lost record ----------

  lemma {:induction false} RunKeepsLog(s: State, events: seq<Event>)
    ensures s.log <= Run(s, events).log
    decreases |events|
  {
    if events != [] {
      StepLogs(s, events[0]);
      RunKeepsLog(Step(s, events[0]), events[1..]);
    }
  }

  /** What is off the record stays off it until the next apply. */
  lemma {:induction false} StaysOffRecord(log: seq<Entry>, more: seq<Entry>, uid: nat)
    requires log <= more && !Recorded(log, uid) && NotApplied(more, |log|, uid)
    ensures !Recorded(more, uid)
    decreases |more|
  {
    if more != log {
      var n := |more| - 1;
      assert more == more[..n] + [more[n]];
      assert forall i :: 0 <= i < n ==> more[..n][i] == more[i];
      StaysOffRecord(log, more[..n], uid);
      RecordedMore(more[..n], [more[n]], uid);
    }
  }

  /** The Secret as it has to be for the Application's values to be this text. */
  function PutBack(app: App, text: string): EnvStep
    requires app.spec.valuesRef.Some?
  {
    var ref := app.spec.valuesRef.value;
    PutSecret(SecretKey(app.key.namespace, ref.name), map[DataKey(ref) := Values(text)])
  }

  /** A pass that upgrades to new values, for an Application whose recorded values were this text. */
  ghost predicate Upgrading(s: State, text: string) {
    && PartedInv(s) && s.worker.Applying?
    && var app := s.worker.app;
       && app.key in s.cluster.apps && s.cluster.apps[app.key] == app && !app.deleting && app.spec.valuesRef.Some?
       && app.status.observed == app.generation && app.status.valuesHash == HashOf(text)
  }

  /** Where the process stops after the upgrade, and the Secret is put back. */
  function AfterLoss(s: State, o: Outcome, text: string): State
    requires s.worker.Applying? && s.worker.app.spec.valuesRef.Some?
  {
    Step(Step(Step(s, Call(o)), Crash), Env(PutBack(s.worker.app, text)))
  }

  lemma UpgradeLost(s: State, o: Outcome)
    requires PartedInv(s) && s.worker.Applying? && Executes(s.cluster, NextCall(s.worker), o) && o.staleApp.None?
    ensures var t := Step(s, Call(o));
            PartedInv(t) && t.cluster.apps == s.cluster.apps && !Recorded(t.log, s.worker.app.uid)
  {
    StepParted(s, Call(o));
    ApplyingExtends(s, o);
    RecordedMore(s.log, CallEntries(s, o), s.worker.app.uid);
  }

  lemma CrashLeaves(s: State)
    requires PartedInv(s)
    ensures var t := Step(s, Crash); PartedInv(t) && t.worker.Idle? && t.cluster == s.cluster && t.log == s.log
  {
    StepParted(s, Crash);
  }

  lemma PutBackLeaves(s: State, app: App, text: string)
    requires PartedInv(s) && app.key in s.cluster.apps && s.cluster.apps[app.key] == app
    requires app.finalizer && !app.deleting
    requires app.spec.valuesRef.Some? && app.status.observed == app.generation && app.status.valuesHash == HashOf(text)
    ensures var t := Step(s, Env(PutBack(app, text)));
            PartedInv(t) && t.worker == s.worker && Content(t.cluster, app.key, app.uid) &&
            Recorded(t.log, app.uid) == Recorded(s.log, app.uid)
  {
    StepParted(s, Env(PutBack(app, text)));
    PutBackContent(s.cluster, app, text);
    RecordedMore(s.log, EnvEntries(s.cluster, PutBack(app, text)), app.uid);
  }

  lemma PutBackContent(c: Cluster, app: App, text: string)
    requires app.key in c.apps && c.apps[app.key] == app && app.finalizer && !app.deleting
    requires app.spec.valuesRef.Some? && app.status.observed == app.generation && app.status.valuesHash == HashOf(text)
    ensures Content(Environment(c, PutBack(app, text)), app.key, app.uid)
  {
  }

  lemma LossLeaves(s: State, o: Outcome, text: string)
    requires Upgrading(s, text) && Executes(s.cluster, NextCall(s.worker), o) && o.staleApp.None?
    ensures var app, u := s.worker.app, AfterLoss(s, o, text);
            PartedInv(u) && u.worker.Idle? && Content(u.cluster, app.key, app.uid) && !Recorded(u.log, app.uid)
  {
    UpgradeLost(s, o);
    CrashLeaves(Step(s, Call(o)));
    UpgraderHolds(s);
    PutBackLeaves(Step(Step(s, Call(o)), Crash), s.worker.app, text);
  }

  lemma UpgraderHolds(s: State)
    requires LifeInv(s) && s.worker.Applying?
    ensures s.worker.app.finalizer
  {
  }

  /** Helm has upgraded to new values, the process stops before the status is written, and the Secret is put back as it
      was: for as long as spec and values then stay the same nothing is applied, and while no revision is marked failed
      status and Helm disagree. */
  lemma LostRecordStaysLost(s: State, o: Outcome, text: string, events: seq<Event>)
    requires Upgrading(s, text) && Executes(s.cluster, NextCall(s.worker), o) && o.staleApp.None?
    requires var u := AfterLoss(s, o, text); OrderlyRun(u, events) && UndisturbedRun(u, events, s.worker.app.key)
    ensures var app, u := s.worker.app, AfterLoss(s, o, text);
            var t := Run(u, events);
            app.key in t.cluster.apps && NotApplied(t.log, |u.log|, app.uid) &&
            (t.cluster.apps[app.key].status.lastFailed == 0 ==> !Mirrors(t.cluster, t.cluster.apps[app.key]))
  {
    var app, u := s.worker.app, AfterLoss(s, o, text);
    var t := Run(u, events);
    LossLeaves(s, o, text);
    NothingNewNothingApplied(u, events, app.key);
    RunParted(u, events);
    RunKeepsLog(u, events);
    StaysOffRecord(u.log, t.log, app.uid);
    assert Parted(t, app.key);
  }
}
