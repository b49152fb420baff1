/** What a rollback restores: in every orderly run, exactly what the last upgrade in Helm replaced, whether or not that
    upgrade ever got on record. */
module Restored {
  import opened Api
  import opened Server
  import opened Controller
  import opened Machine
  import opened Soundness
  import opened Ledger
  import opened AtMostOnce
  import opened Lifecycle
  import opened Mirror

  /** What the release ran when it was last upgraded. */
  function Replaced(log: seq<Entry>, uid: nat): Option<Manifest> {
    if log == [] then None
    else if IsHelmApply(log[|log| - 1], uid) then log[|log| - 1].replaced
    else Replaced(log[..|log| - 1], uid)
  }

  lemma ReplacedMore(log: seq<Entry>, more: seq<Entry>, uid: nat)
    requires |more| <= 1
    ensures Replaced(log + more, uid) ==
            if more != [] && IsHelmApply(more[0], uid) then more[0].replaced else Replaced(log, uid)
  {
    if more == [] { assert log + more == log; } else { assert (log + more)[..|log|] == log; }
  }

  /** The revision before the latest one of the Application's release is the replaced one. */
  ghost predicate PreviousReplaced(c: Cluster, log: seq<Entry>, app: App) {
    var rk := ReleaseOf(app);
    rk in c.releases && 2 <= |c.releases[rk]| ==>
      Replaced(log, app.uid) == Some(c.releases[rk][|c.releases[rk]| - 2].manifest)
  }

  /** Until it has rolled back, an Application can go back to what it replaced. */
  ghost predicate CanGoBack(s: State, k: AppKey)
    requires k in s.cluster.apps
  {
    !Spent(s.log, s.cluster.apps[k].uid) ==> PreviousReplaced(s.cluster, s.log, s.cluster.apps[k])
  }

  /** The rollback logged here restored what the upgrade before it had replaced. */
  predicate LandsBack(log: seq<Entry>, i: nat)
    requires i < |log|
  {
    log[i].RollbackIssued? && log[i].restored.Some? ==> Replaced(log[..i], log[i].uid) == log[i].restored
  }

  ghost predicate RestoredInv(s: State) {
    && LifeInv(s)
    && OnceInv(s)
    && (forall k :: k in s.cluster.apps ==> CanGoBack(s, k))
    && (AboutToRecord(s.worker) ==> PreviousReplaced(s.cluster, s.log, s.worker.app))
    && (forall i :: 0 <= i < |s.log| ==> LandsBack(s.log, i))
  }

  lemma LogLandsBack(log: seq<Entry>, more: seq<Entry>)
    requires forall i :: 0 <= i < |log| ==> LandsBack(log, i)
    requires |more| <= 1
    requires more != [] && more[0].RollbackIssued? && more[0].restored.Some? ==>
               Replaced(log, more[0].uid) == more[0].restored
    ensures forall i :: 0 <= i < |log + more| ==> LandsBack(log + more, i)
  {
    forall i | 0 <= i < |log + more| ensures LandsBack(log + more, i) {
      if i < |log| {
        assert LandsBack(log, i) && (log + more)[i] == log[i] && (log + more)[..i] == log[..i];
      } else {
        assert (log + more)[..i] == log && (log + more)[i] == more[0];
      }
    }
  }

  /** The release is what it was, or gone. */
  predicate NotTouched(c: Cluster, d: Cluster, rk: ReleaseKey) {
    rk in d.releases ==> rk in c.releases && d.releases[rk] == c.releases[rk]
  }

  lemma PreviousLater(c: Cluster, log: seq<Entry>, d: Cluster, more: seq<Entry>, a: App, b: App)
    requires PreviousReplaced(c, log, a) && b.uid == a.uid && ReleaseOf(b) == ReleaseOf(a)
    requires NotTouched(c, d, ReleaseOf(a)) && |more| <= 1 && (more != [] ==> !IsHelmApply(more[0], a.uid))
    ensures PreviousReplaced(d, log + more, b)
  {
    ReplacedMore(log, more, a.uid);
  }

  /** Steps after which the Application is no less spent, and its release is not touched. */
  lemma GoesBackLater(s: State, t: State, more: seq<Entry>, k: AppKey)
    requires k in s.cluster.apps && k in t.cluster.apps && CanGoBack(s, k)
    requires t.log == s.log + more && |more| <= 1
    requires var a := s.cluster.apps[k];
             t.cluster.apps[k].uid == a.uid && ReleaseOf(t.cluster.apps[k]) == ReleaseOf(a) &&
             NotTouched(s.cluster, t.cluster, ReleaseOf(a)) &&
             (more != [] ==> !IsHelmApply(more[0], a.uid) && !IsApply(more[0], a.uid))
    ensures CanGoBack(t, k)
  {
    var a := s.cluster.apps[k];
    LastSignMore(s.log, more, SpentRollback, a.uid);
    if !Spent(t.log, a.uid) { PreviousLater(s.cluster, s.log, t.cluster, more, a, t.cluster.apps[k]); }
  }

  // ---------- steps of users ----------

  lemma EnvGoesBack(s: State, step: EnvStep, k: AppKey)
    requires RestoredInv(s) && Orderly(s, Env(step)) && k in Step(s, Env(step)).cluster.apps
    ensures CanGoBack(Step(s, Env(step)), k)
  {
    var c, t := s.cluster, Step(s, Env(step));
    EnvHelm(c, step);
    if k in c.apps {
      EnvStatuses(c, step);
      EnvKeeps(s, step, k);
      assert CanGoBack(s, k);
      GoesBackLater(s, t, EnvEntries(c, step), k);
    } else {
      EnvNew(s, step, k);
      Unreleased(c, ReleaseOf(t.cluster.apps[k]));
    }
  }

  lemma EnvRestored(s: State, step: EnvStep)
    requires RestoredInv(s) && Orderly(s, Env(step))
    ensures RestoredInv(Step(s, Env(step)))
  {
    var t, w := Step(s, Env(step)), s.worker;
    StepLife(s, Env(step));
    StepOnce(s, Env(step));
    EnvHelm(s.cluster, step);
    LogLandsBack(s.log, EnvEntries(s.cluster, step));
    if AboutToRecord(w) { PreviousLater(s.cluster, s.log, t.cluster, EnvEntries(s.cluster, step), w.app, w.app); }
    forall k | k in t.cluster.apps ensures CanGoBack(t, k) { EnvGoesBack(s, step, k); }
  }

  // ---------- calls ----------

  lemma UntouchedBack(c: Cluster, r: Request, o: Outcome, rk: ReleaseKey)
    requires !Touches(r, rk) || r.HelmUninstall? || r.DropNamespace?
    ensures NotTouched(c, Serve(c, r, o).0, rk)
  {
  }

  /** Only its own pass applies, records or rolls back an Application. */
  lemma OwnEntries(s: State, o: Outcome, k: AppKey)
    requires LifeInv(s) && !s.worker.Idle? && k in s.cluster.apps
    ensures |CallEntries(s, o)| <= 1
    ensures CallEntries(s, o) != [] && IsHelmApply(CallEntries(s, o)[0], s.cluster.apps[k].uid) ==>
              s.worker.Applying? && k == s.worker.app.key && Executes(s.cluster, NextCall(s.worker), o)
    ensures CallEntries(s, o) != [] && IsApply(CallEntries(s, o)[0], s.cluster.apps[k].uid) ==>
              AboutToRecord(s.worker) && k == s.worker.app.key && Writes(s, Call(o))
  {
  }

  /** An upgrade makes what the release ran the previous revision. */
  lemma UpgradeGoesBack(s: State, o: Outcome)
    requires s.worker.Applying? && Executes(s.cluster, NextCall(s.worker), o)
    ensures PreviousReplaced(Step(s, Call(o)).cluster, Step(s, Call(o)).log, s.worker.app)
    ensures Step(s, Call(o)).cluster.apps == s.cluster.apps
  {
    ReplacedMore(s.log, CallEntries(s, o), s.worker.app.uid);
  }

  lemma RecordGoesBack(s: State, o: Outcome)
    requires LifeInv(s) && AboutToRecord(s.worker) && Writes(s, Call(o))
    requires PreviousReplaced(s.cluster, s.log, s.worker.app)
    ensures s.worker.app.key in Step(s, Call(o)).cluster.apps && CanGoBack(Step(s, Call(o)), s.worker.app.key)
  {
    OwnWrite(s, o);
    PreviousLater(s.cluster, s.log, Step(s, Call(o)).cluster, CallEntries(s, o), s.worker.app,
                  Step(s, Call(o)).cluster.apps[s.worker.app.key]);
  }

  /** A rollback uses up the way back. */
  lemma RollbackSpends(s: State, o: Outcome)
    requires s.worker.RollingBack?
    ensures Spent(Step(s, Call(o)).log, s.worker.app.uid)
  {
    LastSignMore(s.log, CallEntries(s, o), SpentRollback, s.worker.app.uid);
  }

  lemma CallGoesBack(s: State, o: Outcome, k: AppKey)
    requires RestoredInv(s) && !s.worker.Idle? && k in Step(s, Call(o)).cluster.apps
    ensures CanGoBack(Step(s, Call(o)), k)
  {
    CallApps(s, o);
    assert CanGoBack(s, k);
    if s.worker.Applying? && k == s.worker.app.key && Executes(s.cluster, NextCall(s.worker), o) {
      UpgradeCanGoBack(s, o);
    } else if AboutToRecord(s.worker) && k == s.worker.app.key && Writes(s, Call(o)) {
      RecordGoesBack(s, o);
    } else if s.worker.RollingBack? && k == s.worker.app.key {
      RollbackSpends(s, o);
      RollbackKeepsApps(s, o);
      OwnStored(s);
    } else {
      OtherGoesBack(s, o, k);
    }
  }

  lemma UpgradeCanGoBack(s: State, o: Outcome)
    requires LifeInv(s) && s.worker.Applying? && Executes(s.cluster, NextCall(s.worker), o)
    ensures s.worker.app.key in Step(s, Call(o)).cluster.apps && CanGoBack(Step(s, Call(o)), s.worker.app.key)
  {
    UpgradeGoesBack(s, o);
    OwnStored(s);
    SamePrevious(Step(s, Call(o)), s.worker.app.key, s.worker.app);
  }

  lemma SamePrevious(t: State, k: AppKey, app: App)
    requires k in t.cluster.apps && t.cluster.apps[k].uid == app.uid && ReleaseOf(t.cluster.apps[k]) == ReleaseOf(app)
    requires PreviousReplaced(t.cluster, t.log, app)
    ensures CanGoBack(t, k)
  {
  }

  /** The Application a pass works on is stored, with the same uid and release. */
  lemma OwnStored(s: State)
    requires LifeInv(s) && Copy(s.worker).Some? && !s.worker.AddingFinalizer?
    ensures s.worker.app.key in s.cluster.apps
    ensures var stored := s.cluster.apps[s.worker.app.key];
            stored.uid == s.worker.app.uid && ReleaseOf(stored) == ReleaseOf(s.worker.app)
  {
  }

  lemma RollbackKeepsApps(s: State, o: Outcome)
    requires s.worker.RollingBack?
    ensures Step(s, Call(o)).cluster.apps == s.cluster.apps
  {
  }

  lemma OtherGoesBack(s: State, o: Outcome, k: AppKey)
    requires LifeInv(s) && !s.worker.Idle? && k in s.cluster.apps && k in Step(s, Call(o)).cluster.apps &&
             CanGoBack(s, k)
    requires !(s.worker.Applying? && k == s.worker.app.key && Executes(s.cluster, NextCall(s.worker), o))
    requires !(AboutToRecord(s.worker) && k == s.worker.app.key && Writes(s, Call(o)))
    requires !(s.worker.RollingBack? && k == s.worker.app.key)
    ensures CanGoBack(Step(s, Call(o)), k)
  {
    CallOne(s, o, k);
    OwnEntries(s, o, k);
    OtherNotTouched(s, o, k);
    GoesBackLater(s, Step(s, Call(o)), CallEntries(s, o), k);
  }

  lemma OtherNotTouched(s: State, o: Outcome, k: AppKey)
    requires LifeInv(s) && !s.worker.Idle? && k in s.cluster.apps
    requires !(s.worker.Applying? && k == s.worker.app.key && Executes(s.cluster, NextCall(s.worker), o))
    requires !(s.worker.RollingBack? && k == s.worker.app.key)
    ensures NotTouched(s.cluster, Step(s, Call(o)).cluster, ReleaseOf(s.cluster.apps[k]))
  {
    var r, rk := NextCall(s.worker), ReleaseOf(s.cluster.apps[k]);
    if Touches(r, rk) {
      OwnReleases(s, k);
      HelmCalls(s.worker, rk);
    }
    if Executes(s.cluster, r, o) { UntouchedBack(s.cluster, r, o, rk); }
  }

  /** The points of a pass at which it changes a release. */
  lemma HelmCalls(w: Worker, rk: ReleaseKey)
    requires !w.Idle? && Touches(NextCall(w), rk)
    ensures w.Applying? || w.RollingBack? || NextCall(w).HelmUninstall? || w.DroppingNamespace?
    ensures w.DroppingNamespace? ==> NextCall(w).DropNamespace?
  {
  }

  lemma CallAboutToRecord(s: State, o: Outcome)
    requires !s.worker.Idle?
    ensures var t := Step(s, Call(o)); AboutToRecord(t.worker) ==> PreviousReplaced(t.cluster, t.log, t.worker.app)
  {
    var (d, a) := Serve(s.cluster, NextCall(s.worker), o);
    RecordComes(s.worker, a, d.clock);
    if AboutToRecord(Resume(s.worker, a, d.clock)) { UpgradeGoesBack(s, o); }
  }

  /** The rollback about to be issued would restore what was replaced: it is the first since the last apply on
      record. */
  lemma RollbackLands(s: State, o: Outcome)
    requires RestoredInv(s) && s.worker.RollingBack?
    ensures var e := CallEntries(s, o)[0];
            |CallEntries(s, o)| == 1 && (e.restored.Some? ==> Replaced(s.log, e.uid) == e.restored)
  {
    assert CanGoBack(s, s.worker.app.key);
  }

  lemma NoRollbackEntry(s: State, o: Outcome)
    requires !s.worker.RollingBack?
    ensures |CallEntries(s, o)| <= 1 && (CallEntries(s, o) != [] ==> !CallEntries(s, o)[0].RollbackIssued?)
  {
  }

  lemma CallRestored(s: State, o: Outcome)
    requires RestoredInv(s) && !s.worker.Idle? && Orderly(s, Call(o))
    ensures RestoredInv(Step(s, Call(o)))
  {
    var t := Step(s, Call(o));
    StepLife(s, Call(o));
    StepOnce(s, Call(o));
    CallAboutToRecord(s, o);
    forall k | k in t.cluster.apps ensures CanGoBack(t, k) { CallGoesBack(s, o, k); }
    if s.worker.RollingBack? { RollbackLands(s, o); } else { NoRollbackEntry(s, o); }
    LogLandsBack(s.log, CallEntries(s, o));
  }

  lemma StepRestored(s: State, e: Event)
    requires RestoredInv(s) && Orderly(s, e)
    ensures RestoredInv(Step(s, e))
  {
    match e
    case Env(step) => EnvRestored(s, step);
    case Call(o) => if !s.worker.Idle? { CallRestored(s, o); }
    case _ => OtherRestored(s, e);
  }

  lemma OtherRestored(s: State, e: Event)
    requires RestoredInv(s) && (e.Begin? || e.Crash?) && Orderly(s, e)
    ensures RestoredInv(Step(s, e))
  {
    StepLife(s, e);
    StepOnce(s, e);
    forall k | k in s.cluster.apps ensures CanGoBack(Step(s, e), k) { assert CanGoBack(s, k); }
  }

  lemma {:induction false} RunRestored(s: State, events: seq<Event>)
    requires RestoredInv(s) && OrderlyRun(s, events)
    ensures RestoredInv(Run(s, events))
    decreases |events|
  {
    if events != [] {
      StepRestored(s, events[0]);
      RunRestored(Step(s, events[0]), events[1..]);
    }
  }

  /** This entry is a rollback that took effect. */
  predicate Restores(log: seq<Entry>, i: nat)
    requires i < |log|
  {
    log[i].RollbackIssued? && log[i].restored.Some?
  }

  /** In orderly runs, every rollback that takes effect restores exactly what the last upgrade replaced. */
  lemma RollbackRestoresReplaced(s: State, events: seq<Event>, i: nat)
    requires Initial(s) && OrderlyRun(s, events) && i < |Run(s, events).log| && Restores(Run(s, events).log, i)
    ensures var log := Run(s, events).log; log[i].restored == Replaced(log[..i], log[i].uid)
  {
    RunRestored(s, events);
    assert LandsBack(Run(s, events).log, i);
  }
}
