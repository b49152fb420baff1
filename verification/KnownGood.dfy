/** When a rollback lands on known-good content: exactly if the last upgrade started from such content. It did, if the
    upgrades are made with care. */
module KnownGood {
  import opened Api
  import opened Server
  import opened Health
  import opened Controller
  import opened Machine
  import opened Passes
  import opened Soundness
  import opened Ledger
  import opened AtMostOnce
  import opened Coherence
  import opened Lifecycle
  import opened Mirror
  import opened Restored

  /** This manifest was persisted as Deployed for this Application. */
  ghost predicate Good(log: seq<Entry>, uid: nat, m: Manifest) {
    exists i :: 0 <= i < |log| && Certifies(log[i], uid, m)
  }

  predicate Certifies(e: Entry, uid: nat, m: Manifest) {
    e.StatusWritten? && e.uid == uid && e.cause.Claim? && e.cause.manifest == m
  }

  lemma GoodLater(log: seq<Entry>, more: seq<Entry>, uid: nat, m: Manifest)
    requires Good(log, uid, m)
    ensures Good(log + more, uid, m)
  {
    var i :| 0 <= i < |log| && Certifies(log[i], uid, m);
    assert (log + more)[i] == log[i];
  }

  /** A release that is Deployed was certified so; past a failure of revision n, n - 1 is what was replaced. */
  ghost predicate Accounts(log: seq<Entry>, uid: nat, st: Status, h: History) {
    if st.lastFailed == 0 then
      st.phase == Phase.Deployed ==> Good(log, uid, Latest(h).manifest)
    else
      2 <= st.lastFailed <= |h| && Replaced(log, uid) == Some(h[st.lastFailed - 2].manifest)
  }

  ghost predicate Accounted(s: State, k: AppKey)
    requires k in s.cluster.apps
  {
    var app := s.cluster.apps[k];
    !app.deleting && Recorded(s.log, app.uid) && ReleaseOf(app) in s.cluster.releases ==>
      Accounts(s.log, app.uid, app.status, s.cluster.releases[ReleaseOf(app)])
  }

  predicate Judging(w: Worker) {
    w.Polling? || (w.Persisting? && w.cause.Claim?)
  }

  function Judged(w: Worker): Manifest
    requires Judging(w)
  {
    if w.Polling? then w.manifest else w.cause.manifest
  }

  /** The manifest a pass judges is the latest one of the release. */
  predicate JudgesLatest(c: Cluster, w: Worker) {
    && (Judging(w) ==>
          var rk := ReleaseOf(w.app); rk in c.releases && Latest(c.releases[rk]).manifest == Judged(w))
    && (w.Persisting? && w.cause.Claim? ==> w.app.status.lastFailed == 0)
  }

  ghost predicate KnownInv(s: State) {
    && MirrorInv(s)
    && HonestInv(s)
    && RestoredInv(s)
    && (forall k :: k in s.cluster.apps ==> Accounted(s, k))
    && JudgesLatest(s.cluster, s.worker)
  }

  lemma AccountsLater(log: seq<Entry>, more: seq<Entry>, uid: nat, st: Status, h: History)
    requires Accounts(log, uid, st, h) && |more| <= 1
    requires more != [] ==> !IsHelmApply(more[0], uid)
    ensures Accounts(log + more, uid, st, h)
  {
    ReplacedMore(log, more, uid);
    if st.lastFailed == 0 && st.phase == Phase.Deployed { GoodLater(log, more, uid, Latest(h).manifest); }
  }

  /** Steps that leave an Application's books and release alone leave its account. */
  lemma AccountedLater(s: State, t: State, more: seq<Entry>, k: AppKey)
    requires k in s.cluster.apps && k in t.cluster.apps && Accounted(s, k)
    requires t.log == s.log + more && |more| <= 1
    requires t.cluster.apps[k].uid == s.cluster.apps[k].uid && t.cluster.apps[k].status == s.cluster.apps[k].status
    requires ReleaseOf(t.cluster.apps[k]) == ReleaseOf(s.cluster.apps[k])
    requires s.cluster.apps[k].deleting ==> t.cluster.apps[k].deleting
    requires ReleaseOf(s.cluster.apps[k]) in t.cluster.releases ==>
               ReleaseOf(s.cluster.apps[k]) in s.cluster.releases &&
               t.cluster.releases[ReleaseOf(s.cluster.apps[k])] == s.cluster.releases[ReleaseOf(s.cluster.apps[k])]
    requires more != [] ==> !IsApply(more[0], s.cluster.apps[k].uid)
    ensures Accounted(t, k)
  {
    var a, rk := s.cluster.apps[k], ReleaseOf(s.cluster.apps[k]);
    RecordedMore(s.log, more, a.uid);
    if !t.cluster.apps[k].deleting && Recorded(t.log, a.uid) && rk in t.cluster.releases {
      AccountsLater(s.log, more, a.uid, a.status, s.cluster.releases[rk]);
    }
  }

  // ---------- steps of users ----------

  lemma EnvAccounted(s: State, step: EnvStep, k: AppKey)
    requires KnownInv(s) && Orderly(s, Env(step)) && k in Step(s, Env(step)).cluster.apps
    ensures Accounted(Step(s, Env(step)), k)
  {
    var c, t := s.cluster, Step(s, Env(step));
    EnvHelm(c, step);
    EnvStatuses(c, step);
    if k in c.apps {
      EnvKeeps(s, step, k);
      assert Accounted(s, k);
      AccountedLater(s, t, EnvEntries(c, step), k);
    } else {
      RecordedMore(s.log, EnvEntries(c, step), t.cluster.apps[k].uid);
      FreshUnsigned(s.log, c.uids, OnRecord, t.cluster.apps[k].uid);
    }
  }

  lemma EnvKnown(s: State, step: EnvStep)
    requires KnownInv(s) && Orderly(s, Env(step))
    ensures KnownInv(Step(s, Env(step)))
  {
    var t := Step(s, Env(step));
    StepMirror(s, Env(step));
    StepHonest(s, Env(step));
    StepRestored(s, Env(step));
    EnvHelm(s.cluster, step);
    forall k | k in t.cluster.apps ensures Accounted(t, k) { EnvAccounted(s, step, k); }
  }

  // ---------- calls ----------

  /** An Application the pass does not act for. */
  lemma BystanderAccounted(s: State, o: Outcome, k: AppKey)
    requires LifeInv(s) && !s.worker.Idle? && k in Step(s, Call(o)).cluster.apps
    requires k in s.cluster.apps && Accounted(s, k)
    requires !Touches(NextCall(s.worker), ReleaseOf(s.cluster.apps[k]))
    requires !(Writes(s, Call(o)) && k == s.worker.app.key)
    requires CallEntries(s, o) == [] ||
             !(CallEntries(s, o)[0].StatusWritten? && CallEntries(s, o)[0].uid == s.cluster.apps[k].uid)
    ensures Accounted(Step(s, Call(o)), k)
  {
    CallOne(s, o, k);
    UntouchedBack(s.cluster, NextCall(s.worker), o, ReleaseOf(s.cluster.apps[k]));
    AccountedLater(s, Step(s, Call(o)), CallEntries(s, o), k);
  }

  lemma DropAccounted(s: State, o: Outcome, k: AppKey)
    requires KnownInv(s) && s.worker.DroppingNamespace? && k in Step(s, Call(o)).cluster.apps
    ensures Accounted(Step(s, Call(o)), k)
  {
    CallOne(s, o, k);
    assert Accounted(s, k);
    var rk := ReleaseOf(s.cluster.apps[k]);
    if Touches(NextCall(s.worker), rk) {
      DropKeepsOrRemoves(s.cluster, s.worker.app.spec.namespace, o, rk);
      assert s.log + [] == s.log;
      AccountedLater(s, Step(s, Call(o)), [], k);
    } else {
      BystanderAccounted(s, o, k);
    }
  }

  lemma DropKeepsOrRemoves(c: Cluster, name: Name, o: Outcome, rk: ReleaseKey)
    ensures var d := Serve(c, DropNamespace(name), o).0;
            rk in d.releases ==> rk in c.releases && d.releases[rk] == c.releases[rk]
  {
  }

  lemma UninstallAccounted(s: State, o: Outcome, k: AppKey)
    requires KnownInv(s) && s.worker.Uninstalling? && k in Step(s, Call(o)).cluster.apps
    ensures Accounted(Step(s, Call(o)), k)
  {
    CallOne(s, o, k);
    assert Accounted(s, k);
    if k != s.worker.app.key {
      if Touches(NextCall(s.worker), ReleaseOf(s.cluster.apps[k])) { OwnReleases(s, k); }
      BystanderAccounted(s, o, k);
    }
  }

  lemma ApplyingAccounted(s: State, o: Outcome, k: AppKey)
    requires KnownInv(s) && s.worker.Applying? && k in Step(s, Call(o)).cluster.apps
    ensures Accounted(Step(s, Call(o)), k)
  {
    CallOne(s, o, k);
    assert Accounted(s, k);
    if k == s.worker.app.key {
      OwnApplyAccounted(s, o);
    } else {
      if Touches(NextCall(s.worker), ReleaseOf(s.cluster.apps[k])) { OwnReleases(s, k); }
      BystanderAccounted(s, o, k);
    }
  }

  lemma OwnApplyAccounted(s: State, o: Outcome)
    requires s.worker.Applying?
    requires var k, d := s.worker.app.key, Step(s, Call(o)).cluster;
             k in d.apps && k in s.cluster.apps && Accounted(s, k) && d.apps[k].uid == s.worker.app.uid
    ensures Accounted(Step(s, Call(o)), s.worker.app.key)
  {
    RecordedMore(s.log, CallEntries(s, o), s.worker.app.uid);
    if !Executes(s.cluster, NextCall(s.worker), o) {
      assert Step(s, Call(o)).cluster == s.cluster && s.log + [] == s.log;
    }
  }

  lemma RollbackAccounted(s: State, o: Outcome, k: AppKey)
    requires KnownInv(s) && s.worker.RollingBack? && k in Step(s, Call(o)).cluster.apps
    ensures Accounted(Step(s, Call(o)), k)
  {
    CallOne(s, o, k);
    assert Accounted(s, k);
    if k == s.worker.app.key {
      OwnRollbackAccounted(s, o);
    } else {
      if Touches(NextCall(s.worker), ReleaseOf(s.cluster.apps[k])) { OwnReleases(s, k); }
      BystanderAccounted(s, o, k);
    }
  }

  lemma OwnRollbackAccounted(s: State, o: Outcome)
    requires s.worker.RollingBack? && s.worker.app.key in s.cluster.apps && Accounted(s, s.worker.app.key)
    requires LifeInv(s) && PendingWrite(s.worker)
    ensures s.worker.app.key in Step(s, Call(o)).cluster.apps && Accounted(Step(s, Call(o)), s.worker.app.key)
  {
    var c, t, k, rk := s.cluster, Step(s, Call(o)), s.worker.app.key, ReleaseOf(s.worker.app);
    var es, app := CallEntries(s, o), s.cluster.apps[s.worker.app.key];
    RollbackExtends(s, o);
    RecordedMore(s.log, es, s.worker.app.uid);
    assert ReleaseOf(app) == rk && t.cluster.apps[k] == app;
    if !app.deleting && Recorded(s.log, app.uid) && rk in c.releases {
      AccountsLater(s.log, es, app.uid, app.status, c.releases[rk]);
    }
  }

  lemma OwnWriteAccounted(s: State, o: Outcome)
    requires s.worker.Persisting? || s.worker.WritingAhead?
    requires s.worker.app.key in s.cluster.apps && Accounted(s, s.worker.app.key) && Agrees(s, s.worker.app.key)
    requires LifeInv(s) && PendingWrite(s.worker) && HonestWorker(s.worker) && JudgesLatest(s.cluster, s.worker)
    requires CanGoBack(s, s.worker.app.key) && StoredMarked(s) && Writes(s, Call(o))
    ensures s.worker.app.key in Step(s, Call(o)).cluster.apps && Accounted(Step(s, Call(o)), s.worker.app.key)
  {
    var t, w, es := Step(s, Call(o)), s.worker, CallEntries(s, o);
    OwnWrite(s, o);
    if !AboutToRecord(w) { WriteRecords(s, o); }
    if AboutToRecord(w) {
      RecordingAccounted(s, t);
    } else if w.Persisting? {
      PlainAccounted(s, t, es);
    } else {
      MarkerAccounted(s, t, es);
    }
  }

  lemma RecordingAccounted(s: State, t: State)
    requires Wrote(s, t) && PendingWrite(s.worker) && AboutToRecord(s.worker) && HonestWorker(s.worker)
    ensures Accounted(t, s.worker.app.key)
  {
  }

  lemma PlainAccounted(s: State, t: State, es: seq<Entry>)
    requires Wrote(s, t) && PendingWrite(s.worker) && JudgesLatest(s.cluster, s.worker) && HonestWorker(s.worker)
    requires s.worker.Persisting? && !s.worker.cause.Applied?
    requires Accounted(s, s.worker.app.key)
    requires es == [StatusWritten(s.worker.app.uid, s.worker.app.generation, s.worker.status, s.worker.cause)]
    requires t.log == s.log + es
    requires Recorded(t.log, s.worker.app.uid) ==> Recorded(s.log, s.worker.app.uid)
    ensures Accounted(t, s.worker.app.key)
  {
    var w, rk := s.worker, ReleaseOf(s.worker.app);
    if !t.cluster.apps[w.app.key].deleting && Recorded(t.log, w.app.uid) && rk in s.cluster.releases {
      var h := s.cluster.releases[rk];
      AccountsLater(s.log, es, w.app.uid, w.app.status, h);
      if w.cause.Claim? {
        assert Certifies(t.log[|s.log|], w.app.uid, Latest(h).manifest);
      }
    }
  }

  lemma MarkerAccounted(s: State, t: State, es: seq<Entry>)
    requires Wrote(s, t) && PendingWrite(s.worker) && s.worker.WritingAhead?
    requires Agrees(s, s.worker.app.key) && CanGoBack(s, s.worker.app.key) && StoredMarked(s)
    requires t.log == s.log + es && |es| == 1 && es[0].StatusWritten?
    requires Recorded(t.log, s.worker.app.uid) ==> Recorded(s.log, s.worker.app.uid)
    ensures Accounted(t, s.worker.app.key)
  {
    ReplacedMore(s.log, es, s.worker.app.uid);
    assert !Spent(s.log, s.cluster.apps[s.worker.app.key].uid);
  }

  lemma WriteAccounted(s: State, o: Outcome, k: AppKey)
    requires KnownInv(s) && (s.worker.Persisting? || s.worker.WritingAhead?) && k in Step(s, Call(o)).cluster.apps
    ensures Accounted(Step(s, Call(o)), k)
  {
    CallOne(s, o, k);
    assert Accounted(s, k);
    if Writes(s, Call(o)) && k == s.worker.app.key {
      assert Agrees(s, k);
      OwnWriteAccounted(s, o);
    } else {
      if CallEntries(s, o) != [] { assert s.cluster.apps[k].uid != s.cluster.apps[s.worker.app.key].uid; }
      BystanderAccounted(s, o, k);
    }
  }

  lemma CallAccounted(s: State, o: Outcome, k: AppKey)
    requires KnownInv(s) && !s.worker.Idle? && k in Step(s, Call(o)).cluster.apps
    ensures Accounted(Step(s, Call(o)), k)
  {
    if s.worker.Applying? { ApplyingAccounted(s, o, k); }
    else if s.worker.RollingBack? { RollbackAccounted(s, o, k); }
    else if s.worker.Uninstalling? { UninstallAccounted(s, o, k); }
    else if s.worker.DroppingNamespace? { DropAccounted(s, o, k); }
    else if s.worker.Persisting? || s.worker.WritingAhead? { WriteAccounted(s, o, k); }
    else {
      CallOne(s, o, k);
      assert Accounted(s, k);
      QuietCall(s, o, ReleaseOf(s.cluster.apps[k]));
      BystanderAccounted(s, o, k);
    }
  }

  // ---------- the pass at hand ----------

  predicate JudgesFor(v: Worker, app: App, manifest: Manifest) {
    Judging(v) ==> v.app == app && Judged(v) == manifest && (v.Persisting? ==> app.status.lastFailed == 0)
  }

  lemma AssessJudging(app: App, hash: Hash, manifest: Manifest, seen: seq<Health.Reading>, a: Assessment, now: Time)
    ensures JudgesFor(Assess(app, hash, manifest, seen, a, now), app, manifest)
  {
    if Unhealthy(app, a.grade, now) { UnhealthyNotJudging(app, a, now); }
  }

  lemma UnhealthyNotJudging(app: App, a: Assessment, now: Time)
    ensures !Judging(HandleUnhealthy(app, a, now))
  {
  }

  lemma ReadingJudging(app: App, hash: Hash, manifest: Manifest, todo: seq<Doc>, seen: seq<Health.Reading>, live: Live,
                       now: Time)
    requires todo != []
    ensures JudgesFor(AfterReading(app, hash, manifest, todo, seen, live, now), app, manifest)
  {
    if !live.Uncomputable? {
      var more := seen + [Health.Reading(todo[0], live)];
      AssessJudging(app, hash, manifest, more, Tally(more), now);
    }
  }

  lemma PollJudging(w: Worker, a: Response, now: Time)
    requires w.Fetching? || w.Polling?
    ensures var v := Resume(w, a, now);
            Judging(v) ==>
              (w.Fetching? && a.GotRelease? && JudgesFor(v, w.app, a.manifest)) ||
              (w.Polling? && JudgesFor(v, w.app, w.manifest))
  {
    if w.Fetching? {
      if a.GotRelease? { AssessJudging(w.app, w.hash, a.manifest, [], NO_WORKLOADS, now); }
    } else if w.todo != [] {
      if a.GotLive? { ReadingJudging(w.app, w.hash, w.manifest, w.todo, w.seen, a.live, now); }
      ReadingJudging(w.app, w.hash, w.manifest, w.todo, w.seen, Missing, now);
    }
  }

  lemma RollbackNotJudging(w: Worker, a: Response, now: Time)
    requires w.RollingBack? || w.Refetching?
    ensures !Judging(Resume(w, a, now))
  {
    var app := w.app;
    if w.RollingBack? {
      if a.Failure? {
        SetDegradedShape(app, app.status, "RollbackFailed", Because("helm rollback", app.key.name, a.error),
                         HEALTH_POLL, now);
      }
    } else {
      if a.GotRelease? {
        SetDegradedShape(app, app.status.(revision := a.revision), "RolledBack", FailedRevision(app.status.lastFailed),
                         STEADY_POLL, now);
      }
      SetDegradedShape(app, app.status, "RolledBack", FailedRevision(app.status.lastFailed), STEADY_POLL, now);
    }
  }

  lemma ResumeJudging(w: Worker, a: Response, now: Time)
    requires !w.Idle?
    ensures var v := Resume(w, a, now);
            Judging(v) ==>
              (w.Fetching? && a.GotRelease? && JudgesFor(v, w.app, a.manifest)) ||
              (w.Polling? && JudgesFor(v, w.app, w.manifest))
  {
    if w.Fetching? || w.Polling? { PollJudging(w, a, now); }
    else if w.RollingBack? || w.Refetching? { RollbackNotJudging(w, a, now); }
    else if w.ReadingSecret? && a.GotSecret? { AfterSecretNotJudging(w.app, w.ref, a.data, now); }
  }

  lemma AfterSecretNotJudging(app: App, ref: SecretRef, data: Secret, now: Time)
    ensures !Judging(AfterSecret(app, ref, data, now))
  {
  }

  lemma FetchReply(c: Cluster, app: App, hash: Hash, o: Outcome)
    ensures var (d, a) := Serve(c, NextCall(Fetching(app, hash)), o);
            d == c && (a.GotRelease? ==>
                         ReleaseOf(app) in c.releases && Latest(c.releases[ReleaseOf(app)]).manifest == a.manifest)
  {
  }

  lemma CallJudging(s: State, o: Outcome)
    requires JudgesLatest(s.cluster, s.worker) && !s.worker.Idle?
    ensures JudgesLatest(Step(s, Call(o)).cluster, Step(s, Call(o)).worker)
  {
    var w := s.worker;
    var (d, a) := Serve(s.cluster, NextCall(w), o);
    ResumeJudging(w, a, d.clock);
    if w.Fetching? { FetchReply(s.cluster, w.app, w.hash, o); }
    if w.Polling? { PollChangesNothing(s.cluster, w, o); }
  }

  lemma PollChangesNothing(c: Cluster, w: Worker, o: Outcome)
    requires w.Polling?
    ensures Serve(c, NextCall(w), o).0 == c
  {
  }

  /** A pass that has just reached the rollback holds the stored Application. */
  lemma MarkerArrives(s: State, o: Outcome)
    requires SoundState(s) && !s.worker.Idle? && Step(s, Call(o)).worker.RollingBack?
    ensures var t := Step(s, Call(o));
            t.worker.app.key in t.cluster.apps && t.cluster.apps[t.worker.app.key] == t.worker.app
  {
    var (d, a) := Serve(s.cluster, NextCall(s.worker), o);
    RecordComes(s.worker, a, d.clock);
    ResumeRollback(s.worker, a, d.clock);
    MarkerReply(s.cluster, s.worker, o);
  }

  lemma CallKnown(s: State, o: Outcome)
    requires KnownInv(s) && !s.worker.Idle? && Orderly(s, Call(o))
    ensures KnownInv(Step(s, Call(o)))
  {
    var t := Step(s, Call(o));
    StepMirror(s, Call(o));
    StepHonest(s, Call(o));
    StepRestored(s, Call(o));
    CallJudging(s, o);
    forall k | k in t.cluster.apps ensures Accounted(t, k) { CallAccounted(s, o, k); }
  }

  lemma StepKnown(s: State, e: Event)
    requires KnownInv(s) && Orderly(s, e)
    ensures KnownInv(Step(s, e))
  {
    match e
    case Env(step) => EnvKnown(s, step);
    case Call(o) => if !s.worker.Idle? { CallKnown(s, o); }
    case _ => OtherKnown(s, e);
  }

  lemma OtherKnown(s: State, e: Event)
    requires KnownInv(s) && (e.Begin? || e.Crash?) && Orderly(s, e)
    ensures KnownInv(Step(s, e))
  {
    StepMirror(s, e);
    StepHonest(s, e);
    StepRestored(s, e);
    forall k | k in s.cluster.apps ensures Accounted(Step(s, e), k) { assert Accounted(s, k); }
  }

  /** What the last upgrade replaced had been persisted as Deployed. */
  ghost predicate ReplacedGood(log: seq<Entry>, uid: nat) {
    Replaced(log, uid).Some? && Good(log, uid, Replaced(log, uid).value)
  }

  /** In orderly runs, a rollback that takes effect lands on known-good content if and only if the last upgrade started
      from known-good content. */
  lemma KnownGoodExactly(s: State, events: seq<Event>, i: nat)
    requires Initial(s) && OrderlyRun(s, events) && i < |Run(s, events).log| && Restores(Run(s, events).log, i)
    ensures var log := Run(s, events).log;
            Good(log[..i], log[i].uid, log[i].restored.value) <==> ReplacedGood(log[..i], log[i].uid)
  {
    RollbackRestoresReplaced(s, events, i);
  }

  // ---------- upgrades made with care ----------

  /** Upgrades of this Application are made with care: from a release that is on record, and either Deployed or
      completely rolled back. */
  predicate Careful(s: State, e: Event, uid: nat) {
    e.Call? && s.worker.Applying? && s.worker.app.uid == uid && Executes(s.cluster, NextCall(s.worker), e.outcome) &&
    ReleaseOf(s.worker.app) in s.cluster.releases ==>
      var st := s.worker.app.status;
      Recorded(s.log, uid) &&
      ((st.phase == Phase.Deployed && st.lastFailed == 0) ||
       (st.lastFailed != 0 && |s.cluster.releases[ReleaseOf(s.worker.app)]| == st.lastFailed + 1))
  }

  predicate CarefulRun(s: State, events: seq<Event>, uid: nat)
    decreases |events|
  {
    events == [] ||
    (Orderly(s, events[0]) && Careful(s, events[0], uid) && CarefulRun(Step(s, events[0]), events[1..], uid))
  }

  ghost predicate ReplacedFine(log: seq<Entry>, uid: nat) {
    Replaced(log, uid).Some? ==> Good(log, uid, Replaced(log, uid).value)
  }

  /** The Application is being deleted, or gone: it will not be rolled back any more. */
  ghost predicate Condemned(c: Cluster, uid: nat) {
    uid < c.uids && forall k :: k in c.apps && c.apps[k].uid == uid ==> c.apps[k].deleting
  }

  ghost predicate CarefulInv(s: State, uid: nat) {
    && KnownInv(s)
    && (ReplacedFine(s.log, uid) ||
        (Condemned(s.cluster, uid) && !(s.worker.RollingBack? && s.worker.app.uid == uid)))
    && (forall i :: 0 <= i < |s.log| && IsRollback(s.log[i], uid) ==> ReplacedFine(s.log[..i], uid))
  }

  lemma ReplacedFineLater(log: seq<Entry>, more: seq<Entry>, uid: nat)
    requires ReplacedFine(log, uid) && |more| <= 1 && (more != [] ==> !IsHelmApply(more[0], uid))
    ensures ReplacedFine(log + more, uid)
  {
    ReplacedMore(log, more, uid);
    if Replaced(log, uid).Some? { GoodLater(log, more, uid, Replaced(log, uid).value); }
  }

  lemma CondemnedLater(s: State, e: Event, uid: nat)
    requires LifeInv(s) && Orderly(s, e) && Condemned(s.cluster, uid)
    ensures Condemned(Step(s, e).cluster, uid)
  {
    StepSound(s, e);
    StatusOrigins(s, e);
    var d := Step(s, e).cluster;
    forall k | k in d.apps && d.apps[k].uid == uid ensures d.apps[k].deleting {
      assert StatusOrigin(s, e, k);
      if k in s.cluster.apps {
        match e
        case Env(step) => EnvKeeps(s, step, k);
        case Call(o) => if !s.worker.Idle? { CallApps(s, o); assert CarriedOver(s.cluster.apps[k], d.apps[k]); }
        case _ =>
      }
    }
  }

  /** A pass does not get to the rollback of an Application that is being deleted. */
  lemma CondemnedNotRolledBack(s: State, e: Event, uid: nat)
    requires SoundState(s) && InStep(Step(s, e)) && Condemned(Step(s, e).cluster, uid)
    requires !(s.worker.RollingBack? && s.worker.app.uid == uid)
    ensures var t := Step(s, e); !(t.worker.RollingBack? && t.worker.app.uid == uid)
  {
    if e.Call? && !s.worker.Idle? && Step(s, e).worker.RollingBack? { MarkerArrives(s, e.outcome); }
  }

  /** Upgrades made with care start from good content. */
  lemma CarefulUpgrade(c: Cluster, log: seq<Entry>, app: App)
    requires Recorded(log, app.uid) && ReplacedFine(log, app.uid) && ReleaseOf(app) in c.releases
    requires Accounts(log, app.uid, app.status, c.releases[ReleaseOf(app)]) && Mirrors(c, app)
    requires (app.status.phase == Phase.Deployed && app.status.lastFailed == 0) ||
             (app.status.lastFailed != 0 && |c.releases[ReleaseOf(app)]| == app.status.lastFailed + 1)
    ensures Good(log, app.uid, Latest(c.releases[ReleaseOf(app)]).manifest)
  {
  }

  lemma UpgradeFine(s: State, o: Outcome, uid: nat)
    requires CarefulInv(s, uid) && Careful(s, Call(o), uid)
    requires s.worker.Applying? && s.worker.app.uid == uid && Executes(s.cluster, NextCall(s.worker), o)
    ensures ReplacedFine(s.log + CallEntries(s, o), uid) || Condemned(s.cluster, uid)
  {
    var app, rk := s.worker.app, ReleaseOf(s.worker.app);
    ReplacedMore(s.log, CallEntries(s, o), uid);
    if s.cluster.apps[app.key].deleting {
      forall k | k in s.cluster.apps && s.cluster.apps[k].uid == uid ensures s.cluster.apps[k].deleting {
        assert k == app.key;
      }
    } else if rk in s.cluster.releases {
      UpgradesGood(s, uid);
      GoodLater(s.log, CallEntries(s, o), uid, Latest(s.cluster.releases[rk]).manifest);
    }
  }

  lemma UpgradesGood(s: State, uid: nat)
    requires KnownInv(s) && ReplacedFine(s.log, uid) && s.worker.Applying? && s.worker.app.uid == uid
    requires var st := s.worker.app.status;
             Recorded(s.log, uid) &&
             ((st.phase == Phase.Deployed && st.lastFailed == 0) ||
              (st.lastFailed != 0 && ReleaseOf(s.worker.app) in s.cluster.releases &&
               |s.cluster.releases[ReleaseOf(s.worker.app)]| == st.lastFailed + 1))
    requires ReleaseOf(s.worker.app) in s.cluster.releases && !s.cluster.apps[s.worker.app.key].deleting
    ensures Good(s.log, uid, Latest(s.cluster.releases[ReleaseOf(s.worker.app)]).manifest)
  {
    OwnStored(s);
    assert Accounted(s, s.worker.app.key) && Agrees(s, s.worker.app.key);
    CarefulUpgrade(s.cluster, s.log, s.cluster.apps[s.worker.app.key]);
  }

  lemma StepCareful(s: State, e: Event, uid: nat)
    requires CarefulInv(s, uid) && Orderly(s, e) && Careful(s, e, uid)
    ensures CarefulInv(Step(s, e), uid)
  {
    var t, es := Step(s, e), Added(s, e);
    StepKnown(s, e);
    StepLogs(s, e);
    StaysFine(s, e, uid);
    RollbackAdded(s, e);
    RollbacksFine(s.log, es, uid);
  }

  lemma RollbacksFine(log: seq<Entry>, more: seq<Entry>, uid: nat)
    requires |more| <= 1
    requires forall i :: 0 <= i < |log| && IsRollback(log[i], uid) ==> ReplacedFine(log[..i], uid)
    requires more != [] && IsRollback(more[0], uid) ==> ReplacedFine(log, uid)
    ensures forall i :: 0 <= i < |log + more| && IsRollback((log + more)[i], uid) ==>
              ReplacedFine((log + more)[..i], uid)
  {
    forall i | 0 <= i < |log + more| && IsRollback((log + more)[i], uid) ensures ReplacedFine((log + more)[..i], uid) {
      if i < |log| {
        assert (log + more)[i] == log[i] && (log + more)[..i] == log[..i];
      } else {
        assert (log + more)[..i] == log && (log + more)[i] == more[0];
      }
    }
  }

  lemma RollbackAdded(s: State, e: Event)
    ensures Added(s, e) != [] && Added(s, e)[0].RollbackIssued? ==>
              s.worker.RollingBack? && Added(s, e)[0].uid == s.worker.app.uid
    ensures Added(s, e) != [] && Added(s, e)[0].HelmApplied? ==>
              e.Call? && s.worker.Applying? && Added(s, e)[0].uid == s.worker.app.uid &&
              Executes(s.cluster, NextCall(s.worker), e.outcome)
  {
  }

  lemma StaysFine(s: State, e: Event, uid: nat)
    requires CarefulInv(s, uid) && Orderly(s, e) && Careful(s, e, uid) && KnownInv(Step(s, e))
    ensures var t := Step(s, e);
            ReplacedFine(t.log, uid) ||
            (Condemned(t.cluster, uid) && !(t.worker.RollingBack? && t.worker.app.uid == uid))
  {
    var es := Added(s, e);
    StepLogs(s, e);
    RollbackAdded(s, e);
    if es != [] && IsHelmApply(es[0], uid) {
      UpgradeFine(s, e.outcome, uid);
      if Condemned(s.cluster, uid) {
        CondemnedLater(s, e, uid);
        CondemnedNotRolledBack(s, e, uid);
      }
    } else if ReplacedFine(s.log, uid) {
      ReplacedFineLater(s.log, es, uid);
    } else {
      CondemnedLater(s, e, uid);
      CondemnedNotRolledBack(s, e, uid);
    }
  }

  lemma {:induction false} RunCareful(s: State, events: seq<Event>, uid: nat)
    requires CarefulInv(s, uid) && CarefulRun(s, events, uid)
    ensures CarefulInv(Run(s, events), uid)
    decreases |events|
  {
    if events != [] {
      StepCareful(s, events[0], uid);
      RunCareful(Step(s, events[0]), events[1..], uid);
    }
  }

  /** When the upgrades of an Application are made with care, each of its rollbacks that takes effect restores a
      manifest that was persisted as Deployed before. */
  lemma RollbackLandsOnKnownGood(s: State, events: seq<Event>, i: nat)
    requires Initial(s) && i < |Run(s, events).log| && Restores(Run(s, events).log, i)
    requires CarefulRun(s, events, Run(s, events).log[i].uid)
    ensures var log := Run(s, events).log;
            Good(log[..i], log[i].uid, log[i].restored.value)
  {
    RunCareful(s, events, Run(s, events).log[i].uid);
    assert LandsBack(Run(s, events).log, i);
  }
}
