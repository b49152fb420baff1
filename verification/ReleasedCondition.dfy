/** What Released=True means: not that the release is deployed, but that no pass has failed since the last persisted
    apply. A Deployed status can carry Released=False. */
module ReleasedCondition {
  import opened Api
  import opened Server
  import opened Health
  import opened Controller
  import opened Machine
  import opened Passes
  import opened Soundness
  import opened Ledger
  import opened Budget
  import opened Steady
  import opened Quiescence
  import opened Latency

  /** The Application has been applied, and since then no failure was put on record. */
  predicate UnbrokenSinceApply(log: seq<Entry>, uid: nat) {
    LastSign(log, Unbroken, uid) == Some(true)
  }

  lemma UnbrokenMore(log: seq<Entry>, more: seq<Entry>, uid: nat)
    requires |more| <= 1
    ensures UnbrokenSinceApply(log + more, uid) ==
            if more != [] && IsApply(more[0], uid) then true
            else if more != [] && IsFailure(more[0], uid) then false
            else UnbrokenSinceApply(log, uid)
  {
    LastSignMore(log, more, Unbroken, uid);
  }

  /** How the condition moves with a write. */
  predicate MovesReleased(w: Worker) {
    match w
    case Persisting(app, status, cause, _) =>
      True(status, Released) ==
      if cause.Applied? then true else if cause.Broke? then false else True(app.status, Released)
    case WritingAhead(app, status) => True(status, Released) == True(app.status, Released)
    case _ => true
  }

  lemma AssessMoves(app: App, hash: Hash, manifest: Manifest, seen: seq<Health.Reading>, a: Assessment, now: Time)
    ensures MovesReleased(Assess(app, hash, manifest, seen, a, now))
  {
  }

  lemma SetDegradedMoves(app: App, local: Status, reason: string, message: Text, seconds: nat, now: Time)
    requires True(local, Released) == True(app.status, Released)
    ensures MovesReleased(SetDegraded(app, local, reason, message, seconds, now))
  {
  }

  lemma ReadingMoves(app: App, hash: Hash, manifest: Manifest, todo: seq<Doc>, seen: seq<Health.Reading>, live: Live,
                     now: Time)
    requires todo != []
    ensures MovesReleased(AfterReading(app, hash, manifest, todo, seen, live, now))
  {
    if !live.Uncomputable? {
      var more := seen + [Health.Reading(todo[0], live)];
      AssessMoves(app, hash, manifest, more, Tally(more), now);
    }
  }

  lemma PollMoves(w: Worker, a: Response, now: Time)
    requires w.Fetching? || w.Polling?
    ensures MovesReleased(Resume(w, a, now))
  {
    if w.Fetching? {
      if a.GotRelease? { AssessMoves(w.app, w.hash, a.manifest, [], NO_WORKLOADS, now); }
    } else if w.todo != [] {
      if a.GotLive? { ReadingMoves(w.app, w.hash, w.manifest, w.todo, w.seen, a.live, now); }
      ReadingMoves(w.app, w.hash, w.manifest, w.todo, w.seen, Missing, now);
    }
  }

  lemma RollbackMoves(w: Worker, a: Response, now: Time)
    requires w.RollingBack? || w.Refetching?
    ensures MovesReleased(Resume(w, a, now))
  {
    var app := w.app;
    if w.RollingBack? {
      if a.Failure? {
        SetDegradedMoves(app, app.status, "RollbackFailed", Because("helm rollback", app.key.name, a.error),
                         HEALTH_POLL, now);
      }
    } else {
      if a.GotRelease? {
        SetDegradedMoves(app, app.status.(revision := a.revision), "RolledBack", FailedRevision(app.status.lastFailed),
                         STEADY_POLL, now);
      }
      SetDegradedMoves(app, app.status, "RolledBack", FailedRevision(app.status.lastFailed), STEADY_POLL, now);
    }
  }

  lemma ResumeMoves(w: Worker, a: Response, now: Time)
    requires !w.Idle?
    ensures MovesReleased(Resume(w, a, now))
  {
    if w.Fetching? || w.Polling? { PollMoves(w, a, now); }
    else if w.RollingBack? || w.Refetching? { RollbackMoves(w, a, now); }
  }

  ghost predicate Tells(s: State, app: App) {
    True(app.status, Released) <==> UnbrokenSinceApply(s.log, app.uid)
  }

  ghost predicate ReleasedInv(s: State) {
    && SoundState(s)
    && LogBelow(s.log, s.cluster.uids)
    && MovesReleased(s.worker)
    && forall k :: k in s.cluster.apps ==> Tells(s, s.cluster.apps[k])
  }

  lemma AddedIsLogged(s: State, e: Event)
    ensures Step(s, e).log == s.log + Added(s, e) && |Added(s, e)| <= 1
    ensures Added(s, e) != [] && Added(s, e)[0].StatusWritten? ==>
            Writes(s, e) && Added(s, e)[0].uid == s.worker.app.uid
    ensures Writes(s, e) ==>
              Added(s, e) != [] && Added(s, e)[0].StatusWritten? && Added(s, e)[0].uid == s.worker.app.uid &&
              Added(s, e)[0].cause == if s.worker.Persisting? then s.worker.cause else Marker
  {
    StepLogs(s, e);
  }

  lemma StoredTells(s: State, e: Event, k: AppKey)
    requires ReleasedInv(s) && k in Step(s, e).cluster.apps
    ensures Tells(Step(s, e), Step(s, e).cluster.apps[k])
  {
    var now := Step(s, e).cluster.apps[k];
    StatusOrigins(s, e);
    assert StatusOrigin(s, e, k);
    AddedIsLogged(s, e);
    UnbrokenMore(s.log, Added(s, e), now.uid);
    if k in s.cluster.apps {
      assert Tells(s, s.cluster.apps[k]);
      if Writes(s, e) && k != s.worker.app.key { assert s.cluster.apps[s.worker.app.key].uid == s.worker.app.uid; }
    } else {
      FreshUnsigned(s.log, s.cluster.uids, Unbroken, now.uid);
    }
  }

  lemma StepReleased(s: State, e: Event)
    requires ReleasedInv(s)
    ensures ReleasedInv(Step(s, e))
  {
    StepSound(s, e);
    LogStaysBelow(s, e);
    forall k | k in Step(s, e).cluster.apps ensures Tells(Step(s, e), Step(s, e).cluster.apps[k]) {
      StoredTells(s, e, k);
    }
    if e.Call? && !s.worker.Idle? {
      var (d, a) := Serve(s.cluster, NextCall(s.worker), e.outcome);
      ResumeMoves(s.worker, a, d.clock);
    }
  }

  lemma {:induction false} RunReleased(s: State, events: seq<Event>)
    requires ReleasedInv(s)
    ensures ReleasedInv(Run(s, events))
    decreases |events|
  {
    if events != [] {
      StepReleased(s, events[0]);
      RunReleased(Step(s, events[0]), events[1..]);
    }
  }

  /** In every run, faults, crashes and stale reads included: a stored Application says Released=True exactly if no
      failure was recorded since its last persisted apply, whatever its phase. */
  lemma ReleasedExactly(s: State, events: seq<Event>, k: AppKey)
    requires Initial(s) && k in Run(s, events).cluster.apps
    ensures var t := Run(s, events);
            True(t.cluster.apps[k].status, Released) <==> UnbrokenSinceApply(t.log, t.cluster.apps[k].uid)
  {
    RunReleased(s, events);
    assert Tells(Run(s, events), Run(s, events).cluster.apps[k]);
  }

  // ---------- Deployed, yet not Released ----------

  /** Applied, healthy, with nothing on record against it, and with its values in a Secret. */
  predicate Healthily(c: Cluster, key: AppKey, nature: Nature) {
    && key in c.apps
    && var app := c.apps[key];
       && app.key == key && app.finalizer && !app.deleting && app.status.lastFailed == 0
       && app.spec.valuesRef.Some? && Clean(c, app)
       && Outlook(c, app, nature).Some? && Outlook(c, app, nature).value.grade == Current
  }

  function SecretOf(app: App): SecretKey
    requires app.spec.valuesRef.Some?
  {
    SecretKey(app.key.namespace, app.spec.valuesRef.value.name)
  }

  lemma HealthyPass(c: Cluster, key: AppKey, nature: Nature)
    requires Healthily(c, key, nature)
    ensures var app := c.apps[key];
            Quiet(c, Worker.Reading(key), nature).0 ==
            Put(c, app, DeployedStatus(app, Outlook(c, app, nature).value.detail, c.clock))
  {
    var app := c.apps[key];
    VisitReads(c, key, nature);
    var m, seen := QuietFetch(c, app, app.status.valuesHash, nature);
    QuietWrite(c, key, app, DeployedStatus(app, Outlook(c, app, nature).value.detail, c.clock),
               Claim(app.status.valuesHash, m, seen), RequeueAfter(STEADY_POLL), nature);
  }

  /** The pass that misses the Secret puts Released to False. */
  lemma MissedPass(c: Cluster, key: AppKey, nature: Nature)
    requires Healthily(c, key, nature)
    ensures var c1 := Environment(c, DropSecret(SecretOf(c.apps[key])));
            var c2 := Quiet(c1, Worker.Reading(key), nature).0;
            key in c2.apps && !True(c2.apps[key].status, Released) &&
            SameBooks(c.apps[key].status, c2.apps[key].status) &&
            SameDesire(c.apps[key], c2.apps[key]) && !c2.apps[key].deleting && c2.apps[key].finalizer &&
            c2.secrets == c1.secrets && c2.releases == c.releases
  {
    var app := c.apps[key];
    var c1 := Environment(c, DropSecret(SecretOf(app)));
    ReadOnce(c1, key, nature);
    FailedPath(c1, key, app, nature);
    PutFrozen(c1, key, app, FailedStatus(app, "ValuesError", FailedTarget(c1, app).conditions[Ready].message,
                                         c1.clock));
  }

  /** An Application whose values Secret goes missing for one pass, and comes back as it was, ends up Deployed with
      Released=False; and so it stays, for no apply is due. */
  lemma DeployedNotReleased(c: Cluster, key: AppKey, nature: Nature)
    requires Healthily(c, key, nature)
    ensures var secret := SecretOf(c.apps[key]);
            var c2 := Quiet(Environment(c, DropSecret(secret)), Worker.Reading(key), nature).0;
            var c3 := Environment(c2, PutSecret(secret, c.secrets[secret]));
            var c4 := Quiet(c3, Worker.Reading(key), nature).0;
            key in c4.apps && c4.apps[key].status.phase == Phase.Deployed && !True(c4.apps[key].status, Released) &&
            Clean(c4, c4.apps[key])
  {
    var app := c.apps[key];
    var secret := SecretOf(app);
    var c2 := Quiet(Environment(c, DropSecret(secret)), Worker.Reading(key), nature).0;
    MissedPass(c, key, nature);
    var c3 := Environment(c2, PutSecret(secret, c.secrets[secret]));
    assert c3.secrets == c.secrets;
    RecoveredPass(c3, key, nature);
  }

  /** A healthy pass leaves Released as it is. */
  lemma RecoveredPass(c: Cluster, key: AppKey, nature: Nature)
    requires Healthily(c, key, nature)
    ensures var d := Quiet(c, Worker.Reading(key), nature).0;
            key in d.apps && d.apps[key].status.phase == Phase.Deployed && Clean(d, d.apps[key]) &&
            True(d.apps[key].status, Released) == True(c.apps[key].status, Released)
  {
    var app := c.apps[key];
    HealthyPass(c, key, nature);
    var s := DeployedStatus(app, Outlook(c, app, nature).value.detail, c.clock);
    PutFrozen(c, key, app, s);
    FrozenHash(c, Put(c, app, s), key, app);
  }
}
