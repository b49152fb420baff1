/** Rounds upon rounds, of any Applications in any order: how often reconciling each of them can still change the
    cluster, when that ends, and what the cluster then looks like. */
module Fixpoint {
  import opened Api
  import opened Server
  import opened Controller
  import opened Machine
  import opened Passes
  import opened Soundness
  import opened Budget
  import opened Coherence
  import opened Steady
  import opened Neighbours
  import opened Quiescence

  /** The Application is not being deleted, and the cluster is one that a run can reach. */
  ghost predicate Settling(c: Cluster, key: AppKey) {
    Sound(c) && (key in c.apps ==> !c.apps[key].deleting)
  }

  /** Whose turn it is, and how long after the turn before. */
  datatype Slot = Slot(key: AppKey, gap: nat)

  ghost function Rounds(c: Cluster, slots: seq<Slot>, nature: Nature): Cluster
    decreases |slots|
  {
    if slots == [] then c else Rounds(Round(c, slots[0].key, slots[0].gap, nature), slots[1..], nature)
  }

  /** None of the others that take turns deploys to this Application's release. */
  predicate OwnRelease(c: Cluster, key: AppKey, slots: seq<Slot>) {
    forall i :: 0 <= i < |slots| ==> Apart(c, slots[i].key, key)
  }

  /** The number of an Application's rounds that change something. */
  ghost function Changes(c: Cluster, key: AppKey, slots: seq<Slot>, nature: Nature): nat
    decreases |slots|
  {
    if slots == [] then 0
    else
      var d := Round(c, slots[0].key, slots[0].gap, nature);
      (if slots[0].key != key || Unchanged(c, d) then 0 else 1) + Changes(d, key, slots[1..], nature)
  }

  // ---------- one round ----------

  /** Waiting brings an Application no further from rest: an expired deadline only leaves less to do. */
  lemma TickMeasure(c: Cluster, key: AppKey, dt: nat, nature: Nature)
    ensures Measure(Environment(c, Tick(dt)), key, nature) <= Measure(c, key, nature) <= 8
  {
    var d := Environment(c, Tick(dt));
    if key in c.apps {
      var app := c.apps[key];
      assert CurrentHash(d, app) == CurrentHash(c, app);
      assert Outlook(d, app, nature) == Outlook(c, app, nature);
      if Outlook(c, app, nature).Some? { HealthTick(app, Outlook(c, app, nature).value, c.clock, dt); }
    }
  }

  lemma HealthTick(app: App, a: Health.Assessment, now: Time, dt: nat)
    ensures HealthMeasure(app, a, now + dt) <= HealthMeasure(app, a, now)
  {
  }

  /** A round of the Application itself keeps it where rounds make sense; it changes nothing, or brings it closer to
      rest. */
  lemma RoundSettles(c: Cluster, key: AppKey, dt: nat, nature: Nature)
    requires Settling(c, key)
    ensures var d := Round(c, key, dt, nature);
            Settling(d, key) && (key in c.apps ==> key in d.apps) &&
            Measure(d, key, nature) <= Measure(c, key, nature) <= 8 &&
            (Unchanged(c, d) || Measure(d, key, nature) < Measure(c, key, nature))
  {
    var e := Environment(c, Tick(dt));
    TickMeasure(c, key, dt, nature);
    EnvironmentSound(c, Tick(dt));
    QuietKeeps(e, Worker.Reading(key), nature);
    PassSettles(e, key, nature);
  }

  lemma LeftAloneMeasure(c: Cluster, d: Cluster, key: AppKey, nature: Nature)
    requires LeftAlone(c, d, key) && d.secrets == c.secrets && d.clock == c.clock
    ensures Measure(d, key, nature) == Measure(c, key, nature)
  {
    if key in c.apps {
      var app := c.apps[key];
      assert CurrentHash(d, app) == CurrentHash(c, app);
      assert Outlook(d, app, nature) == Outlook(c, app, nature);
    }
  }

  /** A round of another Application brings this one no further from rest. */
  lemma OtherRound(c: Cluster, key: AppKey, slot: Slot, nature: Nature)
    requires Settling(c, key) && slot.key != key && Apart(c, slot.key, key)
    ensures var d := Round(c, slot.key, slot.gap, nature);
            Settling(d, key) && (key in c.apps ==> key in d.apps) && Measure(d, key, nature) <= Measure(c, key, nature)
  {
    var e := Environment(c, Tick(slot.gap));
    TickMeasure(c, key, slot.gap, nature);
    EnvironmentSound(c, Tick(slot.gap));
    QuietKeeps(e, Worker.Reading(slot.key), nature);
    PassLeavesAlone(e, slot.key, key, nature);
    LeftAloneMeasure(e, Quiet(e, Worker.Reading(slot.key), nature).0, key, nature);
  }

  lemma StillOwn(c: Cluster, key: AppKey, slot: Slot, slots: seq<Slot>, nature: Nature)
    requires Sound(c) && OwnRelease(c, key, slots)
    ensures OwnRelease(Round(c, slot.key, slot.gap, nature), key, slots)
  {
    var e := Environment(c, Tick(slot.gap));
    EnvironmentSound(c, Tick(slot.gap));
    forall i | 0 <= i < |slots| ensures Apart(Round(c, slot.key, slot.gap, nature), slots[i].key, key) {
      assert Apart(c, slots[i].key, key);
      StillApart(e, Worker.Reading(slot.key), slots[i].key, key, nature);
    }
  }

  /** Any round, whosever it is. */
  lemma AnyRound(c: Cluster, key: AppKey, slots: seq<Slot>, nature: Nature)
    requires Settling(c, key) && OwnRelease(c, key, slots) && slots != []
    ensures var d := Round(c, slots[0].key, slots[0].gap, nature);
            Settling(d, key) && OwnRelease(d, key, slots[1..]) && (key in c.apps ==> key in d.apps) &&
            Measure(d, key, nature) <= Measure(c, key, nature) <= 8 &&
            (slots[0].key == key ==> Unchanged(c, d) || Measure(d, key, nature) < Measure(c, key, nature))
  {
    assert Apart(c, slots[0].key, key);
    StillOwn(c, key, slots[0], slots[1..], nature);
    TickMeasure(c, key, 0, nature);
    if slots[0].key == key { RoundSettles(c, key, slots[0].gap, nature); }
    else { OtherRound(c, key, slots[0], nature); }
  }

  // ---------- how much can still happen ----------

  /** Quiescence: however often an Application is reconciled, however much time passes in between, and whatever other
      Applications are reconciled meanwhile, at most eight of its rounds change anything. */
  lemma {:induction false} ChangesAreBounded(c: Cluster, key: AppKey, slots: seq<Slot>, nature: Nature)
    requires Settling(c, key) && OwnRelease(c, key, slots)
    ensures Changes(c, key, slots, nature) + Measure(Rounds(c, slots, nature), key, nature)
            <= Measure(c, key, nature) <= 8
    ensures Settling(Rounds(c, slots, nature), key) && (key in c.apps ==> key in Rounds(c, slots, nature).apps)
    decreases |slots|
  {
    TickMeasure(c, key, 0, nature);
    if slots != [] {
      AnyRound(c, key, slots, nature);
      ChangesAreBounded(Round(c, slots[0].key, slots[0].gap, nature), key, slots[1..], nature);
    }
  }

  /** Writes a pass can still make. */
  function WritesLeft(w: Worker): nat {
    match w
    case Idle(_) => 0
    case Persisting(_, _, _, _) => 1
    case AddingFinalizer(_) => 1
    case RollingBack(_) => 1
    case Refetching(_) => 1
    case _ => if OnTheWayOut(w) then 1 else 2
  }

  lemma ServeWrites(c: Cluster, w: Worker, o: Outcome)
    requires !w.Idle?
    ensures var r := NextCall(w);
            c.version <= Serve(c, r, o).0.version <= c.version + if r.Update? || r.UpdateStatus? then 1 else 0
  {
  }

  lemma ResumeWrites(w: Worker, a: Response, now: Time)
    requires !w.Idle?
    ensures var r := NextCall(w);
            WritesLeft(Resume(w, a, now)) + (if r.Update? || r.UpdateStatus? then 1 else 0) <= WritesLeft(w)
  {
    if w.Fetching? || w.Polling? { PollConcludes(w, a, now); }
    else if w.ReadingSecret? && a.GotSecret? { AfterSecretShape(w.app, w.ref, a.data, now); }
    else if w.RollingBack? || w.Refetching? { DegradingWrites(w, a, now); }
    else { OtherWrites(w, a, now); }
  }

  lemma OtherWrites(w: Worker, a: Response, now: Time)
    requires !w.Idle? && !w.Fetching? && !w.Polling? && !w.RollingBack? && !w.Refetching?
    requires !(w.ReadingSecret? && a.GotSecret?)
    ensures var r := NextCall(w);
            WritesLeft(Resume(w, a, now)) + (if r.Update? || r.UpdateStatus? then 1 else 0) <= WritesLeft(w)
  {
  }

  lemma DegradingWrites(w: Worker, a: Response, now: Time)
    requires w.RollingBack? || w.Refetching?
    ensures WritesLeft(Resume(w, a, now)) <= 1
  {
  }

  /** A pass stores at most two versions of anything. */
  lemma {:induction false} QuietWrites(c: Cluster, w: Worker, nature: Nature)
    ensures c.version <= Quiet(c, w, nature).0.version <= c.version + WritesLeft(w)
    decreases Stage(w), Todo(w)
  {
    if !w.Idle? {
      var (d, a) := Serve(c, NextCall(w), OutcomeFor(w, nature));
      ResumeDescends(w, a, d.clock);
      ServeWrites(c, w, OutcomeFor(w, nature));
      ResumeWrites(w, a, d.clock);
      QuietWrites(d, Resume(w, a, d.clock), nature);
    }
  }

  /** The versions stored in the rounds of these Applications. */
  ghost function Written(c: Cluster, keys: set<AppKey>, slots: seq<Slot>, nature: Nature): int
    decreases |slots|
  {
    if slots == [] then 0
    else
      var d := Round(c, slots[0].key, slots[0].gap, nature);
      (if slots[0].key in keys then d.version - c.version else 0) + Written(d, keys, slots[1..], nature)
  }

  lemma RoundWrites(c: Cluster, slot: Slot, nature: Nature)
    ensures var d := Round(c, slot.key, slot.gap, nature);
            c.version <= d.version <= c.version + if Unchanged(c, d) then 0 else 2
  {
    QuietWrites(Environment(c, Tick(slot.gap)), Worker.Reading(slot.key), nature);
  }

  /** An Application's rounds write at most twice for each change. */
  lemma {:induction false} OwnWrites(c: Cluster, key: AppKey, slots: seq<Slot>, nature: Nature)
    requires Settling(c, key) && OwnRelease(c, key, slots)
    ensures 0 <= Written(c, {key}, slots, nature) <= 2 * Changes(c, key, slots, nature)
    decreases |slots|
  {
    if slots != [] {
      AnyRound(c, key, slots, nature);
      RoundWrites(c, slots[0], nature);
      OwnWrites(Round(c, slots[0].key, slots[0].gap, nature), key, slots[1..], nature);
    }
  }

  lemma {:induction false} WrittenSplits(c: Cluster, keys: set<AppKey>, key: AppKey, slots: seq<Slot>, nature: Nature)
    requires key in keys
    ensures Written(c, keys, slots, nature) ==
            Written(c, {key}, slots, nature) + Written(c, keys - {key}, slots, nature)
    decreases |slots|
  {
    if slots != [] { WrittenSplits(Round(c, slots[0].key, slots[0].gap, nature), keys, key, slots[1..], nature); }
  }

  lemma {:induction false} WrittenByNone(c: Cluster, slots: seq<Slot>, nature: Nature)
    ensures Written(c, {}, slots, nature) == 0
    decreases |slots|
  {
    if slots != [] { WrittenByNone(Round(c, slots[0].key, slots[0].gap, nature), slots[1..], nature); }
  }

  lemma {:induction false} WrittenByAll(c: Cluster, keys: set<AppKey>, slots: seq<Slot>, nature: Nature)
    requires forall i :: 0 <= i < |slots| ==> slots[i].key in keys
    ensures Rounds(c, slots, nature).version == c.version + Written(c, keys, slots, nature)
    decreases |slots|
  {
    if slots != [] { WrittenByAll(Round(c, slots[0].key, slots[0].gap, nature), keys, slots[1..], nature); }
  }

  lemma {:induction false} WrittenBounded(c: Cluster, keys: set<AppKey>, slots: seq<Slot>, nature: Nature)
    requires forall k :: k in keys ==> Settling(c, k) && OwnRelease(c, k, slots)
    ensures Written(c, keys, slots, nature) <= 16 * |keys|
    decreases |keys|
  {
    if keys == {} {
      WrittenByNone(c, slots, nature);
    } else {
      var key :| key in keys;
      OwnWrites(c, key, slots, nature);
      ChangesAreBounded(c, key, slots, nature);
      WrittenSplits(c, keys, key, slots, nature);
      WrittenBounded(c, keys - {key}, slots, nature);
    }
  }

  /** So the loop by which a write triggers a reconcile that writes again dies out: in any number of rounds, of any
      Applications in any order, at most sixteen writes are made for each Application. */
  lemma WritesAreBounded(c: Cluster, keys: set<AppKey>, slots: seq<Slot>, nature: Nature)
    requires forall i :: 0 <= i < |slots| ==> slots[i].key in keys
    requires forall k :: k in keys ==> Settling(c, k) && OwnRelease(c, k, slots)
    ensures Rounds(c, slots, nature).version <= c.version + 16 * |keys|
  {
    WrittenByAll(c, keys, slots, nature);
    WrittenBounded(c, keys, slots, nature);
  }

  // ---------- when nothing happens any more ----------

  /** Every Application that takes a turn is at rest. */
  ghost predicate AtRest(c: Cluster, slots: seq<Slot>, nature: Nature) {
    forall i :: 0 <= i < |slots| ==> Settling(c, slots[i].key) && Measure(c, slots[i].key, nature) == 0
  }

  lemma RestRound(c: Cluster, slots: seq<Slot>, nature: Nature)
    requires AtRest(c, slots, nature) && slots != []
    ensures var d := Round(c, slots[0].key, slots[0].gap, nature); Unchanged(c, d) && AtRest(d, slots[1..], nature)
  {
    var e, d := Environment(c, Tick(slots[0].gap)), Round(c, slots[0].key, slots[0].gap, nature);
    assert Settling(c, slots[0].key) && Measure(c, slots[0].key, nature) == 0;
    RoundSettles(c, slots[0].key, slots[0].gap, nature);
    EnvironmentSound(c, Tick(slots[0].gap));
    QuietKeeps(e, Worker.Reading(slots[0].key), nature);
    assert d == e;
    forall i | 0 <= i < |slots[1..]|
      ensures Settling(d, slots[1..][i].key) && Measure(d, slots[1..][i].key, nature) == 0
    {
      assert slots[1..][i] == slots[i + 1];
      TickMeasure(c, slots[i + 1].key, slots[0].gap, nature);
    }
  }

  /** At rest, rounds change nothing, for ever. */
  lemma {:induction false} RestLasts(c: Cluster, slots: seq<Slot>, nature: Nature)
    requires AtRest(c, slots, nature)
    ensures Unchanged(c, Rounds(c, slots, nature))
    decreases |slots|
  {
    if slots != [] {
      RestRound(c, slots, nature);
      RestLasts(Round(c, slots[0].key, slots[0].gap, nature), slots[1..], nature);
    }
  }

  /** A rollout that is neither healthy nor failed, and whose deadline is still to expire. */
  predicate Waiting(c: Cluster, key: AppKey, nature: Nature) {
    ShowsProgress(c, key, nature) && c.apps[key].status.started.Some?
  }

  lemma PutUnchanged(c: Cluster, app: App, s: Status)
    requires Put(c, app, s) == c
    ensures s == app.status
  {
  }

  lemma FailedRest(c: Cluster, key: AppKey, app: App, nature: Nature)
    requires Holds(c, key, app) && app.finalizer && CurrentHash(c, app).None?
    requires Quiet(c, AfterRead(app), nature).0 == c
    ensures Differs(app, FailedTarget(c, app)) == 0
  {
    FailedPath(c, key, app, nature);
    var reason, cause := "ValuesError", FailedTarget(c, app).conditions[Ready].message;
    PutUnchanged(c, app, FailedStatus(app, reason, cause, c.clock));
    StampFixed(app.status, app.generation, Phase.Failed, Released, false, reason, cause, Ready, false, reason, cause,
               c.clock, 0);
  }

  /** An apply always shows. */
  lemma ApplyShows(c: Cluster, key: AppKey, app: App, values: Option<string>, nature: Nature)
    requires Holds(c, key, app) && app.finalizer && CurrentHash(c, app) == Some(HashValues(values))
    requires NeedsApply(app, HashValues(values))
    ensures Quiet(c, FindingNamespace(app, values), nature).0 != c
  {
    NamespacePath(c, app, values, nature);
    var e := Ensured(c, app.spec.namespace);
    HelmPath(e, app, values, nature);
    var source := SourceOf(app.spec, values);
    var f := WithRevision(e, ReleaseOf(app), Revision(source, nature.render(source)));
    QuietPersist(f, key, app, AppliedStatus(app, values, |f.releases[ReleaseOf(app)]|, c.clock), Applied(source),
                 RequeueAfter(HEALTH_POLL), nature);
  }

  lemma DeployedRest(c: Cluster, app: App, a: Health.Assessment)
    requires Put(c, app, DeployedStatus(app, a.detail, c.clock)) == c
    ensures Differs(app, DeployedStatus(app, a.detail, 0)) == 0
  {
    PutUnchanged(c, app, DeployedStatus(app, a.detail, c.clock));
    StampFixed(app.status, app.generation, Phase.Deployed, Healthy, true, "AllWorkloadsCurrent", a.detail, Ready, true,
               "Deployed", Plain("release deployed and healthy"), c.clock, 0);
  }

  lemma ProgressRest(c: Cluster, app: App, a: Health.Assessment)
    requires Put(c, app, ProgressStatus(app, a.detail, c.clock)) == c
    ensures Differs(app, ProgressStatus(app, a.detail, 0)) == 0
  {
    PutUnchanged(c, app, ProgressStatus(app, a.detail, c.clock));
    StampFixed(app.status, app.generation, Phase.Deploying, Healthy, false, "Progressing", a.detail, Ready, false,
               "Progressing", a.detail, c.clock, 0);
  }

  lemma DegradedRest(c: Cluster, app: App, a: Health.Assessment)
    requires Put(c, app, DegradedNow(app, a, c.clock)) == c
    ensures Differs(app, DegradedNow(app, a, 0)) == 0
  {
    PutUnchanged(c, app, DegradedNow(app, a, c.clock));
    var reason := UnhealthyReason(a.grade);
    var note := if app.status.lastFailed != 0 then " (already rolled back; awaiting a spec fix)"
                else " (no previous revision to roll back to)";
    var m := WithNote(UnhealthyDetail(app, a), note);
    StampFixed(app.status, app.generation, Phase.Degraded, Healthy, false, reason, m, Ready, false, "Degraded", m,
               c.clock, 0);
  }

  /** A rollback always shows. */
  lemma MarkerShows(c: Cluster, key: AppKey, app: App, s: Status, nature: Nature)
    requires Holds(c, key, app) && s != app.status
    ensures Quiet(c, WritingAhead(app, s), nature).0 != c
  {
    MarkerPath(c, key, app, s, nature);
    var d := Store(c, app.(status := s));
    QuietWrites(d, Worker.RollingBack(d.apps[key]), nature);
  }

  lemma HealthRest(c: Cluster, key: AppKey, app: App, hash: Hash, nature: Nature)
    requires Holds(c, key, app) && UpToDate(c, app) && !Waiting(c, key, nature)
    requires Quiet(c, Fetching(app, hash), nature).0 == c
    ensures Measure(c, key, nature) == 0
  {
    var m, seen := QuietFetch(c, app, hash, nature);
    if Outlook(c, app, nature).Some? {
      var a := Outlook(c, app, nature).value;
      if Unhealthy(app, a.grade, c.clock) {
        if app.status.lastFailed != 0 || app.status.revision <= 1 {
          DegradedPath(c, key, app, a, nature);
          DegradedRest(c, app, a);
        } else {
          MarkerShows(c, key, app, MarkedStatus(app, UnhealthyReason(a.grade), UnhealthyDetail(app, a), c.clock),
                      nature);
        }
      } else if a.grade == Current && app.status.lastFailed == 0 {
        QuietWrite(c, key, app, DeployedStatus(app, a.detail, c.clock), Claim(hash, m, seen),
                   RequeueAfter(STEADY_POLL), nature);
        DeployedRest(c, app, a);
      } else if a.grade != Current {
        QuietWrite(c, key, app, ProgressStatus(app, a.detail, c.clock), Progress, RequeueAfter(HEALTH_POLL), nature);
        ProgressRest(c, app, a);
      }
    }
  }

  /** A pass that changes nothing, once no deadline is running, finds the Application at rest. */
  lemma IdlePassMeansRest(c: Cluster, key: AppKey, nature: Nature)
    requires Settling(c, key) && !Waiting(c, key, nature)
    requires Quiet(c, Worker.Reading(key), nature).0 == c
    ensures Measure(c, key, nature) == 0
  {
    ReadOnce(c, key, nature);
    if key in c.apps {
      var app := c.apps[key];
      if !app.finalizer { FinalizerPath(c, key, app, nature); }
      else if CurrentHash(c, app).None? { FailedRest(c, key, app, nature); }
      else {
        var values := ValuesOnce(c, app, nature);
        if NeedsApply(app, HashValues(values)) { ApplyShows(c, key, app, values, nature); }
        else { HealthRest(c, key, app, HashValues(values), nature); }
      }
    }
  }

  // ---------- rest is reached ----------

  /** The number of an Application's rounds that begin when no deadline of its rollout is running. */
  ghost function Free(c: Cluster, key: AppKey, slots: seq<Slot>, nature: Nature): nat
    decreases |slots|
  {
    if slots == [] then 0
    else
      (if slots[0].key != key || Waiting(Environment(c, Tick(slots[0].gap)), key, nature) then 0 else 1) +
      Free(Round(c, slots[0].key, slots[0].gap, nature), key, slots[1..], nature)
  }

  /** A round that no deadline holds up brings the Application closer to rest, or finds it there. */
  lemma FreeRound(c: Cluster, key: AppKey, gap: nat, nature: Nature)
    requires Settling(c, key) && !Waiting(Environment(c, Tick(gap)), key, nature)
    ensures var d := Round(c, key, gap, nature);
            Measure(d, key, nature) == 0 || Measure(d, key, nature) < Measure(c, key, nature)
  {
    var e, d := Environment(c, Tick(gap)), Round(c, key, gap, nature);
    EnvironmentSound(c, Tick(gap));
    TickMeasure(c, key, gap, nature);
    if d == e { IdlePassMeansRest(e, key, nature); } else { PassSettles(e, key, nature); }
  }

  lemma {:induction false} RestReached(c: Cluster, key: AppKey, slots: seq<Slot>, nature: Nature)
    requires Settling(c, key) && OwnRelease(c, key, slots)
    requires Measure(c, key, nature) < Free(c, key, slots, nature) || Measure(c, key, nature) == 0
    ensures Measure(Rounds(c, slots, nature), key, nature) == 0
    decreases |slots|
  {
    if slots != [] {
      AnyRound(c, key, slots, nature);
      if slots[0].key == key && !Waiting(Environment(c, Tick(slots[0].gap)), key, nature) {
        FreeRound(c, key, slots[0].gap, nature);
      }
      RestReached(Round(c, slots[0].key, slots[0].gap, nature), key, slots[1..], nature);
    }
  }

  lemma {:induction false} RoundsCompose(c: Cluster, slots: seq<Slot>, more: seq<Slot>, nature: Nature)
    ensures Rounds(c, slots + more, nature) == Rounds(Rounds(c, slots, nature), more, nature)
    decreases |slots|
  {
    if slots == [] {
      assert slots + more == more;
    } else {
      assert (slots + more)[1..] == slots[1..] + more;
      RoundsCompose(Round(c, slots[0].key, slots[0].gap, nature), slots[1..], more, nature);
    }
  }

  /** Nine of the Application's rounds have begun when no deadline was running; or it does not exist. */
  ghost predicate Visited(c: Cluster, key: AppKey, slots: seq<Slot>, nature: Nature) {
    key in c.apps ==> 9 <= Free(c, key, slots, nature)
  }

  lemma NineRounds(c: Cluster, key: AppKey, slots: seq<Slot>, nature: Nature)
    requires Settling(c, key) && OwnRelease(c, key, slots) && Visited(c, key, slots, nature)
    ensures var d := Rounds(c, slots, nature);
            Settling(d, key) && (key in c.apps ==> key in d.apps) && Measure(d, key, nature) == 0
  {
    TickMeasure(c, key, 0, nature);
    RestReached(c, key, slots, nature);
    ChangesAreBounded(c, key, slots, nature);
  }

  /** The fixpoint: nine rounds of each Application that begin when no deadline is running are enough, however many
      other rounds there are, whosever, and however they are spaced. Whatever rounds of these Applications follow, in
      any order, write nothing and call on Helm for nothing. */
  lemma NineRoundsSuffice(c: Cluster, slots: seq<Slot>, more: seq<Slot>, nature: Nature)
    requires forall i :: 0 <= i < |more| ==>
               Settling(c, more[i].key) && OwnRelease(c, more[i].key, slots) && Visited(c, more[i].key, slots, nature)
    ensures Unchanged(Rounds(c, slots, nature), Rounds(c, slots + more, nature))
  {
    var d := Rounds(c, slots, nature);
    forall i | 0 <= i < |more| ensures Settling(d, more[i].key) && Measure(d, more[i].key, nature) == 0 {
      NineRounds(c, more[i].key, slots, nature);
    }
    RestLasts(d, more, nature);
    RoundsCompose(c, slots, more, nature);
  }

  // ---------- what it then looks like ----------

  /** The status tells what there is to tell: values that do not resolve, or else the applied spec and values, and the
      health of the release. A rollout that is still under way is not at rest. */
  predicate ToldAsIs(c: Cluster, app: App, nature: Nature) {
    && app.finalizer
    && (match CurrentHash(c, app)
        case None =>
          app.status.phase == Phase.Failed && !True(app.status, Released) && !True(app.status, Ready)
        case Some(hash) =>
          app.status.observed == app.generation && app.status.valuesHash == hash &&
          (Outlook(c, app, nature).Some? ==> HealthTold(app, Outlook(c, app, nature).value.grade, c.clock)))
  }

  predicate HealthTold(app: App, grade: Grade, now: Time) {
    if Unhealthy(app, grade, now) then
      app.status.phase == Phase.Degraded && !True(app.status, Ready) && !True(app.status, Healthy) &&
      (app.status.lastFailed != 0 || app.status.revision <= 1)
    else if grade == Current then
      app.status.lastFailed == 0 ==>
        app.status.phase == Phase.Deployed && True(app.status, Ready) && True(app.status, Healthy)
    else
      app.status.phase == Phase.Deploying && !True(app.status, Ready) && app.status.started.None?
  }

  lemma RestTells(c: Cluster, key: AppKey, nature: Nature)
    requires Settling(c, key) && key in c.apps && Measure(c, key, nature) == 0
    ensures ToldAsIs(c, c.apps[key], nature)
  {
    var app := c.apps[key];
    match CurrentHash(c, app)
    case None => FailedTold(c, app);
    case Some(_) =>
      if Outlook(c, app, nature).Some? { RestHealthTold(app, Outlook(c, app, nature).value, c.clock); }
  }

  lemma FailedTold(c: Cluster, app: App)
    requires CurrentHash(c, app).None? && FailedTarget(c, app) == app.status
    ensures app.status.phase == Phase.Failed && !True(app.status, Released) && !True(app.status, Ready)
  {
  }

  lemma RestHealthTold(app: App, a: Health.Assessment, now: Time)
    requires HealthMeasure(app, a, now) == 0
    ensures HealthTold(app, a.grade, now)
  {
  }

  /** Where the rounds end: the status of an Application that has been visited often enough is the true one. */
  lemma TrueInTheEnd(c: Cluster, key: AppKey, slots: seq<Slot>, nature: Nature)
    requires Settling(c, key) && OwnRelease(c, key, slots) && key in c.apps && 9 <= Free(c, key, slots, nature)
    ensures var d := Rounds(c, slots, nature); key in d.apps && ToldAsIs(d, d.apps[key], nature)
  {
    NineRounds(c, key, slots, nature);
    RestTells(Rounds(c, slots, nature), key, nature);
  }

  /** All statuses, stored now or ever, are coherent. */
  ghost predicate AllCoherent(c: Cluster) {
    HonestInv(State(c, Idle(Settled), []))
  }

  lemma RoundCoherent(c: Cluster, slot: Slot, nature: Nature)
    requires AllCoherent(c)
    ensures AllCoherent(Round(c, slot.key, slot.gap, nature))
  {
    var s := Step(State(c, Idle(Settled), []), Env(Tick(slot.gap)));
    var t := Step(s, Begin(slot.key));
    StepHonest(State(c, Idle(Settled), []), Env(Tick(slot.gap)));
    StepHonest(s, Begin(slot.key));
    var events := QuietStateIsRun(t, nature);
    RunHonest(t, events);
  }

  lemma {:induction false} RoundsCoherent(c: Cluster, slots: seq<Slot>, nature: Nature)
    requires AllCoherent(c)
    ensures AllCoherent(Rounds(c, slots, nature))
    decreases |slots|
  {
    if slots != [] {
      RoundCoherent(c, slots[0], nature);
      RoundsCoherent(Round(c, slots[0].key, slots[0].gap, nature), slots[1..], nature);
    }
  }

  /** Ready says that all workloads are current and no revision is marked failed, if the release can be looked at. */
  predicate ReadyTold(c: Cluster, app: App, nature: Nature) {
    CurrentHash(c, app).Some? && Outlook(c, app, nature).Some? ==>
      (True(app.status, Ready) <==> Outlook(c, app, nature).value.grade == Current && app.status.lastFailed == 0)
  }

  lemma ToldReady(c: Cluster, app: App, nature: Nature)
    requires ToldAsIs(c, app, nature) && Coherent(app.status)
    ensures ReadyTold(c, app, nature)
  {
  }

  lemma RoundsTellReady(c: Cluster, key: AppKey, slots: seq<Slot>, nature: Nature)
    requires AllCoherent(c) && Settling(c, key) && OwnRelease(c, key, slots)
    requires key in c.apps && 9 <= Free(c, key, slots, nature)
    ensures var d := Rounds(c, slots, nature); key in d.apps && ReadyTold(d, d.apps[key], nature)
  {
    TrueInTheEnd(c, key, slots, nature);
    RoundsCoherent(c, slots, nature);
    var d := Rounds(c, slots, nature);
    assert Coherent(d.apps[key].status);
    ToldReady(d, d.apps[key], nature);
  }

  /** From whatever state a run has reached: in the end an Application whose release can be looked at is Ready if and
      only if all workloads are current and no revision is marked failed. */
  lemma ReadyInTheEnd(s: State, events: seq<Event>, key: AppKey, slots: seq<Slot>, nature: Nature)
    requires Initial(s)
    requires var c := Run(s, events).cluster;
             key in c.apps && !c.apps[key].deleting && OwnRelease(c, key, slots) && 9 <= Free(c, key, slots, nature)
    ensures var d := Rounds(Run(s, events).cluster, slots, nature); key in d.apps && ReadyTold(d, d.apps[key], nature)
  {
    RunHonest(s, events);
    RoundsTellReady(Run(s, events).cluster, key, slots, nature);
  }
}
