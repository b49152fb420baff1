/** What every persisted status says, in every run: faults, crashes and stale reads included. */
module Coherence {
  import opened Api
  import opened Server
  import opened Health
  import opened Controller
  import opened Machine
  import opened Soundness

  predicate Coherent(s: Status) {
    && (True(s, Ready) <==> s.phase == Phase.Deployed)
    && (s.phase == Phase.Deployed ==> True(s, Healthy) && s.lastFailed == 0)
    && s.lastFailed != 1
    && (s.lastFailed != 0 ==> s.phase in {Phase.RollingBack, Phase.Degraded, Phase.Deploying, Phase.Failed})
  }

  /** Every workload of the manifest was read, in order, and read as Current. */
  ghost predicate AllCurrent(manifest: Manifest, readings: seq<Health.Reading>) {
    && Workloads(manifest) == Some(Subjects(readings))
    && forall i :: 0 <= i < |readings| ==> Severity(readings[i].live) == Current
  }

  /** The evidence behind a Deployed status: the spec and values of this pass are the applied ones, and every
      workload of the release is healthy. */
  ghost predicate Backed(generation: nat, s: Status, cause: Cause) {
    && cause.Claim?
    && s.observed == generation
    && s.valuesHash == cause.hash
    && AllCurrent(cause.manifest, cause.readings)
  }

  ghost predicate Honest(generation: nat, s: Status, cause: Cause) {
    Coherent(s) && (s.phase == Phase.Deployed ==> Backed(generation, s, cause))
  }

  /** What a pass that checks health knows. */
  ghost predicate Examining(app: App, hash: Hash, manifest: Manifest, seen: seq<Health.Reading>, todo: seq<Doc>) {
    && app.status.observed == app.generation
    && app.status.valuesHash == hash
    && Workloads(manifest) == Some(Subjects(seen) + todo)
    && forall i :: 0 <= i < |seen| ==> !seen[i].live.Uncomputable?
  }

  ghost predicate HonestWorker(w: Worker) {
    && (Copy(w).Some? ==> Coherent(w.app.status))
    && match w
       case Persisting(app, status, cause, _) => Honest(app.generation, status, cause)
       case WritingAhead(app, status) => Honest(app.generation, status, Marker)
       case Fetching(app, hash) => app.status.observed == app.generation && app.status.valuesHash == hash
       case Polling(app, hash, manifest, todo, seen) => Examining(app, hash, manifest, seen, todo)
       case _ => true
  }

  lemma {:induction false} TallyCurrent(readings: seq<Health.Reading>)
    requires forall i :: 0 <= i < |readings| ==> !readings[i].live.Uncomputable?
    ensures Tally(readings).grade == Current <==>
            forall i :: 0 <= i < |readings| ==> Severity(readings[i].live) == Current
  {
    if readings != [] {
      var n := |readings| - 1;
      TallyCurrent(readings[..n]);
      assert forall i :: 0 <= i < n ==> readings[..n][i] == readings[i];
    }
  }

  lemma SetDegradedHonest(app: App, local: Status, reason: string, message: Text, seconds: nat, now: Time)
    requires Coherent(local)
    requires Coherent(app.status)
    ensures HonestWorker(SetDegraded(app, local, reason, message, seconds, now))
  {
  }

  lemma HandleUnhealthyHonest(app: App, a: Assessment, now: Time)
    requires Coherent(app.status)
    ensures HonestWorker(HandleUnhealthy(app, a, now))
  {
  }

  lemma AssessHonest(app: App, hash: Hash, manifest: Manifest, seen: seq<Health.Reading>, a: Assessment, now: Time)
    requires Coherent(app.status) && app.status.observed == app.generation && app.status.valuesHash == hash
    requires a.grade == Current ==> AllCurrent(manifest, seen)
    ensures HonestWorker(Assess(app, hash, manifest, seen, a, now))
  {
    if Unhealthy(app, a.grade, now) { HandleUnhealthyHonest(app, a, now); }
  }

  lemma AfterReadingHonest(app: App, hash: Hash, manifest: Manifest, todo: seq<Doc>, seen: seq<Health.Reading>,
                           live: Live, now: Time)
    requires todo != [] && Coherent(app.status) && Examining(app, hash, manifest, seen, todo)
    ensures HonestWorker(AfterReading(app, hash, manifest, todo, seen, live, now))
  {
    if !live.Uncomputable? {
      var more := seen + [Health.Reading(todo[0], live)];
      assert Subjects(seen) + todo == Subjects(more) + todo[1..];
      TallyCurrent(more);
      var a := Tally(more);
      if a.grade == Failing || todo[1..] == [] {
        assert todo[1..] == [] ==> Subjects(more) + todo[1..] == Subjects(more);
        AssessHonest(app, hash, manifest, more, a, now);
      }
    }
  }

  lemma AfterFetchHonest(app: App, hash: Hash, manifest: Manifest, now: Time)
    requires Coherent(app.status) && app.status.observed == app.generation && app.status.valuesHash == hash
    ensures HonestWorker(AfterFetch(app, hash, manifest, now))
  {
    if Workloads(manifest).Some? {
      var ws := Workloads(manifest).value;
      assert Subjects([]) + ws == ws && Subjects([]) == [];
      if ws == [] { AssessHonest(app, hash, manifest, [], NO_WORKLOADS, now); }
    }
  }

  lemma PollHonest(w: Worker, a: Response, now: Time)
    requires (w.Fetching? || w.Polling?) && HonestWorker(w)
    ensures HonestWorker(Resume(w, a, now))
  {
    if w.Fetching? {
      if a.GotRelease? { AfterFetchHonest(w.app, w.hash, a.manifest, now); }
    } else if w.todo != [] {
      if a.GotLive? { AfterReadingHonest(w.app, w.hash, w.manifest, w.todo, w.seen, a.live, now); }
      AfterReadingHonest(w.app, w.hash, w.manifest, w.todo, w.seen, Missing, now);
    }
  }

  lemma RollbackHonest(w: Worker, a: Response, now: Time)
    requires (w.RollingBack? || w.Refetching?) && HonestWorker(w)
    ensures HonestWorker(Resume(w, a, now))
  {
    var app := w.app;
    if w.RollingBack? {
      if a.Failure? {
        SetDegradedHonest(app, app.status, "RollbackFailed", Because("helm rollback", app.key.name, a.error),
                          HEALTH_POLL, now);
      }
    } else {
      if a.GotRelease? {
        SetDegradedHonest(app, app.status.(revision := a.revision), "RolledBack", FailedRevision(app.status.lastFailed),
                          STEADY_POLL, now);
      }
      SetDegradedHonest(app, app.status, "RolledBack", FailedRevision(app.status.lastFailed), STEADY_POLL, now);
    }
  }

  /** A pass that has just resolved the values: it has nothing to write yet, or fails over them. */
  lemma AfterValuesHonest(app: App, values: Option<string>)
    requires Coherent(app.status)
    ensures HonestWorker(AfterValues(app, values))
  {
  }

  lemma FailHonest(app: App, reason: string, cause: Text, now: Time)
    requires Coherent(app.status)
    ensures HonestWorker(Fail(app, reason, cause, now))
  {
  }

  lemma ReadHonest(w: Worker, a: Response, now: Time)
    requires (w.Reading? || w.ReadingSecret?) && HonestWorker(w) && (a.GotApp? ==> Coherent(a.app.status))
    ensures HonestWorker(Resume(w, a, now))
  {
    if w.Reading? {
      if a.GotApp? { AfterValuesHonest(a.app, None); }
    } else if a.GotSecret? {
      AfterSecretHonest(w.app, w.ref, a.data, now);
    } else if a.Failure? {
      FailHonest(w.app, "ValuesError", Because("get values secret", w.ref.name, a.error), now);
    }
  }

  lemma AfterSecretHonest(app: App, ref: SecretRef, data: Secret, now: Time)
    requires Coherent(app.status)
    ensures HonestWorker(AfterSecret(app, ref, data, now))
  {
    if DataKey(ref) in data && data[DataKey(ref)].Values? { AfterValuesHonest(app, Some(data[DataKey(ref)].text)); }
  }

  lemma AppliedHonest(w: Worker, a: Response, now: Time)
    requires w.Applying? && HonestWorker(w)
    ensures HonestWorker(Resume(w, a, now))
  {
    if a.Failure? {
      var action := if w.installed then "helm upgrade" else "helm install";
      FailHonest(w.app, "HelmError", Because(action, w.app.key.name, a.error), now);
    }
  }

  lemma ResumeHonest(w: Worker, a: Response, now: Time)
    requires HonestWorker(w) && (a.GotApp? ==> Coherent(a.app.status))
    ensures HonestWorker(Resume(w, a, now))
  {
    if w.Fetching? || w.Polling? { PollHonest(w, a, now); }
    else if w.RollingBack? || w.Refetching? { RollbackHonest(w, a, now); }
    else if w.Reading? || w.ReadingSecret? { ReadHonest(w, a, now); }
    else if w.Applying? { AppliedHonest(w, a, now); }
    else { RestHonest(w, a, now); }
  }

  lemma RestHonest(w: Worker, a: Response, now: Time)
    requires HonestWorker(w) && (a.GotApp? ==> Coherent(a.app.status))
    requires !w.Fetching? && !w.Polling? && !w.RollingBack? && !w.Refetching?
    requires !w.Reading? && !w.ReadingSecret? && !w.Applying?
    ensures HonestWorker(Resume(w, a, now))
  {
  }

  // ---------- runs ----------

  ghost predicate HonestEntry(e: Entry) {
    e.StatusWritten? ==> Honest(e.generation, e.status, e.cause)
  }

  ghost predicate HonestInv(s: State) {
    && SoundState(s)
    && (forall k :: k in s.cluster.apps ==> Coherent(s.cluster.apps[k].status))
    && (forall i :: 0 <= i < |s.cluster.archive| ==> Coherent(s.cluster.archive[i].status))
    && HonestWorker(s.worker)
    && (forall i :: 0 <= i < |s.log| ==> HonestEntry(s.log[i]))
  }

  lemma StoredCoherent(s: State, e: Event)
    requires HonestInv(s)
    ensures var d := Step(s, e).cluster;
            (forall k :: k in d.apps ==> Coherent(d.apps[k].status)) &&
            (forall i :: 0 <= i < |d.archive| ==> Coherent(d.archive[i].status))
  {
    var c, d := s.cluster, Step(s, e).cluster;
    StatusOrigins(s, e);
    forall k | k in d.apps ensures Coherent(d.apps[k].status) { assert StatusOrigin(s, e, k); }
    ArchiveGrows(s, e);
    forall i | 0 <= i < |d.archive| ensures Coherent(d.archive[i].status) {
      if i < |c.archive| { assert d.archive[i] == c.archive[i]; }
    }
  }

  lemma EntriesHonest(s: State, e: Event)
    requires HonestInv(s)
    ensures forall i :: 0 <= i < |Step(s, e).log| ==> HonestEntry(Step(s, e).log[i])
  {
    var es := Added(s, e);
    StepLogs(s, e);
    assert forall i :: 0 <= i < |es| ==> HonestEntry(es[i]);
  }

  lemma StepHonest(s: State, e: Event)
    requires HonestInv(s)
    ensures HonestInv(Step(s, e))
  {
    StepSound(s, e);
    StoredCoherent(s, e);
    EntriesHonest(s, e);
    if e.Call? && !s.worker.Idle? {
      var (after, a) := Serve(s.cluster, NextCall(s.worker), e.outcome);
      AnswerOrigin(s.cluster, NextCall(s.worker), e.outcome);
      ResumeHonest(s.worker, a, after.clock);
    }
  }

  lemma {:induction false} RunHonest(s: State, events: seq<Event>)
    requires HonestInv(s)
    ensures HonestInv(Run(s, events))
    decreases |events|
  {
    if events != [] {
      StepHonest(s, events[0]);
      RunHonest(Step(s, events[0]), events[1..]);
    }
  }

  /** Every status ever persisted is coherent. */
  lemma PersistedStatusesCohere(s: State, events: seq<Event>, i: nat)
    requires Initial(s) && i < |Run(s, events).log| && Run(s, events).log[i].StatusWritten?
    ensures Coherent(Run(s, events).log[i].status)
  {
    RunHonest(s, events);
    assert HonestEntry(Run(s, events).log[i]);
  }

  /** Deployed is never claimed for a spec that is not the applied one, nor for workloads not seen healthy:
      the generation is the one stored at the very moment of the write. */
  lemma DeployedIsBacked(s: State, events: seq<Event>, i: nat)
    requires Initial(s) && i < |Run(s, events).log|
    requires Run(s, events).log[i].StatusWritten? && Run(s, events).log[i].status.phase == Phase.Deployed
    ensures var e := Run(s, events).log[i]; Backed(e.generation, e.status, e.cause)
  {
    RunHonest(s, events);
    assert HonestEntry(Run(s, events).log[i]);
  }
}
