/** What the statuses the operator writes say, in every run: which phase, which conditions, for which reason, and about
    which generation. */
module Statuses {
  import opened Api
  import opened Server
  import opened Health
  import opened Controller
  import opened Machine
  import opened Soundness

  predicate Says(s: Status, t: ConditionType, holds: bool, reason: string, generation: nat) {
    && t in s.conditions
    && s.conditions[t].holds == holds && s.conditions[t].reason == reason && s.conditions[t].generation == generation
  }

  const FAILURES := {"ValuesError", "NamespaceError", "HelmError"}
  const AILMENTS := {"WorkloadFailed", "ProgressDeadlineExceeded"}

  /** The text of a status written for this cause while the Application was at this generation. */
  predicate Tells(generation: nat, s: Status, cause: Cause) {
    match cause
    case Applied(_) =>
      && s.phase == Phase.Deploying && s.observed == generation && s.lastFailed == 0 && s.started.Some?
      && Says(s, Released, true, "ReleaseApplied", generation)
      && s.conditions[Released].message == ReleaseAt(s.releaseName, s.revision)
      && Says(s, Ready, false, "Progressing", generation)
    case Broke =>
      && s.phase == Phase.Failed && Ready in s.conditions && s.conditions[Ready].reason in FAILURES
      && Says(s, Released, false, s.conditions[Ready].reason, generation)
      && Says(s, Ready, false, s.conditions[Ready].reason, generation)
    case Claim(_, _, _) =>
      && s.phase == Phase.Deployed && s.lastFailed == 0
      && Says(s, Healthy, true, "AllWorkloadsCurrent", generation) && Says(s, Ready, true, "Deployed", generation)
    case Progress =>
      && s.phase == Phase.Deploying
      && Says(s, Healthy, false, "Progressing", generation) && Says(s, Ready, false, "Progressing", generation)
    case Degrade =>
      && s.phase == Phase.Degraded && Healthy in s.conditions
      && s.conditions[Healthy].reason in AILMENTS + {"RollbackFailed", "RolledBack"}
      && Says(s, Healthy, false, s.conditions[Healthy].reason, generation)
      && Says(s, Ready, false, "Degraded", generation)
    case Marker =>
      && s.phase == Phase.RollingBack && 2 <= s.revision == s.lastFailed
      && Healthy in s.conditions && s.conditions[Healthy].reason in AILMENTS
      && Says(s, Healthy, false, s.conditions[Healthy].reason, generation)
      && Says(s, Ready, false, "RollingBack", generation)
      && s.conditions[Ready].message == UnhealthyRevision(s.revision)
  }

  /** The pass is about to write such a status. */
  predicate Worded(w: Worker) {
    match w
    case Persisting(app, status, cause, _) => Tells(app.generation, status, cause)
    case WritingAhead(app, status) => Tells(app.generation, status, Marker)
    case _ => true
  }

  lemma AppliedWorded(app: App, values: Option<string>, revision: nat, now: Time, source: Source)
    ensures Tells(app.generation, AppliedStatus(app, values, revision, now), Applied(source))
  {
  }

  lemma SetDegradedWorded(app: App, local: Status, reason: string, message: Text, seconds: nat, now: Time)
    requires reason in AILMENTS + {"RollbackFailed", "RolledBack"}
    ensures Worded(SetDegraded(app, local, reason, message, seconds, now))
  {
  }

  lemma UnhealthyWorded(app: App, a: Assessment, now: Time)
    ensures Worded(HandleUnhealthy(app, a, now))
  {
    var reason, detail := UnhealthyReason(a.grade), UnhealthyDetail(app, a);
    SetDegradedWorded(app, app.status, reason, WithNote(detail, " (already rolled back; awaiting a spec fix)"),
                      STEADY_POLL, now);
    SetDegradedWorded(app, app.status, reason, WithNote(detail, " (no previous revision to roll back to)"),
                      HEALTH_POLL, now);
  }

  lemma AssessWorded(app: App, hash: Hash, manifest: Manifest, seen: seq<Health.Reading>, a: Assessment, now: Time)
    ensures Worded(Assess(app, hash, manifest, seen, a, now))
  {
    if Unhealthy(app, a.grade, now) { UnhealthyWorded(app, a, now); }
  }

  lemma PollWorded(w: Worker, a: Response, now: Time)
    requires w.Fetching? || w.Polling?
    ensures Worded(Resume(w, a, now))
  {
    if w.Fetching? {
      if a.GotRelease? { AssessWorded(w.app, w.hash, a.manifest, [], NO_WORKLOADS, now); }
    } else if w.todo != [] {
      var seen := w.seen + [Health.Reading(w.todo[0], if a.GotLive? then a.live else Missing)];
      AssessWorded(w.app, w.hash, w.manifest, seen, Tally(seen), now);
    }
  }

  lemma RollbackWorded(w: Worker, a: Response, now: Time)
    requires w.RollingBack? || w.Refetching?
    ensures Worded(Resume(w, a, now))
  {
    var app := w.app;
    if w.RollingBack? && a.Failure? {
      SetDegradedWorded(app, app.status, "RollbackFailed", Because("helm rollback", app.key.name, a.error),
                        HEALTH_POLL, now);
    } else if w.Refetching? {
      var local := if a.GotRelease? then app.status.(revision := a.revision) else app.status;
      SetDegradedWorded(app, local, "RolledBack", FailedRevision(app.status.lastFailed), STEADY_POLL, now);
    }
  }

  lemma SecretWorded(app: App, ref: SecretRef, data: Secret, now: Time)
    ensures Worded(AfterSecret(app, ref, data, now))
  {
  }

  lemma ResumeWorded(w: Worker, a: Response, now: Time)
    requires Worded(w)
    ensures Worded(Resume(w, a, now))
  {
    if w.Fetching? || w.Polling? { PollWorded(w, a, now); }
    else if w.RollingBack? || w.Refetching? { RollbackWorded(w, a, now); }
    else if w.ReadingSecret? && a.GotSecret? { SecretWorded(w.app, w.ref, a.data, now); }
    else if w.Applying? && a.GotRelease? {
      AppliedWorded(w.app, w.values, a.revision, now, SourceOf(w.app.spec, w.values));
    } else { FailureWorded(w, a, now); }
  }

  lemma FailureWorded(w: Worker, a: Response, now: Time)
    requires !w.Fetching? && !w.Polling? && !w.RollingBack? && !w.Refetching?
    requires !(w.ReadingSecret? && a.GotSecret?) && !(w.Applying? && a.GotRelease?) && Worded(w)
    ensures Worded(Resume(w, a, now))
  {
  }

  // ---------- runs ----------

  predicate EntryTells(e: Entry) {
    e.StatusWritten? ==> Tells(e.generation, e.status, e.cause)
  }

  ghost predicate WordedInv(s: State) {
    && SoundState(s)
    && Worded(s.worker)
    && forall i :: 0 <= i < |s.log| ==> EntryTells(s.log[i])
  }

  lemma AddedTells(s: State, e: Event)
    requires WordedInv(s)
    ensures forall i :: 0 <= i < |Added(s, e)| ==> EntryTells(Added(s, e)[i])
  {
  }

  lemma StepWorded(s: State, e: Event)
    requires WordedInv(s)
    ensures WordedInv(Step(s, e))
  {
    StepSound(s, e);
    StepLogs(s, e);
    AddedTells(s, e);
    if e.Call? && !s.worker.Idle? {
      var (d, a) := Serve(s.cluster, NextCall(s.worker), e.outcome);
      ResumeWorded(s.worker, a, d.clock);
    }
  }

  lemma {:induction false} RunWorded(s: State, events: seq<Event>)
    requires WordedInv(s)
    ensures WordedInv(Run(s, events))
    decreases |events|
  {
    if events != [] {
      StepWorded(s, events[0]);
      RunWorded(Step(s, events[0]), events[1..]);
    }
  }

  /** Every status ever written says what it was written for, about the generation stored at that moment; and its phase
      alone tells the cause, up to the two ways of deploying. */
  lemma StatusTellsCause(s: State, events: seq<Event>, i: nat)
    requires Initial(s) && i < |Run(s, events).log| && Run(s, events).log[i].StatusWritten?
    ensures var e := Run(s, events).log[i];
            && Tells(e.generation, e.status, e.cause)
            && (e.status.phase == Phase.Deploying <==> e.cause.Applied? || e.cause.Progress?)
            && (e.status.phase == Phase.Deployed <==> e.cause.Claim?)
            && (e.status.phase == Phase.Failed <==> e.cause.Broke?)
            && (e.status.phase == Phase.RollingBack <==> e.cause.Marker?)
            && (e.status.phase == Phase.Degraded <==> e.cause.Degrade?)
  {
    RunWorded(s, events);
    assert EntryTells(Run(s, events).log[i]);
  }
}
