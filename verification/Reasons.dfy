/** Why a status says what it says: the reasons it gives are true, the release it names is the Application's own, its
    transition times move with the truth, and only a change is ever written. */
module Reasons {
  import opened Api
  import opened Server
  import opened Health
  import opened Controller
  import opened Machine
  import opened Passes
  import opened Soundness
  import opened Ledger
  import opened Statuses

  // ---------- a failed workload, or a deadline that is over ----------

  /** If the status blames a failed workload, or the deadline, then that is what a pass last found. */
  ghost predicate Founded(log: seq<Entry>, uid: nat, s: Status) {
    Healthy in s.conditions ==>
      (s.conditions[Healthy].reason == "WorkloadFailed" ==> LastSign(log, FoundFailed, uid) == Some(true)) &&
      (s.conditions[Healthy].reason == "ProgressDeadlineExceeded" ==> LastSign(log, FoundFailed, uid) == Some(false))
  }

  /** The pass is about to write that the release is unhealthy. */
  predicate Blames(w: Worker) { w.WritingAhead? || (w.Persisting? && (w.cause.Degrade? || w.cause.Marker?)) }

  ghost predicate FoundedInv(s: State) {
    && (Blames(s.worker) ==> Founded(s.log, s.worker.app.uid, s.worker.status))
    && forall i :: 0 <= i < |s.log| ==> EntryFounded(s.log, i)
  }

  ghost predicate EntryFounded(log: seq<Entry>, i: nat)
    requires i < |log|
  {
    var e := log[i];
    e.StatusWritten? && (e.cause.Marker? || e.cause.Degrade?) ==> Founded(log[..i], e.uid, e.status)
  }

  lemma EntriesFounded(log: seq<Entry>, more: seq<Entry>)
    requires |more| <= 1 && forall i :: 0 <= i < |log| ==> EntryFounded(log, i)
    requires more != [] && more[0].StatusWritten? && (more[0].cause.Marker? || more[0].cause.Degrade?) ==>
               Founded(log, more[0].uid, more[0].status)
    ensures forall i :: 0 <= i < |log + more| ==> EntryFounded(log + more, i)
  {
    forall i | 0 <= i < |log + more| ensures EntryFounded(log + more, i) {
      if i < |log| {
        assert EntryFounded(log, i) && (log + more)[..i] == log[..i];
      } else {
        assert (log + more)[..i] == log;
      }
    }
  }

  lemma FoundedMore(log: seq<Entry>, more: seq<Entry>, uid: nat, s: Status)
    requires |more| <= 1 && Founded(log, uid, s) && (more != [] ==> !more[0].FoundUnhealthy?)
    ensures Founded(log + more, uid, s)
  {
    LastSignMore(log, more, FoundFailed, uid);
  }

  lemma AssessFounded(app: App, hash: Hash, manifest: Manifest, seen: seq<Health.Reading>, a: Assessment, now: Time,
                      log: seq<Entry>)
    requires Unhealthy(app, a.grade, now) ==> LastSign(log, FoundFailed, app.uid) == Some(a.grade == Failing)
    ensures var v := Assess(app, hash, manifest, seen, a, now);
            Blames(v) ==> v.app == app && Founded(log, app.uid, v.status)
  {
    if Unhealthy(app, a.grade, now) { UnhealthyFounded(app, a, now, log); }
    else { HealthyBlamesNobody(app, hash, manifest, seen, a, now); }
  }

  lemma UnhealthyFounded(app: App, a: Assessment, now: Time, log: seq<Entry>)
    requires LastSign(log, FoundFailed, app.uid) == Some(a.grade == Failing)
    ensures var v := HandleUnhealthy(app, a, now); Blames(v) ==> v.app == app && Founded(log, app.uid, v.status)
  {
  }

  /** Beginning to blame a release goes with a log entry of what was found. */
  lemma PollFounded(s: State, o: Outcome)
    requires s.worker.Polling?
    ensures var t := Step(s, Call(o)); Blames(t.worker) ==> Founded(t.log, t.worker.app.uid, t.worker.status)
  {
    var w := s.worker;
    var (d, a) := Serve(s.cluster, NextCall(w), o);
    if w.todo != [] {
      LookKeepsClock(s.cluster, NextCall(w), o);
      if Completed(w, a).Some? && Unhealthy(w.app, Completed(w, a).value.grade, d.clock) { LookBlames(s, o); }
      else { PollBlames(w, a, d.clock); }
    }
  }

  lemma LookBlames(s: State, o: Outcome)
    requires s.worker.Polling? && s.worker.todo != []
    requires var a := Serve(s.cluster, NextCall(s.worker), o).1;
             Completed(s.worker, a).Some? &&
             Unhealthy(s.worker.app, Completed(s.worker, a).value.grade, s.cluster.clock)
    requires Serve(s.cluster, NextCall(s.worker), o).0.clock == s.cluster.clock
    ensures var t := Step(s, Call(o)); Blames(t.worker) ==> Founded(t.log, t.worker.app.uid, t.worker.status)
  {
    var w, a := s.worker, Serve(s.cluster, NextCall(s.worker), o).1;
    var seen := w.seen + [Health.Reading(w.todo[0], if a.GotLive? then a.live else Missing)];
    LastSignMore(s.log, CallEntries(s, o), FoundFailed, w.app.uid);
    AssessFounded(w.app, w.hash, w.manifest, seen, Tally(seen), s.cluster.clock, Step(s, Call(o)).log);
  }

  lemma LookKeepsClock(c: Cluster, r: Request, o: Outcome)
    ensures Serve(c, r, o).0.clock == c.clock
  {
  }

  lemma PollBlames(w: Worker, a: Response, now: Time)
    requires w.Polling? && w.todo != []
    requires Completed(w, a).Some? ==> !Unhealthy(w.app, Completed(w, a).value.grade, now)
    ensures !Blames(Resume(w, a, now))
  {
    var seen := w.seen + [Health.Reading(w.todo[0], if a.GotLive? then a.live else Missing)];
    HealthyBlamesNobody(w.app, w.hash, w.manifest, seen, Tally(seen), now);
  }

  lemma HealthyBlamesNobody(app: App, hash: Hash, manifest: Manifest, seen: seq<Health.Reading>, a: Assessment,
                            now: Time)
    ensures !Unhealthy(app, a.grade, now) ==> !Blames(Assess(app, hash, manifest, seen, a, now))
  {
  }

  lemma FetchBlamesNobody(w: Worker, a: Response, now: Time)
    requires w.Fetching?
    ensures !Blames(Resume(w, a, now))
  {
    if a.GotRelease? { HealthyBlamesNobody(w.app, w.hash, a.manifest, [], NO_WORKLOADS, now); }
  }

  lemma RollbackFounded(w: Worker, a: Response, now: Time, log: seq<Entry>)
    requires w.RollingBack? || w.Refetching?
    ensures var v := Resume(w, a, now); Blames(v) ==> Founded(log, v.app.uid, v.status)
  {
  }

  lemma OthersBlameNobody(w: Worker, a: Response, now: Time)
    requires !w.Idle? && !w.Fetching? && !w.Polling? && !w.RollingBack? && !w.Refetching?
    ensures !Blames(Resume(w, a, now))
  {
    if w.ReadingSecret? && a.GotSecret? { SecretBlamesNobody(w.app, w.ref, a.data, now); }
  }

  lemma SecretBlamesNobody(app: App, ref: SecretRef, data: Secret, now: Time)
    ensures !Blames(AfterSecret(app, ref, data, now))
  {
  }

  lemma CallFounded(s: State, o: Outcome)
    requires !s.worker.Idle?
    ensures var t := Step(s, Call(o)); Blames(t.worker) ==> Founded(t.log, t.worker.app.uid, t.worker.status)
  {
    var (d, a) := Serve(s.cluster, NextCall(s.worker), o);
    if s.worker.Polling? { PollFounded(s, o); }
    else if s.worker.Fetching? { FetchBlamesNobody(s.worker, a, d.clock); }
    else if s.worker.RollingBack? || s.worker.Refetching? {
      RollbackFounded(s.worker, a, d.clock, Step(s, Call(o)).log);
    } else { OthersBlameNobody(s.worker, a, d.clock); }
  }

  lemma WrittenFounded(s: State, o: Outcome)
    requires FoundedInv(s)
    ensures var es := CallEntries(s, o);
            |es| <= 1 &&
            (es != [] && es[0].StatusWritten? && (es[0].cause.Marker? || es[0].cause.Degrade?) ==>
               Founded(s.log, es[0].uid, es[0].status))
  {
  }

  lemma StepFounded(s: State, e: Event)
    requires FoundedInv(s)
    ensures FoundedInv(Step(s, e))
  {
    StepLogs(s, e);
    if e.Call? && !s.worker.Idle? {
      WrittenFounded(s, e.outcome);
      CallFounded(s, e.outcome);
    } else if Blames(s.worker) {
      FoundedMore(s.log, Added(s, e), s.worker.app.uid, s.worker.status);
    }
    EntriesFounded(s.log, Added(s, e));
  }

  lemma {:induction false} RunFounded(s: State, events: seq<Event>)
    requires FoundedInv(s)
    ensures FoundedInv(Run(s, events))
    decreases |events|
  {
    if events != [] {
      StepFounded(s, events[0]);
      RunFounded(Step(s, events[0]), events[1..]);
    }
  }

  /** In every run, a marker or a Degraded status that blames a failed workload was written because the last look at
      that Application's release found one; and one that blames the deadline because it did not. */
  lemma BlameIsFounded(s: State, events: seq<Event>, i: nat)
    requires Initial(s) && i < |Run(s, events).log| && Run(s, events).log[i].StatusWritten?
    requires Run(s, events).log[i].cause.Marker? || Run(s, events).log[i].cause.Degrade?
    ensures var log := Run(s, events).log;
            Healthy in log[i].status.conditions &&
            var reason := log[i].status.conditions[Healthy].reason;
            (reason == "WorkloadFailed" ==> LastSign(log[..i], FoundFailed, log[i].uid) == Some(true)) &&
            (reason == "ProgressDeadlineExceeded" ==> LastSign(log[..i], FoundFailed, log[i].uid) == Some(false))
  {
    RunFounded(s, events);
    StatusTellsCause(s, events, i);
    assert EntryFounded(Run(s, events).log, i);
  }

  // ---------- which step failed ----------

  /** The reason a pass gives when it fails at this point. */
  function StageReason(w: Worker): string {
    if w.ReadingSecret? then "ValuesError"
    else if w.FindingNamespace? || w.CreatingNamespace? then "NamespaceError"
    else if w.LoadingChart? || w.CheckingHistory? || w.Applying? then "HelmError"
    else ""
  }

  /** The reason names the step: what failed before the release was applied, and whether Helm's rollback did. A
      rollback that failed is never reported as done, and one that was done is reported even if its revision cannot be
      fetched. */
  predicate Named(w: Worker, a: Response, v: Worker) {
    && (v.Persisting? ==>
          (v.cause.Broke? ==> Ready in v.status.conditions && v.status.conditions[Ready].reason == StageReason(w)) &&
          (v.cause.Degrade? && Healthy in v.status.conditions ==>
             (v.status.conditions[Healthy].reason == "RollbackFailed" <==> w.RollingBack? && a.Failure?) &&
             (v.status.conditions[Healthy].reason == "RolledBack" <==> w.Refetching?)))
    && (w.RollingBack? && a.Failure? ==> Reports(v, w.app.status.revision, 30))
    && (w.RollingBack? && !a.Failure? ==> v == Refetching(w.app))
    && (w.Refetching? ==> Reports(v, if a.GotRelease? then a.revision else w.app.status.revision, 300))
  }

  /** The pass is about to write a Degraded status with this revision, unless it has nothing to write. */
  predicate Reports(v: Worker, revision: nat, seconds: nat) {
    v == Idle(RequeueAfter(seconds)) ||
    (v.Persisting? && v.cause.Degrade? && v.status.revision == revision && v.result == RequeueAfter(seconds))
  }

  lemma UnhealthyNamed(app: App, a: Assessment, now: Time, w: Worker, reply: Response)
    requires w.Fetching? || w.Polling?
    ensures Named(w, reply, HandleUnhealthy(app, a, now))
  {
  }

  lemma AssessNamed(app: App, hash: Hash, manifest: Manifest, seen: seq<Health.Reading>, a: Assessment, now: Time,
                    w: Worker, reply: Response)
    requires w.Fetching? || w.Polling?
    ensures Named(w, reply, Assess(app, hash, manifest, seen, a, now))
  {
    if Unhealthy(app, a.grade, now) { UnhealthyNamed(app, a, now, w, reply); }
  }

  lemma PollNamed(w: Worker, a: Response, now: Time)
    requires w.Fetching? || w.Polling?
    ensures Named(w, a, Resume(w, a, now))
  {
    if w.Fetching? {
      if a.GotRelease? { AssessNamed(w.app, w.hash, a.manifest, [], NO_WORKLOADS, now, w, a); }
    } else if w.todo != [] {
      var seen := w.seen + [Health.Reading(w.todo[0], if a.GotLive? then a.live else Missing)];
      AssessNamed(w.app, w.hash, w.manifest, seen, Tally(seen), now, w, a);
    }
  }

  lemma RollbackNamed(w: Worker, a: Response, now: Time)
    requires w.RollingBack? || w.Refetching?
    ensures Named(w, a, Resume(w, a, now))
  {
  }

  lemma ApplyNamed(w: Worker, a: Response, now: Time)
    requires !w.Fetching? && !w.Polling? && !w.RollingBack? && !w.Refetching? && !w.Idle?
    ensures Named(w, a, Resume(w, a, now))
  {
  }

  lemma ReasonNamesStep(w: Worker, a: Response, now: Time)
    requires !w.Idle?
    ensures Named(w, a, Resume(w, a, now))
  {
    if w.Fetching? || w.Polling? { PollNamed(w, a, now); }
    else if w.RollingBack? || w.Refetching? { RollbackNamed(w, a, now); }
    else { ApplyNamed(w, a, now); }
  }

  // ---------- transition times ----------

  /** Conditions are kept, or written for this generation; and the time of a transition moves exactly with the truth. */
  predicate Stamped(before: Status, after: Status, generation: nat, now: Time) {
    && before.conditions.Keys <= after.conditions.Keys
    && forall t :: t in after.conditions ==>
         var c := after.conditions[t];
         (t in before.conditions && c == before.conditions[t]) ||
         (c.generation == generation &&
          c.transition == if t in before.conditions && before.conditions[t].holds == c.holds then
                            before.conditions[t].transition
                          else now)
  }

  /** The status a pass is about to write, as it was computed at this moment. */
  predicate StampedNow(w: Worker, now: Time) {
    w.Persisting? || w.WritingAhead? ==> Stamped(w.app.status, w.status, w.app.generation, now)
  }

  lemma SetDegradedStamped(app: App, local: Status, reason: string, message: Text, seconds: nat, now: Time)
    requires local.conditions == app.status.conditions
    ensures StampedNow(SetDegraded(app, local, reason, message, seconds, now), now)
  {
  }

  lemma MarkedStamped(app: App, reason: string, detail: Text, now: Time)
    ensures Stamped(app.status, MarkedStatus(app, reason, detail, now), app.generation, now)
  {
  }

  lemma UnhealthyStamped(app: App, a: Assessment, now: Time)
    ensures StampedNow(HandleUnhealthy(app, a, now), now)
  {
    var reason, detail := UnhealthyReason(a.grade), UnhealthyDetail(app, a);
    MarkedStamped(app, reason, detail, now);
    SetDegradedStamped(app, app.status, reason, WithNote(detail, " (already rolled back; awaiting a spec fix)"),
                       STEADY_POLL, now);
    SetDegradedStamped(app, app.status, reason, WithNote(detail, " (no previous revision to roll back to)"),
                       HEALTH_POLL, now);
  }

  lemma PhaseStamped(app: App, detail: Text, now: Time)
    ensures Stamped(app.status, DeployedStatus(app, detail, now), app.generation, now)
    ensures Stamped(app.status, ProgressStatus(app, detail, now), app.generation, now)
  {
  }

  lemma AssessStamped(app: App, hash: Hash, manifest: Manifest, seen: seq<Health.Reading>, a: Assessment, now: Time)
    ensures StampedNow(Assess(app, hash, manifest, seen, a, now), now)
  {
    if Unhealthy(app, a.grade, now) { UnhealthyStamped(app, a, now); } else { PhaseStamped(app, a.detail, now); }
  }

  lemma PollStamped(w: Worker, a: Response, now: Time)
    requires w.Fetching? || w.Polling?
    ensures StampedNow(Resume(w, a, now), now)
  {
    if w.Fetching? {
      if a.GotRelease? { AssessStamped(w.app, w.hash, a.manifest, [], NO_WORKLOADS, now); }
    } else if w.todo != [] {
      var seen := w.seen + [Health.Reading(w.todo[0], if a.GotLive? then a.live else Missing)];
      AssessStamped(w.app, w.hash, w.manifest, seen, Tally(seen), now);
    }
  }

  lemma RollbackStamped(w: Worker, a: Response, now: Time)
    requires w.RollingBack? || w.Refetching?
    ensures StampedNow(Resume(w, a, now), now)
  {
    var app := w.app;
    if w.RollingBack? {
      if a.Failure? {
        SetDegradedStamped(app, app.status, "RollbackFailed", Because("helm rollback", app.key.name, a.error),
                           HEALTH_POLL, now);
      }
    } else {
      var local := if a.GotRelease? then app.status.(revision := a.revision) else app.status;
      SetDegradedStamped(app, local, "RolledBack", FailedRevision(app.status.lastFailed), STEADY_POLL, now);
    }
  }

  lemma ApplyStamped(w: Worker, a: Response, now: Time)
    requires w.Applying?
    ensures StampedNow(Resume(w, a, now), now)
  {
  }

  lemma SecretStamped(app: App, ref: SecretRef, data: Secret, now: Time)
    ensures StampedNow(AfterSecret(app, ref, data, now), now)
  {
  }

  lemma OtherStamped(w: Worker, a: Response, now: Time)
    requires !w.Fetching? && !w.Polling? && !w.RollingBack? && !w.Refetching? && !w.Applying? && !w.Idle?
    ensures StampedNow(Resume(w, a, now), now)
  {
    if w.ReadingSecret? && a.GotSecret? { SecretStamped(w.app, w.ref, a.data, now); }
  }

  /** Whatever the reply, a status computed from it keeps or stamps each condition, at the moment of the reply. */
  lemma TransitionsMoveWithTruth(w: Worker, a: Response, now: Time)
    requires !w.Idle?
    ensures StampedNow(Resume(w, a, now), now)
  {
    if w.Fetching? || w.Polling? { PollStamped(w, a, now); }
    else if w.RollingBack? || w.Refetching? { RollbackStamped(w, a, now); }
    else if w.Applying? { ApplyStamped(w, a, now); }
    else { OtherStamped(w, a, now); }
  }

  // ---------- only changes are written ----------

  /** A status about to be written, other than an apply's or a failure's, is not the stored one. */
  predicate Differing(w: Worker) {
    match w
    case Persisting(app, status, cause, _) => cause.Applied? || cause.Broke? || status != app.status
    case WritingAhead(app, status) => status != app.status && status.phase == Phase.RollingBack
    case RollingBack(app) => app.status.phase == Phase.RollingBack
    case Refetching(app) => app.status.phase == Phase.RollingBack
    case _ => true
  }

  lemma AssessDiffers(app: App, hash: Hash, manifest: Manifest, seen: seq<Health.Reading>, a: Assessment, now: Time)
    ensures Differing(Assess(app, hash, manifest, seen, a, now))
  {
  }

  lemma PollDiffers(w: Worker, a: Response, now: Time)
    requires w.Fetching? || w.Polling?
    ensures Differing(Resume(w, a, now))
  {
    if w.Fetching? {
      if a.GotRelease? { AssessDiffers(w.app, w.hash, a.manifest, [], NO_WORKLOADS, now); }
    } else if w.todo != [] {
      var seen := w.seen + [Health.Reading(w.todo[0], if a.GotLive? then a.live else Missing)];
      AssessDiffers(w.app, w.hash, w.manifest, seen, Tally(seen), now);
    }
  }

  lemma RollbackDiffers(w: Worker, a: Response, now: Time)
    requires (w.RollingBack? || w.Refetching?) && Differing(w)
    ensures Differing(Resume(w, a, now))
  {
  }

  lemma OtherDiffers(w: Worker, a: Response, now: Time)
    requires !w.Idle? && !w.Fetching? && !w.Polling? && !w.RollingBack? && !w.Refetching? && Differing(w)
    requires w.WritingAhead? && a.GotApp? ==> a.app.status == w.status
    ensures Differing(Resume(w, a, now))
  {
    if w.ReadingSecret? && a.GotSecret? { SecretDiffers(w.app, w.ref, a.data, now); }
  }

  lemma SecretDiffers(app: App, ref: SecretRef, data: Secret, now: Time)
    ensures Differing(AfterSecret(app, ref, data, now))
  {
  }

  ghost predicate DifferingInv(s: State) { SoundState(s) && Differing(s.worker) }

  lemma MarkerEchoed(c: Cluster, w: Worker, o: Outcome)
    requires Sound(c) && w.WritingAhead?
    ensures var a := Serve(c, NextCall(w), o).1; a.GotApp? ==> a.app.status == w.status
  {
    assert w.app.key in c.apps ==> c.apps[w.app.key].key == w.app.key;
  }

  lemma StepDiffers(s: State, e: Event)
    requires DifferingInv(s)
    ensures DifferingInv(Step(s, e))
  {
    StepSound(s, e);
    if e.Call? && !s.worker.Idle? {
      var w := s.worker;
      var (d, a) := Serve(s.cluster, NextCall(w), e.outcome);
      if w.WritingAhead? { MarkerEchoed(s.cluster, w, e.outcome); }
      if w.Fetching? || w.Polling? { PollDiffers(w, a, d.clock); }
      else if w.RollingBack? || w.Refetching? { RollbackDiffers(w, a, d.clock); }
      else { OtherDiffers(w, a, d.clock); }
    }
  }

  lemma {:induction false} RunDiffers(s: State, events: seq<Event>)
    requires DifferingInv(s)
    ensures DifferingInv(Run(s, events))
    decreases |events|
  {
    if events != [] {
      StepDiffers(s, events[0]);
      RunDiffers(Step(s, events[0]), events[1..]);
    }
  }

  /** In every run, a status write other than an apply's or a failure's changes the stored status: polling does not
      churn the object. */
  lemma OnlyChangesAreWritten(s: State, events: seq<Event>, o: Outcome)
    requires Initial(s) && Writes(Run(s, events), Call(o))
    requires var w := Run(s, events).worker; w.Persisting? ==> !w.cause.Applied? && !w.cause.Broke?
    ensures var c, d, k := Run(s, events).cluster, Step(Run(s, events), Call(o)).cluster, Run(s, events).worker.app.key;
            k in c.apps && k in d.apps && d.apps[k].status != c.apps[k].status && d.version == c.version + 1
  {
    var t := Run(s, events);
    RunDiffers(s, events);
    assert t.cluster.apps[t.worker.app.key] == t.worker.app;
    WriteStores(t, o);
  }

  lemma WriteStores(t: State, o: Outcome)
    requires SoundState(t) && Writes(t, Call(o)) && t.cluster.apps[t.worker.app.key] == t.worker.app
    ensures var d, k := Step(t, Call(o)).cluster, t.worker.app.key;
            k in d.apps && d.apps[k].status == t.worker.status &&
            (t.worker.status != t.worker.app.status ==> d.version == t.cluster.version + 1)
  {
    var r := NextCall(t.worker);
    EffectStatuses(t.cluster, r, o);
    StatusStored(t.cluster, t.worker.app, t.worker.status);
  }

  lemma StatusStored(c: Cluster, app: App, s: Status)
    requires MatchesStored(c, app) && c.apps[app.key] == app
    ensures var d := Effect(c, UpdateStatus(app.(status := s)), CALM);
            app.key in d.apps && (s != app.status ==> d.version == c.version + 1)
  {
  }

  // ---------- the books ----------

  /** What a status says of the release (its name, revision, generation, hash, start and failed revision) changes only
      with an apply; but for the failed revision, which the marker sets, and the revision, which Degraded may
      refresh. */
  predicate BooksMove(before: Status, after: Status, cause: Cause) {
    match cause
    case Applied(_) => true
    case Marker => SameBooks(before.(lastFailed := before.revision), after)
    case Degrade => SameBooks(before.(revision := after.revision), after)
    case _ => SameBooks(before, after)
  }

  predicate Bookkeeping(w: Worker) {
    match w
    case Persisting(app, status, cause, _) => !cause.Marker? && BooksMove(app.status, status, cause)
    case WritingAhead(app, status) => BooksMove(app.status, status, Marker)
    case _ => true
  }

  lemma AssessBooks(app: App, hash: Hash, manifest: Manifest, seen: seq<Health.Reading>, a: Assessment, now: Time)
    ensures Bookkeeping(Assess(app, hash, manifest, seen, a, now))
  {
  }

  lemma ResumeBooks(w: Worker, a: Response, now: Time)
    requires !w.Idle?
    ensures Bookkeeping(Resume(w, a, now))
  {
    if w.Fetching? {
      if a.GotRelease? { AssessBooks(w.app, w.hash, a.manifest, [], NO_WORKLOADS, now); }
    } else if w.Polling? {
      if w.todo != [] {
        var seen := w.seen + [Health.Reading(w.todo[0], if a.GotLive? then a.live else Missing)];
        AssessBooks(w.app, w.hash, w.manifest, seen, Tally(seen), now);
      }
    } else if w.RollingBack? || w.Refetching? {
      RollbackBooks(w, a, now);
    } else {
      OtherBooks(w, a, now);
    }
  }

  lemma RollbackBooks(w: Worker, a: Response, now: Time)
    requires w.RollingBack? || w.Refetching?
    ensures Bookkeeping(Resume(w, a, now))
  {
  }

  lemma OtherBooks(w: Worker, a: Response, now: Time)
    requires !w.Idle? && !w.Fetching? && !w.Polling? && !w.RollingBack? && !w.Refetching?
    ensures Bookkeeping(Resume(w, a, now))
  {
  }

  lemma {:induction false} RunBooks(s: State, events: seq<Event>)
    requires SoundState(s) && Bookkeeping(s.worker)
    ensures SoundState(Run(s, events)) && Bookkeeping(Run(s, events).worker)
    decreases |events|
  {
    if events != [] {
      var e := events[0];
      StepSound(s, e);
      if e.Call? && !s.worker.Idle? {
        var (d, a) := Serve(s.cluster, NextCall(s.worker), e.outcome);
        ResumeBooks(s.worker, a, d.clock);
      }
      RunBooks(Step(s, e), events[1..]);
    }
  }

  /** In every run, a status write changes the books of the stored Application only as its cause allows. */
  lemma BooksMoveWithCause(s: State, events: seq<Event>, o: Outcome)
    requires Initial(s) && Writes(Run(s, events), Call(o))
    ensures var t := Run(s, events);
            var c, d, k := t.cluster, Step(t, Call(o)).cluster, t.worker.app.key;
            k in c.apps && k in d.apps &&
            BooksMove(c.apps[k].status, d.apps[k].status, if t.worker.Persisting? then t.worker.cause else Marker)
  {
    var t := Run(s, events);
    RunBooks(s, events);
    assert t.cluster.apps[t.worker.app.key] == t.worker.app;
    WriteStores(t, o);
  }

  // ---------- the release a status names ----------

  /** A status names the release of its own Application, or none as long as nothing was applied. */
  predicate NamesOwn(a: App) {
    a.status.releaseName == a.key.name ||
    (a.status.releaseName == "" && a.status.revision == 0 && a.status.observed == 0)
  }

  predicate NamesOwnLater(w: Worker) {
    w.Persisting? || w.WritingAhead? ==> NamesOwn(w.app.(status := w.status))
  }

  ghost predicate NamesInv(s: State) {
    && SoundState(s)
    && (forall k :: k in s.cluster.apps ==> NamesOwn(s.cluster.apps[k]))
    && (forall i :: 0 <= i < |s.cluster.archive| ==> NamesOwn(s.cluster.archive[i]))
    && (Copy(s.worker).Some? ==> NamesOwn(s.worker.app))
    && NamesOwnLater(s.worker)
    && RevisedOnly(s.worker)
  }

  /** A pass gets to the rollback only from a revision above 1, and so with the release named. */
  predicate RevisedOnly(w: Worker) {
    && (w.WritingAhead? ==> w.status.releaseName == w.app.key.name)
    && (w.RollingBack? || w.Refetching? ==> w.app.status.releaseName == w.app.key.name)
  }

  lemma ResumeNames(w: Worker, a: Response, now: Time)
    requires !w.Idle? && (Copy(w).Some? ==> NamesOwn(w.app)) && RevisedOnly(w)
    requires a.GotApp? ==> NamesOwn(a.app)
    requires w.WritingAhead? && a.GotApp? ==> a.app.status == w.status && a.app.key == w.app.key
    ensures var v := Resume(w, a, now);
            NamesOwnLater(v) && RevisedOnly(v) && (Copy(v).Some? ==> NamesOwn(v.app))
  {
    ResumeKeepsCopy(w, a, now);
    ResumeShape(w, a, now);
    ResumeRollback(w, a, now);
    ResumeDescends(w, a, now);
    NamesByShape(w, a, Resume(w, a, now), now);
  }

  lemma NamesByShape(w: Worker, a: Response, v: Worker, now: Time)
    requires Shaped(w, a, now, v) && (Copy(v).Some? ==> NamesOwn(v.app)) && RevisedOnly(w)
    requires v.RollingBack? ==> v.app.status.releaseName == v.app.key.name
    requires v.Refetching? ==> w.RollingBack? && v.app == w.app
    ensures NamesOwnLater(v) && RevisedOnly(v)
  {
  }

  lemma StoredNames(s: State, e: Event)
    requires NamesInv(s)
    ensures var d := Step(s, e).cluster;
            (forall k :: k in d.apps ==> NamesOwn(d.apps[k])) &&
            (forall i :: 0 <= i < |d.archive| ==> NamesOwn(d.archive[i]))
  {
    var c, d := s.cluster, Step(s, e).cluster;
    StepSound(s, e);
    StatusOrigins(s, e);
    forall k | k in d.apps ensures NamesOwn(d.apps[k]) {
      assert StatusOrigin(s, e, k) && d.apps[k].key == k;
      if k in c.apps { assert c.apps[k].key == k && NamesOwn(c.apps[k]); }
    }
    ArchiveGrows(s, e);
    forall i | 0 <= i < |d.archive| ensures NamesOwn(d.archive[i]) {
      if i < |c.archive| { assert d.archive[i] == d.archive[..|c.archive|][i]; }
    }
  }

  lemma StepNames(s: State, e: Event)
    requires NamesInv(s)
    ensures NamesInv(Step(s, e))
  {
    StepSound(s, e);
    StoredNames(s, e);
    if e.Call? && !s.worker.Idle? {
      var w := s.worker;
      var (d, a) := Serve(s.cluster, NextCall(w), e.outcome);
      AnswerOrigin(s.cluster, NextCall(w), e.outcome);
      if w.WritingAhead? {
        MarkerEchoed(s.cluster, w, e.outcome);
        MarkerKey(s.cluster, w, e.outcome);
      }
      ResumeNames(w, a, d.clock);
    }
  }

  lemma MarkerKey(c: Cluster, w: Worker, o: Outcome)
    requires Sound(c) && w.WritingAhead?
    ensures var a := Serve(c, NextCall(w), o).1; a.GotApp? ==> a.app.key == w.app.key
  {
    assert w.app.key in c.apps ==> c.apps[w.app.key].key == w.app.key;
  }

  lemma {:induction false} RunNames(s: State, events: seq<Event>)
    requires NamesInv(s)
    ensures NamesInv(Run(s, events))
    decreases |events|
  {
    if events != [] {
      StepNames(s, events[0]);
      RunNames(Step(s, events[0]), events[1..]);
    }
  }

  /** In every run, each version of an Application ever stored names its own release, or was never applied. */
  lemma StatusNamesOwnRelease(s: State, events: seq<Event>, i: nat)
    requires Initial(s) && i < |Run(s, events).cluster.archive|
    ensures NamesOwn(Run(s, events).cluster.archive[i])
  {
    RunNames(s, events);
  }
}
