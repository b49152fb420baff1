/** What the statuses a pass computes can look like, call by call. */
module Passes {
  import opened Api
  import opened Server
  import opened Health
  import opened Controller

  /** The two differ at most in phase and conditions. */
  predicate SameBooks(s: Status, t: Status) {
    && t.observed == s.observed && t.releaseName == s.releaseName && t.revision == s.revision
    && t.valuesHash == s.valuesHash && t.lastFailed == s.lastFailed && t.started == s.started
  }

  /** The write a pass is about to make, compared with the Application it works on. */
  predicate BooksKept(v: Worker) {
    match v
    case Persisting(app, status, cause, _) => !cause.Applied? && SameBooks(app.status, status)
    case WritingAhead(app, status) =>
      app.status.lastFailed == 0 && 1 < app.status.revision &&
      SameBooks(app.status.(lastFailed := app.status.revision), status)
    case _ => true
  }

  lemma SetDegradedShape(app: App, local: Status, reason: string, message: Text, seconds: nat, now: Time)
    ensures var v := SetDegraded(app, local, reason, message, seconds, now);
            v == Idle(RequeueAfter(seconds)) ||
            (v.Persisting? && v.app == app && v.cause == Degrade && v.result == RequeueAfter(seconds) &&
             SameBooks(local, v.status) && v.status.phase == Phase.Degraded)
  {
  }

  lemma HandleUnhealthyShape(app: App, a: Assessment, now: Time)
    ensures var v := HandleUnhealthy(app, a, now);
            BooksKept(v) && (v.Idle? || ((v.Persisting? || v.WritingAhead?) && v.app == app))
  {
  }

  lemma AssessShape(app: App, hash: Hash, manifest: Manifest, seen: seq<Health.Reading>, a: Assessment, now: Time)
    ensures var v := Assess(app, hash, manifest, seen, a, now);
            BooksKept(v) && (v.Idle? || ((v.Persisting? || v.WritingAhead?) && v.app == app))
  {
    if Unhealthy(app, a.grade, now) { HandleUnhealthyShape(app, a, now); }
  }

  lemma AfterReadingShape(app: App, hash: Hash, manifest: Manifest, todo: seq<Doc>, seen: seq<Health.Reading>,
                          live: Live, now: Time)
    requires todo != []
    ensures var v := AfterReading(app, hash, manifest, todo, seen, live, now);
            BooksKept(v) && (v.Idle? || ((v.Persisting? || v.WritingAhead? || v.Polling?) && v.app == app))
  {
    if !live.Uncomputable? {
      var more := seen + [Health.Reading(todo[0], live)];
      AssessShape(app, hash, manifest, more, Tally(more), now);
    }
  }

  lemma AfterFetchShape(app: App, hash: Hash, manifest: Manifest, now: Time)
    ensures var v := AfterFetch(app, hash, manifest, now);
            BooksKept(v) && (v.Idle? || ((v.Persisting? || v.WritingAhead? || v.Polling?) && v.app == app))
  {
    AssessShape(app, hash, manifest, [], NO_WORKLOADS, now);
  }

  lemma AfterSecretShape(app: App, ref: SecretRef, data: Secret, now: Time)
    ensures var v := AfterSecret(app, ref, data, now);
            BooksKept(v) && v.app == app && (v.Persisting? || v.Fetching? || v.FindingNamespace?)
  {
  }

  /** The only writes of a pass that touch the books are the apply, the marker and the revision after a rollback. */
  predicate Shaped(w: Worker, a: Response, now: Time, v: Worker) {
    if w.Applying? && a.GotRelease? then
      v == Persisting(w.app, AppliedStatus(w.app, w.values, a.revision, now), Applied(SourceOf(w.app.spec, w.values)),
                      RequeueAfter(HEALTH_POLL))
    else if w.Refetching? && a.GotRelease? then
      v.Idle? || (v.Persisting? && v.app == w.app && v.cause == Degrade &&
                  SameBooks(w.app.status.(revision := a.revision), v.status))
    else BooksKept(v)
  }

  lemma PollShape(w: Worker, a: Response, now: Time)
    requires w.Fetching? || w.Polling?
    ensures BooksKept(Resume(w, a, now))
  {
    if w.Fetching? {
      if a.GotRelease? { AfterFetchShape(w.app, w.hash, a.manifest, now); }
    } else if w.todo != [] {
      if a.GotLive? { AfterReadingShape(w.app, w.hash, w.manifest, w.todo, w.seen, a.live, now); }
      AfterReadingShape(w.app, w.hash, w.manifest, w.todo, w.seen, Missing, now);
    }
  }

  lemma RollbackShape(w: Worker, a: Response, now: Time)
    requires w.RollingBack? || w.Refetching?
    ensures Shaped(w, a, now, Resume(w, a, now))
  {
    var app := w.app;
    if w.RollingBack? {
      if a.Failure? {
        SetDegradedShape(app, app.status, "RollbackFailed", Because("helm rollback", app.key.name, a.error),
                         HEALTH_POLL, now);
      }
    } else {
      if a.GotRelease? {
        SetDegradedShape(app, app.status.(revision := a.revision), "RolledBack", FailedRevision(app.status.lastFailed),
                         STEADY_POLL, now);
      }
      SetDegradedShape(app, app.status, "RolledBack", FailedRevision(app.status.lastFailed), STEADY_POLL, now);
    }
  }

  lemma ResumeShape(w: Worker, a: Response, now: Time)
    requires !w.Idle?
    ensures Shaped(w, a, now, Resume(w, a, now))
  {
    if w.Fetching? || w.Polling? { PollShape(w, a, now); }
    else if w.RollingBack? || w.Refetching? { RollbackShape(w, a, now); }
    else if w.ReadingSecret? && a.GotSecret? { AfterSecretShape(w.app, w.ref, a.data, now); }
  }

  /** Where a pass on its way to the rollback comes from. */
  lemma ResumeRollback(w: Worker, a: Response, now: Time)
    ensures var v := Resume(w, a, now);
            && (v.RollingBack? && !w.RollingBack? ==> w.WritingAhead? && a.GotApp? && v.app == a.app)
            && (v.Refetching? && !w.Refetching? ==> w.RollingBack? && v.app == w.app)
            && (v.WritingAhead? && !w.WritingAhead? ==> w.Polling? || w.Fetching?)
  {
    if w.Fetching? || w.Polling? { PollConcludes(w, a, now); }
  }

  lemma PollConcludes(w: Worker, a: Response, now: Time)
    requires w.Fetching? || w.Polling?
    ensures var v := Resume(w, a, now); v.Idle? || ((v.Polling? || Concluded(v)) && v.app == w.app)
  {
    if w.Fetching? {
      if a.GotRelease? { AfterFetchShape(w.app, w.hash, a.manifest, now); }
    } else if w.todo != [] {
      if a.GotLive? { AfterReadingShape(w.app, w.hash, w.manifest, w.todo, w.seen, a.live, now); }
      AfterReadingShape(w.app, w.hash, w.manifest, w.todo, w.seen, Missing, now);
    }
  }

  /** The pass cleans up after a deletion. */
  predicate OnTheWayOut(w: Worker) {
    w.CheckingRelease? || w.Uninstalling? || w.InspectingNamespace? || w.ListingOthers? || w.DroppingNamespace? ||
    w.DroppingFinalizer?
  }

  lemma ResumeOut(w: Worker, a: Response, now: Time)
    requires !OnTheWayOut(w) && !w.Reading?
    ensures !OnTheWayOut(Resume(w, a, now))
  {
    if w.Fetching? || w.Polling? { PollConcludes(w, a, now); }
    else if w.ReadingSecret? && a.GotSecret? { AfterSecretShape(w.app, w.ref, a.data, now); }
  }
}
