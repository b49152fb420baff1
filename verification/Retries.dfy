/** No error is swallowed and no release is forgotten: how a pass can end, in every run and under any script. */
module Retries {
  import opened Api
  import opened Server
  import opened Controller
  import opened Machine
  import opened Soundness

  // ---------- errors ----------

  /** The call is answered with an error that says nothing about the cluster: it was refused, its reply was lost, or a
      write came too late. */
  predicate Fails(c: Cluster, w: Worker, o: Outcome) {
    var a := Serve(c, NextCall(w), o).1;
    !w.Idle? && a.Failure? && a.error in {Unavailable, Conflict}
  }

  /** The two calls whose errors the status tells of, or that only refresh the status: Helm's rollback, and the fetch
      after it. */
  predicate Tolerant(w: Worker) { w.RollingBack? || w.Refetching? }

  /** Somewhere on its way the pass meets an error. */
  ghost predicate Meets(s: State, weather: seq<Beat>)
    decreases Stage(s.worker), Todo(s.worker)
  {
    !s.worker.Idle? &&
    var b := Head(weather);
    var t := Run(s, EnvEvents(b.env));
    TurnDescends(s, b);
    (!b.crash && !Tolerant(s.worker) && Fails(t.cluster, s.worker, b.outcome)) || Meets(Turn(s, b), Rest(weather))
  }

  /** The pass can only end in an error any more. */
  predicate Doomed(w: Worker) {
    w == Idle(Errored) || w == Idle(Crashed) || (w.Persisting? && w.result == Errored)
  }

  lemma FailureDooms(w: Worker, a: Response, now: Time)
    requires !w.Idle? && !Tolerant(w) && a.Failure? && a.error in {Unavailable, Conflict}
    ensures Doomed(Resume(w, a, now))
  {
  }

  lemma DoomedTurn(s: State, b: Beat)
    requires Doomed(s.worker) && !s.worker.Idle?
    ensures Doomed(Turn(s, b).worker)
  {
    TurnAsStep(s, b);
    RunEnvKeepsWorker(s, b.env);
  }

  lemma {:induction false} DoomedEnds(s: State, weather: seq<Beat>)
    requires Doomed(s.worker)
    ensures Drive(s, weather).0.worker in {Idle(Errored), Idle(Crashed)}
    decreases Stage(s.worker), Todo(s.worker)
  {
    if !s.worker.Idle? {
      TurnDescends(s, Head(weather));
      DoomedTurn(s, Head(weather));
      DoomedEnds(Turn(s, Head(weather)), Rest(weather));
    }
  }

  lemma FailingTurn(s: State, b: Beat)
    requires !s.worker.Idle? && !b.crash && !Tolerant(s.worker)
    requires Fails(Run(s, EnvEvents(b.env)).cluster, s.worker, b.outcome)
    ensures Doomed(Turn(s, b).worker)
  {
    TurnAsStep(s, b);
    RunEnvKeepsWorker(s, b.env);
    FailingCall(Run(s, EnvEvents(b.env)), b.outcome);
  }

  lemma FailingCall(t: State, o: Outcome)
    requires !t.worker.Idle? && !Tolerant(t.worker) && Fails(t.cluster, t.worker, o)
    ensures Doomed(Step(t, Call(o)).worker)
  {
    var (d, a) := Serve(t.cluster, NextCall(t.worker), o);
    FailureDooms(t.worker, a, d.clock);
  }

  /** A pass that meets an error anywhere, under any script, ends with an error, so that controller-runtime runs it
      again; unless the process stops. */
  lemma {:induction false} NoErrorSwallowed(s: State, weather: seq<Beat>)
    requires Meets(s, weather)
    ensures Drive(s, weather).0.worker in {Idle(Errored), Idle(Crashed)}
    decreases Stage(s.worker), Todo(s.worker)
  {
    var b := Head(weather);
    TurnDescends(s, b);
    if !b.crash && !Tolerant(s.worker) && Fails(Run(s, EnvEvents(b.env)).cluster, s.worker, b.outcome) {
      FailingTurn(s, b);
      DoomedEnds(Turn(s, b), Rest(weather));
    } else {
      NoErrorSwallowed(Turn(s, b), Rest(weather));
    }
  }

  /** What somebody else has already done is no failure: a namespace made or gone in between does not end a pass. */
  predicate AlreadySo(w: Worker, e: Error) {
    || (w.CreatingNamespace? && e == AlreadyExists)
    || ((w.FindingNamespace? || w.InspectingNamespace? || w.DroppingNamespace?) && e == NotFound)
  }

  lemma RacesAreNoErrors(w: Worker, e: Error, now: Time)
    requires AlreadySo(w, e)
    ensures var v := Resume(w, Failure(e), now);
            !v.Idle? && !Doomed(v) && Copy(v) == Copy(w) &&
            (w.CreatingNamespace? ==> NextCall(v).LoadChart?) &&
            (w.InspectingNamespace? || w.DroppingNamespace? ==> NextCall(v).Update?)
  {
  }

  // ---------- results ----------

  /** What a pass asks for: to be run again after 30 seconds or 5 minutes, or because of an error. */
  predicate Returns(r: Result) { r == Errored || r == RequeueAfter(30) || r == RequeueAfter(300) }

  predicate Promised(w: Worker) { w.Persisting? ==> Returns(w.result) }

  /** The calls that can leave nothing to come back for. */
  predicate Final(w: Worker) { w.Reading? || w.AddingFinalizer? || w.DroppingFinalizer? }

  lemma AssessReturns(app: App, hash: Hash, manifest: Manifest, seen: seq<Health.Reading>, a: Health.Assessment,
                      now: Time)
    ensures var v := Assess(app, hash, manifest, seen, a, now); Promised(v) && (v.Idle? ==> Returns(v.result))
  {
  }

  lemma PollReturns(w: Worker, a: Response, now: Time)
    requires w.Fetching? || w.Polling?
    ensures var v := Resume(w, a, now); Promised(v) && (v.Idle? ==> Returns(v.result))
  {
    if w.Fetching? {
      if a.GotRelease? { AssessReturns(w.app, w.hash, a.manifest, [], Health.NO_WORKLOADS, now); }
    } else if w.todo != [] {
      var live := if a.GotLive? then a.live else Missing;
      var seen := w.seen + [Health.Reading(w.todo[0], live)];
      AssessReturns(w.app, w.hash, w.manifest, seen, Health.Tally(seen), now);
    }
  }

  lemma RollbackReturns(w: Worker, a: Response, now: Time)
    requires w.RollingBack? || w.Refetching?
    ensures var v := Resume(w, a, now); Promised(v) && (v.Idle? ==> Returns(v.result))
  {
  }

  lemma ResumeReturns(w: Worker, a: Response, now: Time)
    requires !w.Idle? && Promised(w)
    ensures var v := Resume(w, a, now); Promised(v) && (v.Idle? && !Final(w) ==> Returns(v.result))
  {
    if w.Fetching? || w.Polling? { PollReturns(w, a, now); }
    else if w.RollingBack? || w.Refetching? { RollbackReturns(w, a, now); }
    else if w.ReadingSecret? && a.GotSecret? { SecretReturns(w.app, w.ref, a.data, now); }
  }

  lemma SecretReturns(app: App, ref: SecretRef, data: Secret, now: Time)
    ensures var v := AfterSecret(app, ref, data, now); Promised(v) && !v.Idle?
  {
  }

  ghost predicate ReturnsInv(s: State) { SoundState(s) && Promised(s.worker) }

  lemma StepReturns(s: State, e: Event)
    requires ReturnsInv(s)
    ensures ReturnsInv(Step(s, e))
  {
    StepSound(s, e);
    if e.Call? && !s.worker.Idle? {
      var (d, a) := Serve(s.cluster, NextCall(s.worker), e.outcome);
      ResumeReturns(s.worker, a, d.clock);
    }
  }

  lemma {:induction false} RunReturns(s: State, events: seq<Event>)
    requires ReturnsInv(s)
    ensures ReturnsInv(Run(s, events))
    decreases |events|
  {
    if events != [] {
      StepReturns(s, events[0]);
      RunReturns(Step(s, events[0]), events[1..]);
    }
  }

  /** There is nothing to come back for: no such Application, as far as the read tells; or one on its way out without a
      finalizer; or the write of the finalizer has been made, and is itself a reason for another pass. */
  predicate NothingLeft(t: State, o: Outcome, d: Cluster) {
    match t.worker
    case Reading(key) =>
      var a := Serve(t.cluster, ReadApp(key), o).1;
      a == Failure(NotFound) || (a.GotApp? && a.app.deleting && !a.app.finalizer)
    case AddingFinalizer(app) => app.key in d.apps && d.apps[app.key].finalizer && d.version == t.cluster.version + 1
    case DroppingFinalizer(app) => app.key !in d.apps || !d.apps[app.key].finalizer
    case _ => false
  }

  lemma SettledReading(t: State, o: Outcome)
    requires t.worker.Reading? && Step(t, Call(o)).worker == Idle(Settled)
    ensures NothingLeft(t, o, Step(t, Call(o)).cluster)
  {
  }

  lemma SettledUpdate(t: State, o: Outcome)
    requires SoundState(t) && (t.worker.AddingFinalizer? || t.worker.DroppingFinalizer?)
    requires Step(t, Call(o)).worker == Idle(Settled)
    ensures NothingLeft(t, o, Step(t, Call(o)).cluster)
  {
    assert t.worker.app.key in t.cluster.apps ==> t.cluster.apps[t.worker.app.key].key == t.worker.app.key;
  }

  /** No release is forgotten. In every run a pass that ends asks to be run again, within 5 minutes or because of an
      error; unless the process stops, or there is nothing left to do for its Application. */
  lemma NeverForgotten(s: State, events: seq<Event>, e: Event)
    requires Initial(s)
    requires !Run(s, events).worker.Idle? && Step(Run(s, events), e).worker.Idle?
    ensures var t, r := Run(s, events), Step(Run(s, events), e).worker.result;
            || (e.Crash? && r == Crashed)
            || (e.Call? && Returns(r))
            || (e.Call? && r == Settled && NothingLeft(t, e.outcome, Step(t, e).cluster))
  {
    RunReturns(s, events);
    if e.Call? { EndingCall(Run(s, events), e.outcome); }
  }

  lemma EndingCall(t: State, o: Outcome)
    requires ReturnsInv(t) && !t.worker.Idle? && Step(t, Call(o)).worker.Idle?
    ensures var r := Step(t, Call(o)).worker.result;
            Returns(r) || (r == Settled && NothingLeft(t, o, Step(t, Call(o)).cluster))
  {
    var (d, a) := Serve(t.cluster, NextCall(t.worker), o);
    ResumeReturns(t.worker, a, d.clock);
    if Final(t.worker) {
      FinalResult(t.worker, a, d.clock);
      if Step(t, Call(o)).worker == Idle(Settled) {
        if t.worker.Reading? { SettledReading(t, o); } else { SettledUpdate(t, o); }
      }
    }
  }

  lemma FinalResult(w: Worker, a: Response, now: Time)
    requires Final(w) && Resume(w, a, now).Idle?
    ensures Resume(w, a, now).result in {Settled, Errored}
  {
  }

  /** A pass that wrote a status and asks to be run again later has the status in the store. */
  lemma RequeueMeansStored(s: State, events: seq<Event>, o: Outcome)
    requires Initial(s) && Run(s, events).worker.Persisting?
    requires Step(Run(s, events), Call(o)).worker != Idle(Errored)
    ensures var w, d := Run(s, events).worker, Step(Run(s, events), Call(o)).cluster;
            w.app.key in d.apps && d.apps[w.app.key].status == w.status
  {
    RunReturns(s, events);
    StoredBySuccess(Run(s, events), o);
  }

  lemma StoredBySuccess(t: State, o: Outcome)
    requires SoundState(t) && t.worker.Persisting? && Step(t, Call(o)).worker != Idle(Errored)
    ensures var w, d := t.worker, Step(t, Call(o)).cluster;
            w.app.key in d.apps && d.apps[w.app.key].status == w.status
  {
    assert t.worker.app.key in t.cluster.apps ==> t.cluster.apps[t.worker.app.key].key == t.worker.app.key;
  }
}
