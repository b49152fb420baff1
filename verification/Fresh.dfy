/** Runs in which Application reads are not stale: while a pass works on an Application, the object it read stays
    stored, under its finalizer, with the status the pass last saw. */
module Fresh {
  import opened Api
  import opened Server
  import opened Controller
  import opened Machine
  import opened Passes
  import opened Soundness

  predicate FreshApp(e: Event) {
    e.Call? ==> e.outcome.staleApp.None?
  }

  predicate FreshRead(e: Event) {
    FreshApp(e) && (e.Call? ==> e.outcome.staleSecret.None?)
  }

  predicate Tracks(c: Cluster, app: App) {
    && app.key in c.apps
    && var now := c.apps[app.key];
       && now.uid == app.uid
       && now.status == app.status
       && now.finalizer && app.finalizer
       && (app.deleting ==> now.deleting)
       && app.generation <= now.generation
       && (app.generation == now.generation ==> app.spec == now.spec)
  }

  predicate Following(s: State) {
    Copy(s.worker).Some? && !s.worker.AddingFinalizer? ==> Tracks(s.cluster, s.worker.app)
  }

  ghost predicate FreshInv(s: State) {
    SoundState(s) && Following(s)
  }

  lemma EnvTracks(c: Cluster, e: EnvStep, app: App)
    requires Sound(c) && Tracks(c, app)
    ensures Tracks(Environment(c, e), app)
  {
    assert c.apps[app.key].key == app.key;
    if !About(e, app.key) { EnvOthers(c, e, app.key); }
  }

  /** Every call but an update leaves the stored Applications as they are. */
  lemma OnlyUpdates(c: Cluster, r: Request, o: Outcome)
    requires !r.Update? && !r.UpdateStatus?
    ensures Serve(c, r, o).0.apps == c.apps
  {
  }

  /** Where a pass goes after its updates. */
  lemma AfterUpdates(w: Worker, a: Response, now: Time)
    requires NextCall(w).Update? || NextCall(w).UpdateStatus?
    ensures var v := Resume(w, a, now);
            v.Idle? || (w.WritingAhead? && a.GotApp? && v == Worker.RollingBack(a.app))
  {
  }

  /** After any other call of a pass that has its Application, the pass keeps that copy. */
  lemma KeepsCopy(w: Worker, a: Response, now: Time)
    requires Copy(w).Some? && !NextCall(w).Update? && !NextCall(w).UpdateStatus?
    ensures var v := Resume(w, a, now);
            v.Idle? || (Copy(v) == Copy(w) && !v.AddingFinalizer?)
  {
    if w.Fetching? || w.Polling? { PollConcludes(w, a, now); }
    else if w.ReadingSecret? && a.GotSecret? { AfterSecretShape(w.app, w.ref, a.data, now); }
  }

  lemma UpdateFollows(s: State, o: Outcome)
    requires NextCall(s.worker).Update? || NextCall(s.worker).UpdateStatus?
    requires SoundState(s) && Following(s)
    ensures Following(Step(s, Call(o)))
  {
    var (after, a) := Serve(s.cluster, NextCall(s.worker), o);
    AfterUpdates(s.worker, a, after.clock);
  }

  lemma ReadFollows(s: State, o: Outcome)
    requires s.worker.Reading? && SoundState(s) && o.staleApp.None?
    ensures Following(Step(s, Call(o)))
  {
  }

  lemma OtherCallFollows(s: State, o: Outcome)
    requires Following(s) && Copy(s.worker).Some? && !NextCall(s.worker).Update? && !NextCall(s.worker).UpdateStatus?
    ensures Following(Step(s, Call(o)))
  {
    var (after, a) := Serve(s.cluster, NextCall(s.worker), o);
    OnlyUpdates(s.cluster, NextCall(s.worker), o);
    KeepsCopy(s.worker, a, after.clock);
  }

  lemma CallTracks(s: State, o: Outcome)
    requires FreshInv(s) && !s.worker.Idle? && FreshApp(Call(o))
    ensures FreshInv(Step(s, Call(o)))
  {
    StepSound(s, Call(o));
    if NextCall(s.worker).Update? || NextCall(s.worker).UpdateStatus? { UpdateFollows(s, o); }
    else if s.worker.Reading? { ReadFollows(s, o); }
    else { OtherCallFollows(s, o); }
  }

  lemma StepFresh(s: State, e: Event)
    requires FreshInv(s) && FreshApp(e)
    ensures FreshInv(Step(s, e))
  {
    match e
    case Env(step) =>
      StepSound(s, e);
      if Copy(s.worker).Some? && !s.worker.AddingFinalizer? { EnvTracks(s.cluster, step, s.worker.app); }
    case Call(o) => if !s.worker.Idle? { CallTracks(s, o); }
    case _ =>
  }
}
