/** Rollback sticks: once a revision is marked failed and the spec and values are those applied, no sequence of
    reconciles, health changes, ticks, failures or values that cannot be read starts Helm work for the Application
    again. */
module Sticky {
  import opened Api
  import opened Server
  import opened Controller
  import opened Machine
  import opened Passes
  import opened Soundness
  import opened Fresh
  import opened Ledger
  import opened Budget
  import opened Lifecycle

  /** What the Application's values resolve to, if they resolve at all, is what was last applied. */
  predicate ValuesAsApplied(c: Cluster, app: App) {
    CurrentHash(c, app).Some? ==> CurrentHash(c, app) == Some(app.status.valuesHash)
  }

  predicate NothingNew(c: Cluster, app: App) {
    app.status.observed == app.generation && ValuesAsApplied(c, app)
  }

  /** The Application has nothing to apply. */
  predicate Content(c: Cluster, key: AppKey, uid: nat) {
    && key in c.apps
    && c.apps[key].uid == uid
    && c.apps[key].finalizer && !c.apps[key].deleting
    && NothingNew(c, c.apps[key])
  }

  /** The Application is where a failed rollout leaves it. */
  predicate Stuck(c: Cluster, key: AppKey, uid: nat) {
    Content(c, key, uid) && c.apps[key].status.lastFailed != 0
  }

  /** Users neither edit nor delete this Application, nor give it other values. Its values Secret may go missing, lose
      its key or turn unparsable, and come back as it was. */
  predicate Undisturbed(s: State, e: Event, key: AppKey) {
    e.Env? && key in s.cluster.apps ==>
      var d := Environment(s.cluster, e.step);
      key in d.apps && d.apps[key].spec == s.cluster.apps[key].spec && !d.apps[key].deleting &&
      ValuesAsApplied(d, d.apps[key])
  }

  predicate UndisturbedRun(s: State, events: seq<Event>, key: AppKey)
    decreases |events|
  {
    events == [] ||
    (FreshRead(events[0]) && Undisturbed(s, events[0], key) && UndisturbedRun(Step(s, events[0]), events[1..], key))
  }

  /** From this point on, the Application is not applied. */
  ghost predicate NotApplied(log: seq<Entry>, from: nat, uid: nat) {
    forall i :: from <= i < |log| ==> !IsHelmApply(log[i], uid) && !IsApply(log[i], uid)
  }

  ghost predicate NotRolledBack(log: seq<Entry>, from: nat, uid: nat) {
    forall i :: from <= i < |log| ==> !IsRollback(log[i], uid)
  }

  // ---------- nothing new, nothing applied ----------

  /** The points of a pass from which it does not apply. */
  predicate OffApply(w: Worker) {
    InHand(w).None? && KeepsApplied(w) && !OnTheWayOut(w) && !w.AddingFinalizer?
  }

  ghost predicate ContentInv(s: State, key: AppKey, uid: nat, from: nat) {
    && FreshInv(s)
    && Content(s.cluster, key, uid)
    && RightSecret(s.worker)
    && (Copy(s.worker).Some? && s.worker.app.uid == uid ==>
          OffApply(s.worker) && s.worker.app.key == key && s.worker.app.generation == s.cluster.apps[key].generation)
    && from <= |s.log| && NotApplied(s.log, from, uid)
  }

  lemma ResumeOffApply(w: Worker, a: Response, now: Time)
    requires Copy(w).Some? && OffApply(w)
    requires w.ReadingSecret? && a.GotSecret? && DataKey(w.ref) in a.data && a.data[DataKey(w.ref)].Values? ==>
               !NeedsApply(w.app, HashOf(a.data[DataKey(w.ref)].text))
    ensures OffApply(Resume(w, a, now))
  {
    ResumeInHand(w, a, now);
    ResumeKeepsApplied(w, a, now);
    ResumeOut(w, a, now);
    NoFinalizerLater(w, a, now);
  }

  lemma NoFinalizerLater(w: Worker, a: Response, now: Time)
    requires Copy(w).Some? && !w.AddingFinalizer?
    ensures !Resume(w, a, now).AddingFinalizer?
  {
    if NextCall(w).Update? || NextCall(w).UpdateStatus? { AfterUpdates(w, a, now); } else { KeepsCopy(w, a, now); }
  }

  /** A fresh read of a content Application starts a pass that does not apply. */
  lemma ReadOffApply(app: App)
    requires app.finalizer && !app.deleting
    requires app.spec.valuesRef.None? ==> !NeedsApply(app, NoHash)
    ensures OffApply(AfterRead(app))
  {
  }

  lemma ContentStays(s: State, o: Outcome, key: AppKey, uid: nat, from: nat)
    requires ContentInv(s, key, uid, from) && !s.worker.Idle?
    ensures var d := Step(s, Call(o)).cluster;
            key in d.apps && d.apps[key].finalizer && !d.apps[key].deleting
  {
    OwnRequests(s.worker);
    if Copy(s.worker).Some? { assert Known(s.cluster, s.worker.app); }
    if Executes(s.cluster, NextCall(s.worker), o) { EffectApps(s.cluster, NextCall(s.worker), o); }
  }

  lemma ContentCall(s: State, o: Outcome, key: AppKey, uid: nat, from: nat)
    requires ContentInv(s, key, uid, from) && !s.worker.Idle?
    ensures Content(Step(s, Call(o)).cluster, key, uid)
  {
    ContentStays(s, o, key, uid, from);
    CallKeeps(s, o);
    StatusOrigins(s, Call(o));
    assert StatusOrigin(s, Call(o), key);
  }

  lemma OffApplyEntries(s: State, o: Outcome, uid: nat)
    requires Copy(s.worker).Some? && s.worker.app.uid == uid ==> OffApply(s.worker)
    ensures |CallEntries(s, o)| <= 1
    ensures forall i :: 0 <= i < |CallEntries(s, o)| ==>
              !IsHelmApply(CallEntries(s, o)[i], uid) && !IsApply(CallEntries(s, o)[i], uid)
  {
  }

  lemma NotAppliedMore(log: seq<Entry>, more: seq<Entry>, from: nat, uid: nat)
    requires from <= |log| && NotApplied(log, from, uid) && NotApplied(more, 0, uid)
    ensures NotApplied(log + more, from, uid)
  {
  }

  lemma CallContent(s: State, o: Outcome, key: AppKey, uid: nat, from: nat)
    requires ContentInv(s, key, uid, from) && !s.worker.Idle? && FreshRead(Call(o))
    ensures ContentInv(Step(s, Call(o)), key, uid, from)
  {
    var t, w := Step(s, Call(o)), s.worker;
    var (d, a) := Serve(s.cluster, NextCall(w), o);
    StepFresh(s, Call(o));
    ContentCall(s, o, key, uid, from);
    CallKeeps(s, o);
    OffApplyEntries(s, o, uid);
    NotAppliedMore(s.log, CallEntries(s, o), from, uid);
    ResumeRightSecret(w, a, d.clock);
    if Copy(t.worker).Some? && t.worker.app.uid == uid {
      if w.Reading? { StartContent(s, o, key, uid, from); } else { GoOnContent(s, o, key, uid, from); }
    }
  }

  lemma StartContent(s: State, o: Outcome, key: AppKey, uid: nat, from: nat)
    requires ContentInv(s, key, uid, from) && s.worker.Reading? && FreshRead(Call(o))
    requires var w := Step(s, Call(o)).worker; Copy(w).Some? && w.app.uid == uid
    ensures var w := Step(s, Call(o)).worker;
            OffApply(w) && w.app == s.cluster.apps[key] && w.app.key == key && w == AfterRead(w.app)
  {
    var (d, a) := Serve(s.cluster, NextCall(s.worker), o);
    ResumeKeepsCopy(s.worker, a, d.clock);
    assert a.app == s.cluster.apps[s.worker.key] && s.worker.key == key;
    ReadOffApply(a.app);
  }

  lemma GoOnContent(s: State, o: Outcome, key: AppKey, uid: nat, from: nat)
    requires ContentInv(s, key, uid, from) && Copy(s.worker).Some? && FreshRead(Call(o))
    requires var w := Step(s, Call(o)).worker; Copy(w).Some? && w.app.uid == uid
    ensures var w := Step(s, Call(o)).worker;
            s.worker.app.uid == uid && OffApply(w) && w.app.key == s.worker.app.key &&
            w.app.generation == s.worker.app.generation
  {
    var w := s.worker;
    var (d, a) := Serve(s.cluster, NextCall(w), o);
    if NextCall(w).Update? || NextCall(w).UpdateStatus? {
      AfterUpdates(w, a, d.clock);
      if w.WritingAhead? && a.GotApp? { MarkerSame(s.cluster, w, o); }
    } else {
      KeepsCopy(w, a, d.clock);
      if w.ReadingSecret? { SecretContent(s, o, key, uid, from); }
      ResumeOffApply(w, a, d.clock);
    }
  }

  lemma MarkerSame(c: Cluster, w: Worker, o: Outcome)
    requires Sound(c) && w.WritingAhead? && Known(c, w.app)
    ensures var a := Serve(c, NextCall(w), o).1;
            a.GotApp? ==> a.app.uid == w.app.uid && a.app.key == w.app.key && a.app.generation == w.app.generation
  {
  }

  lemma SecretContent(s: State, o: Outcome, key: AppKey, uid: nat, from: nat)
    requires ContentInv(s, key, uid, from) && s.worker.ReadingSecret? && s.worker.app.uid == uid && FreshRead(Call(o))
    ensures var a := Serve(s.cluster, NextCall(s.worker), o).1;
            a.GotSecret? && DataKey(s.worker.ref) in a.data && a.data[DataKey(s.worker.ref)].Values? ==>
              !NeedsApply(s.worker.app, HashOf(a.data[DataKey(s.worker.ref)].text))
  {
    assert s.cluster.apps[key].key == key;
  }

  lemma EnvStillContent(c: Cluster, step: EnvStep, key: AppKey)
    requires Sound(c) && key in c.apps && !c.apps[key].deleting && c.apps[key].finalizer
    requires key in Environment(c, step).apps
    ensures var app, now := c.apps[key], Environment(c, step).apps[key];
            now.uid == app.uid && now.status == app.status && now.finalizer &&
            (now.spec == app.spec && !now.deleting ==> now.generation == app.generation)
  {
    EnvEdits(c, step, key);
    assert c.apps[key].key == key;
    if !About(step, key) { EnvOthers(c, step, key); }
  }

  lemma EnvContent(s: State, step: EnvStep, key: AppKey, uid: nat, from: nat)
    requires ContentInv(s, key, uid, from) && Undisturbed(s, Env(step), key)
    ensures ContentInv(Step(s, Env(step)), key, uid, from)
  {
    StepFresh(s, Env(step));
    EnvStillContent(s.cluster, step, key);
    NotAppliedMore(s.log, EnvEntries(s.cluster, step), from, uid);
  }

  lemma StepContent(s: State, e: Event, key: AppKey, uid: nat, from: nat)
    requires ContentInv(s, key, uid, from) && FreshRead(e) && Undisturbed(s, e, key)
    ensures ContentInv(Step(s, e), key, uid, from)
  {
    match e
    case Env(step) => EnvContent(s, step, key, uid, from);
    case Call(o) => if !s.worker.Idle? { CallContent(s, o, key, uid, from); }
    case _ =>
  }

  lemma {:induction false} RunContent(s: State, events: seq<Event>, key: AppKey, uid: nat, from: nat)
    requires ContentInv(s, key, uid, from) && UndisturbedRun(s, events, key)
    ensures ContentInv(Run(s, events), key, uid, from)
    decreases |events|
  {
    if events != [] {
      StepContent(s, events[0], key, uid, from);
      RunContent(Step(s, events[0]), events[1..], key, uid, from);
    }
  }

  /** With nothing new, nothing is applied, whatever passes, faults, rollbacks and unreadable values there are. */
  lemma NothingNewNothingApplied(s: State, events: seq<Event>, key: AppKey)
    requires SoundState(s) && s.worker.Idle? && key in s.cluster.apps &&
             Content(s.cluster, key, s.cluster.apps[key].uid)
    requires UndisturbedRun(s, events, key)
    ensures var uid := s.cluster.apps[key].uid;
            Content(Run(s, events).cluster, key, uid) && NotApplied(Run(s, events).log, |s.log|, uid)
  {
    RunContent(s, events, key, s.cluster.apps[key].uid, |s.log|);
  }

  // ---------- once rolled back, no rollback ----------

  /** The points of a pass from which it does not roll back, and leaves the marker. */
  predicate OffRollback(w: Worker) {
    && !w.WritingAhead? && !w.RollingBack? && !w.Refetching?
    && (w.Persisting? && !w.cause.Applied? ==> w.status.lastFailed == w.app.status.lastFailed)
  }

  ghost predicate HeldInv(s: State, key: AppKey, uid: nat, from: nat) {
    && ContentInv(s, key, uid, from)
    && s.cluster.apps[key].status.lastFailed != 0
    && (Copy(s.worker).Some? && s.worker.app.uid == uid ==> OffRollback(s.worker))
    && NotRolledBack(s.log, from, uid)
  }

  lemma PollOffRollback(w: Worker, a: Response, now: Time)
    requires (w.Fetching? || w.Polling?) && w.app.status.lastFailed != 0
    ensures OffRollback(Resume(w, a, now))
  {
    PollShape(w, a, now);
    PollConcludes(w, a, now);
  }

  lemma ResumeOffRollback(w: Worker, a: Response, now: Time)
    requires !w.Idle? && OffRollback(w) && (Copy(w).Some? ==> w.app.status.lastFailed != 0)
    ensures OffRollback(Resume(w, a, now))
  {
    if w.Fetching? || w.Polling? {
      PollOffRollback(w, a, now);
    } else {
      ResumeShape(w, a, now);
      ResumeRollback(w, a, now);
    }
  }

  lemma OffRollbackEntries(s: State, o: Outcome, uid: nat)
    requires Copy(s.worker).Some? && s.worker.app.uid == uid ==> OffRollback(s.worker)
    ensures NotRolledBack(CallEntries(s, o), 0, uid)
  {
  }

  lemma NotRolledBackMore(log: seq<Entry>, more: seq<Entry>, from: nat, uid: nat)
    requires from <= |log| && NotRolledBack(log, from, uid) && NotRolledBack(more, 0, uid)
    ensures NotRolledBack(log + more, from, uid)
  {
  }

  lemma MarkerStays(s: State, o: Outcome, key: AppKey, uid: nat, from: nat)
    requires HeldInv(s, key, uid, from) && !s.worker.Idle?
    ensures var d := Step(s, Call(o)).cluster; key in d.apps && d.apps[key].status.lastFailed != 0
  {
    ContentStays(s, o, key, uid, from);
    StatusOrigins(s, Call(o));
    assert StatusOrigin(s, Call(o), key);
  }

  lemma CallHeld(s: State, o: Outcome, key: AppKey, uid: nat, from: nat)
    requires HeldInv(s, key, uid, from) && !s.worker.Idle? && FreshRead(Call(o))
    ensures HeldInv(Step(s, Call(o)), key, uid, from)
  {
    var t, w := Step(s, Call(o)), s.worker;
    CallContent(s, o, key, uid, from);
    MarkerStays(s, o, key, uid, from);
    OffRollbackEntries(s, o, uid);
    NotRolledBackMore(s.log, CallEntries(s, o), from, uid);
    if Copy(t.worker).Some? && t.worker.app.uid == uid {
      var (d, a) := Serve(s.cluster, NextCall(w), o);
      if w.Reading? {
        StartContent(s, o, key, uid, from);
        ReadOffRollback(t.worker.app);
      } else {
        GoOnContent(s, o, key, uid, from);
        assert Tracks(s.cluster, w.app);
        ResumeOffRollback(w, a, d.clock);
      }
    }
  }

  lemma ReadOffRollback(app: App)
    ensures OffRollback(AfterRead(app))
  {
  }

  lemma StepHeld(s: State, e: Event, key: AppKey, uid: nat, from: nat)
    requires HeldInv(s, key, uid, from) && FreshRead(e) && Undisturbed(s, e, key)
    ensures HeldInv(Step(s, e), key, uid, from)
  {
    match e
    case Env(step) => EnvHeld(s, step, key, uid, from);
    case Call(o) => if !s.worker.Idle? { CallHeld(s, o, key, uid, from); }
    case _ =>
  }

  lemma EnvHeld(s: State, step: EnvStep, key: AppKey, uid: nat, from: nat)
    requires HeldInv(s, key, uid, from) && Undisturbed(s, Env(step), key)
    ensures HeldInv(Step(s, Env(step)), key, uid, from)
  {
    EnvContent(s, step, key, uid, from);
    EnvStatuses(s.cluster, step);
    NotRolledBackMore(s.log, EnvEntries(s.cluster, step), from, uid);
  }

  lemma {:induction false} RunHeld(s: State, events: seq<Event>, key: AppKey, uid: nat, from: nat)
    requires HeldInv(s, key, uid, from) && UndisturbedRun(s, events, key)
    ensures HeldInv(Run(s, events), key, uid, from)
    decreases |events|
  {
    if events != [] {
      StepHeld(s, events[0], key, uid, from);
      RunHeld(Step(s, events[0]), events[1..], key, uid, from);
    }
  }

  /** Between passes, from a stuck Application on: it stays stuck, and no Helm work is done for it. */
  lemma RollbackSticks(s: State, events: seq<Event>, key: AppKey)
    requires SoundState(s) && s.worker.Idle? && key in s.cluster.apps && Stuck(s.cluster, key, s.cluster.apps[key].uid)
    requires UndisturbedRun(s, events, key)
    ensures var uid := s.cluster.apps[key].uid;
            Stuck(Run(s, events).cluster, key, uid) && NoHelmWork(Run(s, events).log, |s.log|, uid)
  {
    RunHeld(s, events, key, s.cluster.apps[key].uid, |s.log|);
  }

  /** No Helm action is taken for the Application from this point on, and no apply put on record. */
  ghost predicate NoHelmWork(log: seq<Entry>, from: nat, uid: nat) {
    NotApplied(log, from, uid) && NotRolledBack(log, from, uid)
  }
}
