/** With fresh reads of Secrets, the applies of an Application are paid for by its edits: a reconcile loop does no Helm
    work of its own accord. Reads of Applications may be as stale as the cache likes. */
module Budget {
  import opened Api
  import opened Server
  import opened Controller
  import opened Machine
  import opened Passes
  import opened Soundness
  import opened Ledger
  import opened Bounded

  /** The hash that resolving the Application's values would give now, if it would succeed. */
  function CurrentHash(c: Cluster, app: App): Option<Hash> {
    match app.spec.valuesRef
    case None => Some(NoHash)
    case Some(ref) =>
      var key := SecretKey(app.key.namespace, ref.name);
      if key in c.secrets && DataKey(ref) in c.secrets[key] && c.secrets[key][DataKey(ref)].Values? then
        Some(HashOf(c.secrets[key][DataKey(ref)].text))
      else None
  }

  /** Nothing to apply: the spec and the values are those last applied. */
  predicate Clean(c: Cluster, app: App) {
    app.status.observed == app.generation && CurrentHash(c, app) == Some(app.status.valuesHash)
  }

  /** The values a pass on its way to an apply has resolved. */
  function InHand(w: Worker): Option<Hash> {
    match w
    case FindingNamespace(_, values) => Some(HashValues(values))
    case CreatingNamespace(_, values) => Some(HashValues(values))
    case LoadingChart(_, values) => Some(HashValues(values))
    case CheckingHistory(_, values) => Some(HashValues(values))
    case Applying(_, values, _) => Some(HashValues(values))
    case Persisting(_, status, cause, _) => if cause.Applied? then Some(status.valuesHash) else None
    case _ => None
  }

  predicate FreshSecrets(e: Event) {
    e.Call? ==> e.outcome.staleSecret.None?
  }

  /** Each apply but the first is paid for by an edit since the one before it; while the stored spec and values
      are the applied ones, the next apply is still to be paid for. Marking for deletion, which raises the generation
      too, pays for nothing. */
  ghost predicate Affordable(s: State, app: App) {
    Count(s.log, Applies, app.uid) <=
      Count(s.log, Edits, app.uid) + if app.deleting || Clean(s.cluster, app) then 1 else 0
  }

  /** An apply in progress that can still be put on record is paid for, and so is the next one if the values changed
      since they were read. */
  ghost predicate PrepaidFor(s: State, app: App, hash: Hash) {
    MatchesStored(s.cluster, app) ==>
      Count(s.log, Applies, app.uid) + (if CurrentHash(s.cluster, app) == Some(hash) then 0 else 1) <=
        Count(s.log, Edits, app.uid)
  }

  ghost predicate Prepaid(s: State) {
    InHand(s.worker).Some? ==> PrepaidFor(s, s.worker.app, InHand(s.worker).value)
  }

  predicate ApplyShape(w: Worker) {
    w.Persisting? && w.cause.Applied? ==> w.status.observed == w.app.generation
  }

  ghost predicate BudgetInv(s: State) {
    && SoundState(s)
    && LogBelow(s.log, s.cluster.uids)
    && (forall k :: k in s.cluster.apps ==> Affordable(s, s.cluster.apps[k]))
    && ApplyShape(s.worker)
    && Wanted(s.worker)
    && Prepaid(s)
  }

  /** An edit of a Secret is charged to every Application whose values it can change. */
  lemma EditCharged(s: State, step: EnvStep, app: App)
    requires app.key in s.cluster.apps && Sound(s.cluster)
    requires s.cluster.apps[app.key].uid == app.uid && s.cluster.apps[app.key].spec == app.spec
    ensures var t := Step(s, Env(step));
            CurrentHash(t.cluster, app) != CurrentHash(s.cluster, app) ==>
              Count(t.log, Edits, app.uid) == Count(s.log, Edits, app.uid) + 1
  {
    var es := EnvEntries(s.cluster, step);
    CountMore(s.log, es, Edits, app.uid);
    if CurrentHash(Environment(s.cluster, step), app) != CurrentHash(s.cluster, app) {
      HashChange(s.cluster, step, app);
      ReaderListed(s.cluster, step.secret, app);
      assert Counts(es[0], Edits, app.uid);
    }
  }

  /** Only a change to the Secret it names changes what an Application's values resolve to. */
  lemma HashChange(c: Cluster, step: EnvStep, app: App)
    requires CurrentHash(Environment(c, step), app) != CurrentHash(c, app)
    ensures (step.PutSecret? || step.DropSecret?) && References(app, step.secret)
  {
    if step.PutSecret? || step.DropSecret? {} else { SecretsKept(c, step); }
  }

  lemma SecretsKept(c: Cluster, step: EnvStep)
    requires !step.PutSecret? && !step.DropSecret?
    ensures Environment(c, step).secrets == c.secrets
  {
  }

  lemma ReaderListed(c: Cluster, secret: SecretKey, app: App)
    requires app.key in c.apps && c.apps[app.key].key == app.key
    requires c.apps[app.key].uid == app.uid && c.apps[app.key].spec == app.spec
    ensures References(app, secret) ==> app.uid in Readers(c.apps, secret)
  {
  }

  lemma {:induction false} FreshCountsNothing(log: seq<Entry>, uids: nat, uid: nat)
    requires LogBelow(log, uids) && uids <= uid
    ensures Count(log, Applies, uid) == 0
  {
    if log != [] {
      var n := |log| - 1;
      assert forall i :: 0 <= i < n ==> log[..n][i] == log[i];
      FreshCountsNothing(log[..n], uids, uid);
    }
  }

  /** What users' steps do to one stored Application. */
  lemma EnvEdits(c: Cluster, step: EnvStep, k: AppKey)
    requires Sound(c) && k in c.apps && k in Environment(c, step).apps
    ensures var app, now := c.apps[k], Environment(c, step).apps[k];
            now.key == app.key && now.uid == app.uid && now.status == app.status &&
            (app.deleting ==> now.deleting) &&
            if step.EditSpec? && step.key == k && app.spec != step.spec then
              EnvEntries(c, step) == [SpecEdited(app.uid)] && now.generation == app.generation + 1
            else now.spec == app.spec && (now.generation == app.generation || now.deleting)
  {
    assert c.apps[k].key == k;
    if !About(step, k) { EnvOthers(c, step, k); }
  }

  lemma EnvAffordable(s: State, step: EnvStep, k: AppKey)
    requires BudgetInv(s) && k in Step(s, Env(step)).cluster.apps
    ensures Affordable(Step(s, Env(step)), Step(s, Env(step)).cluster.apps[k])
  {
    var t := Step(s, Env(step));
    var es := EnvEntries(s.cluster, step);
    var now := t.cluster.apps[k];
    CountMore(s.log, es, Applies, now.uid);
    CountMore(s.log, es, Edits, now.uid);
    if k in s.cluster.apps {
      EnvEdits(s.cluster, step, k);
      EditCharged(s, step, s.cluster.apps[k]);
      assert Affordable(s, s.cluster.apps[k]);
    } else {
      EnvStatuses(s.cluster, step);
      FreshCountsNothing(s.log, s.cluster.uids, now.uid);
    }
  }

  /** A copy that matches what is stored after a step is what was stored before it. */
  lemma EnvMatched(c: Cluster, step: EnvStep, app: App)
    requires Sound(c) && Known(c, app) && MatchesStored(Environment(c, step), app)
    ensures app.key in c.apps && c.apps[app.key] == app
  {
  }

  lemma CallMatched(s: State, o: Outcome, app: App)
    requires SoundState(s) && !s.worker.Idle? && Known(s.cluster, app) && MatchesStored(Step(s, Call(o)).cluster, app)
    ensures app.key in s.cluster.apps && s.cluster.apps[app.key] == app
  {
    var c, r := s.cluster, NextCall(s.worker);
    if Executes(c, r, o) {
      if r.Update? || r.UpdateStatus? { assert c.apps[r.app.key].key == r.app.key; } else { EffectKeepsApps(c, r, o); }
    }
  }

  lemma EnvPrepaid(s: State, step: EnvStep)
    requires BudgetInv(s)
    ensures Prepaid(Step(s, Env(step)))
  {
    var t, w := Step(s, Env(step)), s.worker;
    if InHand(w).Some? && MatchesStored(t.cluster, w.app) {
      CountMore(s.log, EnvEntries(s.cluster, step), Applies, w.app.uid);
      CountMore(s.log, EnvEntries(s.cluster, step), Edits, w.app.uid);
      EnvMatched(s.cluster, step, w.app);
      EditCharged(s, step, w.app);
    }
  }

  lemma EnvBudget(s: State, step: EnvStep)
    requires BudgetInv(s)
    ensures BudgetInv(Step(s, Env(step)))
  {
    var t := Step(s, Env(step));
    StepSound(s, Env(step));
    forall k | k in t.cluster.apps ensures Affordable(t, t.cluster.apps[k]) { EnvAffordable(s, step, k); }
    EnvPrepaid(s, step);
    LogStaysBelow(s, Env(step));
  }

  predicate SameDesire(a: App, b: App) {
    a.key == b.key && a.uid == b.uid && a.spec == b.spec && a.generation == b.generation && a.deleting == b.deleting
  }

  /** Calls touch no Secret and no generation, and only a write of an apply counts as one. */
  lemma CallKeeps(s: State, o: Outcome)
    requires SoundState(s) && !s.worker.Idle?
    ensures var t := Step(s, Call(o));
            && t.cluster.secrets == s.cluster.secrets
            && (forall k :: k in t.cluster.apps ==>
                  k in s.cluster.apps && SameDesire(s.cluster.apps[k], t.cluster.apps[k]))
  {
    if Executes(s.cluster, NextCall(s.worker), o) { EffectKeeps(s.cluster, NextCall(s.worker), o); }
  }

  lemma EffectKeeps(c: Cluster, r: Request, o: Outcome)
    requires Sound(c) && Admits(c, r)
    ensures var d := Effect(c, r, o);
            d.secrets == c.secrets && forall k :: k in d.apps ==> k in c.apps && SameDesire(c.apps[k], d.apps[k])
  {
    match r
    case Update(app) =>
      assert c.apps[app.key].key == app.key;
      StoreKeeps(c, c.apps[app.key].(finalizer := app.finalizer));
    case UpdateStatus(app) =>
      assert c.apps[app.key].key == app.key;
      StoreKeeps(c, c.apps[app.key].(status := app.status));
    case _ => EffectKeepsApps(c, r, o);
  }

  lemma StoreKeeps(c: Cluster, app: App)
    requires app.key in c.apps && SameDesire(c.apps[app.key], app)
    ensures var d := Store(c, app);
            d.secrets == c.secrets && forall k :: k in d.apps ==> k in c.apps && SameDesire(c.apps[k], d.apps[k])
  {
  }

  /** A pass gets values in hand by reading them, and only if they, or the spec, are not the ones applied. */
  lemma ResumeInHand(w: Worker, a: Response, now: Time)
    requires !w.Idle? && (w.Reading? || Copy(w).Some?)
    ensures var v := Resume(w, a, now);
            InHand(v).Some? ==>
              (InHand(v) == InHand(w) && v.app == w.app) ||
              (w.Reading? && a.GotApp? && v.app == a.app && a.app.finalizer && a.app.spec.valuesRef.None? &&
               InHand(v).value == NoHash && NeedsApply(v.app, NoHash)) ||
              (w.ReadingSecret? && a.GotSecret? && v.app == w.app && DataKey(w.ref) in a.data &&
               a.data[DataKey(w.ref)].Values? && InHand(v).value == HashOf(a.data[DataKey(w.ref)].text) &&
               NeedsApply(v.app, InHand(v).value))
    ensures ApplyShape(w) ==> ApplyShape(Resume(w, a, now))
  {
    ResumeShape(w, a, now);
    if w.Fetching? || w.Polling? { PollConcludes(w, a, now); }
  }

  /** The Secret a waiting pass reads is the one its Application's spec names. */
  predicate RightSecret(w: Worker) {
    w.ReadingSecret? ==> w.app.spec.valuesRef == Some(w.ref)
  }

  lemma ResumeRightSecret(w: Worker, a: Response, now: Time)
    requires RightSecret(w)
    ensures RightSecret(Resume(w, a, now))
  {
    if w.Fetching? || w.Polling? { PollConcludes(w, a, now); }
    else if w.ReadingSecret? && a.GotSecret? { AfterSecretShape(w.app, w.ref, a.data, now); }
  }

  /** A pass that finds values to apply has read a stored Application that is not clean, hence affordable; or one that
      is not stored any more, and then its apply will not be put on record. */
  lemma ReadPrepaid(s: State, o: Outcome)
    requires BudgetInv(s) && RightSecret(s.worker) && FreshSecrets(Call(o))
    requires s.worker.Reading? || s.worker.ReadingSecret?
    ensures Prepaid(Step(s, Call(o)))
  {
    var w, r := s.worker, NextCall(s.worker);
    var (after, a) := Serve(s.cluster, r, o);
    ResumeInHand(w, a, after.clock);
    var t := Step(s, Call(o));
    assert CallEntries(s, o) == [] && s.log + [] == s.log;
    if InHand(t.worker).Some? && MatchesStored(t.cluster, t.worker.app) {
      ServeSound(s.cluster, r, o);
      assert Affordable(s, s.cluster.apps[t.worker.app.key]);
      ReadsLive(w, a, after.clock);
    }
  }

  /** Only what is not being deleted is applied. */
  predicate Wanted(w: Worker) {
    InHand(w).Some? || w.ReadingSecret? ==> !w.app.deleting
  }

  lemma ReadsLive(w: Worker, a: Response, now: Time)
    requires !w.Idle? && Wanted(w)
    ensures Wanted(Resume(w, a, now))
  {
    if w.Fetching? || w.Polling? { PollConcludes(w, a, now); }
    ResumeShape(w, a, now);
  }

  lemma CallPrepaid(s: State, o: Outcome)
    requires BudgetInv(s) && !s.worker.Idle? && !s.worker.Reading? && !s.worker.ReadingSecret?
    ensures Prepaid(Step(s, Call(o)))
  {
    var w, r := s.worker, NextCall(s.worker);
    var (after, a) := Serve(s.cluster, r, o);
    ResumeInHand(w, a, after.clock);
    CallKeeps(s, o);
    var t := Step(s, Call(o));
    if InHand(t.worker).Some? && MatchesStored(t.cluster, t.worker.app) {
      CallMatched(s, o, w.app);
      CountMore(s.log, CallEntries(s, o), Applies, w.app.uid);
      CountMore(s.log, CallEntries(s, o), Edits, w.app.uid);
    }
  }

  lemma CallAffordable(s: State, o: Outcome, k: AppKey)
    requires BudgetInv(s) && !s.worker.Idle? && k in Step(s, Call(o)).cluster.apps
    requires KeepsApplied(s.worker)
    ensures Affordable(Step(s, Call(o)), Step(s, Call(o)).cluster.apps[k])
  {
    CallKeeps(s, o);
    StatusOrigins(s, Call(o));
    assert StatusOrigin(s, Call(o), k);
    assert Affordable(s, s.cluster.apps[k]);
    if Writes(s, Call(o)) && k == s.worker.app.key {
      WriteAffordable(s, o);
    } else {
      if Writes(s, Call(o)) { assert s.cluster.apps[s.worker.app.key].uid == s.worker.app.uid; }
      OthersAffordable(s, o, k);
    }
  }

  /** An Application whose status a call does not write stays affordable. */
  lemma OthersAffordable(s: State, o: Outcome, k: AppKey)
    requires k in s.cluster.apps && Affordable(s, s.cluster.apps[k])
    requires Writes(s, Call(o)) ==> s.worker.app.uid != s.cluster.apps[k].uid
    requires var d := Step(s, Call(o)).cluster;
             k in d.apps && SameDesire(s.cluster.apps[k], d.apps[k]) && d.apps[k].status == s.cluster.apps[k].status &&
             d.secrets == s.cluster.secrets
    ensures Affordable(Step(s, Call(o)), Step(s, Call(o)).cluster.apps[k])
  {
    var es, before := CallEntries(s, o), s.cluster.apps[k];
    CountMore(s.log, es, Applies, before.uid);
    CountMore(s.log, es, Edits, before.uid);
    OthersUncounted(s, o, before.uid);
    var now := Step(s, Call(o)).cluster.apps[k];
    assert CurrentHash(Step(s, Call(o)).cluster, now) == CurrentHash(s.cluster, before);
  }

  /** Calls other than its own status writes cost an Application nothing. */
  lemma OthersUncounted(s: State, o: Outcome, uid: nat)
    requires Writes(s, Call(o)) ==> s.worker.app.uid != uid
    ensures CallEntries(s, o) != [] ==> !Counts(CallEntries(s, o)[0], Applies, uid)
  {
  }

  lemma WriteAffordable(s: State, o: Outcome)
    requires Writes(s, Call(o)) && KeepsApplied(s.worker) && Prepaid(s) && ApplyShape(s.worker)
    requires var k := s.worker.app.key;
             k in s.cluster.apps && s.cluster.apps[k] == s.worker.app && Affordable(s, s.worker.app) &&
             k in Step(s, Call(o)).cluster.apps && SameDesire(s.worker.app, Step(s, Call(o)).cluster.apps[k]) &&
             Step(s, Call(o)).cluster.apps[k].status == s.worker.status &&
             Step(s, Call(o)).cluster.secrets == s.cluster.secrets
    ensures Affordable(Step(s, Call(o)), Step(s, Call(o)).cluster.apps[s.worker.app.key])
  {
    var t, app := Step(s, Call(o)), s.worker.app;
    var now := t.cluster.apps[app.key];
    WriteCounts(s, o);
    SameHash(s.cluster, t.cluster, app, now);
    if s.worker.Persisting? && s.worker.cause.Applied? {
      assert Clean(t.cluster, now) <==> CurrentHash(s.cluster, app) == Some(s.worker.status.valuesHash);
    } else {
      assert Clean(t.cluster, now) == Clean(s.cluster, app);
    }
  }

  /** A status write is charged exactly if it records an apply. */
  lemma WriteCounts(s: State, o: Outcome)
    requires Writes(s, Call(o))
    ensures var log, uid := Step(s, Call(o)).log, s.worker.app.uid;
            Count(log, Edits, uid) == Count(s.log, Edits, uid) &&
            Count(log, Applies, uid) ==
            Count(s.log, Applies, uid) + if s.worker.Persisting? && s.worker.cause.Applied? then 1 else 0
  {
    WriteEntry(s, o);
    EntryCounts(s.log, CallEntries(s, o), s.worker.app.uid);
  }

  lemma WriteEntry(s: State, o: Outcome)
    requires Writes(s, Call(o))
    ensures Step(s, Call(o)).log == s.log + CallEntries(s, o) && |CallEntries(s, o)| == 1
    ensures var e := CallEntries(s, o)[0];
            e.StatusWritten? && e.uid == s.worker.app.uid &&
            (e.cause.Applied? <==> s.worker.Persisting? && s.worker.cause.Applied?)
  {
  }

  lemma EntryCounts(log: seq<Entry>, more: seq<Entry>, uid: nat)
    requires |more| == 1 && more[0].StatusWritten? && more[0].uid == uid
    ensures Count(log + more, Edits, uid) == Count(log, Edits, uid)
    ensures Count(log + more, Applies, uid) == Count(log, Applies, uid) + if more[0].cause.Applied? then 1 else 0
  {
    CountMore(log, more, Applies, uid);
    CountMore(log, more, Edits, uid);
  }

  lemma SameHash(c: Cluster, d: Cluster, a: App, b: App)
    requires d.secrets == c.secrets && SameDesire(a, b)
    ensures CurrentHash(d, b) == CurrentHash(c, a)
  {
  }

  /** Only the write of an apply changes what counts as applied. */
  predicate KeepsApplied(w: Worker) {
    match w
    case Persisting(app, status, cause, _) =>
      !cause.Applied? ==> status.observed == app.status.observed && status.valuesHash == app.status.valuesHash
    case WritingAhead(app, status) =>
      status.observed == app.status.observed && status.valuesHash == app.status.valuesHash
    case _ => true
  }

  lemma ResumeKeepsApplied(w: Worker, a: Response, now: Time)
    requires !w.Idle?
    ensures KeepsApplied(Resume(w, a, now))
  {
    ResumeShape(w, a, now);
  }

  ghost predicate FullInv(s: State) {
    BudgetInv(s) && RightSecret(s.worker) && KeepsApplied(s.worker) && forall uid :: WithinBudget(s.log, uid)
  }

  predicate WithinBudget(log: seq<Entry>, uid: nat) {
    Count(log, Applies, uid) <= 1 + Count(log, Edits, uid)
  }

  lemma BudgetMore(s: State, e: Event, uid: nat)
    requires FullInv(s)
    requires forall k :: k in Step(s, e).cluster.apps ==> Affordable(Step(s, e), Step(s, e).cluster.apps[k])
    ensures WithinBudget(Step(s, e).log, uid)
  {
    var t, more := Step(s, e), Added(s, e);
    StepLogs(s, e);
    assert WithinBudget(s.log, uid);
    CountMore(s.log, more, Applies, uid);
    CountMore(s.log, more, Edits, uid);
    if more != [] && IsApply(more[0], uid) {
      ApplyIsWrite(s, e);
      var app := t.cluster.apps[s.worker.app.key];
      assert app.uid == uid && Affordable(t, app);
    }
  }

  lemma ApplyIsWrite(s: State, e: Event)
    requires SoundState(s) && Added(s, e) != [] && Added(s, e)[0].StatusWritten?
    ensures Writes(s, e) && s.worker.app.key in Step(s, e).cluster.apps
    ensures Step(s, e).cluster.apps[s.worker.app.key].uid == Added(s, e)[0].uid
  {
    CallStatuses(s, e.outcome);
    assert s.worker.app.key in s.cluster.apps;
  }

  lemma CallBudget(s: State, o: Outcome)
    requires FullInv(s) && !s.worker.Idle? && FreshSecrets(Call(o))
    ensures var t := Step(s, Call(o)); BudgetInv(t) && RightSecret(t.worker) && KeepsApplied(t.worker)
  {
    var t, w := Step(s, Call(o)), s.worker;
    var (after, a) := Serve(s.cluster, NextCall(w), o);
    StepSound(s, Call(o));
    ReadsLive(w, a, after.clock);
    ResumeInHand(w, a, after.clock);
    ResumeRightSecret(w, a, after.clock);
    ResumeKeepsApplied(w, a, after.clock);
    forall k | k in t.cluster.apps ensures Affordable(t, t.cluster.apps[k]) { CallAffordable(s, o, k); }
    if w.Reading? || w.ReadingSecret? { ReadPrepaid(s, o); } else { CallPrepaid(s, o); }
    LogStaysBelow(s, Call(o));
  }

  lemma StepBudget(s: State, e: Event)
    requires FullInv(s) && FreshSecrets(e)
    ensures FullInv(Step(s, e))
  {
    match e {
      case Env(step) => EnvBudget(s, step);
      case Call(o) => if !s.worker.Idle? { CallBudget(s, o); }
      case _ =>
    }
    forall uid ensures WithinBudget(Step(s, e).log, uid) { BudgetMore(s, e, uid); }
  }

  lemma {:induction false} RunBudget(s: State, events: seq<Event>)
    requires FullInv(s) && forall i :: 0 <= i < |events| ==> FreshSecrets(events[i])
    ensures FullInv(Run(s, events))
    decreases |events|
  {
    if events != [] {
      StepBudget(s, events[0]);
      RunBudget(Step(s, events[0]), events[1..]);
    }
  }

  /** With fresh reads of Secrets, whatever else fails and however stale the reads of Applications: an Application is
      applied at most once more than its spec and its values Secret are edited, in every run. */
  lemma AppliesWithinBudget(s: State, events: seq<Event>, uid: nat)
    requires Initial(s) && forall i :: 0 <= i < |events| ==> FreshSecrets(events[i])
    ensures var log := Run(s, events).log;
            Count(log, Applies, uid) <= 1 + Count(log, Edits, uid)
  {
    RunBudget(s, events);
    assert WithinBudget(Run(s, events).log, uid);
  }

  /** Sharper, for an Application that is stored: the spare apply is used only while its spec and values are the
      applied ones, or once it is being deleted. */
  lemma AppliesAtMostEdits(s: State, events: seq<Event>, key: AppKey)
    requires Initial(s) && forall i :: 0 <= i < |events| ==> FreshSecrets(events[i])
    requires key in Run(s, events).cluster.apps
    ensures var t := Run(s, events);
            var app := t.cluster.apps[key];
            Count(t.log, Applies, app.uid) <=
              Count(t.log, Edits, app.uid) + if app.deleting || Clean(t.cluster, app) then 1 else 0
  {
    RunBudget(s, events);
    assert Affordable(Run(s, events), Run(s, events).cluster.apps[key]);
  }
}
