/** Status mirrors the Helm store: in orderly runs, whatever calls fail, whenever an Application's last apply has
    been recorded in its status, that status and the release's history tell the same story. */
module Mirror {
  import opened Api
  import opened Server
  import opened Controller
  import opened Machine
  import opened Passes
  import opened Soundness
  import opened Ledger
  import opened Fresh
  import opened Lifecycle

  /** The last apply that took effect in Helm is also on record: its status write was not lost. */
  predicate Recorded(log: seq<Entry>, uid: nat) {
    LastSign(log, OnRecord, uid) == Some(true)
  }

  lemma RecordedMore(log: seq<Entry>, more: seq<Entry>, uid: nat)
    requires |more| <= 1
    ensures Recorded(log + more, uid) ==
            if more != [] && IsApply(more[0], uid) then true
            else if more != [] && IsHelmApply(more[0], uid) then false
            else Recorded(log, uid)
  {
    LastSignMore(log, more, OnRecord, uid);
  }

  /** The source is the spec this Application had at the observed generation, with the values of the recorded hash. */
  ghost predicate RenderedFrom(c: Cluster, uid: nat, s: Status, source: Source) {
    && HashValues(source.values) == s.valuesHash
    && exists i :: 0 <= i < |c.archive| && c.archive[i].uid == uid && c.archive[i].generation == s.observed &&
                   source == SourceOf(c.archive[i].spec, source.values)
  }

  ghost predicate Mirrors(c: Cluster, app: App) {
    && ReleaseOf(app) in c.releases
    && var h, n := c.releases[ReleaseOf(app)], app.status.lastFailed;
       if n == 0 then |h| == app.status.revision && RenderedFrom(c, app.uid, app.status, Latest(h).source)
       else 2 <= n && (|h| == n || (|h| == n + 1 && h[n] == h[n - 2]))
  }

  ghost predicate Agrees(s: State, k: AppKey)
    requires k in s.cluster.apps
  {
    var app := s.cluster.apps[k];
    !app.deleting && Recorded(s.log, app.uid) ==> Mirrors(s.cluster, app)
  }

  // ---------- what a pass has in hand ----------

  predicate KeepsBooks(s: Status, t: Status) {
    SameBooks(s, t) || (s.lastFailed != 0 && SameBooks(s.(revision := t.revision), t))
  }

  predicate PendingWrite(w: Worker) {
    match w
    case Persisting(app, status, cause, _) =>
      if cause.Applied? then
        status.lastFailed == 0 && status.observed == app.generation &&
        cause.source == SourceOf(app.spec, cause.source.values) && HashValues(cause.source.values) == status.valuesHash
      else KeepsBooks(app.status, status)
    case WritingAhead(app, status) =>
      app.status.lastFailed == 0 && 1 < app.status.revision &&
      SameBooks(app.status.(lastFailed := app.status.revision), status)
    case RollingBack(app) => app.status.lastFailed != 0
    case Refetching(app) => app.status.lastFailed != 0
    case _ => true
  }

  lemma ResumePendingWrite(w: Worker, a: Response, now: Time)
    requires !w.Idle? && PendingWrite(w)
    requires w.WritingAhead? && a.GotApp? ==> a.app.status == w.status
    ensures PendingWrite(Resume(w, a, now))
  {
    ResumeShape(w, a, now);
    ResumeRollback(w, a, now);
  }

  predicate AboutToRecord(w: Worker) { w.Persisting? && w.cause.Applied? }

  ghost predicate Archived(c: Cluster, app: App) {
    exists i :: 0 <= i < |c.archive| && c.archive[i] == app
  }

  /** Between an apply and its record, and between the marker and the rollback, the store is where the pass left it. */
  ghost predicate InStep(s: State) {
    var c, w := s.cluster, s.worker;
    && (Copy(w).Some? ==> Archived(c, w.app))
    && (Copy(w).Some? && !OnTheWayOut(w) ==> !w.app.deleting)
    && (AboutToRecord(w) ==>
          var rk := ReleaseOf(w.app);
          rk in c.releases && |c.releases[rk]| == w.status.revision && Latest(c.releases[rk]).source == w.cause.source)
    && (w.RollingBack? && Recorded(s.log, w.app.uid) ==>
          var rk := ReleaseOf(w.app);
          rk in c.releases && |c.releases[rk]| == w.app.status.lastFailed)
  }

  ghost predicate MirrorInv(s: State) {
    && LifeInv(s)
    && LogBelow(s.log, s.cluster.uids)
    && PendingWrite(s.worker)
    && (forall k :: k in s.cluster.apps ==> Archived(s.cluster, s.cluster.apps[k]))
    && (forall k :: k in s.cluster.apps ==> Agrees(s, k))
    && InStep(s)
  }

  lemma ArchivedLater(c: Cluster, d: Cluster, app: App)
    requires ArchiveExtends(c, d) && Archived(c, app)
    ensures Archived(d, app)
  {
    var i :| 0 <= i < |c.archive| && c.archive[i] == app;
    assert d.archive[i] == d.archive[..|c.archive|][i];
  }

  lemma RenderedLater(c: Cluster, d: Cluster, uid: nat, s: Status, source: Source)
    requires ArchiveExtends(c, d) && RenderedFrom(c, uid, s, source)
    ensures RenderedFrom(d, uid, s, source)
  {
    var i :| 0 <= i < |c.archive| && c.archive[i].uid == uid && c.archive[i].generation == s.observed &&
             source == SourceOf(c.archive[i].spec, source.values);
    assert d.archive[i] == d.archive[..|c.archive|][i];
  }

  /** An Application's mirror is undisturbed while its books, its release and its name stay the same. */
  lemma MirrorsLater(c: Cluster, d: Cluster, a: App, b: App)
    requires ArchiveExtends(c, d) && Mirrors(c, a)
    requires b.uid == a.uid && ReleaseOf(b) == ReleaseOf(a) && KeepsBooks(a.status, b.status)
    requires ReleaseOf(a) in d.releases && d.releases[ReleaseOf(a)] == c.releases[ReleaseOf(a)]
    ensures Mirrors(d, b)
  {
    if a.status.lastFailed == 0 {
      RenderedLater(c, d, a.uid, a.status, Latest(c.releases[ReleaseOf(a)]).source);
    }
  }

  // ---------- steps of users ----------

  lemma EnvAgrees(s: State, step: EnvStep, k: AppKey)
    requires MirrorInv(s) && Orderly(s, Env(step)) && k in Step(s, Env(step)).cluster.apps
    ensures Agrees(Step(s, Env(step)), k)
  {
    var c, t := s.cluster, Step(s, Env(step));
    var app := t.cluster.apps[k];
    RecordedMore(s.log, EnvEntries(c, step), app.uid);
    EnvHelm(c, step);
    EnvStatuses(c, step);
    ArchiveGrows(s, Env(step));
    if k in c.apps {
      EnvKeeps(s, step, k);
      assert Agrees(s, k);
      if !app.deleting && Recorded(t.log, app.uid) { MirrorsLater(c, t.cluster, c.apps[k], app); }
    } else {
      FreshUnsigned(s.log, c.uids, OnRecord, app.uid);
    }
  }

  lemma EnvInStep(s: State, step: EnvStep)
    requires MirrorInv(s) && Orderly(s, Env(step))
    ensures InStep(Step(s, Env(step)))
  {
    var c, t, w := s.cluster, Step(s, Env(step)), s.worker;
    EnvHelm(c, step);
    ArchiveGrows(s, Env(step));
    if Copy(w).Some? {
      ArchivedLater(c, t.cluster, w.app);
      RecordedMore(s.log, EnvEntries(c, step), w.app.uid);
      if w.app.key in c.apps { EnvKeeps(s, step, w.app.key); }
    }
  }

  lemma StoredArchived(s: State, e: Event)
    requires SoundState(s) && forall k :: k in s.cluster.apps ==> Archived(s.cluster, s.cluster.apps[k])
    ensures var d := Step(s, e).cluster;
            forall k :: k in d.apps ==> Archived(d, d.apps[k])
  {
    var c, d := s.cluster, Step(s, e).cluster;
    ArchiveGrows(s, e);
    forall k | k in d.apps ensures Archived(d, d.apps[k]) {
      if k in c.apps && d.apps[k] == c.apps[k] {
        ArchivedLater(c, d, c.apps[k]);
      } else {
        NewArchived(s, e, k);
      }
    }
  }

  lemma NewArchived(s: State, e: Event, k: AppKey)
    requires SoundState(s) && k in Step(s, e).cluster.apps
    requires k in s.cluster.apps ==> Step(s, e).cluster.apps[k] != s.cluster.apps[k]
    ensures Archived(Step(s, e).cluster, Step(s, e).cluster.apps[k])
  {
    var d := Step(s, e).cluster;
    if e.Env? { EnvArchived(s.cluster, e.step, k); }
    else { EffectArchived(s.cluster, NextCall(s.worker), e.outcome, k); }
  }

  lemma EnvArchived(c: Cluster, step: EnvStep, k: AppKey)
    requires Sound(c) && k in Environment(c, step).apps
    requires k in c.apps ==> Environment(c, step).apps[k] != c.apps[k]
    ensures Archived(Environment(c, step), Environment(c, step).apps[k])
  {
    var d := Environment(c, step);
    assert k in c.apps ==> c.apps[k].key == k;
    assert |d.archive| == |c.archive| + 1 && d.archive[|c.archive|] == d.apps[k];
  }

  lemma EffectArchived(c: Cluster, r: Request, o: Outcome, k: AppKey)
    requires Sound(c) && k in Serve(c, r, o).0.apps
    requires k in c.apps ==> Serve(c, r, o).0.apps[k] != c.apps[k]
    ensures Archived(Serve(c, r, o).0, Serve(c, r, o).0.apps[k])
  {
    var d := Serve(c, r, o).0;
    if r.Update? || r.UpdateStatus? {
      assert r.app.key in c.apps ==> c.apps[r.app.key].key == r.app.key;
      assert |d.archive| == |c.archive| + 1 && d.archive[|c.archive|] == d.apps[k];
    }
  }

  lemma EnvMirror(s: State, step: EnvStep)
    requires MirrorInv(s) && Orderly(s, Env(step))
    ensures MirrorInv(Step(s, Env(step)))
  {
    var t := Step(s, Env(step));
    StepLife(s, Env(step));
    LogStaysBelow(s, Env(step));
    StoredArchived(s, Env(step));
    EnvInStep(s, step);
    forall k | k in t.cluster.apps ensures Agrees(t, k) { EnvAgrees(s, step, k); }
  }

  // ---------- calls ----------

  /** A pass touches no release of an Application other than its own, unless it drops their namespace. */
  lemma OwnReleases(s: State, k: AppKey)
    requires LifeInv(s) && !s.worker.Idle? && k in s.cluster.apps
    requires Touches(NextCall(s.worker), ReleaseOf(s.cluster.apps[k]))
    ensures s.worker.DroppingNamespace? || k == s.worker.app.key
  {
    if !s.worker.DroppingNamespace? {
      assert ReleaseOf(s.cluster.apps[s.worker.app.key]) == ReleaseOf(s.worker.app);
    }
  }

  /** What one call does to one stored Application. */
  lemma CallOne(s: State, o: Outcome, k: AppKey)
    requires LifeInv(s) && !s.worker.Idle? && k in Step(s, Call(o)).cluster.apps
    ensures k in s.cluster.apps && CarriedOver(s.cluster.apps[k], Step(s, Call(o)).cluster.apps[k])
    ensures StatusOrigin(s, Call(o), k)
    ensures Step(s, Call(o)).log == s.log + CallEntries(s, o) && |CallEntries(s, o)| <= 1
    ensures ArchiveExtends(s.cluster, Step(s, Call(o)).cluster)
  {
    CallApps(s, o);
    StatusOrigins(s, Call(o));
    ArchiveGrows(s, Call(o));
  }

  predicate SameRelease(c: Cluster, d: Cluster, rk: ReleaseKey) {
    rk in c.releases ==> rk in d.releases && d.releases[rk] == c.releases[rk]
  }

  lemma AgreesLater(s: State, t: State, k: AppKey)
    requires k in s.cluster.apps && k in t.cluster.apps && Agrees(s, k)
    requires CarriedOver(s.cluster.apps[k], t.cluster.apps[k])
    requires t.cluster.apps[k].status == s.cluster.apps[k].status
    requires ArchiveExtends(s.cluster, t.cluster)
    requires SameRelease(s.cluster, t.cluster, ReleaseOf(s.cluster.apps[k]))
    requires Recorded(t.log, s.cluster.apps[k].uid) ==> Recorded(s.log, s.cluster.apps[k].uid)
    ensures Agrees(t, k)
  {
    var a, b := s.cluster.apps[k], t.cluster.apps[k];
    if !b.deleting && Recorded(t.log, b.uid) { MirrorsLater(s.cluster, t.cluster, a, b); }
  }

  /** Calls that write no status: an Application they do not act for agrees as before. */
  lemma BystanderAgrees(s: State, o: Outcome, k: AppKey)
    requires LifeInv(s) && !s.worker.Idle? && k in Step(s, Call(o)).cluster.apps
    requires k in s.cluster.apps && Agrees(s, k)
    requires !Touches(NextCall(s.worker), ReleaseOf(s.cluster.apps[k]))
    requires !(Writes(s, Call(o)) && k == s.worker.app.key)
    requires CallEntries(s, o) == [] ||
             !(CallEntries(s, o)[0].StatusWritten? && CallEntries(s, o)[0].uid == s.cluster.apps[k].uid)
    ensures Agrees(Step(s, Call(o)), k)
  {
    CallOne(s, o, k);
    RecordedMore(s.log, CallEntries(s, o), s.cluster.apps[k].uid);
    if ReleaseOf(s.cluster.apps[k]) in s.cluster.releases {
      Untouched(s.cluster, NextCall(s.worker), o, ReleaseOf(s.cluster.apps[k]));
    }
    AgreesLater(s, Step(s, Call(o)), k);
  }

  /** Dropping a namespace disturbs no mirror: the live Applications that target it have no release. */
  lemma DropAgrees(s: State, o: Outcome, k: AppKey)
    requires LifeInv(s) && s.worker.DroppingNamespace? && k in Step(s, Call(o)).cluster.apps
    requires k in s.cluster.apps && Agrees(s, k)
    ensures Agrees(Step(s, Call(o)), k)
  {
    if Touches(NextCall(s.worker), ReleaseOf(s.cluster.apps[k])) {
      DroppedAgrees(s, o, k);
    } else {
      DropWritesNothing(s, o);
      BystanderAgrees(s, o, k);
    }
  }

  lemma DroppedAgrees(s: State, o: Outcome, k: AppKey)
    requires LifeInv(s) && s.worker.DroppingNamespace? && k in s.cluster.apps && Agrees(s, k)
    requires s.cluster.apps[k].spec.namespace == s.worker.app.spec.namespace
    ensures k in Step(s, Call(o)).cluster.apps && Agrees(Step(s, Call(o)), k)
  {
    DropIsSafe(s);
    DropKeepsApps(s, o);
    UnreleasedAgrees(s, Step(s, Call(o)), k);
  }

  lemma DropWritesNothing(s: State, o: Outcome)
    requires s.worker.DroppingNamespace?
    ensures !Writes(s, Call(o)) && CallEntries(s, o) == []
  {
  }

  /** An Application without a release, live or not, has nothing on record that Helm could contradict. */
  lemma UnreleasedAgrees(s: State, t: State, k: AppKey)
    requires k in s.cluster.apps && Agrees(s, k) && t.cluster.apps == s.cluster.apps && t.log == s.log
    requires !s.cluster.apps[k].deleting ==> ReleaseOf(s.cluster.apps[k]) !in s.cluster.releases
    ensures Agrees(t, k)
  {
  }

  lemma DropKeepsApps(s: State, o: Outcome)
    requires s.worker.DroppingNamespace?
    ensures Step(s, Call(o)).cluster.apps == s.cluster.apps && Step(s, Call(o)).log == s.log
  {
    assert s.log + [] == s.log;
  }

  lemma ApplyingAgrees(s: State, o: Outcome, k: AppKey)
    requires MirrorInv(s) && s.worker.Applying? && k in Step(s, Call(o)).cluster.apps
    ensures Agrees(Step(s, Call(o)), k)
  {
    CallApps(s, o);
    assert Agrees(s, k);
    if k == s.worker.app.key {
      OwnApplyAgrees(s, o);
    } else {
      if Touches(NextCall(s.worker), ReleaseOf(s.cluster.apps[k])) { OwnReleases(s, k); }
      BystanderAgrees(s, o, k);
    }
  }

  /** An apply that takes effect is not on record yet; one that does not changes nothing. */
  lemma OwnApplyAgrees(s: State, o: Outcome)
    requires s.worker.Applying?
    requires var k, d := s.worker.app.key, Step(s, Call(o)).cluster;
             k in d.apps && k in s.cluster.apps && Agrees(s, k) && d.apps[k].uid == s.worker.app.uid
    ensures Agrees(Step(s, Call(o)), s.worker.app.key)
  {
    RecordedMore(s.log, CallEntries(s, o), s.worker.app.uid);
    if !Executes(s.cluster, NextCall(s.worker), o) { assert Step(s, Call(o)).cluster == s.cluster; }
  }

  lemma RollbackAgrees(s: State, o: Outcome, k: AppKey)
    requires MirrorInv(s) && s.worker.RollingBack? && k in Step(s, Call(o)).cluster.apps
    ensures Agrees(Step(s, Call(o)), k)
  {
    CallOne(s, o, k);
    assert Agrees(s, k);
    if k == s.worker.app.key {
      OwnRollbackAgrees(s, o);
    } else {
      if Touches(NextCall(s.worker), ReleaseOf(s.cluster.apps[k])) { OwnReleases(s, k); }
      BystanderAgrees(s, o, k);
    }
  }

  lemma RollbackExtends(s: State, o: Outcome)
    requires s.worker.RollingBack?
    ensures var c, d, rk := s.cluster, Step(s, Call(o)).cluster, ReleaseOf(s.worker.app);
            d == c ||
            (rk in c.releases && 2 <= |c.releases[rk]| &&
             d == c.(releases := c.releases[rk := RolledBack(c.releases[rk])]))
  {
  }

  lemma OwnRollbackAgrees(s: State, o: Outcome)
    requires s.worker.RollingBack? && s.worker.app.key in s.cluster.apps && Agrees(s, s.worker.app.key)
    requires LifeInv(s) && PendingWrite(s.worker) && InStep(s)
    ensures s.worker.app.key in Step(s, Call(o)).cluster.apps && Agrees(Step(s, Call(o)), s.worker.app.key)
  {
    var t := Step(s, Call(o));
    RollbackExtends(s, o);
    RollbackKeeps(s, o);
    RolledBackAgrees(s, t);
  }

  lemma RollbackKeeps(s: State, o: Outcome)
    requires s.worker.RollingBack?
    ensures Step(s, Call(o)).cluster.apps == s.cluster.apps && Step(s, Call(o)).cluster.archive == s.cluster.archive
    ensures Recorded(Step(s, Call(o)).log, s.worker.app.uid) == Recorded(s.log, s.worker.app.uid)
  {
    RecordedMore(s.log, CallEntries(s, o), s.worker.app.uid);
  }

  lemma RolledBackAgrees(s: State, t: State)
    requires s.worker.RollingBack? && InStep(s) && Tracks(s.cluster, s.worker.app) && SameNamespace(s.cluster, s.worker)
    requires PendingWrite(s.worker) && s.cluster.apps[s.worker.app.key].key == s.worker.app.key
    requires Agrees(s, s.worker.app.key)
    requires t.cluster.apps == s.cluster.apps && t.cluster.archive == s.cluster.archive
    requires Recorded(t.log, s.worker.app.uid) == Recorded(s.log, s.worker.app.uid)
    requires var c, d, rk := s.cluster, t.cluster, ReleaseOf(s.worker.app);
             d == c ||
             (rk in c.releases && 2 <= |c.releases[rk]| &&
              d == c.(releases := c.releases[rk := RolledBack(c.releases[rk])]))
    ensures Agrees(t, s.worker.app.key)
  {
    assert ReleaseOf(s.cluster.apps[s.worker.app.key]) == ReleaseOf(s.worker.app);
  }

  lemma UninstallAgrees(s: State, o: Outcome, k: AppKey)
    requires MirrorInv(s) && s.worker.Uninstalling? && k in Step(s, Call(o)).cluster.apps
    ensures Agrees(Step(s, Call(o)), k)
  {
    CallApps(s, o);
    if k != s.worker.app.key {
      if Touches(NextCall(s.worker), ReleaseOf(s.cluster.apps[k])) { OwnReleases(s, k); }
      BystanderAgrees(s, o, k);
    } else {
      assert CarriedOver(s.cluster.apps[k], Step(s, Call(o)).cluster.apps[k]);
    }
  }

  lemma WriteAgrees(s: State, o: Outcome, k: AppKey)
    requires MirrorInv(s) && (s.worker.Persisting? || s.worker.WritingAhead?) && k in Step(s, Call(o)).cluster.apps
    ensures Agrees(Step(s, Call(o)), k)
  {
    CallApps(s, o);
    StatusOrigins(s, Call(o));
    assert StatusOrigin(s, Call(o), k);
    assert Agrees(s, k);
    if Writes(s, Call(o)) && k == s.worker.app.key {
      OwnWriteAgrees(s, o);
    } else {
      OtherWriteAgrees(s, o, k);
    }
  }

  lemma OtherWriteAgrees(s: State, o: Outcome, k: AppKey)
    requires LifeInv(s) && (s.worker.Persisting? || s.worker.WritingAhead?)
    requires k in Step(s, Call(o)).cluster.apps && k in s.cluster.apps && Agrees(s, k)
    requires !(Writes(s, Call(o)) && k == s.worker.app.key)
    ensures Agrees(Step(s, Call(o)), k)
  {
    if CallEntries(s, o) != [] { assert s.cluster.apps[k].uid != s.cluster.apps[s.worker.app.key].uid; }
    BystanderAgrees(s, o, k);
  }

  lemma OwnWrite(s: State, o: Outcome)
    requires LifeInv(s) && Writes(s, Call(o))
    ensures var c, d, w := s.cluster, Step(s, Call(o)).cluster, s.worker;
            && w.app.key in d.apps && c.apps[w.app.key] == w.app && d.apps[w.app.key].status == w.status
            && CarriedOver(w.app, d.apps[w.app.key]) && d.releases == c.releases && ArchiveExtends(c, d)
  {
    OwnWriteStores(s, o);
    CallOne(s, o, s.worker.app.key);
  }

  lemma OwnWriteStores(s: State, o: Outcome)
    requires SoundState(s) && Writes(s, Call(o))
    ensures s.worker.app.key in Step(s, Call(o)).cluster.apps && Step(s, Call(o)).cluster.releases == s.cluster.releases
  {
  }

  lemma OwnWriteAgrees(s: State, o: Outcome)
    requires LifeInv(s) && PendingWrite(s.worker) && InStep(s) && Writes(s, Call(o))
    requires s.worker.app.key in s.cluster.apps && Agrees(s, s.worker.app.key)
    ensures s.worker.app.key in Step(s, Call(o)).cluster.apps && Agrees(Step(s, Call(o)), s.worker.app.key)
  {
    var w, t := s.worker, Step(s, Call(o));
    OwnWrite(s, o);
    if !AboutToRecord(w) { WriteRecords(s, o); }
    if w.WritingAhead? { MarkerWriteAgrees(s, t); }
    else if w.cause.Applied? { ApplyWriteAgrees(s, t); }
    else { PlainWriteAgrees(s, t); }
  }

  lemma WriteRecords(s: State, o: Outcome)
    requires Writes(s, Call(o)) && !AboutToRecord(s.worker)
    ensures Recorded(Step(s, Call(o)).log, s.worker.app.uid) == Recorded(s.log, s.worker.app.uid)
  {
    RecordedMore(s.log, CallEntries(s, o), s.worker.app.uid);
  }

  predicate Wrote(s: State, t: State) {
    && (s.worker.Persisting? || s.worker.WritingAhead?)
    && var k := s.worker.app.key;
       && k in s.cluster.apps && s.cluster.apps[k] == s.worker.app
       && k in t.cluster.apps && t.cluster.apps[k].status == s.worker.status
       && CarriedOver(s.worker.app, t.cluster.apps[k])
       && t.cluster.releases == s.cluster.releases
  }

  lemma ApplyWriteAgrees(s: State, t: State)
    requires Wrote(s, t) && PendingWrite(s.worker) && InStep(s) && ArchiveExtends(s.cluster, t.cluster)
    requires s.worker.Persisting? && s.worker.cause.Applied?
    ensures Agrees(t, s.worker.app.key)
  {
    var w := s.worker;
    ArchivedLater(s.cluster, t.cluster, w.app);
    var i :| 0 <= i < |t.cluster.archive| && t.cluster.archive[i] == w.app;
    assert RenderedFrom(t.cluster, w.app.uid, w.status, w.cause.source);
  }

  lemma PlainWriteAgrees(s: State, t: State)
    requires Wrote(s, t) && PendingWrite(s.worker) && ArchiveExtends(s.cluster, t.cluster)
    requires s.worker.Persisting? && !s.worker.cause.Applied?
    requires Agrees(s, s.worker.app.key) && (Recorded(t.log, s.worker.app.uid) ==> Recorded(s.log, s.worker.app.uid))
    ensures Agrees(t, s.worker.app.key)
  {
    var a, b := s.worker.app, t.cluster.apps[s.worker.app.key];
    if !b.deleting && Recorded(t.log, b.uid) { MirrorsLater(s.cluster, t.cluster, a, b); }
  }

  lemma MarkerWriteAgrees(s: State, t: State)
    requires Wrote(s, t) && PendingWrite(s.worker) && s.worker.WritingAhead?
    requires Agrees(s, s.worker.app.key) && (Recorded(t.log, s.worker.app.uid) ==> Recorded(s.log, s.worker.app.uid))
    ensures Agrees(t, s.worker.app.key)
  {
  }

  lemma CallAgrees(s: State, o: Outcome, k: AppKey)
    requires MirrorInv(s) && !s.worker.Idle? && k in Step(s, Call(o)).cluster.apps
    ensures Agrees(Step(s, Call(o)), k)
  {
    if s.worker.Applying? { ApplyingAgrees(s, o, k); }
    else if s.worker.RollingBack? { RollbackAgrees(s, o, k); }
    else if s.worker.Uninstalling? { UninstallAgrees(s, o, k); }
    else if s.worker.DroppingNamespace? { CallOne(s, o, k); assert Agrees(s, k); DropAgrees(s, o, k); }
    else if s.worker.Persisting? || s.worker.WritingAhead? { WriteAgrees(s, o, k); }
    else {
      CallOne(s, o, k);
      assert Agrees(s, k);
      QuietCall(s, o, ReleaseOf(s.cluster.apps[k]));
      BystanderAgrees(s, o, k);
    }
  }

  lemma QuietCall(s: State, o: Outcome, rk: ReleaseKey)
    requires !s.worker.Applying? && !s.worker.RollingBack? && !s.worker.Uninstalling? && !s.worker.DroppingNamespace?
    requires !s.worker.Persisting? && !s.worker.WritingAhead?
    ensures !Touches(NextCall(s.worker), rk)
    ensures CallEntries(s, o) == [] || !CallEntries(s, o)[0].StatusWritten?
  {
  }

  lemma CopyArchived(s: State, o: Outcome)
    requires SoundState(s) && !s.worker.Idle?
    requires forall k :: k in s.cluster.apps ==> Archived(s.cluster, s.cluster.apps[k])
    requires Copy(s.worker).Some? ==> Archived(s.cluster, s.worker.app)
    ensures var t := Step(s, Call(o)); Copy(t.worker).Some? ==> Archived(t.cluster, t.worker.app)
  {
    var t, w := Step(s, Call(o)), s.worker;
    var (d, a) := Serve(s.cluster, NextCall(w), o);
    ResumeKeepsCopy(w, a, d.clock);
    AnswerOrigin(s.cluster, NextCall(w), o);
    StoredArchived(s, Call(o));
    ArchiveGrows(s, Call(o));
    if Copy(w).Some? { ArchivedLater(s.cluster, t.cluster, w.app); }
    if a.GotApp? { assert Archived(d, a.app); }
  }

  lemma HelmReply(c: Cluster, w: Worker, o: Outcome)
    requires w.Applying?
    ensures var (d, a) := Serve(c, NextCall(w), o);
            a.GotRelease? ==>
              var rk := ReleaseOf(w.app);
              rk in d.releases && |d.releases[rk]| == a.revision &&
              Latest(d.releases[rk]).source == SourceOf(w.app.spec, w.values)
  {
  }

  lemma RecordComes(w: Worker, a: Response, now: Time)
    requires !w.Idle?
    ensures var v := Resume(w, a, now);
            && (AboutToRecord(v) ==> w.Applying? && a.GotRelease? && v.app == w.app &&
                                     v.status.revision == a.revision &&
                                     v.cause.source == SourceOf(w.app.spec, w.values))
            && (v.RollingBack? && !w.RollingBack? ==> w.WritingAhead?)
            && !(v.RollingBack? && w.RollingBack?)
  {
    ResumeShape(w, a, now);
    ResumeRollback(w, a, now);
    if w.RollingBack? { ResumeDescends(w, a, now); }
  }

  /** A pass that is not a cleanup works on a copy that was not being deleted when read. */
  lemma StaysLive(s: State, o: Outcome)
    requires MirrorInv(s) && !s.worker.Idle?
    ensures var w := Step(s, Call(o)).worker; Copy(w).Some? && !OnTheWayOut(w) ==> !w.app.deleting
  {
    var w := s.worker;
    var (d, a) := Serve(s.cluster, NextCall(w), o);
    if OnTheWayOut(w) {
      ResumeCleanup(w, a, d.clock);
    } else if w.WritingAhead? {
      MarkerReply(s.cluster, w, o);
    } else if !w.Reading? && (NextCall(w).Update? || NextCall(w).UpdateStatus?) {
      AfterUpdates(w, a, d.clock);
    } else if !w.Reading? {
      KeepsCopy(w, a, d.clock);
    }
  }

  lemma CallInStep(s: State, o: Outcome)
    requires MirrorInv(s) && !s.worker.Idle?
    ensures InStep(Step(s, Call(o)))
  {
    var t, w := Step(s, Call(o)), s.worker;
    var (d, a) := Serve(s.cluster, NextCall(w), o);
    CopyArchived(s, o);
    RecordComes(w, a, d.clock);
    StaysLive(s, o);
    assert t.cluster == d && t.worker == Resume(w, a, d.clock);
    if AboutToRecord(t.worker) {
      HelmReply(s.cluster, w, o);
    } else if t.worker.RollingBack? {
      MarkerInStep(s, o);
    }
  }

  lemma MarkerInStep(s: State, o: Outcome)
    requires LifeInv(s) && PendingWrite(s.worker) && s.worker.WritingAhead?
    requires InStep(s) && forall k :: k in s.cluster.apps ==> Agrees(s, k)
    requires Step(s, Call(o)).worker.RollingBack?
    ensures var t := Step(s, Call(o));
            var rk := ReleaseOf(t.worker.app);
            Recorded(t.log, t.worker.app.uid) ==>
              rk in t.cluster.releases && |t.cluster.releases[rk]| == t.worker.app.status.lastFailed
  {
    var w := s.worker;
    OwnWrite(s, o);
    MarkerReply(s.cluster, w, o);
    assert Agrees(s, w.app.key);
    RecordedMore(s.log, CallEntries(s, o), w.app.uid);
  }

  lemma MarkerReply(c: Cluster, w: Worker, o: Outcome)
    requires Sound(c) && w.WritingAhead? && Known(c, w.app)
    ensures var (d, a) := Serve(c, NextCall(w), o);
            a.GotApp? ==> w.app.key in d.apps && d.apps[w.app.key] == a.app && a.app.key == w.app.key &&
                          a.app.status == w.status && a.app.deleting == w.app.deleting && Executes(c, NextCall(w), o)
  {
  }

  lemma CallMirror(s: State, o: Outcome)
    requires MirrorInv(s) && !s.worker.Idle? && FreshApp(Call(o))
    ensures MirrorInv(Step(s, Call(o)))
  {
    var t, w := Step(s, Call(o)), s.worker;
    var (d, a) := Serve(s.cluster, NextCall(w), o);
    StepLife(s, Call(o));
    LogStaysBelow(s, Call(o));
    StoredArchived(s, Call(o));
    CallInStep(s, o);
    if w.WritingAhead? { MarkerReply(s.cluster, w, o); }
    ResumePendingWrite(w, a, d.clock);
    forall k | k in t.cluster.apps ensures Agrees(t, k) { CallAgrees(s, o, k); }
  }

  lemma StepMirror(s: State, e: Event)
    requires MirrorInv(s) && Orderly(s, e)
    ensures MirrorInv(Step(s, e))
  {
    match e
    case Env(step) => EnvMirror(s, step);
    case Call(o) => if !s.worker.Idle? { CallMirror(s, o); }
    case _ => OtherMirror(s, e);
  }

  lemma OtherMirror(s: State, e: Event)
    requires MirrorInv(s) && (e.Begin? || e.Crash?) && Orderly(s, e)
    ensures MirrorInv(Step(s, e))
  {
    StepLife(s, e);
    forall k | k in s.cluster.apps ensures Agrees(Step(s, e), k) { assert Agrees(s, k); }
  }

  lemma {:induction false} RunMirror(s: State, events: seq<Event>)
    requires MirrorInv(s) && OrderlyRun(s, events)
    ensures MirrorInv(Run(s, events))
    decreases |events|
  {
    if events != [] {
      StepMirror(s, events[0]);
      RunMirror(Step(s, events[0]), events[1..]);
    }
  }

  /** At any point of any orderly run, for any Application not being deleted whose last apply is on record:
      HelmRevision is the latest revision and its content is the recorded spec and values; or, past a failure of
      revision n, the latest revision is n, or n + 1 with the content of n - 1. */
  lemma StatusMirrorsHelm(s: State, events: seq<Event>, k: AppKey)
    requires Initial(s) && OrderlyRun(s, events)
    requires var t := Run(s, events);
             k in t.cluster.apps && !t.cluster.apps[k].deleting && Recorded(t.log, t.cluster.apps[k].uid)
    ensures Mirrors(Run(s, events).cluster, Run(s, events).cluster.apps[k])
  {
    RunMirror(s, events);
    assert Agrees(Run(s, events), k);
  }
}
