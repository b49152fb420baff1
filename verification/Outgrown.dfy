/** Exactly when status and Helm agree: while no revision is marked failed, they do if and only if the last apply that
    took effect in Helm is also on record. Otherwise the release has outgrown the status. */
module Outgrown {
  import opened Api
  import opened Server
  import opened Controller
  import opened Machine
  import opened Soundness
  import opened Ledger
  import opened Lifecycle
  import opened Mirror

  /** Helm has more revisions than the status knows of; or both know of none. */
  predicate Ahead(c: Cluster, app: App) {
    if ReleaseOf(app) in c.releases then app.status.revision < |c.releases[ReleaseOf(app)]|
    else app.status.revision == 0
  }

  ghost predicate Parted(s: State, k: AppKey)
    requires k in s.cluster.apps
  {
    var app := s.cluster.apps[k];
    !app.deleting && app.status.lastFailed == 0 && !Recorded(s.log, app.uid) ==> Ahead(s.cluster, app)
  }

  ghost predicate PartedInv(s: State) {
    MirrorInv(s) && forall k :: k in s.cluster.apps ==> Parted(s, k)
  }

  /** Nothing happened to the release, the books and the record. */
  lemma PartedLater(s: State, t: State, k: AppKey)
    requires k in s.cluster.apps && k in t.cluster.apps && Parted(s, k)
    requires var a, b := s.cluster.apps[k], t.cluster.apps[k];
             b.uid == a.uid && ReleaseOf(b) == ReleaseOf(a) && (a.deleting ==> b.deleting) &&
             b.status.revision == a.status.revision && b.status.lastFailed == a.status.lastFailed &&
             (Recorded(s.log, a.uid) ==> Recorded(t.log, a.uid)) &&
             SameRelease(s.cluster, t.cluster, ReleaseOf(a)) && SameRelease(t.cluster, s.cluster, ReleaseOf(a))
    ensures Parted(t, k)
  {
  }

  lemma EnvParted(s: State, step: EnvStep, k: AppKey)
    requires PartedInv(s) && Orderly(s, Env(step)) && k in Step(s, Env(step)).cluster.apps
    ensures Parted(Step(s, Env(step)), k)
  {
    var c, t := s.cluster, Step(s, Env(step));
    EnvHelm(c, step);
    EnvStatuses(c, step);
    if k in c.apps {
      EnvKeeps(s, step, k);
      RecordedMore(s.log, EnvEntries(c, step), c.apps[k].uid);
      assert Parted(s, k);
      PartedLater(s, t, k);
    } else {
      EnvNew(s, step, k);
      Unreleased(c, ReleaseOf(t.cluster.apps[k]));
    }
  }

  lemma ApplyingParted(s: State, o: Outcome)
    requires s.worker.Applying? && s.worker.app.key in s.cluster.apps
    requires Parted(s, s.worker.app.key) && Agrees(s, s.worker.app.key)
    requires ReleaseOf(s.cluster.apps[s.worker.app.key]) == ReleaseOf(s.worker.app)
    requires s.cluster.apps[s.worker.app.key].uid == s.worker.app.uid
    ensures var t := Step(s, Call(o)); t.cluster.apps == s.cluster.apps && Parted(t, s.worker.app.key)
  {
    var c, t := s.cluster, Step(s, Call(o));
    RecordedMore(s.log, CallEntries(s, o), s.worker.app.uid);
    if Executes(c, NextCall(s.worker), o) { ApplyingExtends(s, o); } else { assert t.cluster == c; }
  }

  lemma ApplyingExtends(s: State, o: Outcome)
    requires s.worker.Applying? && Executes(s.cluster, NextCall(s.worker), o)
    ensures var c, d, rk := s.cluster, Step(s, Call(o)).cluster, ReleaseOf(s.worker.app);
            d.apps == c.apps && rk in d.releases &&
            |d.releases[rk]| == (if rk in c.releases then |c.releases[rk]| else 0) + 1
    ensures CallEntries(s, o) != [] && IsHelmApply(CallEntries(s, o)[0], s.worker.app.uid)
  {
  }

  /** A status write of the pass keeps revision and marker, or sets the marker, or records an apply. */
  lemma WriteParted(s: State, o: Outcome)
    requires LifeInv(s) && PendingWrite(s.worker) && Writes(s, Call(o))
    requires s.worker.app.key in s.cluster.apps && Parted(s, s.worker.app.key)
    ensures s.worker.app.key in Step(s, Call(o)).cluster.apps && Parted(Step(s, Call(o)), s.worker.app.key)
  {
    OwnWrite(s, o);
    RecordedMore(s.log, CallEntries(s, o), s.worker.app.uid);
  }

  /** Calls that are not about this Application's release or status. */
  lemma BystanderParted(s: State, o: Outcome, k: AppKey)
    requires LifeInv(s) && !s.worker.Idle? && k in s.cluster.apps && Parted(s, k)
    requires k in Step(s, Call(o)).cluster.apps
    requires !Touches(NextCall(s.worker), ReleaseOf(s.cluster.apps[k])) &&
             !(Writes(s, Call(o)) && k == s.worker.app.key)
    requires CallEntries(s, o) == [] || !IsHelmApply(CallEntries(s, o)[0], s.cluster.apps[k].uid)
    ensures Parted(Step(s, Call(o)), k)
  {
    CallOne(s, o, k);
    RecordedMore(s.log, CallEntries(s, o), s.cluster.apps[k].uid);
    UntouchedBoth(s.cluster, NextCall(s.worker), o, ReleaseOf(s.cluster.apps[k]));
    PartedLater(s, Step(s, Call(o)), k);
  }

  lemma UntouchedBoth(c: Cluster, r: Request, o: Outcome, rk: ReleaseKey)
    requires !Touches(r, rk)
    ensures SameRelease(c, Serve(c, r, o).0, rk) && SameRelease(Serve(c, r, o).0, c, rk)
  {
  }

  /** A namespace that is dropped holds no release of a live Application. */
  lemma DropParted(s: State, o: Outcome, k: AppKey)
    requires LifeInv(s) && s.worker.DroppingNamespace? && k in s.cluster.apps && Parted(s, k)
    requires s.cluster.apps[k].spec.namespace == s.worker.app.spec.namespace
    ensures k in Step(s, Call(o)).cluster.apps && Parted(Step(s, Call(o)), k)
  {
    DropIsSafe(s);
    DropKeepsApps(s, o);
    DropAddsNothing(s, o);
  }

  lemma DropAddsNothing(s: State, o: Outcome)
    requires s.worker.DroppingNamespace?
    ensures forall rk :: rk in Step(s, Call(o)).cluster.releases ==> rk in s.cluster.releases
  {
  }

  /** Only an apply of its own puts an Application's status off the record. */
  lemma OwnHelmApply(s: State, o: Outcome, k: AppKey)
    requires LifeInv(s) && !s.worker.Idle? && k in s.cluster.apps
    ensures CallEntries(s, o) != [] && IsHelmApply(CallEntries(s, o)[0], s.cluster.apps[k].uid) ==>
              s.worker.Applying? && k == s.worker.app.key
  {
  }

  lemma CallParted(s: State, o: Outcome, k: AppKey)
    requires PartedInv(s) && !s.worker.Idle? && k in Step(s, Call(o)).cluster.apps
    ensures Parted(Step(s, Call(o)), k)
  {
    CallOne(s, o, k);
    assert Parted(s, k) && Agrees(s, k);
    OwnHelmApply(s, o, k);
    if Writes(s, Call(o)) && k == s.worker.app.key {
      WriteParted(s, o);
    } else if !Touches(NextCall(s.worker), ReleaseOf(s.cluster.apps[k])) &&
              !(s.worker.Applying? && k == s.worker.app.key) {
      BystanderParted(s, o, k);
    } else if s.worker.DroppingNamespace? {
      DropParted(s, o, k);
    } else {
      if Touches(NextCall(s.worker), ReleaseOf(s.cluster.apps[k])) { OwnReleases(s, k); }
      OwnCallParted(s, o);
    }
  }

  lemma OwnCallParted(s: State, o: Outcome)
    requires LifeInv(s) && InStep(s) && PendingWrite(s.worker)
    requires s.worker.Applying? || s.worker.RollingBack? || s.worker.Uninstalling?
    requires s.worker.app.key in s.cluster.apps && Parted(s, s.worker.app.key) && Agrees(s, s.worker.app.key)
    ensures s.worker.app.key in Step(s, Call(o)).cluster.apps && Parted(Step(s, Call(o)), s.worker.app.key)
  {
    var k := s.worker.app.key;
    assert ReleaseOf(s.cluster.apps[k]) == ReleaseOf(s.worker.app);
    if s.worker.Applying? {
      ApplyingParted(s, o);
    } else {
      assert s.cluster.apps[k].deleting || s.cluster.apps[k].status.lastFailed != 0;
      HelmKeepsApps(s, o);
    }
  }

  lemma HelmKeepsApps(s: State, o: Outcome)
    requires s.worker.RollingBack? || s.worker.Uninstalling?
    ensures Step(s, Call(o)).cluster.apps == s.cluster.apps
  {
  }

  lemma StepParted(s: State, e: Event)
    requires PartedInv(s) && Orderly(s, e)
    ensures PartedInv(Step(s, e))
  {
    StepMirror(s, e);
    var t := Step(s, e);
    forall k | k in t.cluster.apps ensures Parted(t, k) {
      match e
      case Env(step) => EnvParted(s, step, k);
      case Call(o) => if !s.worker.Idle? { CallParted(s, o, k); } else { assert Parted(s, k); }
      case _ => assert Parted(s, k);
    }
  }

  lemma {:induction false} RunParted(s: State, events: seq<Event>)
    requires PartedInv(s) && OrderlyRun(s, events)
    ensures PartedInv(Run(s, events))
    decreases |events|
  {
    if events != [] {
      StepParted(s, events[0]);
      RunParted(Step(s, events[0]), events[1..]);
    }
  }

  /** In orderly runs, for an Application that is not being deleted and has no revision marked failed: status and Helm
      agree if and only if its last apply is on record. */
  lemma MirrorsExactly(s: State, events: seq<Event>, k: AppKey)
    requires Initial(s) && OrderlyRun(s, events)
    requires var t := Run(s, events);
             k in t.cluster.apps && !t.cluster.apps[k].deleting && t.cluster.apps[k].status.lastFailed == 0
    ensures var t := Run(s, events);
            Mirrors(t.cluster, t.cluster.apps[k]) <==> Recorded(t.log, t.cluster.apps[k].uid)
  {
    RunParted(s, events);
    var t := Run(s, events);
    assert Parted(t, k) && Agrees(t, k);
  }
}
