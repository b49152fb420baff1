/** The lifecycle protocol over many Applications that may share namespaces: finalizer first, then external
    state; on the way out uninstall, namespace, finalizer. Runs are orderly: fresh reads, target namespaces that
    do not change, and no two Applications with the same release. */
module Lifecycle {
  import opened Api
  import opened Server
  import opened Controller
  import opened Machine
  import opened Passes
  import opened Soundness
  import opened Fresh

  predicate Orderly(s: State, e: Event) {
    && FreshApp(e)
    && (e.Env? && e.step.EditSpec? && e.step.key in s.cluster.apps ==>
          e.step.spec.namespace == s.cluster.apps[e.step.key].spec.namespace)
    && (e.Env? && e.step.Create? ==>
          forall k :: k in s.cluster.apps ==>
            ReleaseOf(s.cluster.apps[k]) != ReleaseKey(e.step.spec.namespace, e.step.key.name))
  }

  predicate OrderlyRun(s: State, events: seq<Event>)
    decreases |events|
  {
    events == [] || (Orderly(s, events[0]) && OrderlyRun(Step(s, events[0]), events[1..]))
  }

  predicate DistinctReleases(c: Cluster) {
    forall k, l :: k in c.apps && l in c.apps && ReleaseOf(c.apps[k]) == ReleaseOf(c.apps[l]) ==> k == l
  }

  /** The finalizer gate: a release belongs to a stored Application that carries the finalizer. */
  ghost predicate Gated(c: Cluster) {
    forall rk :: rk in c.releases ==>
      rk.namespace in c.namespaces &&
      exists k :: k in c.apps && ReleaseOf(c.apps[k]) == rk && c.apps[k].finalizer
  }

  /** A release key no stored Application has is free. */
  lemma Unreleased(c: Cluster, rk: ReleaseKey)
    requires Gated(c) && forall k :: k in c.apps ==> ReleaseOf(c.apps[k]) != rk
    ensures rk !in c.releases
  {
  }

  predicate Uninstalled(w: Worker) {
    w.InspectingNamespace? || w.ListingOthers? || w.DroppingNamespace? || w.DroppingFinalizer?
  }

  /** What a pass that cleans up has established. */
  predicate Cleanup(c: Cluster, w: Worker) {
    && (OnTheWayOut(w) ==> w.app.deleting)
    && (Uninstalled(w) ==> ReleaseOf(w.app) !in c.releases)
    && (w.ListingOthers? || w.DroppingNamespace? ==>
          w.app.spec.namespace in c.namespaces && c.namespaces[w.app.spec.namespace])
    && (w.DroppingNamespace? ==>
          forall k :: k in c.apps && k != w.app.key && LiveIn(c.apps[k], w.app.spec.namespace) ==> !c.apps[k].finalizer)
  }

  predicate SameNamespace(c: Cluster, w: Worker) {
    Copy(w).Some? && w.app.key in c.apps && c.apps[w.app.key].uid == w.app.uid ==>
      c.apps[w.app.key].spec.namespace == w.app.spec.namespace
  }

  ghost predicate LifeInv(s: State) {
    && FreshInv(s)
    && DistinctReleases(s.cluster)
    && Gated(s.cluster)
    && SameNamespace(s.cluster, s.worker)
    && Cleanup(s.cluster, s.worker)
  }

  /** What users' steps do to one stored Application in an orderly run. */
  lemma EnvKeeps(s: State, step: EnvStep, k: AppKey)
    requires Sound(s.cluster) && Orderly(s, Env(step)) && k in s.cluster.apps
    ensures var d := Environment(s.cluster, step);
            k in d.apps ==>
              d.apps[k].uid == s.cluster.apps[k].uid && ReleaseOf(d.apps[k]) == ReleaseOf(s.cluster.apps[k]) &&
              d.apps[k].finalizer == s.cluster.apps[k].finalizer && (s.cluster.apps[k].deleting ==> d.apps[k].deleting)
    ensures s.cluster.apps[k].finalizer ==> k in Environment(s.cluster, step).apps
  {
    assert s.cluster.apps[k].key == k;
    if !About(step, k) { EnvOthers(s.cluster, step, k); }
  }

  lemma EnvNew(s: State, step: EnvStep, k: AppKey)
    requires Sound(s.cluster) && Orderly(s, Env(step)) && k in Environment(s.cluster, step).apps && k !in s.cluster.apps
    ensures var app := Environment(s.cluster, step).apps[k];
            !app.finalizer && !app.deleting &&
            (forall l :: l in s.cluster.apps ==> ReleaseOf(s.cluster.apps[l]) != ReleaseOf(app)) &&
            step.Create? && step.key == k
  {
  }

  lemma EnvHelm(c: Cluster, step: EnvStep)
    ensures var d := Environment(c, step);
            d.releases == c.releases && c.namespaces.Keys <= d.namespaces.Keys &&
            forall n :: n in d.namespaces ==> d.namespaces[n] == (n in c.namespaces && c.namespaces[n])
  {
  }

  lemma EnvDistinct(s: State, step: EnvStep)
    requires LifeInv(s) && Orderly(s, Env(step))
    ensures DistinctReleases(Environment(s.cluster, step))
  {
    var c, d := s.cluster, Environment(s.cluster, step);
    forall k, l | k in d.apps && l in d.apps && ReleaseOf(d.apps[k]) == ReleaseOf(d.apps[l]) ensures k == l {
      if k in c.apps { EnvKeeps(s, step, k); } else { EnvNew(s, step, k); }
      if l in c.apps { EnvKeeps(s, step, l); } else { EnvNew(s, step, l); }
    }
  }

  lemma EnvCleanup(s: State, step: EnvStep)
    requires LifeInv(s) && Orderly(s, Env(step))
    ensures Cleanup(Environment(s.cluster, step), s.worker) && SameNamespace(Environment(s.cluster, step), s.worker)
  {
    var c, d := s.cluster, Environment(s.cluster, step);
    EnvHelm(c, step);
    forall k | k in d.apps
      ensures !d.apps[k].finalizer ||
              (k in c.apps && c.apps[k].finalizer && (c.apps[k].deleting ==> d.apps[k].deleting) &&
               d.apps[k].spec.namespace == c.apps[k].spec.namespace)
    {
      if k in c.apps { EnvKeeps(s, step, k); } else { EnvNew(s, step, k); }
    }
    if Copy(s.worker).Some? && s.worker.app.key in d.apps {
      if s.worker.app.key in c.apps { EnvKeeps(s, step, s.worker.app.key); }
      else { EnvStatuses(c, step); }
    }
  }

  lemma EnvLife(s: State, step: EnvStep)
    requires LifeInv(s) && Orderly(s, Env(step))
    ensures LifeInv(Step(s, Env(step)))
  {
    StepFresh(s, Env(step));
    EnvDistinct(s, step);
    EnvCleanup(s, step);
    EnvGated(s, step);
  }

  lemma EnvGated(s: State, step: EnvStep)
    requires LifeInv(s) && Orderly(s, Env(step))
    ensures Gated(Environment(s.cluster, step))
  {
    var c, d := s.cluster, Environment(s.cluster, step);
    EnvHelm(c, step);
    forall rk | rk in d.releases
      ensures rk.namespace in d.namespaces &&
              exists k :: k in d.apps && ReleaseOf(d.apps[k]) == rk && d.apps[k].finalizer
    {
      var k :| k in c.apps && ReleaseOf(c.apps[k]) == rk && c.apps[k].finalizer;
      EnvKeeps(s, step, k);
    }
  }

  // ---------- calls ----------

  /** What a request does to stored Applications. */
  lemma EffectApps(c: Cluster, r: Request, o: Outcome)
    requires Sound(c) && Admits(c, r)
    ensures var d := Effect(c, r, o);
            && (forall k :: k in d.apps ==>
                  k in c.apps && d.apps[k].uid == c.apps[k].uid && d.apps[k].spec == c.apps[k].spec &&
                  d.apps[k].key == c.apps[k].key && d.apps[k].deleting == c.apps[k].deleting &&
                  d.apps[k].finalizer == if r.Update? && k == r.app.key then r.app.finalizer else c.apps[k].finalizer)
            && (forall k :: k in c.apps && k !in d.apps ==> r.Update? && k == r.app.key && !r.app.finalizer)
            && (r.Update? && !r.app.finalizer && c.apps[r.app.key].deleting ==> r.app.key !in d.apps)
  {
    if r.Update? || r.UpdateStatus? { assert c.apps[r.app.key].key == r.app.key; } else { EffectKeepsApps(c, r, o); }
  }

  predicate Touches(r: Request, rk: ReleaseKey) {
    match r
    case HelmInstall(key, _) => key == rk
    case HelmUpgrade(key, _) => key == rk
    case HelmRollback(key) => key == rk
    case HelmUninstall(key) => key == rk
    case DropNamespace(name) => name == rk.namespace
    case _ => false
  }

  lemma Untouched(c: Cluster, r: Request, o: Outcome, rk: ReleaseKey)
    requires !Touches(r, rk)
    ensures var d := Serve(c, r, o).0;
            (rk in d.releases <==> rk in c.releases) && (rk in c.releases ==> d.releases[rk] == c.releases[rk])
  {
  }

  /** What a request does to releases and namespaces. */
  lemma EffectHelm(c: Cluster, r: Request, o: Outcome)
    requires Admits(c, r)
    ensures var d := Effect(c, r, o);
            && (forall rk :: rk in d.releases ==>
                  (rk in c.releases || (r.HelmInstall? && rk == r.release && rk.namespace in c.namespaces)) &&
                  (rk.namespace in c.namespaces ==> rk.namespace in d.namespaces))
            && (r.HelmUninstall? ==> r.release !in d.releases)
            && (forall n :: n in c.namespaces && !(r.DropNamespace? && r.name == n) ==>
                  n in d.namespaces && d.namespaces[n] == c.namespaces[n])
            && (forall n :: n in d.namespaces && n !in c.namespaces ==> r.MakeNamespace? && r.name == n)
  {
  }

  /** The updates and installs of a pass are for the Application it works on. */
  lemma OwnRequests(w: Worker)
    requires !w.Idle?
    ensures var r := NextCall(w);
            && (r.Update? ==> r.app.key == w.app.key && r.app.finalizer == w.AddingFinalizer? &&
                              (w.AddingFinalizer? || w.DroppingFinalizer?))
            && (r.HelmInstall? ==> w.Applying? && r.release == ReleaseOf(w.app))
            && (r.HelmUninstall? ==> w.Uninstalling? && r.release == ReleaseOf(w.app))
            && (r.DropNamespace? ==> w.DroppingNamespace? && r.name == w.app.spec.namespace)
            && (r.MakeNamespace? ==> w.CreatingNamespace? && r.name == w.app.spec.namespace)
  {
  }

  predicate CarriedOver(a: App, b: App) {
    b.uid == a.uid && b.spec == a.spec && b.key == a.key && b.deleting == a.deleting && (a.finalizer ==> b.finalizer)
  }

  /** A call changes stored Applications only by the worker's own updates. */
  lemma CallApps(s: State, o: Outcome)
    requires LifeInv(s) && !s.worker.Idle?
    ensures var c, d := s.cluster, Step(s, Call(o)).cluster;
            && (forall k :: k in d.apps ==> k in c.apps && CarriedOver(c.apps[k], d.apps[k]))
            && (forall k :: k in c.apps && k !in d.apps ==> s.worker.DroppingFinalizer? && k == s.worker.app.key)
            && (forall k :: k in d.apps && d.apps[k].finalizer != c.apps[k].finalizer ==> s.worker.AddingFinalizer?)
  {
    var r := NextCall(s.worker);
    OwnRequests(s.worker);
    if Executes(s.cluster, r, o) { EffectApps(s.cluster, r, o); }
  }

  /** Old releases keep their owner: the one Application that can go has no release left. */
  lemma OldGated(s: State, d: Cluster, rk: ReleaseKey)
    requires LifeInv(s) && rk in s.cluster.releases
    requires forall k :: k in d.apps ==> k in s.cluster.apps && CarriedOver(s.cluster.apps[k], d.apps[k])
    requires forall k :: k in s.cluster.apps && k !in d.apps ==> s.worker.DroppingFinalizer? && k == s.worker.app.key
    ensures exists k :: k in d.apps && ReleaseOf(d.apps[k]) == rk && d.apps[k].finalizer
  {
    var c := s.cluster;
    var k :| k in c.apps && ReleaseOf(c.apps[k]) == rk && c.apps[k].finalizer;
    assert k in d.apps;
    assert CarriedOver(c.apps[k], d.apps[k]);
  }

  lemma CallGated(s: State, o: Outcome)
    requires LifeInv(s) && !s.worker.Idle?
    ensures Gated(Step(s, Call(o)).cluster)
  {
    var c, d, r := s.cluster, Step(s, Call(o)).cluster, NextCall(s.worker);
    CallApps(s, o);
    if Executes(c, r, o) {
      forall rk | rk in d.releases
        ensures rk.namespace in d.namespaces &&
                exists k :: k in d.apps && ReleaseOf(d.apps[k]) == rk && d.apps[k].finalizer
      {
        CallRelease(s, o, rk);
        if rk in c.releases { OldGated(s, d, rk); } else { NewGated(s, d, rk); }
      }
    }
  }

  /** A release is there after a call if it was before, or if the pass has just installed it. */
  lemma CallRelease(s: State, o: Outcome, rk: ReleaseKey)
    requires Gated(s.cluster) && !s.worker.Idle? && Executes(s.cluster, NextCall(s.worker), o)
    requires rk in Step(s, Call(o)).cluster.releases
    ensures rk.namespace in Step(s, Call(o)).cluster.namespaces
    ensures rk in s.cluster.releases || (s.worker.Applying? && rk == ReleaseOf(s.worker.app))
  {
    OwnRequests(s.worker);
    EffectHelm(s.cluster, NextCall(s.worker), o);
  }

  lemma NewGated(s: State, d: Cluster, rk: ReleaseKey)
    requires LifeInv(s) && s.worker.Applying? && rk == ReleaseOf(s.worker.app)
    requires forall k :: k in d.apps ==> k in s.cluster.apps && CarriedOver(s.cluster.apps[k], d.apps[k])
    requires forall k :: k in s.cluster.apps ==> k in d.apps
    ensures exists k :: k in d.apps && ReleaseOf(d.apps[k]) == rk && d.apps[k].finalizer
  {
    var k := s.worker.app.key;
    assert k in d.apps;
    assert CarriedOver(s.cluster.apps[k], d.apps[k]);
  }

  /** Where the steps of a cleanup lead. */
  lemma ResumeCleanup(w: Worker, a: Response, now: Time)
    requires OnTheWayOut(w)
    ensures var v := Resume(w, a, now);
            && (v.Idle? || (OnTheWayOut(v) && v.app == w.app))
            && !v.CheckingRelease?
            && (v.Uninstalling? ==> w.CheckingRelease?)
            && (v.InspectingNamespace? ==>
                  (w.CheckingRelease? && a == GotHistory(false)) || (w.Uninstalling? && !a.Failure?))
            && (v.ListingOthers? ==> w.InspectingNamespace? && a == GotNamespace(true))
            && (v.DroppingNamespace? ==> w.ListingOthers? && a.GotApps? && Others(a.items, w.app.uid) == {})
            && (v.DroppingFinalizer? ==>
                  (w.InspectingNamespace? && (a == GotNamespace(false) || a == Failure(NotFound))) ||
                  (w.ListingOthers? && a.GotApps? && Others(a.items, w.app.uid) != {}) ||
                  (w.DroppingNamespace? && (!a.Failure? || a == Failure(NotFound))))
  {
  }

  lemma ServeRead(c: Cluster, r: Request, o: Outcome)
    ensures var (d, a) := Serve(c, r, o);
            && (a == GotNamespace(true) && r.ReadNamespace? ==> r.name in c.namespaces && c.namespaces[r.name])
            && (a == GotNamespace(false) && r.ReadNamespace? ==> r.name in c.namespaces && !c.namespaces[r.name])
            && (a == Failure(NotFound) && r.ReadNamespace? ==> r.name !in c.namespaces)
            && (a == GotHistory(false) && r.HelmHistory? ==> r.release !in c.releases)
            && (r.ReadNamespace? || r.HelmHistory? || r.ListByNamespace? || r.ReadApp? ==> d == c)
            && (r.HelmUninstall? && !a.Failure? ==> Executes(c, r, o))
            && (r.DropNamespace? && (!a.Failure? || a == Failure(NotFound)) ==> r.name !in d.namespaces)
  {
  }

  lemma CallCleanup(s: State, o: Outcome)
    requires LifeInv(s) && OnTheWayOut(s.worker) && FreshApp(Call(o))
    ensures Cleanup(Step(s, Call(o)).cluster, Step(s, Call(o)).worker)
  {
    var w := s.worker;
    var (d, a) := Serve(s.cluster, NextCall(w), o);
    ResumeCleanup(w, a, d.clock);
    ReleaseStaysGone(s, o);
    StaysManaged(s, o);
    OthersHaveNone(s, o);
  }

  lemma ReleaseStaysGone(s: State, o: Outcome)
    requires OnTheWayOut(s.worker) && Cleanup(s.cluster, s.worker)
    ensures var t := Step(s, Call(o)); Uninstalled(t.worker) ==> ReleaseOf(t.worker.app) !in t.cluster.releases
  {
    var c, r, w := s.cluster, NextCall(s.worker), s.worker;
    var (d, a) := Serve(c, r, o);
    ResumeCleanup(w, a, d.clock);
    ServeRead(c, r, o);
    OwnRequests(w);
    if Executes(c, r, o) { EffectHelm(c, r, o); }
  }

  lemma StaysManaged(s: State, o: Outcome)
    requires OnTheWayOut(s.worker) && Cleanup(s.cluster, s.worker)
    ensures var t := Step(s, Call(o));
            t.worker.ListingOthers? || t.worker.DroppingNamespace? ==>
              t.worker.app.spec.namespace in t.cluster.namespaces && t.cluster.namespaces[t.worker.app.spec.namespace]
  {
    var c, r, w := s.cluster, NextCall(s.worker), s.worker;
    var (d, a) := Serve(c, r, o);
    ResumeCleanup(w, a, d.clock);
    ServeRead(c, r, o);
  }

  lemma OthersHaveNone(s: State, o: Outcome)
    requires SoundState(s) && OnTheWayOut(s.worker) && Tracks(s.cluster, s.worker.app)
    ensures var t := Step(s, Call(o));
            t.worker.DroppingNamespace? ==>
              forall k :: k in t.cluster.apps && k != t.worker.app.key ==>
                            (LiveIn(t.cluster.apps[k], t.worker.app.spec.namespace) ==> !t.cluster.apps[k].finalizer)
  {
    var c, r, w := s.cluster, NextCall(s.worker), s.worker;
    var (d, a) := Serve(c, r, o);
    ResumeCleanup(w, a, d.clock);
    ServeRead(c, r, o);
    if w.ListingOthers? { OthersDeleting(c, w.app, o); }
  }

  lemma StartCleanup(s: State, o: Outcome)
    requires LifeInv(s) && !OnTheWayOut(s.worker) && !s.worker.Idle? && FreshApp(Call(o))
    ensures Cleanup(Step(s, Call(o)).cluster, Step(s, Call(o)).worker)
  {
    var (d, a) := Serve(s.cluster, NextCall(s.worker), o);
    if s.worker.Reading? { ReadCleanup(s, o); } else { ResumeOut(s.worker, a, d.clock); }
  }

  lemma ReadCleanup(s: State, o: Outcome)
    requires s.worker.Reading?
    ensures var v := Step(s, Call(o)).worker; !Uninstalled(v) && (OnTheWayOut(v) ==> v.app.deleting)
  {
  }

  lemma OthersDeleting(c: Cluster, app: App, o: Outcome)
    requires Sound(c) && Tracks(c, app)
    ensures var a := Serve(c, ListByNamespace(app.spec.namespace), o).1;
            a.GotApps? ==>
              forall k :: k in c.apps && k != app.key && LiveIn(c.apps[k], app.spec.namespace) ==>
                c.apps[k] in Others(a.items, app.uid)
  {
    var a := Serve(c, ListByNamespace(app.spec.namespace), o).1;
    if a.GotApps? {
      forall k | k in c.apps && k != app.key && LiveIn(c.apps[k], app.spec.namespace)
        ensures c.apps[k] in Others(a.items, app.uid)
      {
        assert c.apps[k].uid != c.apps[app.key].uid;
        assert c.apps[k] in a.items;
      }
    }
  }

  lemma CallLife(s: State, o: Outcome)
    requires LifeInv(s) && !s.worker.Idle? && FreshApp(Call(o))
    ensures LifeInv(Step(s, Call(o)))
  {
    StepFresh(s, Call(o));
    CallApps(s, o);
    CallGated(s, o);
    if OnTheWayOut(s.worker) { CallCleanup(s, o); } else { StartCleanup(s, o); }
    CallSameNamespace(s, o);
  }

  lemma CallSameNamespace(s: State, o: Outcome)
    requires SameNamespace(s.cluster, s.worker) && SoundState(s) && !s.worker.Idle? && FreshApp(Call(o))
    requires var c, d := s.cluster, Step(s, Call(o)).cluster;
             forall k :: k in d.apps ==> k in c.apps && CarriedOver(c.apps[k], d.apps[k])
    ensures var t := Step(s, Call(o)); SameNamespace(t.cluster, t.worker)
  {
    var (d, a) := Serve(s.cluster, NextCall(s.worker), o);
    ResumeKeepsCopy(s.worker, a, d.clock);
    AnswerOrigin(s.cluster, NextCall(s.worker), o);
    if a.GotApp? { assert d.apps[a.app.key] == a.app; }
  }

  lemma StepLife(s: State, e: Event)
    requires LifeInv(s) && Orderly(s, e)
    ensures LifeInv(Step(s, e))
  {
    match e
    case Env(step) => EnvLife(s, step);
    case Call(o) => if !s.worker.Idle? { CallLife(s, o); }
    case _ =>
  }

  lemma {:induction false} RunLife(s: State, events: seq<Event>)
    requires LifeInv(s) && OrderlyRun(s, events)
    ensures LifeInv(Run(s, events))
    decreases |events|
  {
    if events != [] {
      StepLife(s, events[0]);
      RunLife(Step(s, events[0]), events[1..]);
    }
  }

  /** The finalizer gate, in every orderly run. */
  lemma FinalizerGate(s: State, events: seq<Event>)
    requires Initial(s) && OrderlyRun(s, events)
    ensures Gated(Run(s, events).cluster)
  {
    RunLife(s, events);
  }

  /** A namespace the operator deletes is its own, and no release of a live Application is in it. */
  lemma NamespaceDropIsSafe(s: State, events: seq<Event>)
    requires Initial(s) && OrderlyRun(s, events) && Run(s, events).worker.DroppingNamespace?
    ensures var t := Run(s, events);
            var name := t.worker.app.spec.namespace;
            name in t.cluster.namespaces && t.cluster.namespaces[name] &&
            forall k :: k in t.cluster.apps && LiveIn(t.cluster.apps[k], name) ==>
              ReleaseOf(t.cluster.apps[k]) !in t.cluster.releases
  {
    RunLife(s, events);
    DropIsSafe(Run(s, events));
  }

  lemma OwnerHolds(c: Cluster, k: AppKey)
    requires DistinctReleases(c) && Gated(c) && k in c.apps && ReleaseOf(c.apps[k]) in c.releases
    ensures c.apps[k].finalizer
  {
    var l :| l in c.apps && ReleaseOf(c.apps[l]) == ReleaseOf(c.apps[k]) && c.apps[l].finalizer;
    assert l == k;
  }

  lemma DropIsSafe(t: State)
    requires LifeInv(t) && t.worker.DroppingNamespace?
    ensures forall k :: k in t.cluster.apps && LiveIn(t.cluster.apps[k], t.worker.app.spec.namespace) ==>
              ReleaseOf(t.cluster.apps[k]) !in t.cluster.releases
  {
    var c := t.cluster;
    forall k | k in c.apps && ReleaseOf(c.apps[k]) in c.releases ensures c.apps[k].finalizer { OwnerHolds(c, k); }
  }
}
