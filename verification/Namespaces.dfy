/** No leaked namespace: in orderly runs, a namespace the operator created is targeted by some stored Application until
    it is gone, provided that no deletion takes away, without a cleanup, the last Application that stands for it. */
module Namespaces {
  import opened Api
  import opened Server
  import opened Controller
  import opened Machine
  import opened Passes
  import opened Soundness
  import opened Fresh
  import opened Lifecycle

  predicate Managed(c: Cluster, n: Name) {
    n in c.namespaces && c.namespaces[n]
  }

  ghost predicate Targeted(c: Cluster, n: Name) {
    exists k :: k in c.apps && c.apps[k].spec.namespace == n
  }

  ghost predicate TargetedByOther(c: Cluster, n: Name, key: AppKey) {
    exists k :: k in c.apps && k != key && c.apps[k].spec.namespace == n
  }

  ghost predicate Claimed(c: Cluster) {
    forall n :: Managed(c, n) ==> Targeted(c, n)
  }

  ghost predicate ClaimedInv(s: State) {
    && LifeInv(s)
    && Claimed(s.cluster)
    && (s.worker.DroppingFinalizer? && Managed(s.cluster, s.worker.app.spec.namespace) ==>
          TargetedByOther(s.cluster, s.worker.app.spec.namespace, s.worker.app.key))
  }

  /** An Application other than these two targets the namespace. */
  ghost predicate TargetedByThird(c: Cluster, n: Name, key: AppKey, other: AppKey) {
    exists k :: k in c.apps && k != key && k != other && c.apps[k].spec.namespace == n
  }

  /** Deleting this Application leaves every operator-created namespace with an Application to clean it up: because the
      deletion waits for a cleanup, or because its namespace is not the operator's, or because there is another one for
      it, not counting one whose own cleanup is about to end. */
  ghost predicate Replaceable(s: State, key: AppKey)
    requires key in s.cluster.apps
  {
    var app, w := s.cluster.apps[key], s.worker;
    var n := app.spec.namespace;
    app.finalizer || !Managed(s.cluster, n) ||
    if w.DroppingFinalizer? && w.app.spec.namespace == n then TargetedByThird(s.cluster, n, key, w.app.key)
    else TargetedByOther(s.cluster, n, key)
  }

  /** Users do not delete the last one standing. */
  ghost predicate Patient(s: State, e: Event) {
    e.Env? && e.step.Delete? && e.step.key in s.cluster.apps && !s.cluster.apps[e.step.key].deleting ==>
      Replaceable(s, e.step.key)
  }

  ghost predicate PatientRun(s: State, events: seq<Event>)
    decreases |events|
  {
    events == [] || (Orderly(s, events[0]) && Patient(s, events[0]) && PatientRun(Step(s, events[0]), events[1..]))
  }

  /** The step takes an Application away at once. */
  predicate Removes(c: Cluster, step: EnvStep) {
    step.Delete? && step.key in c.apps && !c.apps[step.key].deleting && !c.apps[step.key].finalizer
  }

  /** Other steps keep stored Applications stored, in their namespaces. */
  lemma EnvStays(s: State, step: EnvStep, k: AppKey)
    requires LifeInv(s) && Orderly(s, Env(step)) && !Removes(s.cluster, step) && k in s.cluster.apps
    ensures var d := Environment(s.cluster, step);
            k in d.apps && d.apps[k].spec.namespace == s.cluster.apps[k].spec.namespace
  {
    EnvKeeps(s, step, k);
    assert s.cluster.apps[k].key == k;
    if !About(step, k) { EnvOthers(s.cluster, step, k); }
  }

  lemma OtherStepClaimed(s: State, step: EnvStep)
    requires ClaimedInv(s) && Orderly(s, Env(step)) && !Removes(s.cluster, step)
    ensures ClaimedInv(Step(s, Env(step)))
  {
    var c, d := s.cluster, Environment(s.cluster, step);
    StepLife(s, Env(step));
    EnvHelm(c, step);
    forall n | Managed(d, n) ensures Targeted(d, n) {
      assert Managed(c, n);
      var k :| k in c.apps && c.apps[k].spec.namespace == n;
      EnvStays(s, step, k);
    }
    if s.worker.DroppingFinalizer? && Managed(d, s.worker.app.spec.namespace) {
      var n := s.worker.app.spec.namespace;
      var k :| k in c.apps && k != s.worker.app.key && c.apps[k].spec.namespace == n;
      EnvStays(s, step, k);
    }
  }

  /** Who is left to target a namespace when an Application is taken away. */
  lemma RemovalTargets(c: Cluster, key: AppKey, n: Name)
    ensures Targeted(Remove(c, key), n) <==> TargetedByOther(c, n, key)
    ensures forall other :: TargetedByOther(Remove(c, key), n, other) <==> TargetedByThird(c, n, key, other)
  {
    forall k ensures k in Remove(c, key).apps <==> k in c.apps && k != key {
    }
  }

  lemma RemovalClaimed(s: State, key: AppKey)
    requires ClaimedInv(s) && Removes(s.cluster, Delete(key))
    ensures ClaimedInv(Step(s, Env(Delete(key)))) <==> Replaceable(s, key)
  {
    var c, d, w, n := s.cluster, Environment(s.cluster, Delete(key)), s.worker, s.cluster.apps[key].spec.namespace;
    StepLife(s, Env(Delete(key)));
    assert d == Remove(c, key) && d.namespaces == c.namespaces;
    forall m ensures Targeted(d, m) <==> TargetedByOther(c, m, key) { RemovalTargets(c, key, m); }
    forall m | m != n ensures TargetedByOther(c, m, key) <==> Targeted(c, m) { ElsewhereTargeted(c, key, m); }
    assert Claimed(d) <==> !Managed(c, n) || TargetedByOther(c, n, key) by {
      assert forall m :: Managed(d, m) <==> Managed(c, m);
    }
    if w.DroppingFinalizer? {
      var m := w.app.spec.namespace;
      assert w.app.key != key;
      RemovalTargets(c, key, m);
      if m != n { ElsewhereTargeted(c, key, m); } else { ThirdIsOther(c, n, key, w.app.key); }
    }
  }

  /** In other namespaces, taking the Application away makes no difference. */
  lemma ElsewhereTargeted(c: Cluster, key: AppKey, m: Name)
    requires key in c.apps && c.apps[key].spec.namespace != m
    ensures TargetedByOther(c, m, key) <==> Targeted(c, m)
    ensures forall other :: TargetedByThird(c, m, key, other) <==> TargetedByOther(c, m, other)
  {
  }

  lemma ThirdIsOther(c: Cluster, n: Name, key: AppKey, other: AppKey)
    ensures TargetedByThird(c, n, key, other) ==> TargetedByOther(c, n, key)
  {
  }

  /** Exactly when a deletion keeps every operator-created namespace claimed. */
  lemma DeletionKeepsClaimsExactly(s: State, key: AppKey)
    requires ClaimedInv(s) && key in s.cluster.apps && !s.cluster.apps[key].deleting
    ensures ClaimedInv(Step(s, Env(Delete(key)))) <==> Replaceable(s, key)
  {
    if s.cluster.apps[key].finalizer { OtherStepClaimed(s, Delete(key)); } else { RemovalClaimed(s, key); }
  }

  lemma EnvClaimed(s: State, step: EnvStep)
    requires ClaimedInv(s) && Orderly(s, Env(step)) && Patient(s, Env(step))
    ensures ClaimedInv(Step(s, Env(step)))
  {
    if Removes(s.cluster, step) { RemovalClaimed(s, step.key); } else { OtherStepClaimed(s, step); }
  }

  lemma OthersTarget(c: Cluster, app: App, o: Outcome)
    requires Sound(c) && Tracks(c, app)
    ensures var a := Serve(c, ListByNamespace(app.spec.namespace), o).1;
            a.GotApps? && Others(a.items, app.uid) != {} ==> TargetedByOther(c, app.spec.namespace, app.key)
  {
    var a := Serve(c, ListByNamespace(app.spec.namespace), o).1;
    if a.GotApps? && Others(a.items, app.uid) != {} {
      var b :| b in Others(a.items, app.uid);
      var k :| k in c.apps && c.apps[k].spec.namespace == app.spec.namespace && c.apps[k] == b;
      assert k != app.key;
    }
  }

  lemma ManagedAfter(s: State, o: Outcome, n: Name)
    requires LifeInv(s) && !s.worker.Idle? && Managed(Step(s, Call(o)).cluster, n)
    ensures Managed(s.cluster, n) ||
            (s.worker.CreatingNamespace? && n == s.worker.app.spec.namespace)
  {
    OwnRequests(s.worker);
    OnlyMakingManages(s.cluster, NextCall(s.worker), o, n);
  }

  lemma OnlyMakingManages(c: Cluster, r: Request, o: Outcome, n: Name)
    requires Managed(Serve(c, r, o).0, n)
    ensures Managed(c, n) || r == MakeNamespace(n)
  {
  }

  lemma StillTargeted(s: State, o: Outcome, n: Name)
    requires ClaimedInv(s) && !s.worker.Idle? && Managed(Step(s, Call(o)).cluster, n)
    ensures Targeted(Step(s, Call(o)).cluster, n)
  {
    var c, d, w := s.cluster, Step(s, Call(o)).cluster, s.worker;
    CallApps(s, o);
    ManagedAfter(s, o, n);
    if Managed(c, n) {
      if w.DroppingFinalizer? && w.app.spec.namespace == n {
        var k :| k in c.apps && k != w.app.key && c.apps[k].spec.namespace == n;
        assert k in d.apps;
      } else {
        var k :| k in c.apps && c.apps[k].spec.namespace == n;
        assert k in d.apps;
      }
    } else {
      assert w.app.key in d.apps;
    }
  }

  lemma CallClaimed(s: State, o: Outcome)
    requires ClaimedInv(s) && !s.worker.Idle? && FreshApp(Call(o))
    ensures ClaimedInv(Step(s, Call(o)))
  {
    var t, w := Step(s, Call(o)), s.worker;
    StepLife(s, Call(o));
    forall n | Managed(t.cluster, n) ensures Targeted(t.cluster, n) { StillTargeted(s, o, n); }
    var (d, a) := Serve(s.cluster, NextCall(w), o);
    if t.worker.DroppingFinalizer? {
      if OnTheWayOut(w) {
        ResumeCleanup(w, a, d.clock);
        ServeRead(s.cluster, NextCall(w), o);
        if w.ListingOthers? { OthersTarget(s.cluster, w.app, o); }
      } else {
        NotStraightOut(w, a, d.clock);
      }
    }
  }

  lemma NotStraightOut(w: Worker, a: Response, now: Time)
    requires !OnTheWayOut(w)
    ensures !Resume(w, a, now).DroppingFinalizer?
  {
    if !w.Reading? { ResumeOut(w, a, now); }
  }

  lemma StepClaimed(s: State, e: Event)
    requires ClaimedInv(s) && Orderly(s, e) && Patient(s, e)
    ensures ClaimedInv(Step(s, e))
  {
    match e
    case Env(step) => EnvClaimed(s, step);
    case Call(o) => if !s.worker.Idle? { CallClaimed(s, o); }
    case _ =>
  }

  lemma {:induction false} RunClaimed(s: State, events: seq<Event>)
    requires ClaimedInv(s) && PatientRun(s, events)
    ensures ClaimedInv(Run(s, events))
    decreases |events|
  {
    if events != [] {
      StepClaimed(s, events[0]);
      RunClaimed(Step(s, events[0]), events[1..]);
    }
  }

  /** Once every Application targeting it is finalized, whatever the order and the retries, an operator-created
      namespace is gone. */
  lemma NoNamespaceLeaks(s: State, events: seq<Event>, n: Name)
    requires Initial(s) && PatientRun(s, events)
    requires forall k :: k in Run(s, events).cluster.apps ==> Run(s, events).cluster.apps[k].spec.namespace != n
    ensures !Managed(Run(s, events).cluster, n)
  {
    RunClaimed(s, events);
  }

  /** Why the cleanup under way does not count: deleting the only other Application of the namespace, not reconciled
      yet, after the cleanup has counted it, leaks the namespace. */
  lemma ImpatienceLeaks(s: State, other: AppKey, o: Outcome)
    requires s.worker.DroppingFinalizer? && Executes(s.cluster, NextCall(s.worker), o)
    requires s.worker.app.deleting && Tracks(s.cluster, s.worker.app)
    requires Managed(s.cluster, s.worker.app.spec.namespace)
    requires other in s.cluster.apps && other != s.worker.app.key
    requires !s.cluster.apps[other].finalizer && !s.cluster.apps[other].deleting
    requires forall k :: k in s.cluster.apps && s.cluster.apps[k].spec.namespace == s.worker.app.spec.namespace ==>
               k in {other, s.worker.app.key}
    ensures var t := Run(s, [Env(Delete(other)), Call(o)]);
            Managed(t.cluster, s.worker.app.spec.namespace) && !Targeted(t.cluster, s.worker.app.spec.namespace)
  {
    var u := Step(s, Env(Delete(other)));
    TwoEvents(s, Env(Delete(other)), Call(o));
    assert u.cluster == Remove(s.cluster, other) && u.worker == s.worker;
    FinalUpdate(u, o);
  }

  lemma FinalUpdate(u: State, o: Outcome)
    requires u.worker.DroppingFinalizer? && Executes(u.cluster, NextCall(u.worker), o)
    requires u.cluster.apps[u.worker.app.key].deleting
    ensures Step(u, Call(o)).cluster == Remove(u.cluster, u.worker.app.key)
  {
  }
}
