/** Why the lifecycle guarantees need target namespaces that do not change: what is left behind in a namespace that no
    Application targets any more stays there for ever. */
module Orphans {
  import opened Api
  import opened Server
  import opened Controller
  import opened Machine
  import opened Soundness
  import opened Fresh
  import opened Lifecycle
  import opened Namespaces

  ghost predicate Forsaken(s: State, n: Name) {
    && (forall k :: k in s.cluster.apps ==> s.cluster.apps[k].spec.namespace != n)
    && (Copy(s.worker).Some? ==> s.worker.app.spec.namespace != n)
  }

  /** Fresh reads, and no user points an Application at this namespace. */
  predicate Shuns(e: Event, n: Name) {
    FreshApp(e) &&
    (e.Env? ==>
       match e.step
       case Create(_, spec) => spec.namespace != n
       case EditSpec(_, spec) => spec.namespace != n
       case _ => true)
  }

  /** What a namespace holds. */
  predicate SameContent(c: Cluster, d: Cluster, n: Name) {
    && (Managed(c, n) ==> Managed(d, n))
    && forall rk :: rk in c.releases && rk.namespace == n ==> rk in d.releases && d.releases[rk] == c.releases[rk]
  }

  /** Every request that changes Helm or a namespace concerns the target namespace of the pass's Application. */
  predicate Concerns(r: Request, n: Name) {
    match r
    case MakeNamespace(name) => name == n
    case DropNamespace(name) => name == n
    case HelmInstall(rk, _) => rk.namespace == n
    case HelmUpgrade(rk, _) => rk.namespace == n
    case HelmRollback(rk) => rk.namespace == n
    case HelmUninstall(rk) => rk.namespace == n
    case _ => false
  }

  lemma OwnNamespace(w: Worker, n: Name)
    requires !w.Idle? && Concerns(NextCall(w), n)
    ensures Copy(w).Some? && w.app.spec.namespace == n
  {
  }

  lemma ElsewhereSame(c: Cluster, r: Request, o: Outcome, n: Name)
    requires !Concerns(r, n)
    ensures SameContent(c, Serve(c, r, o).0, n)
  {
    var d := Serve(c, r, o).0;
    if Executes(c, r, o) { EffectHelm(c, r, o); }
    forall rk | rk in c.releases && rk.namespace == n ensures rk in d.releases && d.releases[rk] == c.releases[rk] {
      Untouched(c, r, o, rk);
    }
  }

  lemma ServeForsaken(c: Cluster, r: Request, o: Outcome, n: Name)
    requires Sound(c) && o.staleApp.None?
    requires forall k :: k in c.apps ==> c.apps[k].spec.namespace != n
    ensures var (d, a) := Serve(c, r, o);
            (forall k :: k in d.apps ==> d.apps[k].spec.namespace != n) &&
            (a.GotApp? ==> a.app.spec.namespace != n)
  {
  }

  lemma EnvForsaken(c: Cluster, step: EnvStep, n: Name)
    requires Sound(c) && Shuns(Env(step), n)
    requires forall k :: k in c.apps ==> c.apps[k].spec.namespace != n
    ensures var d := Environment(c, step);
            (forall k :: k in d.apps ==> d.apps[k].spec.namespace != n) && SameContent(c, d, n)
  {
    EnvHelm(c, step);
    EnvTargets(c, step, n);
  }

  lemma EnvTargets(c: Cluster, step: EnvStep, n: Name)
    requires Sound(c) && Shuns(Env(step), n)
    requires forall k :: k in c.apps ==> c.apps[k].spec.namespace != n
    ensures forall k :: k in Environment(c, step).apps ==> Environment(c, step).apps[k].spec.namespace != n
  {
    forall k | k in Environment(c, step).apps ensures Environment(c, step).apps[k].spec.namespace != n {
      if k in c.apps && !About(step, k) { EnvOthers(c, step, k); }
    }
  }

  lemma CallForsaken(s: State, o: Outcome, n: Name)
    requires SoundState(s) && !s.worker.Idle? && Forsaken(s, n) && Shuns(Call(o), n)
    ensures Forsaken(Step(s, Call(o)), n) && SameContent(s.cluster, Step(s, Call(o)).cluster, n)
  {
    var r := NextCall(s.worker);
    var (d, a) := Serve(s.cluster, r, o);
    if Concerns(r, n) { OwnNamespace(s.worker, n); }
    ElsewhereSame(s.cluster, r, o, n);
    ServeForsaken(s.cluster, r, o, n);
    ResumeKeepsCopy(s.worker, a, d.clock);
  }

  lemma StepForsaken(s: State, e: Event, n: Name)
    requires SoundState(s) && Forsaken(s, n) && Shuns(e, n)
    ensures Forsaken(Step(s, e), n) && SameContent(s.cluster, Step(s, e).cluster, n)
  {
    match e
    case Env(step) => EnvForsaken(s.cluster, step, n);
    case Call(o) => if !s.worker.Idle? { CallForsaken(s, o, n); }
    case _ =>
  }

  lemma {:induction false} RunForsaken(s: State, events: seq<Event>, n: Name)
    requires SoundState(s) && Forsaken(s, n) && forall i :: 0 <= i < |events| ==> Shuns(events[i], n)
    ensures Forsaken(Run(s, events), n) && SameContent(s.cluster, Run(s, events).cluster, n)
    decreases |events|
  {
    if events != [] {
      StepSound(s, events[0]);
      StepForsaken(s, events[0], n);
      RunForsaken(Step(s, events[0]), events[1..], n);
    }
  }

  /** Between passes, the only Application of a namespace is moved to another one. Whatever happens then, short of
      someone moving in again, the old release is never removed and belongs to nobody, and neither is a namespace that
      the operator made for it. Not even finalizing the Application helps. */
  lemma MovedReleaseIsOrphaned(s: State, key: AppKey, spec: Spec, events: seq<Event>)
    requires SoundState(s) && s.worker.Idle? && key in s.cluster.apps
    requires var n := s.cluster.apps[key].spec.namespace;
             spec.namespace != n &&
             (forall k :: k in s.cluster.apps && k != key ==> s.cluster.apps[k].spec.namespace != n) &&
             (forall i :: 0 <= i < |events| ==> Shuns(events[i], n))
    requires ReleaseOf(s.cluster.apps[key]) in s.cluster.releases
    ensures var rk, n := ReleaseOf(s.cluster.apps[key]), s.cluster.apps[key].spec.namespace;
            var t := Run(Step(s, Env(EditSpec(key, spec))), events);
            rk in t.cluster.releases && t.cluster.releases[rk] == s.cluster.releases[rk] && !Gated(t.cluster) &&
            (Managed(s.cluster, n) ==> Managed(t.cluster, n) && !Targeted(t.cluster, n))
  {
    var n, rk := s.cluster.apps[key].spec.namespace, ReleaseOf(s.cluster.apps[key]);
    var u := Step(s, Env(EditSpec(key, spec)));
    StepSound(s, Env(EditSpec(key, spec)));
    MovedAway(s, key, spec);
    RunForsaken(u, events, n);
    assert forall k :: k in Run(u, events).cluster.apps ==> ReleaseOf(Run(u, events).cluster.apps[k]) != rk;
  }

  lemma MovedAway(s: State, key: AppKey, spec: Spec)
    requires Sound(s.cluster) && s.worker.Idle? && key in s.cluster.apps
    requires var n := s.cluster.apps[key].spec.namespace;
             spec.namespace != n &&
             forall k :: k in s.cluster.apps && k != key ==> s.cluster.apps[k].spec.namespace != n
    ensures var u := Step(s, Env(EditSpec(key, spec)));
            Forsaken(u, s.cluster.apps[key].spec.namespace) &&
            u.cluster.releases == s.cluster.releases && u.cluster.namespaces == s.cluster.namespaces
  {
    assert s.cluster.apps[key].key == key;
  }

  /** Exactly when a change of an Application's spec keeps the finalizer gate: if it keeps the target namespace, or
      there is no release yet. The release it would have then must not be another Application's. */
  lemma EditKeepsGateExactly(s: State, key: AppKey, spec: Spec)
    requires LifeInv(s) && key in s.cluster.apps
    requires forall k :: k in s.cluster.apps && k != key ==>
               ReleaseOf(s.cluster.apps[k]) != ReleaseKey(spec.namespace, key.name)
    ensures Gated(Environment(s.cluster, EditSpec(key, spec))) <==>
            spec.namespace == s.cluster.apps[key].spec.namespace ||
            ReleaseOf(s.cluster.apps[key]) !in s.cluster.releases
  {
    var c, d, former := s.cluster, Environment(s.cluster, EditSpec(key, spec)), ReleaseOf(s.cluster.apps[key]);
    EditApps(c, key, spec);
    if spec.namespace == c.apps[key].spec.namespace || former !in c.releases {
      forall rk | rk in d.releases
        ensures rk.namespace in d.namespaces &&
                exists k :: k in d.apps && ReleaseOf(d.apps[k]) == rk && d.apps[k].finalizer
      {
        var k :| k in c.apps && ReleaseOf(c.apps[k]) == rk && c.apps[k].finalizer;
        assert k in d.apps && ReleaseOf(d.apps[k]) == rk && d.apps[k].finalizer;
      }
    } else {
      forall k | k in d.apps ensures ReleaseOf(d.apps[k]) != former {
        assert k != key ==> ReleaseOf(c.apps[k]) != former;
      }
    }
  }

  lemma EditApps(c: Cluster, key: AppKey, spec: Spec)
    requires Sound(c) && key in c.apps
    ensures var d := Environment(c, EditSpec(key, spec));
            d.releases == c.releases && d.namespaces == c.namespaces && d.apps.Keys == c.apps.Keys &&
            (forall k :: k in c.apps && k != key ==> d.apps[k] == c.apps[k]) &&
            d.apps[key].spec == spec && d.apps[key].key == key && d.apps[key].finalizer == c.apps[key].finalizer
  {
    assert c.apps[key].key == key;
  }
}
