/** A generation stands for one spec: in every run, two stored versions of an Application with the same generation
    have the same spec. So what an observed generation was rendered from is well defined. */
module Generations {
  import opened Api
  import opened Server
  import opened Controller
  import opened Machine
  import opened Soundness

  /** A version no newer than this one, and of the same generation only if of the same spec. */
  predicate NotAfter(a: App, b: App) {
    a.uid == b.uid ==> a.generation <= b.generation && (a.generation == b.generation ==> a.spec == b.spec)
  }

  predicate SameSpec(a: App, b: App) {
    a.uid == b.uid && a.generation == b.generation ==> a.spec == b.spec
  }

  ghost predicate Dated(c: Cluster) {
    && (forall i, k :: 0 <= i < |c.archive| && k in c.apps ==> NotAfter(c.archive[i], c.apps[k]))
    && (forall i, j :: 0 <= i < |c.archive| && 0 <= j < |c.archive| ==> SameSpec(c.archive[i], c.archive[j]))
  }

  /** A new version of a stored Application, its generation raised if its spec changed. */
  predicate Follows(before: App, after: App) {
    && after.key == before.key && after.uid == before.uid
    && (after.generation == before.generation + 1 ||
        (after.generation == before.generation && after.spec == before.spec))
  }

  lemma StoreDated(c: Cluster, app: App)
    requires Sound(c) && Dated(c) && app.key in c.apps && Follows(c.apps[app.key], app)
    ensures Dated(Store(c, app))
  {
    var d, n := Store(c, app), |c.archive|;
    forall i, k | 0 <= i < |d.archive| && k in d.apps ensures NotAfter(d.archive[i], d.apps[k]) {
      if i < n {
        assert d.archive[i] == c.archive[i] && NotAfter(c.archive[i], c.apps[k]);
      } else if k != app.key {
        assert c.apps[k].uid != c.apps[app.key].uid;
      }
    }
    forall i, j | 0 <= i < |d.archive| && 0 <= j < |d.archive| ensures SameSpec(d.archive[i], d.archive[j]) {
      if i < n { assert d.archive[i] == c.archive[i] && NotAfter(c.archive[i], c.apps[app.key]); }
      if j < n { assert d.archive[j] == c.archive[j] && NotAfter(c.archive[j], c.apps[app.key]); }
      if i < n && j < n { assert SameSpec(c.archive[i], c.archive[j]); }
    }
  }

  lemma CreateDated(c: Cluster, app: App)
    requires Sound(c) && Dated(c) && app.uid == c.uids && app.key !in c.apps
    ensures Dated(Store(c, app))
  {
    var d, n := Store(c, app), |c.archive|;
    assert forall k :: k in c.apps ==> Known(c, c.apps[k]);
    forall i, k | 0 <= i < |d.archive| && k in d.apps ensures NotAfter(d.archive[i], d.apps[k]) {
      if i < n { assert d.archive[i] == c.archive[i] && Known(c, c.archive[i]); }
    }
    forall i, j | 0 <= i < |d.archive| && 0 <= j < |d.archive| ensures SameSpec(d.archive[i], d.archive[j]) {
      if i < n { assert d.archive[i] == c.archive[i] && Known(c, c.archive[i]); }
      if j < n { assert d.archive[j] == c.archive[j] && Known(c, c.archive[j]); }
      if i < n && j < n { assert SameSpec(c.archive[i], c.archive[j]); }
    }
  }

  lemma ShrinkDated(c: Cluster, d: Cluster)
    requires Dated(c) && d.archive == c.archive
    requires forall k :: k in d.apps ==> k in c.apps && d.apps[k] == c.apps[k]
    ensures Dated(d)
  {
  }

  lemma CreationDated(c: Cluster, key: AppKey, spec: Spec)
    requires Sound(c) && Dated(c)
    ensures Dated(Environment(c, Create(key, spec)))
  {
    if key !in c.apps {
      var app := App(key, c.uids, 0, 1, spec, false, false, EMPTY_STATUS);
      CreateDated(c, app);
      assert Environment(c, Create(key, spec)) == Store(c, app).(uids := c.uids + 1);
    }
  }

  lemma EnvDated(c: Cluster, step: EnvStep)
    requires Sound(c) && Dated(c)
    ensures Dated(Environment(c, step))
  {
    match step
    case Create(key, spec) => CreationDated(c, key, spec);
    case EditSpec(key, spec) =>
      if key in c.apps && c.apps[key].spec != spec {
        StoreDated(c, c.apps[key].(spec := spec, generation := c.apps[key].generation + 1));
      }
    case Touch(key) => if key in c.apps { StoreDated(c, c.apps[key]); }
    case Delete(key) =>
      if key in c.apps && !c.apps[key].deleting && c.apps[key].finalizer {
        StoreDated(c, c.apps[key].(deleting := true, generation := c.apps[key].generation + 1));
      } else {
        ShrinkDated(c, Environment(c, step));
      }
    case _ => ShrinkDated(c, Environment(c, step));
  }

  lemma EffectDated(c: Cluster, r: Request, o: Outcome)
    requires Sound(c) && Dated(c) && Admits(c, r)
    ensures Dated(Effect(c, r, o))
  {
    match r
    case Update(app) =>
      if c.apps[app.key].deleting && !app.finalizer { ShrinkDated(c, Remove(c, app.key)); }
      else { StoreDated(c, c.apps[app.key].(finalizer := app.finalizer)); }
    case UpdateStatus(app) =>
      if c.apps[app.key].status != app.status { StoreDated(c, c.apps[app.key].(status := app.status)); }
    case _ => ShrinkDated(c, Effect(c, r, o));
  }

  lemma {:induction false} RunDated(s: State, events: seq<Event>)
    requires SoundState(s) && Dated(s.cluster)
    ensures Dated(Run(s, events).cluster)
    decreases |events|
  {
    if events != [] {
      StepSound(s, events[0]);
      StepDated(s, events[0]);
      RunDated(Step(s, events[0]), events[1..]);
    }
  }

  lemma StepDated(s: State, e: Event)
    requires SoundState(s) && Dated(s.cluster)
    ensures Dated(Step(s, e).cluster)
  {
    if e.Env? { EnvDated(s.cluster, e.step); }
    else if e.Call? && !s.worker.Idle? && Executes(s.cluster, NextCall(s.worker), e.outcome) {
      EffectDated(s.cluster, NextCall(s.worker), e.outcome);
    }
  }

  /** Versions of one Application with the same generation have the same spec, in every run. */
  lemma GenerationFixesSpec(s: State, events: seq<Event>, i: nat, j: nat)
    requires Initial(s)
    requires var archive := Run(s, events).cluster.archive;
             i < |archive| && j < |archive| && archive[i].uid == archive[j].uid &&
             archive[i].generation == archive[j].generation
    ensures Run(s, events).cluster.archive[i].spec == Run(s, events).cluster.archive[j].spec
  {
    RunDated(s, events);
    var archive := Run(s, events).cluster.archive;
    assert SameSpec(archive[i], archive[j]);
  }
}
