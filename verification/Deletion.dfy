/** Crash-convergent deletion: however many attempts to clean up one Application are interrupted, and however, the
    attempt that succeeds leaves the cluster as a single undisturbed one would. */
module Deletion {
  import opened Api
  import opened Server
  import opened Controller
  import opened Machine
  import opened Passes
  import opened Soundness
  import opened Lifecycle
  import opened Namespaces

  /** What a cleanup is about; versions, the archive and the clock are left out. */
  datatype Core = Core(apps: map<AppKey, App>, namespaces: map<Name, bool>, releases: map<ReleaseKey, History>)

  function CoreOf(c: Cluster): Core {
    Core(c.apps, c.namespaces, c.releases)
  }

  ghost predicate LiveOther(c: Cluster, key: AppKey) {
    key in c.apps && exists k :: k in c.apps && k != key && LiveIn(c.apps[k], c.apps[key].spec.namespace)
  }

  /** The cluster without this Application: its release gone, and its namespace too if the operator made it and no
      live Application targets it. */
  ghost function Final(c: Cluster, key: AppKey): Core {
    if key !in c.apps then CoreOf(c)
    else
      var n := c.apps[key].spec.namespace;
      var releases := Without(c.releases, ReleaseOf(c.apps[key]));
      if Managed(c, n) && !LiveOther(c, key) then
        Core(Without(c.apps, key), Without(c.namespaces, n), Outside(releases, n))
      else
        Core(Without(c.apps, key), c.namespaces, releases)
  }

  /** Events of cleanup attempts for one Application, in a cluster nobody else touches. */
  predicate Attempt(e: Event, key: AppKey) {
    match e
    case Env(_) => false
    case Begin(k) => k == key
    case Call(o) => o.staleApp.None?
    case Crash => true
  }

  ghost predicate CleaningInv(s: State, key: AppKey) {
    && Sound(s.cluster)
    && (key in s.cluster.apps ==> s.cluster.apps[key].deleting && s.cluster.apps[key].finalizer)
    && Cleaning(s.cluster, s.worker, key)
  }

  /** What an attempt has established. */
  ghost predicate Cleaning(c: Cluster, w: Worker, key: AppKey) {
    && (w == Idle(Settled) ==> key !in c.apps)
    && (w.Reading? ==> w.key == key)
    && (w.Idle? || w.Reading? || OnTheWayOut(w))
    && (OnTheWayOut(w) ==> key in c.apps && w.app == c.apps[key])
    && (w.Uninstalling? ==> ReleaseOf(w.app) in c.releases)
    && (Uninstalled(w) ==> ReleaseOf(w.app) !in c.releases)
    && (w.DroppingNamespace? ==> Managed(c, w.app.spec.namespace) && !LiveOther(c, key))
    && (w.DroppingFinalizer? ==> !(Managed(c, w.app.spec.namespace) && !LiveOther(c, key)))
    && (w.ListingOthers? ==> Managed(c, w.app.spec.namespace))
  }

  /** How one call of an attempt changes the cluster. */
  function Surface(c: Cluster, w: Worker, key: AppKey, o: Outcome): Cluster {
    if !Executes(c, NextCall(w), o) then c
    else
      match w
      case Uninstalling(app) => c.(releases := Without(c.releases, ReleaseOf(app)))
      case DroppingNamespace(app) =>
        c.(namespaces := Without(c.namespaces, app.spec.namespace), releases := Outside(c.releases, app.spec.namespace))
      case DroppingFinalizer(_) => Remove(c, key)
      case _ => c
  }

  lemma CallSurface(s: State, key: AppKey, o: Outcome)
    requires CleaningInv(s, key) && !s.worker.Idle?
    ensures Step(s, Call(o)).cluster == Surface(s.cluster, s.worker, key, o)
  {
    if s.worker.DroppingFinalizer? { RemoveSurface(s, key, o); }
    else if s.worker.Uninstalling? || s.worker.DroppingNamespace? { HelmSurface(s, key, o); }
    else { ReadSurface(s, key, o); }
  }

  lemma RemoveSurface(s: State, key: AppKey, o: Outcome)
    requires s.worker.DroppingFinalizer? && key in s.cluster.apps && s.cluster.apps[key].key == key
    requires s.worker.app == s.cluster.apps[key] && s.cluster.apps[key].deleting
    ensures Step(s, Call(o)).cluster == Surface(s.cluster, s.worker, key, o)
  {
  }

  lemma HelmSurface(s: State, key: AppKey, o: Outcome)
    requires s.worker.Uninstalling? || s.worker.DroppingNamespace?
    ensures Step(s, Call(o)).cluster == Surface(s.cluster, s.worker, key, o)
  {
  }

  lemma ReadSurface(s: State, key: AppKey, o: Outcome)
    requires s.worker.Reading? || s.worker.CheckingRelease? || s.worker.InspectingNamespace? || s.worker.ListingOthers?
    ensures Step(s, Call(o)).cluster == s.cluster
  {
  }

  lemma SameFinal(s: State, key: AppKey, o: Outcome)
    requires CleaningInv(s, key) && !s.worker.Idle?
    ensures Final(Step(s, Call(o)).cluster, key) == Final(s.cluster, key)
  {
    var c, d, w := s.cluster, Step(s, Call(o)).cluster, s.worker;
    CallSurface(s, key, o);
    if w.Uninstalling? && d != c {
      UninstallFinal(c, d, key);
    } else if w.DroppingNamespace? && d != c {
      DropFinal(c, d, key);
    } else if w.DroppingFinalizer? && d != c {
      RemoveFinal(c, d, key);
    }
  }

  lemma UninstallFinal(c: Cluster, d: Cluster, key: AppKey)
    requires key in c.apps && d == c.(releases := Without(c.releases, ReleaseOf(c.apps[key])))
    ensures Final(d, key) == Final(c, key)
  {
    assert Without(d.releases, ReleaseOf(c.apps[key])) == Without(c.releases, ReleaseOf(c.apps[key]));
    assert LiveOther(d, key) == LiveOther(c, key);
  }

  lemma DropFinal(c: Cluster, d: Cluster, key: AppKey)
    requires key in c.apps && Managed(c, c.apps[key].spec.namespace) && !LiveOther(c, key)
    requires ReleaseOf(c.apps[key]) !in c.releases
    requires var n := c.apps[key].spec.namespace;
             d == c.(namespaces := Without(c.namespaces, n), releases := Outside(c.releases, n))
    ensures Final(d, key) == Final(c, key)
  {
    var n, rk := c.apps[key].spec.namespace, ReleaseOf(c.apps[key]);
    assert Without(c.releases, rk) == c.releases;
    assert Without(d.releases, rk) == d.releases;
  }

  lemma RemoveFinal(c: Cluster, d: Cluster, key: AppKey)
    requires key in c.apps && !(Managed(c, c.apps[key].spec.namespace) && !LiveOther(c, key))
    requires ReleaseOf(c.apps[key]) !in c.releases && d == Remove(c, key)
    ensures Final(d, key) == Final(c, key)
  {
    assert Without(c.releases, ReleaseOf(c.apps[key])) == c.releases;
  }

  lemma OthersLive(c: Cluster, key: AppKey, o: Outcome)
    requires Sound(c) && key in c.apps
    ensures var a := Serve(c, ListByNamespace(c.apps[key].spec.namespace), o).1;
            a.GotApps? ==> ((Others(a.items, c.apps[key].uid) == {}) <==> !LiveOther(c, key))
  {
    var a := Serve(c, ListByNamespace(c.apps[key].spec.namespace), o).1;
    if a.GotApps? {
      if LiveOther(c, key) {
        var k :| k in c.apps && k != key && LiveIn(c.apps[k], c.apps[key].spec.namespace);
        assert c.apps[k] in Others(a.items, c.apps[key].uid);
      }
      if b :| b in Others(a.items, c.apps[key].uid) {
        var k :| k in c.apps && c.apps[k] == b;
        assert k != key && LiveIn(c.apps[k], c.apps[key].spec.namespace);
      }
    }
  }

  lemma CallCleans(s: State, key: AppKey, o: Outcome)
    requires CleaningInv(s, key) && OnTheWayOut(s.worker) && o.staleApp.None?
    ensures CleaningInv(Step(s, Call(o)), key)
  {
    if s.worker.DroppingFinalizer? {
      CallSurface(s, key, o);
      ServeSound(s.cluster, NextCall(s.worker), o);
      LastCallCleans(s, key, o);
    } else {
      MiddleCallCleans(s, key, o);
    }
  }

  lemma MiddleCallCleans(s: State, key: AppKey, o: Outcome)
    requires CleaningInv(s, key) && OnTheWayOut(s.worker) && !s.worker.DroppingFinalizer?
    ensures CleaningInv(Step(s, Call(o)), key)
  {
    if s.worker.Uninstalling? || s.worker.DroppingNamespace? { HelmCallCleans(s, key, o); }
    else { LookCleans(s, key, o); }
  }

  lemma HelmCallCleans(s: State, key: AppKey, o: Outcome)
    requires CleaningInv(s, key) && (s.worker.Uninstalling? || s.worker.DroppingNamespace?)
    ensures CleaningInv(Step(s, Call(o)), key)
  {
    var (d, a) := Serve(s.cluster, NextCall(s.worker), o);
    CallSurface(s, key, o);
    ServeSound(s.cluster, NextCall(s.worker), o);
    ResumeCleanup(s.worker, a, d.clock);
    ServeRead(s.cluster, NextCall(s.worker), o);
    MiddleCallNotSettled(s.worker, a, d.clock);
  }

  lemma LookCleans(s: State, key: AppKey, o: Outcome)
    requires CleaningInv(s, key)
    requires s.worker.CheckingRelease? || s.worker.InspectingNamespace? || s.worker.ListingOthers?
    ensures CleaningInv(Step(s, Call(o)), key)
  {
    ReadSurface(s, key, o);
    if s.worker.ListingOthers? {
      OthersLive(s.cluster, key, o);
      ListLeads(s.cluster, s.worker, key, o);
    } else {
      LookLeads(s.cluster, s.worker, key, o);
    }
  }

  lemma LookLeads(c: Cluster, w: Worker, key: AppKey, o: Outcome)
    requires Cleaning(c, w, key) && (w.CheckingRelease? || w.InspectingNamespace?)
    ensures var (d, a) := Serve(c, NextCall(w), o); d == c && Cleaning(c, Resume(w, a, d.clock), key)
  {
  }

  lemma ListLeads(c: Cluster, w: Worker, key: AppKey, o: Outcome)
    requires Cleaning(c, w, key) && w.ListingOthers?
    requires var a := Serve(c, NextCall(w), o).1;
             a.GotApps? ==> ((Others(a.items, w.app.uid) == {}) <==> !LiveOther(c, key))
    ensures var (d, a) := Serve(c, NextCall(w), o); d == c && Cleaning(c, Resume(w, a, d.clock), key)
  {
  }

  lemma MiddleCallNotSettled(w: Worker, a: Response, now: Time)
    requires OnTheWayOut(w) && !w.DroppingFinalizer?
    ensures Resume(w, a, now) != Idle(Settled)
  {
  }

  lemma LastCallCleans(s: State, key: AppKey, o: Outcome)
    requires s.worker.DroppingFinalizer?
    ensures var t := Step(s, Call(o));
            t.worker.Idle? && (t.worker == Idle(Settled) ==> Executes(s.cluster, NextCall(s.worker), o))
  {
  }

  lemma ReadCleans(s: State, key: AppKey, o: Outcome)
    requires CleaningInv(s, key) && s.worker.Reading? && o.staleApp.None?
    ensures CleaningInv(Step(s, Call(o)), key)
  {
  }

  lemma StepCleans(s: State, key: AppKey, e: Event)
    requires CleaningInv(s, key) && Attempt(e, key)
    ensures CleaningInv(Step(s, e), key) && Final(Step(s, e).cluster, key) == Final(s.cluster, key)
  {
    match e
    case Call(o) =>
      if !s.worker.Idle? {
        SameFinal(s, key, o);
        if s.worker.Reading? { ReadCleans(s, key, o); } else { CallCleans(s, key, o); }
      }
    case _ =>
  }

  lemma {:induction false} RunCleans(s: State, key: AppKey, events: seq<Event>)
    requires CleaningInv(s, key) && forall i :: 0 <= i < |events| ==> Attempt(events[i], key)
    ensures CleaningInv(Run(s, events), key) && Final(Run(s, events).cluster, key) == Final(s.cluster, key)
    decreases |events|
  {
    if events != [] {
      StepCleans(s, key, events[0]);
      RunCleans(Step(s, events[0]), key, events[1..]);
    }
  }

  predicate Deletable(s: State, key: AppKey) {
    Sound(s.cluster) && key in s.cluster.apps && s.cluster.apps[key].deleting && s.cluster.apps[key].finalizer &&
    s.worker.Idle? && s.worker.result != Settled
  }

  /** Whenever a pass for it ends well, after any number of interrupted ones, the cleanup is complete. */
  lemma SettledIsFinal(s: State, key: AppKey, events: seq<Event>)
    requires Deletable(s, key) && forall i :: 0 <= i < |events| ==> Attempt(events[i], key)
    requires Run(s, events).worker == Idle(Settled)
    ensures key !in Run(s, events).cluster.apps
    ensures CoreOf(Run(s, events).cluster) == Final(s.cluster, key)
  {
    RunCleans(s, key, events);
  }

  /** A pass that nothing disturbs ends well. */
  lemma {:induction false} QuietPassSettles(s: State, key: AppKey)
    requires CleaningInv(s, key) && (OnTheWayOut(s.worker) || s.worker.Reading?)
    ensures Drive(s, []).0.worker == Idle(Settled)
    decreases Stage(s.worker)
  {
    var t := Step(s, Call(CALM));
    QuietTurn(s);
    StepCleans(s, key, Call(CALM));
    var (d, a) := Serve(s.cluster, NextCall(s.worker), CALM);
    ResumeDescends(s.worker, a, d.clock);
    QuietGoesOn(s, key);
    if !t.worker.Idle? {
      assert Todo(s.worker) == 0;
      QuietPassSettles(t, key);
    }
  }

  lemma QuietTurn(s: State)
    requires !s.worker.Idle?
    ensures Drive(s, []) == Drive(Step(s, Call(CALM)), [])
  {
    TurnDescends(s, QUIET);
    TurnAsStep(s, QUIET);
    assert EnvEvents([]) == [];
    assert Turn(s, QUIET) == Step(s, Call(CALM));
  }

  lemma QuietGoesOn(s: State, key: AppKey)
    requires CleaningInv(s, key) && (OnTheWayOut(s.worker) || s.worker.Reading?)
    ensures var w := Step(s, Call(CALM)).worker; OnTheWayOut(w) || w == Idle(Settled)
  {
    var w := s.worker;
    if w.Reading? { QuietRead(s, key); }
    else if w.Uninstalling? || w.DroppingNamespace? || w.DroppingFinalizer? { QuietRemoval(s); }
    else { QuietLook(s); }
  }

  lemma QuietRead(s: State, key: AppKey)
    requires s.worker == Worker.Reading(key)
    requires key in s.cluster.apps ==> s.cluster.apps[key].deleting && s.cluster.apps[key].finalizer
    ensures var w := Step(s, Call(CALM)).worker; OnTheWayOut(w) || w == Idle(Settled)
  {
  }

  lemma QuietRemoval(s: State)
    requires s.worker.Uninstalling? || s.worker.DroppingNamespace? || s.worker.DroppingFinalizer?
    requires s.worker.Uninstalling? ==> ReleaseOf(s.worker.app) in s.cluster.releases
    requires s.worker.DroppingFinalizer? ==>
               s.worker.app.key in s.cluster.apps && s.cluster.apps[s.worker.app.key] == s.worker.app
    ensures var w := Step(s, Call(CALM)).worker; OnTheWayOut(w) || w == Idle(Settled)
  {
  }

  lemma QuietLook(s: State)
    requires s.worker.CheckingRelease? || s.worker.InspectingNamespace? || s.worker.ListingOthers?
    ensures var w := Step(s, Call(CALM)).worker; OnTheWayOut(w) || w == Idle(Settled)
  {
  }

  /** Crash convergence: interrupted attempts, then an undisturbed one, leave what the undisturbed one alone leaves. */
  lemma DeletionConverges(s: State, key: AppKey, interrupted: seq<Event>)
    requires Deletable(s, key) && forall i :: 0 <= i < |interrupted| ==> Attempt(interrupted[i], key)
    requires Run(s, interrupted).worker.Idle?
    ensures var once := Drive(Step(s, Begin(key)), []).0;
            var after := Drive(Step(Run(s, interrupted), Begin(key)), []).0;
            once.worker == Idle(Settled) && after.worker == Idle(Settled) &&
            CoreOf(after.cluster) == CoreOf(once.cluster) == Final(s.cluster, key)
  {
    RunCleans(s, key, interrupted);
    QuietPassFinal(s, key);
    QuietPassFinal(Run(s, interrupted), key);
  }

  lemma QuietPassFinal(s: State, key: AppKey)
    requires CleaningInv(s, key) && s.worker.Idle?
    ensures var t := Drive(Step(s, Begin(key)), []).0;
            t.worker == Idle(Settled) && CoreOf(t.cluster) == Final(s.cluster, key)
  {
    var u := Step(s, Begin(key));
    StepCleans(s, key, Begin(key));
    QuietPassSettles(u, key);
    QuietDriveCleans(u, key);
  }

  lemma {:induction false} QuietDriveCleans(s: State, key: AppKey)
    requires CleaningInv(s, key)
    ensures CleaningInv(Drive(s, []).0, key) && Final(Drive(s, []).0.cluster, key) == Final(s.cluster, key)
    decreases Stage(s.worker)
  {
    if !s.worker.Idle? {
      QuietTurn(s);
      StepCleans(s, key, Call(CALM));
      var (d, a) := Serve(s.cluster, NextCall(s.worker), CALM);
      ResumeDescends(s.worker, a, d.clock);
      QuietDriveCleans(Step(s, Call(CALM)), key);
    }
  }
}
