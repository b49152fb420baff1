/** What holds of the cluster in every run, whatever fails and however stale the reads: resource versions
    identify stored objects, so a write that the server accepts starts from the object that is stored. */
module Soundness {
  import opened Api
  import opened Server
  import opened Controller
  import opened Machine
  import opened Passes

  /** A copy that was once stored: if it carries the stored version, it is the stored object. */
  predicate Known(c: Cluster, app: App) {
    && app.rv <= c.version
    && app.uid < c.uids
    && (MatchesStored(c, app) ==> c.apps[app.key] == app)
  }

  predicate Sound(c: Cluster) {
    && (forall k :: k in c.apps ==> c.apps[k].key == k && Known(c, c.apps[k]))
    && (forall i :: 0 <= i < |c.archive| ==> Known(c, c.archive[i]))
    && (forall k, l :: k in c.apps && l in c.apps && c.apps[k].uid == c.apps[l].uid ==> k == l)
  }

  /** The copy a pass works on. */
  function Copy(w: Worker): Option<App> {
    if w.Idle? || w.Reading? then None else Some(w.app)
  }

  ghost predicate SoundState(s: State) {
    && Sound(s.cluster)
    && (Copy(s.worker).Some? ==> Known(s.cluster, Copy(s.worker).value))
  }

  ghost predicate Forward(c: Cluster, d: Cluster) {
    && c.version <= d.version && c.uids <= d.uids && c.clock <= d.clock
    && forall a :: Known(c, a) ==> Known(d, a)
  }

  lemma StoreSound(c: Cluster, app: App)
    requires Sound(c) && app.uid < c.uids
    requires forall k :: k in c.apps && c.apps[k].uid == app.uid ==> k == app.key
    ensures Sound(Store(c, app)) && Forward(c, Store(c, app))
  {
    var d := Store(c, app);
    forall a | Known(c, a) ensures Known(d, a) {
    }
    forall i | 0 <= i < |d.archive| ensures Known(d, d.archive[i]) {
      if i < |c.archive| {
        assert d.archive[i] == c.archive[i];
      }
    }
  }

  /** Changes that leave the stored Applications alone, or only remove one, or hand out uids. */
  lemma ShrinkSound(c: Cluster, d: Cluster)
    requires Sound(c)
    requires d.archive == c.archive && d.version == c.version && c.uids <= d.uids && c.clock <= d.clock
    requires forall k :: k in d.apps ==> k in c.apps && d.apps[k] == c.apps[k]
    ensures Sound(d) && Forward(c, d)
  {
    forall a | Known(c, a) ensures Known(d, a) {
    }
    forall i | 0 <= i < |d.archive| ensures Known(d, d.archive[i]) {
      assert Known(c, c.archive[i]);
    }
  }

  lemma ChangeSound(c: Cluster, app: App)
    requires Sound(c) && app.key in c.apps && app.uid == c.apps[app.key].uid
    ensures Sound(Store(c, app)) && Forward(c, Store(c, app))
  {
    assert Known(c, c.apps[app.key]);
    StoreSound(c, app);
  }

  lemma CreateSound(c: Cluster, key: AppKey, spec: Spec)
    requires Sound(c)
    ensures Sound(Environment(c, Create(key, spec))) && Forward(c, Environment(c, Create(key, spec)))
  {
    if key !in c.apps {
      var more := c.(uids := c.uids + 1);
      ShrinkSound(c, more);
      forall k | k in more.apps ensures more.apps[k].uid != c.uids {
        assert Known(c, c.apps[k]);
      }
      StoreSound(more, App(key, c.uids, 0, 1, spec, false, false, EMPTY_STATUS));
    } else {
      ShrinkSound(c, c);
    }
  }

  lemma EditSound(c: Cluster, key: AppKey, spec: Spec)
    requires Sound(c)
    ensures Sound(Environment(c, EditSpec(key, spec))) && Forward(c, Environment(c, EditSpec(key, spec)))
  {
    if key in c.apps && c.apps[key].spec != spec {
      ChangeSound(c, c.apps[key].(spec := spec, generation := c.apps[key].generation + 1));
    } else {
      ShrinkSound(c, c);
    }
  }

  lemma TouchSound(c: Cluster, key: AppKey)
    requires Sound(c)
    ensures Sound(Environment(c, Touch(key))) && Forward(c, Environment(c, Touch(key)))
  {
    if key in c.apps { ChangeSound(c, c.apps[key]); } else { ShrinkSound(c, c); }
  }

  lemma DeleteSound(c: Cluster, key: AppKey)
    requires Sound(c)
    ensures Sound(Environment(c, Delete(key))) && Forward(c, Environment(c, Delete(key)))
  {
    if key in c.apps && !c.apps[key].deleting && c.apps[key].finalizer {
      ChangeSound(c, c.apps[key].(deleting := true, generation := c.apps[key].generation + 1));
    } else {
      ShrinkSound(c, Environment(c, Delete(key)));
    }
  }

  lemma OtherStepSound(c: Cluster, e: EnvStep)
    requires Sound(c) && !e.Create? && !e.EditSpec? && !e.Touch? && !e.Delete?
    ensures Sound(Environment(c, e)) && Forward(c, Environment(c, e))
  {
    ShrinkSound(c, Environment(c, e));
  }

  lemma EnvironmentSound(c: Cluster, e: EnvStep)
    requires Sound(c)
    ensures Sound(Environment(c, e)) && Forward(c, Environment(c, e))
  {
    match e
    case Create(key, spec) => CreateSound(c, key, spec);
    case EditSpec(key, spec) => EditSound(c, key, spec);
    case Touch(key) => TouchSound(c, key);
    case Delete(key) => DeleteSound(c, key);
    case _ => OtherStepSound(c, e);
  }

  lemma EffectSound(c: Cluster, r: Request, o: Outcome)
    requires Sound(c) && Admits(c, r)
    ensures Sound(Effect(c, r, o)) && Forward(c, Effect(c, r, o))
  {
    match r
    case Update(app) =>
      if c.apps[app.key].deleting && !app.finalizer {
        ShrinkSound(c, Remove(c, app.key));
      } else {
        ChangeSound(c, c.apps[app.key].(finalizer := app.finalizer));
      }
    case UpdateStatus(app) =>
      if c.apps[app.key].status == app.status {
        ShrinkSound(c, c);
      } else {
        ChangeSound(c, c.apps[app.key].(status := app.status));
      }
    case _ => ShrinkSound(c, Effect(c, r, o));
  }

  lemma ServeSound(c: Cluster, r: Request, o: Outcome)
    requires Sound(c)
    ensures var (d, a) := Serve(c, r, o);
            Sound(d) && Forward(c, d) && (a.GotApp? ==> Known(d, a.app))
  {
    if Admits(c, r) { EffectSound(c, r, o); }
  }

  /** A pass keeps its copy until a call hands it another. */
  lemma ResumeKeepsCopy(w: Worker, a: Response, now: Time)
    ensures var v := Resume(w, a, now);
            v.Idle? || (Copy(v).Some? && (Copy(v) == Copy(w) || (a.GotApp? && Copy(v) == Some(a.app))))
  {
    if w.Fetching? || w.Polling? { PollConcludes(w, a, now); }
    else if w.ReadingSecret? && a.GotSecret? { AfterSecretShape(w.app, w.ref, a.data, now); }
  }

  lemma StepSound(s: State, e: Event)
    requires SoundState(s)
    ensures SoundState(Step(s, e)) && Forward(s.cluster, Step(s, e).cluster)
  {
    match e
    case Env(step) => EnvironmentSound(s.cluster, step);
    case Call(o) =>
      if !s.worker.Idle? {
        var (after, a) := Serve(s.cluster, NextCall(s.worker), o);
        ServeSound(s.cluster, NextCall(s.worker), o);
        ResumeKeepsCopy(s.worker, a, after.clock);
      }
    case _ =>
  }

  /** This event is a status write that takes effect. */
  predicate Writes(s: State, e: Event) {
    e.Call? && (s.worker.Persisting? || s.worker.WritingAhead?) && Executes(s.cluster, NextCall(s.worker), e.outcome)
  }

  /** Where the status of a stored Application comes from, one event later: it is what it was, or empty on a new
      object, or written by the worker over exactly the object the worker's copy is of. */
  predicate StatusOrigin(s: State, e: Event, k: AppKey)
    requires k in Step(s, e).cluster.apps
  {
    var c, app := s.cluster, Step(s, e).cluster.apps[k];
    if Writes(s, e) && k == s.worker.app.key then
      k in c.apps && c.apps[k] == s.worker.app && app.uid == s.worker.app.uid && app.status == s.worker.status
    else if k in c.apps then
      app.uid == c.apps[k].uid && app.status == c.apps[k].status
    else
      e.Env? && app.uid == c.uids && app.status == EMPTY_STATUS && !app.finalizer && !app.deleting
  }

  /** The Application a user's step is about. */
  predicate About(step: EnvStep, k: AppKey) {
    match step
    case Create(key, _) => key == k
    case EditSpec(key, _) => key == k
    case Touch(key) => key == k
    case Delete(key) => key == k
    case _ => false
  }

  lemma EnvOthers(c: Cluster, step: EnvStep, k: AppKey)
    requires Sound(c) && k in c.apps && !About(step, k)
    ensures k in Environment(c, step).apps && Environment(c, step).apps[k] == c.apps[k]
  {
    match step
    case EditSpec(key, _) => assert key in c.apps ==> c.apps[key].key == key;
    case Touch(key) => assert key in c.apps ==> c.apps[key].key == key;
    case Delete(key) => assert key in c.apps ==> c.apps[key].key == key;
    case _ =>
  }

  lemma EnvStatuses(c: Cluster, e: EnvStep)
    requires Sound(c)
    ensures var d := Environment(c, e);
            forall k :: k in d.apps ==>
              if k in c.apps then d.apps[k].uid == c.apps[k].uid && d.apps[k].status == c.apps[k].status
              else d.apps[k].uid == c.uids && d.apps[k].status == EMPTY_STATUS &&
                   !d.apps[k].finalizer && !d.apps[k].deleting
  {
    forall k | k in Environment(c, e).apps
      ensures var app := Environment(c, e).apps[k];
              if k in c.apps then app.uid == c.apps[k].uid && app.status == c.apps[k].status
              else app.uid == c.uids && app.status == EMPTY_STATUS && !app.finalizer && !app.deleting
    {
      EnvStatus(c, e, k);
    }
  }

  lemma EnvStatus(c: Cluster, e: EnvStep, k: AppKey)
    requires Sound(c) && k in Environment(c, e).apps
    ensures var app := Environment(c, e).apps[k];
            if k in c.apps then app.uid == c.apps[k].uid && app.status == c.apps[k].status
            else app.uid == c.uids && app.status == EMPTY_STATUS && !app.finalizer && !app.deleting
  {
    if k in c.apps {
      assert c.apps[k].key == k;
      if !About(e, k) { EnvOthers(c, e, k); }
    }
  }

  lemma StatusOrigins(s: State, e: Event)
    requires SoundState(s)
    ensures forall k :: k in Step(s, e).cluster.apps ==> StatusOrigin(s, e, k)
  {
    if e.Env? {
      EnvStatuses(s.cluster, e.step);
    } else if e.Call? && !s.worker.Idle? && Executes(s.cluster, NextCall(s.worker), e.outcome) {
      CallStatuses(s, e.outcome);
    } else {
      assert Step(s, e).cluster == s.cluster;
    }
  }

  lemma CallStatuses(s: State, o: Outcome)
    requires SoundState(s) && !s.worker.Idle? && Executes(s.cluster, NextCall(s.worker), o)
    ensures forall k :: k in Step(s, Call(o)).cluster.apps ==> StatusOrigin(s, Call(o), k)
  {
    var r := NextCall(s.worker);
    EffectStatuses(s.cluster, r, o);
    assert Step(s, Call(o)).cluster == Effect(s.cluster, r, o);
    if r.UpdateStatus? {
      assert s.cluster.apps[r.app.key] == s.worker.app;
    }
  }

  lemma EffectKeepsApps(c: Cluster, r: Request, o: Outcome)
    requires Admits(c, r) && !r.Update? && !r.UpdateStatus?
    ensures Effect(c, r, o).apps == c.apps
  {
  }

  lemma EffectStatuses(c: Cluster, r: Request, o: Outcome)
    requires Sound(c) && Admits(c, r)
    ensures var d := Effect(c, r, o);
            forall k :: k in d.apps ==>
              k in c.apps && d.apps[k].uid == c.apps[k].uid &&
              d.apps[k].status == if r.UpdateStatus? && k == r.app.key then r.app.status else c.apps[k].status
  {
    if r.Update? || r.UpdateStatus? { assert c.apps[r.app.key].key == r.app.key; } else { EffectKeepsApps(c, r, o); }
  }

  /** The archive only grows, by a version that is stored now. */
  ghost predicate ArchiveExtends(c: Cluster, d: Cluster) {
    && |c.archive| <= |d.archive| <= |c.archive| + 1
    && d.archive[..|c.archive|] == c.archive
    && forall i :: |c.archive| <= i < |d.archive| ==>
         d.archive[i].key in d.apps && d.apps[d.archive[i].key] == d.archive[i]
  }

  lemma EffectArchive(c: Cluster, r: Request, o: Outcome)
    requires Admits(c, r)
    ensures ArchiveExtends(c, Effect(c, r, o))
  {
  }

  lemma EnvArchiveGrows(c: Cluster, step: EnvStep)
    ensures ArchiveExtends(c, Environment(c, step))
  {
  }

  lemma ArchiveGrows(s: State, e: Event)
    ensures ArchiveExtends(s.cluster, Step(s, e).cluster)
  {
    if e.Env? {
      EnvArchiveGrows(s.cluster, e.step);
    } else if e.Call? && !s.worker.Idle? && Executes(s.cluster, NextCall(s.worker), e.outcome) {
      EffectArchive(s.cluster, NextCall(s.worker), e.outcome);
    }
  }

  /** An Application in a reply is an archived version, or stored when the reply is sent. */
  lemma AnswerOrigin(c: Cluster, r: Request, o: Outcome)
    ensures var (d, a) := Serve(c, r, o);
            a.GotApp? ==>
              (r.ReadApp? && exists i :: 0 <= i < |d.archive| && d.archive[i] == a.app) ||
              (exists k :: k in d.apps && d.apps[k] == a.app)
  {
    var (d, a) := Serve(c, r, o);
    if a.GotApp? {
      if r.ReadApp? && o.staleApp.Some? {
        assert d.archive[o.staleApp.value] == a.app;
      } else {
        var k := if r.ReadApp? then r.key else r.app.key;
        assert k in d.apps && d.apps[k] == a.app;
      }
    }
  }
}
