/** Where every revision comes from: in every run, chart, repository and version are those of a stored spec, the values
    are an entry the named Secret held under the named key, and the release has the Application's name. */
module Provenance {
  import opened Api
  import opened Server
  import opened Controller
  import opened Machine
  import opened Passes
  import opened Soundness
  import opened Budget
  import opened Lifecycle
  import opened Mirror

  // ---------- what was held when ----------

  /** At some moment of the run the Secret had this text under this key. */
  ghost predicate HeldOnce(s: State, events: seq<Event>, secret: SecretKey, key: string, text: string) {
    exists j: nat :: j <= |events| && Holds(Run(s, events[..j]).cluster, secret, key, text)
  }

  predicate Holds(c: Cluster, secret: SecretKey, key: string, text: string) {
    secret in c.secrets && key in c.secrets[secret] && c.secrets[secret][key] == Values(text)
  }

  /** These values are what the spec asks for: none without a reference, and otherwise the text of the named key, or of
      values.yaml if no key is named, of the named Secret in the Application's own namespace. */
  ghost predicate AskedFor(s: State, events: seq<Event>, app: App, values: Option<string>) {
    match app.spec.valuesRef
    case None => values == None
    case Some(ref) =>
      values.Some? && HeldOnce(s, events, SecretKey(app.key.namespace, ref.name),
                               if ref.key != "" then ref.key else "values.yaml", values.value)
  }

  ghost predicate FromSpec(s: State, events: seq<Event>, app: App, source: Source) {
    && source.chart == app.spec.chart && source.repo == app.spec.repo && source.version == app.spec.version
    && AskedFor(s, events, app, source.values)
  }

  /** The revision was rendered from a version of an Application of the release's name that deploys to its namespace. */
  ghost predicate Sourced(s: State, events: seq<Event>, c: Cluster, rk: ReleaseKey, source: Source) {
    exists i :: 0 <= i < |c.archive| &&
                c.archive[i].key.name == rk.name && c.archive[i].spec.namespace == rk.namespace &&
                FromSpec(s, events, c.archive[i], source)
  }

  lemma HeldLater(s: State, events: seq<Event>, e: Event, secret: SecretKey, key: string, text: string)
    requires HeldOnce(s, events, secret, key, text)
    ensures HeldOnce(s, events + [e], secret, key, text)
  {
    var j: nat :| j <= |events| && Holds(Run(s, events[..j]).cluster, secret, key, text);
    assert (events + [e])[..j] == events[..j];
  }

  lemma HeldNow(s: State, events: seq<Event>, secret: SecretKey, key: string, text: string)
    requires Holds(Run(s, events).cluster, secret, key, text)
    ensures HeldOnce(s, events, secret, key, text)
  {
    assert events[..|events|] == events;
  }

  lemma AskedLater(s: State, events: seq<Event>, e: Event, app: App, values: Option<string>)
    requires AskedFor(s, events, app, values)
    ensures AskedFor(s, events + [e], app, values)
  {
    if app.spec.valuesRef.Some? {
      var ref := app.spec.valuesRef.value;
      HeldLater(s, events, e, SecretKey(app.key.namespace, ref.name),
                if ref.key != "" then ref.key else "values.yaml", values.value);
    }
  }

  lemma SourcedLater(s: State, events: seq<Event>, e: Event, c: Cluster, d: Cluster, rk: ReleaseKey, source: Source)
    requires Sourced(s, events, c, rk, source) && ArchiveExtends(c, d)
    ensures Sourced(s, events + [e], d, rk, source)
  {
    var i :| 0 <= i < |c.archive| && c.archive[i].key.name == rk.name && c.archive[i].spec.namespace == rk.namespace &&
             FromSpec(s, events, c.archive[i], source);
    assert d.archive[i] == d.archive[..|c.archive|][i];
    AskedLater(s, events, e, c.archive[i], source.values);
  }

  // ---------- what a pass has in hand ----------

  /** The values a pass carries from their resolution to the apply. */
  function Carried(w: Worker): Option<Option<string>> {
    match w
    case FindingNamespace(_, values) => Some(values)
    case CreatingNamespace(_, values) => Some(values)
    case LoadingChart(_, values) => Some(values)
    case CheckingHistory(_, values) => Some(values)
    case Applying(_, values, _) => Some(values)
    case _ => None
  }

  /** The copies a run can meet are archived versions. */
  ghost predicate AllArchived(s: State) {
    && (forall k :: k in s.cluster.apps ==> Archived(s.cluster, s.cluster.apps[k]))
    && (Copy(s.worker).Some? ==> Archived(s.cluster, s.worker.app))
  }

  ghost predicate SourcedInv(s: State, events: seq<Event>, t: State) {
    && SoundState(t) && AllArchived(t) && RightSecret(t.worker)
    && (Carried(t.worker).Some? ==> AskedFor(s, events, t.worker.app, Carried(t.worker).value))
    && forall rk :: rk in t.cluster.releases ==> AllSourced(s, events, t.cluster, rk)
  }

  ghost predicate AllSourced(s: State, events: seq<Event>, c: Cluster, rk: ReleaseKey)
    requires rk in c.releases
  {
    forall i :: 0 <= i < |c.releases[rk]| ==> Sourced(s, events, c, rk, c.releases[rk][i].source)
  }

  /** Where the values in hand come from: nowhere, if the spec names none; from the read of the Secret; or from
      before. */
  predicate CarriesFrom(w: Worker, a: Response, v: Worker) {
    Carried(v).Some? ==>
      || (Carried(v) == Carried(w) && v.app == w.app)
      || (w.Reading? && v.app.spec.valuesRef.None? && Carried(v).value == None)
      || (w.ReadingSecret? && a.GotSecret? && v.app == w.app && Carried(v).value.Some? &&
          var key := if w.ref.key != "" then w.ref.key else "values.yaml";
          key in a.data && a.data[key] == Values(Carried(v).value.value))
  }

  lemma SecretCarries(app: App, ref: SecretRef, data: Secret, now: Time)
    ensures var v := AfterSecret(app, ref, data, now);
            Carried(v).Some? ==>
              v.app == app && Carried(v).value.Some? &&
              var key := if ref.key != "" then ref.key else "values.yaml";
              key in data && data[key] == Values(Carried(v).value.value)
  {
  }

  lemma ResumeCarries(w: Worker, a: Response, now: Time)
    requires !w.Idle?
    ensures CarriesFrom(w, a, Resume(w, a, now))
  {
    if w.Fetching? || w.Polling? { PollConcludes(w, a, now); }
    else if w.ReadingSecret? && a.GotSecret? { SecretCarries(w.app, w.ref, a.data, now); }
  }

  lemma SecretRead(c: Cluster, w: Worker, o: Outcome)
    requires w.ReadingSecret? && o.staleSecret.None?
    ensures var a := Serve(c, NextCall(w), o).1;
            a.GotSecret? ==>
              SecretKey(w.app.key.namespace, w.ref.name) in c.secrets &&
              a.data == c.secrets[SecretKey(w.app.key.namespace, w.ref.name)]
  {
  }

  // ---------- steps ----------

  lemma StepArchived(t: State, e: Event)
    requires SoundState(t) && AllArchived(t)
    ensures AllArchived(Step(t, e))
  {
    StoredArchived(t, e);
    ArchiveGrows(t, e);
    if e.Call? && !t.worker.Idle? { CopyArchived(t, e.outcome); }
    else if Copy(t.worker).Some? { ArchivedLater(t.cluster, Step(t, e).cluster, t.worker.app); }
  }

  lemma StepRightSecret(t: State, e: Event)
    requires RightSecret(t.worker)
    ensures RightSecret(Step(t, e).worker)
  {
    if e.Call? && !t.worker.Idle? {
      var (d, a) := Serve(t.cluster, NextCall(t.worker), e.outcome);
      ResumeRightSecret(t.worker, a, d.clock);
    }
  }

  lemma CallCarries(s: State, events: seq<Event>, t: State, o: Outcome)
    requires t == Run(s, events) && SourcedInv(s, events, t) && !t.worker.Idle? && o.staleSecret.None?
    ensures var v := Step(t, Call(o)).worker; Carried(v).Some? ==> AskedFor(s, events, v.app, Carried(v).value)
  {
    var w, v := t.worker, Step(t, Call(o)).worker;
    var (d, a) := Serve(t.cluster, NextCall(w), o);
    ResumeCarries(w, a, d.clock);
    if w.ReadingSecret? {
      SecretRead(t.cluster, w, o);
      if Carried(v).Some? {
        HeldNow(s, events, SecretKey(w.app.key.namespace, w.ref.name),
                if w.ref.key != "" then w.ref.key else "values.yaml", Carried(v).value.value);
      }
    }
  }

  lemma StepCarries(s: State, events: seq<Event>, t: State, e: Event)
    requires t == Run(s, events) && SourcedInv(s, events, t) && FreshSecrets(e)
    ensures var v := Step(t, e).worker; Carried(v).Some? ==> AskedFor(s, events + [e], v.app, Carried(v).value)
  {
    var v := Step(t, e).worker;
    if e.Call? && !t.worker.Idle? { CallCarries(s, events, t, e.outcome); }
    if Carried(v).Some? { AskedLater(s, events, e, v.app, Carried(v).value); }
  }

  /** A revision was there before, or repeats one that was, or has just been applied. */
  lemma RevisionOrigin(t: State, e: Event, rk: ReleaseKey, i: nat) returns (j: int)
    requires rk in Step(t, e).cluster.releases && i < |Step(t, e).cluster.releases[rk]|
    ensures var source := Step(t, e).cluster.releases[rk][i].source;
            if 0 <= j then
              rk in t.cluster.releases && j < |t.cluster.releases[rk]| && t.cluster.releases[rk][j].source == source
            else
              t.worker.Applying? && rk == ReleaseKey(t.worker.app.spec.namespace, t.worker.app.key.name) &&
              var spec := t.worker.app.spec;
              source == Source(spec.chart, spec.repo, spec.version, t.worker.values)
  {
    j := -1;
    if !(e.Call? && !t.worker.Idle? && Executes(t.cluster, NextCall(t.worker), e.outcome)) {
      EnvReleases(t, e);
      j := i;
    } else {
      j := EffectOrigin(t.cluster, t.worker, e.outcome, rk, i);
    }
  }

  lemma EnvReleases(t: State, e: Event)
    requires !(e.Call? && !t.worker.Idle? && Executes(t.cluster, NextCall(t.worker), e.outcome))
    ensures Step(t, e).cluster.releases == t.cluster.releases
  {
  }

  lemma EffectOrigin(c: Cluster, w: Worker, o: Outcome, rk: ReleaseKey, i: nat) returns (j: int)
    requires !w.Idle? && Admits(c, NextCall(w))
    requires var d := Effect(c, NextCall(w), o); rk in d.releases && i < |d.releases[rk]|
    ensures var source := Effect(c, NextCall(w), o).releases[rk][i].source;
            if 0 <= j then
              rk in c.releases && j < |c.releases[rk]| && c.releases[rk][j].source == source
            else
              w.Applying? && rk == ReleaseKey(w.app.spec.namespace, w.app.key.name) &&
              source == Source(w.app.spec.chart, w.app.spec.repo, w.app.spec.version, w.values)
  {
    var r := NextCall(w);
    if r.HelmInstall? || r.HelmUpgrade? { j := ApplyOrigin(c, w, o, rk, i); }
    else if r.HelmRollback? { j := if rk in c.releases && i < |c.releases[rk]| then i else |c.releases[rk]| - 2; }
    else {
      OtherOrigin(c, r, o, rk);
      j := i;
    }
  }

  lemma ApplyOrigin(c: Cluster, w: Worker, o: Outcome, rk: ReleaseKey, i: nat) returns (j: int)
    requires Admits(c, NextCall(w)) && (NextCall(w).HelmInstall? || NextCall(w).HelmUpgrade?)
    requires var d := Effect(c, NextCall(w), o); rk in d.releases && i < |d.releases[rk]|
    ensures var source := Effect(c, NextCall(w), o).releases[rk][i].source;
            if 0 <= j then
              rk in c.releases && j < |c.releases[rk]| && c.releases[rk][j].source == source
            else
              w.Applying? && rk == ReleaseKey(w.app.spec.namespace, w.app.key.name) &&
              source == Source(w.app.spec.chart, w.app.spec.repo, w.app.spec.version, w.values)
  {
    assert w.Applying?;
    j := if rk in c.releases && i < |c.releases[rk]| then i else -1;
  }

  lemma OtherOrigin(c: Cluster, r: Request, o: Outcome, rk: ReleaseKey)
    requires Admits(c, r) && !r.HelmInstall? && !r.HelmUpgrade? && !r.HelmRollback?
    ensures var d := Effect(c, r, o); rk in d.releases ==> rk in c.releases && d.releases[rk] == c.releases[rk]
  {
  }

  lemma StepSources(s: State, events: seq<Event>, t: State, e: Event, rk: ReleaseKey, i: nat)
    requires t == Run(s, events) && SourcedInv(s, events, t)
    requires rk in Step(t, e).cluster.releases && i < |Step(t, e).cluster.releases[rk]|
    ensures var d := Step(t, e).cluster; Sourced(s, events + [e], d, rk, d.releases[rk][i].source)
  {
    var d := Step(t, e).cluster;
    var source := d.releases[rk][i].source;
    var j := RevisionOrigin(t, e, rk, i);
    if 0 <= j {
      assert AllSourced(s, events, t.cluster, rk);
      assert Sourced(s, events, t.cluster, rk, t.cluster.releases[rk][j].source);
    } else {
      var n :| 0 <= n < |t.cluster.archive| && t.cluster.archive[n] == t.worker.app;
      assert FromSpec(s, events, t.cluster.archive[n], source);
      assert Sourced(s, events, t.cluster, rk, source);
    }
    ArchiveGrows(t, e);
    SourcedLater(s, events, e, t.cluster, d, rk, source);
  }

  lemma StepSourced(s: State, events: seq<Event>, t: State, e: Event)
    requires t == Run(s, events) && SourcedInv(s, events, t) && FreshSecrets(e)
    ensures SourcedInv(s, events + [e], Step(t, e))
  {
    StepSound(t, e);
    StepArchived(t, e);
    StepRightSecret(t, e);
    StepCarries(s, events, t, e);
    var d := Step(t, e).cluster;
    forall rk | rk in d.releases ensures AllSourced(s, events + [e], d, rk) {
      forall i | 0 <= i < |d.releases[rk]| ensures Sourced(s, events + [e], d, rk, d.releases[rk][i].source) {
        StepSources(s, events, t, e, rk, i);
      }
    }
  }

  lemma {:induction false} RunSourced(s: State, events: seq<Event>)
    requires Initial(s) && forall i :: 0 <= i < |events| ==> FreshSecrets(events[i])
    ensures SourcedInv(s, events, Run(s, events))
    decreases |events|
  {
    if events != [] {
      var n := |events| - 1;
      assert events == events[..n] + [events[n]];
      RunSourced(s, events[..n]);
      RunAppend(s, events[..n], [events[n]]);
      assert [events[n]][1..] == [];
      StepSourced(s, events[..n], Run(s, events[..n]), events[n]);
    }
  }

  /** Whatever fails and however stale the reads of Applications, with fresh reads of Secrets: each revision of each
      release was rendered from the chart, repository and version that a version of an Application of that name names,
      with values which the Secret it names once held under the key it names. */
  lemma EveryRevisionIsAskedFor(s: State, events: seq<Event>, rk: ReleaseKey, i: nat)
    requires Initial(s) && forall i :: 0 <= i < |events| ==> FreshSecrets(events[i])
    requires rk in Run(s, events).cluster.releases && i < |Run(s, events).cluster.releases[rk]|
    ensures var c := Run(s, events).cluster; Sourced(s, events, c, rk, c.releases[rk][i].source)
  {
    RunSourced(s, events);
    assert AllSourced(s, events, Run(s, events).cluster, rk);
  }

  // ---------- what is asked of Helm ----------

  /** The chart that is loaded and the release that is installed or upgraded are those of the pass's own copy of the
      spec, with the values it has resolved. */
  lemma HelmIsAskedForTheSpec(s: State, events: seq<Event>)
    requires Initial(s) && forall i :: 0 <= i < |events| ==> FreshSecrets(events[i])
    requires var r := NextCall(Run(s, events).worker); r.LoadChart? || r.HelmInstall? || r.HelmUpgrade?
    ensures var t := Run(s, events);
            var r, app := NextCall(t.worker), t.worker.app;
            && Archived(t.cluster, app) && FromSpec(s, events, app, r.source)
            && (r.HelmInstall? || r.HelmUpgrade? ==> r.release == ReleaseKey(app.spec.namespace, app.key.name))
  {
    RunSourced(s, events);
  }

  // ---------- what the status stands for ----------

  /** The source is that of the spec at the observed generation, field by field, with values of the recorded hash. */
  ghost predicate StandsFor(c: Cluster, app: App, source: Source) {
    && app.status.valuesHash == (match source.values case None => NoHash case Some(text) => HashOf(text))
    && exists i :: 0 <= i < |c.archive| && c.archive[i].uid == app.uid &&
                   c.archive[i].generation == app.status.observed &&
                   source.chart == c.archive[i].spec.chart && source.repo == c.archive[i].spec.repo &&
                   source.version == c.archive[i].spec.version
  }

  /** In orderly runs, with the last apply on record and no revision marked failed, the release of the Application's
      name in its target namespace runs chart, repository and version of the observed generation with the recorded
      values. */
  lemma StatusStandsForSpec(s: State, events: seq<Event>, k: AppKey)
    requires Initial(s) && OrderlyRun(s, events)
    requires var t := Run(s, events);
             k in t.cluster.apps && !t.cluster.apps[k].deleting && Recorded(t.log, t.cluster.apps[k].uid) &&
             t.cluster.apps[k].status.lastFailed == 0
    ensures var c := Run(s, events).cluster;
            var app, rk := c.apps[k], ReleaseKey(c.apps[k].spec.namespace, c.apps[k].key.name);
            rk in c.releases && |c.releases[rk]| == app.status.revision &&
            StandsFor(c, app, c.releases[rk][app.status.revision - 1].source)
  {
    StatusMirrorsHelm(s, events, k);
    var c := Run(s, events).cluster;
    RenderedFields(c, c.apps[k], Latest(c.releases[ReleaseOf(c.apps[k])]).source);
  }

  lemma RenderedFields(c: Cluster, app: App, source: Source)
    requires RenderedFrom(c, app.uid, app.status, source)
    ensures StandsFor(c, app, source)
  {
    var i :| 0 <= i < |c.archive| && c.archive[i].uid == app.uid && c.archive[i].generation == app.status.observed &&
             source == SourceOf(c.archive[i].spec, source.values);
    assert source.chart == c.archive[i].spec.chart;
  }
}
