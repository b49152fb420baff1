/** What an undisturbed pass comes to, case by case and field by field: result, status and release. */
module Outcomes {
  import opened Api
  import opened Server
  import opened Health
  import opened Controller
  import opened Passes
  import opened Soundness
  import opened Budget
  import opened Statuses
  import opened Steady
  import opened Quiescence

  // ---------- values and the apply ----------

  /** The values the spec asks for, if they can be had: none without a reference, and otherwise the text of the named
      key of the named Secret in the Application's namespace; of values.yaml if no key is named. */
  function Resolved(c: Cluster, app: App): Option<Option<string>> {
    match app.spec.valuesRef
    case None => Some(None)
    case Some(ref) =>
      var secret, key := SecretKey(app.key.namespace, ref.name), if ref.key != "" then ref.key else "values.yaml";
      if secret in c.secrets && key in c.secrets[secret] && c.secrets[secret][key].Values? then
        Some(Some(c.secrets[secret][key].text))
      else None
  }

  function Digest(values: Option<string>): Hash {
    match values case None => NoHash case Some(text) => HashOf(text)
  }

  lemma ResolvedHash(c: Cluster, app: App)
    ensures CurrentHash(c, app) ==
            match Resolved(c, app) case None => None case Some(values) => Some(Digest(values))
  {
  }

  /** The Application's stored release history; empty if there is none. */
  function HistoryOf(c: Cluster, rk: ReleaseKey): seq<Revision> {
    if rk in c.releases then c.releases[rk] else []
  }

  /** A values failure on record. */
  predicate FailedOnValues(s: Status, before: Status, generation: nat) {
    && s.phase == Phase.Failed && SameBooks(before, s)
    && Says(s, Released, false, "ValuesError", generation) && Says(s, Ready, false, "ValuesError", generation)
  }

  /** A fresh apply on record. */
  predicate AppliedOnRecord(s: Status, app: App, hash: Hash, revision: nat, now: Time) {
    && s.releaseName == app.key.name && s.revision == revision
    && s.observed == app.generation && s.valuesHash == hash
    && s.started == Some(now) && s.lastFailed == 0
    && s.phase == Phase.Deploying
    && Says(s, Released, true, "ReleaseApplied", app.generation)
    && Says(s, Ready, false, "Progressing", app.generation)
  }

  /** One more revision of the release, from the spec's chart, repository and version and these values. */
  ghost predicate AppliedInHelm(c: Cluster, d: Cluster, app: App, values: Option<string>, nature: Nature) {
    var rk := ReleaseKey(app.spec.namespace, app.key.name);
    var source := Source(app.spec.chart, app.spec.repo, app.spec.version, values);
    && d.releases.Keys == c.releases.Keys + {rk}
    && d.releases[rk] == HistoryOf(c, rk) + [Revision(source, nature.render(source))]
    && (forall k :: k in c.releases && k != rk ==> d.releases[k] == c.releases[k])
    && app.spec.namespace in d.namespaces
    && (app.spec.namespace !in c.namespaces ==> d.namespaces[app.spec.namespace])
  }

  /** The first half of a pass over a live Application with its finalizer. Values that cannot be had fail it; new ones,
      or a new spec, are applied; otherwise it goes on to the health of the release. */
  lemma ValuesPass(c: Cluster, key: AppKey, nature: Nature)
    requires Sound(c) && key in c.apps && c.apps[key].finalizer && !c.apps[key].deleting
    ensures var app, q := c.apps[key], Quiet(c, Worker.Reading(key), nature);
            match Resolved(c, app)
            case None =>
              q.1 == Idle(Errored) && key in q.0.apps &&
              FailedOnValues(q.0.apps[key].status, app.status, app.generation) &&
              q.0.releases == c.releases
            case Some(values) =>
              if app.status.observed == app.generation && app.status.valuesHash == Digest(values) then
                q == Quiet(c, Fetching(app, Digest(values)), nature)
              else
                q.1 == Idle(RequeueAfter(30)) && AppliedInHelm(c, q.0, app, values, nature) && key in q.0.apps &&
                AppliedOnRecord(q.0.apps[key].status, app, Digest(values),
                                |HistoryOf(c, ReleaseKey(app.spec.namespace, app.key.name))| + 1, c.clock)
  {
    var app := c.apps[key];
    ReadOnce(c, key, nature);
    ResolvedHash(c, app);
    if Resolved(c, app).None? {
      ValuesFail(c, key, app, nature);
    } else {
      var values := ValuesOnce(c, app, nature);
      assert Digest(values) == HashValues(values);
      ResolvedOnce(c, app, values);
      if NeedsApply(app, HashValues(values)) { ApplyEnds(c, key, app, values, nature); }
    }
  }

  lemma ResolvedOnce(c: Cluster, app: App, values: Option<string>)
    requires CurrentHash(c, app) == Some(HashValues(values))
    ensures Resolved(c, app) == Some(values)
  {
  }

  lemma ValuesFail(c: Cluster, key: AppKey, app: App, nature: Nature)
    requires Holds(c, key, app) && app.finalizer && CurrentHash(c, app).None?
    ensures var q := Quiet(c, AfterRead(app), nature);
            q.1 == Idle(Errored) && key in q.0.apps &&
            FailedOnValues(q.0.apps[key].status, app.status, app.generation) &&
            q.0.releases == c.releases
  {
    SecretOnce(c, app, nature);
    var ref := app.spec.valuesRef.value;
    var secret := SecretKey(app.key.namespace, ref.name);
    var cause :=
      if secret !in c.secrets then Because("get values secret", ref.name, NotFound)
      else if DataKey(ref) !in c.secrets[secret] then
        Because("values secret has no key", ref.name, NoSuchKey(DataKey(ref)))
      else Because("parse values", "", Unparsable(c.secrets[secret][DataKey(ref)].text));
    var s := FailedStatus(app, "ValuesError", cause, c.clock);
    QuietPersist(c, key, app, s, Broke, Errored, nature);
    PutFrozen(c, key, app, s);
  }

  /** The cluster after an undisturbed install or upgrade. */
  function AfterHelm(c: Cluster, app: App, values: Option<string>, nature: Nature): Cluster {
    var source := SourceOf(app.spec, values);
    WithRevision(Ensured(c, app.spec.namespace), ReleaseOf(app), Revision(source, nature.render(source)))
  }

  lemma ApplyPath(c: Cluster, key: AppKey, app: App, values: Option<string>, nature: Nature)
    requires Holds(c, key, app)
    ensures var f := AfterHelm(c, app, values, nature);
            ReleaseOf(app) in f.releases &&
            Quiet(c, FindingNamespace(app, values), nature) ==
            (Put(f, app, AppliedStatus(app, values, |f.releases[ReleaseOf(app)]|, c.clock)),
             Idle(RequeueAfter(HEALTH_POLL)))
  {
    NamespacePath(c, app, values, nature);
    HelmPath(Ensured(c, app.spec.namespace), app, values, nature);
    var f := AfterHelm(c, app, values, nature);
    QuietPersist(f, key, app, AppliedStatus(app, values, |f.releases[ReleaseOf(app)]|, c.clock),
                 Applied(SourceOf(app.spec, values)), RequeueAfter(HEALTH_POLL), nature);
  }

  lemma ApplyEnds(c: Cluster, key: AppKey, app: App, values: Option<string>, nature: Nature)
    requires Holds(c, key, app)
    ensures var q := Quiet(c, FindingNamespace(app, values), nature);
            q.1 == Idle(RequeueAfter(30)) && AppliedInHelm(c, q.0, app, values, nature) && key in q.0.apps &&
            AppliedOnRecord(q.0.apps[key].status, app, HashValues(values),
                            |HistoryOf(c, ReleaseKey(app.spec.namespace, app.key.name))| + 1, c.clock)
  {
    ApplyPath(c, key, app, values, nature);
    var f := AfterHelm(c, app, values, nature);
    var revision := |f.releases[ReleaseOf(app)]|;
    var s := AppliedStatus(app, values, revision, c.clock);
    AppliedShows(app, values, revision, c.clock);
    PutFrozen(f, key, app, s);
    PutHelm(f, app, s);
    HelmShows(c, Put(f, app, s), app, values, nature);
  }

  lemma PutHelm(c: Cluster, app: App, s: Status)
    ensures Put(c, app, s).releases == c.releases && Put(c, app, s).namespaces == c.namespaces
  {
  }

  lemma AppliedShows(app: App, values: Option<string>, revision: nat, now: Time)
    ensures AppliedOnRecord(AppliedStatus(app, values, revision, now), app, HashValues(values), revision, now)
  {
  }

  lemma HelmShows(c: Cluster, d: Cluster, app: App, values: Option<string>, nature: Nature)
    requires var f := AfterHelm(c, app, values, nature); d.releases == f.releases && d.namespaces == f.namespaces
    ensures AppliedInHelm(c, d, app, values, nature)
    ensures |AfterHelm(c, app, values, nature).releases[ReleaseOf(app)]| == |HistoryOf(c, ReleaseOf(app))| + 1
  {
  }

  // ---------- health ----------

  /** Failed, or not healthy with the deadline over. */
  predicate Ailing(app: App, grade: Grade, now: Time) {
    grade == Failing ||
    (grade != Current && app.status.started.Some? && app.status.started.value + app.spec.deadline < now)
  }

  /** A Degraded status for this reason, the books otherwise as they were but for the two revisions. */
  predicate DegradedFor(s: Status, before: Status, generation: nat, reason: string, revision: nat, lastFailed: nat) {
    && s.phase == Phase.Degraded && s.revision == revision && s.lastFailed == lastFailed
    && Says(s, Healthy, false, reason, generation) && Says(s, Ready, false, "Degraded", generation)
    && s.conditions[Ready].message == s.conditions[Healthy].message
    && s.observed == before.observed && s.valuesHash == before.valuesHash && s.started == before.started
    && s.releaseName == before.releaseName
  }

  /** The second half of a pass, in its seven cases: what becomes of the release, of the status, and when the pass wants
      to look again. */
  ghost predicate HealthDone(c: Cluster, app: App, a: Assessment, d: Cluster, now: App, result: Result) {
    var before, s, g := app.status, now.status, app.generation;
    var rk := ReleaseKey(app.spec.namespace, app.key.name);
    var h := HistoryOf(c, rk);
    var ailment := if a.grade == Failing then "WorkloadFailed" else "ProgressDeadlineExceeded";
    var detail := if a.grade == Failing then a.detail else NotReadyWithin(app.spec.deadline);
    if Ailing(app, a.grade, c.clock) then
      if before.lastFailed != 0 then
        result == RequeueAfter(300) && d.releases == c.releases &&
        DegradedFor(s, before, g, ailment, before.revision, before.lastFailed) &&
        s.conditions[Healthy].message == WithNote(detail, " (already rolled back; awaiting a spec fix)")
      else if before.revision <= 1 then
        result == RequeueAfter(30) && d.releases == c.releases &&
        DegradedFor(s, before, g, ailment, before.revision, 0) &&
        s.conditions[Healthy].message == WithNote(detail, " (no previous revision to roll back to)")
      else if 2 <= |h| then
        result == RequeueAfter(300) && d.releases == c.releases[rk := h + [h[|h| - 2]]] &&
        DegradedFor(s, before, g, "RolledBack", |h| + 1, before.revision) &&
        s.conditions[Healthy].message == FailedRevision(before.revision)
      else
        result == RequeueAfter(30) && d.releases == c.releases &&
        DegradedFor(s, before, g, "RollbackFailed", before.revision, before.revision)
    else
      && d.releases == c.releases && SameBooks(before, s)
      && (if a.grade != Current then
            result == RequeueAfter(30) && s.phase == Phase.Deploying &&
            Says(s, Healthy, false, "Progressing", g) && Says(s, Ready, false, "Progressing", g) &&
            s.conditions[Healthy].message == s.conditions[Ready].message == a.detail
          else if before.lastFailed == 0 then
            result == RequeueAfter(300) && s.phase == Phase.Deployed &&
            Says(s, Healthy, true, "AllWorkloadsCurrent", g) && Says(s, Ready, true, "Deployed", g) &&
            s.conditions[Healthy].message == a.detail
          else result == RequeueAfter(300) && s == before)
  }

  lemma HandedOn(c: Cluster, key: AppKey, app: App, s: Status, cause: Cause, r: Result, nature: Nature)
    requires Holds(c, key, app)
    ensures Quiet(c, WriteUnlessSame(app, s, cause, r), nature) == (Put(c, app, s), Idle(r))
  {
    if s != app.status { QuietPersist(c, key, app, s, cause, r, nature); }
  }

  /** An undisturbed SetDegraded ends with that status stored, unless nothing but the revision was to change. */
  lemma DegradingEnds(c: Cluster, key: AppKey, app: App, local: Status, reason: string, m: Text, seconds: nat,
                      nature: Nature)
    requires Holds(c, key, app) && (local == app.status || local.phase != Phase.Degraded)
    ensures Quiet(c, SetDegraded(app, local, reason, m, seconds, c.clock), nature) ==
            (Put(c, app, DegradedStatus(local, app.generation, reason, m, c.clock)), Idle(RequeueAfter(seconds)))
  {
    var w := SetDegraded(app, local, reason, m, seconds, c.clock);
    if w.Persisting? { QuietPersist(c, key, app, w.status, w.cause, w.result, nature); }
  }

  lemma DegradedShows(s: Status, generation: nat, reason: string, m: Text, now: Time)
    ensures var t := DegradedStatus(s, generation, reason, m, now);
            DegradedFor(t, s, generation, reason, s.revision, s.lastFailed) && t.conditions[Healthy].message == m
  {
  }

  /** What a pass leaves as it is. */
  predicate StillApplied(c: Cluster, d: Cluster, key: AppKey, app: App) {
    && Frozen(c, d, key, app)
    && d.apps[key].status.observed == app.status.observed && d.apps[key].status.valuesHash == app.status.valuesHash
    && d.apps[key].status.started == app.status.started
  }

  ghost predicate PassDone(c: Cluster, key: AppKey, app: App, a: Assessment, q: (Cluster, Worker)) {
    q.1.Idle? && StillApplied(c, q.0, key, app) && HealthDone(c, app, a, q.0, q.0.apps[key], q.1.result)
  }

  lemma TerminalDone(c: Cluster, key: AppKey, app: App, a: Assessment, nature: Nature)
    requires Holds(c, key, app) && Unhealthy(app, a.grade, c.clock)
    requires app.status.lastFailed != 0 || app.status.revision <= 1
    ensures PassDone(c, key, app, a, Quiet(c, HandleUnhealthy(app, a, c.clock), nature))
  {
    var reason := UnhealthyReason(a.grade);
    var note := if app.status.lastFailed != 0 then " (already rolled back; awaiting a spec fix)"
                else " (no previous revision to roll back to)";
    var seconds := if app.status.lastFailed != 0 then STEADY_POLL else HEALTH_POLL;
    var m := WithNote(UnhealthyDetail(app, a), note);
    var s := DegradedStatus(app.status, app.generation, reason, m, c.clock);
    DegradingEnds(c, key, app, app.status, reason, m, seconds, nature);
    DegradedShows(app.status, app.generation, reason, m, c.clock);
    PutFrozen(c, key, app, s);
  }

  lemma RollbackDone(c: Cluster, key: AppKey, app: App, a: Assessment, nature: Nature)
    requires Holds(c, key, app) && Unhealthy(app, a.grade, c.clock)
    requires app.status.lastFailed == 0 && 1 < app.status.revision
    ensures PassDone(c, key, app, a, Quiet(c, HandleUnhealthy(app, a, c.clock), nature))
  {
    var s := MarkedStatus(app, UnhealthyReason(a.grade), UnhealthyDetail(app, a), c.clock);
    MarkerPath(c, key, app, s, nature);
    var d := Store(c, app.(status := s));
    MarkedDone(d, key, d.apps[key], nature);
    FromMarker(c, key, app, a, d, Quiet(d, Worker.RollingBack(d.apps[key]), nature));
  }

  /** What holds from the marker on holds from before the marker. */
  lemma FromMarker(c: Cluster, key: AppKey, app: App, a: Assessment, d: Cluster, q: (Cluster, Worker))
    requires Holds(c, key, app) && Unhealthy(app, a.grade, c.clock)
    requires app.status.lastFailed == 0 && 1 < app.status.revision
    requires var s := MarkedStatus(app, UnhealthyReason(a.grade), UnhealthyDetail(app, a), c.clock);
             d == Store(c, app.(status := s))
    requires RolledDone(d, key, d.apps[key], q)
    ensures PassDone(c, key, app, a, q)
  {
  }

  /** What an undisturbed pass comes to from the rollback on. */
  ghost predicate RolledDone(c: Cluster, key: AppKey, app: App, q: (Cluster, Worker)) {
    var h := HistoryOf(c, ReleaseOf(app));
    StillApplied(c, q.0, key, app) &&
    if 2 <= |h| then
      q.1 == Idle(RequeueAfter(300)) && q.0.releases == c.releases[ReleaseOf(app) := h + [h[|h| - 2]]] &&
      DegradedFor(q.0.apps[key].status, app.status, app.generation, "RolledBack", |h| + 1, app.status.lastFailed) &&
      q.0.apps[key].status.conditions[Healthy].message == FailedRevision(app.status.lastFailed)
    else
      q.1 == Idle(RequeueAfter(30)) && q.0.releases == c.releases &&
      DegradedFor(q.0.apps[key].status, app.status, app.generation, "RollbackFailed", app.status.revision,
                  app.status.lastFailed)
  }

  lemma MarkedDone(c: Cluster, key: AppKey, app: App, nature: Nature)
    requires Holds(c, key, app) && app.status.phase == Phase.RollingBack
    ensures RolledDone(c, key, app, Quiet(c, Worker.RollingBack(app), nature))
  {
    var rk := ReleaseOf(app);
    if rk in c.releases && 2 <= |c.releases[rk]| {
      ServedDone(c, key, app, nature);
    } else {
      RollbackRefused(c, app, nature);
      var e := if rk in c.releases then NoRevision else NotFound;
      ReflectedDone(c, key, app, app.status, "RollbackFailed", Because("helm rollback", app.key.name, e), HEALTH_POLL,
                    nature);
    }
  }

  lemma ServedDone(c: Cluster, key: AppKey, app: App, nature: Nature)
    requires Holds(c, key, app) && app.status.phase == Phase.RollingBack
    requires ReleaseOf(app) in c.releases && 2 <= |c.releases[ReleaseOf(app)]|
    ensures RolledDone(c, key, app, Quiet(c, Worker.RollingBack(app), nature))
  {
    var d := RolledBackCluster(c, ReleaseOf(app));
    var local := app.status.(revision := |d.releases[ReleaseOf(app)]|);
    RollbackEffect(c, ReleaseOf(app));
    RollbackServed(c, app, nature);
    RefetchServed(d, app, nature);
    ReflectedDone(d, key, app, local, "RolledBack", FailedRevision(app.status.lastFailed), STEADY_POLL, nature);
    FromRollback(c, key, app, d, Quiet(c, Worker.RollingBack(app), nature));
  }

  lemma RollbackEffect(c: Cluster, rk: ReleaseKey)
    requires rk in c.releases && 2 <= |c.releases[rk]|
    ensures var d, h := RolledBackCluster(c, rk), c.releases[rk];
            rk in d.releases && |d.releases[rk]| == |h| + 1 && d.releases == c.releases[rk := h + [h[|h| - 2]]] &&
            d.apps == c.apps && d.secrets == c.secrets && d.clock == c.clock
  {
  }

  /** What holds from the rollback's effect on holds from before it. */
  lemma FromRollback(c: Cluster, key: AppKey, app: App, d: Cluster, q: (Cluster, Worker))
    requires ReleaseOf(app) in c.releases && 2 <= |c.releases[ReleaseOf(app)]|
    requires d.secrets == c.secrets && d.clock == c.clock
    requires var h := c.releases[ReleaseOf(app)];
             d.releases == c.releases[ReleaseOf(app) := h + [h[|h| - 2]]] &&
             StillApplied(d, q.0, key, app) && q.0.releases == d.releases && q.1 == Idle(RequeueAfter(300)) &&
             DegradedFor(q.0.apps[key].status, app.status, app.generation, "RolledBack", |h| + 1,
                         app.status.lastFailed) &&
             q.0.apps[key].status.conditions[Healthy].message == FailedRevision(app.status.lastFailed)
    ensures RolledDone(c, key, app, q)
  {
  }

  lemma ReflectedDone(c: Cluster, key: AppKey, app: App, local: Status, reason: string, m: Text, seconds: nat,
                      nature: Nature)
    requires Holds(c, key, app) && local.phase == Phase.RollingBack
    requires SameBooks(app.status.(revision := local.revision), local)
    ensures var q := Quiet(c, SetDegraded(app, local, reason, m, seconds, c.clock), nature);
            q.1 == Idle(RequeueAfter(seconds)) && q.0.releases == c.releases && StillApplied(c, q.0, key, app) &&
            DegradedFor(q.0.apps[key].status, app.status, app.generation, reason, local.revision,
                        app.status.lastFailed) &&
            q.0.apps[key].status.conditions[Healthy].message == m
  {
    var s := DegradedStatus(local, app.generation, reason, m, c.clock);
    DegradingEnds(c, key, app, local, reason, m, seconds, nature);
    DegradedShows(local, app.generation, reason, m, c.clock);
    PutFrozen(c, key, app, s);
  }

  lemma PhaseDone(c: Cluster, key: AppKey, app: App, a: Assessment, hash: Hash, m: Manifest, seen: seq<Health.Reading>,
                  nature: Nature)
    requires Holds(c, key, app) && !Unhealthy(app, a.grade, c.clock)
    ensures PassDone(c, key, app, a, Quiet(c, Assess(app, hash, m, seen, a, c.clock), nature))
  {
    if a.grade != Current {
      var s := ProgressStatus(app, a.detail, c.clock);
      HandedOn(c, key, app, s, Progress, RequeueAfter(HEALTH_POLL), nature);
      PutFrozen(c, key, app, s);
    } else if app.status.lastFailed == 0 {
      var s := DeployedStatus(app, a.detail, c.clock);
      HandedOn(c, key, app, s, Claim(hash, m, seen), RequeueAfter(STEADY_POLL), nature);
      PutFrozen(c, key, app, s);
    }
  }

  /** The second half of a pass: it acts on the release's health as listed, and always wants to look again; if the
      health cannot be told, it changes nothing and ends with an error. */
  lemma HealthPass(c: Cluster, key: AppKey, app: App, hash: Hash, nature: Nature)
    requires Holds(c, key, app) && app.finalizer
    ensures var q := Quiet(c, Fetching(app, hash), nature);
            match Outlook(c, app, nature)
            case None => q == (c, Idle(Errored))
            case Some(a) => PassDone(c, key, app, a, q)
  {
    var m, seen := QuietFetch(c, app, hash, nature);
    match Outlook(c, app, nature)
    case None =>
    case Some(a) =>
      if Unhealthy(app, a.grade, c.clock) {
        if app.status.lastFailed != 0 || app.status.revision <= 1 { TerminalDone(c, key, app, a, nature); }
        else { RollbackDone(c, key, app, a, nature); }
      } else {
        PhaseDone(c, key, app, a, hash, m, seen, nature);
      }
  }

  /** A pass over an Application that is not there, or not registered yet. */
  lemma FirstPass(c: Cluster, key: AppKey, nature: Nature)
    requires Sound(c) && (key in c.apps ==> !c.apps[key].finalizer && !c.apps[key].deleting)
    ensures var q := Quiet(c, Worker.Reading(key), nature);
            q.1 == Idle(Settled) &&
            if key !in c.apps then q.0 == c
            else key in q.0.apps && q.0.apps[key] == c.apps[key].(finalizer := true, rv := c.version + 1) &&
                 q.0.releases == c.releases && q.0.namespaces == c.namespaces
  {
    ReadOnce(c, key, nature);
    if key in c.apps { RegisterOnce(c, key, c.apps[key], nature); }
  }

  lemma RegisterOnce(c: Cluster, key: AppKey, app: App, nature: Nature)
    requires Holds(c, key, app) && !app.finalizer
    ensures Quiet(c, AfterRead(app), nature) == (Store(c, app.(finalizer := true)), Idle(Settled))
  {
  }
}
