/** How long a rollout can stay unhealthy unnoticed: visits that come when they are due take it to the rollback
    path at most one poll interval after its deadline, and earlier only if a workload has failed; whatever other
    Applications are visited in between. */
module Latency {
  import opened Api
  import opened Server
  import opened Health
  import opened Controller
  import opened Machine
  import opened Soundness
  import opened Budget
  import opened Steady
  import opened Neighbours
  import opened Quiescence

  // ---------- what a pass over an applied release logs ----------

  lemma {:induction false} PollingFinds(c: Cluster, app: App, hash: Hash, m: Manifest, todo: seq<Doc>,
                                        seen: seq<Health.Reading>, nature: Nature)
    requires todo != [] && Tally(seen).grade != Failing
    requires var v := Sweep(todo, Sights(m, todo, nature), Tally(seen));
             v.Verdict? && Unhealthy(app, v.assessment.grade, c.clock)
    ensures var v := Sweep(todo, Sights(m, todo, nature), Tally(seen));
            FoundUnhealthy(app.uid, c.clock, v.assessment.grade) in
              QuietLog(c, Polling(app, hash, m, todo, seen), nature)
    decreases |todo|
  {
    var live := nature.health(m, todo[0]);
    var w := Polling(app, hash, m, todo, seen);
    PollServed(c, app, hash, m, todo, seen, nature);
    var more := seen + [Health.Reading(todo[0], live)];
    assert more[..|more| - 1] == seen;
    assert Tally(more) == Absorb(Tally(seen), Health.Reading(todo[0], live));
    assert Sights(m, todo, nature)[1..] == Sights(m, todo[1..], nature);
    if Tally(more).grade == Failing || todo[1..] == [] {
      PollLogs(c, w, nature);
    } else {
      PollingFinds(c, app, hash, m, todo[1..], more, nature);
    }
  }

  ghost function PollEntries(c: Cluster, w: Worker, nature: Nature): seq<Entry> {
    CallEntries(State(c, w, []), OutcomeFor(w, nature))
  }

  lemma PollServed(c: Cluster, app: App, hash: Hash, m: Manifest, todo: seq<Doc>, seen: seq<Health.Reading>,
                   nature: Nature)
    requires todo != []
    ensures var w, live := Polling(app, hash, m, todo, seen), nature.health(m, todo[0]);
            QuietLog(c, w, nature) ==
            PollEntries(c, w, nature) + QuietLog(c, AfterReading(app, hash, m, todo, seen, live, c.clock), nature)
  {
    var w := Polling(app, hash, m, todo, seen);
    PollReply(c, w, nature);
    QuietLogOnce(c, w, nature);
  }

  lemma PollReply(c: Cluster, w: Worker, nature: Nature)
    requires w.Polling? && w.todo != []
    ensures var (d, a) := Serve(c, NextCall(w), OutcomeFor(w, nature));
            var live := nature.health(w.manifest, w.todo[0]);
            d == c && a == (if live.Missing? then Failure(NotFound) else GotLive(live)) &&
            Resume(w, a, c.clock) == AfterReading(w.app, w.hash, w.manifest, w.todo, w.seen, live, c.clock)
  {
  }

  lemma PollLogs(c: Cluster, w: Worker, nature: Nature)
    requires w.Polling? && w.todo != [] && !nature.health(w.manifest, w.todo[0]).Uncomputable?
    requires var t := Tally(w.seen + [Health.Reading(w.todo[0], nature.health(w.manifest, w.todo[0]))]);
             (t.grade == Failing || w.todo[1..] == []) && Unhealthy(w.app, t.grade, c.clock)
    ensures var t := Tally(w.seen + [Health.Reading(w.todo[0], nature.health(w.manifest, w.todo[0]))]);
            PollEntries(c, w, nature) == [FoundUnhealthy(w.app.uid, c.clock, t.grade)]
  {
    PollReply(c, w, nature);
  }

  lemma FetchFinds(c: Cluster, app: App, hash: Hash, nature: Nature)
    requires Outlook(c, app, nature).Some? && Unhealthy(app, Outlook(c, app, nature).value.grade, c.clock)
    ensures FoundUnhealthy(app.uid, c.clock, Outlook(c, app, nature).value.grade) in
              QuietLog(c, Fetching(app, hash), nature)
  {
    FetchLogged(c, app, hash, nature);
    var m := Latest(c.releases[ReleaseOf(app)]).manifest;
    PollingFinds(c, app, hash, m, Workloads(m).value, [], nature);
  }

  lemma FetchLogged(c: Cluster, app: App, hash: Hash, nature: Nature)
    requires ReleaseOf(app) in c.releases
    ensures QuietLog(c, Fetching(app, hash), nature) ==
            QuietLog(c, AfterFetch(app, hash, Latest(c.releases[ReleaseOf(app)]).manifest, c.clock), nature)
  {
    QuietLogOnce(c, Fetching(app, hash), nature);
    GetReply(c, ReleaseOf(app));
    var rest := QuietLog(c, AfterFetch(app, hash, Latest(c.releases[ReleaseOf(app)]).manifest, c.clock), nature);
    assert [] + rest == rest;
  }

  /** A live Application whose spec and values are those applied. */
  predicate InForce(c: Cluster, key: AppKey) {
    && key in c.apps
    && var app := c.apps[key]; app.key == key && app.finalizer && !app.deleting && Clean(c, app)
  }

  /** A rollout under way: applied at t. */
  predicate Rolling(c: Cluster, key: AppKey, t: Time) {
    InForce(c, key) && c.apps[key].status.started == Some(t) && t <= c.clock
  }

  /** A visit to an applied Application goes straight to its release. */
  lemma VisitReads(c: Cluster, key: AppKey, nature: Nature)
    requires key in c.apps && c.apps[key].finalizer && !c.apps[key].deleting && c.apps[key].key == key
    requires Clean(c, c.apps[key])
    ensures var w := Fetching(c.apps[key], c.apps[key].status.valuesHash);
            Quiet(c, Worker.Reading(key), nature) == Quiet(c, w, nature) &&
            QuietLog(c, Worker.Reading(key), nature) == QuietLog(c, w, nature)
  {
    var app := c.apps[key];
    var w := AfterRead(app);
    var rest := QuietLog(c, w, nature);
    assert [] + rest == rest;
    if app.spec.valuesRef.Some? {
      var ref := app.spec.valuesRef.value;
      SecretServed(c, app, ref, nature);
      var more := QuietLog(c, AfterSecret(app, ref, c.secrets[SecretKey(key.namespace, ref.name)], c.clock), nature);
      assert [] + more == more;
    }
  }

  lemma SecretServed(c: Cluster, app: App, ref: SecretRef, nature: Nature)
    requires SecretKey(app.key.namespace, ref.name) in c.secrets
    ensures var w := ReadingSecret(app, ref);
            var v := AfterSecret(app, ref, c.secrets[SecretKey(app.key.namespace, ref.name)], c.clock);
            Quiet(c, w, nature) == Quiet(c, v, nature) && QuietLog(c, w, nature) == [] + QuietLog(c, v, nature)
  {
  }

  /** A visit that finds the rollout still in progress, and in time, asks to come again after a poll interval. */
  lemma ProgressVisit(c: Cluster, key: AppKey, t: Time, nature: Nature)
    requires Rolling(c, key, t) && Outlook(c, c.apps[key], nature).Some?
    requires var grade := Outlook(c, c.apps[key], nature).value.grade;
             grade != Current && !Unhealthy(c.apps[key], grade, c.clock)
    ensures var (d, w) := Quiet(c, Worker.Reading(key), nature);
            w == Idle(RequeueAfter(HEALTH_POLL)) && d.clock == c.clock &&
            Rolling(d, key, t) && d.apps[key].uid == c.apps[key].uid && d.apps[key].spec == c.apps[key].spec
  {
    var app := c.apps[key];
    VisitReads(c, key, nature);
    var m, seen := QuietFetch(c, app, app.status.valuesHash, nature);
    var s := ProgressStatus(app, Outlook(c, app, nature).value.detail, c.clock);
    PutFrozen(c, key, app, s);
    FrozenHash(c, Put(c, app, s), key, app);
    if s != app.status { QuietPersist(c, key, app, s, Progress, RequeueAfter(HEALTH_POLL), nature); }
  }

  // ---------- visits ----------

  /** Time passes, then a pass that nothing disturbs looks at workloads in whatever state they then are. */
  datatype Visit = Visit(gap: nat, nature: Nature)

  ghost function AfterVisit(s: State, key: AppKey, v: Visit): State {
    QuietState(Step(Step(s, Env(Tick(v.gap))), Begin(key)), v.nature)
  }

  /** A visit to one of several Applications. */
  datatype Stop = Stop(key: AppKey, visit: Visit)

  ghost function AfterStops(s: State, stops: seq<Stop>): State
    decreases |stops|
  {
    if stops == [] then s else AfterStops(AfterVisit(s, stops[0].key, stops[0].visit), stops[1..])
  }

  /** The release's health can be told, and is not good. */
  predicate Unwell(c: Cluster, key: AppKey, nature: Nature) {
    key in c.apps && Outlook(c, c.apps[key], nature).Some? && Outlook(c, c.apps[key], nature).value.grade != Current
  }

  /** When the pass that has just ended asks for the next one, if it does. */
  function Due(s: State): Option<Time> {
    if s.worker.Idle? && s.worker.result.RequeueAfter? then Some(s.cluster.clock + s.worker.result.seconds) else None
  }

  /** Requests to be visited again are honoured: time does not pass beyond the moment this Application's last visit
      asked for without another visit to it. A visit that asks for nothing obliges nobody. */
  ghost predicate Honoured(s: State, key: AppKey, due: Option<Time>, stops: seq<Stop>)
    decreases |stops|
  {
    stops == [] ||
    (var u := AfterVisit(s, stops[0].key, stops[0].visit);
     (due.Some? ==> s.cluster.clock + stops[0].visit.gap <= due.value) &&
     Honoured(u, key, if stops[0].key == key then Due(u) else due, stops[1..]))
  }

  /** No visit to this Application finds its release healthy. */
  ghost predicate NeverWell(s: State, key: AppKey, stops: seq<Stop>)
    decreases |stops|
  {
    stops == [] ||
    ((stops[0].key == key ==> Unwell(s.cluster, key, stops[0].visit.nature)) &&
     NeverWell(AfterVisit(s, stops[0].key, stops[0].visit), key, stops[1..]))
  }

  /** None of the others that are visited deploys to this Application's release. */
  predicate ReleaseApart(c: Cluster, key: AppKey, stops: seq<Stop>) {
    forall i :: 0 <= i < |stops| ==> Apart(c, stops[i].key, key)
  }

  /** The rollback path was entered in time, and before the deadline only for a failed workload. */
  predicate InTime(e: Entry, uid: nat, t: Time, deadline: int) {
    && e.FoundUnhealthy? && e.uid == uid
    && e.at <= t + deadline + 30
    && (e.at <= t + deadline ==> e.grade == Failing)
  }

  lemma {:induction false} StopsLog(s: State, stops: seq<Stop>)
    ensures |s.log| <= |AfterStops(s, stops).log| && AfterStops(s, stops).log[..|s.log|] == s.log
    decreases |stops|
  {
    if stops != [] {
      var v := stops[0].visit;
      var u := AfterVisit(s, stops[0].key, v);
      var entries := QuietLog(Environment(s.cluster, Tick(v.gap)),
                              Step(Step(s, Env(Tick(v.gap))), Begin(stops[0].key)).worker, v.nature);
      assert s.log + [] == s.log;
      assert u.log == s.log + entries;
      StopsLog(u, stops[1..]);
      assert AfterStops(u, stops[1..]).log[..|u.log|][..|s.log|] == s.log;
    }
  }

  /** A visit that finds the release unhealthy logs so. */
  lemma GapFinds(c: Cluster, key: AppKey, app: App, a: Assessment, v: Visit)
    requires key in c.apps && c.apps[key] == app && app.finalizer && !app.deleting && app.key == key
    requires Clean(c, app) && Outlook(c, app, v.nature) == Some(a) && Unhealthy(app, a.grade, c.clock + v.gap)
    ensures FoundUnhealthy(app.uid, c.clock + v.gap, a.grade) in
              QuietLog(Environment(c, Tick(v.gap)), Worker.Reading(key), v.nature)
  {
    LaterOutlook(c, key, v);
    VisitFinds(Environment(c, Tick(v.gap)), key, app, a, v.nature);
  }

  lemma VisitLog(s: State, key: AppKey, v: Visit)
    requires s.worker.Idle?
    ensures AfterVisit(s, key, v).log ==
            s.log + QuietLog(Environment(s.cluster, Tick(v.gap)), Worker.Reading(key), v.nature)
  {
    assert s.log + [] == s.log;
  }

  lemma LaterOutlook(c: Cluster, key: AppKey, v: Visit)
    requires key in c.apps
    ensures var d := Environment(c, Tick(v.gap));
            d.apps == c.apps && d.clock == c.clock + v.gap && (Clean(c, c.apps[key]) ==> Clean(d, c.apps[key])) &&
            CurrentHash(d, c.apps[key]) == CurrentHash(c, c.apps[key]) &&
            Outlook(d, c.apps[key], v.nature) == Outlook(c, c.apps[key], v.nature)
  {
  }

  lemma VisitFinds(c: Cluster, key: AppKey, app: App, a: Assessment, nature: Nature)
    requires key in c.apps && c.apps[key] == app && app.finalizer && !app.deleting && app.key == key
    requires Clean(c, app) && Outlook(c, app, nature) == Some(a) && Unhealthy(app, a.grade, c.clock)
    ensures FoundUnhealthy(app.uid, c.clock, a.grade) in QuietLog(c, Worker.Reading(key), nature)
  {
    VisitReads(c, key, nature);
    FetchFinds(c, app, app.status.valuesHash, nature);
  }

  lemma VisitReports(s: State, key: AppKey, v: Visit) returns (found: nat)
    requires s.worker.Idle? && InForce(s.cluster, key) && Outlook(s.cluster, s.cluster.apps[key], v.nature).Some?
    requires Unhealthy(s.cluster.apps[key], Outlook(s.cluster, s.cluster.apps[key], v.nature).value.grade,
                       s.cluster.clock + v.gap)
    ensures |s.log| <= found < |AfterVisit(s, key, v).log|
    ensures AfterVisit(s, key, v).log[found] ==
            FoundUnhealthy(s.cluster.apps[key].uid, s.cluster.clock + v.gap,
                           Outlook(s.cluster, s.cluster.apps[key], v.nature).value.grade)
  {
    var app := s.cluster.apps[key];
    var a := Outlook(s.cluster, app, v.nature).value;
    VisitLog(s, key, v);
    GapFinds(s.cluster, key, app, a, v);
    found := FindIn(s.log, QuietLog(Environment(s.cluster, Tick(v.gap)), Worker.Reading(key), v.nature),
                    FoundUnhealthy(app.uid, s.cluster.clock + v.gap, a.grade));
  }

  lemma FindIn(log: seq<Entry>, more: seq<Entry>, e: Entry) returns (found: nat)
    requires e in more
    ensures |log| <= found < |log + more| && (log + more)[found] == e
  {
    var i :| 0 <= i < |more| && more[i] == e;
    found := |log| + i;
  }

  lemma LogKept(s: State, stops: seq<Stop>, i: nat)
    requires i < |s.log|
    ensures i < |AfterStops(s, stops).log| && AfterStops(s, stops).log[i] == s.log[i]
  {
    StopsLog(s, stops);
    assert AfterStops(s, stops).log[..|s.log|][i] == s.log[i];
  }

  lemma EarlyVisit(s: State, key: AppKey, t: Time, v: Visit)
    requires s.worker.Idle? && Rolling(s.cluster, key, t) && Unwell(s.cluster, key, v.nature)
    requires !Unhealthy(s.cluster.apps[key], Outlook(s.cluster, s.cluster.apps[key], v.nature).value.grade,
                        s.cluster.clock + v.gap)
    ensures var u := AfterVisit(s, key, v);
            u.worker == Idle(RequeueAfter(HEALTH_POLL)) && Rolling(u.cluster, key, t) &&
            u.cluster.clock == s.cluster.clock + v.gap <= t + s.cluster.apps[key].spec.deadline &&
            u.cluster.apps[key].uid == s.cluster.apps[key].uid && u.cluster.apps[key].spec == s.cluster.apps[key].spec
  {
    LaterOutlook(s.cluster, key, v);
    ProgressVisit(Environment(s.cluster, Tick(v.gap)), key, t, v.nature);
  }

  /** Visits keep the cluster sound, and releases whose they are. */
  lemma StopKeeps(s: State, stop: Stop, key: AppKey, stops: seq<Stop>)
    requires s.worker.Idle? && Sound(s.cluster) && ReleaseApart(s.cluster, key, stops)
    ensures var u := AfterVisit(s, stop.key, stop.visit);
            u.worker.Idle? && Sound(u.cluster) && ReleaseApart(u.cluster, key, stops) &&
            u.cluster.clock == s.cluster.clock + stop.visit.gap
  {
    var e, w, n := Environment(s.cluster, Tick(stop.visit.gap)), Worker.Reading(stop.key), stop.visit.nature;
    EnvironmentSound(s.cluster, Tick(stop.visit.gap));
    QuietKeeps(e, w, n);
    forall i | 0 <= i < |stops| ensures Apart(Quiet(e, w, n).0, stops[i].key, key) {
      assert Apart(s.cluster, stops[i].key, key);
      StillApart(e, w, stops[i].key, key, n);
    }
  }

  /** Visits to other Applications leave the rollout under way. */
  lemma OtherStop(s: State, stop: Stop, key: AppKey, t: Time)
    requires s.worker.Idle? && Sound(s.cluster) && Rolling(s.cluster, key, t)
    requires stop.key != key && Apart(s.cluster, stop.key, key)
    ensures var u := AfterVisit(s, stop.key, stop.visit);
            Rolling(u.cluster, key, t) && u.cluster.apps[key] == s.cluster.apps[key]
  {
    var e, w, n := Environment(s.cluster, Tick(stop.visit.gap)), Worker.Reading(stop.key), stop.visit.nature;
    LaterOutlook(s.cluster, key, stop.visit);
    EnvironmentSound(s.cluster, Tick(stop.visit.gap));
    QuietKeeps(e, w, n);
    PassLeavesAlone(e, stop.key, key, n);
    assert CurrentHash(Quiet(e, w, n).0, s.cluster.apps[key]) == CurrentHash(e, s.cluster.apps[key]);
  }

  lemma FoundInTime(s: State, key: AppKey, t: Time, v: Visit) returns (found: nat)
    requires s.worker.Idle? && Rolling(s.cluster, key, t) && Unwell(s.cluster, key, v.nature)
    requires Unhealthy(s.cluster.apps[key], Outlook(s.cluster, s.cluster.apps[key], v.nature).value.grade,
                       s.cluster.clock + v.gap)
    requires s.cluster.clock + v.gap <= t + s.cluster.apps[key].spec.deadline + 30
    ensures |s.log| <= found < |AfterVisit(s, key, v).log|
    ensures InTime(AfterVisit(s, key, v).log[found], s.cluster.apps[key].uid, t, s.cluster.apps[key].spec.deadline)
  {
    found := VisitReports(s, key, v);
  }

  lemma {:induction false} KeptFrom(s: State, key: AppKey, t: Time, due: Time, stops: seq<Stop>) returns (found: nat)
    requires s.worker.Idle? && Sound(s.cluster) && Rolling(s.cluster, key, t) && ReleaseApart(s.cluster, key, stops)
    requires s.cluster.clock <= due <= t + s.cluster.apps[key].spec.deadline + 30
    requires Honoured(s, key, Some(due), stops) && NeverWell(s, key, stops)
    requires t + s.cluster.apps[key].spec.deadline + 30 < AfterStops(s, stops).cluster.clock
    ensures |s.log| <= found < |AfterStops(s, stops).log|
    ensures InTime(AfterStops(s, stops).log[found], s.cluster.apps[key].uid, t, s.cluster.apps[key].spec.deadline)
    decreases |stops|
  {
    var app, v := s.cluster.apps[key], stops[0].visit;
    var u := AfterVisit(s, stops[0].key, v);
    StopKeeps(s, stops[0], key, stops[1..]);
    VisitLog(s, stops[0].key, v);
    if stops[0].key != key {
      assert Apart(s.cluster, stops[0].key, key);
      OtherStop(s, stops[0], key, t);
      found := KeptFrom(u, key, t, due, stops[1..]);
    } else if Unhealthy(app, Outlook(s.cluster, app, v.nature).value.grade, s.cluster.clock + v.gap) {
      found := FoundInTime(s, key, t, v);
      LogKept(u, stops[1..], found);
    } else {
      EarlyVisit(s, key, t, v);
      found := KeptFrom(u, key, t, Due(u).value, stops[1..]);
    }
  }

  /** The bound. A rollout applied at t, whose release never becomes healthy, is visited again whenever a visit asks
      for it, among visits to any other Applications; by 30 seconds after the deadline, the rollback path has been
      entered. */
  lemma DeadlineIsKept(s: State, key: AppKey, t: Time, stops: seq<Stop>) returns (found: nat)
    requires Sound(s.cluster) && Rolling(s.cluster, key, t) && ReleaseApart(s.cluster, key, stops)
    requires s.cluster.clock <= t + s.cluster.apps[key].spec.deadline && s.worker == Idle(RequeueAfter(30))
    requires Honoured(s, key, Due(s), stops) && NeverWell(s, key, stops)
    requires t + s.cluster.apps[key].spec.deadline + 30 < AfterStops(s, stops).cluster.clock
    ensures |s.log| <= found < |AfterStops(s, stops).log|
    ensures InTime(AfterStops(s, stops).log[found], s.cluster.apps[key].uid, t, s.cluster.apps[key].spec.deadline)
  {
    found := KeptFrom(s, key, t, Due(s).value, stops);
  }

  /** Where the clock starts: a persisted apply. */
  lemma ApplyStartsClock(c: Cluster, key: AppKey, values: Option<string>, nature: Nature)
    requires Sound(c) && key in c.apps && c.apps[key].finalizer && !c.apps[key].deleting
    requires 0 <= c.apps[key].spec.deadline
    requires CurrentHash(c, c.apps[key]) == Some(HashValues(values)) && NeedsApply(c.apps[key], HashValues(values))
    ensures var (d, w) := Quiet(c, FindingNamespace(c.apps[key], values), nature);
            Sound(d) && Rolling(d, key, c.clock) && d.clock == c.clock && w == Idle(RequeueAfter(30))
  {
    var app := c.apps[key];
    QuietKeeps(c, FindingNamespace(app, values), nature);
    NamespacePath(c, app, values, nature);
    var e := Ensured(c, app.spec.namespace);
    HelmPath(e, app, values, nature);
    var source := SourceOf(app.spec, values);
    var f := WithRevision(e, ReleaseOf(app), Revision(source, nature.render(source)));
    var s := AppliedStatus(app, values, |f.releases[ReleaseOf(app)]|, c.clock);
    QuietPersist(f, key, app, s, Applied(source), RequeueAfter(HEALTH_POLL), nature);
    PutFrozen(f, key, app, s);
    FrozenHash(c, Put(f, app, s), key, app);
  }
}
