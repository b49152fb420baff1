/** A release is looked at for ever: one that breaks later, long after it was deployed, is found out within five
    minutes, because every visit that can tell the health of a release asks for another one. */
module Vigilance {
  import opened Api
  import opened Server
  import opened Controller
  import opened Machine
  import opened Soundness
  import opened Budget
  import opened Steady
  import opened Neighbours
  import opened Quiescence
  import opened Latency
  import opened Outcomes

  /** A visit that can tell the health asks for another one, within five minutes, and leaves the Application applied. */
  lemma LooksAgain(s: State, key: AppKey, v: Visit)
    requires s.worker.Idle? && InForce(s.cluster, key) && Outlook(s.cluster, s.cluster.apps[key], v.nature).Some?
    ensures var u := AfterVisit(s, key, v);
            InForce(u.cluster, key) && u.cluster.apps[key].uid == s.cluster.apps[key].uid &&
            u.cluster.clock == s.cluster.clock + v.gap &&
            u.worker in {Idle(RequeueAfter(30)), Idle(RequeueAfter(300))}
  {
    var e, app := Environment(s.cluster, Tick(v.gap)), s.cluster.apps[key];
    var hash := app.status.valuesHash;
    LaterOutlook(s.cluster, key, v);
    VisitReads(e, key, v.nature);
    HealthPass(e, key, app, hash, v.nature);
    var q := Quiet(e, Fetching(app, hash), v.nature);
    assert PassDone(e, key, app, Outlook(e, app, v.nature).value, q);
    FrozenHash(e, q.0, key, app);
  }

  /** At each visit to this Application the health of its release can be told; and from time since on, it has failed or
      is overdue. */
  ghost predicate IllSince(s: State, key: AppKey, since: Time, stops: seq<Stop>)
    decreases |stops|
  {
    stops == [] ||
    ((stops[0].key == key ==> Tells(s.cluster, key, stops[0].visit, since)) &&
     IllSince(AfterVisit(s, stops[0].key, stops[0].visit), key, since, stops[1..]))
  }

  predicate Tells(c: Cluster, key: AppKey, v: Visit, since: Time) {
    && key in c.apps && Outlook(c, c.apps[key], v.nature).Some?
    && (since <= c.clock + v.gap ==>
          Ailing(c.apps[key], Outlook(c, c.apps[key], v.nature).value.grade, c.clock + v.gap))
  }

  /** The log says that the rollback path was entered, in this window. */
  predicate FoundOut(e: Entry, uid: nat, since: Time) {
    e.FoundUnhealthy? && e.uid == uid && since <= e.at <= since + 300
  }

  lemma OtherStopApplied(s: State, stop: Stop, key: AppKey)
    requires s.worker.Idle? && Sound(s.cluster) && InForce(s.cluster, key)
    requires stop.key != key && Apart(s.cluster, stop.key, key)
    ensures var u := AfterVisit(s, stop.key, stop.visit);
            InForce(u.cluster, key) && u.cluster.apps[key] == s.cluster.apps[key]
  {
    var e, w, n := Environment(s.cluster, Tick(stop.visit.gap)), Worker.Reading(stop.key), stop.visit.nature;
    LaterOutlook(s.cluster, key, stop.visit);
    EnvironmentSound(s.cluster, Tick(stop.visit.gap));
    QuietKeeps(e, w, n);
    PassLeavesAlone(e, stop.key, key, n);
    assert CurrentHash(Quiet(e, w, n).0, s.cluster.apps[key]) == CurrentHash(e, s.cluster.apps[key]);
  }

  lemma FoundNow(s: State, key: AppKey, since: Time, v: Visit) returns (found: nat)
    requires s.worker.Idle? && InForce(s.cluster, key) && Tells(s.cluster, key, v, since)
    requires since <= s.cluster.clock + v.gap <= since + 300
    ensures |s.log| <= found < |AfterVisit(s, key, v).log|
    ensures FoundOut(AfterVisit(s, key, v).log[found], s.cluster.apps[key].uid, since)
  {
    found := VisitReports(s, key, v);
  }

  lemma {:induction false} FoundFrom(s: State, key: AppKey, since: Time, due: Time, stops: seq<Stop>)
    returns (found: nat)
    requires s.worker.Idle? && Sound(s.cluster) && InForce(s.cluster, key) && ReleaseApart(s.cluster, key, stops)
    requires s.cluster.clock <= due <= since + 300
    requires Honoured(s, key, Some(due), stops) && IllSince(s, key, since, stops)
    requires since + 300 < AfterStops(s, stops).cluster.clock
    ensures |s.log| <= found < |AfterStops(s, stops).log|
    ensures FoundOut(AfterStops(s, stops).log[found], s.cluster.apps[key].uid, since)
    decreases |stops|
  {
    var v := stops[0].visit;
    var u := AfterVisit(s, stops[0].key, v);
    StopKeeps(s, stops[0], key, stops[1..]);
    VisitLog(s, stops[0].key, v);
    if stops[0].key != key {
      assert Apart(s.cluster, stops[0].key, key);
      OtherStopApplied(s, stops[0], key);
      found := FoundFrom(u, key, since, due, stops[1..]);
    } else if since <= s.cluster.clock + v.gap {
      found := FoundNow(s, key, since, v);
      LogKept(u, stops[1..], found);
    } else {
      LooksAgain(s, key, v);
      found := FoundFrom(u, key, since, Due(u).value, stops[1..]);
    }
  }

  /** The steady watch. An applied Application, last visited with the request to come again within five minutes, is
      visited whenever a visit asks for it, among visits to any others; if from some time on its release has failed, or
      is overdue, then within five minutes of that time the rollback path has been entered. */
  lemma LaterFailureIsFound(s: State, key: AppKey, since: Time, stops: seq<Stop>) returns (found: nat)
    requires Sound(s.cluster) && InForce(s.cluster, key) && ReleaseApart(s.cluster, key, stops)
    requires s.worker in {Idle(RequeueAfter(30)), Idle(RequeueAfter(300))} && s.cluster.clock <= since
    requires Honoured(s, key, Due(s), stops) && IllSince(s, key, since, stops)
    requires since + 300 < AfterStops(s, stops).cluster.clock
    ensures |s.log| <= found < |AfterStops(s, stops).log|
    ensures FoundOut(AfterStops(s, stops).log[found], s.cluster.apps[key].uid, since)
  {
    found := FoundFrom(s, key, since, Due(s).value, stops);
  }
}
