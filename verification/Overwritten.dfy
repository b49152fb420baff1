/** After a rollback the phase is meant to stay Degraded until the spec or the values change. It does so exactly as
    long as no poll finds the release in progress before its deadline. */
module Overwritten {
  import opened Api
  import opened Server
  import opened Health
  import opened Controller
  import opened Passes
  import opened Budget
  import opened Steady
  import opened Quiescence
  import opened Latency

  /** Rolled back for the spec and values that are still wanted. */
  predicate Reverted(c: Cluster, key: AppKey) {
    && key in c.apps
    && var app := c.apps[key];
       app.key == key && app.finalizer && !app.deleting && app.status.lastFailed != 0 && Clean(c, app)
  }

  function PhaseOf(c: Cluster, key: AppKey): Phase
    requires key in c.apps
  {
    c.apps[key].status.phase
  }

  predicate ShowsFailure(c: Cluster, key: AppKey, nature: Nature) {
    && key in c.apps
    && Outlook(c, c.apps[key], nature).Some?
    && Unhealthy(c.apps[key], Outlook(c, c.apps[key], nature).value.grade, c.clock)
  }

  /** The phase after one undisturbed pass, from any phase. */
  lemma PhaseAfterPass(c: Cluster, key: AppKey, nature: Nature)
    requires Reverted(c, key)
    ensures var d := Quiet(c, Worker.Reading(key), nature).0;
            Reverted(d, key) &&
            PhaseOf(d, key) == (if ShowsProgress(c, key, nature) then Phase.Deploying
                                else if ShowsFailure(c, key, nature) then Phase.Degraded
                                else PhaseOf(c, key))
  {
    var app := c.apps[key];
    VisitReads(c, key, nature);
    var m, seen := QuietFetch(c, app, app.status.valuesHash, nature);
    if Outlook(c, app, nature).Some? {
      var a := Outlook(c, app, nature).value;
      if ShowsFailure(c, key, nature) {
        DegradedPath(c, key, app, a, nature);
        WrittenReverted(c, key, DegradedNow(app, a, c.clock));
      } else if ShowsProgress(c, key, nature) {
        var s := ProgressStatus(app, a.detail, c.clock);
        QuietWrite(c, key, app, s, Progress, RequeueAfter(HEALTH_POLL), nature);
        WrittenReverted(c, key, s);
      }
    }
  }

  lemma WrittenReverted(c: Cluster, key: AppKey, s: Status)
    requires Reverted(c, key) && SameBooks(c.apps[key].status, s)
    ensures Reverted(Put(c, c.apps[key], s), key) && PhaseOf(Put(c, c.apps[key], s), key) == s.phase
  {
    PutFrozen(c, key, c.apps[key], s);
    FrozenHash(c, Put(c, c.apps[key], s), key, c.apps[key]);
  }

  // ---------- any number of passes ----------

  ghost function Visited(c: Cluster, key: AppKey, v: Visit): Cluster {
    Round(c, key, v.gap, v.nature)
  }

  /** The phase is Degraded, now and after each of the visits. */
  ghost predicate AlwaysDegraded(c: Cluster, key: AppKey, visits: seq<Visit>)
    decreases |visits|
  {
    key in c.apps && PhaseOf(c, key) == Phase.Degraded &&
    (visits == [] || AlwaysDegraded(Visited(c, key, visits[0]), key, visits[1..]))
  }

  ghost predicate NeverInProgress(c: Cluster, key: AppKey, visits: seq<Visit>)
    decreases |visits|
  {
    visits == [] ||
    (!ShowsProgress(Environment(c, Tick(visits[0].gap)), key, visits[0].nature) &&
     NeverInProgress(Visited(c, key, visits[0]), key, visits[1..]))
  }

  /** Exactly when a rolled-back Application stays Degraded. */
  lemma {:induction false} StaysDegradedExactly(c: Cluster, key: AppKey, visits: seq<Visit>)
    requires Reverted(c, key) && PhaseOf(c, key) == Phase.Degraded
    ensures AlwaysDegraded(c, key, visits) <==> NeverInProgress(c, key, visits)
    decreases |visits|
  {
    if visits != [] {
      var e, v := Environment(c, Tick(visits[0].gap)), visits[0];
      assert CurrentHash(e, c.apps[key]) == CurrentHash(c, c.apps[key]);
      PhaseAfterPass(e, key, v.nature);
      if !ShowsProgress(e, key, v.nature) { StaysDegradedExactly(Visited(c, key, v), key, visits[1..]); }
    }
  }

  // ---------- one that does not ----------

  const WEB := AppKey("team", "web")
  const POD := Object("Deployment", "", "web")
  const OLD := Revision(Source("web", "https://charts.example", "1", None), [POD])
  const NEW := Revision(Source("web", "https://charts.example", "2", None), [POD])

  const REVERTED_STATUS := Status(Phase.Degraded, map[], 2, "web", 3, NoHash, 2, Some(100))
  const REVERTED_APP :=
    App(WEB, 0, 9, 2, Spec("web", "https://charts.example", "2", "prod", None, 300), false, true, REVERTED_STATUS)

  /** Revision 2 failed after 20 seconds and was rolled back; the old pods are being started again. */
  const REVERTED :=
    Cluster(map[WEB := REVERTED_APP], [REVERTED_APP], map["prod" := true], map[],
            map[ReleaseKey("prod", "web") := [OLD, NEW, OLD]], 120, 9, 1)

  const STARTING := Nature((source: Source) => [POD], (m: Manifest, d: Doc) => Computed(InProgress, "1 of 2 updated"))

  lemma OnePod(nature: Nature, grade: Grade, message: string)
    requires nature.health([POD], POD) == Computed(grade, message) && grade != Current
    ensures HealthOf([POD], nature) ==
            Some(Assessment(if grade == Failing then Failing else InProgress, Observed("Deployment", "web", message)))
  {
    var m: Manifest := [POD];
    assert m[1..] == [] && Workloads([]) == Some([]);
    assert IsWorkload(POD);
    assert [POD] + [] == [POD];
    assert Workloads(m) == Some([POD]);
    assert Sights(m, [POD], nature) == [Saw(Computed(grade, message))];
    var next := Absorb(ALL_CURRENT, Health.Reading(POD, Computed(grade, message)));
    assert Sweep(m[1..], Sights(m, m, nature)[1..], next) == Verdict(next);
    assert Sweep(m, Sights(m, m, nature), ALL_CURRENT) == Verdict(next);
  }

  /** The next poll, 30 seconds later, puts the phase back to Deploying. */
  lemma DegradedIsOverwritten()
    ensures Reverted(REVERTED, WEB) && PhaseOf(REVERTED, WEB) == Phase.Degraded
    ensures var d := Round(REVERTED, WEB, 30, STARTING);
            WEB in d.apps && PhaseOf(d, WEB) == Phase.Deploying && d.apps[WEB].status.lastFailed != 0
  {
    var e := Environment(REVERTED, Tick(30));
    OnePod(STARTING, InProgress, "1 of 2 updated");
    assert Outlook(e, REVERTED_APP, STARTING) == HealthOf([POD], STARTING);
    assert Reverted(e, WEB);
    PhaseAfterPass(e, WEB, STARTING);
  }
}
