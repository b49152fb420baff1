/** The look at a release's workloads when anything can go wrong: whatever the script does to the calls, the pass comes
    to what the sweep makes of what could be seen. A workload that could not be read is never taken for one that is not
    there. */
module Surveys {
  import opened Api
  import opened Server
  import opened Health
  import opened Controller
  import opened Machine

  /** What a call to read a workload shows, under this outcome. */
  function SightUnder(o: Outcome): Sight {
    if o.fault.NoFault? then Saw(o.live) else Unreadable
  }

  function BeatAt(weather: seq<Beat>, i: nat): Beat { if i < |weather| then weather[i] else QUIET }

  /** What the next n calls show. */
  function Shown(weather: seq<Beat>, n: nat): (sights: seq<Sight>)
    ensures |sights| == n
    ensures forall i :: 0 <= i < n ==> sights[i] == SightUnder(BeatAt(weather, i).outcome)
  {
    seq(n, i requires 0 <= i < n => SightUnder(BeatAt(weather, i).outcome))
  }

  predicate NoCrash(weather: seq<Beat>, n: nat) {
    forall i :: 0 <= i < n ==> !BeatAt(weather, i).crash
  }

  // ---------- the pass, call by call ----------

  /** After n calls. */
  function After(s: State, weather: seq<Beat>, n: nat): State
    decreases n
  {
    if n == 0 then s else After(Turn(s, Head(weather)), Rest(weather), n - 1)
  }

  function Remaining(weather: seq<Beat>, n: nat): seq<Beat> {
    if n == 0 then weather else Remaining(Rest(weather), n - 1)
  }

  /** What the steps of the surroundings alone make of the cluster. */
  function Moved(c: Cluster, env: seq<EnvStep>): Cluster
    decreases |env|
  {
    if env == [] then c else Moved(Environment(c, env[0]), env[1..])
  }

  function MovedBy(c: Cluster, weather: seq<Beat>, n: nat): Cluster
    decreases n
  {
    if n == 0 then c else MovedBy(Moved(c, Head(weather).env), Rest(weather), n - 1)
  }

  lemma {:induction false} RunEnvMoves(s: State, env: seq<EnvStep>)
    ensures Run(s, EnvEvents(env)).cluster == Moved(s.cluster, env)
    decreases |env|
  {
    if env != [] {
      assert EnvEvents(env)[1..] == EnvEvents(env[1..]);
      RunEnvMoves(Step(s, Env(env[0])), env[1..]);
    }
  }

  lemma RestShifts(weather: seq<Beat>, n: nat)
    ensures BeatAt(weather, 0) == Head(weather) && BeatAt(Rest(weather), n) == BeatAt(weather, n + 1)
  {
  }

  lemma ShownShifts(weather: seq<Beat>, n: nat)
    requires 0 < n
    ensures Shown(weather, n)[0] == SightUnder(Head(weather).outcome)
    ensures Shown(weather, n)[1..] == Shown(Rest(weather), n - 1)
    ensures NoCrash(weather, n) ==> !Head(weather).crash && NoCrash(Rest(weather), n - 1)
  {
    RestShifts(weather, 0);
    forall i | 0 <= i < n - 1 ensures BeatAt(Rest(weather), i) == BeatAt(weather, i + 1) { RestShifts(weather, i); }
    assert Shown(weather, n)[1..] == Shown(Rest(weather), n - 1);
    if NoCrash(weather, n) {
      assert !BeatAt(weather, 0).crash;
      forall i | 0 <= i < n - 1 ensures !BeatAt(Rest(weather), i).crash { assert !BeatAt(weather, i + 1).crash; }
    }
  }

  /** One look: an unusable one ends the pass with an error, any other counts as a reading. */
  lemma LookOnce(s: State, b: Beat)
    requires s.worker.Polling? && s.worker.todo != [] && !b.crash
    ensures var w, t := s.worker, Turn(s, b);
            t.cluster == Moved(s.cluster, b.env) &&
            t.worker == if Bad(SightUnder(b.outcome)) then Idle(Errored)
                        else AfterReading(w.app, w.hash, w.manifest, w.todo, w.seen, b.outcome.live, t.cluster.clock)
  {
    TurnAsStep(s, b);
    RunEnvKeepsWorker(s, b.env);
    RunEnvMoves(s, b.env);
    LookReply(Run(s, EnvEvents(b.env)), b.outcome);
  }

  lemma LookReply(s: State, o: Outcome)
    requires s.worker.Polling? && s.worker.todo != []
    ensures var w, t := s.worker, Step(s, Call(o));
            t.cluster == s.cluster &&
            t.worker == if Bad(SightUnder(o)) then Idle(Errored)
                        else AfterReading(w.app, w.hash, w.manifest, w.todo, w.seen, o.live, s.cluster.clock)
  {
    var w := s.worker;
    LookServed(s.cluster, NextCall(w), o);
    ResumeLook(w, o.live, s.cluster.clock);
  }

  lemma ResumeLook(w: Worker, live: Live, now: Time)
    requires w.Polling? && w.todo != []
    ensures Resume(w, Failure(Unavailable), now) == Idle(Errored)
    ensures Resume(w, if live.Missing? then Failure(NotFound) else GotLive(live), now) ==
            AfterReading(w.app, w.hash, w.manifest, w.todo, w.seen, live, now)
    ensures live.Uncomputable? ==>
              AfterReading(w.app, w.hash, w.manifest, w.todo, w.seen, live, now) == Idle(Errored)
  {
  }

  lemma LookServed(c: Cluster, r: Request, o: Outcome)
    requires r.ReadWorkload?
    ensures Serve(c, r, o) ==
            (c, if !o.fault.NoFault? then Failure(Unavailable)
                else if o.live.Missing? then Failure(NotFound) else GotLive(o.live))
  {
  }

  /** The i-th look is at the i-th workload, in the namespace it names or else in the target namespace. */
  ghost predicate LooksInOrder(s: State, weather: seq<Beat>, app: App, ws: seq<Doc>, n: nat)
    requires n <= |ws|
  {
    forall i :: 0 <= i < n ==>
      var d, w := ws[i], After(s, weather, i).worker;
      NextCall(w) == ReadWorkload(d, if d.Object? && d.namespace != "" then d.namespace else app.spec.namespace)
  }

  /** Readings of the first workloads, as they showed themselves. */
  predicate TakenDown(all: seq<Health.Reading>, seen: seq<Health.Reading>, ws: seq<Doc>, sights: seq<Sight>)
    requires |ws| == |sights|
  {
    && seen <= all && |all| <= |seen| + |ws|
    && forall i :: |seen| <= i < |all| ==> Taken(all[i], ws[i - |seen|], sights[i - |seen|])
  }

  predicate Taken(r: Health.Reading, d: Doc, s: Sight) {
    !Bad(s) && r == Health.Reading(d, s.live)
  }

  /** What the pass has come to: an error if the sweep of what was shown ends in one, and otherwise acting on exactly
      that sweep's assessment. */
  predicate Concludes(w: Worker, t: State, sights: seq<Sight>, all: seq<Health.Reading>)
    requires w.Polling? && |w.todo| == |sights|
  {
    var v := Sweep(w.todo, sights, Tally(w.seen));
    if v.Error? then t.worker == Idle(Errored)
    else TakenDown(all, w.seen, w.todo, sights) &&
         t.worker == Assess(w.app, w.hash, w.manifest, all, v.assessment, t.cluster.clock)
  }

  /** The first k calls of the pass are looks, and only the surroundings change the cluster meanwhile. */
  ghost predicate OnlyLooks(s: State, weather: seq<Beat>, k: nat)
    requires s.worker.Polling?
  {
    && 1 <= k <= |s.worker.todo| && LooksInOrder(s, weather, s.worker.app, s.worker.todo, k)
    && After(s, weather, k).cluster == MovedBy(s.cluster, weather, k)
    && Drive(s, weather) == Drive(After(s, weather, k), Remaining(weather, k))
  }

  ghost predicate Surveyed(s: State, weather: seq<Beat>, k: nat, all: seq<Health.Reading>)
    requires s.worker.Polling?
  {
    OnlyLooks(s, weather, k) && Concludes(s.worker, After(s, weather, k), Shown(weather, |s.worker.todo|), all)
  }

  /** The sweep, call by call, under any script without a crash. */
  lemma {:induction false} SweepUnderFaults(s: State, weather: seq<Beat>) returns (k: nat, all: seq<Health.Reading>)
    requires s.worker.Polling? && s.worker.todo != [] && Tally(s.worker.seen).grade != Failing
    requires NoCrash(weather, |s.worker.todo|)
    ensures Surveyed(s, weather, k, all)
    decreases |s.worker.todo|
  {
    var o := Head(weather).outcome;
    k, all := 1, s.worker.seen + [Health.Reading(s.worker.todo[0], o.live)];
    if Bad(SightUnder(o)) {
      LookFails(s, weather, all);
    } else {
      TallyMore(s.worker.seen, Health.Reading(s.worker.todo[0], o.live));
      if Tally(all).grade == Failing || s.worker.todo[1..] == [] {
        LookDecides(s, weather, all);
      } else {
        var u := NextLook(s, weather);
        var j, more := SweepUnderFaults(u, Rest(weather));
        Recombine(s, weather, u, j, more);
        k, all := j + 1, more;
      }
    }
  }

  lemma Recombine(s: State, weather: seq<Beat>, u: State, j: nat, all: seq<Health.Reading>)
    requires GoesOnTo(s.worker, Head(weather).outcome.live, u.worker)
    requires u == Turn(s, Head(weather)) && u.cluster == Moved(s.cluster, Head(weather).env)
    requires var sights := Shown(weather, |s.worker.todo|);
             sights[0] == Saw(Head(weather).outcome.live) && sights[1..] == Shown(Rest(weather), |u.worker.todo|)
    requires Surveyed(u, Rest(weather), j, all)
    ensures Surveyed(s, weather, j + 1, all)
  {
    LookedOn(s, weather, j);
    LaterTurns(s, weather, j);
    LookGoesOn(s, weather, u, Rest(weather), Head(weather).outcome.live, j, all);
  }

  /** A look after which the sweep goes on. */
  lemma NextLook(s: State, weather: seq<Beat>) returns (u: State)
    requires s.worker.Polling? && s.worker.todo != [] && NoCrash(weather, |s.worker.todo|)
    requires !Bad(SightUnder(Head(weather).outcome)) && s.worker.todo[1..] != []
    requires var more := s.worker.seen + [Health.Reading(s.worker.todo[0], Head(weather).outcome.live)];
             Tally(more).grade != Failing
    ensures u == Turn(s, Head(weather)) && u.cluster == Moved(s.cluster, Head(weather).env)
    ensures GoesOnTo(s.worker, Head(weather).outcome.live, u.worker)
    ensures NoCrash(Rest(weather), |s.worker.todo| - 1)
    ensures var sights := Shown(weather, |s.worker.todo|);
            sights[0] == Saw(Head(weather).outcome.live) && sights[1..] == Shown(Rest(weather), |s.worker.todo| - 1)
  {
    u := Turn(s, Head(weather));
    ShownShifts(weather, |s.worker.todo|);
    LookOnce(s, Head(weather));
    TallyMore(s.worker.seen, Health.Reading(s.worker.todo[0], Head(weather).outcome.live));
  }

  lemma LookFails(s: State, weather: seq<Beat>, all: seq<Health.Reading>)
    requires s.worker.Polling? && s.worker.todo != [] && NoCrash(weather, |s.worker.todo|)
    requires Bad(SightUnder(Head(weather).outcome))
    ensures Surveyed(s, weather, 1, all)
  {
    ShownShifts(weather, |s.worker.todo|);
    LookOnce(s, Head(weather));
    FirstLook(s, weather);
  }

  lemma LookDecides(s: State, weather: seq<Beat>, all: seq<Health.Reading>)
    requires s.worker.Polling? && s.worker.todo != [] && NoCrash(weather, |s.worker.todo|)
    requires !Bad(SightUnder(Head(weather).outcome))
    requires all == s.worker.seen + [Health.Reading(s.worker.todo[0], Head(weather).outcome.live)]
    requires Tally(all) == Absorb(Tally(s.worker.seen), Health.Reading(s.worker.todo[0], Head(weather).outcome.live))
    requires Tally(all).grade == Failing || s.worker.todo[1..] == []
    ensures Surveyed(s, weather, 1, all)
  {
    ShownShifts(weather, |s.worker.todo|);
    LookOnce(s, Head(weather));
    FirstLook(s, weather);
  }

  /** The first call is a look, and the pass goes on from there. */
  lemma FirstLook(s: State, weather: seq<Beat>)
    requires s.worker.Polling? && s.worker.todo != []
    ensures After(s, weather, 1) == Turn(s, Head(weather)) && LooksInOrder(s, weather, s.worker.app, s.worker.todo, 1)
    ensures MovedBy(s.cluster, weather, 1) == Moved(s.cluster, Head(weather).env)
    ensures Drive(s, weather) == Drive(Turn(s, Head(weather)), Remaining(weather, 1))
  {
    TurnDescends(s, Head(weather));
    OneTurn(s, weather);
    assert After(s, weather, 0) == s;
  }

  /** What the rest of the sweep comes to, the whole of it comes to. */
  lemma LookGoesOn(s: State, weather: seq<Beat>, u: State, rest: seq<Beat>, live: Live, j: nat,
                   all: seq<Health.Reading>)
    requires s.worker.Polling? && OnlyLooks(s, weather, j + 1) && GoesOnTo(s.worker, live, u.worker)
    requires After(s, weather, j + 1) == After(u, rest, j)
    requires var sights := Shown(weather, |s.worker.todo|);
             sights[0] == Saw(live) && sights[1..] == Shown(rest, |u.worker.todo|)
    requires Surveyed(u, rest, j, all)
    ensures Surveyed(s, weather, j + 1, all)
  {
    ConcludesLater(s.worker, u.worker, After(u, rest, j), Shown(weather, |s.worker.todo|), live, all);
  }

  /** The sweep goes on with the next workload. */
  predicate GoesOnTo(w: Worker, live: Live, v: Worker) {
    && w.Polling? && w.todo != [] && w.todo[1..] != [] && !live.Uncomputable?
    && var r := Health.Reading(w.todo[0], live);
       && v == Polling(w.app, w.hash, w.manifest, w.todo[1..], w.seen + [r])
       && Tally(w.seen + [r]) == Absorb(Tally(w.seen), r) && Tally(w.seen + [r]).grade != Failing
  }

  lemma LookedOn(s: State, weather: seq<Beat>, j: nat)
    requires GoesOnTo(s.worker, Head(weather).outcome.live, Turn(s, Head(weather)).worker)
    requires Turn(s, Head(weather)).cluster == Moved(s.cluster, Head(weather).env)
    requires OnlyLooks(Turn(s, Head(weather)), Rest(weather), j)
    ensures OnlyLooks(s, weather, j + 1)
  {
    FirstLook(s, weather);
    LaterTurns(s, weather, j);
    LooksShift(s, weather, s.worker.app, s.worker.todo, j);
  }

  lemma ConcludesLater(w: Worker, v: Worker, t: State, sights: seq<Sight>, live: Live, all: seq<Health.Reading>)
    requires GoesOnTo(w, live, v) && |w.todo| == |sights| && sights[0] == Saw(live)
    requires Concludes(v, t, sights[1..], all)
    ensures Concludes(w, t, sights, all)
  {
    SweepTurn(w.todo, sights, Tally(w.seen));
    if !Sweep(w.todo, sights, Tally(w.seen)).Error? { TakenShift(all, w.seen, w.todo, sights, live); }
  }

  lemma SweepTurn(ws: seq<Doc>, sights: seq<Sight>, a: Assessment)
    requires |ws| == |sights| && ws != [] && !Bad(sights[0])
    requires Absorb(a, Health.Reading(ws[0], sights[0].live)).grade != Failing
    ensures Sweep(ws, sights, a) == Sweep(ws[1..], sights[1..], Absorb(a, Health.Reading(ws[0], sights[0].live)))
  {
  }

  lemma LaterTurns(s: State, weather: seq<Beat>, n: nat)
    ensures After(s, weather, n + 1) == After(Turn(s, Head(weather)), Rest(weather), n)
    ensures Remaining(weather, n + 1) == Remaining(Rest(weather), n)
    ensures MovedBy(s.cluster, weather, n + 1) == MovedBy(Moved(s.cluster, Head(weather).env), Rest(weather), n)
  {
  }

  lemma OneTurn(s: State, weather: seq<Beat>)
    ensures After(s, weather, 1) == Turn(s, Head(weather)) && Remaining(weather, 1) == Rest(weather)
    ensures MovedBy(s.cluster, weather, 1) == Moved(s.cluster, Head(weather).env)
  {
    assert After(Turn(s, Head(weather)), Rest(weather), 0) == Turn(s, Head(weather));
    assert Remaining(Rest(weather), 0) == Rest(weather);
    assert MovedBy(Moved(s.cluster, Head(weather).env), Rest(weather), 0) == Moved(s.cluster, Head(weather).env);
  }

  lemma TallyMore(seen: seq<Health.Reading>, r: Health.Reading)
    ensures Tally(seen + [r]) == Absorb(Tally(seen), r)
  {
    assert (seen + [r])[..|seen|] == seen;
  }

  lemma LooksShift(s: State, weather: seq<Beat>, app: App, ws: seq<Doc>, n: nat)
    requires n < |ws| && s.worker.Polling? && s.worker.app == app && s.worker.todo == ws
    requires LooksInOrder(Turn(s, Head(weather)), Rest(weather), app, ws[1..], n)
    ensures LooksInOrder(s, weather, app, ws, n + 1)
  {
    var u := Turn(s, Head(weather));
    forall i | 0 <= i < n + 1
      ensures var d, w := ws[i], After(s, weather, i).worker;
              NextCall(w) ==
              ReadWorkload(d, if d.Object? && d.namespace != "" then d.namespace else app.spec.namespace)
    {
      if i > 0 {
        assert After(s, weather, i) == After(u, Rest(weather), i - 1);
        assert ws[1..][i - 1] == ws[i];
      }
    }
  }

  lemma TakenShift(all: seq<Health.Reading>, seen: seq<Health.Reading>, ws: seq<Doc>, sights: seq<Sight>, live: Live)
    requires |ws| == |sights| && ws != [] && sights[0] == Saw(live) && !live.Uncomputable?
    requires TakenDown(all, seen + [Health.Reading(ws[0], live)], ws[1..], sights[1..])
    ensures TakenDown(all, seen, ws, sights)
  {
    var r := Health.Reading(ws[0], live);
    var more := seen + [r];
    assert forall i :: 0 <= i < |more| ==> all[i] == more[i];
    assert all[|seen|] == more[|seen|] == r;
    assert seen <= all;
    forall i | |seen| <= i < |all| ensures Taken(all[i], ws[i - |seen|], sights[i - |seen|]) {
      if i > |seen| {
        assert Taken(all[i], ws[1..][i - |more|], sights[1..][i - |more|]);
        assert sights[1..][i - |more|] == sights[i - |seen|] && ws[1..][i - |more|] == ws[i - |seen|];
      }
    }
  }

  // ---------- from the release on ----------

  /** What a pass that gets to the release can see of it and its workloads: an error if the release cannot be fetched, a
      document does not decode, or the sweep ends in one. */
  function Visible(c: Cluster, rk: ReleaseKey, weather: seq<Beat>): Verdict {
    var d := Moved(c, Head(weather).env);
    if !Head(weather).outcome.fault.NoFault? || rk !in d.releases then Error
    else
      match Workloads(Latest(d.releases[rk]).manifest)
      case None => Error
      case Some(ws) =>
        if ws == [] then Verdict(NO_WORKLOADS) else Sweep(ws, Shown(Rest(weather), |ws|), ALL_CURRENT)
  }

  lemma FetchTurn(s: State, b: Beat)
    requires s.worker.Fetching? && !b.crash
    ensures var w, t, d := s.worker, Turn(s, b), Moved(s.cluster, b.env);
            t.cluster == d &&
            t.worker == if !b.outcome.fault.NoFault? || ReleaseOf(w.app) !in d.releases then Idle(Errored)
                        else AfterFetch(w.app, w.hash, Latest(d.releases[ReleaseOf(w.app)]).manifest, d.clock)
  {
    TurnAsStep(s, b);
    RunEnvKeepsWorker(s, b.env);
    RunEnvMoves(s, b.env);
    FetchServed(Moved(s.cluster, b.env), ReleaseOf(s.worker.app), b.outcome);
  }

  lemma FetchServed(c: Cluster, rk: ReleaseKey, o: Outcome)
    ensures Serve(c, HelmGet(rk), o) ==
            (c, if !o.fault.NoFault? then Failure(Unavailable)
                else if rk !in c.releases then Failure(NotFound)
                else GotRelease(|c.releases[rk]|, Latest(c.releases[rk]).manifest))
  {
  }

  lemma FetchFirst(s: State, weather: seq<Beat>)
    requires s.worker.Fetching?
    ensures After(s, weather, 1) == Turn(s, Head(weather)) && Remaining(weather, 1) == Rest(weather)
    ensures MovedBy(s.cluster, weather, 1) == Moved(s.cluster, Head(weather).env)
    ensures Drive(s, weather) == Drive(Turn(s, Head(weather)), Rest(weather))
  {
    TurnDescends(s, Head(weather));
    OneTurn(s, weather);
  }

  /** The pass up to its verdict: nothing but the surroundings has changed the cluster, and the pass has ended with an
      error or acts on the assessment. */
  ghost predicate Judges(s: State, weather: seq<Beat>, k: nat, m: Manifest, all: seq<Health.Reading>, v: Verdict)
    requires s.worker.Fetching?
  {
    var w, t := s.worker, After(s, weather, k);
    && t.cluster == MovedBy(s.cluster, weather, k)
    && Drive(s, weather) == Drive(t, Remaining(weather, k))
    && t.worker == if v.Error? then Idle(Errored)
                   else Assess(w.app, w.hash, m, all, v.assessment, t.cluster.clock)
  }

  /** A health check under any script without a crash acts on what could be seen. If the release or a workload that
      matters could not be read, it ends with an error and leaves everything as it was: no status, no marker, no
      rollback. */
  lemma HealthUnderFaults(s: State, weather: seq<Beat>)
    returns (k: nat, m: Manifest, all: seq<Health.Reading>)
    requires s.worker.Fetching? && forall n: nat :: NoCrash(weather, n)
    ensures var v := Visible(s.cluster, ReleaseKey(s.worker.app.spec.namespace, s.worker.app.key.name), weather);
            Judges(s, weather, k, m, all, v) &&
            (v.Error? ==> Drive(s, weather).0.worker == Idle(Errored) &&
                          Drive(s, weather).0.cluster == MovedBy(s.cluster, weather, k))
  {
    var w, d := s.worker, Moved(s.cluster, Head(weather).env);
    k, m, all := 1, [], [];
    assert NoCrash(weather, 1) && !BeatAt(weather, 0).crash;
    RestShifts(weather, 0);
    FetchTurn(s, Head(weather));
    FetchFirst(s, weather);
    if Head(weather).outcome.fault.NoFault? && ReleaseOf(w.app) in d.releases {
      m := Latest(d.releases[ReleaseOf(w.app)]).manifest;
      if Workloads(m).Some? && Workloads(m).value != [] {
        ShownShifts(weather, |Workloads(m).value| + 1);
        k, all := SurveyJudges(s, weather, Turn(s, Head(weather)), m, Workloads(m).value);
      }
    }
  }

  lemma SurveyJudges(s: State, weather: seq<Beat>, u: State, m: Manifest, ws: seq<Doc>)
    returns (k: nat, all: seq<Health.Reading>)
    requires s.worker.Fetching? && u == Turn(s, Head(weather)) && u.cluster == Moved(s.cluster, Head(weather).env)
    requires ws != [] && u.worker == Polling(s.worker.app, s.worker.hash, m, ws, [])
    requires Drive(s, weather) == Drive(u, Rest(weather)) && NoCrash(Rest(weather), |ws|)
    ensures Judges(s, weather, k, m, all, Sweep(ws, Shown(Rest(weather), |ws|), ALL_CURRENT))
  {
    var j, more := SweepUnderFaults(u, Rest(weather));
    LaterTurns(s, weather, j);
    k, all := j + 1, more;
  }
}
