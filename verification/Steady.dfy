/** Passes that nothing disturbs: no faults, no staleness, and a nature that renders each source and shows each
    workload always in the same way. */
module Steady {
  import opened Api
  import opened Server
  import opened Health
  import opened Controller
  import opened Machine

  datatype Nature = Nature(render: Source -> Manifest, health: (Manifest, Doc) -> Live)

  function OutcomeFor(w: Worker, nature: Nature): Outcome {
    match w
    case Applying(app, values, _) => CALM.(manifest := nature.render(SourceOf(app.spec, values)))
    case Polling(_, _, manifest, todo, _) =>
      if todo == [] then CALM else CALM.(live := nature.health(manifest, todo[0]))
    case _ => CALM
  }

  /** The rest of an undisturbed pass. */
  ghost function Quiet(c: Cluster, w: Worker, nature: Nature): (Cluster, Worker)
    decreases Stage(w), Todo(w)
  {
    if w.Idle? then (c, w)
    else
      var (d, a) := Serve(c, NextCall(w), OutcomeFor(w, nature));
      ResumeDescends(w, a, d.clock);
      Quiet(d, Resume(w, a, d.clock), nature)
  }

  function QuietEvent(w: Worker, nature: Nature): Event { Call(OutcomeFor(w, nature)) }

  lemma QuietOnce(c: Cluster, w: Worker, nature: Nature)
    requires !w.Idle?
    ensures var (d, a) := Serve(c, NextCall(w), OutcomeFor(w, nature));
            Quiet(c, w, nature) == Quiet(d, Resume(w, a, d.clock), nature)
  {
    var (d, a) := Serve(c, NextCall(w), OutcomeFor(w, nature));
    ResumeDescends(w, a, d.clock);
  }

  /** What an undisturbed pass logs. */
  ghost function QuietLog(c: Cluster, w: Worker, nature: Nature): seq<Entry>
    decreases Stage(w), Todo(w)
  {
    if w.Idle? then []
    else
      var (d, a) := Serve(c, NextCall(w), OutcomeFor(w, nature));
      ResumeDescends(w, a, d.clock);
      CallEntries(State(c, w, []), OutcomeFor(w, nature)) + QuietLog(d, Resume(w, a, d.clock), nature)
  }

  lemma QuietLogOnce(c: Cluster, w: Worker, nature: Nature)
    requires !w.Idle?
    ensures var (d, a) := Serve(c, NextCall(w), OutcomeFor(w, nature));
            QuietLog(c, w, nature) ==
            CallEntries(State(c, w, []), OutcomeFor(w, nature)) + QuietLog(d, Resume(w, a, d.clock), nature)
  {
    var (d, a) := Serve(c, NextCall(w), OutcomeFor(w, nature));
    ResumeDescends(w, a, d.clock);
  }

  lemma GetReply(c: Cluster, rk: ReleaseKey)
    requires rk in c.releases
    ensures Serve(c, HelmGet(rk), CALM) == (c, GotRelease(|c.releases[rk]|, Latest(c.releases[rk]).manifest))
  {
  }

  /** An undisturbed pass, log and all. */
  ghost function QuietState(s: State, nature: Nature): State {
    var q := Quiet(s.cluster, s.worker, nature);
    State(q.0, q.1, s.log + QuietLog(s.cluster, s.worker, nature))
  }

  /** It is a run of the machine. */
  lemma {:induction false} QuietStateIsRun(s: State, nature: Nature) returns (events: seq<Event>)
    ensures Run(s, events) == QuietState(s, nature)
    decreases Stage(s.worker), Todo(s.worker)
  {
    if s.worker.Idle? {
      events := [];
      assert s.log + [] == s.log;
    } else {
      var e := QuietEvent(s.worker, nature);
      QuietStep(s, nature);
      var more := QuietStateIsRun(Step(s, e), nature);
      events := [e] + more;
      assert events[1..] == more;
    }
  }

  lemma QuietStep(s: State, nature: Nature)
    requires !s.worker.Idle?
    ensures QuietState(s, nature) == QuietState(Step(s, QuietEvent(s.worker, nature)), nature)
    ensures Below(Step(s, QuietEvent(s.worker, nature)).worker, s.worker)
  {
    var o := OutcomeFor(s.worker, nature);
    var (d, a) := Serve(s.cluster, NextCall(s.worker), o);
    ResumeDescends(s.worker, a, d.clock);
    var rest := QuietLog(d, Resume(s.worker, a, d.clock), nature);
    EntriesIgnoreLog(s, o);
    assert (s.log + CallEntries(s, o)) + rest == s.log + (CallEntries(s, o) + rest);
  }

  lemma EntriesIgnoreLog(s: State, o: Outcome)
    ensures CallEntries(s, o) == CallEntries(State(s.cluster, s.worker, []), o)
  {
  }

  // ---------- the sweep, as the machine makes it ----------

  function Sights(m: Manifest, ws: seq<Doc>, nature: Nature): (sights: seq<Sight>)
    ensures |sights| == |ws|
    ensures forall i :: 0 <= i < |ws| ==> sights[i] == Saw(nature.health(m, ws[i]))
  {
    seq(|ws|, i requires 0 <= i < |ws| => Saw(nature.health(m, ws[i])))
  }

  /** Polling workload by workload comes to what the sweep over all of them comes to. */
  lemma {:induction false} PollingIsSweep(c: Cluster, app: App, hash: Hash, m: Manifest, todo: seq<Doc>,
                                          seen: seq<Health.Reading>, nature: Nature)
    returns (all: seq<Health.Reading>)
    requires todo != [] && Tally(seen).grade != Failing
    ensures var q := Quiet(c, Polling(app, hash, m, todo, seen), nature);
            var v := Sweep(todo, Sights(m, todo, nature), Tally(seen));
            q == if v.Error? then (c, Idle(Errored))
                 else Quiet(c, Assess(app, hash, m, all, v.assessment, c.clock), nature)
    ensures seen <= all && |all| <= |seen| + |todo|
    ensures forall i :: |seen| <= i < |all| ==>
              all[i] == Health.Reading(todo[i - |seen|], nature.health(m, todo[i - |seen|]))
    decreases |todo|
  {
    var live := nature.health(m, todo[0]);
    var w := Polling(app, hash, m, todo, seen);
    PollOnce(c, app, hash, m, todo, seen, nature);
    all := seen;
    if !live.Uncomputable? {
      var more := seen + [Health.Reading(todo[0], live)];
      assert more[..|more| - 1] == seen;
      assert Tally(more) == Absorb(Tally(seen), Health.Reading(todo[0], live));
      assert Sights(m, todo, nature)[1..] == Sights(m, todo[1..], nature);
      all := more;
      if Tally(more).grade != Failing && todo[1..] != [] {
        all := PollingIsSweep(c, app, hash, m, todo[1..], more, nature);
      }
    }
  }

  lemma PollOnce(c: Cluster, app: App, hash: Hash, m: Manifest, todo: seq<Doc>, seen: seq<Health.Reading>,
                 nature: Nature)
    requires todo != []
    ensures Quiet(c, Polling(app, hash, m, todo, seen), nature) ==
            Quiet(c, AfterReading(app, hash, m, todo, seen, nature.health(m, todo[0]), c.clock), nature)
  {
  }

  /** What an undisturbed pass makes of a release with this manifest; None when it cannot tell. */
  function HealthOf(m: Manifest, nature: Nature): Option<Assessment> {
    match Workloads(m)
    case None => None
    case Some(ws) =>
      if ws == [] then Some(NO_WORKLOADS)
      else
        match Sweep(ws, Sights(m, ws, nature), ALL_CURRENT)
        case Error => None
        case Verdict(a) => Some(a)
  }

  /** The health an Application's release has now. */
  function Outlook(c: Cluster, app: App, nature: Nature): Option<Assessment> {
    if ReleaseOf(app) in c.releases then HealthOf(Latest(c.releases[ReleaseOf(app)]).manifest, nature) else None
  }

  lemma QuietFetch(c: Cluster, app: App, hash: Hash, nature: Nature) returns (m: Manifest, seen: seq<Health.Reading>)
    ensures var q, a := Quiet(c, Fetching(app, hash), nature), Outlook(c, app, nature);
            q == if a.None? then (c, Idle(Errored)) else Quiet(c, Assess(app, hash, m, seen, a.value, c.clock), nature)
    ensures ReleaseOf(app) in c.releases ==> m == Latest(c.releases[ReleaseOf(app)]).manifest
    ensures forall i :: 0 <= i < |seen| ==> seen[i].live == nature.health(m, seen[i].workload)
  {
    FetchOnce(c, app, hash, nature);
    m, seen := [], [];
    if ReleaseOf(app) in c.releases {
      m := Latest(c.releases[ReleaseOf(app)]).manifest;
      if Workloads(m).Some? && Workloads(m).value != [] {
        seen := PollingIsSweep(c, app, hash, m, Workloads(m).value, [], nature);
      }
    }
  }

  lemma FetchOnce(c: Cluster, app: App, hash: Hash, nature: Nature)
    ensures Quiet(c, Fetching(app, hash), nature) ==
            if ReleaseOf(app) in c.releases then
              Quiet(c, AfterFetch(app, hash, Latest(c.releases[ReleaseOf(app)]).manifest, c.clock), nature)
            else (c, Idle(Errored))
  {
  }

  /** The status a pass acts on is the worst of the states of the release's workloads, empty releases included. */
  lemma HealthIsWorst(m: Manifest, ws: seq<Doc>, nature: Nature)
    requires Workloads(m) == Some(ws)
    ensures HealthOf(m, nature).Some? ==> HealthOf(m, nature).value.grade == Worst(All(Sights(m, ws, nature)))
  {
    SweepIsWorst(ws, Sights(m, ws, nature));
  }

  // ---------- manifests put together and taken apart ----------

  /** A nature in which a workload looks the same whatever manifest it is deployed with. */
  function Uniform(render: Source -> Manifest, live: Doc -> Live): Nature {
    Nature(render, (m: Manifest, d: Doc) => live(d))
  }

  /** An empty release is what the sweep makes of no workloads. */
  lemma HealthIsSweep(m: Manifest, ws: seq<Doc>, nature: Nature)
    requires Workloads(m) == Some(ws)
    ensures var v := Sweep(ws, Sights(m, ws, nature), ALL_CURRENT);
            (HealthOf(m, nature).Some? <==> v.Verdict?) &&
            (v.Verdict? ==> HealthOf(m, nature).value.grade == v.assessment.grade)
  {
  }

  /** The health of two manifests deployed together is the worse of theirs. */
  lemma HealthOfConcat(a: Manifest, b: Manifest, render: Source -> Manifest, live: Doc -> Live)
    requires HealthOf(a, Uniform(render, live)).Some? && HealthOf(b, Uniform(render, live)).Some?
    ensures var n := Uniform(render, live);
            HealthOf(a + b, n).Some? &&
            HealthOf(a + b, n).value.grade == Worse(HealthOf(a, n).value.grade, HealthOf(b, n).value.grade)
  {
    var n := Uniform(render, live);
    var u, v := Workloads(a).value, Workloads(b).value;
    WorkloadsConcat(a, b);
    assert Sights(a + b, u + v, n) == Sights(a, u, n) + Sights(b, v, n);
    HealthIsSweep(a, u, n);
    HealthIsSweep(b, v, n);
    HealthIsSweep(a + b, u + v, n);
    SweepOfConcat(u, Sights(a, u, n), v, Sights(b, v, n));
  }

  /** The order of a manifest's documents makes no difference to its health; and if every workload's status can be
      computed, none of the orders ends in an error. */
  lemma HealthOfPermutation(m: Manifest, m': Manifest, render: Source -> Manifest, live: Doc -> Live)
    requires multiset(m) == multiset(m')
    ensures var n := Uniform(render, live);
            HealthOf(m, n).Some? && HealthOf(m', n).Some? ==> HealthOf(m, n).value.grade == HealthOf(m', n).value.grade
    ensures var n := Uniform(render, live);
            Workloads(m).Some? && (forall d :: d in Workloads(m).value ==> !live(d).Uncomputable?) ==>
              HealthOf(m, n).Some? && HealthOf(m', n).Some?
  {
    var n := Uniform(render, live);
    WorkloadsPermutation(m, m');
    if Workloads(m).Some? {
      var ws, ws' := Workloads(m).value, Workloads(m').value;
      SightsOf(m, ws, render, live);
      SightsOf(m', ws', render, live);
      assert forall d :: d in ws <==> d in multiset(ws);
      assert forall d :: d in ws' <==> d in multiset(ws');
      HealthIsSweep(m, ws, n);
      HealthIsSweep(m', ws', n);
      SweepPermutation(ws, Sights(m, ws, n), ws', Sights(m', ws', n));
    }
  }

  lemma SightsOf(m: Manifest, ws: seq<Doc>, render: Source -> Manifest, live: Doc -> Live)
    ensures All(Sights(m, ws, Uniform(render, live))) == set d | d in ws :: Saw(live(d))
  {
    var sights := Sights(m, ws, Uniform(render, live));
    forall d | d in ws ensures Saw(live(d)) in sights {
      var i :| 0 <= i < |ws| && ws[i] == d;
      assert sights[i] == Saw(live(d));
    }
  }
}
