/** The operator and its surroundings as one state machine: cluster, the single worker, and a log of what happened.
    A run is any sequence of events: steps of users and of time, passes beginning, calls with any outcome, crashes. */
module Machine {
  import opened Api
  import opened Server
  import opened Health
  import opened Controller

  /** What the properties of whole runs are about. */
  datatype Entry =
    | HelmApplied(uid: nat, replaced: Option<Manifest>)                       // an install (None) or upgrade worked
    | RollbackIssued(uid: nat, restored: Option<Manifest>)                    // a rollback was called; None: no effect
    | StatusWritten(uid: nat, generation: nat, status: Status, cause: Cause)  // a status write took effect
    | FoundUnhealthy(uid: nat, at: Time, grade: Grade)                        // a pass entered the rollback path
    | SpecEdited(uid: nat)
    | SecretEdited(readers: set<nat>)                                         // uids of the Applications referencing it

  datatype State = State(cluster: Cluster, worker: Worker, log: seq<Entry>)

  datatype Event =
    | Env(step: EnvStep)
    | Begin(key: AppKey)
    | Call(outcome: Outcome)
    | Crash

  // ---------- the log ----------

  predicate References(app: App, secret: SecretKey) {
    app.spec.valuesRef.Some? && SecretKey(app.key.namespace, app.spec.valuesRef.value.name) == secret
  }

  function Readers(apps: map<AppKey, App>, secret: SecretKey): set<nat> {
    set k | k in apps && References(apps[k], secret) :: apps[k].uid
  }

  function EnvEntries(c: Cluster, e: EnvStep): seq<Entry> {
    match e
    case EditSpec(key, spec) => if key in c.apps && c.apps[key].spec != spec then [SpecEdited(c.apps[key].uid)] else []
    case PutSecret(secret, _) => [SecretEdited(Readers(c.apps, secret))]
    case DropSecret(secret) => [SecretEdited(Readers(c.apps, secret))]
    case _ => []
  }

  /** The assessment that a reply completes, if it is the last one the sweep needs. */
  function Completed(w: Worker, a: Response): Option<Assessment> {
    if w.Polling? && w.todo != [] && ((a.GotLive? && !a.live.Uncomputable?) || a == Failure(NotFound)) then
      var live := if a.GotLive? then a.live else Missing;
      var t := Tally(w.seen + [Health.Reading(w.todo[0], live)]);
      if t.grade == Failing || w.todo[1..] == [] then Some(t) else None
    else None
  }

  /** The manifest a release runs now. */
  function Running(c: Cluster, rk: ReleaseKey): Option<Manifest> {
    if rk in c.releases then Some(Latest(c.releases[rk]).manifest) else None
  }

  function Restored(c: Cluster, rk: ReleaseKey, o: Outcome): Option<Manifest> {
    if Executes(c, HelmRollback(rk), o) then Some(c.releases[rk][|c.releases[rk]| - 2].manifest) else None
  }

  function CallEntries(s: State, o: Outcome): seq<Entry> {
    var c, r := s.cluster, NextCall(s.worker);
    match s.worker
    case Applying(app, _, _) => if Executes(c, r, o) then [HelmApplied(app.uid, Running(c, ReleaseOf(app)))] else []
    case RollingBack(app) => [RollbackIssued(app.uid, Restored(c, ReleaseOf(app), o))]
    case Persisting(app, status, cause, _) =>
      if Executes(c, r, o) then [StatusWritten(app.uid, c.apps[app.key].generation, status, cause)] else []
    case WritingAhead(app, status) =>
      if Executes(c, r, o) then [StatusWritten(app.uid, c.apps[app.key].generation, status, Marker)] else []
    case Polling(app, _, _, _, _) =>
      var a := Completed(s.worker, Serve(c, r, o).1);
      if a.Some? && Unhealthy(app, a.value.grade, c.clock) then
        [FoundUnhealthy(app.uid, c.clock, a.value.grade)]
      else []
    case _ => []
  }

  // ---------- steps and runs ----------

  function Step(s: State, e: Event): State {
    match e
    case Env(step) => s.(cluster := Environment(s.cluster, step), log := s.log + EnvEntries(s.cluster, step))
    case Begin(key) => if s.worker.Idle? then s.(worker := Worker.Reading(key)) else s
    case Crash => if s.worker.Idle? then s else s.(worker := Idle(Crashed))
    case Call(o) =>
      if s.worker.Idle? then s
      else
        var (after, a) := Serve(s.cluster, NextCall(s.worker), o);
        State(after, Resume(s.worker, a, after.clock), s.log + CallEntries(s, o))
  }

  /** What an event adds to the log: at most one entry. */
  function Added(s: State, e: Event): seq<Entry> {
    if e.Env? then EnvEntries(s.cluster, e.step)
    else if e.Call? && !s.worker.Idle? then CallEntries(s, e.outcome)
    else []
  }

  lemma StepLogs(s: State, e: Event)
    ensures Step(s, e).log == s.log + Added(s, e) && |Added(s, e)| <= 1
  {
    assert s.log + [] == s.log;
  }

  function Run(s: State, events: seq<Event>): State
    decreases |events|
  {
    if events == [] then s else Run(Step(s, events[0]), events[1..])
  }

  lemma {:induction false} RunAppend(s: State, a: seq<Event>, b: seq<Event>)
    ensures Run(s, a + b) == Run(Run(s, a), b)
    decreases |a|
  {
    if a == [] {
      assert a + b == b;
    } else {
      assert (a + b)[1..] == a[1..] + b;
      RunAppend(Step(s, a[0]), a[1..], b);
    }
  }

  lemma TwoEvents(s: State, d: Event, e: Event)
    ensures Run(s, [d, e]) == Step(Step(s, d), e)
  {
    assert [d, e][1..] == [e] && [e][1..] == [];
    assert Run(Step(s, d), [e]) == Run(Step(Step(s, d), e), []);
  }

  /** A cluster no Application has been stored in yet; namespaces and Secrets of users may exist. */
  predicate Initial(s: State) {
    && s.cluster.apps == map[]
    && s.cluster.archive == []
    && s.cluster.releases == map[]
    && (forall n :: n in s.cluster.namespaces ==> !s.cluster.namespaces[n])
    && s.worker == Idle(NotStarted)
    && s.log == []
  }

  // ---------- one pass driven by a script ----------

  /** What happens at one call: steps of the surroundings before it, then a crash, or the call with its outcome. */
  datatype Beat = Beat(env: seq<EnvStep>, crash: bool, outcome: Outcome)

  const CALM := Outcome(NoFault, None, None, [], Missing)
  const QUIET := Beat([], false, CALM)

  function EnvEvents(env: seq<EnvStep>): (events: seq<Event>)
    ensures |events| == |env|
    ensures forall i :: 0 <= i < |env| ==> events[i] == Env(env[i])
  {
    seq(|env|, i requires 0 <= i < |env| => Env(env[i]))
  }

  function BeatEvents(b: Beat): seq<Event> {
    EnvEvents(b.env) + [if b.crash then Crash else Call(b.outcome)]
  }

  function Turn(s: State, b: Beat): State {
    Run(s, BeatEvents(b))
  }

  lemma {:induction false} RunEnvKeepsWorker(s: State, env: seq<EnvStep>)
    ensures Run(s, EnvEvents(env)).worker == s.worker
    decreases |env|
  {
    if env != [] {
      assert EnvEvents(env)[1..] == EnvEvents(env[1..]);
      RunEnvKeepsWorker(Step(s, Env(env[0])), env[1..]);
    }
  }

  lemma TurnAsStep(s: State, b: Beat)
    ensures Turn(s, b) == Step(Run(s, EnvEvents(b.env)), if b.crash then Crash else Call(b.outcome))
  {
    var last := if b.crash then Crash else Call(b.outcome);
    RunAppend(s, EnvEvents(b.env), [last]);
    assert [last][1..] == [];
  }

  lemma TurnDescends(s: State, b: Beat)
    requires !s.worker.Idle?
    ensures Below(Turn(s, b).worker, s.worker)
  {
    TurnAsStep(s, b);
    RunEnvKeepsWorker(s, b.env);
    var t := Run(s, EnvEvents(b.env));
    if !b.crash {
      var (after, a) := Serve(t.cluster, NextCall(t.worker), b.outcome);
      ResumeDescends(t.worker, a, after.clock);
    }
  }

  function Head(weather: seq<Beat>): Beat { if weather == [] then QUIET else weather[0] }
  function Rest(weather: seq<Beat>): seq<Beat> { if weather == [] then [] else weather[1..] }

  /** Runs the worker's pass to its end, one beat of the script per call. */
  ghost function Drive(s: State, weather: seq<Beat>): (State, seq<Beat>)
    decreases Stage(s.worker), Todo(s.worker)
  {
    if s.worker.Idle? then (s, weather)
    else
      TurnDescends(s, Head(weather));
      Drive(Turn(s, Head(weather)), Rest(weather))
  }

  ghost function DriveEvents(s: State, weather: seq<Beat>): seq<Event>
    decreases Stage(s.worker), Todo(s.worker)
  {
    if s.worker.Idle? then []
    else
      TurnDescends(s, Head(weather));
      BeatEvents(Head(weather)) + DriveEvents(Turn(s, Head(weather)), Rest(weather))
  }

  /** A driven pass is a run of the machine, and it leaves the worker idle. */
  lemma {:induction false} DriveIsRun(s: State, weather: seq<Beat>)
    ensures Drive(s, weather).0 == Run(s, DriveEvents(s, weather))
    ensures Drive(s, weather).0.worker.Idle?
    decreases Stage(s.worker), Todo(s.worker)
  {
    if !s.worker.Idle? {
      var b := Head(weather);
      TurnDescends(s, b);
      DriveIsRun(Turn(s, b), Rest(weather));
      RunAppend(s, BeatEvents(b), DriveEvents(Turn(s, b), Rest(weather)));
    }
  }

  /** So is a pass that begins between passes. */
  lemma PassIsRun(s: State, key: AppKey, weather: seq<Beat>) returns (events: seq<Event>)
    ensures Drive(Step(s, Begin(key)), weather).0 == Run(s, events)
    ensures events != [] && events[0] == Begin(key)
  {
    var rest := DriveEvents(Step(s, Begin(key)), weather);
    events := [Begin(key)] + rest;
    DriveIsRun(Step(s, Begin(key)), weather);
    assert events[1..] == rest;
  }
}
