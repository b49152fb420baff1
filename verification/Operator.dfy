/** The operator's code over a mutable client: internal/controller and internal/helm, in their own form.
    Every method is proved to move the cluster exactly as the machine of module Machine does. */
module Operator {
  import opened Api
  import opened Server
  import opened Health
  import opened Controller
  import opened Machine
  import opened Conditions
  import opened Metrics

  /** The operator's connection to the cluster. A script of beats decides what happens at each call. After a
      crash the process is gone: dead is set, and nothing the rest of the pass does has any effect. */
  class Client {
    var cluster: Cluster
    var weather: seq<Beat>
    var dead: bool
    ghost var worker: Worker
    ghost var log: seq<Entry>
    /** Where the machine takes the current pass, and what is left of the script then. */
    ghost var fate: (State, seq<Beat>)

    ghost function Situation(): State reads this { State(cluster, worker, log) }

    ghost predicate Valid() reads this {
      && (dead ==> worker.Idle?)
      && forall s, w {:trigger Drive(s, w)} :: s == Situation() && w == weather ==> Drive(s, w) == fate
    }

    /** The pass is at this point of the machine, unless the process is gone. */
    ghost predicate At(w: Worker) reads this { Valid() && (!dead ==> worker == w) }

    /** The pass has resumed with this reply, unless the process is gone. */
    ghost predicate Reached(from: Worker, a: Response) reads this { At(Resume(from, a, Now())) }

    function Now(): Time reads this { cluster.clock }

    constructor (cluster: Cluster, weather: seq<Beat>)
      ensures Valid() && !dead
      ensures Situation() == State(cluster, Idle(NotStarted), []) && this.weather == weather
    {
      this.cluster, this.weather, this.dead := cluster, weather, false;
      worker, log := Idle(NotStarted), [];
      fate := (State(cluster, Idle(NotStarted), []), weather);
    }

    method Begin(key: AppKey)
      requires worker.Idle?
      modifies this
      ensures !dead && Valid()
      ensures worker == Worker.Reading(key)
      ensures fate == Drive(Step(old(Situation()), Machine.Begin(key)), old(weather))
    {
      dead := false;
      worker := Worker.Reading(key);
      fate := Drive(Situation(), weather);
    }

    method Play(env: seq<EnvStep>)
      modifies this`cluster, this`log
      ensures Situation() == Run(old(Situation()), EnvEvents(env))
    {
      for i := 0 to |env|
        invariant Situation() == Run(old(Situation()), EnvEvents(env[..i]))
      {
        log := log + EnvEntries(cluster, env[i]);
        cluster := Environment(cluster, env[i]);
        assert EnvEvents(env[..i + 1]) == EnvEvents(env[..i]) + [Env(env[i])];
        RunAppend(old(Situation()), EnvEvents(env[..i]), [Env(env[i])]);
        assert [Env(env[i])][1..] == [];
      }
      assert env[..|env|] == env;
    }

    /** One call. The reply is what the machine resumes with. */
    method Call(r: Request) returns (a: Response)
      requires Valid()
      requires !dead ==> !worker.Idle? && NextCall(worker) == r
      modifies this
      ensures fate == old(fate)
      ensures (old(dead) ==> dead) && (dead ==> a == Failure(Unavailable))
      ensures Fits(r, a)
      ensures Reached(old(worker), a)
    {
      a := Failure(Unavailable);
      if !dead {
        var beat := Head(weather);
        weather := Rest(weather);
        TurnAsStep(Situation(), beat);
        RunEnvKeepsWorker(Situation(), beat.env);
        TurnDescends(Situation(), beat);
        Play(beat.env);
        if beat.crash {
          dead := true;
          worker := Idle(Crashed);
        } else {
          log := log + CallEntries(Situation(), beat.outcome);
          ServeFits(cluster, r, beat.outcome);
          var served := Serve(cluster, r, beat.outcome);
          cluster, a := served.0, served.1;
          worker := Resume(worker, a, cluster.clock);
        }
        assert Situation() == Turn(old(Situation()), beat);
        assert Drive(old(Situation()), old(weather)) == Drive(Situation(), weather);
      }
    }
  }

  /** The controller's in-memory copy of an Application, whose status the methods below change in place. */
  class Application {
    var key: AppKey
    var uid: nat
    var rv: nat
    var generation: nat
    var spec: Spec
    var deleting: bool
    var finalizer: bool
    var status: StatusRecord

    function Value(): App reads this { App(key, uid, rv, generation, spec, deleting, finalizer, Stored(status)) }

    constructor (app: App)
      ensures Value() == app
    {
      key, uid, rv, generation := app.key, app.uid, app.rv, app.generation;
      spec, deleting, finalizer, status := app.spec, app.deleting, app.finalizer, Loaded(app.status);
      LoadedIsStored(app.status);
    }

    /** What a successful update leaves in the caller's object. */
    method Refresh(app: App)
      modifies this
      ensures Value() == app
    {
      key, uid, rv, generation := app.key, app.uid, app.rv, app.generation;
      spec, deleting, finalizer, status := app.spec, app.deleting, app.finalizer, Loaded(app.status);
      LoadedIsStored(app.status);
    }

    /** Upserts a condition: the entry of this type is found and overwritten in place, or a new one appended. */
    method Condition(t: ConditionType, holds: bool, reason: string, message: Text, now: Time)
      modifies this`status
      ensures Stored(status) == SetCondition(old(Stored(status)), generation, t, holds, reason, message, now)
      ensures SameTypes(old(status.conditions), status.conditions)
    {
      var list := status.conditions;
      var i := 0;
      while i < |list| && list[i].t != t
        invariant 0 <= i <= |list|
        invariant forall j :: 0 <= j < i ==> list[j].t != t
      {
        i := i + 1;
      }
      if i == |list| {
        AppendIsUpdate(list, t, Api.Condition(holds, reason, message, generation, now));
        status := status.(conditions := list + [Listed(t, Api.Condition(holds, reason, message, generation, now))]);
      } else {
        var transition := if list[i].condition.holds == holds then list[i].condition.transition else now;
        OverwriteIsUpdate(list, i, Api.Condition(holds, reason, message, generation, transition));
        status := status.(
          conditions := list[i := Listed(t, Api.Condition(holds, reason, message, generation, transition))]);
      }
    }
  }

  /** internal/helm: operations on one release, each one or two calls. */
  class HelmManager {
    const client: Client

    constructor (client: Client)
      ensures this.client == client
    {
      this.client := client;
    }

    method ReleaseExists(rk: ReleaseKey) returns (installed: bool, err: Option<Error>)
      requires client.Valid()
      requires !client.dead ==> !client.worker.Idle? && NextCall(client.worker) == HelmHistory(rk)
      modifies client
      ensures client.fate == old(client.fate)
      ensures (old(client.dead) ==> client.dead) && (client.dead ==> err.Some?)
      ensures client.Reached(old(client.worker), if err.Some? then Failure(err.value) else GotHistory(installed))
    {
      var a := client.Call(HelmHistory(rk));
      if a.Failure? { return false, Some(a.error); }
      return a.found, None;
    }

    /** Locates and loads the chart. */
    method LoadChart(app: App, values: Option<string>) returns (err: Option<Error>)
      requires client.At(LoadingChart(app, values))
      modifies client
      ensures client.fate == old(client.fate)
      ensures (old(client.dead) ==> client.dead) && (client.dead ==> err.Some?)
      ensures client.At(
                match err
                case None => CheckingHistory(app, values)
                case Some(e) => Fail(app, "HelmError", Because("load chart", app.spec.chart, e), client.Now()))
    {
      var a := client.Call(Request.LoadChart(SourceOf(app.spec, values)));
      return if a.Failure? then Some(a.error) else None;
    }

    /** Loads the chart, then installs the release if it has no history, otherwise upgrades it. */
    method InstallOrUpgrade(app: App, values: Option<string>) returns (revision: nat, err: Option<Text>)
      requires client.At(LoadingChart(app, values))
      modifies client
      ensures client.fate == old(client.fate)
      ensures (old(client.dead) ==> client.dead) && (client.dead ==> err.Some?)
      ensures client.At(
                match err
                case None => Persisting(app, AppliedStatus(app, values, revision, client.Now()),
                                        Applied(SourceOf(app.spec, values)), RequeueAfter(HEALTH_POLL))
                case Some(cause) => Fail(app, "HelmError", cause, client.Now()))
    {
      var cerr := LoadChart(app, values);
      if cerr.Some? {
        return 0, Some(Because("load chart", app.spec.chart, cerr.value));
      }
      var installed, herr := ReleaseExists(ReleaseOf(app));
      if herr.Some? {
        return 0, Some(Because("helm history", app.key.name, herr.value));
      }
      revision, err := RunAction(app, values, installed);
    }

    /** The install or the upgrade itself. */
    method RunAction(app: App, values: Option<string>, installed: bool) returns (revision: nat, err: Option<Text>)
      requires client.At(Applying(app, values, installed))
      modifies client
      ensures client.fate == old(client.fate)
      ensures (old(client.dead) ==> client.dead) && (client.dead ==> err.Some?)
      ensures client.At(
                match err
                case None => Persisting(app, AppliedStatus(app, values, revision, client.Now()),
                                        Applied(SourceOf(app.spec, values)), RequeueAfter(HEALTH_POLL))
                case Some(cause) => Fail(app, "HelmError", cause, client.Now()))
    {
      var rk, source := ReleaseOf(app), SourceOf(app.spec, values);
      var a := client.Call(if installed then HelmUpgrade(rk, source) else HelmInstall(rk, source));
      if a.Failure? {
        return 0, Some(Because(if installed then "helm upgrade" else "helm install", app.key.name, a.error));
      }
      return a.revision, None;
    }

    /** Reverts the release to its immediately previous revision. */
    method Rollback(app: App) returns (err: Option<Error>)
      requires client.At(Worker.RollingBack(app))
      modifies client
      ensures client.fate == old(client.fate)
      ensures (old(client.dead) ==> client.dead) && (client.dead ==> err.Some?)
      ensures client.At(
                match err
                case None => Refetching(app)
                case Some(e) => SetDegraded(app, app.status, "RollbackFailed",
                                            Because("helm rollback", app.key.name, e),
                                            HEALTH_POLL, client.Now()))
    {
      var a := client.Call(HelmRollback(ReleaseOf(app)));
      if a.Failure? { return Some(a.error); }
      return None;
    }

    /** The latest revision of the release and its manifest. */
    method Get(rk: ReleaseKey) returns (revision: nat, manifest: Manifest, err: Option<Error>)
      requires client.Valid()
      requires !client.dead ==> !client.worker.Idle? && NextCall(client.worker) == HelmGet(rk)
      modifies client
      ensures client.fate == old(client.fate)
      ensures (old(client.dead) ==> client.dead) && (client.dead ==> err.Some?)
      ensures client.Reached(old(client.worker),
                             if err.Some? then Failure(err.value) else GotRelease(revision, manifest))
    {
      var a := client.Call(HelmGet(rk));
      if a.Failure? { return 0, [], Some(a.error); }
      return a.revision, a.manifest, None;
    }

    /** Removes the release if it exists. */
    method Uninstall(app: App) returns (err: Option<Error>)
      requires client.At(CheckingRelease(app))
      modifies client
      ensures client.fate == old(client.fate)
      ensures (old(client.dead) ==> client.dead) && (client.dead ==> err.Some?)
      ensures client.At(if err.Some? then Idle(Errored) else InspectingNamespace(app))
    {
      var installed, herr := ReleaseExists(ReleaseOf(app));
      if herr.Some? { return herr; }
      if !installed { return None; }
      var a := client.Call(HelmUninstall(ReleaseOf(app)));
      if a.Failure? { return Some(a.error); }
      return None;
    }
  }

  /** internal/controller. The machine's worker carries base, the Application as last synchronised; the object
      the methods change in place differs from it only in status. */
  class ApplicationReconciler {
    const client: Client
    const helm: HelmManager
    const gauge: Gauge

    ghost predicate Wired() { helm.client == client }

    constructor (client: Client, helm: HelmManager, gauge: Gauge)
      requires helm.client == client
      ensures Wired() && this.client == client && this.helm == helm && this.gauge == gauge
    {
      this.client, this.helm, this.gauge := client, helm, gauge;
    }

    /** A pass that controller-runtime runs: the cluster, the log and the rest of the script end up where
        the machine says, and the result is the machine's. However the pass ends, unless the process is gone, the gauge
        then counts the Applications of the cluster as the pass left it. */
    method Process(key: AppKey, listFails: bool) returns (result: Result)
      requires Wired() && client.worker.Idle?
      modifies client, gauge
      ensures (client.Situation(), client.weather) ==
              Drive(Step(old(client.Situation()), Machine.Begin(key)), old(client.weather))
      ensures client.worker.Idle? && (!client.dead ==> client.worker.result == result)
      ensures if client.dead || listFails then gauge.values == old(gauge.values)
              else Gauges(gauge.values, AllApps(client.cluster))
    {
      client.Begin(key);
      result := Reconcile(key);
      assert Drive(client.Situation(), client.weather) == client.fate;
      if !client.dead { RefreshActiveGauge(gauge, client.cluster, listFails); }
    }

    method Reconcile(key: AppKey) returns (result: Result)
      requires Wired() && client.At(Worker.Reading(key))
      modifies client
      ensures client.fate == old(client.fate)
      ensures client.At(Idle(result))
    {
      var a := client.Call(ReadApp(key));
      if a == Failure(NotFound) { return Settled; }
      if a.Failure? { return Errored; }
      var app := new Application(a.app);

      if app.deleting {
        result := ReconcileDelete(app);
        return;
      }

      if !app.finalizer {
        app.finalizer := true;
        var u := client.Call(Update(app.Value()));
        return if u.Failure? then Errored else Settled;
      }

      var values, hash, verr := ResolveValues(app);
      if verr.Some? {
        Fail(app, "ValuesError", verr.value);
        return Errored;
      }

      var needsApply := app.status.observed != app.generation || app.status.valuesHash != hash;
      if needsApply {
        result := Apply(app, values, hash);
        return;
      }
      result := ReconcileHealth(app, hash);
    }

    /** The branch of Reconcile that installs or upgrades. */
    method Apply(app: Application, values: Option<string>, hash: Hash) returns (result: Result)
      requires Wired() && hash == HashValues(values)
      requires client.At(FindingNamespace(app.Value(), values))
      modifies client, app`status
      ensures client.fate == old(client.fate)
      ensures client.At(Idle(result))
    {
      var nerr := EnsureNamespace(app.Value(), values);
      if nerr.Some? {
        Fail(app, "NamespaceError", Because("ensure namespace", app.spec.namespace, nerr.value));
        return Errored;
      }
      var revision, herr := helm.InstallOrUpgrade(app.Value(), values);
      if herr.Some? {
        Fail(app, "HelmError", herr.value);
        return Errored;
      }
      result := RecordApply(app, values, hash, revision);
    }

    /** The status of a fresh apply: it starts the deadline and allows one rollback again. */
    method RecordApply(app: Application, ghost values: Option<string>, hash: Hash, revision: nat)
      returns (result: Result)
      requires hash == HashValues(values)
      requires client.At(Persisting(app.Value(), AppliedStatus(app.Value(), values, revision, client.Now()),
                                    Applied(SourceOf(app.spec, values)), RequeueAfter(HEALTH_POLL)))
      modifies client, app`status
      ensures client.fate == old(client.fate)
      ensures client.At(Idle(result))
    {
      var now := client.Now();
      app.status := app.status.(releaseName := app.key.name);
      app.status := app.status.(revision := revision);
      app.status := app.status.(observed := app.generation);
      app.status := app.status.(valuesHash := hash);
      app.status := app.status.(started := Some(now));
      app.status := app.status.(lastFailed := 0);
      app.status := app.status.(phase := Phase.Deploying);
      app.Condition(Released, true, "ReleaseApplied", ReleaseAt(app.key.name, revision), now);
      app.Condition(Ready, false, "Progressing", Plain("release applied, waiting for workloads"), now);
      var u := client.Call(UpdateStatus(app.Value()));
      return if u.Failure? then Errored else RequeueAfter(HEALTH_POLL);
    }

    method ResolveValues(app: Application) returns (values: Option<string>, hash: Hash, err: Option<Text>)
      requires client.At(match app.spec.valuesRef
                         case None => AfterValues(app.Value(), None)
                         case Some(ref) => ReadingSecret(app.Value(), ref))
      modifies client
      ensures client.fate == old(client.fate)
      ensures old(client.dead) ==> client.dead
      ensures err.None? ==> hash == HashValues(values) && client.At(AfterValues(app.Value(), values))
      ensures err.Some? ==> client.At(Controller.Fail(app.Value(), "ValuesError", err.value, client.Now()))
    {
      if app.spec.valuesRef.None? { return None, NoHash, None; }
      var ref := app.spec.valuesRef.value;
      var key := ref.key;
      if key == "" { key := DEFAULT_KEY; }
      var a := client.Call(ReadSecret(SecretKey(app.key.namespace, ref.name)));
      if a.Failure? { return None, NoHash, Some(Because("get values secret", ref.name, a.error)); }
      if key !in a.data { return None, NoHash, Some(Because("values secret has no key", ref.name, NoSuchKey(key))); }
      match a.data[key] {
        case Malformed(text) => return None, NoHash, Some(Because("parse values", "", Unparsable(text)));
        case Values(text) => return Some(text), HashOf(text), None;
      }
    }

    method EnsureNamespace(app: App, ghost values: Option<string>) returns (err: Option<Error>)
      requires client.At(FindingNamespace(app, values))
      modifies client
      ensures client.fate == old(client.fate)
      ensures old(client.dead) ==> client.dead
      ensures client.At(
                match err
                case None => LoadingChart(app, values)
                case Some(e) => Controller.Fail(app, "NamespaceError",
                                                Because("ensure namespace", app.spec.namespace, e), client.Now()))
    {
      var a := client.Call(ReadNamespace(app.spec.namespace));
      if !a.Failure? { return None; }
      if a.error != NotFound { return Some(a.error); }
      a := client.Call(MakeNamespace(app.spec.namespace));
      if a.Failure? && a.error != AlreadyExists { return Some(a.error); }
      return None;
    }

    method Fail(app: Application, reason: string, cause: Text)
      requires client.At(Controller.Fail(app.Value(), reason, cause, client.Now()))
      modifies client, app`status
      ensures client.fate == old(client.fate)
      ensures client.At(Idle(Errored))
    {
      var now := client.Now();
      app.status := app.status.(phase := Phase.Failed);
      app.Condition(Released, false, reason, cause, now);
      app.Condition(Ready, false, reason, cause, now);
      var _ := client.Call(UpdateStatus(app.Value()));
    }

    method ReconcileHealth(app: Application, ghost hash: Hash) returns (result: Result)
      requires Wired() && client.At(Fetching(app.Value(), hash))
      modifies client, app
      ensures client.fate == old(client.fate)
      ensures client.At(Idle(result))
    {
      var _, manifest, err := helm.Get(ReleaseOf(app.Value()));
      if err.Some? { return Errored; }
      var health, herr, seen := ReleaseHealth(manifest, app.spec.namespace, app.Value(), hash);
      if herr { return Errored; }

      var now := client.Now();
      if health.grade == Failing || (health.grade != Current && DeadlineExceeded(app.Value(), now)) {
        result := HandleUnhealthy(app, health);
        return;
      }

      result := DrivePhase(app, manifest, seen, hash, health);
    }

    /** The rest of reconcileHealth, for a release that the rollback path need not handle. */
    method DrivePhase(app: Application, ghost manifest: Manifest, ghost seen: seq<Health.Reading>, ghost hash: Hash,
                      health: Assessment)
      returns (result: Result)
      requires client.At(Assess(app.Value(), hash, manifest, seen, health, client.Now()))
      requires !Unhealthy(app.Value(), health.grade, client.Now())
      modifies client, app`status
      ensures client.fate == old(client.fate)
      ensures client.At(Idle(result))
    {
      var before, now := app.status, client.Now();
      ghost var base, cause := app.Value(), Progress;
      if health.grade == Current && app.status.lastFailed == 0 {
        app.status := app.status.(phase := Phase.Deployed);
        app.Condition(Healthy, true, "AllWorkloadsCurrent", health.detail, now);
        app.Condition(Ready, true, "Deployed", Plain("release deployed and healthy"), now);
        result, cause := RequeueAfter(STEADY_POLL), Claim(hash, manifest, seen);
      } else if health.grade == Current {
        result := RequeueAfter(STEADY_POLL);
      } else {
        app.status := app.status.(phase := Phase.Deploying);
        app.Condition(Healthy, false, "Progressing", health.detail, now);
        app.Condition(Ready, false, "Progressing", health.detail, now);
        result := RequeueAfter(HEALTH_POLL);
      }
      result := WriteIfChanged(app, before, base, cause, result);
    }

    /** Writes the status only if it was changed, so that steady polling does not churn the object. */
    method WriteIfChanged(app: Application, before: StatusRecord, ghost base: App, ghost cause: Cause, next: Result)
      returns (result: Result)
      requires SameTypes(before.conditions, app.status.conditions)
      requires app.Value() == base.(status := Stored(app.status))
      requires client.At(if Stored(app.status) == Stored(before) then Idle(next)
                         else Persisting(base, Stored(app.status), cause, next))
      modifies client
      ensures client.fate == old(client.fate)
      ensures client.At(Idle(result))
    {
      StoredTellsApart(before, app.status);
      if before != app.status {
        var u := client.Call(UpdateStatus(app.Value()));
        if u.Failure? { return Errored; }
      }
      return next;
    }

    /** Sweeps over the release's workloads, in manifest order. */
    method ReleaseHealth(manifest: Manifest, namespace: Name, ghost app: App, ghost hash: Hash)
      returns (health: Assessment, err: bool, ghost seen: seq<Health.Reading>)
      requires client.At(AfterFetch(app, hash, manifest, client.Now()))
      requires namespace == app.spec.namespace
      modifies client
      ensures client.fate == old(client.fate)
      ensures client.At(if err then Idle(Errored) else Assess(app, hash, manifest, seen, health, client.Now()))
      ensures !err ==> WorstSeen(health.grade, seen)
      ensures !err && health.grade != Failing ==> Workloads(manifest) == Some(Subjects(seen))
    {
      health, err, seen := NO_WORKLOADS, false, [];
      var workloads, perr := WorkloadsFromManifest(manifest);
      if perr { return health, true, []; }
      if workloads == [] { return; }

      health := ALL_CURRENT;
      for i := 0 to |workloads|
        invariant client.fate == old(client.fate)
        invariant client.At(if i < |workloads| then Polling(app, hash, manifest, workloads[i..], seen)
                            else Assess(app, hash, manifest, seen, health, client.Now()))
        invariant !err && health == Tally(seen) && GoesOn(seen) && Subjects(seen) == workloads[..i]
      {
        assert workloads[i..][1..] == workloads[i + 1..];
        assert workloads[..i + 1] == workloads[..i] + [workloads[i]];
        health, err, seen := Observe(workloads[i], health, namespace, app, hash, manifest, workloads[i..], seen);
        if err || health.grade == Failing { return; }
      }
      assert workloads[..|workloads|] == workloads;
      TallyGoesOn(seen);
    }

    /** One turn of the sweep: reads a workload and weighs its state against the aggregate so far. A failed one
        decides; one that is absent or not current yet is kept. */
    method Observe(w: Doc, sofar: Assessment, namespace: Name, ghost app: App, ghost hash: Hash,
                   ghost manifest: Manifest, ghost todo: seq<Doc>, ghost before: seq<Health.Reading>)
      returns (health: Assessment, err: bool, ghost seen: seq<Health.Reading>)
      requires client.At(Polling(app, hash, manifest, todo, before))
      requires todo != [] && todo[0] == w && namespace == app.spec.namespace
      requires sofar == Tally(before) && GoesOn(before)
      modifies client
      ensures client.fate == old(client.fate)
      ensures err ==> client.At(Idle(Errored))
      ensures !err ==> Subjects(seen) == Subjects(before) + [w] && health == Tally(seen)
      ensures !err ==> WorstSeen(health.grade, seen) && (GoesOn(seen) <==> health.grade != Failing)
      ensures !err && (health.grade == Failing || todo[1..] == []) ==>
                client.At(Assess(app, hash, manifest, seen, health, client.Now()))
      ensures !err && health.grade != Failing && todo[1..] != [] ==>
                client.At(Polling(app, hash, manifest, todo[1..], seen))
    {
      var ns := if w.Object? then w.namespace else "";
      if ns == "" { ns := namespace; }
      var a := client.Call(ReadWorkload(w, ns));
      if a.Failure? && a.error != NotFound { return sofar, true, before; }
      var live := if a.Failure? then Missing else a.live;
      if live.Uncomputable? { return sofar, true, before; }
      health, err, seen := Absorb(sofar, Health.Reading(w, live)), false, before + [Health.Reading(w, live)];
      assert seen[..|before|] == before;
      TallyIsWorst(before, Health.Reading(w, live));
    }

    /** The workload documents of a manifest; an undecodable document is an error. */
    static method WorkloadsFromManifest(manifest: Manifest) returns (workloads: seq<Doc>, err: bool)
      ensures Workloads(manifest) == if err then None else Some(workloads)
    {
      workloads, err := [], false;
      for i := 0 to |manifest|
        invariant Workloads(manifest[..i]) == Some(workloads)
      {
        var d := manifest[i];
        assert manifest[..i + 1] == manifest[..i] + [d];
        WorkloadsAppend(manifest[..i], d);
        if d.Broken? {
          WorkloadsConcat(manifest[..i + 1], manifest[i + 1..]);
          assert manifest == manifest[..i + 1] + manifest[i + 1..];
          return [], true;
        }
        if IsWorkload(d) {
          workloads := workloads + [d];
        }
      }
      assert manifest[..|manifest|] == manifest;
    }

    /** The rollback path: marks the failed revision first, then rolls back, at most once per apply. */
    method HandleUnhealthy(app: Application, health: Assessment) returns (result: Result)
      requires Wired() && client.At(Controller.HandleUnhealthy(app.Value(), health, client.Now()))
      modifies client, app
      ensures client.fate == old(client.fate)
      ensures client.At(Idle(result))
    {
      var reason, detail := "WorkloadFailed", health.detail;
      if health.grade != Failing {
        reason, detail := "ProgressDeadlineExceeded", NotReadyWithin(app.spec.deadline);
      }
      var failedRevision := app.status.revision;

      if app.status.lastFailed != 0 {
        result := SetDegraded(app, app.Value(), reason,
                              WithNote(detail, " (already rolled back; awaiting a spec fix)"), STEADY_POLL);
        return;
      }
      if failedRevision <= 1 {
        result := SetDegraded(app, app.Value(), reason,
                              WithNote(detail, " (no previous revision to roll back to)"), HEALTH_POLL);
        return;
      }

      result := WriteAhead(app, reason, detail, failedRevision);
    }

    /** Puts the failed revision on record before anything is rolled back. */
    method WriteAhead(app: Application, reason: string, detail: Text, failedRevision: nat) returns (result: Result)
      requires Wired() && failedRevision == app.status.revision
      requires client.At(WritingAhead(app.Value(), MarkedStatus(app.Value(), reason, detail, client.Now())))
      modifies client, app
      ensures client.fate == old(client.fate)
      ensures client.At(Idle(result))
    {
      var now := client.Now();
      app.status := app.status.(phase := Phase.RollingBack);
      app.status := app.status.(lastFailed := failedRevision);
      app.Condition(Healthy, false, reason, detail, now);
      app.Condition(Ready, false, "RollingBack", UnhealthyRevision(failedRevision), now);
      var u := client.Call(UpdateStatus(app.Value()));
      if u.Failure? { return Errored; }
      app.Refresh(u.app);

      result := RollBack(app);
    }

    /** The rest of the rollback path, with the failed revision on record. */
    method RollBack(app: Application) returns (result: Result)
      requires Wired() && client.At(Worker.RollingBack(app.Value()))
      modifies client, app`status
      ensures client.fate == old(client.fate)
      ensures client.At(Idle(result))
    {
      ghost var base := app.Value();
      var rerr := helm.Rollback(app.Value());
      if rerr.Some? {
        result := SetDegraded(app, base, "RollbackFailed", Because("helm rollback", app.key.name, rerr.value),
                              HEALTH_POLL);
        return;
      }
      result := Reflect(app);
    }

    /** Shows the revision that a successful rollback created, if it can be fetched. */
    method Reflect(app: Application) returns (result: Result)
      requires Wired() && client.At(Refetching(app.Value()))
      modifies client, app`status
      ensures client.fate == old(client.fate)
      ensures client.At(Idle(result))
    {
      ghost var base := app.Value();
      var revision, _, gerr := helm.Get(ReleaseOf(app.Value()));
      if gerr.None? {
        app.status := app.status.(revision := revision);
      }
      result := SetDegraded(app, base, "RolledBack", FailedRevision(app.status.lastFailed), STEADY_POLL);
    }

    /** Records a Degraded status, written only when it changes something. */
    method SetDegraded(app: Application, ghost base: App, reason: string, message: Text, seconds: nat)
      returns (result: Result)
      requires app.Value() == base.(status := Stored(app.status))
      requires client.At(Controller.SetDegraded(base, Stored(app.status), reason, message, seconds, client.Now()))
      modifies client, app`status
      ensures client.fate == old(client.fate)
      ensures client.At(Idle(result))
    {
      var before, now := app.status, client.Now();
      app.status := app.status.(phase := Phase.Degraded);
      app.Condition(Healthy, false, reason, message, now);
      app.Condition(Ready, false, "Degraded", message, now);
      result := WriteIfChanged(app, before, base, Degrade, RequeueAfter(seconds));
    }

    /** Uninstalls the release, drops the namespace if it is the operator's, then lets the object go. */
    method ReconcileDelete(app: Application) returns (result: Result)
      requires Wired() && client.At(if app.finalizer then CheckingRelease(app.Value()) else Idle(Settled))
      modifies client, app`finalizer
      ensures client.fate == old(client.fate)
      ensures client.At(Idle(result))
    {
      if !app.finalizer { return Settled; }
      var uerr := helm.Uninstall(app.Value());
      if uerr.Some? { return Errored; }
      var derr := MaybeDeleteNamespace(app.Value());
      if derr { return Errored; }
      app.finalizer := false;
      var u := client.Call(Update(app.Value()));
      return if u.Failure? then Errored else Settled;
    }

    /** Deletes the target namespace only if the operator created it and no live Application targets it. */
    method MaybeDeleteNamespace(app: App) returns (err: bool)
      requires client.At(InspectingNamespace(app))
      modifies client
      ensures client.fate == old(client.fate)
      ensures old(client.dead) ==> client.dead
      ensures client.At(if err then Idle(Errored) else DroppingFinalizer(app))
    {
      var a := client.Call(ReadNamespace(app.spec.namespace));
      if a.Failure? { return a.error != NotFound; }
      if !a.managed { return false; }
      var others, lerr := OtherApplicationsInNamespace(app);
      if lerr { return true; }
      if others > 0 { return false; }
      var d := client.Call(DropNamespace(app.spec.namespace));
      return d.Failure? && d.error != NotFound;
    }

    /** Counts the Applications, other than app, that target its namespace and are not being deleted. */
    method OtherApplicationsInNamespace(app: App) returns (count: nat, err: bool)
      requires client.At(ListingOthers(app))
      modifies client
      ensures client.fate == old(client.fate)
      ensures old(client.dead) ==> client.dead
      ensures client.At(if err then Idle(Errored)
                        else if count > 0 then DroppingFinalizer(app) else DroppingNamespace(app))
    {
      var a := client.Call(ListByNamespace(app.spec.namespace));
      if a.Failure? { return 0, true; }
      count := CountOthers(a.items, app.uid);
      return count, false;
    }

    /** The counting loop, over the items in any order. */
    static method CountOthers(items: set<App>, uid: nat) returns (count: nat)
      ensures count == |Others(items, uid)|
    {
      count := 0;
      var rest := items;
      assert Others({}, uid) == {};
      while rest != {}
        invariant rest <= items
        invariant count == |Others(items - rest, uid)|
        decreases rest
      {
        var other: App :| other in rest;
        ghost var done := items - rest;
        rest := rest - {other};
        assert items - rest == done + {other};
        if other.uid == uid || other.deleting {
          assert Others(done + {other}, uid) == Others(done, uid);
        } else {
          assert Others(done + {other}, uid) == Others(done, uid) + {other};
          count := count + 1;
        }
      }
      assert items - rest == items;
    }
  }
}
