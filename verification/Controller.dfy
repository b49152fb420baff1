/** The controller's logic as a machine: what a reconcile pass waits for next, and where each reply takes it.
    A Worker value is one point between two calls of a pass; the local copy of the Application it carries is
    the one last read from, or stored by, the API server. */
module Controller {
  import opened Api
  import opened Server
  import opened Health

  const HEALTH_POLL := 30
  const STEADY_POLL := 300
  const DEFAULT_KEY := "values.yaml"

  /** How a pass ends. */
  datatype Result = NotStarted | Settled | RequeueAfter(seconds: nat) | Errored | Crashed

  /** Why a status is written. A Claim is a Deployed status with the evidence of its pass. */
  datatype Cause =
    | Applied(source: Source)
    | Broke
    | Claim(hash: Hash, manifest: Manifest, readings: seq<Reading>)
    | Progress
    | Degrade
    | Marker

  datatype Worker =
    | Idle(result: Result)
    | Reading(key: AppKey)
    | AddingFinalizer(app: App)
    | ReadingSecret(app: App, ref: SecretRef)
    | FindingNamespace(app: App, values: Option<string>)
    | CreatingNamespace(app: App, values: Option<string>)
    | LoadingChart(app: App, values: Option<string>)
    | CheckingHistory(app: App, values: Option<string>)
    | Applying(app: App, values: Option<string>, installed: bool)
    | Fetching(app: App, hash: Hash)
    | Polling(app: App, hash: Hash, manifest: Manifest, todo: seq<Doc>, seen: seq<Health.Reading>)
    | Persisting(app: App, status: Status, cause: Cause, result: Result)
    | WritingAhead(app: App, status: Status)
    | RollingBack(app: App)
    | Refetching(app: App)
    | CheckingRelease(app: App)
    | Uninstalling(app: App)
    | InspectingNamespace(app: App)
    | ListingOthers(app: App)
    | DroppingNamespace(app: App)
    | DroppingFinalizer(app: App)

  /** The call a worker is about to make. */
  function NextCall(w: Worker): Request {
    match w
    case Idle(_) => Nothing
    case Reading(key) => ReadApp(key)
    case AddingFinalizer(app) => Update(app.(finalizer := true))
    case ReadingSecret(app, ref) => ReadSecret(SecretKey(app.key.namespace, ref.name))
    case FindingNamespace(app, _) => ReadNamespace(app.spec.namespace)
    case CreatingNamespace(app, _) => MakeNamespace(app.spec.namespace)
    case LoadingChart(app, values) => LoadChart(SourceOf(app.spec, values))
    case CheckingHistory(app, _) => HelmHistory(ReleaseOf(app))
    case Applying(app, values, installed) =>
      if installed then HelmUpgrade(ReleaseOf(app), SourceOf(app.spec, values))
      else HelmInstall(ReleaseOf(app), SourceOf(app.spec, values))
    case Fetching(app, _) => HelmGet(ReleaseOf(app))
    case Polling(app, _, _, todo, _) =>
      if todo == [] then Nothing else ReadWorkload(todo[0], Whereabouts(todo[0], app.spec.namespace))
    case Persisting(app, status, _, _) => UpdateStatus(app.(status := status))
    case WritingAhead(app, status) => UpdateStatus(app.(status := status))
    case RollingBack(app) => HelmRollback(ReleaseOf(app))
    case Refetching(app) => HelmGet(ReleaseOf(app))
    case CheckingRelease(app) => HelmHistory(ReleaseOf(app))
    case Uninstalling(app) => HelmUninstall(ReleaseOf(app))
    case InspectingNamespace(app) => ReadNamespace(app.spec.namespace)
    case ListingOthers(app) => ListByNamespace(app.spec.namespace)
    case DroppingNamespace(app) => DropNamespace(app.spec.namespace)
    case DroppingFinalizer(app) => Update(app.(finalizer := false))
  }

  // ---------- the statuses a pass writes ----------

  function AppliedStatus(app: App, values: Option<string>, revision: nat, now: Time): Status {
    var s := app.status.(
      releaseName := app.key.name, revision := revision, observed := app.generation,
      valuesHash := HashValues(values), started := Some(now), lastFailed := 0, phase := Phase.Deploying);
    var s := SetCondition(s, app.generation, Released, true, "ReleaseApplied",
                          ReleaseAt(app.key.name, revision), now);
    SetCondition(s, app.generation, Ready, false, "Progressing",
                 Plain("release applied, waiting for workloads"), now)
  }

  function FailedStatus(app: App, reason: string, cause: Text, now: Time): Status {
    var s := app.status.(phase := Phase.Failed);
    var s := SetCondition(s, app.generation, Released, false, reason, cause, now);
    SetCondition(s, app.generation, Ready, false, reason, cause, now)
  }

  function DeployedStatus(app: App, detail: Text, now: Time): Status {
    var s := app.status.(phase := Phase.Deployed);
    var s := SetCondition(s, app.generation, Healthy, true, "AllWorkloadsCurrent", detail, now);
    SetCondition(s, app.generation, Ready, true, "Deployed", Plain("release deployed and healthy"), now)
  }

  function ProgressStatus(app: App, detail: Text, now: Time): Status {
    var s := app.status.(phase := Phase.Deploying);
    var s := SetCondition(s, app.generation, Healthy, false, "Progressing", detail, now);
    SetCondition(s, app.generation, Ready, false, "Progressing", detail, now)
  }

  function DegradedStatus(s: Status, generation: nat, reason: string, message: Text, now: Time): Status {
    var s := s.(phase := Phase.Degraded);
    var s := SetCondition(s, generation, Healthy, false, reason, message, now);
    SetCondition(s, generation, Ready, false, "Degraded", message, now)
  }

  function MarkedStatus(app: App, reason: string, detail: Text, now: Time): Status {
    var failed := app.status.revision;
    var s := app.status.(phase := Phase.RollingBack, lastFailed := failed);
    var s := SetCondition(s, app.generation, Healthy, false, reason, detail, now);
    SetCondition(s, app.generation, Ready, false, "RollingBack", UnhealthyRevision(failed), now)
  }

  // ---------- local computation between calls ----------

  function Fail(app: App, reason: string, cause: Text, now: Time): Worker {
    Persisting(app, FailedStatus(app, reason, cause, now), Broke, Errored)
  }

  predicate NeedsApply(app: App, hash: Hash) {
    app.status.observed != app.generation || app.status.valuesHash != hash
  }

  function AfterValues(app: App, values: Option<string>): Worker {
    if NeedsApply(app, HashValues(values)) then FindingNamespace(app, values)
    else Fetching(app, HashValues(values))
  }

  function DataKey(ref: SecretRef): string {
    if ref.key == "" then DEFAULT_KEY else ref.key
  }

  function AfterSecret(app: App, ref: SecretRef, data: Secret, now: Time): Worker {
    if DataKey(ref) !in data then
      Fail(app, "ValuesError", Because("values secret has no key", ref.name, NoSuchKey(DataKey(ref))), now)
    else
      match data[DataKey(ref)]
      case Malformed(text) => Fail(app, "ValuesError", Because("parse values", "", Unparsable(text)), now)
      case Values(text) => AfterValues(app, Some(text))
  }

  predicate DeadlineExceeded(app: App, now: Time) {
    app.status.started.Some? && now - app.status.started.value > app.spec.deadline
  }

  /** The condition under which a release is handed to the rollback path. */
  predicate Unhealthy(app: App, grade: Grade, now: Time) {
    grade == Failing || (grade != Current && DeadlineExceeded(app, now))
  }

  function WriteUnlessSame(app: App, status: Status, cause: Cause, result: Result): Worker {
    if status == app.status then Idle(result) else Persisting(app, status, cause, result)
  }

  /** setDegraded: local is the status as changed in memory since app was last synchronised. */
  function SetDegraded(app: App, local: Status, reason: string, message: Text, seconds: nat, now: Time): Worker {
    var next := DegradedStatus(local, app.generation, reason, message, now);
    if next == local then Idle(RequeueAfter(seconds))
    else Persisting(app, next, Degrade, RequeueAfter(seconds))
  }

  function UnhealthyReason(grade: Grade): string {
    if grade == Failing then "WorkloadFailed" else "ProgressDeadlineExceeded"
  }

  function UnhealthyDetail(app: App, a: Assessment): Text {
    if a.grade == Failing then a.detail else NotReadyWithin(app.spec.deadline)
  }

  function HandleUnhealthy(app: App, a: Assessment, now: Time): Worker {
    var reason, detail := UnhealthyReason(a.grade), UnhealthyDetail(app, a);
    if app.status.lastFailed != 0 then
      SetDegraded(app, app.status, reason, WithNote(detail, " (already rolled back; awaiting a spec fix)"),
                  STEADY_POLL, now)
    else if app.status.revision <= 1 then
      SetDegraded(app, app.status, reason, WithNote(detail, " (no previous revision to roll back to)"),
                  HEALTH_POLL, now)
    else
      WritingAhead(app, MarkedStatus(app, reason, detail, now))
  }

  /** reconcileHealth once the aggregate health is known. */
  function Assess(app: App, hash: Hash, manifest: Manifest, seen: seq<Health.Reading>, a: Assessment,
                  now: Time): Worker {
    if Unhealthy(app, a.grade, now) then HandleUnhealthy(app, a, now)
    else if a.grade == Current then
      if app.status.lastFailed == 0 then
        WriteUnlessSame(app, DeployedStatus(app, a.detail, now), Claim(hash, manifest, seen), RequeueAfter(STEADY_POLL))
      else Idle(RequeueAfter(STEADY_POLL))
    else
      WriteUnlessSame(app, ProgressStatus(app, a.detail, now), Progress, RequeueAfter(HEALTH_POLL))
  }

  function AfterFetch(app: App, hash: Hash, manifest: Manifest, now: Time): Worker {
    match Workloads(manifest)
    case None => Idle(Errored)
    case Some(ws) =>
      if ws == [] then Assess(app, hash, manifest, [], NO_WORKLOADS, now)
      else Polling(app, hash, manifest, ws, [])
  }

  function AfterReading(app: App, hash: Hash, manifest: Manifest, todo: seq<Doc>, seen: seq<Health.Reading>, live: Live,
                        now: Time): Worker
    requires todo != []
  {
    if live.Uncomputable? then Idle(Errored)
    else
      var seen := seen + [Health.Reading(todo[0], live)];
      var a := Tally(seen);
      if a.grade == Failing || todo[1..] == [] then Assess(app, hash, manifest, seen, a, now)
      else Polling(app, hash, manifest, todo[1..], seen)
  }

  function AfterRollback(app: App, revision: Option<nat>, now: Time): Worker {
    var local := if revision.Some? then app.status.(revision := revision.value) else app.status;
    SetDegraded(app, local, "RolledBack", FailedRevision(app.status.lastFailed), STEADY_POLL, now)
  }

  function AfterRead(app: App): Worker {
    if app.deleting then
      if app.finalizer then CheckingRelease(app) else Idle(Settled)
    else if !app.finalizer then AddingFinalizer(app)
    else
      match app.spec.valuesRef
      case None => AfterValues(app, None)
      case Some(ref) => ReadingSecret(app, ref)
  }

  predicate LiveIn(app: App, namespace: Name) {
    app.spec.namespace == namespace && !app.deleting
  }

  /** Applications other than the one with this uid that are not being deleted. */
  function Others(items: set<App>, uid: nat): set<App> {
    set a | a in items && a.uid != uid && !a.deleting
  }

  /** Where the reply to its pending call takes a worker. */
  function Resume(w: Worker, a: Response, now: Time): Worker {
    match w
    case Idle(_) => w
    case Reading(_) =>
      (match a
       case GotApp(app) => AfterRead(app)
       case Failure(NotFound) => Idle(Settled)
       case _ => Idle(Errored))
    case AddingFinalizer(_) => Idle(if a.Failure? then Errored else Settled)
    case ReadingSecret(app, ref) =>
      (match a
       case GotSecret(data) => AfterSecret(app, ref, data, now)
       case Failure(e) => Fail(app, "ValuesError", Because("get values secret", ref.name, e), now)
       case _ => Idle(Errored))
    case FindingNamespace(app, values) =>
      (match a
       case GotNamespace(_) => LoadingChart(app, values)
       case Failure(NotFound) => CreatingNamespace(app, values)
       case Failure(e) => Fail(app, "NamespaceError", Because("ensure namespace", app.spec.namespace, e), now)
       case _ => Idle(Errored))
    case CreatingNamespace(app, values) =>
      (match a
       case Failure(AlreadyExists) => LoadingChart(app, values)
       case Failure(e) => Fail(app, "NamespaceError", Because("ensure namespace", app.spec.namespace, e), now)
       case _ => LoadingChart(app, values))
    case LoadingChart(app, values) =>
      (match a
       case Failure(e) => Fail(app, "HelmError", Because("load chart", app.spec.chart, e), now)
       case _ => CheckingHistory(app, values))
    case CheckingHistory(app, values) =>
      (match a
       case GotHistory(installed) => Applying(app, values, installed)
       case Failure(e) => Fail(app, "HelmError", Because("helm history", app.key.name, e), now)
       case _ => Idle(Errored))
    case Applying(app, values, installed) =>
      (match a
       case GotRelease(revision, _) =>
         Persisting(app, AppliedStatus(app, values, revision, now), Applied(SourceOf(app.spec, values)),
                    RequeueAfter(HEALTH_POLL))
       case Failure(e) =>
         Fail(app, "HelmError", Because(if installed then "helm upgrade" else "helm install", app.key.name, e), now)
       case _ => Idle(Errored))
    case Fetching(app, hash) =>
      (match a
       case GotRelease(_, manifest) => AfterFetch(app, hash, manifest, now)
       case _ => Idle(Errored))
    case Polling(app, hash, manifest, todo, seen) =>
      if todo == [] then Idle(Errored)
      else
        (match a
         case GotLive(live) => AfterReading(app, hash, manifest, todo, seen, live, now)
         case Failure(NotFound) => AfterReading(app, hash, manifest, todo, seen, Missing, now)
         case _ => Idle(Errored))
    case Persisting(_, _, _, result) => Idle(if a.Failure? then Errored else result)
    case WritingAhead(_, _) =>
      (match a
       case GotApp(app) => Worker.RollingBack(app)
       case _ => Idle(Errored))
    case RollingBack(app) =>
      (match a
       case Failure(e) =>
         SetDegraded(app, app.status, "RollbackFailed", Because("helm rollback", app.key.name, e), HEALTH_POLL, now)
       case _ => Refetching(app))
    case Refetching(app) =>
      (match a
       case GotRelease(revision, _) => AfterRollback(app, Some(revision), now)
       case _ => AfterRollback(app, None, now))
    case CheckingRelease(app) =>
      (match a
       case GotHistory(installed) => if installed then Uninstalling(app) else InspectingNamespace(app)
       case _ => Idle(Errored))
    case Uninstalling(app) => if a.Failure? then Idle(Errored) else InspectingNamespace(app)
    case InspectingNamespace(app) =>
      (match a
       case GotNamespace(managed) => if managed then ListingOthers(app) else DroppingFinalizer(app)
       case Failure(NotFound) => DroppingFinalizer(app)
       case _ => Idle(Errored))
    case ListingOthers(app) =>
      (match a
       case GotApps(items) => if Others(items, app.uid) == {} then DroppingNamespace(app) else DroppingFinalizer(app)
       case _ => Idle(Errored))
    case DroppingNamespace(app) =>
      (match a
       case Failure(NotFound) => DroppingFinalizer(app)
       case Failure(_) => Idle(Errored)
       case _ => DroppingFinalizer(app))
    case DroppingFinalizer(_) => Idle(if a.Failure? then Errored else Settled)
  }

  // ---------- every pass ends ----------

  function Stage(w: Worker): nat {
    match w
    case Idle(_) => 0
    case Persisting(_, _, _, _) => 1
    case DroppingFinalizer(_) => 1
    case AddingFinalizer(_) => 1
    case Refetching(_) => 2
    case DroppingNamespace(_) => 2
    case RollingBack(_) => 3
    case ListingOthers(_) => 3
    case WritingAhead(_, _) => 4
    case InspectingNamespace(_) => 4
    case Applying(_, _, _) => 4
    case Polling(_, _, _, _, _) => 5
    case Uninstalling(_) => 5
    case CheckingHistory(_, _) => 5
    case Fetching(_, _) => 6
    case CheckingRelease(_) => 6
    case LoadingChart(_, _) => 6
    case CreatingNamespace(_, _) => 7
    case FindingNamespace(_, _) => 8
    case ReadingSecret(_, _) => 9
    case Reading(_) => 10
  }

  function Todo(w: Worker): nat {
    if w.Polling? then |w.todo| else 0
  }

  predicate Below(w: Worker, v: Worker) {
    Stage(w) < Stage(v) || (Stage(w) == Stage(v) && Todo(w) < Todo(v))
  }

  /** Where a pass can go from the points that judge a release's health. */
  predicate Concluded(v: Worker) {
    v.Idle? || v.Persisting? || v.WritingAhead?
  }

  lemma AssessConcludes(app: App, hash: Hash, manifest: Manifest, seen: seq<Health.Reading>, a: Assessment, now: Time)
    ensures Concluded(Assess(app, hash, manifest, seen, a, now))
  {
  }

  lemma FetchDescends(w: Worker, a: Response, now: Time)
    requires w.Fetching?
    ensures Below(Resume(w, a, now), w)
  {
    if a.GotRelease? { AssessConcludes(w.app, w.hash, a.manifest, [], NO_WORKLOADS, now); }
  }

  /** A look at one workload: the last one of the sweep, or one fewer is left. */
  lemma ReadingDescends(w: Worker, live: Live, now: Time)
    requires w.Polling? && w.todo != []
    ensures Below(AfterReading(w.app, w.hash, w.manifest, w.todo, w.seen, live, now), w)
  {
    var seen := w.seen + [Health.Reading(w.todo[0], live)];
    AssessConcludes(w.app, w.hash, w.manifest, seen, Tally(seen), now);
  }

  lemma PollDescends(w: Worker, a: Response, now: Time)
    requires w.Polling?
    ensures Below(Resume(w, a, now), w)
  {
    if w.todo != [] {
      if a.GotLive? { ReadingDescends(w, a.live, now); }
      ReadingDescends(w, Missing, now);
    }
  }

  lemma ResumeDescends(w: Worker, a: Response, now: Time)
    requires !w.Idle?
    ensures Below(Resume(w, a, now), w)
  {
    if w.Polling? { PollDescends(w, a, now); }
    else if w.Fetching? { FetchDescends(w, a, now); }
  }
}
