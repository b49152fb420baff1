/** The API server and the Helm release store, as the controller sees them:
    what each request does to the cluster and what it answers. */
module Server {
  import opened Api

  /** A rendered manifest: decoded documents, in order. */
  datatype Doc = Broken | Empty | Object(kind: string, namespace: Name, name: Name)
  type Manifest = seq<Doc>

  /** What a revision was rendered from. */
  datatype Source = Source(chart: string, repo: string, version: string, values: Option<string>)
  datatype Revision = Revision(source: Source, manifest: Manifest)

  datatype ReleaseKey = ReleaseKey(namespace: Name, name: Name)

  /** A release's history; revision n is entry n - 1. */
  type History = h: seq<Revision> | 0 < |h| witness [Revision(Source("", "", "", None), [])]

  function Latest(h: History): Revision { h[|h| - 1] }

  function SourceOf(spec: Spec, values: Option<string>): Source {
    Source(spec.chart, spec.repo, spec.version, values)
  }

  datatype Cluster = Cluster(
    apps: map<AppKey, App>,
    archive: seq<App>,                       // every version of every Application ever stored
    namespaces: map<Name, bool>,             // true: carries the managed-by annotation
    secrets: map<SecretKey, Secret>,
    releases: map<ReleaseKey, History>,
    clock: Time,
    version: nat,                            // last resource version handed out
    uids: nat)                               // uids handed out are below this

  function ReleaseOf(app: App): ReleaseKey {
    ReleaseKey(app.spec.namespace, app.key.name)
  }

  /** kstatus results of a live workload; Missing and Uncomputable are the other two ways a look can end. */
  datatype Grade = InProgress | Failing | Current | Terminating | Gone | Unknown
  datatype Live = Missing | Uncomputable | Computed(grade: Grade, message: string)

  // ---------- storing Applications ----------

  /** Stores a new version of an Application. */
  function Store(c: Cluster, app: App): Cluster {
    var next := app.(rv := c.version + 1);
    c.(apps := c.apps[app.key := next], archive := c.archive + [next], version := c.version + 1)
  }

  function Without<K, V>(m: map<K, V>, k: K): map<K, V> { m - {k} }

  function Remove(c: Cluster, key: AppKey): Cluster {
    c.(apps := Without(c.apps, key))
  }

  // ---------- steps of users and of time ----------

  datatype EnvStep =
    | Create(key: AppKey, spec: Spec)
    | EditSpec(key: AppKey, spec: Spec)
    | Touch(key: AppKey)                     // a metadata-only write: labels, annotations
    | Delete(key: AppKey)
    | PutSecret(secret: SecretKey, data: Secret)
    | DropSecret(secret: SecretKey)
    | CreateNamespace(name: Name)
    | Tick(dt: nat)

  function Environment(c: Cluster, e: EnvStep): Cluster {
    match e
    case Create(key, spec) =>
      if key in c.apps then c
      else Store(c.(uids := c.uids + 1), App(key, c.uids, 0, 1, spec, false, false, EMPTY_STATUS))
    case EditSpec(key, spec) =>
      if key in c.apps && c.apps[key].spec != spec then
        Store(c, c.apps[key].(spec := spec, generation := c.apps[key].generation + 1))
      else c
    case Touch(key) =>
      if key in c.apps then Store(c, c.apps[key]) else c
    case Delete(key) =>
      if key !in c.apps || c.apps[key].deleting then c
      else if c.apps[key].finalizer then
        Store(c, c.apps[key].(deleting := true, generation := c.apps[key].generation + 1))
      else Remove(c, key)
    case PutSecret(secret, data) => c.(secrets := c.secrets[secret := data])
    case DropSecret(secret) => c.(secrets := Without(c.secrets, secret))
    case CreateNamespace(name) =>
      if name in c.namespaces then c else c.(namespaces := c.namespaces[name := false])
    case Tick(dt) => c.(clock := c.clock + dt)
  }

  // ---------- requests of the controller ----------

  datatype Request =
    | Nothing
    | ReadApp(key: AppKey)
    | Update(app: App)
    | UpdateStatus(app: App)
    | ReadSecret(secret: SecretKey)
    | ReadNamespace(name: Name)
    | MakeNamespace(name: Name)
    | DropNamespace(name: Name)
    | ListByNamespace(name: Name)
    | ReadWorkload(workload: Doc, namespace: Name)
    | LoadChart(source: Source)
    | HelmHistory(release: ReleaseKey)
    | HelmInstall(release: ReleaseKey, source: Source)
    | HelmUpgrade(release: ReleaseKey, source: Source)
    | HelmRollback(release: ReleaseKey)
    | HelmGet(release: ReleaseKey)
    | HelmUninstall(release: ReleaseKey)

  datatype Response =
    | Failure(error: Error)
    | Done
    | GotApp(app: App)                       // read, or stored by an update
    | GotSecret(data: Secret)
    | GotNamespace(managed: bool)
    | GotApps(items: set<App>)
    | GotHistory(found: bool)
    | GotRelease(revision: nat, manifest: Manifest)
    | GotLive(live: Live)

  /** How the environment treats one call. LostReply: the request took effect and an error came back. */
  datatype Fault = NoFault | Refused | LostReply

  /** Everything about one call that the cluster's state does not decide: its fault, what a lagging
      cache would serve, what a chart renders to, and how a live workload looks. */
  datatype Outcome = Outcome(
    fault: Fault,
    staleApp: Option<nat>,
    staleSecret: Option<Option<Secret>>,
    manifest: Manifest,
    live: Live)

  predicate MatchesStored(c: Cluster, app: App) {
    app.key in c.apps && c.apps[app.key].rv == app.rv
  }

  /** Whether the request is one the server or Helm carries out in this state. */
  predicate Admits(c: Cluster, r: Request) {
    match r
    case Update(app) => MatchesStored(c, app)
    case UpdateStatus(app) => MatchesStored(c, app)
    case MakeNamespace(name) => name !in c.namespaces
    case DropNamespace(name) => name in c.namespaces
    case HelmInstall(rk, _) => rk !in c.releases && rk.namespace in c.namespaces
    case HelmUpgrade(rk, _) => rk in c.releases && rk.namespace in c.namespaces
    case HelmRollback(rk) => rk in c.releases && 2 <= |c.releases[rk]|
    case HelmUninstall(rk) => rk in c.releases
    case _ => true
  }

  function Rejection(c: Cluster, r: Request): Error {
    match r
    case MakeNamespace(_) => AlreadyExists
    case DropNamespace(_) => NotFound
    case HelmRollback(rk) => if rk in c.releases then NoRevision else NotFound
    case HelmInstall(_, _) => Unavailable
    case HelmUpgrade(_, _) => NotFound
    case HelmUninstall(_) => NotFound
    case _ => Conflict
  }

  /** A rollback repeats the content of the revision before the latest one. */
  function RolledBack(h: History): History
    requires 2 <= |h|
  {
    h + [h[|h| - 2]]
  }

  function Outside(releases: map<ReleaseKey, History>, name: Name): map<ReleaseKey, History> {
    map rk | rk in releases && rk.namespace != name :: releases[rk]
  }

  /** The cluster after an admitted request. A status update writes nothing but status, and an update
      that changes nothing stores no new version; the main update, whose spec is the
      stored one when the versions match, writes nothing but the finalizer, and an object marked for deletion
      goes away with its finalizer. */
  function Effect(c: Cluster, r: Request, o: Outcome): Cluster
    requires Admits(c, r)
  {
    match r
    case Update(app) =>
      if c.apps[app.key].deleting && !app.finalizer then Remove(c, app.key)
      else Store(c, c.apps[app.key].(finalizer := app.finalizer))
    case UpdateStatus(app) =>
      if c.apps[app.key].status == app.status then c else Store(c, c.apps[app.key].(status := app.status))
    case MakeNamespace(name) => c.(namespaces := c.namespaces[name := true])
    case DropNamespace(name) =>
      c.(namespaces := Without(c.namespaces, name), releases := Outside(c.releases, name))
    case HelmInstall(rk, source) => c.(releases := c.releases[rk := [Revision(source, o.manifest)]])
    case HelmUpgrade(rk, source) =>
      c.(releases := c.releases[rk := c.releases[rk] + [Revision(source, o.manifest)]])
    case HelmRollback(rk) => c.(releases := c.releases[rk := RolledBack(c.releases[rk])])
    case HelmUninstall(rk) => c.(releases := Without(c.releases, rk))
    case _ => c
  }

  function IndexedByNamespace(apps: map<AppKey, App>, name: Name): set<App> {
    set k | k in apps && apps[k].spec.namespace == name :: apps[k]
  }

  function CachedApp(c: Cluster, key: AppKey, stale: Option<nat>): Response {
    match stale
    case Some(i) =>
      if i < |c.archive| && c.archive[i].key == key then GotApp(c.archive[i]) else Failure(NotFound)
    case None =>
      if key in c.apps then GotApp(c.apps[key]) else Failure(NotFound)
  }

  function CachedSecret(c: Cluster, key: SecretKey, stale: Option<Option<Secret>>): Response {
    match stale
    case Some(Some(data)) => GotSecret(data)
    case Some(None) => Failure(NotFound)
    case None => if key in c.secrets then GotSecret(c.secrets[key]) else Failure(NotFound)
  }

  /** The reply to an admitted request, given the cluster before and after it. */
  function Answer(c: Cluster, after: Cluster, r: Request, o: Outcome): Response {
    match r
    case ReadApp(key) => CachedApp(c, key, o.staleApp)
    case Update(app) => if app.key in after.apps then GotApp(after.apps[app.key]) else Done
    case UpdateStatus(app) => if app.key in after.apps then GotApp(after.apps[app.key]) else Done
    case ReadSecret(key) => CachedSecret(c, key, o.staleSecret)
    case ReadNamespace(name) =>
      if name in c.namespaces then GotNamespace(c.namespaces[name]) else Failure(NotFound)
    case ListByNamespace(name) => GotApps(IndexedByNamespace(c.apps, name))
    case ReadWorkload(_, _) => if o.live.Missing? then Failure(NotFound) else GotLive(o.live)
    case HelmHistory(rk) => GotHistory(rk in c.releases)
    case HelmInstall(rk, _) => Release(after, rk)
    case HelmUpgrade(rk, _) => Release(after, rk)
    case HelmGet(rk) => Release(after, rk)
    case _ => Done
  }

  function Release(c: Cluster, rk: ReleaseKey): Response {
    if rk in c.releases then GotRelease(|c.releases[rk]|, Latest(c.releases[rk]).manifest)
    else Failure(NotFound)
  }

  predicate Executes(c: Cluster, r: Request, o: Outcome) {
    !o.fault.Refused? && Admits(c, r)
  }

  function Serve(c: Cluster, r: Request, o: Outcome): (Cluster, Response) {
    if o.fault.Refused? then (c, Failure(Unavailable))
    else if !Admits(c, r) then (c, Failure(if o.fault.LostReply? then Unavailable else Rejection(c, r)))
    else
      var after := Effect(c, r, o);
      (after, if o.fault.LostReply? then Failure(Unavailable) else Answer(c, after, r, o))
  }

  /** The shapes a reply to each request can have. */
  predicate Fits(r: Request, a: Response) {
    a.Failure? ||
    match r
    case ReadApp(_) => a.GotApp?
    case UpdateStatus(_) => a.GotApp?
    case Update(_) => a.GotApp? || a.Done?
    case ReadSecret(_) => a.GotSecret?
    case ReadNamespace(_) => a.GotNamespace?
    case ListByNamespace(_) => a.GotApps?
    case ReadWorkload(_, _) => a.GotLive? && !a.live.Missing?
    case HelmHistory(_) => a.GotHistory?
    case HelmInstall(_, _) => a.GotRelease?
    case HelmUpgrade(_, _) => a.GotRelease?
    case HelmGet(_) => a.GotRelease?
    case _ => a.Done?
  }

  lemma ServeFits(c: Cluster, r: Request, o: Outcome)
    ensures Fits(r, Serve(c, r, o).1)
  {
  }
}
