# HelmWarden, modelled and proved in Dafny

HelmWarden is a Kubernetes operator: it reconciles an `Application` (chart, version, target namespace, optional values
Secret) into a Helm release, polls the release's workloads, and rolls the release back when a rollout goes wrong. This
project models its reconcile loop, its use of Helm, its lifecycle protocol and its health aggregation, and proves what
they guarantee over every run.

## How it is built

- `Api`, `Server`, `Conditions` — the stored objects, and the API server and Helm store: resource versions, the status
  subresource, finalizers, namespaces, Secrets, and one history per release. Every call can be refused, or can take effect
  and lose its reply; reads of Applications and of Secrets can be answered from a lagging cache.
- `Health` — the sweep over a release's workloads, and the order-free status it computes.
- `Controller` — the reconcile pass as a machine: a worker value for each point between two calls (`NextCall`), and where
  the reply takes it (`Resume`). Branches, poll intervals and status fields are those of the Go code; messages carry
  what the Go code prints in them.
- `Machine` — cluster, one worker and a log. A run is any sequence of user steps, ticks, passes beginning, calls with any
  outcome, and crashes between any two calls.
- `Operator` — the same code in its own form: classes whose methods change an in-memory `Application` step by step and
  call a mutable `Client`. Each method is proved to move the cluster exactly as the machine does; `Process` says so for a
  whole pass, and `Machine.PassIsRun` makes such a pass part of a run. What is proved of runs holds of this code.
- The other modules prove the properties, one topic each; `Soundness`, `Fresh`, `Passes` and `Ledger` hold the
  invariants and shapes they share. `Steady` isolates passes that nothing disturbs, for quiescence and latency, and
  `Neighbours` what such a pass leaves as it is for the other Applications.
- `Outcomes`, `Statuses`, `Reasons`, `Provenance`, `Surveys`, `Retries` and `Vigilance` say what a pass comes to with the keys,
  names, reasons and intervals written out: the release and status it leaves, what statuses say and why, where a revision
  comes from, what a look at the workloads makes of errors, how a pass can end, and when it is followed by another.

Health of workloads and the rendering of charts are chosen by the surroundings, call by call; `Steady.Nature` fixes them
where a property needs them fixed.

## Where the code and its documentation differ

The model follows the code.

- README.md:5 says "the last good revision". The code goes to the revision before the latest one
  (`internal/helm/release.go:128`). `Limits.RollbackUndoesUpgrade` says so exactly, `Limits.RollbackLandsOnBad` gives a
  case where that revision was never healthy, `KnownGood.KnownGoodExactly` says when the content is known good.
- The comment at `internal/controller/application_controller.go:198` says a rolled-back Application stays Degraded.
  `Overwritten.StaysDegradedExactly` says when it does; `Overwritten.DegradedIsOverwritten` is a case where it does not.
- A rollback is issued at most once per apply, not exactly once: `Limits.RollbackIssuedExactly`,
  `Limits.MissedRollbackStaysMissed`.
- Deployed does not imply Released=True: `ReleasedCondition.ReleasedExactly`, `ReleasedCondition.DeployedNotReleased`.
- Cleanup is complete only for Applications that keep their target namespace: `Orphans.EditKeepsGateExactly`,
  `Orphans.MovedReleaseIsOrphaned`.
- Status and Helm can disagree after a lost status write: `Outgrown.MirrorsExactly`, `Limits.LostRecordStaysLost`.

## Model

| member | source | states |
|---|---|---|
| Operator.ApplicationReconciler.Process | internal/controller/application_controller.go:83-159 | a whole pass, with any faults and crashes, leaves cluster, log and script where the machine says, with the machine's result; unless the process is gone, the gauge then counts the cluster the pass left |
| Operator.ApplicationReconciler.Reconcile | internal/controller/application_controller.go:83-159 | from the read of the Application on, the pass follows the machine to its end and returns the machine's result |
| Operator.ApplicationReconciler.Apply | internal/controller/application_controller.go:123-155 | the apply branch follows the machine from the namespace check to the recorded apply or the recorded failure |
| Operator.ApplicationReconciler.RecordApply | internal/controller/application_controller.go:139-154 | the in-place status changes of a fresh apply add up to the status the machine persists |
| Operator.ApplicationReconciler.ReconcileHealth | internal/controller/application_controller.go:164-218 | fetching, sweeping, and acting on the health follow the machine |
| Operator.ApplicationReconciler.DrivePhase | internal/controller/application_controller.go:183-217 | the phase switch leads to the machine's status and requeue |
| Operator.ApplicationReconciler.WriteIfChanged | internal/controller/application_controller.go:209-216 | the status is written exactly when comparing the in-memory copies shows a change, which is when the stored form changes |
| Operator.ApplicationReconciler.ReconcileDelete | internal/controller/application_controller.go:221-240 | uninstall, namespace, finalizer, in that order, stopping at the first error |
| Operator.ApplicationReconciler.EnsureNamespace | internal/controller/application_controller.go:244-263 | an absent namespace is made and marked; one made by somebody else in between is accepted |
| Operator.ApplicationReconciler.MaybeDeleteNamespace | internal/controller/application_controller.go:267-286 | deletes only a managed namespace with no live Application but this one |
| Operator.ApplicationReconciler.OtherApplicationsInNamespace | internal/controller/application_controller.go:289-303 | lists and counts; a positive count keeps the namespace |
| Operator.ApplicationReconciler.CountOthers | internal/controller/application_controller.go:294-302 | the loop counts exactly the listed Applications with another uid that are not being deleted |
| Operator.ApplicationReconciler.ResolveValues | internal/controller/application_controller.go:307-330 | the values and their hash agree; each of the three errors leads to its failure |
| Operator.ApplicationReconciler.Fail | internal/controller/application_controller.go:353-361 | a failure is recorded on the status and the pass ends in an error |
| Operator.Application.Condition | internal/controller/application_controller.go:364-372 | finding a condition in the list and overwriting it, or appending a new one, is the update of the map the server stores, and entries keep their places |
| Operator.ApplicationReconciler.ReleaseHealth | internal/controller/health.go:75-118 | without an error, the status is the worst that was seen, and unless it is Failed every workload was seen, in order |
| Operator.ApplicationReconciler.Observe | internal/controller/health.go:87-115 | one turn of the sweep keeps the aggregate the worst seen so far |
| Operator.ApplicationReconciler.WorkloadsFromManifest | internal/controller/health.go:50-69 | returns the workload documents in order, or an error exactly if some document does not decode |
| Operator.ApplicationReconciler.HandleUnhealthy | internal/controller/health.go:134-175 | already rolled back, nothing to go back to, or marker and rollback, as the machine does |
| Operator.ApplicationReconciler.WriteAhead | internal/controller/health.go:155-163 | the failed revision is persisted before anything is rolled back |
| Operator.ApplicationReconciler.RollBack | internal/controller/health.go:165-174 | a failed rollback is surfaced as RollbackFailed, a successful one goes on to be reflected |
| Operator.ApplicationReconciler.Reflect | internal/controller/health.go:169-174 | the new revision is shown if it can be fetched, and Degraded is recorded either way |
| Operator.ApplicationReconciler.SetDegraded | internal/controller/health.go:179-190 | Degraded is written only when it changes something |
| Operator.HelmManager.InstallOrUpgrade | internal/helm/release.go:74-118 | loads the chart, then upgrades a release with history and installs one without; each error names its action |
| Operator.HelmManager.LoadChart | internal/helm/release.go:175-186 | a chart that cannot be located or loaded is an error before any release is looked at |
| Operator.HelmManager.Rollback | internal/helm/release.go:122-135 | one rollback call, its error passed on |
| Operator.HelmManager.Get | internal/helm/release.go:139-149 | the latest revision and its manifest, or the error |
| Operator.HelmManager.Uninstall | internal/helm/release.go:153-172 | removes the release if it exists and succeeds if it does not |
| Operator.HelmManager.ReleaseExists | internal/helm/release.go:189-199 | tells a release with history from one without, or passes the error on |
| Machine.DriveIsRun | internal/controller/application_controller.go:83-159 | every pass ends, and is a run of the machine, whatever happens at its calls |
| Machine.PassIsRun | internal/controller/application_controller.go:83-159 | so is a pass that begins between passes |
| Controller.ResumeDescends | internal/controller/application_controller.go:83-159 | every reply brings a pass closer to its end |
| Retries.NoErrorSwallowed | internal/controller/application_controller.go:90-159 | under any script, a pass in which any call but Helm's rollback and the fetch after it meets an error ends with an error, so that it is run again, unless the process stops |
| Retries.NeverForgotten | internal/controller/application_controller.go:46-53 | in every run a pass that ends asks to be run again within 5 minutes or because of an error; unless the process stops, the Application is gone, or the finalizer write that triggers the next pass was made |
| Retries.RequeueMeansStored | internal/controller/application_controller.go:211-217 | in every run a pass that wrote a status and does not end with an error has that status in the store |
| Retries.RacesAreNoErrors | internal/controller/application_controller.go:244-286 | a namespace made or gone in between does not end a pass |
| Outcomes.FirstPass | internal/controller/application_controller.go:90-108 | an undisturbed pass over an absent Application does nothing; over a new one it adds the finalizer and nothing else |
| Outcomes.ValuesPass | internal/controller/application_controller.go:110-155 | values are the text of the named key of the named Secret, of values.yaml if no key is named; if they cannot be had the pass records ValuesError and ends with an error; new ones, or a new spec, are applied from the spec's chart, repository and version and recorded field by field; otherwise health is checked |
| Outcomes.HealthPass | internal/controller/health.go:129-190 | the seven cases of an undisturbed health check: what becomes of the release, the revisions, the phase, the conditions with reason and message, and whether the next look is in 30 seconds or 5 minutes |
| Surveys.SweepUnderFaults | internal/controller/health.go:86-117 | under any script without a crash, the i-th look is at the i-th workload in its namespace, and the sweep comes to what was shown: a look that fails or cannot be computed, before any failed workload, ends it with an error |
| Surveys.HealthUnderFaults | internal/controller/application_controller.go:164-181 | so a health check acts on exactly what could be seen; if the release or a workload that matters could not be read, it ends with an error and changes nothing |
| AtMostOnce.RollbackAtMostOncePerApply | internal/controller/health.go:142-167 | in every run, with stale reads, faults and crashes anywhere, between two rollbacks of an Application there is a persisted apply |
| Bounded.RollbacksAtMostApplies | internal/controller/health.go:142-167 | in every run, rollbacks number at most the persisted applies |
| Budget.AppliesWithinBudget | internal/controller/application_controller.go:117-154 | with fresh reads of Secrets, and Application reads as stale as may be, persisted applies number at most one more than the edits of the spec and of the values Secret |
| Budget.AppliesAtMostEdits | internal/controller/application_controller.go:117-154 | the one apply to spare is spent only while spec and values are those applied, or the Application is being deleted |
| Coherence.PersistedStatusesCohere | internal/controller/application_controller.go:139-149 | every persisted status: Ready iff Deployed; Deployed implies Healthy and no failed revision; a failed revision is at least 2 and goes only with RollingBack, Degraded, Deploying or Failed |
| Coherence.DeployedIsBacked | internal/controller/application_controller.go:167-195 | a Deployed status is persisted only if the generation stored at that moment is the observed one, the hash is that of the pass, and every workload of the manifest was read as Current |
| Statuses.StatusTellsCause | internal/controller/application_controller.go:139-149 | every persisted status has the phase of its cause: Deploying iff an apply or progress, Deployed iff healthy, Failed iff a failure, RollingBack iff the marker, Degraded iff unhealthy; with the conditions and reasons that go with it, stamped with the stored generation |
| Reasons.BlameIsFounded | internal/controller/health.go:134-165 | in every run, a status blames a failed workload only if the last look at the release found one, and the deadline only if it did not |
| Reasons.ReasonNamesStep | internal/controller/application_controller.go:110-138 | ValuesError, NamespaceError and HelmError name the step that failed, RollbackFailed and RolledBack whether Helm's rollback did |
| Reasons.TransitionsMoveWithTruth | internal/controller/application_controller.go:363-372 | whatever the reply, each condition of a status about to be written is kept or carries the current generation, and its transition time moves exactly with its truth |
| Reasons.OnlyChangesAreWritten | internal/controller/application_controller.go:209-216 | in every run, a status write other than an apply's or a failure's changes the stored status |
| Reasons.BooksMoveWithCause | internal/controller/application_controller.go:139-146 | in every run, what a stored status says of the release, its revision, generation, hash and start, changes only with an apply; but for the failed revision with the marker, and the revision with Degraded |
| Reasons.StatusNamesOwnRelease | internal/controller/application_controller.go:140-141 | every stored version of an Application names the release of its own name, or was never applied |
| ReleasedCondition.ReleasedExactly | internal/controller/application_controller.go:147-148 | in every run, Released=True iff no failure was recorded since the last persisted apply, whatever the phase |
| ReleasedCondition.DeployedNotReleased | internal/controller/application_controller.go:187-195 | a values Secret missing for one pass leaves a healthy Application Deployed with Released=False and nothing to apply |
| Generations.GenerationFixesSpec | api/v1alpha1/application_types.go:113-115 | versions of an Application with the same generation have the same spec, so the observed generation names one spec |
| Provenance.EveryRevisionIsAskedFor | internal/helm/release.go:74-118 | in every run, with fresh reads of Secrets and whatever else fails: each revision of each release has the chart, repository and version of a stored spec of an Application of that name and namespace, and values which the Secret it names once held under the key it names |
| Provenance.HelmIsAskedForTheSpec | internal/helm/release.go:174-186 | in every such run, charts are loaded and releases installed or upgraded for the spec the pass has read, with the values it has resolved, under the Application's name in its target namespace |
| Mirror.StatusMirrorsHelm | internal/controller/application_controller.go:120-154 | in orderly runs, with the last apply on record: without a failed revision HelmRevision is the latest revision and its content that of the observed spec and hashed values; with failed revision n, the latest is n, or n+1 with the content of n-1 |
| Provenance.StatusStandsForSpec | internal/controller/application_controller.go:120-154 | the same field by field: with the last apply on record and no revision marked, the release runs the chart, repository and version of the spec at the observed generation, with values of the recorded hash |
| Outgrown.MirrorsExactly | internal/controller/application_controller.go:120-154 | in orderly runs, while no revision is marked failed, status and Helm agree iff the last apply that took effect is on record |
| Restored.RollbackRestoresReplaced | internal/helm/release.go:120-135 | in orderly runs, every rollback that takes effect restores exactly what the last upgrade of the Application replaced, also after lost status writes |
| KnownGood.KnownGoodExactly | internal/controller/health.go:155-174 | so every rollback that takes effect restores content persisted as Deployed before iff the last upgrade started from such content |
| KnownGood.RollbackLandsOnKnownGood | internal/controller/health.go:155-174 | if each upgrade of the Application starts from a recorded Deployed release or a completed rollback, each of its rollbacks that takes effect restores a manifest persisted as Deployed before |
| Limits.RollbackUndoesUpgrade | internal/helm/release.go:122-135 | a rollback after an upgrade brings back exactly the revision before the upgrade |
| Limits.RestoredAsGoodAsReplaced | internal/helm/release.go:122-135 | the restored release is as healthy as the one the upgrade replaced, no better |
| Limits.RollbackLandsOnBad | internal/helm/release.go:128 | a concrete cluster in which a rollback restores a release that fails |
| Limits.RollbackIssuedExactly | internal/controller/health.go:155-167 | the rollback is issued iff the process lives on, and the marker's write meets no fault and finds the Application as the pass read it |
| Limits.MissedRollbackStaysMissed | internal/controller/health.go:144-165 | after a crash right behind the marker the rollback is never issued while spec and values stay the same, also if the values cannot be read for a while |
| Limits.LostRecordStaysLost | internal/controller/application_controller.go:120-152 | an upgrade whose status write is lost, and whose Secret is put back, is never made good: in every orderly run in which spec and values stay the same nothing is applied, and while no revision is marked failed status and Helm disagree |
| Sticky.NothingNewNothingApplied | internal/controller/application_controller.go:112-159 | while spec and values are those applied, no sequence of passes, health changes, rollbacks, faults, or a values Secret unreadable for a while applies the Application |
| Sticky.RollbackSticks | internal/controller/application_controller.go:112-159 | from a marked Application with nothing new to apply on, no sequence of passes, health changes, ticks, failures, or a values Secret missing or malformed for a while does Helm work for it until spec or values change or it is deleted |
| Overwritten.PhaseAfterPass | internal/controller/application_controller.go:186-207 | the phase of a rolled-back Application after any undisturbed pass |
| Overwritten.StaysDegradedExactly | internal/controller/application_controller.go:197-206 | over any visits, it stays Degraded iff no visit finds the release in progress within its deadline |
| Overwritten.DegradedIsOverwritten | internal/controller/application_controller.go:202-206 | a concrete rolled-back Application whose next poll sets Deploying |
| Lifecycle.FinalizerGate | internal/controller/application_controller.go:96-154 | in orderly runs, every release belongs to a stored Application with the finalizer, whatever fails |
| Lifecycle.NamespaceDropIsSafe | internal/controller/application_controller.go:244-303 | when a namespace is about to be deleted, after any user steps since the List, it is the operator's own and no live Application has a release in it |
| Namespaces.NoNamespaceLeaks | internal/controller/application_controller.go:221-303 | in patient runs, once every Application that targets it is finalized, in any order and with any retries, an operator-created namespace is gone |
| Namespaces.DeletionKeepsClaimsExactly | internal/controller/application_controller.go:267-286 | a user's deletion leaves every operator-created namespace with an Application to clean it up iff the Application has its finalizer, or does not target such a namespace, or another one targets it too, a third one if the cleanup of the other is past its count |
| Namespaces.ImpatienceLeaks | internal/controller/application_controller.go:275-281 | a case in which that fails: deleted before its first reconcile, after another's cleanup has counted it, an Application leaves the namespace behind |
| Orphans.MovedReleaseIsOrphaned | internal/controller/application_controller.go:227 | editing the target namespace leaves the old release, and an operator-created namespace, behind for ever |
| Orphans.EditKeepsGateExactly | internal/controller/application_controller.go:227 | an edit of the spec keeps every release owned iff it keeps the target namespace or there is no release yet |
| Deletion.SettledIsFinal | internal/controller/application_controller.go:221-240 | whenever a cleanup ends well, after any interrupted attempts, the cluster is in its final state |
| Deletion.QuietPassSettles | internal/controller/application_controller.go:221-240 | a cleanup that nothing disturbs ends well, from wherever an earlier one stopped |
| Deletion.DeletionConverges | internal/controller/application_controller.go:221-286 | interrupted attempts followed by a complete one leave what a single complete one leaves |
| Health.SweepIsWorst | internal/controller/health.go:84-117 | whenever the early-returning loop ends without an error, its status is the worst of the workloads' states, also if it never got to an unreadable one |
| Health.SweepPermutation | internal/controller/health.go:84-117 | two sweeps over the same sights in any order agree, and if all are usable neither ends in an error |
| Health.SweepOfConcat | internal/controller/health.go:84-117 | the sweep over two lists of workloads put together gives the worse of the two swept apart |
| Health.WorkloadsCount | internal/controller/health.go:50-69 | the workloads of a manifest are its documents of a workload kind, each as often as it occurs; an error iff some document does not decode |
| Steady.HealthOfConcat | internal/controller/health.go:71-118 | the health of two manifests deployed together is the worse of theirs |
| Steady.HealthOfPermutation | internal/controller/health.go:71-118 | the order of a manifest's documents makes no difference to its health |
| Health.SweepErrorExactly | internal/controller/health.go:93-104 | the loop ends in an error iff an unusable workload comes before any failed one |
| Health.DetailIsAboutTheBlamed | internal/controller/health.go:84-117 | the detail is about the first failed workload, or else the last one not current, and says what it shows |
| Health.WorkloadsConcat | internal/controller/health.go:50-69 | the workloads of a concatenation are those of its parts, and its errors theirs |
| Steady.PollingIsSweep | internal/controller/health.go:84-117 | polling workload by workload, in order, comes to what the sweep over all of them comes to |
| Steady.HealthIsWorst | internal/controller/health.go:75-118 | the status an undisturbed pass acts on, if it gets one, is the worst of the workloads' states, an empty release included |
| Steady.QuietStateIsRun | internal/controller/application_controller.go:83-159 | an undisturbed pass, its log included, is a run of the machine |
| Quiescence.PassSettles | internal/controller/application_controller.go:83-217 | an undisturbed pass changes nothing, or strictly lowers a measure of what is left to do |
| Fixpoint.ChangesAreBounded | internal/controller/application_controller.go:183-217 | with spec, values, rendering and health frozen, at most eight rounds of an Application change anything, however they are spaced and whatever rounds of other Applications, being deleted or not, come in between |
| Fixpoint.WritesAreBounded | internal/controller/application_controller.go:209-216 | in any number of rounds of any Applications in any order, at most sixteen versions are stored for each Application, so writes that trigger reconciles die out |
| Fixpoint.IdlePassMeansRest | internal/controller/application_controller.go:209-217 | once no deadline is running, a pass that changes nothing is at the fixpoint |
| Fixpoint.RestLasts | internal/controller/application_controller.go:209-217 | once all Applications that take turns are at the fixpoint, no later round changes anything |
| Fixpoint.NineRoundsSuffice | internal/controller/application_controller.go:183-217 | after nine rounds of each Application that begin when no deadline of its rollout is running, among any others and however spaced, no round of any of them writes or calls on Helm again |
| Fixpoint.TrueInTheEnd | internal/controller/application_controller.go:117-217 | the status is then the true one: Failed for values that do not resolve; otherwise the applied spec and values are on record, with Deployed, Healthy and Ready for a healthy release that was not rolled back, and Degraded for a failed or overdue one |
| Fixpoint.ReadyInTheEnd | internal/controller/application_controller.go:183-207 | from any state a run has reached, after those rounds, Ready=True iff all workloads are current and no revision is marked failed |
| Latency.DeadlineIsKept | internal/controller/application_controller.go:176-206 | if every request to come again is honoured, among visits to any other Applications, a rollout that never becomes healthy is on the rollback path by start + deadline + 30 s, and before the deadline only for a failed workload |
| Latency.ApplyStartsClock | internal/controller/application_controller.go:139-154 | a persisted apply is where that clock starts |
| Vigilance.LooksAgain | internal/controller/application_controller.go:47-53 | every visit that can tell the health of an applied release asks for another one in 30 seconds or 5 minutes |
| Vigilance.LaterFailureIsFound | internal/controller/application_controller.go:47-53 | so a release that fails or is overdue from some time on, however long after it was deployed, is on the rollback path within 5 minutes of that time |
| Watch.ApplicationsForSecret | internal/controller/application_controller.go:335-350 | one request for each Application whose values are read from the Secret and no others; none if the List fails |
| Watch.WatchIsExact | internal/controller/application_controller.go:386-395 | the index has an Application under a Secret iff resolving its values reads that Secret |
| Watch.UnwokenUnaffected | internal/controller/application_controller.go:332-350 | a change to a Secret changes neither what the other Applications read nor their hash |
| Watch.AffectedAreWoken | internal/controller/application_controller.go:332-350 | an Application that owes an apply to the change is woken |
| Metrics.RefreshActiveGauge | internal/controller/metrics.go:64-81 | after a List the gauge sums to the Applications not being deleted, each namespace has the number that target it, and only those have a gauge; after a failed List it is as before |
| Metrics.CountActive | internal/controller/metrics.go:69-76 | the counting loop establishes that, whatever the order of the list |
| Metrics.GuardAgrees | internal/controller/application_controller.go:289-303 | the count that guards a namespace is the gauge's, less one for an Application that is not being deleted |

Orderly runs (`Lifecycle.Orderly`): Application reads are fresh, target namespaces do not change, and no two Applications
have the same release name and namespace. Careful runs (`KnownGood.Careful`) add the condition on the upgrades of one
Application in the row above. Patient runs (`Namespaces.Patient`) add that no deletion takes away the last Application
that stands for an operator-created namespace: `Namespaces.DeletionKeepsClaimsExactly` says which deletions do not. Rounds
and visits are of Applications that do not share a release (`Neighbours.Apart`).

## Left out

- Helm's inside: rendering, hooks and waiting; a render is any manifest. Histories keep all revisions (the code keeps
  ten). A Helm call that fails either leaves the history alone or adds its revision all the same, as Helm does when an
  action fails after it was recorded; the status Helm keeps with each revision is not modelled.
- YAML decoding, values parsing, SHA-256 and kstatus: documents are decoded or broken, values parse or not, the hash is
  collision free, and a workload's status is whatever the surroundings say at the moment of the look.
- Condition messages are opaque values, one constructor per format, compared by equality.
- Deleting a namespace takes effect at once and takes its releases along; a namespace that lingers while terminating, and
  users deleting namespaces or annotating them as the operator's, are not modelled.
- Lists and namespace reads are fresh; a lagging cache is modelled for Applications and Secrets.
- Time stands still within a pass unless a tick is part of the run, and is counted in whole seconds.
- One worker; work-queue backoff, rate limits and leader election are left out. `Latency` and `Vigilance` rely on requests
  for another visit being honoured (`Latency.Honoured`), and on nothing after a pass that makes none.
- `internal/webhook/v1alpha1/application_webhook.go`, the latency histogram, the success counter, logging, generated
  code, manifests and wiring would only add easy members.
- `Reconcile`, `reconcileHealth`, `releaseHealth`, `handleUnhealthy` and `InstallOrUpgrade` are each split into
  several methods (`Apply`, `RecordApply`, `DrivePhase`, `WriteIfChanged`, `Observe`, `WriteAhead`, `RollBack`, `Reflect`,
  `RunAction`), so that each
  proof stays small. After a crash the rest of a pass is carried on with calls that have no effect.
- Watch.ApplicationsForSecret: watch handlers run beside the worker, so the handler sees one state of the cluster and is
  no step of the machine.
- Metrics.RefreshActiveGauge: the List after a pass sees the cluster as the pass left it; the gauge is no part of the
  machine's state.
- KnownGood.RollbackLandsOnKnownGood: a sufficient condition that can be checked before an upgrade; the exact condition is
  `KnownGood.KnownGoodExactly`.
- Quiescence and latency are stated for passes without faults that follow one another, of any Applications; passes that
  overlap, with faults, are in the properties of runs.
