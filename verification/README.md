# JobSet operator: a verified model

The JobSet operator keeps an operand running: one controller (`TargetConfigReconciler`) applies
thirteen objects in a fixed order, waits for cert-manager to fill two secrets, stamps their
versions into the operand's Deployment and reports in the status of the `JobSetOperator`
resource. Users, cert-manager, the Deployment controller and a second controller of the operator
change the same cluster at any moment, and the operator reads much of it from caches that lag.

The reconciler is modelled twice. `Machine` is a state machine: one step per call that `sync`
makes, with the environment free to act, and every call free to fail or to lose its answer,
between any two steps. `Reconciler` is `sync` as the operator runs it, straight-line code with
early returns on a class; it is proved to end in exactly the state the machine ends in, for
every plan of the environment (`Sync`), and any sync after any run is a stretch of that run
(`SyncInRun`). The theorems are about all runs of the machine, so they are about the code.

| module | part of the operator |
|---|---|
| `ClusterModel`, `Applying`, `ApiHistory` | the objects; the apply functions of library-go; the API server as the history of its states |
| `Machine`, `Plans`, `Reconciler` | `sync` as a state machine and as code |
| `Safety`, `Rotation`, `RecordedGeneration`, `Management`, `StatusRuns` | what holds over runs |
| `Convergence`, `Quiescence`, `Completion`, `QuietRuns`, `Settling`, `StaleStatus` | what a sync brings about when nobody else writes |
| `Promises` | what one undisturbed sync promises, written out in strings and fields |
| `GenerationGuard`, `Deletion`, `CaBundle`, `HookBundles` | the feedback loops through the cluster: the recorded generation and the CA bundles |
| `Template`, `Decimal`, `Conditions` | the pod template, decimal versions, status conditions |
| `Placeholders`, `NameInjection`, `AssetEdits`, `CrdFixes`, `LiveNames` | what is substituted and rewritten in decoded assets, and so in the live objects |
| `StaticAssets`, `TwoWriters`, `StampedInterleavings`, `SyncInterleavings` | the static resource controller, and its interleaving with the reconciler's applies and with whole syncs |
| `InformerFactory` | the shared informer factory |
| `OperatorStore`, `OperatorUpdates`, `StatusRetries`, `OperatorClient`, `ServerSideApply` | the operator client's reads, updates with their retries, and applies |

## What is taken for granted

- The API server stores what is written, without defaulting. It moves a generation when the spec
  changes and a resource version when anything changes. Resource versions come from one counter
  for the whole cluster; the version of an object is the position of its last change in the
  history. The operator may start over any such history, with its caches anywhere in it.
- A read at a version gives a state at least that new. Caches only move forward. Each controller
  has one worker.
- The apply functions of library-go are modelled on their code. Its resource cache, which only
  spares an apply that would find nothing to do, is not. No metadata key the operator requires
  ends in `-` (library-go would delete instead of set).
- The spec hash is ideal: two digests are equal when the specs are. Nobody but the operator makes
  up a spec-hash annotation of the Deployment; others keep it or drop it. Nobody but the operator
  records a Deployment generation that was not recorded before.
- Assets are parameters: complete, of the right shape, with the names the manifests in
  `bindata/assets` have. YAML decoding is not modelled.

## What the proofs found

- The skip of the Deployment apply trusts the generation recorded in the status. It is sound for
  every later edit and requirement exactly when the recorded generation is not ahead of the one
  the operator's last write produced (`GuardExact`, `FetchExact`). So it is in every sync that
  fetched such a record, as long as the Deployment is not deleted before the apply
  (`SkipSafeFromFetch`), and in every run without deletions, whatever else fails or lags
  (`SkipSafe`). After a deletion the new Deployment starts at generation 1; if the old record
  survives, because the last status update failed or was computed from a stale resource, a user's
  edit can reach the recorded generation and is then skipped over (`RecreatedExact`);
  `DeletionBreaksSkip` gives the run. One sync left alone on fresh caches that leaves the Deployment
  in form puts the record right again (`SyncHeals`), and whatever was recorded and cached before,
  the fourth sync of an undisturbed operator writes nothing (`SettlesAfterThree`).
- All but the Deployment converge whatever the cluster's past (`Converges`); the Deployment does
  exactly if its apply does not find the required metadata, the expected generation and another
  spec (`DeploymentExact`).
- A status update replaces the whole status by one computed from a cached resource. It succeeds
  against any resource it fetches, so a stale cache overwrites other writers' conditions, and the
  last update of a sync may find its result in the stale copy and write nothing. A sync left alone
  keeps a condition of another type exactly if its cached status has the live one or already is
  what both updates would make of it (`QuietSyncKeeps`), and leaves its report exactly if its
  cached status was not that report already, or the live status was too and the first update finds
  nothing to do (`QuietSyncReports`). `ReportCanBeLost` gives a run in which nobody else writes and
  a deployment lister that lags costs the report, `ConditionCanBeLost` one in which another
  writer's condition is lost.
- `manageCRD` dereferences nil when the live CRD exists without a conversion webhook client
  configuration (`PanicExact`, `PanicHappens`), and undoes a bundle injected between its own read
  and the write (`InjectionSurvives`); in all other runs it never loses one (`BundleNeverLost`).
- The retries around a status update can run out although nobody else writes and every call works:
  the live resource is only read when the cache shows the same version twice, so a cache that lags
  and moves through four older versions exhausts all four attempts. The call must succeed, whatever
  the cache does, exactly if there are not four such versions (`QuietExact`, `QuietCanFail`); with a
  cache that stays where it is it does by the second attempt (`StuckCache`).
- Replacing the name and the namespace placeholder commutes in every string exactly when neither
  value is a part of the other placeholder. Lower-case names, as Kubernetes has them, always
  qualify; names with capitals, which section 2.1 of RFC 1123 allows, need not, and an empty name
  never does (`ConfluentExact`).
- The static controller's applies can move the resource version the ConfigMap gets, and so the
  stamp in the Deployment's template. Two interleavings leave the same Deployment exactly if the
  ConfigMap needs no write to begin with, or as many of the static applies before it write in one
  as in the other; nothing else but the status reported of it can differ (`InterleavingsExact` for
  the applies, `SyncsExact` for whole syncs; `DifferenceHappens` gives two that differ).
- The paths put on the ServiceMonitor's endpoints contain a double slash, because the directory
  constant already ends in one (`RetargetEndpoints`).

## Model

| member | source | states |
|---|---|---|
| Reconciler.TargetConfigReconciler.Sync | pkg/operator/target_config_reconciler.go:101-239 | for every plan of the environment, one sync leaves the world, and returns the error, that the state machine ends in; if it observes a management state that is neither empty nor Managed, it leaves the cluster to the environment and returns no error |
| Reconciler.TargetConfigReconciler.Prologue | pkg/operator/target_config_reconciler.go:101-155 | from the management check to the operator resource, the code is where the machine is; it goes on exactly when managed and nothing failed |
| Reconciler.TargetConfigReconciler.Certificates | pkg/operator/target_config_reconciler.go:159-190 | the five early objects are applied and both secrets read in the machine's order; it goes on only with both secrets in hand |
| Reconciler.TargetConfigReconciler.Webhooks | pkg/operator/target_config_reconciler.go:192-215 | webhook configurations, CRD and monitoring objects follow the machine, with the secrets seen unchanged |
| Reconciler.TargetConfigReconciler.Workload | pkg/operator/target_config_reconciler.go:217-238 | with annotations holding both secret versions, ConfigMap, Deployment and final report follow the machine to the end |
| Reconciler.TargetConfigReconciler.GetOperatorState | pkg/operator/target_config_reconciler.go:102-108 | the sync goes on exactly if the observed resource is there and its management state is empty or Managed |
| Reconciler.TargetConfigReconciler.ReportAvailability | pkg/operator/target_config_reconciler.go:109-115 | the first status update is the machine's, from the deployment lister's answer |
| Reconciler.TargetConfigReconciler.CheckDependency | pkg/operator/target_config_reconciler.go:116-135 | without the Issuer kind the dependency is reported missing and the sync always fails |
| Reconciler.TargetConfigReconciler.ServerVersion | pkg/operator/target_config_reconciler.go:136-143 | the CRD is the legacy one exactly for a server at 1.31 or lower |
| Reconciler.TargetConfigReconciler.GetOperator | pkg/operator/target_config_reconciler.go:145-148 | the cached operator resource supplies owner, log level and recorded generation |
| Reconciler.TargetConfigReconciler.Manage | pkg/operator/target_config_reconciler.go:241-279 | one apply of the asset with its owner is the machine's apply step of that key |
| Reconciler.TargetConfigReconciler.ManagePlain | pkg/operator/target_config_reconciler.go:241-257 | the same for assets applied as they stand; the ConfigMap's result is kept |
| Reconciler.TargetConfigReconciler.CheckSecretReady | pkg/operator/target_config_reconciler.go:331-341 | a gate passes exactly when the cached secret has a certificate and a key |
| Reconciler.TargetConfigReconciler.ReadCurrentCrd | pkg/operator/target_config_reconciler.go:384-394 | the merged CRD is the required one with the live bundle |
| Reconciler.TargetConfigReconciler.ManageCrd | pkg/operator/target_config_reconciler.go:373-398 | read, fix-up and apply of the CRD are two steps of the machine |
| Reconciler.TargetConfigReconciler.ReportDone | pkg/operator/target_config_reconciler.go:228-238 | the last status update is the machine's and ends the sync |
| Reconciler.TargetConfigReconciler.DeploymentSpec | pkg/operator/target_config_reconciler.go:469-525 | rewriting the decoded Deployment in place gives the required spec |
| Reconciler.IsResourceRegistered | pkg/operator/target_config_reconciler.go:546-560 | found exactly when the group version is known and lists the kind |
| Reconciler.Cluster.UpdateStatus | vendor/github.com/openshift/library-go/pkg/operator/v1helpers/helpers.go:174-235 | an attempt that lands replaces the live status by the computed one, unless that changes nothing |
| Reconciler.Cluster.ApplyManifest | vendor/github.com/openshift/library-go/pkg/operator/resource/resourceapply/apps.go:92-161 | an apply call writes what the apply function decides on the live object, or nothing if refused |
| Reconciler.Cluster.Turn | pkg/operator/starter.go:157-168 | others act between any two calls of a sync |
| Plans.ExecIsRun | pkg/operator/target_config_reconciler.go:101-239 | a sync under any plan of the environment is a run of the state machine |
| Plans.SyncInRun | pkg/operator/starter.go:168 | a sync that starts after any run that left the worker idle ends like a stretch of that run |
| Plans.UnmanagedExec | pkg/operator/target_config_reconciler.go:106-108 | under every plan, a sync that observes another management state changes nothing |
| Promises.DoneExactly | pkg/operator/target_config_reconciler.go:101-239 | left alone, a sync gets to its end without an error if and only if the cached management state is empty or Managed, the Issuer kind is served, both cached secrets have a certificate and a key, and the live CRD has a webhook client configuration where the asset has one |
| Promises.NothingOtherwise | pkg/operator/target_config_reconciler.go:102-108 | with any other management state it makes no call, without an operator resource it fails |
| Promises.CallsMade | pkg/operator/target_config_reconciler.go:159-226 | in every state of every run, the applies of a sync are the first so many of these thirteen, more than five only after both secrets were read filled, and all of them at its end |
| Promises.OwnedAndLabelled | pkg/operator/target_config_reconciler.go:150-155 | after a completed quiet sync every object has its asset's metadata and the operator resource as owner, the Service also the hash of its spec |
| Promises.PlainObjects | pkg/operator/target_config_reconciler.go:241-330 | eight of them have their assets' specs |
| Promises.ServiceObject | pkg/operator/target_config_reconciler.go:252-257 | the Service has its asset's selector and type |
| Promises.HookObjects | pkg/operator/target_config_reconciler.go:343-371 | the webhook configurations have their assets' webhooks one by one, and their bundles where those have any |
| Promises.CrdObject | pkg/operator/target_config_reconciler.go:373-398 | the CRD has the bundle it had before, or the asset's if there was none, and the versions for old servers exactly at 1.31 or lower |
| Promises.DeploymentObject | pkg/operator/target_config_reconciler.go:465-526 | after every completed lone sync that brought it into form: --zap-log-level=debug exactly for Debug, Trace and TraceAll, the operand image for the placeholder, the termination policy everywhere, its hash annotation that of the live spec, the rest the asset's |
| Promises.DeploymentStamps | pkg/operator/target_config_reconciler.go:503-512 | and exactly four annotations over the asset's, with the versions of the secrets read and of the live ConfigMap |
| Promises.StatusWritten | pkg/operator/target_config_reconciler.go:228-238 | on fresh caches, the conditions, replicas and generation the status ends with, word for word |
| Promises.IssuerMissing | pkg/operator/target_config_reconciler.go:116-135 | without the Issuer kind the sync fails before its first apply and reports the missing dependency, word for word |
| Safety.GateAndPrefix | pkg/operator/target_config_reconciler.go:160-226 | in every state of every run the apply calls of a sync are a prefix of one order, and those behind the gates imply both secrets seen, filled, in that sync |
| Safety.GateInductive | pkg/operator/target_config_reconciler.go:181-190 | order, gates and cache positions are kept by every step of anyone, from every state that has them |
| Safety.GateRun | pkg/operator/target_config_reconciler.go:181-190 | they hold in every state of every run |
| Safety.CallsInOrder | pkg/operator/target_config_reconciler.go:160-226 | up to any step the calls are the prefix of the order, with more than five only behind both gates |
| Safety.ChainedRun | pkg/operator/target_config_reconciler.go:101-239 | over every run, resource versions are those of a history: carried over or new |
| ApiHistory.VersionsForward | pkg/operator/target_config_reconciler.go:185-190 | a later state never holds an older version of an object, not even after a deletion |
| Rotation.RotationForward | pkg/operator/target_config_reconciler.go:181-190 | over every run the secret versions stamped into the template never decrease |
| Rotation.RotationReaches | pkg/operator/target_config_reconciler.go:181-190 | a completed sync has stamped nothing older than what its cache had shown when it began |
| Rotation.StampRun | pkg/operator/target_config_reconciler.go:223-226 | the invariant: every stamp was held by the secret cache at its position, and positions only grow |
| RecordedGeneration.SkipSafe | pkg/operator/target_config_reconciler.go:520-525 | from any state whose readable records are honest, in every run that neither deletes the Deployment nor brings back an old record: when the Deployment apply skips, the live spec is the required one |
| RecordedGeneration.StampIsLive | pkg/operator/target_config_reconciler.go:503-525 | every Deployment apply not refused leaves the live template with the versions just read, if and only if it did not find the Deployment drifted behind its record |
| RecordedGeneration.HonestRun | pkg/operator/target_config_reconciler.go:228-231 | the invariant, from any state that has it: no generation recorded, cached or held is ahead of the live Deployment, nor hides a drift |
| GenerationGuard.GuardExact | vendor/github.com/openshift/library-go/pkg/operator/resource/resourceapply/apps.go:132-136 | the skip is sound for all later edits and requirements if and only if the recorded generation is not ahead of the last write's |
| GenerationGuard.GuardExactAnywhere | vendor/github.com/openshift/library-go/pkg/operator/resource/resourceapply/apps.go:132-136 | whatever Deployment is live, drifted or not: the skip is sound for all later edits and requirements if and only if the record is not ahead of it and, if it is its generation, the spec hash is that of the live spec - or there is no spec hash |
| GenerationGuard.RecreatedExact | pkg/operator/target_config_reconciler.go:228-231 | for a Deployment created anew, if and only if the recorded generation is at most 1 |
| Management.UnmanagedFrame | pkg/operator/target_config_reconciler.go:106-108 | while the observed state is unmanaged and from the moment the worker is idle, the whole cluster is what the environment makes of it |
| StatusRuns.FullSyncReports | pkg/operator/target_config_reconciler.go:109-238 | from the beginning of a sync to its last update, others writing in between: Degraded is False, replicas and generation are those of its Deployment, Available accordingly, and every other condition is as before the sync |
| StatusRuns.OtherConditionsKept | pkg/operator/target_config_reconciler.go:109-238 | over any run whose status updates have a current base, the operator changes no condition but its own two |
| StatusRuns.FinalStepReports | pkg/operator/target_config_reconciler.go:228-238 | the last update alone, from a current base |
| StatusRuns.FinalReportExact | pkg/operator/target_config_reconciler.go:228-238 | with any base, the promise holds after the last update exactly if the base did not hold it already or the live status did |
| StatusRuns.AvailableExact | pkg/operator/target_config_reconciler.go:528-544 | in a reported status Available is True exactly when replicas are set and all available; Degraded is False |
| StatusRuns.MissingDependencySurvives | pkg/operator/target_config_reconciler.go:124-135 | once every state the cache can show reports a missing dependency, it stays reported through any number of partial syncs, stale reads included |
| StatusRuns.StaleBaseOverwrites | pkg/operator/target_config_reconciler.go:109-115 | the first update of a sync replaces every other condition by its base's |
| StatusRuns.FirstUpdateKeeps | pkg/operator/target_config_reconciler.go:109-115 | with any base, the first update keeps another condition if and only if its base is what it would make of it, or has the same one |
| StatusRuns.MissingUpdateKeeps | pkg/operator/target_config_reconciler.go:124-135 | the same for the update that reports a missing dependency |
| StatusRuns.LastUpdateKeeps | pkg/operator/target_config_reconciler.go:228-238 | the same for the last update: if and only if its base already reports the Deployment, or has the same condition |
| StaleStatus.StatusOutcome | pkg/operator/target_config_reconciler.go:109-238 | the operator resource a sync left alone leaves, from the cached and the live status it began with and the Deployment it applied |
| StaleStatus.QuietSyncKeeps | pkg/operator/target_config_reconciler.go:109-238 | it keeps a condition of another type if and only if its cached status has the live one, or neither update finds anything to do in that status |
| StaleStatus.QuietSyncReports | pkg/operator/target_config_reconciler.go:109-238 | it leaves its report if and only if its cached status was not that report, or the live status was too and the first update finds nothing to do |
| StaleStatus.ReportLost | pkg/operator/target_config_reconciler.go:109-238 | from every healthy cluster whose Deployment the sync rescales to what is available, a run without other writers whose first sync reports it and whose second, with a lagging deployment lister, ends unreported over the same Deployment |
| StaleStatus.ReportCanBeLost | pkg/operator/target_config_reconciler.go:109-238 | there is such a cluster, with the asset's replica count |
| StaleStatus.ConditionLost | pkg/operator/target_config_reconciler.go:109-115 | from every healthy cluster whose cached status the first update would change, a condition another writer sets is gone after the next sync |
| StaleStatus.ConditionCanBeLost | pkg/operator/target_config_reconciler.go:109-115 | there is such a cluster, for every condition |
| Convergence.Converges | pkg/operator/target_config_reconciler.go:157-238 | from any cluster with any past, a completed sync nobody interrupted leaves each object in the form it required - the Deployment if the generations its cache may show are honest |
| Convergence.ConvergesInRuns | pkg/operator/target_config_reconciler.go:157-238 | for all thirteen, from every state a run without deletions leads to |
| Convergence.LoneRun | pkg/operator/target_config_reconciler.go:157-238 | the invariant: at every step, what was applied is in form and what was read is live |
| Convergence.DeploymentExact | pkg/operator/target_config_reconciler.go:223-226 | after a completed sync nobody interrupted, the Deployment is in form if and only if its apply did not find the required metadata, the expected generation and another spec |
| Convergence.RecordHeals | pkg/operator/target_config_reconciler.go:228-231 | a record left by a sync that brought the Deployment into form is honest again, whatever was recorded before |
| Completion.CompletesExactly | pkg/operator/target_config_reconciler.go:101-239 | left alone and with all calls answered, a sync completes if and only if the observed resource is managed, cert-manager is there, both cached secrets are filled and the live CRD is readable |
| Completion.QuietRun | pkg/operator/target_config_reconciler.go:101-239 | up to every step: it gets there exactly if the conditions of the steps before held when it began, and stops otherwise |
| Completion.HealthyConverges | pkg/operator/target_config_reconciler.go:157-238 | from any healthy cluster, one sync left alone brings every object into form - the Deployment if the generations the cache may show are honest |
| Completion.SomeSyncCompletes | pkg/operator/target_config_reconciler.go:101-239 | the hypotheses of the theorems about runs can be met, at every step of a sync |
| Deletion.DeletionBreaksSkip | pkg/operator/target_config_reconciler.go:223-231 | from every healthy state with a record of generation 2, a run with one deletion, one failed status update and one edit, in which a sync fetches a record that is not honest and then skips over the edit |
| Deletion.SkipCanBreak | pkg/operator/target_config_reconciler.go:223-231 | there is such a state, with a CRD asset that has a conversion webhook as the operator's has |
| Deletion.SkipSafeFromFetch | pkg/operator/target_config_reconciler.go:145-226 | if the generation a sync fetched is honest then and the Deployment is not deleted before its apply, a skip leaves the required spec |
| Deletion.FetchExact | pkg/operator/target_config_reconciler.go:145-226 | at the fetch, whatever Deployment is live then: the skip is sound for all later edits and requirements if and only if the fetched generation is honest, or there is no spec hash |
| QuietRuns.TrackedRun | pkg/operator/target_config_reconciler.go:101-221 | what a sync left alone has read at every step |
| QuietRuns.Still | pkg/operator/target_config_reconciler.go:159-226 | an object keeps still until the sync's own apply of it |
| Quiescence.Quiescent | pkg/operator/target_config_reconciler_test.go:50-58 | whatever the past, the sync after an uninterrupted one writes nothing, on caught-up caches, if what the first read was current; and if it completes, only if it was |
| Quiescence.SilentRun | pkg/operator/target_config_reconciler.go:101-239 | that second sync leaves the world alone at every step |
| Quiescence.SilenceMeansCurrent | pkg/operator/target_config_reconciler.go:185-226 | two complete syncs over the same live objects had to read the same |
| Settling.FreshReadsCurrent | pkg/operator/target_config_reconciler.go:101-239 | on fresh caches over a healthy cluster whose record is not ahead of its Deployment, a sync left alone completes and what it read is current at its end |
| Settling.FreshReports | pkg/operator/target_config_reconciler.go:109-238 | there the last update leaves its report, though computed from the resource cached before the first |
| Settling.FreshSettles | pkg/operator/target_config_reconciler.go:101-239 | so the sync after it writes nothing |
| Settling.SettlesAfterTwo | pkg/operator/target_config_reconciler.go:101-239 | from any caches, if the generations they may show are honest: after one completed lone sync, a catch-up and one sync left alone, the next writes nothing |
| Settling.SettlesAfterThree | pkg/operator/target_config_reconciler.go:101-239 | from any caches and any records: after one completed lone sync, a catch-up and two syncs left alone, the next writes nothing |
| Settling.SyncHeals | pkg/operator/target_config_reconciler.go:228-231 | a sync left alone on fresh caches records the live Deployment's generation, whatever was recorded before; if the Deployment is in form then, the records are honest again |
| Settling.LeftByRun | pkg/operator/target_config_reconciler.go:101-239 | a lone run leaves the secrets and all of the operator resource but its status as they are |
| Template.RolloutExact | pkg/operator/target_config_reconciler.go:475-518 | two syncs build the same template if and only if image (where used), log level class and all three versions are the same |
| Template.Stamps | pkg/operator/target_config_reconciler.go:503-512 | the versions and the required SCC can be read back from the template |
| Template.Promised | pkg/operator/target_config_reconciler.go:475-518 | the built template written out: arguments with the log level, images, termination policy, the four annotations, and everything else as in the asset |
| Template.ManageTemplate | pkg/operator/target_config_reconciler.go:475-518 | rewriting the container slices and annotations in place gives the template whose words `Promised` states, with the debug level exactly for Debug, Trace and TraceAll |
| Template.FillImages | pkg/operator/target_config_reconciler.go:475-485 | every container with the placeholder image gets the operand image, the rest is unchanged |
| Template.FallBack | pkg/operator/target_config_reconciler.go:513-518 | every container falls back to logs on error, the rest is unchanged |
| Template.LevelOf | pkg/operator/target_config_reconciler.go:487-495 | debug exactly for Debug, Trace and TraceAll |
| Template.MergeMap | vendor/github.com/openshift/library-go/pkg/operator/resource/resourcemerge/object_merger.go:153-186 | the required entries win, the others stay |
| Decimal.RenderInjective | pkg/operator/target_config_reconciler.go:185-221 | different versions are written differently |
| Decimal.RenderValue | pkg/operator/target_config_reconciler.go:185-221 | it is the decimal notation: digits, no leading zero, that value |
| Conditions.ConstructAvailableCondition | pkg/operator/target_config_reconciler.go:528-544 | True exactly when the Deployment is found, its replicas set and equal to the available ones; reason and message in every case |
| Conditions.SetConditionFind | vendor/github.com/openshift/library-go/pkg/operator/v1helpers/helpers.go:58-76 | afterwards the condition of the kind reads as set, every other as before |
| Conditions.SetConditionFrame | vendor/github.com/openshift/library-go/pkg/operator/v1helpers/helpers.go:58-76 | conditions keep their places, at most one is appended |
| Conditions.SetConditionIdle | vendor/github.com/openshift/library-go/pkg/operator/v1helpers/helpers.go:58-76 | setting what is set changes nothing, the transition time included |
| Conditions.SetConditionTime | vendor/github.com/openshift/library-go/pkg/operator/v1helpers/helpers.go:58-76 | the transition time moves exactly when the condition is new or its status flips |
| Conditions.ReportedWords | pkg/operator/target_config_reconciler.go:228-237 | what a status says that reports a Deployment, word for word, and nothing less does |
| Conditions.FinalTimes | pkg/operator/target_config_reconciler.go:228-237 | after the last update each transition time has moved exactly if its status flipped |
| Conditions.MissingWords | pkg/operator/target_config_reconciler.go:124-129 | what the update for a missing dependency puts there, and that it leaves the other conditions |
| Conditions.WithConditionIdle | vendor/github.com/openshift/library-go/pkg/operator/v1helpers/helpers.go:58-76 | setting a condition changes nothing exactly when the status has it |
| Conditions.FinalStatusReports | pkg/operator/target_config_reconciler.go:228-237 | the functions of the last update leave the promised report and touch two condition types only |
| Conditions.FinalStatusIdle | pkg/operator/target_config_reconciler.go:228-237 | they change nothing exactly when the status already reports the Deployment |
| Applying.SkipIffAgrees | vendor/github.com/openshift/library-go/pkg/operator/resource/resourceapply/core.go:134-189 | an apply writes nothing exactly when the live object agrees; for the Deployment, exactly when metadata and generation do |
| Applying.AppliedAgrees | vendor/github.com/openshift/library-go/pkg/operator/resource/resourceapply/apps.go:92-161 | an apply leaves the object in its required form, unless it skipped the Deployment |
| Applying.ApplyExact | vendor/github.com/openshift/library-go/pkg/operator/resource/resourceapply/apps.go:132-161 | the Deployment is in form after its apply if and only if it was not drifted behind its metadata and generation |
| Applying.KeepBundlesIdle | vendor/github.com/openshift/library-go/pkg/operator/resource/resourceapply/admissionregistration.go:170-181 | copying bundles gives back the live webhooks exactly when they agree with the required ones |
| Applying.BundlesKept | vendor/github.com/openshift/library-go/pkg/operator/resource/resourceapply/admissionregistration.go:105-181 | hook by hook after any apply, whatever else is new: the asset's bundle wins, one it leaves open is that of the live hook of the same name, and a new name has none |
| Applying.AppliedWhole | vendor/github.com/openshift/library-go/pkg/operator/resource/resourceapply/apps.go:92-161 | an apply leaves the object as it is or writes the required spec whole and the required metadata over the live one, where all other entries stay |
| Applying.ServiceStays | vendor/github.com/openshift/library-go/pkg/operator/resource/resourceapply/core.go:134-189 | a Service with the required metadata is left alone if and only if selector and type are as required |
| HookBundles.CopyCABundles | vendor/github.com/openshift/library-go/pkg/operator/resource/resourceapply/admissionregistration.go:170-181 | the two loops copy, by name and in place, exactly the bundles that are not set |
| HookBundles.StepKeepsBundle | vendor/github.com/openshift/library-go/pkg/operator/resource/resourceapply/admissionregistration.go:105-181 | no step of the operator, in any state, changes the live bundle of a webhook the asset leaves open |
| HookBundles.InjectedStays | vendor/github.com/openshift/library-go/pkg/operator/resource/resourceapply/admissionregistration.go:105-181 | so over any run it stays until others change it |
| Applying.MergedIdle | vendor/github.com/openshift/library-go/pkg/operator/resource/resourcemerge/object_merger.go:153-186 | merging metadata changes nothing exactly when all that is required is there |
| ApiHistory.ApplyMoves | vendor/github.com/openshift/library-go/pkg/operator/resource/resourceapply/apps.go:92-161 | an apply touches its one object and nothing else of the cluster |
| CaBundle.BundleNeverLost | pkg/operator/target_config_reconciler.go:384-394 | in every run in which nobody changes the bundle between its read and its write, no step of the operator changes a live bundle |
| CaBundle.InjectionSurvives | pkg/operator/target_config_reconciler.go:384-397 | the bundle after the write is the one that was read, or the asset's if there was no CRD; a bundle live before the write survives exactly if it is that one |
| CaBundle.PanicExact | pkg/operator/target_config_reconciler.go:390-393 | the read panics exactly when the live CRD exists without a webhook client configuration and the asset has one |
| CaBundle.PanicReached | pkg/operator/target_config_reconciler.go:390-393 | with such a CRD in a cluster that is healthy otherwise, every sync left alone gets that far and panics |
| CaBundle.PanicHappens | pkg/operator/target_config_reconciler.go:390-393 | there is such a cluster |
| CaBundle.WrittenBundle | pkg/operator/target_config_reconciler.go:390-397 | the apply leaves the bundle that was read, or the asset's |
| CrdFixes.CustomCRDFixes | pkg/operator/target_config_reconciler.go:400-414 | on servers at 1.31 or lower every rule slice that versions named v1alpha2 lead to is fixed through the copies, no other, and nothing on newer servers; it panics exactly at a nil on the path |
| CrdFixes.FixRules | pkg/operator/target_config_reconciler.go:405-410 | every matching rule of the slice is rewritten in place |
| CrdFixes.Walk | pkg/operator/target_config_reconciler.go:404 | the walk along the path, with its nil dereferences |
| CrdFixes.TargetPath | pkg/operator/target_config_reconciler.go:404 | the path is spec, volumeClaimPolicies, its items, their validation rules |
| CrdFixes.FixAllExact | pkg/operator/target_config_reconciler.go:405-410 | same length, order, messages; the new rule, word for word, exactly where the message is that one |
| CrdFixes.FixAllTwice | pkg/operator/target_config_reconciler.go:405-410 | fixing twice is fixing once |
| CrdFixes.FixTwice | pkg/operator/target_config_reconciler.go:400-414 | running the fix-up twice leaves the CRD as running it once |
| Placeholders.Index | pkg/operator/target_config_reconciler.go:573-583 | the first occurrence, or none anywhere |
| Placeholders.ConfluentExact | pkg/operator/target_config_reconciler.go:576-580 | two placeholders can be replaced in either order in every string if and only if neither name is a part of the other placeholder |
| Placeholders.Conflict | pkg/operator/target_config_reconciler.go:576-580 | otherwise a string on which the two orders differ, and how |
| Placeholders.OccurrencesAfter | pkg/operator/target_config_reconciler.go:576-580 | where a placeholder occurs after a replacement, exactly |
| Placeholders.IndexAfter | pkg/operator/target_config_reconciler.go:576-580 | where its first occurrence goes |
| Placeholders.CountAfter | pkg/operator/target_config_reconciler.go:576-580 | one occurrence of the replaced placeholder goes, none of any other |
| Placeholders.Apart | pkg/operator/target_config_reconciler.go:576-580 | two placeholders never overlap |
| Placeholders.LowerIsForeign | pkg/operator/target_config_reconciler.go:576-580 | a name with a lower-case letter, digit, dash or dot is a part of no placeholder |
| NameInjection.InjectService | pkg/operator/target_config_reconciler.go:573-583 | the switch and the two replacements compute the specified injection |
| NameInjection.InjectedExact | pkg/operator/target_config_reconciler.go:573-583 | for every prefix and all names: either order, one occurrence of each, the exact length, every other placeholder untouched |
| NameInjection.SyntaxesAgree | pkg/operator/target_config_reconciler.go:574-581 | parenthesised and braced placeholders are interchangeable |
| NameInjection.InjectedHost | bindata/assets/jobset-controller-generated/cert-manager.io_v1_certificate_jobset-serving-cert.yaml:15-17 | a host-name template becomes name.namespace and its tail, in either syntax |
| NameInjection.HostWords | pkg/operator/target_config_reconciler.go:573-583 | for every prefix and tail, $(P_NAME).$(P_NAMESPACE) becomes name.namespace, in braces too |
| NameInjection.ServerNameCovered | bindata/assets/jobset-controller-generated/monitoring.coreos.com_v1_servicemonitor_jobset-controller-manager-metrics-monitor.yaml:33 | for every namespace the endpoint's server name is one of the metrics certificate's DNS names |
| AssetEdits.SetDNSNames | pkg/operator/target_config_reconciler.go:562-571 | every DNS name is injected in its place and nothing else changes; an error and no change without a list of strings |
| AssetEdits.RetargetEndpoints | pkg/operator/target_config_reconciler.go:442-452 | every endpoint's TLS configuration is retargeted - the mounted certificate and key files, no references - and the list is as it was; a panic exactly at a missing one |
| AssetEdits.NameMetrics | pkg/operator/target_config_reconciler.go:306-455 | after both loops every endpoint checks for a name the certificate carries |
| AssetEdits.InjectCertManagerCA | pkg/operator/target_config_reconciler.go:585-596 | the one annotation is rewritten; an error exactly if it is missing |
| AssetEdits.CaSourceAgrees | pkg/operator/target_config_reconciler.go:590-593 | its order of replacement gives what the other order gives, namely the serving certificate in the namespace |
| AssetEdits.CaWords | pkg/operator/target_config_reconciler.go:585-596 | the assets' annotation becomes namespace/jobset-serving-cert |
| LiveNames.MetricsSpecs | pkg/operator/target_config_reconciler.go:306-455 | the specs written are those of the asset with every DNS name injected and every endpoint retargeted |
| LiveNames.LiveNamesCovered | pkg/operator/target_config_reconciler.go:306-455 | with manifests edited so, after any completed lone sync every endpoint of the live ServiceMonitor checks for a DNS name of the live certificate |
| LiveNames.LiveRules | pkg/operator/target_config_reconciler.go:384-414 | and the live CRD has the asset's validation rules, fixed exactly on an old server |
| StaticAssets.Prepare | pkg/operator/starter.go:77-123 | owner appended with its name and UID, namespace replaced where there is one, subjects of the two kinds of bindings moved, nothing else; an error changes nothing |
| StaticAssets.MoveSubjects | pkg/operator/starter.go:109-115 | every subject is moved in its place |
| TwoWriters.Disjoint | pkg/operator/starter.go:124-137 | no object of the static list is one the reconciler applies or a secret it reads |
| TwoWriters.Interleavings | pkg/operator/starter.go:164-168 | any two interleavings of the same applies of both controllers leave the same contents - the Deployment's by the ConfigMap's version; what decides that beforehand is `InterleavingsExact` |
| TwoWriters.QuietConfigMap | pkg/operator/target_config_reconciler.go:217-221 | if the ConfigMap needs no write it gets none in any interleaving, and its version stays |
| TwoWriters.StampCanDiffer | pkg/operator/target_config_reconciler.go:217-221 | if it needs one, its version tells whether a static apply came before it |
| StampedInterleavings.InterleavingsExact | pkg/operator/starter.go:164-168 | all contents are the same, the Deployment's if and only if the ConfigMap needs no write to begin with, or the static applies before it add as many writes, run alone from the beginning, in one interleaving as in the other |
| StampedInterleavings.StampedVersion | pkg/operator/target_config_reconciler.go:217-221 | the ConfigMap's version: its old one if it needs no write, else the writes before it of both writers alone, counted from the beginning |
| StampedInterleavings.AddedParts | pkg/operator/starter.go:164-168 | before the Deployment's apply, an interleaving writes as often as both writers alone |
| StampedInterleavings.WritesUnlessInForm | pkg/operator/target_config_reconciler.go:217-221 | the ConfigMap needs a write exactly when it is not in form |
| StampedInterleavings.InterleavingsDiffer | pkg/operator/starter.go:164-168 | where ConfigMap and one static object are missing, two full interleavings that leave different Deployments |
| StampedInterleavings.DifferenceHappens | pkg/operator/starter.go:164-168 | there is such a beginning |
| SyncInterleavings.SyncsExact | pkg/operator/starter.go:157-168 | whole syncs with reads, gates, status updates and any endings of their calls, beside the same static applies: equally far, the same error, the same contents - the Deployment's, once done, if and only if the same condition holds, and then with the same operator resource |
| SyncInterleavings.Together | pkg/operator/starter.go:157-168 | the induction over both runs: they differ in versions only, and the ConfigMap's by what was added before it |
| SyncInterleavings.TwinStep | pkg/operator/target_config_reconciler.go:101-239 | one step of the sync keeps two such runs together |
| SyncInterleavings.StaticMoves | pkg/operator/starter.go:124-137 | an apply of the static controller is something the environment of the state machine may do |
| TwoWriters.StaticInvisible | pkg/operator/starter.go:77-137 | a static apply changes nothing the reconciler reads or writes |
| TwoWriters.TwoRuns | pkg/operator/target_config_reconciler.go:159-226 | the induction for the reconciler's objects |
| TwoWriters.TwoStaticRuns | pkg/operator/starter.go:124-137 | the induction for the static controller's objects |
| TwoWriters.VersionBlind | vendor/github.com/openshift/library-go/pkg/operator/resource/resourceapply/apps.go:92-161 | no apply decides or writes by resource version |
| TwoWriters.DeploymentTells | pkg/operator/target_config_reconciler.go:221-223 | equal Deployments after the apply mean equal ConfigMap versions |
| InformerFactory.ExactlyOnce | pkg/generated/informers/externalversions/factory.go:145-161 | over every interleaving: one informer per type, never replaced, run at most once, as many goroutines as started types |
| InformerFactory.ShutdownIsFinal | pkg/generated/informers/externalversions/factory.go:163-171 | nothing starts once a shutdown has begun; when the wait group is empty nothing runs ever after |
| InformerFactory.InvRun | pkg/generated/informers/externalversions/factory.go:145-171 | the invariant over every interleaving |
| InformerFactory.GrowsRun | pkg/generated/informers/externalversions/factory.go:145-244 | what no interleaving takes back |
| InformerFactory.OwnIdsRun | pkg/generated/informers/externalversions/factory.go:222-244 | no two types ever share an informer |
| InformerFactory.SharedInformerFactory.InformerFor | pkg/generated/informers/externalversions/factory.go:222-244 | the registered informer, or a new one with the type's own resync period or else the default one |
| InformerFactory.SharedInformerFactory.StartWithContext | pkg/generated/informers/externalversions/factory.go:145-161 | launches exactly the informers not started; afterwards all registered types are started, unless shutting down |
| InformerFactory.SharedInformerFactory.LaunchAll | pkg/generated/informers/externalversions/factory.go:153-160 | the loop, in any order |
| InformerFactory.SharedInformerFactory.Shutdown | pkg/generated/informers/externalversions/factory.go:163-171 | returns, and releases the informer name, exactly when no goroutine runs |
| InformerFactory.SharedInformerFactory.Snapshot | pkg/generated/informers/externalversions/factory.go:179-190 | exactly the registered and started informers, synced or not |
| InformerFactory.SharedInformerFactory.WaitFor | pkg/generated/informers/externalversions/factory.go:192-197 | returns only when all have synced or the context is cancelled, and at once if so already; if it does not return, one of them has not |
| InformerFactory.SharedInformerFactory.Report | pkg/generated/informers/externalversions/factory.go:199-210 | every report is true to a moment of the call; a failure implies a cancelled context |
| InformerFactory.SharedInformerFactory.WaitForCacheSyncWithContext | pkg/generated/informers/externalversions/factory.go:178-218 | reports exactly the informers registered and started at the call; unless the context is cancelled by the return all of them have synced and no error is set; the error is unset exactly when all reported have synced |
| OperatorStore.SameVersion | pkg/operator/operatorclient/interfaces.go:61-87 | equal versions mean nothing happened in between |
| OperatorStore.ApiServer.Get | pkg/operator/operatorclient/interfaces.go:61-65 | a read at a version is of a state at least that new, an unversioned one of the latest |
| OperatorUpdates.UpdateExact | pkg/operator/operatorclient/interfaces.go:61-87 | an update lands exactly when what was fetched is still live, and changes its half only |
| OperatorUpdates.NothingLost | pkg/operator/operatorclient/interfaces.go:61-87 | if the fetched version is the one computed from, nobody's update is lost; in general, one is exactly if the half has changed since |
| OperatorUpdates.LostUpdate | pkg/operator/operatorclient/interfaces.go:75-87 | otherwise another writer's status is overwritten |
| OperatorClient.JobSetOperatorClient.GetOperatorState | pkg/operator/operatorclient/interfaces.go:41-50 | the cache once synced, the live resource before, with its version; it fails exactly if the live read does |
| OperatorClient.JobSetOperatorClient.GetOperatorStateWithQuorum | pkg/operator/operatorclient/interfaces.go:52-58 | the live resource |
| OperatorClient.JobSetOperatorClient.GetObjectMeta | pkg/operator/operatorclient/interfaces.go:89-103 | the metadata, from the cache once synced |
| OperatorClient.JobSetOperatorClient.UpdateHalf | pkg/operator/operatorclient/interfaces.go:60-87 | fetch at a version, replace one half, update: every way it can end |
| OperatorClient.JobSetOperatorClient.Put | pkg/operator/operatorclient/interfaces.go:67-70 | the server's side: conflict, not found, or the half written |
| OperatorClient.JobSetOperatorClient.UpdateOperatorSpec | pkg/operator/operatorclient/interfaces.go:60-73 | success means the spec was written over the fetched version; conflict and not-found write nothing |
| OperatorClient.JobSetOperatorClient.UpdateOperatorStatus | pkg/operator/operatorclient/interfaces.go:75-87 | the same for the status |
| OperatorClient.JobSetOperatorClient.UpdateStatus | vendor/github.com/openshift/library-go/pkg/operator/v1helpers/helpers.go:174-235 | at most four attempts; success means no change was needed, or what the functions made of one state was written over the live status and over nothing else; it must succeed if the first read is live and nobody writes after it, or on a quiet server with a cache that stays; Failed, NotFound and Conflict mean what they say |
| OperatorClient.JobSetOperatorClient.Attempt | vendor/github.com/openshift/library-go/pkg/operator/v1helpers/helpers.go:183-229 | one attempt: read, compute, update, or nothing if nothing changes |
| OperatorClient.JobSetOperatorClient.Read | vendor/github.com/openshift/library-go/pkg/operator/v1helpers/helpers.go:189-202 | its read, of the live resource if the cache shows the version that failed before |
| OperatorClient.JobSetOperatorClient.Submit | vendor/github.com/openshift/library-go/pkg/operator/v1helpers/helpers.go:204-228 | its update |
| StatusRetries.Uncontested | vendor/github.com/openshift/library-go/pkg/operator/v1helpers/helpers.go:189-228 | an attempt succeeds if what it reads is live, its calls work and nobody writes after the read; the status is what the functions make of it, everything else as it was |
| StatusRetries.UncontestedAgain | vendor/github.com/openshift/library-go/pkg/operator/v1helpers/helpers.go:194-228 | and after a conflict with a cache that has not moved, if nobody writes after the live read |
| StatusRetries.SucceedsAt | vendor/github.com/openshift/library-go/pkg/operator/v1helpers/helpers.go:178-234 | the call succeeds if any attempt it reaches is uncontested |
| StatusRetries.FailedTells | vendor/github.com/openshift/library-go/pkg/operator/v1helpers/helpers.go:178-234 | Failed: the last call made had a fault |
| StatusRetries.NotFoundTells | vendor/github.com/openshift/library-go/pkg/operator/v1helpers/helpers.go:178-234 | NotFound: the resource was missing in a state no older than what the cache shows |
| StatusRetries.ConflictTells | vendor/github.com/openshift/library-go/pkg/operator/v1helpers/helpers.go:178-234 | Conflict: in each of the attempts what had been fetched was no longer live |
| StatusRetries.StuckCache | vendor/github.com/openshift/library-go/pkg/operator/v1helpers/helpers.go:194-202 | on a quiet server a cache that stays where it is costs at most one attempt, however stale it is |
| StatusRetries.QuietExact | vendor/github.com/openshift/library-go/pkg/operator/v1helpers/helpers.go:178-234 | on a quiet server the call succeeds whatever the cache does if and only if the cache cannot show four older versions, one after the other, that the functions change |
| StatusRetries.QuietCanFail | vendor/github.com/openshift/library-go/pkg/operator/v1helpers/helpers.go:178-234 | there is such a server |
| ServerSideApply.ForcedOwns | pkg/operator/operatorclient/interfaces.go:132-135 | after a forced apply the manager owns exactly what it asked for, others exactly what it did not change |
| ServerSideApply.TimesOnly | vendor/github.com/openshift/library-go/pkg/operator/v1helpers/canonicalize.go:36-57 | only transition times are filled in, and kept while the status is |
| ServerSideApply.ApplyClient.ApplySpec | pkg/operator/operatorclient/interfaces.go:132-138 | a forced apply of the spec, creating the resource if need be, leaves the status alone |
| ServerSideApply.ApplyClient.ApplyStatus | pkg/operator/operatorclient/interfaces.go:176-182 | a forced apply of the status fails without a resource and leaves the spec alone |
| ServerSideApply.ApplyClient.ApplyOperatorSpec | pkg/operator/operatorclient/interfaces.go:105-141 | it fails exactly if nothing is asked for, the read fails, or the apply is needed and fails; success has a moment during the call at which the manager's fields were exactly the request, on every path |
| ServerSideApply.ApplyClient.ApplyOperatorStatus | pkg/operator/operatorclient/interfaces.go:143-185 | the same for the status, up to transition times; the apply also fails without a resource |
| ServerSideApply.ApplyClient.StatusRequest | pkg/operator/operatorclient/interfaces.go:156-174 | nothing to apply exactly if the manager owns just that, else the request with its transition times |

## Left out

- SkipSafe: is about runs without deletions of the operand Deployment, and `SkipSafeFromFetch` about syncs without; with one it is false (`DeletionBreaksSkip`), and `GuardExactAnywhere`, `RecreatedExact` and `FetchExact` say exactly what the recorded generation must be.
- Converges: a Service agrees when selector, type and spec hash do, because `ApplyService` compares no more, and a webhook configuration may carry bundles the asset leaves open.
- FullSyncReports: takes it that each status update is computed from the resource that is live when it lands; exactly what a stale one does instead is `FirstUpdateKeeps`, `LastUpdateKeeps` and `FinalReportExact` for one update and `QuietSyncKeeps` and `QuietSyncReports` for a sync left alone.
- StaleBaseOverwrites: is about the first update of a sync; the last one is `LastUpdateKeeps`.
- Interleavings: has the condition for the Deployment on the outcome; on the beginning it is `InterleavingsExact`, and with reads, gates and status updates `SyncsExact`, whose caches do not move during the sync and whose status updates start from states not newer than its beginning.
- Cluster.UpdateStatus: one attempt, the one that lands or fails for good, computed from the cached resource or a newer one; the retry loop with its reads is `OperatorClient.JobSetOperatorClient.UpdateStatus`, and that it can run out of attempts is a call that fails here.
- RotationReaches: says what a completed sync has stamped; when a sync completes is `CompletesExactly`, for one that is left alone; with others at work nothing makes it.
- ApplyOperatorStatus: conditions are fields keyed by type, so the order of the list, which the comparison before the apply also looks at, is not modelled.
- WaitForCacheSyncWithContext: a call that never returns is one that is still waiting when the other threads have nothing left to do.
- RetargetEndpoints: takes it that decoding gives every endpoint its own TLS configuration.
- CustomCRDFixes: the rest of the CRD's schema; in the state machine the fixed versions are a second text, used exactly for old servers.
- YAML decoding, embedded files, discovery, watches, events, the resource cache and the work queue of library-go, back-off and resync times: calls and their failures only.
- The log level controller, the separate controller-degraded condition, `PatchOperatorStatus`, `ApplyServiceMonitor` and the generated clients: thin wrappers or generic code.
- `Start` and `WaitForCacheSync` of the informer factory, and its options' setters: they pass on to what is modelled.
- LiveNamesCovered: how the edited lists are written into a spec is a parameter that can be read back; the rest of the spec is not looked at.
- The assignment of namespaces, subjects and webhook services to decoded assets in the reconciler: part of the manifests, which are parameters but for what `LiveNames` says of them.
