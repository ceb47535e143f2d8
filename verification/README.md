# Verified model of the Site operator

The operator turns a `Site` resource (a WordPress installation) into ten Kubernetes objects: a Secret of generated
passwords, a MariaDB Database, User and Grant when provisioning is asked for, two ConfigMaps, a Deployment, a
Service, an Ingress and a claim. This project models its controller in Dafny and proves what holds over all runs:
of one worker that may be cut off after any API call, of many workers for many Sites, and of several managers on
one Site, since nothing in the chart turns leader election on.

## How it is modelled

- **Store.** A `World` maps each key (kind, namespace, name) to the whole history of that object. The resource
  version is the length of the history; a lagging cache returns an older entry.
- **Machine.** A `Thread` is one run of Reconcile. `Step` is one API call of a thread: the fetch of the Site, a
  read, a create, an update, a delete, or one of the three calls of the status update. A call may get lost, or take
  effect and still look failed. `Run` interleaves the calls of any number of threads with starts and restarts, spec
  edits, other writers of conditions, the Deployment controller, and anything else in the cluster (`Meddle`).
- **Wants.** `Objects.Desired` and `Objects.Mutate` say what a mutate function makes of the object it read;
  `Objects.OpFor` says how each object is treated (skip, refuse, create or update with so many attempts, delete if
  owned).
- **The program.** `Drafts.Draft` holds an object in memory and changes its fields as the closures do;
  `Reconciler.SiteReconciler` runs CreateOrUpdate, RetryOnConflict, the reconcile functions with their early exits,
  and the deferred status update. Each API call of its methods is one event of the machine, and others may do
  anything between two calls, so `Reconcile` is proved to be one thread of a run of the machine: every theorem about
  runs is a theorem about it.
- **One worker in a run.** `Runs.LastFetch` says what job a thread is on, `Runs.Settled` when an object is as a job
  wants it, `Runs.Through` that the worker has got past all parts, and `Runs.Orderly` what is asked of the events of
  a single-worker run: the Site's worker reads fresh and has no rival, and nobody else writes the objects in question.
  Rollouts, edits, other writers of the status, aborts and all other Sites' workers are free.
  `Provenance.Writers` lists the jobs whose writes took effect since an object was created, and `Ordering.Mark` gives
  the version of the Site that the worker had fetched when it last brought an object up.
- **Around it.** `Status` (conditions and rollout), `NginxConfig` and `Text` (the rendered server block), `Checksum`
  (the framing of the hashed texts), `Environment` and `Variables` (container variables and the Secret keys they read).
- **What is stored.** `References` and `Contents` say what stored objects contain and how they refer to each other, in
  terms of the spec and the manager's flags alone.

Assumed of the API server and the world, openly: an update that changes nothing makes no new version; the defaults
the server fills in are a function of what the operator wrote, so an object is either defaulted or not; a Site keeps
its UID (its namespace and name stand for it); the hash is free of collisions (as expected of SHA-256, section 6.2
of FIPS 180-4); random keys come from a draw per reconcile; one clock reading serves one status update; names are
byte strings.

## What it found

Claims one would like to make, and where the code departs from them. Each has its exact condition, most of them an
example as well.

- A Site whose `existingClaim` is spelled `<site>-data` has that claim deleted by the operator, when the operator
  controls it, while the Deployment mounts it (`Claims.DeletedClaimMountedIff`, `Examples.OwnNameExample`). So has
  another Site that brings it (`Claims.DeletedClaimMountedElsewhereIff`).
- A generated admin password is exported as `ADMIN_PASSWORD`, but the start script reads `WP_ADMIN_PASSWORD`
  (`Environment.AdminPasswordDefinedIff`, `Environment.GeneratedPasswordNeverRead`).
- `observedGeneration` is the generation at the time of the status write: the one reconciled plus the changes of spec
  since (`StatusWrites.ObservedIsReconciledIff`, `StatusWrites.ObservedAheadOfReconciled`).
- An ingress class, once set, is never cleared (`Convergence.ClassFollowsSpecIff`, `Examples.ClassStaysExample`).
- A delete carries no precondition, so it can hit an object that replaced the one that was read
  (`Ownership.DeleteTakesWhatIsThere`, `Ownership.DeleteRace`).
- A NUL in a configuration text lets two different pairs of texts have one checksum
  (`Checksum.PairPinnedDownIffNulFree`).
- A user reference into the Site's own generated Secret can name a key that is not there
  (`Secrets.DeploymentServedIff`, `Examples.DanglingExample`).
- A cache that lags by one version can make a worker skip a ConfigMap and leave an annotation that fits other texts
  (`LaggingRun.LaggingReadBreaks`), or pass an object that should stop it (`LaggingAttempt.LaggingAttemptBreaks`).
- A Deployment scaled to nothing reads as Available (`Status.AvailableMeansSomePodIff`). The operator itself writes
  one replica.

## Model

| member | source | states |
|---|---|---|
| `Reconciler.SiteReconciler.Reconcile` | internal/controller/site_controller.go:67-125 | refines the step machine: with anything happening between its calls, the cluster afterwards is that of a machine run in which this worker is one thread, started by this request and finished with the returned error |
| `Reconciler.UndisturbedIsSolo` | internal/controller/site_controller.go:67-125 | if nobody interferes, that run is the thread running alone, the form the recovery theorems speak of |
| `Reconciler.SiteReconciler.ReconcileParts` | internal/controller/site_controller.go:79-124 | the six reconcile functions in order, stopping at the first error, end where the machine's thread starts its report |
| `Reconciler.SiteReconciler.UpdateSiteStatus` | internal/controller/site_controller.go:131-145 | re-reading the Site on each of at most five attempts, it ends with the reconcile's error if there is one, else its own |
| `Reconciler.SiteReconciler.CreateOrUpdate` | internal/controller/secret.go:24-66 | get, mutate in memory, then create, update or skip takes the thread where the machine says for the same reply |
| `Reconciler.SiteReconciler.RetryOnConflict` | internal/controller/service.go:18-47 | a conflict starts over, up to five attempts; success goes on with the next object, anything else is reported |
| `Reconciler.SiteReconciler.DeleteOwned` | internal/controller/pvc.go:82-105 | absent or not controlled: nothing to do; otherwise deleted, a vanished object being no error |
| `Reconciler.SiteReconciler.ReconcileSecret` | internal/controller/secret.go:16-69 | one attempt, no retry, then the database part |
| `Reconciler.SiteReconciler.ReconcileDatabaseProvision` | internal/controller/provision.go:60-139 | nothing when provisioning is off, a refusal without a cluster, else Database, User and Grant in turn |
| `Reconciler.SiteReconciler.ReconcileDeployment` | internal/controller/deployment.go:56-117 | both ConfigMaps before the Deployment whose annotation hashes them |
| `Reconciler.SiteReconciler.ReconcileService` | internal/controller/service.go:17-48 | Service written before the Ingress part starts |
| `Reconciler.SiteReconciler.ReconcileIngress` | internal/controller/ingress.go:16-117 | create or update when enabled, delete the owned one when not |
| `Reconciler.SiteReconciler.ReconcilePVC` | internal/controller/pvc.go:17-80 | create or update the operator's own claim; without persistence, or with a claim of the user's, delete the owned one |
| `Drafts.Draft.FillSecret` | internal/controller/secret.go:25-63 | afterwards every key the spec calls for is there, and no key that was there has changed |
| `Drafts.Draft.FillIngress` | internal/controller/ingress.go:56-111 | all fields follow the spec, except that an empty class leaves the old one |
| `Drafts.Draft.FillClaim` | internal/controller/pvc.go:57-74 | access modes and class are set on a new claim only, the size always |
| `Drafts.Draft.FillDeployment` | internal/controller/deployment.go:110-114 | labels and whole spec replaced, with the variables, labels and hash computed beforehand |
| `Drafts.Draft.FillService` | internal/controller/service.go:27-43 | labels, selector and ports replaced |
| `Drafts.Draft.Mutate` | internal/controller/ingress.go:54-114 | fields first, controller reference last: the result is the specified object, or a refusal if another controller is set |
| `Machine.WorkEffect` | internal/controller/secret.go:24-66 | whatever a thread read and however late it writes, a write that takes effect is the mutation of the object's present state |
| `Machine.RunSound` | internal/controller/site_controller.go:67-145 | in every run histories only grow and what each thread holds was computed from a version its key really had |
| `Machine.StepSpares` | internal/controller/site_controller.go:83-122 | a call changes no object but the one its thread is at |
| `Objects.KeysApart` | internal/controller/deployment.go:61-108 | no two derived objects share a key, within a Site or across Sites |
| `Secrets.WriteOnce` | internal/controller/secret.go:24-66 | with any number of managers, stale reads, conflicts, restarts and edits, a stored key never changes or disappears |
| `Secrets.NeverDangling` | internal/controller/helpers.go:59-142 | in every reachable state each key of the generated Secret that the stored Deployment or User names is in the stored Secret, as long as no edit names one that is neither wanted nor stored already |
| `References.ReferencesFound` | internal/controller/helpers.go:59-213 | at every point of every run of any threads, each reference in the stored Deployment that the user did not write, and the password reference of the stored User, looked up under its own name, finds a Secret that holds its key |
| `References.RunBacked` | internal/controller/site_controller.go:83-104 | in every run of any threads, all keys wanted by anyone who wrote an object are in the store, and stay there |
| `Secrets.EmptyReferential` | internal/controller/site_controller.go:83-104 | the invariant behind that holds of an empty cluster |
| `Secrets.DeploymentServedIff` | internal/controller/helpers.go:95-181 | at every write of the Deployment in every run, it names no missing key exactly when the user's references into the generated Secret name keys stored by then |
| `Secrets.RunStocked` | internal/controller/site_controller.go:83-104 | in every run no thread gets past the Secret before all its keys are stored, and keys only accumulate |
| `Examples.DanglingExample` | internal/controller/helpers.go:170-181 | an admitted spec whose successful reconcile leaves a Deployment naming a key the Secret lacks |
| `Ownership.CallRespectsOwners` | internal/controller/pvc.go:96-104 | a call that changes an object found it not controlled by another and leaves it controlled by its Site, or deletes one the Site controlled when read |
| `Ownership.ForeignObjectUntouched` | internal/controller/ingress.go:34-114 | no run of any threads changes an object that another owner controls |
| `Ownership.DeleteTakesWhatIsThere` | internal/controller/pvc.go:100-104 | a delete takes whatever is there, which is the Site's own for as long as nobody wrote it since the read |
| `Ownership.DeleteRace` | internal/controller/ingress.go:34-42 | a run in which that happens |
| `StatusWrites.StatusCall` | internal/controller/site_controller.go:131-145 | a status write keeps spec, generation and foreign conditions, and stamps the three types with the stored generation |
| `StatusWrites.StatusLosesNothing` | internal/controller/site_controller.go:131-145 | over any run foreign conditions are those their writers last left, and observed generations never go back |
| `StatusWrites.ObservedIsReconciledIff` | internal/controller/site_controller.go:133-141 | in every run a status write stamps the generation its reconcile fetched plus the number of changes of spec since, so the reconciled one exactly when there was none |
| `StatusWrites.ChangesAreEdits` | internal/controller/site_controller.go:133-141 | counting changes of spec in the Site's history is counting the edits in the run that made them |
| `Completion.CompletionSays` | internal/controller/site_controller.go:131-145 | when a reconcile completes, the three types say the verdict on the Deployment as it was last seen, stamped with the Site's generation |
| `Completion.ReportSays` | internal/controller/site_controller.go:131-145 | whatever the outcome, when a status write lands the three types say the verdict on that outcome and the Deployment last seen |
| `Completion.ErrorShows` | internal/controller/status.go:31-33 | in every run, when the status write of a failed reconcile lands, Available and Progressing are False and Degraded is True with the error's message, and the thread finishes with that error |
| `Completion.SuccessShows` | internal/controller/status.go:34-56 | and of one without an error, Available says whether some pod is available or none is wanted, Degraded whether the rollout is stuck, Progressing whether it is neither stuck nor through |
| `Completion.ConditionsAgree` | internal/controller/status.go:29-56 | two runs that end with completed reconciles having seen Deployments of like status leave conditions that agree up to transition times and the Site's own generation |
| `StatusWrites.ObservedAheadOfReconciled` | internal/controller/site_controller.go:133-141 | a run in which a failed reconcile of one generation is reported under the next |
| `Schedule.ScheduleIndependence` | internal/controller/site_controller.go:67-125 | for any number of Sites and threads, with restarts, edits, rollouts and other writers, two interleavings that show each Site the same events end in the same store and threads |
| `Schedule.AsIfOneByOne` | internal/controller/site_controller.go:67-125 | in particular, any interleaving equals letting the Sites meet their events one Site after another, in any order |
| `Provisioning.NonInterference` | internal/controller/provision.go:17-63 | for a Site that does not provision, at no version or, if its threads read fresh, from some version on, two runs in which it meets the same events of its own agree on all its calls, outcomes and histories, however they differ in MariaDB objects, default clusters and other Sites |
| `Provisioning.NeverWritesMariaDB` | internal/controller/provision.go:61-63 | in every such run MariaDB objects under its names are as others left them |
| `Settling.SettleTwice` | internal/controller/deployment.go:60-116 | writing an object twice is writing it once, whatever the second draw |
| `Recovery.CrashRecovery` | internal/controller/site_controller.go:67-125 | any number of reconciles cut after any call, then an undisturbed one: same outcome, same histories and same status but for the clock as that one alone |
| `Recovery.Quiescence` | internal/controller/site_controller.go:131-158 | an undisturbed reconcile after an undisturbed one changes nothing in the store, status included |
| `Recovery.WorkEnds` | internal/controller/pvc.go:47-79 | on fresh reads a call fails, stops for good, settles the object, or holds what will settle it |
| `Attempts.FiveAttempts` | internal/controller/service.go:18-47 | in every run a reconcile writes the generated Secret at most once, and every other object and the status at most five times each |
| `Attempts.RetriesIff` | internal/controller/service.go:18-47 | in every run a write is tried again exactly when it is answered with a conflict and fewer than five were sent, the Secret never |
| `Attempts.CallsBounded` | internal/controller/site_controller.go:67-145 | in every run, whatever conflicts and faults it meets, a reconcile makes at most 108 API calls and has then finished |
| `Recovery.FinishedLeaves` | internal/controller/site_controller.go:67-145 | what an undisturbed reconcile leaves: outcome, all ten objects and the conditions |
| `Convergence.SucceedsIff` | internal/controller/provision.go:44-68 | an undisturbed reconcile succeeds exactly when the cluster reference is known if needed and no object it writes is controlled by another |
| `Convergence.FinishedSucceeds` | internal/controller/site_controller.go:67-125 | an undisturbed reconcile reports no error exactly when all parts are settled |
| `Runs.RunBehind` | internal/controller/site_controller.go:79-124 | in every run of a single fresh-reading worker, among rollouts, edits, aborts and other Sites, every object it has got past is as its job wants it |
| `Runs.RunFits` | internal/controller/site_controller.go:68-71 | in every run a thread works on the job it fetched, and the Site had that spec at the version fetched |
| `Provenance.RunGrows` | internal/controller/ingress.go:54-114 | in every run of any threads an object that was absent at first is the Site's, its ingress class is the one named last since it was created, its storage class that of the job that created it, its secrets those its writers wanted, as first drawn, and any other object is what its last writer asked for |
| `Convergence.ReferencesResolve` | internal/controller/ingress.go:62-89 | in every such run, once the worker is through a job with ingress on, every Ingress path reaches a listening container through a Service port and selector, and every volume and mounted file exists, but for a claim the user brought |
| `Convergence.Confluence` | internal/controller/deployment.go:56-117 | two such runs from clusters without the Site's objects that end through the same spec agree on every object: unwanted ones absent from both, wanted ones equal but for the ingress class, the claim's storage class, accumulated secrets, each as its history says, and MariaDB objects after opting out |
| `Convergence.ClassFollowsSpecIff` | internal/controller/ingress.go:58-60 | in every such run the stored class is the one named last since the Ingress was created, and what the spec says exactly when the spec names one or no writer did |
| `Examples.ClassStaysExample` | internal/controller/ingress.go:58-60 | an admitted spec without a class whose successful reconcile leaves an earlier class |
| `Convergence.StorageClassIsTheFirst` | internal/controller/pvc.go:39-74 | in every such run the claim's class is that of the job that created it, and its size that of the spec |
| `Convergence.CredentialsCoherent` | internal/controller/provision.go:76-138 | in every such run, once through a job that provisions, user name, password key, database name and cluster agree across the stored Deployment, Database, User and Grant, and the password reference, looked up by name, finds a Secret that holds its key |
| `Contents.ClusterChosen` | internal/controller/provision.go:44-50 | in every such run, once through a job that provisions, the stored Database, User and Grant are on the Site's own cluster whenever it names one, and otherwise on the manager's default |
| `Contents.DefaultDoesNotMatter` | internal/controller/provision.go:45-47 | two such runs of a Site that names its cluster agree on those objects, whatever the managers' defaults |
| `Contents.TlsIsAsAsked` | internal/controller/ingress.go:62-111 | in every such run, once through a job with ingress on: the stored Ingress has a TLS entry for its host, WP_HOME is https and nginx passes HTTPS on of its own, all exactly when the tls flag is set; and nginx listens on 80 and passes on to 9000 |
| `Contents.DeploymentIsAsAsked` | internal/controller/deployment.go:199-262 | in every such run the stored Deployment has one replica, the nodes, strategy and images asked for, containers named and reached at their ports, and the variables of `Variables.EnvironmentSays` |
| `Contents.FilesAreAsAsked` | internal/controller/deployment.go:217-262 | in every such run all containers share the volume of the Site's files at the directory nginx serves, and php-fpm and nginx read, from the stored ConfigMaps, the user's own configuration |
| `Contents.ClaimIsAsAsked` | internal/controller/pvc.go:39-74 | in every such run the claim's class is the own one of the job that created it, or else that manager's default, its size that of the spec |
| `Contents.SelectorsApart` | internal/controller/site_controller.go:79-81 | in every run of any threads, for two Sites in a namespace, the stored Service or Deployment of the one selects the stored pods of the other exactly when they are the same Site |
| `Convergence.FieldsStick` | internal/controller/pvc.go:61-74 | in every run a claim's class and access modes never change and an Ingress never loses its class |
| `Ordering.ConfigsInOrder` | internal/controller/deployment.go:56-117 | at every point of every single-worker run the Deployment and both ConfigMaps each render the version of the Site that the worker had fetched when it last brought that object up, and the ConfigMaps' versions are not behind the Deployment's |
| `Ordering.RunReaches` | internal/controller/site_controller.go:79-124 | in every such run an object that every reconcile visits was last brought up to a version no older than any object visited after it |
| `Ordering.RunMarked` | internal/controller/site_controller.go:79-124 | in every run of any threads, what a thread has got past was last brought up to the version that thread fetched |
| `Ordering.HashFitsTexts` | internal/controller/deployment.go:100-117 | once the worker is through a job, while reporting and when finished, the annotation is the checksum of exactly the stored texts |
| `Claims.DeletedClaimMountedIff` | internal/controller/pvc.go:26-32 | in every single-worker run, when the claim is deleted the stored Deployment mounts it exactly when the spec brings it by that very name |
| `Claims.DeletedClaimMountedElsewhereIff` | internal/controller/deployment.go:518-522 | in every run of any threads, when it is deleted the Deployment of another Site in the namespace mounts it exactly when the job that last wrote that Deployment brought it by name |
| `Claims.MountedClaimDeleted` | internal/controller/deployment.go:518-522 | in every such run, once through a job whose spec brings the operator's own name, there is no such claim and the Deployment mounts it |
| `Claims.SuccessDeletesMounted` | internal/controller/pvc.go:30-32 | an undisturbed, unhindered reconcile of such a Site reports success, and the claim is gone and mounted |
| `Examples.OwnNameExample` | internal/controller/pvc.go:30-32 | an admitted spec and a store from which that happens |
| `LaggingRun.LaggingReadBreaks` | internal/controller/deployment.go:60-78 | a run, calm but for one lagging read, that gets through all parts with an annotation that is not the checksum of the stored texts, and in which no versions for the ConfigMaps are in order with that of the Deployment |
| `LaggingAttempt.LaggingAttemptBreaks` | internal/controller/site_controller.go:67-125 | a cut attempt with one lagging read after which an undisturbed reconcile does not end as it would have alone |
| `LaggingRun.CalmRunsThrough` | internal/controller/site_controller.go:67-125 | from a cluster that holds only a Site there is a run, of the kind the single-worker results ask for, that gets through all parts of its spec |
| `Objects.ConfigHashTellsApart` | internal/controller/deployment.go:184-197 | for texts without NUL the annotation changes exactly when a rendered text changes |
| `Objects.CredentialsAgree` | internal/controller/provision.go:76-138 | the objects asked for agree on user name, password key, database name and cluster with the environment |
| `Checksum.ConfigChecksum` | internal/controller/deployment.go:190-197 | feeding contents and terminators one by one hashes the frame |
| `Checksum.FrameInjective` | internal/controller/deployment.go:190-197 | contents without NUL are recovered from their frame, whatever their number |
| `Checksum.PairPinnedDownIffNulFree` | internal/controller/deployment.go:190-197 | the checksum pins down a pair of contents exactly when neither holds a NUL |
| `NginxConfig.BuildNginxConfigContent` | internal/controller/deployment.go:121-174 | the locals assigned under their guards fill the template as specified |
| `NginxConfig.TemplateCountOf` | internal/controller/deployment.go:148-173 | no match of a one-line pattern straddles a template boundary |
| `NginxConfig.RedirectOnce` | internal/controller/deployment.go:143-146 | `absolute_redirect` occurs as often as in the user text, or once if it is not there |
| `NginxConfig.HttpsParameter` | internal/controller/deployment.go:124-131 | the HTTPS parameter appears exactly when TLS is set or the user text contains it, and once by the operator's doing |
| `NginxConfig.ForwardedParameter` | internal/controller/deployment.go:128-131 | the forwarded-protocol parameter likewise |
| `NginxConfig.SchemeNeverForwarded` | internal/controller/deployment.go:128-130 | PHP is never told nginx's own scheme unless the user text does it |
| `NginxConfig.PortsWritten` | internal/controller/deployment.go:148-173 | whatever the spec, nginx listens on port 80 and passes PHP on to port 9000 |
| `NginxConfig.FilesServed` | internal/controller/deployment.go:148-173 | whatever the spec, nginx serves the shared directory, and the user text is there unchanged |
| `Environment.BuildWPEnvs` | internal/controller/helpers.go:20-119 | the guarded appends build the specified list |
| `Environment.BuildDatabaseEnvs` | internal/controller/helpers.go:121-191 | likewise for the database variables |
| `Environment.EnvironmentCoherent` | api/v1alpha1/site_types.go:26 | for every admitted spec the variable names are distinct and each database variable is defined |
| `Environment.NeverTwice` | internal/controller/helpers.go:20-191 | no variable is defined twice, whatever the spec |
| `Variables.EnvironmentSays` | internal/controller/helpers.go:20-191 | the address, the three debug flags, the installation and the database variables of php-fpm each have the value the spec calls for and no other |
| `Environment.AdminPasswordDefinedIff` | internal/controller/deployment.go:407-412 | the variable the start script reads is defined exactly when the user supplied a password |
| `Environment.GeneratedPasswordNeverRead` | internal/controller/deployment.go:334-411 | an admitted Site whose generated password goes to a variable the start script does not read |
| `Environment.UsernamesFitAndCollide` | internal/controller/provision.go:30-36 | user names have at most 32 bytes, and two Sites share one exactly when their first 27 bytes agree |
| `Environment.OwnKeysExact` | internal/controller/helpers.go:59-142 | the containers read from the generated Secret exactly the generated keys and those the user names |
| `Environment.OwnKeysCoveredIff` | internal/controller/secret.go:30-63 | all of them are generated exactly when the user's references into it are |
| `Status.ConditionHistory` | internal/controller/status.go:25-56 | over any updates each type occurs once and reads as last updated, others are untouched, and each transition time is that of the latest change of status |
| `Status.AppliedTwice` | internal/controller/status.go:94-111 | repeating an update changes nothing, whatever the clock |
| `Status.AppliedLookup` | internal/controller/status.go:94-111 | one update merges the verdict into the three types and leaves every other type alone |
| `Status.RolledOutMeansEveryPod` | internal/controller/status.go:65-80 | rolled out exactly when the spec is observed, there are enough pods, and every pod is new and available |
| `Status.AvailableMeansSomePodIff` | internal/controller/status.go:43-54 | Available says whether some pod is available, except exactly for a Deployment scaled to nothing |
| `Status.AvailableWithoutPods` | internal/controller/status.go:39-41 | that exception |
| `Status.VerdictExclusive` | internal/controller/status.go:29-56 | Progressing and Degraded are never both true, are both false only when rolled out, and Degraded has its exact causes |
| `Status.VerdictExact` | internal/controller/status.go:29-56 | for every Deployment with any pods and every error: exactly when each of the three statuses is True, each being False otherwise, and whose message is shown |
| `Status.DeploymentStalled` | internal/controller/status.go:84-92 | the search finds the first exceeded deadline and its message |
| `Status.ConditionList.SetSiteConditions` | internal/controller/status.go:29-56 | the list in place becomes the old one with the verdict of the matching branch applied |
| `Status.ConditionList.Apply` | internal/controller/status.go:94-111 | the three types are set in order |

## Left out

- Manager start-up, flags, metrics, leader election, RBAC, Helm and Kustomize: wiring.
- cmd/wpcron.go: a loop of HTTP requests that shares no state with the controller.
- Deep copies: specs are values.
- Drafts.Draft.FillDeployment: the scripts, probes and security contexts of the containers are not modelled; only images, variables, ports and mounts are, and of the start script the names it reads.
- Reconciler.SiteReconciler.ReconcileDatabaseProvision: the prefixes put before errors of MariaDB objects are dropped; messages are those of the underlying error.
- Parsing of quantities, and the server's refusal to shrink a claim: sizes are opaque texts, and every update is valid.
- Allocation of cluster IPs and node ports, and what the volume and garbage-collecting controllers do: part of `Meddle`.
- Deletion of a Site and its re-creation under a new UID, and owner references that do not control.
- Back-off between attempts, requeueing and watches: a restart is an event that may come at any time.
- Recovery.CrashRecovery: the reconciles read fresh, because a lagging read can carry one past an object that now stops it, and then later objects are written that the undisturbed reconcile alone would not reach (`LaggingAttempt.LaggingAttemptBreaks`).
- Recovery.Quiescence: the same, and nobody else writes in between, as a static environment means.
- Ordering.ConfigsInOrder: the Site's worker reads fresh (`LaggingRun.LaggingReadBreaks` is a run that shows why); other Sites' workers may read what they like. The same holds of the other results about single-worker runs.
- Ownership.ForeignObjectUntouched: for Ingress and claim it asks that the object did not replace one of the Site's, since the delete race is real.
- Completion.ConditionsAgree: the Deployments seen may differ in how often their spec was changed, and the generation stamped is each Site's own, since two histories may hold different numbers of edits.
- Drafts.Draft: the closures given to CreateOrUpdate are named by a datatype that holds what they capture, since methods are not values.
