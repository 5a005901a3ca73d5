# Litefunctions: a verified model

Litefunctions runs functions on Kubernetes. An operator keeps a runtime (a Deployment and a Service) for every
active function and takes it away again when the function's lease is over; Python and TypeScript runtimes reload the
functions of a project from its repository while they run; a portal keeps a database in step with the repository; an
ingestor carries requests and results over NATS. This project models these parts in Dafny and proves what they keep.

`dafny verify dfyconfig.toml` checks everything.

## What is modelled

* **The operator.** `Functions` holds the stored objects, their names and the templates, which `RuntimeTemplates` reads
  back field by field; `Cluster` the versioned object store with its work queue and clock; `Api` the client calls.
  `Controller` is one reconcile, written as the code is, API call by API call, and proved equal to the specification
  `Reconciled`. `FunctionClient` holds the gRPC operations and `Cleanup` the cleanup job, proved equal to an order-free specification of a whole pass.
  `Convergence`, `Drain` and `AtomicRuns` are about whole runs of operations that happen one after the other.
  `Operator` is the operator as a state machine with one step per API call, in which gRPC calls, cleanup iterations,
  crashes, failing calls and the clock interleave with the reconcile worker; the other `Operator*` modules prove its
  invariant and what follows from it, that the machine, left alone, refines `Reconciled`, and where the
  guarantees end: `OperatorLimits` for the leases, `OperatorLateDeletion` for a cleanup iteration that is interrupted.
* **Hot reload.** `PythonRuntime` and `TsRuntime` are the functions directory, the module cache and the consumers of
  the two runtimes as classes (the consumer registry, which both have in the same form, is `Consumers`).
  `PythonReloads` lets any number of reloads overlap, file by file, with loads in between; `PythonConvergence` says where
  they lead, `PythonStaleness` when cache and files agree after any of them, and `PythonFailures` what a single failing
  one leaves behind. `TsReloads` does so for reloads that follow one another and for an import cache that is never
  evicted.
* **Repository sync.** `RepoTree` is the checked-out tree, the walk over it and what is read off a path; `RepoSync`
  the sync and the handler that creates functions, on a database that keeps its uniqueness constraints; `RepoSyncRows`,
  `RepoSyncEndpoints`, `RepoSyncTheorems` and `RepoSyncRequests` say what a sync adds and when it is complete.
* **Requests, results, URLs.** `RequestPath`, `Subjects`, `ResultStream` and `BaseUrl`, over the string functions in
  `Text`.

## Assumptions

* An update that carries a stale resource version fails, an update that changes nothing raises no watch event, and
  reads see the latest write.
* There is one reconcile worker, since the manager sets no concurrency.
* Time is in nanoseconds and does not run backwards. Lease texts have whole seconds (date-time, section 5.6 of
  RFC 3339).
* The lease bounds assume a positive keep-warm time, and that the manager starts with leases no longer than that;
  `OperatorLimits.KeepWarmMustBePositive` shows why. The other results hold whatever the leases are.
* Languages contain no hyphen. The results on stored functions take the projects of compiled functions to contain none
  either; `Functions.NamesEqualIff` and `Functions.ProjectsCollideIff` say exactly when names collide otherwise. Functions
  are created with their object name as their function name, as the client does.
* A cleanup iteration is one step when it is mixed with other writers, and its API calls succeed.
  `OperatorLateDeletion.LateDeletionIsHarmlessIff` says exactly when its deletions may come later than its look.
* The address of a new Service is represented by a fresh version number.
* NATS, Kubernetes, git, Postgres and the JavaScript import cache are replaced by values with the semantics stated in
  the modules; failing calls of the operator are the steps `Fail`, `Drop` and `Restart` of its machine.

## Promises that hold only under a condition

* A rewritten URL keeps its path, and rewriting it again changes nothing, if and only if the target of the base has no
  slash (`BaseUrl.RewriteKeepsPathIff`, `BaseUrl.RewriteIsIdempotentIff`).
* A sync gives every function file a row and an endpoint if and only if the names of the new files are free and
  distinct (`RepoSyncTheorems.CompleteIffNamesFree`): the schema allows a name once in a project, and a failing insert
  is only logged. `RepoSyncRequests.SameNameInTwoLanguages` is an example.
* The plain request path of a project called `sse` or `ws` is not understood (`RequestPath.ParseRecoversIff`).
* With nobody else writing, the work queue drains whatever the clock does if and only if no queued function is active
  (`Drain.AlwaysDrainsIff`); in any case `Drain.QueueDrains` bounds the work by the seconds that pass.
* From a state in sync, such as every clear leaves, cache and consumers of the Python runtime match its files if and only
  if no cached module's file was removed, or overwritten with another text, since the module's load, and no function has
  come or gone since the last clear, however reloads overlap and fail (`PythonStaleness.InSyncIffLeft`). For a reload with
  no other in flight, from a state in sync, it is enough to compare the files before and after
  (`PythonFailures.FailedReloadIsHarmlessIff`, and for a name of the TypeScript runtime, whose reloads follow one
  another, `TsReloads.FailedReloadServesStaleIff`).
* A deletion by cleanup that comes after its look at the runtime keeps the operator's invariant if and only if every
  active function on the runtime is queued, or at a point where the worker still builds what is lost; then the promise to
  active functions holds from there on. It breaks that promise on the spot if and only if some active function on the
  runtime is neither queued nor being built (`OperatorLateDeletion.LateDeletionIsHarmlessIff`, `MadeUpForIsHarmless`).
* Leases never recede if and only if the keep-warm time is positive (`OperatorLimits.KeepWarmMustBePositive`).
* Object names tell runtimes of two projects of a compiled language apart if and only if neither project is the other
  followed by a hyphen and more (`Functions.ProjectsCollideIff`).
* A second sync adds nothing if and only if its listing leaves nothing to ask for, which only rows that share a path can
  prevent (`RepoSyncTheorems.SecondSyncAddsNothingIff`).

## Model

| member | source | states |
|---|---|---|
| Functions.NamesEqualIff | operator/internal/controller/spec.go:132-144 | for any project, hyphenated or not: two functions get the same Deployment, and the same Service, if and only if they share a runtime under the in-use test, or one project is the other with a hyphen and more and the names make up for it |
| Functions.NamesEqualIffSameRuntime | operator/internal/controller/spec.go:132-144 | so, when the projects of compiled functions are free of hyphens, if and only if the in-use test would let them share a runtime (or they are one function) |
| Functions.ProjectsCollideIff | operator/internal/controller/spec.go:132-144 | functions of two projects of a compiled language can get each other's Deployment, and Service, if and only if one project is the other followed by a hyphen and more |
| Functions.HyphenatedProjectsCollide | operator/internal/controller/spec.go:132-144 | an example of the collision that `NamesEqualIff` characterises |
| Functions.ImagesEqualIff | operator/internal/controller/spec.go:26-36 | for any two functions: if one is dynamic they share an image if and only if the languages agree, otherwise if and only if their names are made of the same parts or collide as above |
| Functions.RuntimeKnowsItsFunction | operator/internal/controller/spec.go:38-95 | the environment tells a runtime its project, tells exactly a compiled one its function, and gives no variable twice |
| Functions.ServiceSelectsOwnPods | operator/internal/controller/spec.go:146-172 | the selector of a Service matches the pods of its own runtime and of no other runtime in the namespace |
| Functions.SameRuntimeSameTemplates | operator/internal/controller/spec.go:14-130 | the templates of a shared runtime do not depend on the member they were built from |
| RuntimeTemplates.NamesReadBack | operator/internal/controller/spec.go:132-144 | Deployment and Service stand in the namespace of their function, and what follows their literal prefixes splits at the hyphens into language, project and, exactly for languages other than python, ts and lua, the function name |
| RuntimeTemplates.DynamicImages | operator/internal/controller/spec.go:27-33 | the literal image of each dynamic language |
| RuntimeTemplates.ImageTellsLanguage | operator/internal/controller/spec.go:27-36 | for every configuration and function, a dynamic language is python, ts or lua if and only if its image ends in -py:latest, -ts:latest or -lua:latest |
| RuntimeTemplates.CompiledImageIsNamedLikeDeployment | operator/internal/controller/spec.go:34-36 | the image of a compiled function stands in the registry of the user, and its name ends like the name of the Deployment |
| RuntimeTemplates.TemplatesFit | operator/internal/controller/spec.go:97-172 | one replica, found by the selectors of its Deployment and of its Service, listening on the port 8080 to which the Service forwards; exactly a compiled runtime is owned by its function |
| RuntimeTemplates.LabelsTell | operator/internal/controller/spec.go:17-24 | pods, selectors and Service carry the same labels, which name language, project and, exactly for a compiled runtime, the function |
| RuntimeTemplates.EnvironmentTells | operator/internal/controller/spec.go:38-95 | each variable is there with the setting or secret it stands for, and there are no others |
| Controller.FunctionReconciler.Reconcile | operator/internal/controller/function_controller.go:43-162 | call by call as in the code, the effect on an undisturbed store is `Reconciled`, and no call fails |
| Controller.FunctionReconciler.HasOtherActiveFunctionUsingSharedRuntime | operator/internal/controller/function_controller.go:164-188 | true if and only if another active function of the namespace shares the runtime |
| Convergence.ReconcileSettlesOne | operator/internal/controller/function_controller.go:54-150 | after one reconcile an active function has exactly its own templates, an unused runtime is gone, and a runtime still used by others is untouched |
| Convergence.ReconcileFrame | operator/internal/controller/function_controller.go:54-150 | apart from the two objects named after its function a reconcile leaves Deployments and Services alone |
| Convergence.ReconcileIsLocal | operator/internal/controller/function_controller.go:54-150 | a reconcile changes nothing for functions of other runtimes |
| Convergence.ReconcileKeepsActivity | operator/internal/controller/function_controller.go:152-159 | a reconcile never changes the activity or the names of any function, so its closing update cannot resurrect one |
| Convergence.ReconcileRenews | operator/internal/controller/function_controller.go:152-159 | an active function ends with a lease of one keep-warm time from now, and nothing else in its spec changes; an inactive one keeps its spec |
| Convergence.ReconcileSparesStrangers | operator/internal/controller/function_controller.go:65-150 | objects that belong to no function stay as they are |
| Convergence.ReconcileKeepsAddresses | operator/internal/controller/function_controller.go:138-142 | a Service that is still used keeps its address |
| Convergence.SchedulesSettle | operator/internal/controller/function_controller.go:43-162 | by induction over any schedule of reconciles at any times: every visited function is settled, strangers and addresses are kept |
| Convergence.AnyCompleteScheduleConverges | operator/internal/controller/function_controller.go:43-162 | once every function has been visited, in any order and however often, exactly the active functions have runtimes, each as its templates say |
| Convergence.SchedulesAgree | operator/internal/controller/function_controller.go:43-162 | two complete schedules end with the same Deployments and Services |
| Convergence.RuntimeFollowsActivity | operator/internal/controller/function_controller.go:43-162 | in a settled store a runtime is there if and only if some function on it is active |
| Drain.ReconciledWrites | operator/internal/controller/function_controller.go:152-159 | a reconcile writes its function, and so re-queues it, exactly when it is active and its lease is not the one aimed for |
| Drain.ProcessingDecreases | operator/internal/controller/function_controller.go:152-159 | processing a key uses up pending work: queued keys plus active functions whose lease is off target |
| Drain.QueueDrains | operator/internal/controller/function_controller.go:152-159 | the number of keys processed is bounded by the queue, the leases off target, and one per active function for every second that the target advances |
| Drain.ReconcileIdempotent | operator/internal/controller/function_controller.go:43-162 | reconciling again before the target second moves changes nothing at all |
| Drain.AlwaysDrainsIff | operator/internal/controller/function_controller.go:152-159 | with nobody else writing, the number of keys that the worker can process is bounded whatever the clock does if and only if no queued function is active |
| Drain.SteadyClockNeverDrains | operator/internal/controller/function_controller.go:152-159 | otherwise an active function that is reconciled once a second re-queues itself for as long as one likes |
| FunctionClient.Client.MarkFunctionActive | operator/internal/client/functions.go:64-81 | the function becomes active with a lease of the keep-warm time from now; a missing one is reported and nothing changes |
| FunctionClient.Client.ExtendFunctionLease | operator/internal/client/functions.go:83-103 | only an active function gets a new lease, and the answer says whether it did |
| FunctionClient.Client.MarkFunctionInactive | operator/internal/client/functions.go:105-123 | an active function becomes inactive and keeps its lease text; an inactive one is left alone |
| FunctionClient.Client.CreateFunctionIfNotExists | operator/internal/client/functions.go:125-158 | creates a function exactly when there is none, and says so; what is stored has the project, language and mode of the request and is inactive, without lease |
| FunctionClient.FunctionServer.Activate | operator/internal/server/grpc.go:45-72 | the answer names the very Service that the controller creates for the activated function, with its language, mode, project and method; the lease ends one keep-warm time from now, or five minutes if none is set; every failure leaves the store unchanged |
| FunctionClient.FunctionServer.GetStatus | operator/internal/server/grpc.go:74-99 | asking for the status of an active function renews its lease by the keep-warm time, or by five minutes if none is set, and of an inactive one changes nothing |
| Cleanup.CleanupJob.RunCleanup | operator/cmd/cleanup.go:54-122 | a pass equals the order-free specification: a function of the namespace ends active iff it was active and its lease is not a time that has passed (unset and malformed leases never are), every other one as it was; a runtime is removed iff one of its functions expired in this pass and none is active afterwards |
| Cleanup.CleanupJob.DeactivateAndRelease | operator/cmd/cleanup.go:72-119 | one expired item: switched off, and its runtime removed unless another active function shares it |
| Cleanup.CleanupJob.HasOtherActiveFunctionUsingSharedRuntime | operator/cmd/cleanup.go:127-151 | true if and only if another active function of the namespace shares the runtime |
| Cleanup.ExpireStep | operator/cmd/cleanup.go:69-120 | one iteration extends the cleaned scope by its item, whatever came before it in the list |
| Cleanup.PassesAgree | operator/cmd/cleanup.go:61-122 | two passes over the same store agree whatever the order of their lists |
| Cleanup.CleanupSparesActiveRuntimes | operator/cmd/cleanup.go:81-93 | a pass never removes a runtime that a function still active afterwards uses |
| AtomicRuns.EventSparesActive | operator/internal/controller/function_controller.go:54-93 | no create, activate, extend, deactivate, reconcile or cleanup step removes an object of a function that is active after the step |
| AtomicRuns.RunKeepsRuntime | operator/internal/controller/function_controller.go:54-93 | over any run, a function that stays active keeps its runtime, exactly as its templates say |
| AtomicRuns.EventKeepsNames | operator/internal/client/functions.go:125-158 | no step changes the identity of a function or lets it disappear |
| OperatorTheorems.NextKeepsInv | operator/internal/controller/function_controller.go:43-162 | every step of the machine, including a crash or a failing call between any two API calls, keeps the invariant |
| OperatorTheorems.Reachable | operator/internal/controller/function_controller.go:43-162 | so the invariant holds in every run from every well-named store, whatever its leases |
| OperatorSteps.CheckKeepsInv | operator/internal/controller/function_controller.go:54-63 | after a negative in-use test, every function that becomes active on the runtime is queued, so the coming deletion will be made up for |
| OperatorSteps.DeletionKeepsInv | operator/internal/controller/function_controller.go:65-90 | deleting an object keeps the invariant although gRPC calls may have activated functions of the runtime since the test |
| OperatorSteps.StoreKeepsInv | operator/internal/controller/function_controller.go:109-150 | creating or updating an object keeps the invariant although the function may have been deactivated since it was read |
| OperatorResults.ActiveIsServedOrPending | operator/internal/controller/function_controller.go:43-162 | in every reachable state an active function whose Deployment or Service is missing, outdated or about to be deleted is queued or being built |
| OperatorResults.UnusedRuntimeIsDoomed | operator/internal/controller/function_controller.go:54-93 | in every reachable state a runtime without active user has a queued or in-flight function that will remove it |
| OperatorResults.QuiescentIsSettled | operator/internal/controller/function_controller.go:43-162 | when the worker is idle and the queue is empty exactly the active functions have runtimes |
| OperatorResults.CommitActsAtOnce | operator/internal/client/functions.go:64-123 | a gRPC operation takes effect at its commit as if done in one step on the current object, or changes nothing if anybody wrote it since the read |
| OperatorResults.RenewalActsAtOnce | operator/internal/controller/function_controller.go:152-159 | the closing update of a reconcile acts on the current, active object, or fails and re-queues |
| OperatorResults.DeploymentCallsActOnWhatWasFound | operator/internal/controller/function_controller.go:65-128 | a call that creates, updates or deletes the Deployment takes effect if what the call before it found is still so, and otherwise changes nothing and re-queues the function |
| OperatorResults.ServiceCallsActOnWhatWasFound | operator/internal/controller/function_controller.go:79-150 | the same of the Service, which keeps the address that was found |
| OperatorResults.OnlyActivationWakes | operator/internal/client/functions.go:64-103 | the only step that turns an inactive function active is the commit of an activation |
| OperatorResults.CreationStoresRequest | operator/internal/client/functions.go:136-150 | in any state of the machine, creating a new function stores it as the request says, inactive and without lease, queues it, and changes no other function; an existing one is left alone |
| OperatorResults.LeaseBounded | operator/internal/client/functions.go:70-73 | every active function has a lease, and no lease ends later than one keep-warm time from now |
| OperatorResults.LeaseNeverRecedes | operator/internal/client/functions.go:94-95 | no step moves a lease to an earlier time or removes it |
| OperatorResults.RenewalsOnRecord | operator/internal/client/functions.go:72-75 | the record of renewals holds the latest time that a committed lease write has read |
| OperatorResults.CleanupSparesRenewed | operator/cmd/cleanup.go:62-73 | cleanup does not touch a function if some lease write read the clock within the keep-warm time less one second |
| OperatorLimits.SpareWindowIsTight | operator/cmd/cleanup.go:62-79 | from every start there is a run in which a function renewed one nanosecond before that window is switched off by cleanup |
| OperatorLimits.LeaseRecedesIff | operator/internal/server/grpc.go:50-54 | after an activation the next reconcile moves the lease to an earlier time if and only if the configured keep-warm time is not positive |
| OperatorLimits.SomeLeaseRecedes | operator/internal/controller/function_controller.go:152-159 | if it is not, some run of the operator from every start moves a lease to an earlier time |
| OperatorLimits.KeepWarmMustBePositive | operator/internal/server/grpc.go:50-53 | leases never recede in any run if and only if the keep-warm time is positive, which is also when server and controller use the same one |
| OperatorLeases.NextKeepsLeases | operator/internal/controller/function_controller.go:152-159 | every step keeps the lease invariant: leases in reach, prepared writes no shorter than what they replace, renewals explaining leases |
| OperatorLeases.LeasesReachable | operator/internal/controller/function_controller.go:152-159 | so it holds in every run from a store whose leases are within a keep-warm time of the clock |
| OperatorRefinement.AloneIsAtomic | operator/internal/controller/function_controller.go:43-162 | the worker's API calls with nobody in between add up to one atomic `Reconciled` |
| OperatorRefinement.QueueEmpties | operator/internal/controller/function_controller.go:152-159 | at a fixed time the worker empties its queue within the bound on pending work |
| OperatorRefinement.DrainedIsSettled | operator/internal/controller/function_controller.go:43-162 | from any reachable state, busy worker included: however the worker finishes what it is at and empties its queue, it ends with runtimes for exactly the active functions |
| OperatorLateDeletion.LateDeletionKeepsInvIff | operator/cmd/cleanup.go:81-119 | a deletion of the Deployment, the Service or both that comes after the look keeps the invariant if and only if every active function on the runtime is queued, or at a point where the worker still builds what is lost |
| OperatorLateDeletion.LateDeletionIsHarmlessIff | operator/cmd/cleanup.go:81-119 | the same in every reachable state; and the promise to active functions breaks on the spot if and only if some active function on the runtime is neither queued nor being built |
| OperatorLateDeletion.MadeUpForIsHarmless | operator/cmd/cleanup.go:81-119 | a late deletion that is made up for leaves the invariant and the promise in place for whatever the operator does from then on |
| OperatorRefinement.SplitCleanupStrandsActivation | operator/cmd/cleanup.go:72-119 | an example of the harm: an activation between the in-use test of cleanup and its deletions ends active, without runtime and not queued |
| Consumers.Registry.Reconcile | runtimes/python/main.py:252-263 | the consumers become exactly the desired names; survivors keep their task, new names get new tasks, exactly the dropped ones are cancelled |
| Consumers.Registry.CancelConsumers | runtimes/python/main.py:255-258 | drops and cancels exactly the consumers that are not desired |
| Consumers.Registry.StartConsumers | runtimes/python/main.py:260-263 | starts a consumer for exactly the desired names without one, and leaves the others alone |
| Consumers.Registry.AtMostOneConsumer | runtimes/python/main.py:252-263 | no function ever has two live consumers, and it has one exactly when it is registered |
| PythonRuntime.SyncedListsSource | runtimes/python/main.py:61-81 | after a sync the directory lists exactly the functions of the source, whatever it held before, and none if the source is missing |
| PythonRuntime.ListedNames | runtimes/python/main.py:138-150 | a name is listed if and only if its .py file is there and the name does not contain two underscores in a row |
| PythonRuntime.SyncedEntries | runtimes/python/main.py:65-81 | entry by entry, what a sync leaves and with which content: Python files other than __init__.py are exactly those of the listed source files, everything else stays |
| PythonRuntime.Runtime.SyncRuntimeFunctionsDir | runtimes/python/main.py:61-81 | removes every Python file but the package file and copies in the functions of the source |
| PythonRuntime.Runtime.ClearModuleCache | runtimes/python/main.py:84-89 | forgets every cached module, and drops exactly the recorded names from the interpreter's module table |
| PythonRuntime.Runtime.ListFunctions | runtimes/python/main.py:138-150 | the stems of the function files, without the ones with a double underscore |
| PythonRuntime.Runtime.LoadModule | runtimes/python/main.py:153-172 | a cached module is returned as it is, a missing or failing file caches nothing, and a cache that agrees with the files goes on agreeing |
| PythonRuntime.Runtime.ReconcileConsumers | runtimes/python/main.py:252-263 | the live consumer names are those of the runtime directory; survivors keep their task and dropped ones are cancelled |
| PythonRuntime.Runtime.Refresh | runtimes/python/main.py:283-284 | after a refresh from any source directory the consumers are exactly those of its .py files whose names do not contain two underscores in a row |
| PythonReloads.NextKeepsInv | runtimes/python/main.py:61-172 | each step of any overlapping reloads and loads keeps: cache and consumers match the files, or a reload is between its first touch and its clear |
| PythonReloads.StaleMeansUnsettled | runtimes/python/main.py:124-172 | in every interleaving a stale module or consumer set means that some reload has touched the files and not reached its clear |
| PythonReloads.QuietIsInSync | runtimes/python/main.py:124-172 | with no reload in flight and none failed since the last clear, every cached module is the current file and the consumers are the current functions |
| PythonConvergence.StepConverges | runtimes/python/main.py:61-135 | each step of any overlapping reloads keeps: an entry that is not as the source has it will be mended by a reload in flight, and other entries are untouched |
| PythonConvergence.CompletedReloadsServeLatest | runtimes/python/main.py:266-289 | however the reloads of a process overlap, if none fails, then when all have ended files, cached modules and consumers are those of the latest checkout |
| PythonConvergence.CompletedReloadMakesUp | runtimes/python/main.py:266-289 | after any history, failed reloads included: once a reload has its checkout and none fails from then on, everything ends as the latest checkout has it |
| PythonStaleness.ModuleIsCurrentIff | runtimes/python/main.py:61-172 | after any steps, overlapping and failing reloads included, a cached module is that of its file if and only if the file was not removed, nor overwritten with another text, since the module's load |
| PythonStaleness.ListingIsCurrentIff | runtimes/python/main.py:61-81 | a function has a consumer exactly as it has a file if and only if it has not come or gone since the last clear |
| PythonStaleness.InSyncIffLeft | runtimes/python/main.py:61-172 | from a state in sync, after any steps, cache and consumers match the files if and only if both hold of every module and every function |
| PythonStaleness.InSyncSinceClearIff | runtimes/python/main.py:84-89 | so the history since any clear decides, whatever came before it |
| PythonFailures.PullStartsAlone | runtimes/python/main.py:126-128 | a reload with no other in flight sets out from the directory as it found it and from its own checkout |
| PythonFailures.AloneStaysOnTrack | runtimes/python/main.py:61-81 | a reload with no other in flight works, in whatever order it takes the files, towards the directory that a sync promises |
| PythonFailures.AloneEndsWithSource | runtimes/python/main.py:124-135 | and when it clears, files and consumers are those of its checkout |
| PythonFailures.FailedReloadIsHarmlessIff | runtimes/python/main.py:283-287 | for a reload with no other in flight that sets out from a state in sync: wherever it fails and whatever is loaded meanwhile, cache and consumers match the files if and only if no function has come or gone and none whose file changed is cached from before |
| PythonFailures.FailedRemovalIsHarmlessIff | runtimes/python/main.py:65-71 | while files are removed: if and only if what is gone is no function and no module is cached from it |
| PythonFailures.FailedCopyIsHarmlessIff | runtimes/python/main.py:76-81 | while files are copied: if and only if exactly the functions of before have been copied and those cached from before have the same text |
| PythonFailures.FailedReloadLeavesStaleModule | runtimes/python/main.py:283-287 | an example of the harm: the file of a cached module is removed and the reload fails |
| TsRuntime.PatternRefusesDeclarations | runtimes/ts/pkg/functions.ts:93-101 | the check for declaration files never decides, since the pattern refuses them already |
| TsRuntime.FunctionFileIff | runtimes/ts/pkg/functions.ts:93-101 | a name followed by .ts is a function file if and only if it is a nonempty row of the 64 characters of the expression, written out |
| TsRuntime.JoinedNames | runtimes/ts/pkg/functions.ts:93-101 | so names joined by a hyphen or an underscore are names of function files |
| TsRuntime.ListingInvertsResolving | runtimes/ts/pkg/functions.ts:160-175 | listing a file and resolving its name are inverse to each other on function files |
| TsRuntime.ListedMeansLoadable | runtimes/ts/pkg/functions.ts:153-175 | the listed names are exactly the well-formed names that a load finds a file for |
| TsRuntime.SyncedEntries | runtimes/ts/pkg/functions.ts:112-132 | entry by entry, what a sync leaves and with which content: function files are those of the source, everything else stays |
| TsRuntime.SyncedListsSource | runtimes/ts/pkg/functions.ts:112-132 | after a sync the directory lists exactly the functions of the source, and none if it is missing |
| TsRuntime.Runtime.ClearModuleCache | runtimes/ts/pkg/functions.ts:107-110 | empties the cache and moves to a version that no import is keyed by |
| TsRuntime.Runtime.SyncRuntimeFunctionsDir | runtimes/ts/pkg/functions.ts:112-142 | replaces the function files by those of the source and leaves the cache in agreement with the files however stale it was |
| TsRuntime.Runtime.ListFunctions | runtimes/ts/pkg/functions.ts:153-167 | the base names of the function files |
| TsRuntime.Runtime.LoadModule | runtimes/ts/pkg/functions.ts:177-188 | never evicts or replaces an import, and as long as the cache agrees with the files hands out the file as it is |
| TsRuntime.Runtime.ReconcileConsumers | runtimes/ts/pkg/consumer.ts:34-51 | the consumers become those of the runtime directory; survivors keep their subscription and dropped ones are cancelled |
| TsRuntime.Runtime.Refresh | runtimes/ts/pkg/consumer.ts:67-68 | after a refresh cache and files are those of the source, and the consumers those of its function files |
| TsReloads.NextKeepsInv | runtimes/ts/pkg/functions.ts:107-188 | each step of a reload and each load keeps: imports never ahead of the version, the cache made of the imports of this version, and current outside a reload |
| TsReloads.ImportsNeverRunAhead | runtimes/ts/pkg/functions.ts:107-110 | in every run no import is keyed by a version above the current one |
| TsReloads.ImportsArePermanent | runtimes/ts/pkg/functions.ts:177-188 | imports are never evicted or replaced, so a file runs at most once in a version |
| TsReloads.LoadsAreCurrent | runtimes/ts/pkg/functions.ts:177-188 | in every run, outside a reload a load hands out the file as it is now |
| TsReloads.ClearForgets | runtimes/ts/pkg/functions.ts:107-110 | after a clear nothing loaded halfway through the reload is handed out any more |
| TsReloads.ReloadServesCheckout | runtimes/ts/pkg/functions.ts:112-151 | a reload that reaches its clear, with any loads in between, lists exactly the functions of its checkout, and each loads as checked out |
| TsReloads.FailedReloadServesStaleIff | runtimes/ts/pkg/consumer.ts:67-74 | wherever a reload fails and whatever is loaded meanwhile, a name is served stale if and only if its file has changed and it is cached from before |
| TsReloads.FailedRemovalServesStaleIff | runtimes/ts/pkg/functions.ts:116-121 | while files are removed: if and only if it is cached and its file is gone |
| TsReloads.FailedCopyServesStaleIff | runtimes/ts/pkg/functions.ts:123-132 | while files are copied: if and only if it is cached from before and its file is not copied yet, or was copied with another text |
| TsReloads.BrokenReloadServesRemovedFile | runtimes/ts/pkg/consumer.ts:67-74 | an example: a reload that fails after removing a file goes on serving its module |
| RepoTree.TablesAreInverse | portal/pkg/handlers/sync.go:18-24 | the tables of languages and extensions are inverse to each other |
| RepoTree.LanguageIff | portal/pkg/handlers/sync.go:18-24 | for every path: its language is python, go, rust, ts or lua if and only if it ends in .py, .go, .rs, .ts or .lua, and there is no other |
| RepoTree.NameOfFile | portal/pkg/handlers/sync.go:67 | the name read off a function file in any directory is the file name without its extension, dots included |
| RepoTree.PathRoundTrip | portal/pkg/handlers/function.go:80 | the sync reads back the language from the path of the portal, and the name if and only if it has no slash |
| RepoTree.WalkVisitsTheFiles | portal/pkg/handlers/sync.go:133-155 | the walk calls back for exactly the files of the tree |
| RepoTree.WalkVisitsOnce | portal/pkg/handlers/sync.go:133-155 | and for none of them twice |
| RepoTree.CommittedFileIsVisited | portal/pkg/handlers/function.go:80 | the walk visits the file that the portal commits for a function, under the path that the portal records |
| RepoSync.Portal.IndexPaths | portal/pkg/handlers/sync.go:39-42 | looks up every path in use, and nothing else, to a row with that path |
| RepoSync.Portal.IndexMethods | portal/pkg/handlers/sync.go:50-57 | finds a GET method for exactly the functions that have a GET endpoint |
| RepoSync.Portal.SyncOne | portal/pkg/handlers/sync.go:58-124 | the callback at one file: skipped extension, known path, refused insert, new row with endpoint and request to the operator |
| RepoSync.Portal.Walk | portal/pkg/handlers/sync.go:133-155 | the recursive walk has the effect of the callback at each file in the order of the walk |
| RepoSync.Portal.SyncRepoFunctions | portal/pkg/handlers/sync.go:26-131 | the whole sync, its lookups made once before the walk; every endpoint added is the GET endpoint /project/name of a function file that was visited |
| RepoSync.Portal.CreateFunction | portal/pkg/handlers/function.go:60-165 | unknown language and taken name change nothing; otherwise row, endpoint /project/name and request are added for the path of the file |
| RepoSync.EndpointReadsBack | portal/pkg/handlers/sync.go:91 | an endpoint name splits at its slashes into nothing, the project and the function name |
| RepoSync.SyncInParts | portal/pkg/handlers/sync.go:139-152 | syncing a directory after another is syncing them in one go |
| RepoSyncRows.SyncGrows | portal/pkg/handlers/sync.go:58-124 | a sync changes and removes nothing that was there |
| RepoSyncRows.SyncKeepsValid | portal/pkg/handlers/sync.go:58-124 | ids stay unique and endpoints go on referring to functions |
| RepoSyncRows.RowsAfterSync | portal/pkg/handlers/sync.go:70-87 | a free name gets a row exactly when some new file has it, with path and language of the first such file of the walk |
| RepoSyncRows.AllRowsIffNamesFree | portal/pkg/handlers/sync.go:70-87 | every function file ends up with a row if and only if the names of the new files are free and differ |
| RepoSyncRows.RowsAddedOncePerPath | portal/pkg/handlers/sync.go:70-87 | at most one row is added for a path without one, none for a path with one |
| RepoSyncEndpoints.EndpointsAfterSync | portal/pkg/handlers/sync.go:89-104 | in every sync, refused inserts included: a free endpoint name is taken exactly when some file of that name gets as far as asking for a missing GET endpoint, by the first such file |
| RepoSyncEndpoints.EndpointsAddedOncePerFunction | portal/pkg/handlers/sync.go:89-104 | at most one endpoint is added for a function, always with method GET, and none for a function that has a GET endpoint |
| RepoSyncTheorems.CompleteIffNamesFree | portal/pkg/handlers/sync.go:58-124 | every function file has a row and a GET endpoint afterwards if and only if the needed names and endpoint names are free and differ |
| RepoSyncTheorems.SecondSyncAddsNothingIff | portal/pkg/handlers/sync.go:26-131 | a second sync changes nothing, whatever the first one could and could not add, if and only if its listing leads at every file to a function with a GET endpoint or with a taken endpoint name |
| RepoSyncTheorems.SecondSyncAddsNothing | portal/pkg/handlers/sync.go:26-131 | that is the case when paths that several rows share are looked up as the first time |
| RepoSyncTheorems.SyncOfRepository | portal/pkg/handlers/sync.go:26-131 | both of these for every well-formed repository tree and every database without shared paths |
| RepoSyncRequests.SyncRequestsNewRows | portal/pkg/handlers/sync.go:106-120 | the operator is asked for exactly the functions whose rows were added, each once |
| RepoSyncRequests.CreateIsCommitAndSync | portal/pkg/handlers/function.go:80-165 | the handler does to the database what committing the file and syncing does, if and only if the name has no slash |
| RepoSyncRequests.SyncFindsCreated | portal/pkg/handlers/sync.go:70-72 | a sync after the handler has nothing to do at the new file |
| RepoSyncRequests.SameNameInTwoLanguages | portal/migrations/00003_project_functions.sql:65-66 | of two files of one name in different languages the second gets no row |
| ResultStream.StreamIsInOrder | ingestor/pkg/broker/result.go:30-55 | for every schedule what was read and what is buffered is an in-order selection of what was published |
| ResultStream.SubsequenceIffEmbeds | ingestor/pkg/broker/result.go:34-41 | in-order selection means that the members stand at increasing positions of what was published |
| ResultStream.BufferFits | ingestor/pkg/broker/result.go:31 | the buffer never holds more than 32 results |
| ResultStream.FirstResultsWait | ingestor/pkg/broker/result.go:31-40 | without a reader the buffer holds exactly the first 32 results, or all if there are fewer |
| ResultStream.ClosedOnce | ingestor/pkg/broker/result.go:46-52 | the channel is closed exactly once if there is a cleanup, however often it is called |
| ResultStream.LosslessIffNeverFull | ingestor/pkg/broker/result.go:36-40 | nothing is lost if and only if the buffer was never full when a result arrived |
| ResultStream.LosslessIffBacklogFits | ingestor/pkg/broker/result.go:31-40 | nothing is lost, and the stream is that of a channel without capacity, if and only if the backlog of that channel never exceeds 32 |
| ResultStream.Subscription.OnMessage | ingestor/pkg/broker/result.go:34-41 | the callback keeps a result if there is room and drops it otherwise, without waiting |
| ResultStream.Subscription.Receive | ingestor/pkg/broker/result.go:54 | reading takes the oldest result, and goes on after the cleanup until the buffer is empty |
| ResultStream.Subscription.CleanUp | ingestor/pkg/broker/result.go:46-52 | the first call ends the subscription and closes the channel, later ones do nothing |
| RequestPath.ParseUndoesRoute | ingestor/pkg/broker/request.go:71-92 | for all three forms, any surrounding slashes and any further components, what parsing gives, including the misreading of projects called sse or ws |
| RequestPath.ParseRecoversIff | ingestor/pkg/broker/request.go:71-92 | parsing gives back project and name if and only if the form is not the plain one of such a project |
| RequestPath.RefusedIff | ingestor/pkg/broker/request.go:71-92 | whatever slashes surround a row of components, it is not understood if and only if it is outside lambda or stops before the function |
| RequestPath.SlashesAreRefused | ingestor/pkg/broker/request.go:72-75 | neither is a path of slashes alone |
| RequestPath.ParsedAreComponents | ingestor/pkg/broker/request.go:71-92 | nothing outside lambda is understood, and no part that is understood contains a slash |
| Subjects.RandomId | ingestor/pkg/broker/request.go:94-100 | a request id of at least one letter is a token that stands for itself |
| Subjects.LettersInOrder | ingestor/pkg/broker/request.go:21 | the letters that ids are drawn from, written out in order |
| Subjects.SubscriptionTokens | runtimes/go/pkg/consumer.go:62 | a runtime listens to project, function, exec, its own language (go for the Go runtime, ts for the TypeScript runtime) and any id |
| Subjects.RequestsReachTheirRuntime | runtimes/go/pkg/consumer.go:62 | a runtime's subscription matches a request if and only if project, function and language are its own |
| Subjects.IdOfAnySubject | runtimes/ts/pkg/consumer.ts:13-14 | on any subject the Go runtime takes the last token for the id, the TypeScript runtime the fifth or nothing |
| Subjects.ResultsAnswerTheirRequest | runtimes/go/pkg/consumer.go:20-49 | the runtime recovers the request id and publishes on the reply subject of that request |
| Subjects.RepliesAreApart | ingestor/pkg/broker/result.go:32 | a reply subscription matches the results of its own request and of no other |
| Subjects.ResultsFindTheirWay | runtimes/ts/pkg/consumer.ts:7-18 | from end to end, the results of a request reach exactly the subscriber of that request |
| Subjects.RequestsAndResultsAreApart | ingestor/pkg/broker/request.go:30-33 | no reply subscription matches a request and no runtime gets a result |
| BaseUrl.RewriteToBaseUrl | portal/internal/project/vendors/gitea.go:297-332 | puts the path of the URL behind scheme and target of the base; an empty URL or a blank base changes nothing |
| BaseUrl.RewriteChangesNothing | portal/internal/project/vendors/gitea.go:298-305 | an empty URL or a blank base leaves the URL as it is; in every other case the result spells out its scheme |
| BaseUrl.SpacesByNumber | portal/internal/project/vendors/gitea.go:302 | the characters that make a base blank, by number |
| BaseUrl.StripHost | portal/internal/project/vendors/gitea.go:317-326 | what is left of a URL without leading slashes, scheme and host is its path |
| BaseUrl.BaseIsParsed | portal/internal/project/vendors/gitea.go:302-315 | a base that spells out its scheme is taken apart into scheme and host, whatever blanks and slashes surround it |
| BaseUrl.BareBaseIsParsed | portal/internal/project/vendors/gitea.go:302-315 | a base without a scheme stands for https |
| BaseUrl.PathOfAbsolute | portal/internal/project/vendors/gitea.go:317-326 | the path of an absolute URL is what follows the slash after its authority |
| BaseUrl.PathOfRelative | portal/internal/project/vendors/gitea.go:317 | the path of any other URL is the URL without its leading slashes |
| BaseUrl.RewriteKeepsPathIff | portal/internal/project/vendors/gitea.go:297-332 | rewriting keeps the path of every URL if and only if the target has no slash |
| BaseUrl.RewriteIsIdempotentIff | portal/internal/project/vendors/gitea.go:297-332 | rewriting again changes nothing if and only if the URL is empty, the base blank or the target has no slash |
| BaseUrl.ServerUrlMoves | portal/internal/project/vendors/gitea.go:297-332 | written out: a URL of the server moves to the base with its path, and stays there |

## Left out

- PythonRuntime.Runtime.ListFunctions: returns the names as a set, so the sorted order of the list is not modelled.
- TsRuntime.Runtime.ListFunctions: returns the names as a set, so the sorted order of the list is not modelled.
- ResultStream.Subscription.OnMessage: a callback that is still running when the subscription ends is not modelled; the connection is taken to call it only before.
- TsReloads.LoadsAreCurrent: takes a load as one step, although the code waits between its lookup and its store.
- The steps inside a fetch and a checkout of the repository: a checkout replaces the source directory at once.
- Cleanup racing with other writers between its list and its patch: the patch carries no resource version, so a lease renewed after the list can still be cut off.
- Failing API calls in the cleanup job, which are logged and passed over.
- Deletion of Function objects, and the garbage collection through owner references.
- Staleness of the informer cache; reads are taken as current.
- Checks of the gRPC service on empty project or language, and its other read-only calls.
- Bytecode caching, modules whose names contain path separators, and directories whose names end like function files in the runtimes.
- Consumer tasks that end by themselves, and the handling of messages inside them.
- Whether the JavaScript engine remembers an import that failed.
- Transient database failures; the failing inserts modelled are those of the uniqueness constraints.
- The contents of the files that the portal commits, and the commit and push themselves.
- Subjects of the Python and Rust runtimes: they listen on other tokens than the ingestor publishes.
- Whether a reply is published after its subscriber is there; only addressing, order and loss in the channel are claimed.
- Progress steps of workflow runs, invites, roles, sessions, endpoints edited by hand, payload encoding and configuration.
