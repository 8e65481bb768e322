# A verified model of the PostgreSQL operator

The operator keeps four kinds of custom resources in step with a Kubernetes cluster. Its reconcile
loops are crash-prone, retried sequences of requests to an API server with optimistic concurrency.
This project models those loops request by request and proves what every run of them keeps, what a
pass without faults does, and what the pieces around them (instance selection, the restore command
line, password rotation, the role table of a PostgreSQL instance) guarantee.

`dafny verify dfyconfig.toml` checks everything.

## How the model is built

* **Worlds, runs and promises.** Each controller has a `World` (or `Store`, `Own`): what the API server
  holds about one object, with a global counter for resource versions, and a few history fields. A run
  is a sequence of worlds; each step is an action of the environment or one request of the controller
  that keeps a stated promise. Whole-run theorems are lemmas over all runs.
* **The controllers** are classes whose methods follow the source function by function. They hold the
  log of worlds so far and a script that says, before each request, what others do, how far behind the
  cache is, and the request's fate: served, refused, lost (it takes effect, but the caller is told it
  failed), or a crash of the operator. The script is arbitrary. Every method is proved to extend the
  log to a run, so each promise holds at the very world a request meets, whatever happened since the
  controller read. With an empty script (no fault, no interference) every method is proved equal to a
  function of the world, and the properties of fault-free passes are lemmas about that function.
* **Objects in memory** (`Draft`) are classes, because the source assigns to their fields in place.
* **Meanings.** Beside the functions that methods are proved against stand lemmas (`StatusMeaning`,
  `AbsentMeansCluster`, `DueExactly` and the like) that fix what these functions give by laws of their own:
  complements, exact conditions for each phase, literal texts, which settings cannot matter.
* Histories that a theorem must exclude are recorded in the world: `stale` (a read of the restore object
  gave an old version of it), `misled` (a read of a Job gave the completion of an earlier Job of that name,
  which has been deleted and created anew since), `retargeted` (a restore's selector was edited, or its selection gave another list than
  `plan`), `edits` (how often a cluster's spec was edited), `early` (how often a cluster was read in a version from
  before its deletion mark although it was already marked or gone), `respecified` (a user's spec was edited),
  `meddled` (somebody took away a Secret or one of its keys). A theorem that does not mention them holds
  whatever they say. Old reads of anything else, such as the read of a Job right after its creation, are
  part of every run and need no flag.

| file | models |
|---|---|
| `Types.dfy`, `Text.dfy` | shared values; joining, splitting and decimal digits |
| `Selection.dfy` | the two `getTargetInstances` and a label-selector evaluator |
| `RestoreCommand.dfy` | `internal/postgres/restore.go` |
| `RestoreProtocol.dfy`, `RestoreRuns.dfy`, `RestorePass.dfy`, `RestoreController.dfy` | `controllers/postgresrestore_controller.go` |
| `ObjectStore.dfy` | `internal/k8s/resources.go` against an API server, with any number of callers |
| `ClusterSpec.dfy`, `ClusterApply.dfy`, `ClusterRuns.dfy`, `ClusterController.dfy` | `controllers/postgrescluster_controller.go` |
| `PostgresClient.dfy`, `UserFanOut.dfy` | `internal/postgres/client.go` and the loop over instances |
| `UserProtocol.dfy`, `UserRuns.dfy`, `UserPass.dfy`, `UserController.dfy` | `controllers/postgresuser_controller.go` |

## Where the code differs from what one would expect

* The user controller writes phase "Failed" at the start of every live pass, because the error of the
  cluster read is shadowed (`controllers/postgresuser_controller.go:64-70`). The model keeps that write;
  it is also what cures an out-of-date read, since it is refused unless the object read is current.
* After a failed cluster read the user controller goes on with a nil cluster. Without a list of names
  it dereferences it when it selects instances, unless an invalid label selector is reported first; with
  one, only after the password has been rotated and read. Both are modelled as the death of the pass
  (`UserPass.Targets`, `UserPass.Configured`), and `UserPass.PassDies` says exactly when it happens.
* The rotation interval is optional and has no default. An enabled policy that omits it has 0 hours, and
  every pass rotates: `UserPass.NoHoursAlwaysDue`, `UserPass.NoDoubleRotation`.
* A deletion drops a user only where a status that is Ready as a whole reports it ready. As every live pass
  first persists Failed, a deletion after a pass that crashed drops nothing: `UserPass.DeletionLeaves`,
  `UserPass.CrashOrphansRoles`.
* A pass that reads a version of a cluster from before its deletion mark applies all its objects again:
  `ClusterController.EarlyReadRecreates`. A later pass that reads the mark still removes them before the
  cluster object goes.
* A restore or a user whose selector has no label selector gets all instances, although the resource's
  documentation says that a null label selector matches no objects
  (`config/crd/bases/database.example.com_postgresrestores.yaml:68-71`). The model follows the code.
* The two controllers disagree on names that do not exist, on valid label selectors that match nothing,
  and on those that some instance's labels in the status satisfy but the labels a restore makes up do not,
  or the other way round: `Selection.SelectionAgreement`. Over the keys "instance" and "role" there are none
  of the latter (`Selection.CommonKeysAgreement`); fixing any other label always makes them disagree
  (`Selection.OtherKeysDisagree`).
* A restore's entries are matched to its targets by position. If the targets change but not their
  number, a pass may create a Job that no entry names: `RestorePass.SameLengthChangeCovers` says exactly
  when, and `RestorePass.SameLengthChangeUncovers` gives a run that leads there. If their number changes, the
  Jobs of removed targets are forgotten: `RestorePass.LengthChangeCovers`, `RestorePass.LengthChangeUncovers`.
* An entry that was Completed stays so, even if its Job was then deleted and created anew after an old read.
  A fault-free pass persists what the Jobs say if and only if there is no such entry:
  `RestorePass.CrashRecovery`. `RestorePass.OldReadUnsettles` gives a run that ends with one; the next pass
  persists overall Completed over a Job that is only running.
* "Running" compares two totals, so instances with a surplus of ready replicas can hide others that are
  not ready; it misleads exactly if surplus and deficit are equal and positive:
  `ClusterSpec.RunningMisleads`.
* The primary host given to replicas is the Service of the instance named "primary", whatever the roles are; a
  cluster without an instance of that name points them at a Service it does not have:
  `ClusterSpec.PrimaryHost`, `ClusterSpec.PrimaryHostServed`.
* A cluster's deletion leaves the metrics Service to the
  garbage collector: `ClusterSpec.MetricsServiceLeft`.

## Model

| member | source | states |
|---|---|---|
| Selection.SelectForRestore | controllers/postgresrestore_controller.go:208-274 | the restore's loops pick exactly `RestoreTargets`: all instances, the first one of each listed name or an error, those of a role or an error, or those a valid label selector matches |
| Selection.PickNamed | controllers/postgresrestore_controller.go:221-236 | one instance per listed name, in the order of the list; an error exactly if some name has none |
| Selection.SelectForUser | controllers/postgresuser_controller.go:141-195 | the user's loops pick exactly `UserTargets` from the cluster's status; listed names are taken unchecked, and no match is an error |
| Selection.RestoreMeaning | controllers/postgresrestore_controller.go:208-274 | what `RestoreTargets` is, without its filters: the first instance of each name in the order of the list, or an error exactly if one is missing; exactly the instances of a role, or an error exactly if there is none; exactly those whose labels match, or an error exactly for an invalid selector; all instances without any selector |
| Selection.UserMeaning | controllers/postgresuser_controller.go:141-195 | the same for `UserTargets`; here a valid label selector that matches nothing is an error too |
| Selection.MatchLabelsMeaning | config/crd/bases/database.example.com_postgresrestores.yaml:107-114 | an entry of matchLabels asks for that very value; an empty selector matches everything |
| Selection.InMeaning | config/crd/bases/database.example.com_postgresrestores.yaml:107-114 | `In` with one value is that entry of matchLabels, and with several values it is any of them |
| Selection.ComplementsMeaning | config/crd/bases/database.example.com_postgresrestores.yaml:84-104 | `NotIn` picks exactly what `In` with the same values does not, also where the label is missing; `DoesNotExist` is the complement of `Exists`; a label exists exactly if `In` holds for some value |
| Selection.ConjunctionMeaning | config/crd/bases/database.example.com_postgresrestores.yaml:72-74 | a selector of several parts picks what all of them pick |
| Selection.ValidMeaning | config/crd/bases/database.example.com_postgresrestores.yaml:89-96 | a selector is valid exactly if each operator is known and has values for `In` and `NotIn`, and none for the other two |
| Selection.RoleByLabel | controllers/postgresrestore_controller.go:239-270 | for a restore `role In [r]` selects the same instances in the same order as role r whenever one has it, and `instance In [n]` selects those named n |
| Selection.StatusLabelMeaning | controllers/postgrescluster_controller.go:644-649 | the labels of an instance in the status are these four and no others, with these values |
| Selection.SelectionAgreement | controllers/postgresuser_controller.go:141-195 | with a current status both controllers fail or pick the same names in the same order if all listed names exist, and a valid label selector matches some instance and treats the two sets of labels of each instance alike; only if, too, unless labels decide and instance names repeat |
| Selection.CommonKeysAgreement | config/crd/bases/database.example.com_postgresrestores.yaml:65-117 | label selectors over "instance" and "role" agree if and only if a valid one matches something, whatever the instance names |
| Selection.OtherKeysDisagree | controllers/postgresrestore_controller.go:261-264 | every valid selector that fixes another label selects nothing for a restore, and the controllers disagree, for all instances and selectors |
| ClusterSpec.ControllersAgree | controllers/postgrescluster_controller.go:630-664 | with the status that `updateStatus` computes for the current spec, for every selector the two controllers agree under those conditions |
| RestoreCommand.BuildRestoreCommand | internal/postgres/restore.go:13-82 | the string grown piece by piece is the line of the words the options ask for; an error exactly for a missing backup or an unsupported type |
| RestoreCommand.LineIsText | internal/postgres/restore.go:23-79 | the line of the words is the command written out as text: program, host, port, user, database, format and file or directory, the flags, and every option with its value, in this order |
| RestoreCommand.AcceptedBackups | internal/postgres/restore.go:43-190 | a Job can be built exactly for logical and physical backups stored in S3, or locally with a claim that is named |
| RestoreCommand.ReadShow | internal/postgres/restore.go:26-79 | a printed word reads back as the same key and value |
| RestoreCommand.InterpretWords | internal/postgres/restore.go:26-79 | the words of a command give back every option, if no included name has a comma |
| RestoreCommand.RoundTrip | internal/postgres/restore.go:13-82 | splitting the command on spaces and decoding recovers database, flags, max(parallel, 1), timeout, included and excluded databases in order, and WAL bounds, if and only if no value contains the character that ends it |
| RestoreCommand.EqualCommands | internal/postgres/restore.go:13-82 | two such commands are equal if and only if they ask for the same |
| RestoreProtocol.EnvKeeps | controllers/postgresrestore_controller.go:38-108 | whatever the environment does keeps the invariant and what later worlds owe to earlier ones |
| RestoreProtocol.ControllerKeeps | controllers/postgresrestore_controller.go:38-108 | every request that keeps its promise keeps them too |
| RestoreProtocol.RunInv | controllers/postgresrestore_controller.go:38-108 | the invariant holds in every world of every run |
| RestoreProtocol.RunLater | controllers/postgresrestore_controller.go:38-108 | versions, finalizer, deletion mark, entries and completed Jobs only move forward between any two worlds of a run |
| RestoreRuns.WriteAheadIntent | controllers/postgresrestore_controller.go:147-196 | at every point of every run with fixed targets each Job the restore has created is named in its persisted entries, even with stale reads and crashes between requests |
| RestoreRuns.GoneMeansClean | controllers/postgresrestore_controller.go:507-533 | when the restore object goes away no Job it created is left |
| RestoreRuns.StaysClean | controllers/postgresrestore_controller.go:507-533 | while the restore object is read as it is, none appears later either, however old other reads are |
| RestoreRuns.CompletedEntryIsFinal | controllers/postgresrestore_controller.go:162-202 | a persisted Completed entry never changes; while the restore object is read as it is its Job is never created again, even if the Job has been deleted |
| RestoreRuns.DoneOnce | controllers/postgresrestore_controller.go:396-400 | a Job recorded as done had a completion time in some earlier world of the run |
| RestoreRuns.CompletedIsSound | controllers/postgresrestore_controller.go:421-463 | a persisted overall Completed means that every entry is Completed, one for each target, and each one's Job was once seen with a completion time |
| RestoreRuns.CompletedIsAbsorbing | controllers/postgresrestore_controller.go:65-69 | a Completed restore's status never changes again; while the restore object is read as it is no Job is created |
| RestoreRuns.MeasureNeverRises | controllers/postgresrestore_controller.go:57-205 | the work left (finalizer, entries, Jobs, instances not Completed) never rises under any faults while targets are fixed and no Job is deleted |
| RestoreRuns.NoWorkLeft | controllers/postgresrestore_controller.go:57-205 | the measure is zero if and only if the finalizer is set and every target has a Completed entry |
| RestorePass.ProcessPlanned | controllers/postgresrestore_controller.go:162-202 | the loop in closed form: no iteration disturbs another, each entry follows its own Job, every unfinished entry ends with a Job, and only Jobs of unfinished entries are created |
| RestorePass.CrashRecovery | controllers/postgresrestore_controller.go:133-206 | from any world of the invariant whose targets are fixed, distinct and selectable, one fault-free pass over reported Jobs persists a status that depends on the Jobs alone, if and only if no entry is Completed whose Job is not |
| RestorePass.RecoveryAfterAnyRun | controllers/postgresrestore_controller.go:110-122 | so at the end of any run with such targets, whatever passes failed or crashed and however old the reads; that condition holds unless an old restore object, or the completion of a replaced Job, has been read; a "Failed" written for a transient error does not stick |
| RestorePass.StatusMeaning | controllers/postgresrestore_controller.go:396-456 | the status that the Jobs determine: Failed exactly if some target's Job has failed pods and no completion, Completed exactly if all have completed, Running otherwise; each entry likewise by its own Job |
| RestorePass.PassMeaning | controllers/postgresrestore_controller.go:421-463 | so for the phase that one fault-free pass over reported Jobs persists, whatever came before, if no entry is Completed whose Job is not |
| RestorePass.OverallMeaning | controllers/postgresrestore_controller.go:440-456 | for all entries: Failed before Completed before Running before Pending, each with its exact condition |
| RestorePass.NothingReported | controllers/postgresrestore_controller.go:396-456 | Jobs that have reported nothing change no entry, and entries that are all Pending make the restore Pending |
| RestorePass.FirstPassRuns | controllers/postgresrestore_controller.go:147-202 | the first pass creates the Job of every target, which has reported nothing yet, and persists every entry and the restore as Running |
| RestorePass.FailureRecorded | controllers/postgresrestore_controller.go:110-122 | a pass that finds no targets persists Failed over the entries it has; one whose entries fit the targets but need a Job that cannot be built persists Failed too; neither creates a Job |
| RestorePass.DeletionMeaning | controllers/postgresrestore_controller.go:507-533 | a fault-free deletion takes away exactly the Jobs that the entries name, and then the restore |
| RestorePass.OldReadUnsettles | controllers/postgresrestore_controller.go:162-202 | a run that meets every hypothesis of recovery but ends with a Completed entry whose Job is only running (failed aggregate write, Job deleted, old read, Job created anew); the next pass persists overall Completed |
| RestorePass.CompletedUnseen | controllers/postgresrestore_controller.go:166-169 | once every entry is Completed a pass persists overall Completed whatever the Jobs say |
| RestorePass.CreatingPass | controllers/postgresrestore_controller.go:178-196 | from any such world one fault-free pass leaves every target finished or with its Job |
| RestorePass.ThreePasses | controllers/postgresrestore_controller.go:57-107 | three fault-free passes, with the created Jobs succeeding in between, reach overall Completed from any live world of the invariant with distinct, fixed targets |
| RestorePass.ThreePassesAfterAnyRun | controllers/postgresrestore_controller.go:57-107 | so from the end of any run with such targets, however old the reads in it |
| RestorePass.LengthChangeCovers | controllers/postgresrestore_controller.go:147-160 | a pass over a list of another length forgets the old entries; the created Jobs stay named if and only if they are all Jobs of the new list |
| RestorePass.LengthChangeUncovers | controllers/postgresrestore_controller.go:147-160 | a run (two Jobs created, crash, one instance removed) after which a pass leaves a created Job unnamed |
| RestorePass.SameLengthChangeCovers | controllers/postgresrestore_controller.go:162-202 | after a change to a list of the same length the next pass keeps every created Job named if and only if it was so before and each Job the pass will create, computed from names, entries and existing Jobs, is named by some entry |
| RestorePass.NamedTargetsCover | controllers/postgresrestore_controller.go:162-202 | in particular if every position that needs a Job has its new target's Job named somewhere |
| RestorePass.UnnamedTargetUncovers | controllers/postgresrestore_controller.go:162-202 | and not if the first position that needs a Job gets one that neither exists nor is named |
| RestorePass.SameLengthChangeUncovers | controllers/postgresrestore_controller.go:163-164 | a run (entries persisted, crash, instance replaced) after which a pass creates a Job that no entry names |
| RestoreController.Reconciler.Reconcile | controllers/postgresrestore_controller.go:38-108 | under any script the log stays a run; without faults the pass is exactly `QuietPass` |
| RestoreController.Reconciler.ReadRestore | controllers/postgresrestore_controller.go:41-50 | an old restore object is noted unless it is equal to the current one |
| RestoreController.Reconciler.ReadJob | controllers/postgresrestore_controller.go:387-394 | a Job read as completed has once completed; unless the run has been misled, the Job that exists has |
| RestoreController.Reconciler.HandleError | controllers/postgresrestore_controller.go:110-122 | persists Failed over the entries in memory and always returns an error |
| RestoreController.Reconciler.ReconcileRestore | controllers/postgresrestore_controller.go:133-206 | initialises the entries before any Job, then loops; without faults the result of `Process` is persisted, or the error's entries are left in memory |
| RestoreController.Reconciler.InitialiseEntries | controllers/postgresrestore_controller.go:147-160 | the names of all Jobs are persisted before the loop starts, or the pass ends |
| RestoreController.Reconciler.ProcessInstance | controllers/postgresrestore_controller.go:163-202 | one iteration: under any script it keeps what makes every later write and create allowed |
| RestoreController.Reconciler.EnsureJob | controllers/postgresrestore_controller.go:171-196 | finds the entry's Job or creates the target's; only a Job that was created makes the entry Running |
| RestoreController.Reconciler.UpdateJobStatus | controllers/postgresrestore_controller.go:378-419 | takes over completion, failure or activity in that order; a vanished Job changes nothing |
| RestoreController.Reconciler.UpdateRestoreStatus | controllers/postgresrestore_controller.go:421-463 | persists the aggregate phase with the entries in memory |
| RestoreController.Aggregate | controllers/postgresrestore_controller.go:425-456 | the counters yield Failed if any entry failed, else Completed if all are, else Running if any is, else Pending |
| RestoreController.Reconciler.HandleDeletion | controllers/postgresrestore_controller.go:507-533 | deletes the named Jobs and drops the finalizer only in a world where none of them is left |
| ObjectStore.ApiServer.CreateOrUpdate | internal/k8s/resources.go:16-41 | a call that succeeds is one atomic Put on the store it met, whatever others did between its read and its write and however old the read was |
| ObjectStore.ApiServer.Update | internal/k8s/resources.go:28-40 | a version-checked write of content computed from an old copy equals a Put on the live object |
| ObjectStore.PutMeaning | internal/k8s/resources.go:16-41 | a Put creates what is missing, replaces a Service or StatefulSet, and keeps the data of a Secret or ConfigMap that is there; reported status and all other objects stay |
| ObjectStore.UpdateIsPut | internal/k8s/resources.go:28-40 | the copy an accepted update was computed from has the live object's data |
| ObjectStore.DataFixed | internal/k8s/resources.go:28-36 | the data of a Secret or ConfigMap is fixed from creation to deletion in every history |
| ObjectStore.VersionsNeverReused | internal/k8s/resources.go:38-40 | an object found at a version it had before was neither written nor deleted in between |
| ObjectStore.SendIsPut | internal/k8s/resources.go:16-41 | whatever one of many interleaved callers sends, the store changes by nothing or by a Put of what that caller desires |
| ObjectStore.SystemRunInv | internal/k8s/resources.go:16-41 | with any number of callers, stale caches, deleters and lost requests the store's history is one of Puts, Deletes and status reports |
| ObjectStore.PasswordsStable | controllers/postgrescluster_controller.go:204-247 | so the passwords generated on every pass never replace live ones |
| ObjectStore.RecreatedRejected | internal/k8s/resources.go:38-40 | a caller whose object was deleted, even if it was created anew, cannot write |
| ObjectStore.ShrinksOverall | controllers/postgrescluster_controller.go:696-747 | steps that only shrink a set of objects shrink it over any stretch of a history |
| ClusterController.Draft.SetDefaults | controllers/postgrescluster_controller.go:107-129 | the field assignments give `Defaulted` |
| ClusterSpec.DefaultedMeaning | controllers/postgrescluster_controller.go:107-129 | a value that is set stays, one that is not becomes the default the code names, and nothing else changes |
| ClusterSpec.DefaultedTwice | controllers/postgrescluster_controller.go:107-129 | defaulting is idempotent, also after migration |
| ClusterSpec.MigrationPreserves | controllers/postgrescluster_controller.go:71-90 | the migrated "primary" instance runs with exactly the cluster-level replicas, database, storage and resources |
| ClusterSpec.AbsentMeansCluster | controllers/postgrescluster_controller.go:324-343 | an instance without resources, database or storage of its own gets the workload of one that states the cluster's; without replicas, that of one that states 1 |
| ClusterSpec.StatedOverrides | controllers/postgrescluster_controller.go:324-343 | what an instance states is what it gets, and the cluster's value of it then does not matter; the cluster's replicas never do; the image follows the version |
| ClusterSpec.AccessModes | controllers/postgrescluster_controller.go:355-362 | access modes are those of the effective storage, or ReadWriteOnce alone |
| ClusterSpec.PrimaryHost | controllers/postgrescluster_controller.go:541-555 | exactly the replicas of a highly available cluster get a primary host, and it is the Service of the instance named "primary" |
| ClusterSpec.PrimaryHostServed | controllers/postgrescluster_controller.go:541-555 | that Service is among the instances' own if and only if some instance has that name, whatever its role |
| ClusterRuns.MigratesOnce | controllers/postgrescluster_controller.go:74-90 | between user edits the spec changes at most once, by that migration; it is stable afterwards and defaulting it is a no-op |
| ClusterRuns.RunLater | controllers/postgrescluster_controller.go:43-105 | a later version of the cluster object is never older, never unmarks its deletion, keeps a recorded primary, and keeps the spec but for edits and the one migration |
| ClusterRuns.PrimaryNeverCleared | controllers/postgrescluster_controller.go:656-660 | a recorded primary is never cleared |
| ClusterRuns.PrimaryProvenance | controllers/postgrescluster_controller.go:631-664 | a recorded primary is the initial one, or pod 0 of an instance that was primary with ready replicas at the status write that recorded it |
| ClusterSpec.PrimaryIsLastReady | controllers/postgrescluster_controller.go:631-664 | a computed status names the last ready primary in spec order, or keeps the old one if there is none |
| ClusterSpec.StatusMeaning | controllers/postgrescluster_controller.go:625-690 | the rest of the status: version, each instance's role, labels, ready count and leader, and (without overflow) Degraded exactly if not Running with a ready replica, Pending exactly if not Running without one |
| ClusterSpec.ReplicaConservation | controllers/postgrescluster_controller.go:625-690 | ReadyReplicas is the sum over the instances, and with none over-ready and no overflow Running holds if and only if every single instance is fully ready |
| ClusterSpec.RunningExactly | controllers/postgrescluster_controller.go:666-685 | for all counts, wrapping included: Running if and only if surplus and deficit differ by a multiple of 2^32 |
| ClusterSpec.RunningMisleads | controllers/postgrescluster_controller.go:676-679 | below 2^32, Running holds although not every instance is exactly ready if and only if surplus equals deficit and is positive |
| ClusterSpec.SumWraps | controllers/postgrescluster_controller.go:628-674 | int32 sums that wrap at every step are the sum wrapped once |
| ClusterSpec.TotalsCanMislead | controllers/postgrescluster_controller.go:676-679 | the smallest such case: two ready replicas of one instance hide that another has none |
| ClusterSpec.SumsAgree | controllers/postgrescluster_controller.go:628-674 | the wrapping int32 sum of counts is their sum while that fits |
| ClusterSpec.ResourceNameInjective | controllers/postgrescluster_controller.go:692-694 | within a cluster different instances have different resource names |
| ClusterSpec.MetricsServiceLeft | controllers/postgrescluster_controller.go:700-747 | deletion covers the metrics Service if and only if an instance is called "metrics" |
| ClusterSpec.OwnedKeysCount | controllers/postgrescluster_controller.go:700-747 | deletion covers 2n + 2 different objects for n instances with distinct names |
| ClusterApply.AppliedIsOwned | controllers/postgrescluster_controller.go:700-747 | what a cluster applies is exactly what its deletion covers, and the metrics Service if metrics are scraped |
| ClusterApply.DeletionTakesApplied | controllers/postgrescluster_controller.go:700-747 | in the store: without what the deletion covers no object of the cluster's items is left, the metrics Service aside, and every other object is as it was |
| ClusterApply.ItemContents | controllers/postgrescluster_controller.go:131-160 | the items one by one and in order: configuration, credentials, Service and StatefulSet of each instance, metrics Service exactly if metrics are scraped |
| ClusterApply.CredentialsMeaning | controllers/postgrescluster_controller.go:204-240 | every user has the last password generated for its name, postgres and replication have theirs, and there are no other keys |
| ClusterApply.PutAllFinal | controllers/postgrescluster_controller.go:131-160 | what each key ends with after a list of applies: the last content asked for, except that kept data is the live or the first one; other keys are untouched |
| ClusterApply.EachEndsAsDesired | controllers/postgrescluster_controller.go:131-160 | every object ends as its own item asks if and only if no two items conflict |
| ClusterApply.DistinctNamesNoConflict | controllers/postgrescluster_controller.go:144-156 | distinct instance names, none "metrics" when Prometheus is on, never conflict |
| ClusterApply.ApplyAgain | internal/k8s/resources.go:28-36 | applying again, with freshly generated data, changes nothing but versions |
| ClusterController.PassAppliesEachInstance | controllers/postgrescluster_controller.go:131-160 | after a fault-free pass every instance has its own Service and StatefulSet with its effective settings, and the next pass changes no content |
| ClusterController.Reconciler.Reconcile | controllers/postgrescluster_controller.go:43-105 | under any script the two histories stay legal; without faults the result is exact; a cluster being deleted with a fixed spec goes away only when none of its objects is left, under any faults and reads; its objects only shrink unless the pass reads a version from before the deletion mark; a pass over such a version, if its requests meet no fault, applies its objects again |
| ClusterController.Reconciler.RetryDeletion | controllers/postgrescluster_controller.go:66-69 | the same over any number of passes of a deleting cluster; without faults one pass is enough |
| ClusterController.Reconciler.ReadOwn | controllers/postgrescluster_controller.go:46-56 | a read gives some earlier version of the run; one from before the deletion mark is noted |
| ClusterController.EarlyReadRecreates | controllers/postgrescluster_controller.go:46-96 | for every spec with instances, a pass one version behind over a marked cluster without objects brings its ConfigMap back |
| ClusterController.Reconciler.ReconcileCluster | controllers/postgrescluster_controller.go:131-160 | without faults exactly the listed items are applied, in order, up to a workload that cannot be built |
| ClusterController.AppliedIsStart | controllers/postgrescluster_controller.go:131-160 | if some workload cannot be built, what is applied is the start of the full list, up to and including the Service of the first such instance |
| ClusterController.Reconciler.ReconcileInstance | controllers/postgrescluster_controller.go:249-353 | applies the Service, then the StatefulSet if all quantities parse |
| ClusterController.Reconciler.BuildCredentials | controllers/postgrescluster_controller.go:216-240 | one password each for postgres, replication and every user, later entries winning |
| ClusterController.Reconciler.UpdateStatus | controllers/postgrescluster_controller.go:625-690 | the status computed in the loops is persisted, and without faults it is `NewStatus` of the StatefulSets read |
| ClusterController.Reconciler.Gather | controllers/postgrescluster_controller.go:626-664 | one status per instance in order, the wrapped total, and the last leader |
| ClusterController.Reconciler.HandleDeletion | controllers/postgrescluster_controller.go:696-756 | under any faults objects nobody else writes only vanish, and the cluster object is not written before all 2n+2 are gone; without faults exactly they go |
| PostgresClient.Client.CreateOrUpdateUser | internal/postgres/client.go:97-136 | changes this instance's roles only, as `UserWritten` says, whatever fails |
| PostgresClient.Client.GrantAll | internal/postgres/client.go:126-133 | grants in order and stops at the first privilege that is refused |
| PostgresClient.Client.SetConnectionLimit | internal/postgres/client.go:71-89 | refuses an empty name and limits below -1, else changes the limit only |
| PostgresClient.Client.DropUser | internal/postgres/client.go:139-177 | refuses an empty name and system users, else removes the role |
| PostgresClient.UserWrittenHolds | internal/postgres/client.go:97-136 | success means that the user can log in with this password and holds exactly the privileges it had and those listed; an existing user keeps its limit, a new one has none |
| PostgresClient.UserWrittenOthers | internal/postgres/client.go:97-136 | roles of other names are untouched even when calls fail half-way |
| PostgresClient.UserWrittenQuiet | internal/postgres/client.go:97-136 | without faults it succeeds if and only if name and password are not empty, the name is not that of a role that cannot log in, and the server accepts every privilege |
| PostgresClient.LimitWrittenQuiet | internal/postgres/client.go:71-89 | without faults it succeeds exactly for an existing role, a name and a limit of at least -1, and then changes that role's limit and nothing else |
| PostgresClient.SystemUsersStay | internal/postgres/client.go:139-177 | the ten system names and the empty one are refused and nothing changes, under any faults; without faults any other role is gone |
| UserFanOut.ConfigureInstances | controllers/postgresuser_controller.go:197-251 | the loop goes on after failures and computes `FanOut` |
| UserFanOut.ReportsInOrder | controllers/postgresuser_controller.go:208-250 | one report per target, in target order; no error if and only if all are ready |
| UserFanOut.Isolation | controllers/postgresuser_controller.go:208-250 | for distinct targets each outcome depends only on that instance's server and the fates of its own calls; other instances are untouched |
| UserFanOut.ReadyHolds | controllers/postgresuser_controller.go:225-246 | on every instance reported ready the role holds the password, the privileges and the limit when it is not negative, whatever failed elsewhere |
| UserFanOut.ConfiguredExactly | controllers/postgresuser_controller.go:209-246 | a negative limit leaves an existing role's limit alone and gives a new role none; the role gains exactly the listed privileges |
| UserFanOut.ConfigureOthers | controllers/postgresuser_controller.go:209-246 | roles of other names on an instance are as they were, even if its calls failed |
| UserFanOut.FanOutQuiet | controllers/postgresuser_controller.go:197-251 | without faults there is no error if and only if every target is reachable and can take the user |
| UserFanOut.DropEachQuiet | controllers/postgresuser_controller.go:405-417 | without faults the user is gone from exactly the instances that were reported ready, system users excepted |
| UserProtocol.IntervalFits | controllers/postgresuser_controller.go:357 | the Duration product is exact for 1 to 2048 hours, and altogether if and only if the hours are within 2562047 of zero |
| UserProtocol.DueExactly | controllers/postgresuser_controller.go:346-359 | for hours that fit a Duration: a rotation is due if and only if there was none yet, or the policy is enabled and the interval is over, to the nanosecond |
| UserProtocol.StoredPlaces | controllers/postgresuser_controller.go:361-387 | where the password is looked up: the referenced Secret under its own key, or under "password" where none is given, else the Secret named after the user |
| UserProtocol.RotatedMayFollow | controllers/postgresuser_controller.go:346-359 | a rotation found due and stamped later, in whole seconds, is a full interval after the last |
| UserProtocol.ControllerKeeps | controllers/postgresuser_controller.go:35-123 | every request that keeps its promise keeps the invariant and what later worlds owe to earlier ones |
| UserProtocol.RunInv | controllers/postgresuser_controller.go:35-123 | the invariant holds in every world of every run |
| UserRuns.RotationRate | controllers/postgresuser_controller.go:292-359 | while the spec is not edited two persisted values of LastPasswordChange are equal or at least the interval apart, under any faults; without rotation there is only one |
| UserRuns.ChangesInWindow | controllers/postgresuser_controller.go:346-359 | a window of W hours holds at most W/I + 1 persisted changes |
| UserRuns.PasswordsInWindow | controllers/postgresuser_controller.go:297-340 | and as many generated passwords, as long as status writes record every rotation |
| UserRuns.GeneratedOnlyWhenDue | controllers/postgresuser_controller.go:292-332 | a password is generated only where asked for and only when a rotation is due by the persisted status, even if the pass began with a stale read; no other Secret is written |
| UserRuns.NothingForgotten | controllers/postgresuser_controller.go:429-443 | no status write of any run loses a LastPasswordChange or empties the instance statuses |
| UserRuns.RecordedMeansStored | controllers/postgresuser_controller.go:308-340 | while nobody takes Secrets or keys away, a persisted LastPasswordChange means that the generated password can be read |
| UserRuns.StoredStays | controllers/postgresuser_controller.go:361-387 | a password that can be read can be read ever after, while nobody takes Secrets or keys away |
| UserPass.PassSucceeds | controllers/postgresuser_controller.go:35-123 | over instances without faults a fault-free pass succeeds if and only if there is a password to use and every target can take the user, whatever earlier passes left behind |
| UserPass.PassDies | controllers/postgresuser_controller.go:64-110 | a fault-free pass dies if and only if the user is live and it selects instances of a cluster it did not get (no names, no invalid label selector), stores a password in a Secret without data, or has names and a password but no cluster to connect to |
| UserPass.TargetsUnread | controllers/postgresuser_controller.go:141-195 | without a cluster: the listed names, else an error exactly for an invalid label selector that no role precedes, else a null dereference |
| UserController.Reconciler.SelectTargets | controllers/postgresuser_controller.go:141-195 | the selection with or without a cluster: names are taken unchecked, an invalid label selector is an error before the cluster is dereferenced, all else needs the cluster |
| UserPass.SuccessMeansReady | controllers/postgresuser_controller.go:95-121 | success persists Ready with one ready report per target, and every target's role holds the password now stored |
| UserPass.ReportsAreTrue | controllers/postgresuser_controller.go:95-115 | a pass that reaches its instances reports on each, is Ready if and only if all are, and each instance reported ready holds the password now stored and the limit, whatever failed on the others |
| UserPass.RecordedPasswordUsable | controllers/postgresuser_controller.go:361-387 | when no rotation is due the recorded password is there for the pass to use |
| UserPass.NothingRotated | controllers/postgresuser_controller.go:259-305 | a pass that finds no rotation due, is not to generate a password, or gets none leaves every Secret and the time of the last change alone |
| UserPass.RotationHappens | controllers/postgresuser_controller.go:297-359 | a fault-free pass of a live user with valid targets that is to generate its password, and finds the interval over or no change yet, stores the new password and, unless it dies on an instance, records the time, if the Secret is not one without data |
| UserPass.OtherKeysStay | controllers/postgresuser_controller.go:308-335 | a live pass changes at most the key "password" of the Secret named after the user, and creates it with that key alone |
| UserPass.PhaseTellsOutcome | controllers/postgresuser_controller.go:95-121 | a fault-free live pass leaves Ready exactly if it finishes, and Failed otherwise, even if it dies |
| UserPass.NoDoubleRotation | controllers/postgresuser_controller.go:338-340 | a successful pass has recorded its rotation, so the next one does not rotate again, if rotation is off or paced by at least an hour; for hours that fit a Duration, and a last change not in the future, only if |
| UserPass.NoHoursAlwaysDue | controllers/postgresuser_controller.go:346-359 | with an enabled policy of 0 hours a rotation is due at every later time |
| UserPass.DeletionLeaves | controllers/postgresuser_controller.go:389-427 | after a fault-free deletion the user is gone from exactly the instances reported ready in a status that is Ready as a whole, if the cluster can be read; system users excepted |
| UserPass.CrashOrphansRoles | controllers/postgresuser_controller.go:64-70 | at the end of any run with a live user, a pass that crashes after its first write and a deletion leave every role on every instance |
| UserController.Reconciler.Reconcile | controllers/postgresuser_controller.go:35-123 | under any script the log stays a run; without faults the pass is exactly `QuietPass`, and a live one first persists Failed |
| UserController.Reconciler.UpdateStatus | controllers/postgresuser_controller.go:429-443 | fields not set keep the draft's values; an accepted write leaves the draft equal to the stored object |
| UserController.Reconciler.ReconcilePasswordSecret | controllers/postgresuser_controller.go:253-344 | success means that the password is stored, unless somebody took it away; a rotation is stamped only after its Secret was written |
| UserController.Reconciler.GetPassword | controllers/postgresuser_controller.go:361-387 | a stored password is found by a read that is served and current |
| UserController.Reconciler.ConfigureUser | controllers/postgresuser_controller.go:197-251 | under any script it finishes only with a persisted Ready and the reports of a loop without error; without faults it is `Configured` |
| UserController.Reconciler.HandleDeletion | controllers/postgresuser_controller.go:389-427 | drops the user where it was ready, if the cluster can be read, then removes the finalizer |

## Left out

- `main.go`, watches, requeue intervals, logging, metrics, generated deepcopy code, YAML: wiring.
- The backup controller and `internal/postgres/backup.go`: re-applying a Job depends on immutability rules of the API server that are not visible in the repository.
- Pod, Service, StatefulSet and Job templates beyond names, roles and effective settings (probes, images other than the version, environment, volumes, labels): constants of the source.
- The restore Job's arguments in the restore protocol: a Job there is its name and its status; the command line is proved on its own in `RestoreCommand`, for any options, so the defaults that the controller fills in first (`controllers/postgresrestore_controller.go:124-131`) are arguments of it.
- `generatePostgresConfig`: its text follows map iteration order; it enters as a parameter.
- Random generation: passwords are arbitrary parameters; a generator that fails gives none.
- Messages, conditions, DatabasesGranted (never set), StartTime, CompletionTime and LastUpdated values: not part of a status here.
- Namespaces: fixed; the references' default namespace is not modelled. A restore always refers to the same backup, a user to the same cluster.
- Others create no Jobs under a restore's names, write no status of these resources, and add or remove none of their finalizers.
- Owner references and garbage collection.
- The response of a status update replacing in-memory spec defaults: this depends on the client library's decoding.
- Syntax of label keys and values, which `LabelSelectorAsSelector` also checks; operators and their values are checked.
- SQL text, quoting and connection pools: a statement is its effect on the role table. `DropUser`'s revocations, whose errors are only logged, have no effect there, and the cluster credentials that `NewClientForInstance` reads are part of a connection attempt that may fail.
- Bind parameters: the model assumes that servers accept `ALTER USER` and `CREATE USER` with `WITH PASSWORD $1`, as the code sends them, although PostgreSQL's utility statements take no parameters; `PostgresClient.UserWrittenQuiet`, `UserFanOut.FanOutQuiet` and `UserPass.PassSucceeds` rest on it.
- Which privileges a server accepts between GRANT and TO is a fixed set, apart from its table of users.
- Others do not change an instance's roles while a pass is configuring it.
- Saturation of `time.Since` at 292 years: the difference is exact here, which compares alike for every interval that fits.
- RestoreRuns.WriteAheadIntent: says nothing once the selection has given another list than the run's plan; `RestorePass.LengthChangeCovers` and `RestorePass.SameLengthChangeCovers` say exactly when the next pass then keeps it.
- RestoreRuns.MeasureNeverRises: assumes that no Job is deleted from outside, since such a Job has to be created again.
- UserRuns.PasswordsInWindow: assumes that no rotation goes unrecorded, since a password whose time could not be written is followed by another one on the next pass.
