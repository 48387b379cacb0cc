# The MXJob reconciler

This project models the operator that turns a stored MXJob into pods and services, and proves what
it keeps over whole runs, with API calls that fail or lose their reply, pods that move or vanish
between any two calls, and a controller that dies at any point.

A pass (`TrainingJob.Reconcile`) is modelled twice. `Training` and `Replicas` give it as functions of
the world and of the job's memory; all run properties are about these. `Trainer` and `ControllerObject`
give it as the source has it, objects whose methods change fields in place, and prove that every method
does to the cluster and to its object exactly what its function says.

The world (`Store`) holds pods, services, config maps, stored jobs and a trace of events. An
environment answers the calls: for every position of the trace it says what moves before the next
call, whether a read fails, whether a write is answered, turned away, or done without an answer, and
what the random source and the map orders give. A controller that dies in mid-pass is an environment
that turns away the rest of the calls, followed by the loss of the controller's memory; what it does
afterwards has no part in that pass (`Locality.RunIsLocal`). A run is a
sequence of syncs of any keys, with users submitting and withdrawing jobs between them.

| file | what it holds |
|---|---|
| `RandString`, `Naming`, `Selectors` | random suffixes, names and their decoding, label selectors |
| `Api`, `Validation`, `AcceleratorSetup`, `PodStatus` | API values, defaults and validation, accelerator injection, pod classification and the status fold |
| `Store`, `Loops`, `Replicas`, `Training`, `Controller` | the API server, one replica set, one job, the controller |
| `Trails`, `Passes` | each operation only adds events of a small event machine; what every pass keeps |
| `LivePods`, `Runs`, `Recovery`, `Unobserved`, `ChiefOnly`, `SetupSoundness` | properties of whole runs |
| `Created`, `PassResults` | what a pass creates and leaves behind, field by field |
| `CalmPasses`, `Quiescence`, `Rendezvous`, `Teardown` | what holds when nothing interferes, and deletion |
| `Durability`, `Locality`, `SecondSetup` | what write-ahead hangs on, what a run depends on, and which jobs one failed setup write can cost a second pod |
| `ClusterClient`, `Trainer`, `ControllerObject`, `DeepCopy` | the same things as objects on the heap |

Where the code and what it says about itself disagree, the code is followed:

* `replicaStatusFromPodList` is meant to look at the pod that started last. It keeps the address of a
  range variable, which before Go 1.22 is one variable for the whole loop, so it always looks at the
  pod listed last (`PodStatus.ScansAgree` says when the two are the same).
* Pods are created under `genPodName` and looked up under `genName`. No pod name is ever a looked-up
  name, so as long as only the operator creates pods no status is ever read off one
  (`Unobserved.NoJobIsEverObserved`).
* `updateCRDStatus` stores the new status in the cached job before it calls `Update`, so a failed
  write is not tried again until the status changes. For one write this matters: that of a setup which
  draws a runtime id. If it does not reach the store and no restart follows, pods are created for a job
  that is not stored as set up (`Durability.RefusedWriteBreaksWriteAhead`), and one crash later the job
  is set up under a second id. `SecondSetup.TwoPodsIff` says exactly which stored jobs this can leave
  with two live pods for one replica; for all others one pod per replica needs no assumption on writes
  or restarts (`Recovery.GivenIdNeedsNoRestart`).
* `SyncPods` looks at the length of the answer before the error, so a failed list of a replica's pods
  counts as an empty one and adds a pod (`LivePods.AFailedListAddsAPod`); the bounds on pods count the
  failed lists.
* A failed setup does not end the pass, and Done is not final. `SetupSoundness` says exactly over which
  specs a pass can follow a nil pointer; after defaults these are a policy without a chief, and a
  server set with pods to create and no template, both of which validation has already refused.

## Model

| member | source | states |
|---|---|---|
| RandString.RandString | pkg/util/util.go:58-74 | the text is the reversed letters of the accepted chunks up to the one that completes n; it has length n over 0-9a-z, so no dash; the loop ends on every stream with n acceptable chunks; fewer than ten chunks of the last word are lost |
| RandString.CompletesUnique | pkg/util/util.go:58-74 | stream and length determine where the sampler stops |
| RandString.CompletesExists | pkg/util/util.go:58-74 | it can stop exactly on the streams with n acceptable chunks |
| RandString.MaskAndShift | pkg/util/util.go:47-51 | masking and shifting take the low six bits and the rest |
| RandString.LettersByValue | pkg/util/util.go:48-48 | the 36 letters, each at its index |
| RandString.CutIs | pkg/util/util.go:61-70 | a word gives its ten six-bit chunks, low bits first, before the next word |
| RandString.PickedAt | pkg/util/util.go:65-68 | each accepted chunk gives its letter, after those of the accepted chunks before it |
| Naming.DecodeGenName | pkg/trainer/replicas.go:570-577 | read from the right, a name with an id without a dash, empty or not, gives back cut job name, type, id and index exactly unless the index is negative and the id is the name of a type |
| Naming.GenNamesEqualIff | pkg/trainer/replicas.go:570-577 | across jobs, types, dashless ids and all indices: two names are equal exactly if all parts are, or one has no id and the other, with the opposite index, has the first one's type for its id and the first one's job name for its job name and type |
| Naming.CreatedNamesInjective | pkg/trainer/replicas.go:570-577 | names that are created (index not negative) come from equal parts if equal, also without a runtime id, as a failed setup leaves it |
| Naming.GenNameInjectiveWithinJob | pkg/trainer/replicas.go:570-577 | within a job they do for any runtime id |
| Naming.PodNameIsNoGenName | pkg/trainer/replicas.go:579-583 | no pod name of a job is a name the job looks up, for any suffix |
| Naming.PodNameIsNoGenNameOfAnyJob | pkg/trainer/replicas.go:579-583 | nor one that another job looks up, with generated ids |
| Naming.ServiceNameFits | pkg/trainer/replicas.go:570-577 | service names stay within the 63 characters of section 2.3.4 of RFC 1035 for every index of a set |
| Naming.PodNameFits | pkg/trainer/replicas.go:579-583 | with a full job name, pod names of servers and workers fit exactly below index 10000; a scheduler pod's name has exactly 63 characters |
| Naming.ShorterJobNamesFitToo | pkg/trainer/replicas.go:579-583 | below that index they fit for every job name |
| Naming.NameReads | pkg/trainer/replicas.go:570-583 | a name is the first 40 characters of the job's name, or all of a shorter one, the role in lower case, the id and the index, with dashes between; a pod's name has the suffix after one more |
| Naming.DecimalReads | pkg/trainer/replicas.go:576-576 | the index is in decimal, without leading zeros, with a minus sign if negative |
| Selectors.ToSelector | pkg/trainer/labels.go:26-33 | the text reads back as the same labels, whatever order the map was visited in |
| Replicas.TaskSelectorsDisjoint | pkg/trainer/replicas.go:120-129 | a replica's selector matches the labels of no other replica, a set's selector those of no other set |
| Replicas.SizeOfTypeIsLast | pkg/trainer/replicas.go:216-233 | the server and worker counts are those of the last set of the type |
| Validation.SetDefaults | pkg/trainer/training.go:229-261 | the loop gives every field that was not set its default, by value, and changes nothing else |
| Validation.DefaultsByValue | pkg/trainer/training.go:229-261 | the defaulted spec is the one spec with image stefanofioravanzo/mxnet:1.3.0, chief SCHEDULER 0, and type SCHEDULER, port 9000 and one replica for each set, where these were not set |
| Validation.ValidateTFJobSpec | pkg/apis/mxnet/validation/validation.go:30-84 | no error exactly for the valid specs; the error is the first fault in the order of the specs |
| Validation.ErrorsByCondition | pkg/apis/mxnet/validation/validation.go:32-82 | each error, by its condition on the spec: no chief in the policy before all else; then the first faulty set, for a missing template, a missing port, a bad type or no mxnet container, in this order; last a chief's type that no set has |
| AcceleratorSetup.ConfigureAccelerators | pkg/apis/mxnet/helper/helpers.go:55-110 | the nested loops give the configured templates, and stop at a missing one with those before it changed |
| AcceleratorSetup.TemplateConserved | pkg/apis/mxnet/helper/helpers.go:61-108 | old volumes, mounts and variables stay in front; as many mounts as volumes are added; only the first mxnet container changes; the additions are the sum over the wanted accelerators, each once |
| AcceleratorSetup.AddedAt | pkg/apis/mxnet/helper/helpers.go:83-98 | volume k has the name and host path, mount k the name and mount path of the accelerator's volume k |
| AcceleratorSetup.TemplateGets | pkg/apis/mxnet/helper/helpers.go:61-106 | the template gets each volume of every configured accelerator that its first mxnet container lists, the container each mount and variable |
| AcceleratorSetup.OrderDoesNotMatter | pkg/apis/mxnet/helper/helpers.go:81-104 | the additions do not depend on the order the map is visited in |
| AcceleratorSetup.ConfigureSucceeds | pkg/apis/mxnet/helper/helpers.go:57-60 | the step fails exactly for a missing template |
| AcceleratorSetup.ConfigureTouchesTemplates | pkg/apis/mxnet/helper/helpers.go:57-108 | it changes templates only |
| AcceleratorSetup.Requested | pkg/apis/mxnet/helper/helpers.go:64-78 | the wanted accelerators are the configured ones among limits and requests |
| PodStatus.PickLatest | pkg/trainer/replicas.go:347-356 | the scan as meant: the first pod of the latest start time |
| PodStatus.ReplicaStatusFromPodList | pkg/trainer/replicas.go:345-398 | the scan as written: the state of the pod listed last |
| PodStatus.ScansAgree | pkg/trainer/replicas.go:347-356 | the two scans read the same state, whatever the containers of the pods are, exactly if the pod listed last started strictly last |
| PodStatus.RelevantContainerState | pkg/trainer/replicas.go:362-377 | the loop over the containers finds the state that counts |
| PodStatus.RelevantIsLast | pkg/trainer/replicas.go:362-377 | that is the state of the last container of the name, its last termination first |
| PodStatus.PodVerdict | pkg/trainer/training.go:172-208 | from the last container of the name: a pod runs, succeeds, fails or is unknown exactly by running, waiting, exit code and out-of-memory reason; it is unknown without such a container |
| PodStatus.TallyCounts | pkg/trainer/replicas.go:445-456 | the count map is the direct count |
| PodStatus.TallyTotal | pkg/trainer/replicas.go:445-456 | the counts add up to the number of replicas |
| PodStatus.FoldIsJudged | pkg/trainer/replicas.go:458-478 | Failed beats Running beats all Succeeded, else Unknown, each exactly by the counts |
| PodStatus.SetState | pkg/trainer/replicas.go:458-478 | the three tests on the count map compute that fold |
| Loops.LoopCarries | pkg/trainer/replicas.go:481-567 | what every turn of SyncPods or SyncServices carries, the loop carries; if it ends well, every index has been done |
| Loops.LoopUnrolls | pkg/trainer/replicas.go:481-567 | the loop makes its turns one after another and stops after the first that does not end well, with its outcome |
| Trails.SyncPodAtTrail | pkg/trainer/replicas.go:483-532 | in every environment a turn of SyncPods adds legal events only: a pod is created under a new name, for a replica of the job, and only while the replica has no non-failed pod or right after the list of its pods failed |
| Trails.SyncServiceAtTrail | pkg/trainer/replicas.go:540-564 | a turn of SyncServices creates only a missing service of the job |
| Passes.UpdateCRDTrail | pkg/trainer/training.go:326-343 | cached and own status agree afterwards even if the write failed; one write is tried exactly if they differed; after a write that succeeds the stored job is the cached one |
| Passes.ReconcileKeeps | pkg/trainer/training.go:346-441 | in every environment a pass keeps the statuses agreeing, phase and state paired, never returns to no phase nor goes on to CleanUp, tries at most two writes, deletes nothing, leaves the stored job behind only by a failed write, and stores the set-up job before it creates anything |
| Passes.SetUpStays | pkg/trainer/training.go:346-376 | once the set-up job is stored it stays so, and every later creation is covered |
| Passes.NothingDeleted | pkg/trainer/training.go:346-441 | a pass outside CleanUp deletes nothing |
| LivePods.LivePodAccounting | pkg/trainer/replicas.go:481-535 | over any run: live pods of a replica are conserved, rise above max(1, before) by no more than the failed lists of its pods, and are created at most once (not at all while there is one) plus once for each that failed or was removed plus once for each failed list |
| LivePods.SucceededIsNotRerun | pkg/trainer/replicas.go:495-497 | a succeeded pod that is not deleted stays, and its replica is created at most once for each failed list, so never if none fails |
| LivePods.AFailedListAddsAPod | pkg/trainer/replicas.go:508-513 | with nothing moving and nothing else failing, a failed list adds a pod to however many live ones there are |
| Controller.KeysInjective | pkg/controller/controller.go:217-223 | two keys never stand for one object |
| Controller.SplitKeyIff | pkg/controller/controller.go:217-223 | a key is a namespace, a slash and a name, neither empty nor with a slash in it, and nothing else is a key |
| Controller.SyncAnswers | pkg/controller/controller.go:217-265 | for every key, spelled out, and every answer of the lister: which TrainingJob the pass is over, and exactly when the sync has failed and when the job is done with |
| Runs.SyncIsOfItsKey | pkg/controller/controller.go:217-256 | in a run, the sync of a namespace and a name is a pass over the job stored under these two, writes no other job, and leaves every other TrainingJob alone; without such a job it does nothing |
| Runs.NoKeyNoSync | pkg/controller/controller.go:217-223 | for a string that is no key it does nothing |
| Runs.SyncKeeps | pkg/controller/controller.go:233-248 | a sync runs one pass over the TrainingJob kept for the UID, or over a new one, and leaves all others alone |
| Runs.SyncIsIsolated | pkg/controller/controller.go:210-267 | it overwrites no pod or service, deletes none, and writes no other job |
| Runs.ListedIsNotForgotten | pkg/controller/controller.go:256-265 | no job the lister knows is ever forgotten |
| Runs.RunInvariant | pkg/trainer/training.go:216-286 | in every run, with jobs submitted, withdrawn and submitted again, every job, stored or in memory, is at the start or in one of five pairs of phase and state, statuses agree, and no UID is given out twice; a TrainingJob in memory is past setup, so setup is not run on it again |
| Runs.RunEvents | pkg/controller/controller.go:210-267 | every run is a run of the event machine, deletes nothing, and a started job stays started until it is withdrawn |
| Runs.RunStaysFresh | pkg/trainer/training.go:326-343 | in every run in which no status write fails, every TrainingJob in memory holds its job as it is stored |
| Runs.RunLivePods | pkg/trainer/replicas.go:481-535 | live-pod accounting for runs of many jobs with restarts, submissions and withdrawals |
| Runs.RunNeverReruns | pkg/trainer/replicas.go:495-497 | in no run is a succeeded pod that is not deleted run again, but for failed lists |
| Recovery.StoredSpecStays | pkg/trainer/training.go:326-343 | in every run, whatever fails: the stored spec of a started job, runtime id and accelerator edits included, does not change until it is withdrawn |
| Recovery.OneRuntimeId | pkg/trainer/training.go:346-376 | if, of the setups of one job, those that draw an id and do not reach the store are followed by a restart, whatever else fails and whatever happens to other jobs: nothing is made for it before its id is stored, and all that is made for its UID carries that id, also once it is withdrawn; if all its setups are followed so, nothing is made for it before it has a phase |
| Recovery.AtMostOnePodPerReplica | pkg/trainer/training.go:346-376 | then every (type, index) of that job has at most one pod that has not failed, under all runtime ids together, through any number of crashes, and one more for each failed list of its pods; other jobs' setups, and other operators' pods, do not matter |
| Recovery.GivenIdNeedsNoRestart | pkg/trainer/training.go:271-275 | for a job that has a phase, a runtime id, or a spec that is not valid once defaulted, the same in every run, with no restart asked for |
| Durability.WriteAheadExactly | pkg/trainer/training.go:326-343 | in every environment a pass over a started job writes ahead exactly if the stored job is set up when it begins, or it creates nothing |
| Durability.RefusedWriteBreaksWriteAhead | pkg/trainer/training.go:333-338 | a setup write that is turned away with no restart breaks it |
| Locality.PassIsLocal | pkg/trainer/training.go:346-441 | a pass depends on its environment only at the positions of the trace it adds |
| Locality.RunIsLocal | pkg/controller/controller.go:210-267 | so does a run |
| SecondSetup.TwoPodsForOneReplica | pkg/trainer/training.go:333-338 | for every job that draws an id and has pods to create: a run with a refused setup write, no restart, and one crash in the next pass, in which nothing moves and no read fails, ends in two live pods of one replica under two runtime ids |
| SecondSetup.TwoPodsIff | pkg/trainer/training.go:326-376 | on a store without the operator's pods under the job's name, some run in which no list fails ends in two live pods of one replica exactly if the job has a key, no phase and no runtime id, is valid once defaulted, and then all its sets are accepted and one has pods to create |
| SetupSoundness.SetupSucceedsIffValid | pkg/trainer/training.go:216-286 | setup succeeds exactly for specs valid once defaulted, never fails in the accelerator step, and then every pointer is set |
| SetupSoundness.SetupConfigures | pkg/trainer/training.go:261-275 | it changes the defaulted spec in its templates and its missing runtime id only |
| SetupSoundness.SetupByValue | pkg/trainer/training.go:216-286 | phase, state, reason and spec after setup: failed with the error validation finds, and the defaulted spec; or set up; a job that has a phase keeps its spec |
| SetupSoundness.PlainJobIsSetUp | pkg/trainer/training.go:229-286 | a job with no policy and one set with nothing but a template with an mxnet container becomes one scheduler on port 9000, its own chief, for which a set is made |
| Training.ChecksByCondition | pkg/trainer/replicas.go:81-109 | for which specs a set is made, and which error each other spec gets |
| SetupSoundness.BuildStopsAtFirst | pkg/trainer/training.go:289-303 | the sets built are those before the first spec refused, which decides the error |
| SetupSoundness.BuildFailsOnlyForScheduler | pkg/trainer/replicas.go:81-117 | after setup the sets can be refused exactly for a scheduler set whose size is not one |
| SetupSoundness.FirstPassCanPanicIff | pkg/trainer/training.go:346-441 | the first pass over a stored job can get past setup and follow a nil pointer exactly if, after defaults, every set is accepted, and a set with pods to create has no template or there is a set and the policy has no chief |
| SetupSoundness.PassCanPanicIff | pkg/trainer/training.go:346-441 | a later pass can exactly over a deadly spec: a nil size met while the sets are built, or, with all accepted, a set of nil size, a set with pods to create and no template, no policy, or a set and no chief |
| SetupSoundness.RunNeverPanics | pkg/trainer/training.go:346-441 | with no deadly spec stored or submitted, no pass of any run dies |
| SetupSoundness.RunCanPanicIff | pkg/controller/controller.go:210-267 | a run on a store can die exactly if some stored job that has a key has a deadly spec |
| SetupSoundness.SetupKeepsDeadly | pkg/trainer/training.go:216-286 | setup neither makes a spec deadly nor saves one |
| SetupSoundness.ChieflessPanics | pkg/trainer/training.go:132-152 | a policy without a chief fails setup, and the pass goes on to the nil chief in every environment that answers the setup write, for all sets that are accepted |
| SetupSoundness.TemplatelessPanics | pkg/trainer/replicas.go:175-175 | a server set without a template fails setup, is accepted, and its pod is built from the nil template, with nothing else going wrong |
| CalmPasses.CalmSyncPodAt | pkg/trainer/replicas.go:483-532 | what one turn does when nothing interferes, in all four cases |
| CalmPasses.CalmSyncServiceAt | pkg/trainer/replicas.go:540-564 | the same for a service |
| CalmPasses.CalmSyncAllPods | pkg/trainer/training.go:371-376 | a calm sync that is refused nothing leaves every replica with a pod that has not failed |
| CalmPasses.CalmSyncAllServices | pkg/trainer/training.go:379-384 | and every replica with its service |
| CalmPasses.CalmReadAll | pkg/trainer/training.go:132-168 | in calm the status read is a function of the pods alone |
| Quiescence.SecondPassIsIdle | pkg/trainer/training.go:346-441 | after an undisturbed pass the next one only reads, and leaves store, status and sets equal, also if the sets cannot be built |
| Unobserved.NoJobIsEverObserved | pkg/trainer/replicas.go:400-406 | while only the operator puts pods at names of its making, no job leaves Creating or Failed in any run |
| ChiefOnly.SetStatusAddsUp | pkg/trainer/replicas.go:436-478 | in every environment a set's counts add up to its size (0 for a negative one) and decide its state |
| Replicas.ToInt32Wraps | pkg/trainer/training.go:155-155 | an index that fits 32 bits stays; any other becomes the only 32-bit number that differs by a multiple of 2^32 |
| Replicas.ReplicaReads | pkg/trainer/replicas.go:400-433 | what is read of one replica in every case, failed calls and an empty list included |
| PassResults.ObserveReports | pkg/trainer/training.go:389-423 | in every environment observing leaves one status for each set, of its type, with counts that add up to its size and decide its state, and phase and state that follow the chief; in calm the counts are of the states of the set's pods; an answered write stores them |
| PassResults.PassReports | pkg/trainer/training.go:346-441 | so does every pass that ends well |
| PassResults.RefusedSetIsReported | pkg/trainer/training.go:360-368 | a pass that meets a set that cannot be made creates nothing, keeps the sets before it, says why in the status and changes nothing else |
| PassResults.UndisturbedPassDelivers | pkg/trainer/training.go:346-441 | a pass that nothing interferes with leaves every replica a pod that has not failed and a service, and statuses that count the pods' states |
| PassResults.PodTurnAnswers | pkg/trainer/replicas.go:483-532 | what one turn of SyncPods creates and how it ends, in every environment: for each answer of the list and each reply to the creation |
| PassResults.ServiceTurnAnswers | pkg/trainer/replicas.go:540-564 | the same for a turn of SyncServices |
| PassResults.PodsInTurn | pkg/trainer/training.go:371-376 | the pods of every set are synced, also after a set that failed; only a panic ends the loop |
| PassResults.ServicesInTurn | pkg/trainer/training.go:379-384 | the services of every set are synced, whatever fails |
| Created.PassMakes | pkg/trainer/replicas.go:132-276 | every pod and service a pass creates, field by field: names, labels, owner, scheduler, selector, port, volumes; a container not named mxnet is the template's, an mxnet container has the template's variables and then exactly the six, with their values |
| ChiefOnly.ChiefDecides | pkg/trainer/training.go:401-415 | phase and state follow the pods of the replica at the chief's index, as a 32-bit integer, in the last set of its type |
| ChiefOnly.OnlyTheChiefCounts | pkg/trainer/training.go:152-167 | two stores with the same pods for the chief give the same phase and state |
| ChiefOnly.NoChiefStaysFailed | pkg/trainer/training.go:277-280 | a job that failed for want of a chief stays Failed in every run, as long as it is stored |
| ChiefOnly.SetupWithoutChief | pkg/apis/mxnet/validation/validation.go:79-81 | setup fails so exactly for specs valid but for the chief |
| Rendezvous.PodsAgree | pkg/trainer/replicas.go:198-255 | all pods of a calm sync are told the same root, server count and worker count, and role and port of their set |
| Rendezvous.RootLeadsToScheduler | pkg/trainer/replicas.go:241-250 | with the scheduler first and equal ports, the root is a service on that port whose selector matches, of all pods the operator builds in the namespace for any job, exactly the scheduler's of this job and id |
| Rendezvous.AddressesAreServed | pkg/trainer/training.go:103-118 | with distinct types every address of the cluster spec is that of a service in the store |
| Rendezvous.ClusterSpecReads | pkg/trainer/training.go:103-118 | it has an entry for each set under its role and no other, with name and port of each replica in order |
| Teardown.TeardownUndoesCreation | pkg/trainer/training.go:121-130 | for distinct types and a store free of the job's pods and services, creating and then deleting restores both maps exactly; a config map of the job is deleted |
| Teardown.CalmDeleteSet | pkg/trainer/replicas.go:279-342 | deleting a set takes away the pods its selector matches, its services and the job's config map, if any, and nothing else, and reports no failure |
| Teardown.DeleteSetReports | pkg/trainer/replicas.go:279-342 | in every environment deleting a set fails exactly if one of its deletes or the read of the config map did, and tries all of them whatever fails |
| Teardown.DeletesInTurn | pkg/trainer/training.go:121-130 | the sets are deleted in order, up to and including the first that fails |
| Teardown.CleanUpDeletes | pkg/trainer/training.go:425-432 | the last step for a job in CleanUp deletes the job's pods, services and config map, and nothing else |
| Trainer.MXReplicaSet.New | pkg/trainer/replicas.go:81-117 | a set is made exactly for the specs that are accepted |
| Trainer.MXReplicaSet.CreatePodWithIndex | pkg/trainer/replicas.go:162-276 | creates the pod of the index, under a fresh random name, with the fields Created gives; a nil dereference exactly for a missing template or for an unsized server or worker set when there is an mxnet container |
| Trainer.MXReplicaSet.EquippedContainers | pkg/trainer/replicas.go:198-262 | the loops keep what each mxnet container has and put the six variables after its own; other containers stay as they are |
| Trainer.MXReplicaSet.CreateServiceWithIndex | pkg/trainer/replicas.go:132-159 | creates the service of the index |
| Trainer.MXReplicaSet.SyncPods | pkg/trainer/replicas.go:481-535 | the loop does to the cluster what Replicas.SyncPods says |
| Trainer.MXReplicaSet.SyncServices | pkg/trainer/replicas.go:538-567 | the same for services |
| Trainer.MXReplicaSet.GetSingleReplicaStatus | pkg/trainer/replicas.go:400-433 | reads the state Replicas.ReadReplica says |
| Trainer.MXReplicaSet.GetStatus | pkg/trainer/replicas.go:436-478 | the loop with its count map gives the tally and fold of the states read |
| Trainer.MXReplicaSet.Delete | pkg/trainer/replicas.go:279-342 | deletes pods, services and config map, and fails if any of it did |
| Trainer.TrainingJob.constructor | pkg/trainer/training.go:74-96 | a new job holds the listed job, its status and no sets |
| Trainer.TrainingJob.Setup | pkg/trainer/training.go:216-286 | changes job and status as Training.Setup says: the defaults by value, then the error validation finds or a job that is set up |
| Trainer.TrainingJob.SetupReplicas | pkg/trainer/training.go:289-303 | builds new set objects only if their number differs, and keeps those built before an error |
| Trainer.TrainingJob.UpdateCRDStatus | pkg/trainer/training.go:326-343 | the write of the status, the cached job first |
| Trainer.TrainingJob.GetStatus | pkg/trainer/training.go:132-168 | the loop over the sets gives the chief's state and one status for each set, whose counts add up to its size and decide its state |
| Trainer.TrainingJob.ClusterSpec | pkg/trainer/training.go:103-118 | the map of addresses |
| Trainer.TrainingJob.DeleteResources | pkg/trainer/training.go:121-130 | deletes set after set, up to the first that fails |
| Trainer.TrainingJob.Reconcile | pkg/trainer/training.go:346-441 | world, job, status, sets and outcome are those of Training.Reconcile; if it ends well there is a status for each set, whose counts add up to its size |
| ControllerObject.MXController.SyncMXJob | pkg/controller/controller.go:210-267 | asks the lister for the job of the key's namespace and name; the map of jobs and the answer are those of Controller.SyncJob; the TrainingJob object of the key is kept exactly if the UID is, every other one is kept and unchanged; a string that is no key changes nothing |
| DeepCopy.StatusObject.DeepCopyInto | pkg/apis/mxnet/v1alpha1/zz_generated.deepcopy.go:226-241 | the copy is equal down to nil pointers, all below it is new, and the original is unchanged |
| DeepCopy.StatusObject.Copy | pkg/apis/mxnet/v1alpha1/zz_generated.deepcopy.go:244-251 | the same for a new status, as a TrainingJob starts with one (training.go:82) |
| DeepCopy.ReplicaStatusObject.DeepCopyInto | pkg/apis/mxnet/v1alpha1/zz_generated.deepcopy.go:297-307 | the same for one replica status and its count map |
| DeepCopy.StatusObject.DeepEqual | pkg/trainer/training.go:329-331 | the comparison is true exactly for graphs of one value, so a status write is tried exactly if the value changed |

## Left out

- client-go, informers, listers, REST, leader election: what they do is the contract of `Store`; the lister's answer is a parameter of a sync.
- The work queue (`processNextWorkItem`), retry delays, events, logging, tracing and printing: no effect on the modelled state.
- Two workers at once: syncs are interleaved one after another, with the environment moving between the calls of each.
- YAML and JSON, flags, configuration files, `main`.
- Pod fields other than labels, owner, scheduler name, volumes, containers (name, variables, mounts, names of the resources), phase, start time and container statuses; resource quantities are never compared.
- `TrainingJob.Delete`: the controller never calls it.
- `masterName`, `Cleanup`, `CRDName`, `scalingReason`, `TFConfig`: unused.
- Specs and templates as pointers: in `Trainer` a job and its specs are values, so what happens if two replica specs or templates are one object, or nil, is not modelled; nor is the in-place change of the lister's copy of a job by `setup`, which a sync never reads again because the TrainingJob kept for the UID is used.
- `DeepCopyInto` of specs and jobs has the shape of the one modelled for statuses.
- Nil start times: all pods have one.
- Users submit and withdraw jobs between two syncs, not in the middle of one, and do not edit a stored job. The lister does not know a job yet, or knows it as it is stored. There are no resource versions: an update is turned away only by the environment, for a missing job or for another UID. `Update` stores what it is sent and answers with it.
- Label values are compared as given: a selector is passed to a list call as the label map, which `Selectors.ToSelector` shows its text to stand for; labels with a comma, or keys with an equals sign, are not printable.
- A pass that dies at a nil chief has read the first set by then; the model leaves these reads out of the trace.
- Trainer.MXReplicaSet.SyncServices: requires a size, which SyncPods has dereferenced before it; the same holds for GetStatus, Delete and ClusterSpec.
- Recovery.AtMostOnePodPerReplica: assumes a restart after a setup of this job that draws an id and does not reach the store; `SecondSetup.TwoPodsIff` says for which jobs it is needed. It starts from a store without pods of the operator under the job's name, and nobody else makes pods labelled so.
- Recovery.OneRuntimeId: assumes the same restart, for the same reason.
- SecondSetup.TwoPodsIff: in its runs random strings may have any length, since a store may have taken all names of the usual one; `SecondSetup.TwoPodsForOneReplica` gives the run with names of the usual length when two of them are free.
- LivePods.LivePodAccounting: assumes that nobody else makes pods with the labels of the replica.
- Quiescence.SecondPassIsIdle: the first pass must be refused nothing, so no random pod name may be taken already.
- Unobserved.NoJobIsEverObserved: needs runtime ids that were generated, or none; a user may submit another one.
- RandString.RandString: the words the source gives are a finite stream with n acceptable chunks in it.
