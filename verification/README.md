# The StarknetRPC reconciler

The operator looks after `StarknetRPC` custom resources. For each one it keeps a storage claim, restores an archive into
it with a Job and a scratch claim, and only then runs the node's pod, with a PodMonitor beside it. All progress is kept
in two status conditions, `Restore` and `Available`. A pass of `Reconcile` is a sequence of API calls; the world moves
between any two of them, any call may fail, and the next pass starts again from whatever is stored.

The project models that protocol at the grain of single API calls and proves what it guarantees over whole runs.

- `Objects`, `Names`, `Conditions`, `Monitoring`, `Workload`: the entities, the names the objects are stored under, the
  condition list, the wanted objects, the drift checks and their repairs.
- `Server`: what one request does (answered, rejected, or carried out with its answer lost) and what the environment may
  do: bind claims, finish or fail Jobs, report pod statuses, edit specs and monitors, create resources, delete anything.
- `Process`: one pass as a process. `Ask` is its next API call and `Resume` what it does with the answer.
- `Machine`: the step machine of one resource (its objects, the process, a history of claims and incidents), runs, and
  induction over runs. `Soundness` and `Moves` hold the inductive invariant and the summary of one call.
- `Decisions`, `Contents`: in every run, which fields each decision of a pass depends on and how, and which fields the
  objects it writes have, said without the operator's own tests and constructors.
- `Safety`, `Exclusion`, `StatusMachines`, `Passes`, `Cleanup`: theorems over all runs. `Traces`: runs that show that the
  assumptions are needed. `Converses`: the incidents named by the theorems are exact.
- `Segments`, `Convergence`: passes that nothing interferes with, assembled into a convergence theorem. `Cooperation`:
  convergence when the environment does its part between any two calls.
- `ConditionLists`, `Drift`: the condition list and the drift-repair loop on their own.
- `Isolation`: any number of resources on one server. Each of them sees a run of the step machine, and passes commute.
- `Store`, `Ensure`, `Operator`: the imperative form. A server object updated in place, `CreateOrReconcile`, and one
  method for each step of a pass, every one proved to follow the step machine. `OnePass`: what the calls of one
  `Reconcile` come to, which is how the theorems reach it.

## What the proofs show about the code

- The restored-data guarantee needs two assumptions on top of the fact that a Job cannot succeed while the claim it mounts
  is missing, and both can fail. The status reset after creating a storage claim
  (internal/controller/starknetrpc_pvc.go:28-31) is a write of its own; when it is lost while the stored `Restore` status
  is true, the next pass takes that status for the new claim and starts the node on empty data. Losing it under a status
  that is not true does no harm. And a storage claim deleted beside its Job is replaced by a new claim that inherits the
  Job's success, whether the Job has already reported it or does so later. A pod can come to start on unrestored data if
  and only if one of these two calls was made on its claim: the reset of a true status was lost, or the claim was created
  while a Job was there that was made for an earlier claim (or had succeeded without one). See
  `Converses.UnrestoredPodsAreBetrayed` and `Converses.BetrayedClaimsAreServed`.
- Job and pod can meet in three ways only: a pass records the restore as skipped and goes on while its Job exists, the
  status is reset under the pod (its claim was deleted), or the custom resource is deleted under the pod or under a pass
  that is on its way to creating it. Each of these, whenever it happens, can be followed by a run to the overlap in which
  neither it nor another of the three happens again; without one, no run gets there.
- The guard after the restore step (internal/controller/starknetrpc_controller.go:106-109) can never fire.
- A PodMonitor whose single endpoint has no port name makes the drift check dereference nil
  (internal/controller/starknetrpc_podmonitor.go:103). The pass panics there every time and the monitor is never repaired;
  it is the one obstacle to convergence, and it stops nothing but the monitor. `Convergence.FiveRoundsConverge` and
  `Cooperation.CooperationConverges` say so with an if-and-only-if.
- The drift check ignores the monitor's namespace selector and target labels, which the updater writes. It reads a missing
  key as the empty string: a label that is wanted empty may be absent, and under an empty resource name the selector
  comparison accepts a selector without the name label.

Where the code and its comments differ, the model follows the code. `ErrTerminateLoop` is documented as "do not requeue"
(internal/utils/reconciler/reconciler.go:30-31), but `Reconcile` returns it as an ordinary error, so the pass is retried;
the same holds for the comment above that return, which speaks of a completed archive. A Job with failures that later
succeeds is taken as a success, because success is tested first. `CreateOrReconcile` is documented to return true if the
object was created (internal/utils/reconciler/ensure.go:19), but it also returns true when the creation fails.

## Reading the theorems

A state is written `Before(n, INIT, ticks, t)`: the state, after the run `ticks` from the empty world and the environment
actions of `t`, in which the call of `t` is made. `Step(n, Exec(n, INIT, ticks), t)` is the state after that call. Both
range over all runs, so a statement about them is one about every call of every run. `Rules` say what a theorem assumes
of the environment and of the replies; `FREE` assumes nothing. A crash of the operator between two calls is a run in which
the next call is rejected.

## Model

| member | source | states |
|---|---|---|
| Safety.PodOnlyOnRestoredData | internal/controller/starknetrpc_archive_restore.go:29-141 | In every run, with any failures, a call that creates the pod finds the storage claim absent, restored by a Job, recorded as skipped, or hit by one of the two named incidents: created under a true status whose reset was lost, or beside a Job that was not made for it. A Job's success counts for the claim that the Job's data volume names and that it was made for, and for no other; and the new pod mounts the storage claim |
| Safety.PairedRunsServeRestoredData | internal/controller/starknetrpc_pvc.go:24-36 | When no reset of a true status is lost, no claim is deleted beside a Job, finished or not, and no Job succeeds without a claim, the pod is only created on an absent claim or on data that was restored or skipped |
| Safety.NewClaimsAreUnrestored | internal/controller/starknetrpc_pvc.go:20-42 | Claims are numbered apart, and a new one starts out neither restored nor skipped, so the two theorems above are about the claim that is there |
| Safety.NoPodWithoutSuccess | internal/controller/starknetrpc_archive_restore.go:112-141 | While the restore is not switched off (`enable` is never false) and no Job ever succeeds, there is no pod and no true Restore status in any run |
| Traces.UnrestoredPodsHappen | internal/controller/starknetrpc_pvc.go:24-34 | Dropping either assumption breaks the guarantee with the others kept: some run loses the reset, some run creates the claim beside a stale Job, and each creates the pod on an unrestored claim |
| Converses.UnrestoredPodsAreBetrayed | internal/controller/starknetrpc_pvc.go:20-42 | In every run, a pod that starts on a claim that was neither restored nor skipped has such a call behind it, made on that very claim |
| Converses.BetrayedClaimsAreServed | internal/controller/starknetrpc_pvc.go:24-36 | Conversely, every such call of every run can be followed by a run that keeps all the assumptions and starts the pod on that claim, unrestored |
| Converses.LostResetIsServedNext | internal/controller/starknetrpc_archive_restore.go:28-51 | After a lost reset of a true status, with no pod there, the very next calm pass puts the pod on the unrestored claim |
| Exclusion.JobAndPodApart | internal/controller/starknetrpc_controller.go:84-111 | In every run, Job and pod exist together only after one of three named incidents; without one, a pod implies a stored true Restore status and no Job |
| Exclusion.ApartWithoutIncident | internal/controller/starknetrpc_controller.go:84-111 | From a state that keeps Job and pod apart, no run without an incident brings them together, so the continuations of the two converses below owe their overlap to the incident before them |
| Exclusion.JobAndPodNeverMeet | internal/controller/starknetrpc_archive_restore.go:29-51 | When the restore is not switched and neither resource nor storage claim is deleted, no reachable state holds both Job and pod, whatever the interleaving and the failures |
| Converses.SkippingOverJobOverlaps | internal/controller/starknetrpc_archive_restore.go:53-61 | Whenever the restore is recorded as skipped over a Job, the next answered call leaves Job and pod side by side, and adds no other incident |
| Converses.ResettingUnderPodOverlaps | internal/controller/starknetrpc_pvc.go:28-31 | In every run: once the status has been reset under the pod, some continuation without a single further incident, in which neither the resource nor its storage claim is deleted, leads to Job and pod together |
| Converses.DeletingResourceOverlaps | internal/controller/starknetrpc_archive_restore.go:226-232 | In every run: once the resource has been deleted under the pod or under a pass on its way to it, some continuation without a single further incident, in which neither a resource nor the storage claim is deleted, leads to Job and pod together |
| Traces.OverlapsHappen | internal/controller/starknetrpc_archive_restore.go:53-61 | Each of the three incidents does make Job and pod meet in some run from the empty world |
| StatusMachines.RunsRefineStatusMachines | internal/controller/starknetrpc_archive_restore.go:118-180 | Every call of every run is a step of the five-state restore machine and of the availability machine: true is left only for Pending by the reset write, Success and Failed need a Job seen to say so, Skipped a copy whose `enable` is false; availability leaves Pending only on a true Restore status and never returns |
| StatusMachines.EvidenceIsFresh | internal/controller/starknetrpc_archive_restore.go:112-141 | A pass about to reset has just created the storage claim, and a pass about to record Success or Failed has just read the Job that says so |
| StatusMachines.EntriesMatchEnumerations | internal/utils/condition/starknetrpc/restore.go:42-72 | The stored statuses are those of the typed enumerations; true means Success or Skipped, and availability is always Unknown |
| StatusMachines.EnvKeepsStatus | internal/utils/condition/condition.go:13-28 | Nothing but the operator changes a stored status, short of deleting the resource |
| StatusMachines.CreatingFollowsCreation | internal/controller/starknetrpc_pod.go:22-36 | A pass is about to record Creating exactly if its last call created the pod |
| Passes.FailuresStopThePass | internal/controller/starknetrpc_controller.go:79-129 | After any failure that is not a tolerated AlreadyExists, NotFound or failed probe, the pass makes no further call |
| Passes.CopyAgreesAtEveryCall | internal/utils/condition/condition.go:13-28 | In every run, whenever a call is made, the conditions held by the pass are the stored ones |
| Passes.PassesMoveForward | internal/controller/starknetrpc_controller.go:67-137 | A pass only moves forward through its calls, so it ends, and it deletes only a pod it found |
| Passes.CreatingPassKeepsPod | internal/controller/starknetrpc_pod.go:18-60 | A pass that created the pod does not delete it as long as it goes on, whatever happens around it |
| Passes.DeletionRequeues | internal/controller/starknetrpc_pod.go:38-45 | A pass that deletes the pod ends with a result whose requeue flag is set; a failed deletion is an error |
| Passes.QuietEndIsRestored | internal/controller/starknetrpc_controller.go:86-109 | A pass that ends without an error or a delay is behind the gate and holds a true Restore status |
| Passes.NoLostWakeUp | internal/controller/starknetrpc_archive_restore.go:70-140 | In every run, a pass for an existing resource that ends while Restore is not true returns an error or a positive delay |
| Passes.GateAgrees | internal/controller/starknetrpc_controller.go:106-109 | In every run, when the restore step returns without an error, Restore is true in the copy and in the store and the pass goes on to the pod |
| Decisions.SwitchDecides | internal/controller/starknetrpc_archive_restore.go:28-67 | In every run, a pass that is done with its storage claim deletes the Job if Restore is true, stores Restore as true and skipped if `enable` is false, and creates the scratch claim if `enable` is true or not set |
| Decisions.ClaimsAreAwaited | internal/controller/starknetrpc_archive_restore.go:69-101 | In every run, the storage claim is looked at exactly after the scratch claim was read as bound, and the Job filed exactly after the storage claim was read as bound |
| Decisions.JobDecides | internal/controller/starknetrpc_archive_restore.go:112-141 | In every run, a Job that was read is recorded as finished if it succeeded at all, else as failed if it failed at all, else looked at again after 30 seconds |
| Decisions.PodDecides | internal/controller/starknetrpc_pod.go:38-48 | In every run, the pod is deleted exactly after the pass was left with one of the right image that was evicted or waits in CrashLoopBackOff with more than five restarts, and probed exactly after it was left with a running one otherwise |
| Decisions.ProbeDecides | internal/controller/starknetrpc_pod.go:47-54 | In every run, CatchingUp is about to be recorded exactly after a probe of the pod was answered |
| Decisions.MonitorDecides | internal/controller/starknetrpc_podmonitor.go:23-54 | In every run, a pass that turns to the monitor looks for its pod if the monitor is configured and enabled, and for an old monitor otherwise; it files a monitor exactly after it found the pod and deletes one exactly after it found it |
| Decisions.ImageDecides | internal/controller/starknetrpc_pod.go:62-73 | In every run, a pass that has read a pod of another image than its copy asks for next updates the image and nothing else |
| Decisions.MonitorCheckDecides | internal/controller/starknetrpc_podmonitor.go:80-140 | In every run, a pass that has read its monitor panics exactly if the labels match and the one endpoint has no port, is done if labels, endpoint, selector and expressions pass, and otherwise updates it to the wanted fields and labels, dropping no label key |
| Decisions.EventsAreRecorded | internal/controller/starknetrpc_archive_restore.go:99-109 | In every run, the creation of the storage claim is followed by storing Restore as false and pending, that of the Job by false and progressing, that of the pod by Available as unknown and creating; a pass that finds no conditions first stores both as pending |
| Decisions.EndingsAreRight | internal/controller/starknetrpc_controller.go:67-137 | In every run: a pass asks for another at once exactly after it deleted its pod, in 1 second exactly after a claim was not bound (or the scratch claim was gone) or the start or success of the restore was stored, in 30 seconds exactly after it read an unfinished Job; it returns the terminating error exactly after a failure was stored; it ends quietly exactly at the monitor, short of a panic there, or when the resource is gone |
| Decisions.RequestsKeepToTheirOwn | internal/controller/starknetrpc_controller.go:67-137 | In every run, a pass deletes only its Job, scratch claim, pod and monitor, updates only pod and monitor, and never creates or changes the resource but for its status |
| Contents.StoredVolumesAreRight | internal/controller/starknetrpc_archive_restore.go:255-272 | In every run, the data volume of a stored Job names the storage claim and its scratch volume the scratch claim, and a stored pod names the storage claim |
| Contents.SuccessIsCredited | internal/controller/starknetrpc_archive_restore.go:118-127 | In every run, a success makes the current storage claim a restored one only if the data volume of the Job names that claim and the Job was made for it |
| Contents.PodsAreWritten | internal/controller/starknetrpc_pod.go:62-73 | In every run, a call that creates or changes the pod gives it the image of the copy's spec, or the default one; a new pod mounts the storage claim, and a changed one keeps all but its image |
| Contents.MonitorsAreWritten | internal/controller/starknetrpc_podmonitor.go:133-197 | In every run, a monitor is created or changed only in a pass whose copy enables it, and then has the endpoint, selector, namespace, target labels, standard labels and custom labels asked for, a new one no others; it is removed only in a pass whose copy does not |
| Contents.RestoresAreWanted | internal/controller/starknetrpc_archive_restore.go:53-109 | In every run, Job and scratch claim are created only in a pass whose copy has a Restore status that is not true and does not switch the restore off |
| Cleanup.RestoreStepCleansUp | internal/controller/starknetrpc_archive_restore.go:29-51 | In every run, the deletions of the restore step leave neither Job nor scratch claim |
| Cleanup.CleanupIsStable | internal/controller/starknetrpc_archive_restore.go:63-67 | From then on neither comes back before a storage claim has been created again, as long as the custom resource is not deleted |
| Convergence.RoundConverges | internal/controller/starknetrpc_controller.go:67-137 | A round of a cooperative environment and a calm pass strictly decreases the distance to rest, or leaves a resource at rest unchanged; a monitor that makes the check panic stalls it one short |
| Convergence.FiveRoundsConverge | internal/controller/starknetrpc_controller.go:67-137 | From any sound state five rounds reach the state with Restore true, no Job, no scratch claim, a pod of the image asked for on the storage claim, and the right monitor, and it stays; this holds if and only if the monitor does not make the check panic. Either way a monitor is stored exactly when the resource enables one |
| Cooperation.CooperationConverges | internal/controller/starknetrpc_controller.go:67-137 | With claims bound, Jobs finished and pods reported healthy at any moment between any two calls: every pass that starts with all of that done brings the resource strictly closer to rest, no other pass takes it away, and after four of them it is at rest and stays there. The monitor is right from then on if and only if it did not make the check panic; the rest is reached either way, and a monitor is stored exactly when the resource enables one |
| Passes.ErrorFreePassSeesToPod | internal/controller/starknetrpc_pod.go:18-36 | Whatever happens around it, a pass that found a true Restore status and ends without an error has looked after the pod, making it as wanted if it was missing, unless it had to create the storage claim |
| Convergence.NextPassRecreatesPod | internal/controller/starknetrpc_pod.go:18-36 | After a calm pass that finds a true Restore status and no pod, the stored pod is the wanted one |
| Drift.RepairEstablishes | internal/utils/reconciler/ensure.go:38-47 | For any repairs that establish their own check and keep the earlier ones, the loop leaves an object that passes all checks |
| Drift.RepairUpdatesIffDrift | internal/utils/reconciler/ensure.go:38-47 | The loop reports no update exactly when every check passed on the object it was given, which it then returns |
| Drift.RepairIsFinal | internal/utils/reconciler/ensure.go:38-55 | One run of the loop repairs everything, so a second run changes nothing |
| Ensure.CreateOrReconcile | internal/utils/reconciler/ensure.go:20-58 | For any object and any repairs: the exact exchanges with the server, the object left with the caller, and the error; on a well-typed server, with repairs that establish their check, keep the earlier ones and look at no server-set field, a nil error leaves the stored object passing every check |
| Ensure.RunReconcilers | internal/utils/reconciler/ensure.go:38-47 | The loop that repairs the held object in place computes the repair fold |
| Ensure.NilErrorRepairs | internal/utils/reconciler/ensure.go:20-58 | For such repairs, and answers of the right kind, a conversation without an error leaves the stored object the caller's, passing every check |
| Ensure.ReportsWhatHappened | internal/utils/reconciler/ensure.go:20-58 | The caller is told false exactly when the object was there already, and gets exactly the error of the last request |
| Ensure.UpdatesOnceIffDrift | internal/utils/reconciler/ensure.go:49-55 | One call updates at most once, exactly when it found the object and some check saw drift that could be repaired |
| Ensure.SecondCallWritesNothing | internal/utils/reconciler/ensure.go:20-58 | An immediate second call finds the object up to date and leaves the server as it was |
| Ensure.OperatorListsQualify | internal/controller/starknetrpc_pod.go:62-73 | The repair lists the operator passes meet all conditions of the generic results |
| Monitoring.IsUpToDate | internal/controller/starknetrpc_podmonitor.go:80-132 | The check with its loops gives the verdict that the lemmas below characterise |
| Monitoring.MatchLabels | internal/controller/starknetrpc_podmonitor.go:118-123 | A range over the expected labels in any order passes exactly when each of them reads as expected |
| Monitoring.RefreshSettles | internal/controller/starknetrpc_podmonitor.go:133-140 | After an update the check passes, for any monitor and any custom labels, and a second update changes nothing |
| Monitoring.UpToDateMeans | internal/controller/starknetrpc_podmonitor.go:80-132 | The check passes exactly when each standard label (or the custom one in its place) and each custom label is there with its value, or absent and wanted empty, and endpoint, expressions and selector are as wanted; under an empty resource name any one-entry selector without the name label passes too |
| Monitoring.PanicsExactly | internal/controller/starknetrpc_podmonitor.go:99-107 | The nil dereference is reached exactly on a monitor with matching labels whose only endpoint has no port name |
| Monitoring.RefreshWrites | internal/controller/starknetrpc_podmonitor.go:152-197 | After an update of any monitor, endpoint, selector, namespace, target labels and the standard and custom labels are those of the resource |
| Monitoring.RefreshMergesLabels | internal/controller/starknetrpc_podmonitor.go:181-197 | Labels after an update, key by key: the custom one, else the default one, else the foreign one that was there |
| Monitoring.BlindSpots | internal/controller/starknetrpc_podmonitor.go:109-131 | Drift in the namespace selector or the target labels is never noticed |
| Workload.ShouldPodGetRecreated | internal/controller/starknetrpc_pod.go:82-102 | True exactly when the pod was evicted or some container waits in CrashLoopBackOff with more than five restarts |
| Conditions.WriteShapes | internal/controller/starknetrpc_archive_restore.go:145-180 | Every status write rewrites the entry it is for and leaves the other alone |
| Conditions.RestoredMeans | internal/controller/starknetrpc_controller.go:106-109 | The gate passes exactly when the first Restore entry of the list is there and plainly true |
| ConditionLists.SetStatusConditionStep | internal/utils/condition/condition.go:17-20 | One write changes the entry of its type only, appends it when missing, and moves the transition time exactly when the status flips |
| ConditionLists.ListsStayWellFormed | internal/utils/condition/starknetrpc/conditions.go:18-27 | After any sequence of writes: one entry a type, no entry lost or moved, and each type's entry is what the writes for that type alone make of it |
| ConditionLists.BatchIsSettings | internal/utils/condition/condition.go:13-28 | A batch of transitions is a sequence of such writes made at one time |
| Names.KeysAreNamed | internal/controller/starknetrpc_pod.go:75-80 | Every object is stored in the namespace of its resource, under its name with the suffix of its role |
| Names.KeyOfInjective | internal/controller/starknetrpc_archive_restore.go:182-187 | No two objects of the same or of different resources share a kind and name |
| Names.SuffixesClash | internal/controller/starknetrpc_pvc.go:68-73 | A storage claim is never taken for a scratch claim, of any resource |
| Names.FootprintsDisjoint | internal/controller/starknetrpc_archive_restore.go:280-285 | The objects of different resources are different objects |
| Isolation.CallStaysInFootprint | internal/controller/starknetrpc_podmonitor.go:146-151 | A call changes nothing outside the footprint of its resource |
| Isolation.PassesCommute | internal/controller/starknetrpc_controller.go:67-137 | Whole passes of two resources can be made in either order with the same store and the same endings |
| Isolation.WholeRunsMatch | internal/controller/starknetrpc_controller.go:67-137 | Every run of the operator on a shared server is, seen from one resource, a run of the step machine |
| Isolation.EveryPodIsBacked | internal/controller/starknetrpc_controller.go:84-111 | With any number of resources, a call that creates a pod beside a storage claim does so on a claim restored by its own Job, recorded as skipped, or hit by one of the two named incidents, and that claim is the one the pod mounts |
| Isolation.WholeRunsAreTyped | internal/controller/starknetrpc_pod.go:75-80 | Every stored object is of the kind its key names |
| Store.ApiServer.Handle | internal/utils/reconciler/ensure.go:23-34 | A request acts on the cluster as it is after the environment's actions, and the exchange is recorded |
| Store.ApiServer.Send | internal/controller/starknetrpc_controller.go:67-137 | A request that the process had to make next advances exactly that process and is counted as its call |
| Store.IdleServerIsSafe | internal/controller/starknetrpc_controller.go:67-137 | Whatever the imperative operator has done, every resource is in a reachable state of its step machine with its guarantees |
| Operator.SetPhases | internal/utils/condition/condition.go:13-28 | The transitions are applied to the copy in order and the whole list is stored |
| Operator.Initialize | internal/utils/condition/starknetrpc/conditions.go:18-27 | The conditions are seeded once, when the list is empty |
| Operator.ReconcilePvc | internal/controller/starknetrpc_pvc.go:20-42 | Claim creation with its reset; a nil error ends at the restore step |
| Operator.EnsurePvcReady | internal/controller/starknetrpc_pvc.go:44-62 | The storage claim is bound, or the pass goes round again with a result |
| Operator.ReconcileArchiveRestore | internal/controller/starknetrpc_archive_restore.go:22-143 | A nil error means a true Restore status and a pass that has come to the pod; going round again always carries a result |
| Operator.RunRestoreJob | internal/controller/starknetrpc_archive_restore.go:96-142 | The Job part of the step never returns without an error |
| Operator.ReconcilePod | internal/controller/starknetrpc_pod.go:18-60 | The pod step follows the step machine: create, repair, recreate or probe |
| Operator.ReconcilePodMonitor | internal/controller/starknetrpc_podmonitor.go:19-73 | Whatever goes wrong with the monitor, the pass completes; only a panic makes it fail |
| Operator.ReconcileNode | internal/controller/starknetrpc_controller.go:105-136 | The guard before the pod is dead code, and the rest of the pass ends as the step machine does |
| Operator.Reconcile | internal/controller/starknetrpc_controller.go:67-137 | The calls made are those of exactly one pass of the step machine, from rest to rest, at least one and at most fifteen, with the ending it returns, and no other resource's pass moves. The ending is the one its last call calls for, with the requeue flag and the delays as numbers; a result without an error has the requeue flag set exactly if the pass deleted its pod |
| Operator.ReconcileInCalm | internal/controller/starknetrpc_controller.go:67-137 | When nothing interferes, the objects after `Reconcile` are those after the calm pass of the convergence theorems |
| OnePass.LastCallEndsPass | internal/controller/starknetrpc_controller.go:67-137 | A `Reconcile` ends as its last call makes it end |
| OnePass.DeletionRequeuesPass | internal/controller/starknetrpc_pod.go:38-45 | A `Reconcile` without an error asks to be run again at once exactly if one of its calls deleted the pod |
| OnePass.PassIsUnbroken | internal/controller/starknetrpc_controller.go:67-137 | After every call of a `Reconcile` but the last, the pass is still running |
| OnePass.PassIsShort | internal/controller/starknetrpc_controller.go:67-137 | Whatever happens around it, one pass makes at most fifteen calls |
| OnePass.CalmPassHappens | internal/controller/starknetrpc_controller.go:67-137 | Calls of one pass in calm weather take the resource where the calm pass does |

## Left out

- The readiness probe (internal/utils/proxy/proxy.go): its answer is an arbitrary reply, and nothing is claimed about when it succeeds.
- The restore script and the Job's containers: represented by the environment's actions that let a Job succeed or fail.
- `cmd/main.go`, `SetupWithManager`, scheme registration, leader election, generated code, charts and manifests: wiring and data.
- Most fields of the pod, Job and claim specs, including environment variables, the restore image and scratch-claim sizing; kept are names, image, claim references and statuses.
- Logging, events and message texts.
- Reads are linearizable, one resource has one pass at a time, and only the operator writes status; cached stale reads are not modelled.
- Optimistic-lock conflicts: they are counted among the calls that fail before they take effect.
- Garbage collection by owner references: covered as deletions by the environment, with no claim about when they happen. Claim-protection finalizers are not modelled, so a claim may disappear at any time.
- Delayed binding of claims: the convergence theorem assumes an environment that binds both claims before the Job exists.
- The environment edits existing monitors and specs but does not create claims, Jobs, pods or monitors under the operator's names.
- Operator panics: a nil dereference in a drift check is modelled as an error that only the pass boundary catches; no other panic is modelled.
- Workload.ImageReconciler: the checks and updates of a repair are values over objects and not closures that mutate; the loop that runs them does update the held object in place.
- Monitoring.Refresh: copying labels into the monitor's map is a map sum on values, so aliasing of the label map is not captured.
- Convergence.FiveRoundsConverge: a round settles the environment before an undisturbed pass; `Cooperation.CooperationConverges` drops that order and leaves the availability status out of the state it reaches.
- Deletions are immediate. In a cluster the operator's own deletions of an evicted pod or of a mounted scratch claim are graceful and take time, during which the object is still there.
- A Job is taken to restore into the storage claim that its data volume names: the one that is there when it is created, or the next one of that name; which node mounts what is not modelled.
- `IsSynced`, `Ready`, `Failed` and `Unknown` availability: nothing in the repository ever reaches them.
