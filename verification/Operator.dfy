/** The operator itself: one method for each step of a pass, working on the server and on its own copy of the custom
    resource in place. Every method is proved to follow the step machine. */
module Operator {
  import opened Objects
  import opened Conditions
  import opened Names
  import opened Server
  import opened Drift
  import opened Monitoring
  import opened Workload
  import opened Process
  import opened Isolation
  import opened Store
  import opened Ensure
  import opened Machine
  import opened Soundness
  import opened Convergence
  import opened OnePass

  /** The copy of a custom resource a pass works with. */
  class StarknetRPC {
    const name: Name
    const uid: nat
    const spec: Spec
    var conditions: seq<Condition>

    constructor (name: Name, stored: Rpc)
      ensures this.name == name && Value() == stored
    {
      this.name, uid, spec, conditions := name, stored.uid, stored.spec, stored.conditions;
    }

    function Value(): Rpc
      reads this
    {
      Rpc(uid, spec, conditions)
    }
  }

  /** A step of the pass has returned an error, and the pass is over. Going round again always comes with a result. */
  predicate Stopped(p: Process, result: Option<Result>, err: Failure) {
    if err == NextLoop then result.Some? && p == Finish(result.value) else p == Fail(err)
  }

  method ApplyTransitions(node: StarknetRPC, transitions: seq<Condition>, now: int)
    modifies node
    ensures node.conditions == ApplyAll(old(node.conditions), transitions, now)
  {
    for i := 0 to |transitions|
      invariant node.conditions == ApplyAll(old(node.conditions), transitions[..i], now)
    {
      node.conditions := SetStatusCondition(node.conditions, transitions[i], now);
      assert transitions[..i + 1][..i] == transitions[..i];
    }
    assert transitions[..|transitions|] == transitions;
  }

  /** The transitions are applied to the copy one after the other, and then the whole list is stored. */
  method SetPhases(server: ApiServer, node: StarknetRPC, transitions: seq<Condition>, ghost w: StatusWrite)
    returns (err: Option<Failure>)
    requires server.At(node.name, Running(Storing(w), node.Value()))
    requires transitions == Transitions(w)
    modifies server, node
    ensures server.Worked(node.name)
    ensures node.conditions == Write(old(node.conditions), w, old(server.Now()))
    ensures server.ProcessFor(node.name) == if err == None then AfterStore(node.Value(), w) else Fail(err.value)
    ensures err != Some(NextLoop)
  {
    hide Outcome, PassesBegun, Timely;
    ApplyTransitions(node, transitions, server.Now());
    var answer := server.Send(node.name, PutStatus(Key(RpcKind, node.name), node.uid, node.conditions));
    err := if answer.Refused? then Some(Api(answer.error)) else None;
  }

  /** The conditions are seeded once, when there are none. */
  method Initialize(server: ApiServer, rpc: StarknetRPC) returns (err: Option<Failure>)
    requires server.At(rpc.name,
                       Running(if rpc.conditions == [] then Storing(StatusWrite.Initialize) else CreateStorage,
                               rpc.Value()))
    modifies server, rpc
    ensures server.Worked(rpc.name)
    ensures server.ProcessFor(rpc.name) == if err == None then Running(CreateStorage, rpc.Value()) else Fail(err.value)
    ensures old(rpc.conditions) != [] ==> err == None && rpc.conditions == old(rpc.conditions)
    ensures err != Some(NextLoop)
  {
    hide Outcome, PassesBegun, Timely;
    err := None;
    if |rpc.conditions| == 0 {
      err := SetPhases(server, rpc, [RESTORE_PENDING, AVAILABLE_PENDING], StatusWrite.Initialize);
    }
  }

  method ReconcilePvc(server: ApiServer, rpc: StarknetRPC) returns (result: Option<Result>, err: Option<Failure>)
    requires server.At(rpc.name, Running(CreateStorage, rpc.Value()))
    modifies server, rpc
    ensures server.Worked(rpc.name)
    ensures err == None ==> server.ProcessFor(rpc.name) == EnterRestore(rpc.Value())
    ensures err.Some? ==> Stopped(server.ProcessFor(rpc.name), result, err.value)
  {
    hide Outcome, PassesBegun, Timely;
    var key := Key(ClaimKind, GetStoragePvcName(rpc.name));
    var answer := server.Send(rpc.name, Create(key, ClaimObject(GetWantedPvc())));
    if answer.Accepted? {
      err := SetPhases(server, rpc, [RESTORE_PENDING], ResetRestore);
      return if err.Some? then None else Some(DONE), err;
    } else if answer.error != AlreadyExists {
      return None, Some(Api(answer.error));
    }
    return Some(DONE), None;
  }

  method EnsurePvcReady(server: ApiServer, rpc: StarknetRPC) returns (result: Option<Result>, err: Option<Failure>)
    requires server.At(rpc.name, Running(GetStorage, rpc.Value()))
    modifies server
    ensures server.Worked(rpc.name)
    ensures err == None ==> server.ProcessFor(rpc.name) == Running(CreateJob, rpc.Value())
    ensures err.Some? ==> Stopped(server.ProcessFor(rpc.name), result, err.value)
  {
    hide Outcome, PassesBegun, Timely;
    var answer := server.Send(rpc.name, Get(Key(ClaimKind, GetStoragePvcName(rpc.name))));
    if answer.Refused? {
      return None, Some(Api(answer.error));
    }
    if !IsReady(answer.payload.claim) {
      return Some(IN_ONE_SECOND), Some(NextLoop);
    }
    return Some(DONE), None;
  }

  /** A nil error means that the restore status is true in the copy of the pass and the pass has come to the pod. */
  method ReconcileArchiveRestore(server: ApiServer, rpc: StarknetRPC) returns (result: Option<Result>,
      err: Option<Failure>)
    requires server.At(rpc.name, EnterRestore(rpc.Value()))
    modifies server, rpc
    ensures server.Worked(rpc.name)
    ensures err == None ==>
              Restored(rpc.conditions) && server.ProcessFor(rpc.name) == Running(Upsert(RpcPod, Filing), rpc.Value())
    ensures err.Some? ==> Stopped(server.ProcessFor(rpc.name), result, err.value)
  {
    hide Outcome, PassesBegun, Timely;
    if IsStatusConditionTrue(rpc.conditions, Restore) {
      result, err := CleanUp(server, rpc);
      return;
    }
    if rpc.spec.enable.Some? && !rpc.spec.enable.value {
      WriteUnfolds(rpc.conditions, SkipRestore, server.Now());
      err := SetPhases(server, rpc, [RESTORE_SKIPPED], SkipRestore);
      return if err.Some? then None else Some(DONE), err;
    }
    result, err := PrepareClaims(server, rpc);
    if err.Some? {
      return;
    }
    result, err := RunRestoreJob(server, rpc);
  }

  /** The scratch claim is created and both claims are waited for. */
  method PrepareClaims(server: ApiServer, rpc: StarknetRPC) returns (result: Option<Result>, err: Option<Failure>)
    requires server.At(rpc.name, Running(CreateScratch, rpc.Value()))
    modifies server
    ensures server.Worked(rpc.name)
    ensures err == None ==> server.ProcessFor(rpc.name) == Running(CreateJob, rpc.Value())
    ensures err.Some? ==> Stopped(server.ProcessFor(rpc.name), result, err.value)
  {
    hide Outcome, PassesBegun, Timely;
    var key := Key(ClaimKind, GetRestorePvcName(rpc.name));
    var answer := server.Send(rpc.name, Create(key, ClaimObject(GetWantedPvc())));
    if answer.Refused? && answer.error != AlreadyExists {
      return None, Some(Api(answer.error));
    }
    result, err := AwaitClaims(server, rpc);
  }

  method AwaitClaims(server: ApiServer, rpc: StarknetRPC) returns (result: Option<Result>, err: Option<Failure>)
    requires server.At(rpc.name, Running(GetScratch, rpc.Value()))
    modifies server
    ensures server.Worked(rpc.name)
    ensures err == None ==> server.ProcessFor(rpc.name) == Running(CreateJob, rpc.Value())
    ensures err.Some? ==> Stopped(server.ProcessFor(rpc.name), result, err.value)
  {
    hide Outcome, PassesBegun, Timely;
    var answer := server.Send(rpc.name, Get(Key(ClaimKind, GetRestorePvcName(rpc.name))));
    if answer.Refused? {
      if answer.error == NotFound {
        return Some(IN_ONE_SECOND), Some(NextLoop);
      }
      return None, Some(Api(answer.error));
    }
    if !IsReady(answer.payload.claim) {
      return Some(IN_ONE_SECOND), Some(NextLoop);
    }
    result, err := EnsurePvcReady(server, rpc);
    if err.Some? {
      if err.value == NextLoop {
        return;
      }
      return None, err;
    }
  }

  /** The restore is done: the Job and the scratch claim go. */
  method CleanUp(server: ApiServer, rpc: StarknetRPC) returns (result: Option<Result>, err: Option<Failure>)
    requires server.At(rpc.name, Running(DeleteJob, rpc.Value())) && Restored(rpc.conditions)
    modifies server
    ensures server.Worked(rpc.name)
    ensures err == None ==> server.ProcessFor(rpc.name) == Running(Upsert(RpcPod, Filing), rpc.Value())
    ensures err.Some? ==> Stopped(server.ProcessFor(rpc.name), result, err.value)
  {
    hide Outcome, PassesBegun, Timely;
    var answer := server.Send(rpc.name, Delete(Key(JobKind, GetRestoreJobName(rpc.name))));
    if answer.Refused? && answer.error != NotFound {
      return None, Some(Api(answer.error));
    }
    answer := server.Send(rpc.name, Delete(Key(ClaimKind, GetRestorePvcName(rpc.name))));
    if answer.Refused? && answer.error != NotFound {
      return None, Some(Api(answer.error));
    }
    return Some(DONE), None;
  }

  /** Both claims are bound: the Job is created, or looked at when it is there. This part of the step never ends well;
      it takes another pass to see what it has recorded. */
  method RunRestoreJob(server: ApiServer, rpc: StarknetRPC) returns (result: Option<Result>, err: Option<Failure>)
    requires server.At(rpc.name, Running(CreateJob, rpc.Value()))
    modifies server, rpc
    ensures server.Worked(rpc.name)
    ensures err.Some? && Stopped(server.ProcessFor(rpc.name), result, err.value)
  {
    hide Outcome, PassesBegun, Timely;
    var wanted := JobObject(GetWantedRestoreJob(rpc.name));
    var answer := server.Send(rpc.name, Create(Key(JobKind, GetRestoreJobName(rpc.name)), wanted));
    if answer.Accepted? {
      err := SetPhases(server, rpc, [RESTORE_PROGRESSING], StartRestore);
      if err.Some? {
        return None, err;
      }
      return Some(IN_ONE_SECOND), Some(NextLoop);
    } else if answer.error != AlreadyExists {
      return None, Some(Api(answer.error));
    }
    result, err := InspectRestoreJob(server, rpc);
  }

  method InspectRestoreJob(server: ApiServer, rpc: StarknetRPC) returns (result: Option<Result>, err: Option<Failure>)
    requires server.At(rpc.name, Running(GetJob, rpc.Value()))
    modifies server, rpc
    ensures server.Worked(rpc.name)
    ensures err.Some? && Stopped(server.ProcessFor(rpc.name), result, err.value)
  {
    hide Outcome, PassesBegun, Timely;
    var answer := server.Send(rpc.name, Get(Key(JobKind, GetRestoreJobName(rpc.name))));
    if answer.Refused? {
      return None, Some(Api(answer.error));
    }
    result, err := JudgeJob(server, rpc, answer.payload.job);
  }

  /** Where a pass is once it has read the Job: success is looked at first. */
  function AfterJob(rpc: Rpc, job: Job): Process {
    if job.succeeded > 0 then Running(Storing(FinishRestore(job)), rpc)
    else if job.failed > 0 then Running(Storing(FailRestore(job)), rpc)
    else Finish(IN_THIRTY_SECONDS)
  }

  method JudgeJob(server: ApiServer, rpc: StarknetRPC, job: Job) returns (result: Option<Result>, err: Option<Failure>)
    requires server.At(rpc.name, AfterJob(rpc.Value(), job))
    modifies server, rpc
    ensures server.Worked(rpc.name)
    ensures err.Some? && Stopped(server.ProcessFor(rpc.name), result, err.value)
  {
    hide Outcome, PassesBegun, Timely;
    if job.succeeded > 0 {
      err := SetPhases(server, rpc, [ARCHIVE_FINISHED], FinishRestore(job));
      if err.Some? {
        return None, err;
      }
      return Some(IN_ONE_SECOND), Some(NextLoop);
    } else if job.failed > 0 {
      err := SetPhases(server, rpc, [RESTORE_FAILED], FailRestore(job));
      if err.Some? {
        return None, err;
      }
      return None, Some(TerminateLoop);
    } else {
      return Some(IN_THIRTY_SECONDS), Some(NextLoop);
    }
  }

  // ---- The steps built on CreateOrReconcile ----

  /** Where a pass is once `CreateOrReconcile` has returned. */
  function AfterUpsert(rpc: Rpc, slot: Slot, created: bool, after: Object, err: Option<Failure>): Process {
    if err.Some? then UpsertFails(slot, err.value)
    else if !created then UpsertSettles(rpc, slot, after)
    else if after.PodObject? then Running(Storing(MarkCreating(after.pod)), rpc)
    else Finish(DONE)
  }

  /** The exchanges of `CreateOrReconcile` are the calls the pass had to make. */
  ghost method AccountUpsert(server: ApiServer, n: Name, rpc: Rpc, slot: Slot, after: Object, created: bool,
      err: Option<Failure>)
    requires server.Valid() && server.ProcessFor(n) == Running(Upsert(slot, Filing), rpc)
    requires slot == RpcPod || slot == Monitor
    requires Conversation(server.pending, KeyOf(n, slot), Wanted(slot, n, rpc.spec), Reconcilers(slot, n, rpc.spec),
        after, created, err)
    modifies server`callers, server`settled, server`passes, server`pending
    ensures server.Idle() && server.Called(n) && server.passes == old(server.passes)
    ensures server.settled.processes == old(server.settled.processes)[n := AfterUpsert(rpc, slot, created, after, err)]
    ensures err == None ==> KindOf(after) == SlotKind(slot)
  {
    hide Outcome, PassesBegun, Timely, Repair, Reconcilers, Wanted, UpsertSettles;
    var es := server.pending;
    AccountFiling(server, n, rpc, slot);
    if es[0].answer.Refused? && es[0].answer.error == AlreadyExists {
      AccountReconciling(server, n, rpc, slot, es, after, err);
    }
  }

  ghost method AccountFiling(server: ApiServer, n: Name, rpc: Rpc, slot: Slot)
    requires server.Valid() && server.ProcessFor(n) == Running(Upsert(slot, Filing), rpc)
    requires slot == RpcPod || slot == Monitor
    requires server.pending != [] && server.pending[0].request == Create(KeyOf(n, slot), Wanted(slot, n, rpc.spec))
    modifies server`callers, server`settled, server`passes, server`pending
    ensures server.Valid() && server.pending == old(server.pending[1..])
    ensures server.Called(n) && server.passes == old(server.passes)
    ensures var answer := old(server.pending[0].answer);
            && (answer.Accepted? ==> KindOf(answer.payload) == SlotKind(slot))
            && server.settled.processes ==
               old(server.settled.processes)[n :=
                 if answer.Accepted? then AfterUpsert(rpc, slot, true, answer.payload, None)
                 else if answer.error.AlreadyExists? then Running(Upsert(slot, Fetching), rpc)
                 else UpsertFails(slot, Api(answer.error))]
  {
    hide Outcome, PassesBegun, Timely;
    server.Account(n);
  }

  ghost method AccountReconciling(server: ApiServer, n: Name, rpc: Rpc, slot: Slot, es: seq<Exchange>, after: Object,
      err: Option<Failure>)
    requires server.Valid() && server.ProcessFor(n) == Running(Upsert(slot, Fetching), rpc)
    requires slot == RpcPod || slot == Monitor
    requires 2 <= |es| <= 3 && server.pending == es[1..]
    requires es[1].request == Get(KeyOf(n, slot))
        && Reconciling(es, KeyOf(n, slot), Reconcilers(slot, n, rpc.spec), after, err)
    modifies server`callers, server`settled, server`passes, server`pending
    ensures server.Idle() && server.Called(n) && server.passes == old(server.passes)
    ensures server.settled.processes == old(server.settled.processes)[n := AfterUpsert(rpc, slot, false, after, err)]
    ensures err == None ==> KindOf(after) == SlotKind(slot)
  {
    hide Outcome, PassesBegun, Timely, Repair, Reconcilers;
    AccountFetch(server, n, rpc, slot);
    if es[1].answer.Accepted? {
      RepairUpdatesIffDrift(es[1].answer.payload, Reconcilers(slot, n, rpc.spec));
      AccountConclusion(server, n, rpc, slot, es, Repair(es[1].answer.payload, Reconcilers(slot, n, rpc.spec)),
          after, err);
    }
  }

  ghost method AccountConclusion(server: ApiServer, n: Name, rpc: Rpc, slot: Slot, es: seq<Exchange>,
                                 repaired: Repaired, after: Object, err: Option<Failure>)
    requires server.Valid() && n in server.settled.processes
    requires server.ProcessFor(n) == UpsertRepairs(rpc, slot, repaired)
    requires repaired.Settled? && !repaired.updated ==> KindOf(repaired.payload) == SlotKind(slot)
    requires 2 <= |es| <= 3 && server.pending == es[2..] && Concluding(es, KeyOf(n, slot), repaired, after, err)
    modifies server`callers, server`settled, server`passes, server`pending
    ensures server.Idle() && server.Called(n) && server.passes == old(server.passes)
    ensures server.settled.processes == old(server.settled.processes)[n := AfterUpsert(rpc, slot, false, after, err)]
    ensures err == None ==> KindOf(after) == SlotKind(slot)
  {
    hide Outcome, PassesBegun, Timely;
    if |es| == 3 {
      AccountUpdate(server, n, rpc, slot, repaired.payload);
    }
  }

  ghost method AccountFetch(server: ApiServer, n: Name, rpc: Rpc, slot: Slot)
    requires server.Valid() && server.ProcessFor(n) == Running(Upsert(slot, Fetching), rpc)
    requires server.pending != [] && server.pending[0].request == Get(KeyOf(n, slot))
    modifies server`callers, server`settled, server`passes, server`pending
    ensures server.Valid() && server.pending == old(server.pending[1..])
    ensures server.Called(n) && server.passes == old(server.passes)
    ensures var answer := old(server.pending[0].answer);
            && (answer.Accepted? ==> KindOf(answer.payload) == SlotKind(slot))
            && server.settled.processes ==
               old(server.settled.processes)[n :=
                 if answer.Refused? then UpsertFails(slot, Api(answer.error))
                 else UpsertRepairs(rpc, slot, Repair(answer.payload, Reconcilers(slot, n, rpc.spec)))]
  {
    hide Outcome, PassesBegun, Timely;
    server.Account(n);
  }

  ghost method AccountUpdate(server: ApiServer, n: Name, rpc: Rpc, slot: Slot, changed: Object)
    requires server.Valid() && server.ProcessFor(n) == Running(Upsert(slot, Repairing(changed)), rpc)
    requires server.pending != [] && server.pending[0].request == Update(KeyOf(n, slot), changed)
    modifies server`callers, server`settled, server`passes, server`pending
    ensures server.Valid() && server.pending == old(server.pending[1..])
    ensures server.Called(n) && server.passes == old(server.passes)
    ensures var answer := old(server.pending[0].answer);
            && (answer.Accepted? ==> KindOf(answer.payload) == SlotKind(slot))
            && server.settled.processes ==
               old(server.settled.processes)[n :=
                 if answer.Refused? then UpsertFails(slot, Api(answer.error))
                 else UpsertSettles(rpc, slot, answer.payload)]
  {
    hide Outcome, PassesBegun, Timely;
    server.Account(n);
  }

  method EnsurePod(server: ApiServer, rpc: StarknetRPC) returns (created: bool, pod: Pod, err: Option<Failure>)
    requires server.At(rpc.name, Running(Upsert(RpcPod, Filing), rpc.Value()))
    modifies server
    ensures server.Worked(rpc.name)
    ensures server.ProcessFor(rpc.name) ==
            if err.Some? then Fail(err.value)
            else if created then Running(Storing(MarkCreating(pod)), rpc.Value())
            else JudgePod(rpc.Value(), pod)
    ensures err != Some(NextLoop)
  {
    hide Outcome, PassesBegun, Timely;
    pod := GetWantedPod(rpc.name, rpc.spec);
    var held := new Holder(PodObject(pod));
    created, err := CreateOrReconcile(server, Key(PodKind, GetPodName(rpc.name)), held, [ImageReconciler(rpc.spec)]);
    AccountUpsert(server, rpc.name, rpc.Value(), RpcPod, held.payload, created, err);
    if err == None {
      pod := held.payload.pod;
    }
  }

  method ReconcilePod(server: ApiServer, rpc: StarknetRPC) returns (result: Option<Result>, err: Option<Failure>)
    requires server.At(rpc.name, Running(Upsert(RpcPod, Filing), rpc.Value()))
    modifies server, rpc
    ensures server.Worked(rpc.name)
    ensures err == None ==> server.ProcessFor(rpc.name) == EnterMonitor(rpc.Value())
    ensures err.Some? ==> Stopped(server.ProcessFor(rpc.name), result, err.value)
  {
    hide Outcome, PassesBegun, Timely;
    var created, pod;
    created, pod, err := EnsurePod(server, rpc);
    if err.Some? {
      return None, err;
    }
    if created {
      err := SetPhases(server, rpc, [AVAILABLE_CREATING], MarkCreating(pod));
      if err.Some? {
        return None, err;
      }
    }
    result, err := LookAfterPod(server, rpc, pod);
  }

  /** A pod that will not recover is deleted, and one that answers is recorded as catching up. */
  method LookAfterPod(server: ApiServer, rpc: StarknetRPC, pod: Pod) returns (result: Option<Result>,
      err: Option<Failure>)
    requires server.At(rpc.name, JudgePod(rpc.Value(), pod))
    modifies server, rpc
    ensures server.Worked(rpc.name)
    ensures err == None ==> server.ProcessFor(rpc.name) == EnterMonitor(rpc.Value())
    ensures err.Some? ==> Stopped(server.ProcessFor(rpc.name), result, err.value)
  {
    hide Outcome, PassesBegun, Timely;
    var recreate := ShouldPodGetRecreated(pod);
    if recreate {
      result, err := DropPod(server, rpc);
      return;
    }
    if pod.status.running {
      result, err := RecordReadiness(server, rpc);
      return;
    }
    return Some(DONE), None;
  }

  method RecordReadiness(server: ApiServer, rpc: StarknetRPC) returns (result: Option<Result>, err: Option<Failure>)
    requires server.At(rpc.name, Running(ProbePod, rpc.Value()))
    modifies server, rpc
    ensures server.Worked(rpc.name)
    ensures err == None ==> server.ProcessFor(rpc.name) == EnterMonitor(rpc.Value())
    ensures err.Some? ==> Stopped(server.ProcessFor(rpc.name), result, err.value)
  {
    hide Outcome, PassesBegun, Timely;
    var answer := server.Send(rpc.name, Probe(Key(PodKind, GetPodName(rpc.name))));
    if answer.Accepted? {
      err := SetPhases(server, rpc, [AVAILABLE_CATCHING_UP], MarkCatchingUp);
      if err.Some? {
        return None, err;
      }
    }
    return Some(DONE), None;
  }

  method DropPod(server: ApiServer, rpc: StarknetRPC) returns (result: Option<Result>, err: Option<Failure>)
    requires server.At(rpc.name, Running(DeletePod, rpc.Value()))
    modifies server
    ensures server.Worked(rpc.name)
    ensures err.Some? && Stopped(server.ProcessFor(rpc.name), result, err.value)
  {
    hide Outcome, PassesBegun, Timely;
    var answer := server.Send(rpc.name, Delete(Key(PodKind, GetPodName(rpc.name))));
    if answer.Refused? {
      return None, Some(Api(answer.error));
    }
    return Some(AT_ONCE), Some(NextLoop);
  }

  /** Whatever goes wrong with the monitor, the pass is over; only a panic makes it fail. */
  method ReconcilePodMonitor(server: ApiServer, rpc: StarknetRPC) returns (result: Option<Result>, err: Option<Failure>)
    requires server.At(rpc.name, EnterMonitor(rpc.Value()))
    modifies server
    ensures server.Worked(rpc.name)
    ensures server.ProcessFor(rpc.name) == if err == Some(Panicked) then Fail(Panicked) else Finish(DONE)
    ensures err != Some(NextLoop)
  {
    hide Outcome, PassesBegun, Timely;
    if rpc.spec.podMonitor.None? || !rpc.spec.podMonitor.value.enabled {
      result, err := RemovePodMonitor(server, rpc);
      return;
    }
    var answer := server.Send(rpc.name, Get(Key(PodKind, GetPodName(rpc.name))));
    if answer.Refused? {
      if answer.error == NotFound {
        return Some(DONE), None;
      }
      return None, Some(Api(answer.error));
    }
    result, err := EnsurePodMonitor(server, rpc);
  }

  method RemovePodMonitor(server: ApiServer, rpc: StarknetRPC) returns (result: Option<Result>, err: Option<Failure>)
    requires server.At(rpc.name, Running(FindOldMonitor, rpc.Value()))
    modifies server
    ensures server.Worked(rpc.name)
    ensures server.ProcessFor(rpc.name) == Finish(DONE)
    ensures err != Some(NextLoop) && err != Some(Panicked)
  {
    hide Outcome, PassesBegun, Timely;
    var key := Key(MonitorKind, GetPodMonitorName(rpc.name));
    var answer := server.Send(rpc.name, Get(key));
    if answer.Accepted? {
      answer := server.Send(rpc.name, Delete(key));
      if answer.Refused? {
        return None, Some(Api(answer.error));
      }
    }
    return Some(DONE), None;
  }

  method EnsurePodMonitor(server: ApiServer, rpc: StarknetRPC) returns (result: Option<Result>, err: Option<Failure>)
    requires server.At(rpc.name, Running(Upsert(Monitor, Filing), rpc.Value()))
    modifies server
    ensures server.Worked(rpc.name)
    ensures server.ProcessFor(rpc.name) == if err == Some(Panicked) then Fail(Panicked) else Finish(DONE)
    ensures err != Some(NextLoop)
  {
    hide Outcome, PassesBegun, Timely;
    var held := new Holder(MonitorObject(GetWantedPodMonitor(rpc.name, rpc.spec)));
    var created;
    created, err := CreateOrReconcile(server, Key(MonitorKind, GetPodMonitorName(rpc.name)), held,
        [PodMonitorSpecReconciler(rpc.name, rpc.spec)]);
    AccountUpsert(server, rpc.name, rpc.Value(), Monitor, held.payload, created, err);
    if err.Some? {
      if err.value == Api(NotFound) {
        return Some(DONE), None;
      }
      return None, err;
    }
    return Some(DONE), None;
  }

  // ---- The pass ----

  /** One pass, from rest to rest, with the ending it returns. Its calls are those of exactly one pass of the step
      machine of `n`, at least one and at most fifteen, and every other resource's pass stays where it was. The ending
      is that of its last call; in particular it asks for another pass at once exactly if it deleted the pod. */
  method Reconcile(server: ApiServer, n: Name) returns (result: Result, err: Option<Failure>)
    requires server.Idle() && server.ProcessFor(n).Resting?
    modifies server
    ensures server.Idle() && IsPass(n, server.weather, old(server.callers), server.callers)
    ensures |old(server.callers)| < |server.callers| <= |old(server.callers)| + 15
    ensures server.settled.processes == old(server.settled.processes)[n := server.ProcessFor(n)]
    ensures server.ProcessFor(n) == Resting(if err == None then Completed(result) else Errored(err.value))
    ensures PassEnds(n, server.weather, old(server.callers), server.callers,
                     if err == None then Completed(result) else Errored(err.value))
    ensures err == None ==>
              (result.requeue <==> DropsItsPod(n, server.weather, old(server.callers), server.callers))
  {
    hide Outcome, PassesBegun, Timely, PassEnds, DropsItsPod;
    var answer := server.Send(n, Get(Key(RpcKind, n)));
    if answer.Refused? {
      result, err := DONE, if answer.error == NotFound then None else Some(Api(answer.error));
    } else {
      var rpc := new StarknetRPC(n, answer.payload.rpc);
      result, err := ReconcileFetched(server, rpc);
    }
    PassIsShort(n, server.weather, old(server.callers), server.callers);
    LastCallEndsPass(n, server.weather, old(server.callers), server.callers);
    DeletionRequeuesPass(n, server.weather, old(server.callers), server.callers);
  }

  method ReconcileFetched(server: ApiServer, rpc: StarknetRPC) returns (result: Result, err: Option<Failure>)
    requires server.At(rpc.name,
                       Running(if rpc.conditions == [] then Storing(StatusWrite.Initialize) else CreateStorage,
                               rpc.Value()))
    modifies server, rpc
    ensures server.Worked(rpc.name)
    ensures server.ProcessFor(rpc.name) == Resting(if err == None then Completed(result) else Errored(err.value))
  {
    hide Outcome, PassesBegun, Timely;
    err := Initialize(server, rpc);
    if err.Some? {
      return DONE, err;
    }
    var outcome;
    outcome, err := ReconcilePvc(server, rpc);
    if err.Some? {
      if err.value == NextLoop {
        return outcome.value, None;
      }
      return DONE, err;
    }
    result, err := ReconcileData(server, rpc);
  }

  /** From the restore step on. */
  method ReconcileData(server: ApiServer, rpc: StarknetRPC) returns (result: Result, err: Option<Failure>)
    requires server.At(rpc.name, EnterRestore(rpc.Value()))
    modifies server, rpc
    ensures server.Worked(rpc.name)
    ensures server.ProcessFor(rpc.name) == Resting(if err == None then Completed(result) else Errored(err.value))
  {
    hide Outcome, PassesBegun, Timely;
    var outcome;
    outcome, err := ReconcileArchiveRestore(server, rpc);
    if err.Some? {
      if err.value == NextLoop {
        return outcome.value, None;
      }
      return DONE, err;
    }
    result, err := ReconcileNode(server, rpc);
  }

  /** The second half of the pass, behind the gate. */
  method ReconcileNode(server: ApiServer, rpc: StarknetRPC) returns (result: Result, err: Option<Failure>)
    requires server.At(rpc.name, Running(Upsert(RpcPod, Filing), rpc.Value()))
        && Restored(rpc.conditions)
    modifies server, rpc
    ensures server.Worked(rpc.name)
    ensures server.ProcessFor(rpc.name) == Resting(if err == None then Completed(result) else Errored(err.value))
  {
    hide Outcome, PassesBegun, Timely;
    if !IsStatusConditionTrue(rpc.conditions, Restore) {
      // The restore step has made sure of it, so the guard before the pod never fires.
      assert false;
      return IN_THIRTY_SECONDS, None;
    }
    var outcome;
    outcome, err := ReconcilePod(server, rpc);
    if err.Some? {
      if err.value == NextLoop {
        return outcome.value, None;
      }
      return DONE, err;
    }
    outcome, err := ReconcilePodMonitor(server, rpc);
    if err == Some(Panicked) {
      return DONE, err;
    }
    return DONE, None;
  }

  /** When nothing interferes, one call of `Reconcile` is one calm pass, so the theorems about those are about it. */
  method ReconcileInCalm(server: ApiServer, n: Name, ghost ready: bool, ghost now: int)
    returns (result: Result, err: Option<Failure>, ghost before: Sys)
    requires server.Idle() && server.ProcessFor(n).Resting?
    requires CalmWeather(n, server.weather, server.callers, 15, ready, now)
    modifies server
    ensures server.Idle() && Sound(n, before) && before.process.Resting?
    ensures before.cluster == old(View(server.cluster, n))
    ensures View(server.cluster, n) == CalmPass(n, before, ready, now).cluster
  {
    hide Outcome, PassesBegun, CalmPass, Sound, View;
    ghost var earlier := server.callers;
    before := ShareState(n, Timeline(server.weather, earlier));
    IdleServerIsSafe(server, n);
    result, err := Reconcile(server, n);
    CalmPassHappens(n, server.weather, earlier, server.callers, ready, now);
  }
}
