/** One reconcile pass as a process: between two API calls it is at a program point, holding its own copy of the
    custom resource; `Ask` is the call it makes next and `Resume` what it does with the answer. */
module Process {
  import opened Objects
  import opened Conditions
  import opened Names
  import opened Server
  import opened Drift
  import opened Workload

  /** `ctrl.Result`, with the delay in seconds. */
  datatype Result = Result(requeue: bool, requeueAfter: nat)

  const DONE := Result(false, 0)
  const IN_ONE_SECOND := Result(false, 1)
  const IN_THIRTY_SECONDS := Result(false, 30)
  const AT_ONCE := Result(true, 0)

  datatype Failure = NextLoop | TerminateLoop | Api(error: ApiError) | BrokenUpdate | Panicked

  /** How a pass ends, as controller-runtime sees it. */
  datatype Ending = Completed(result: Result) | Errored(cause: Failure)

  /** Where `CreateOrReconcile` is. */
  datatype Stage = Filing | Fetching | Repairing(changed: Object)

  datatype Pc =
    | CreateStorage
    | DeleteJob
    | DeleteScratch
    | CreateScratch
    | GetScratch
    | GetStorage
    | CreateJob
    | GetJob
    | Upsert(slot: Slot, stage: Stage)
    | DeletePod
    | ProbePod
    | FindOldMonitor
    | DeleteOldMonitor
    | FindPod
    | Storing(write: StatusWrite)

  datatype Process = Resting(last: Ending) | Running(at: Pc, rpc: Rpc)

  function Ask(n: Name, p: Process, now: int): Request<Slot> {
    match p
    case Resting(_) => Get(TheRpc)
    case Running(at, rpc) =>
      match at
      case CreateStorage => Create(Storage, Wanted(Storage, n, rpc.spec))
      case DeleteJob => Delete(RestoreJob)
      case DeleteScratch => Delete(Scratch)
      case CreateScratch => Create(Scratch, Wanted(Scratch, n, rpc.spec))
      case GetScratch => Get(Scratch)
      case GetStorage => Get(Storage)
      case CreateJob => Create(RestoreJob, Wanted(RestoreJob, n, rpc.spec))
      case GetJob => Get(RestoreJob)
      case Upsert(slot, Filing) => Create(slot, Wanted(slot, n, rpc.spec))
      case Upsert(slot, Fetching) => Get(slot)
      case Upsert(slot, Repairing(changed)) => Update(slot, changed)
      case DeletePod => Delete(RpcPod)
      case ProbePod => Probe(RpcPod)
      case FindOldMonitor => Get(Monitor)
      case DeleteOldMonitor => Delete(Monitor)
      case FindPod => Get(RpcPod)
      case Storing(w) => PutStatus(TheRpc, rpc.uid, Write(rpc.conditions, w, now))
  }

  // ---- What happens between two calls ----

  function Fail(e: Failure): Process { Resting(Errored(e)) }

  function Finish(r: Result): Process { Resting(Completed(r)) }

  /** The start of `ReconcileArchiveRestore`. */
  function EnterRestore(rpc: Rpc): Process {
    if Restored(rpc.conditions) then Running(DeleteJob, rpc)
    else if !RestoreEnabled(rpc.spec) then Running(Storing(SkipRestore), rpc)
    else Running(CreateScratch, rpc)
  }

  /** Its nil return, followed by the guard in `Reconcile`. */
  function LeaveRestore(rpc: Rpc): Process {
    if Restored(rpc.conditions) then Running(Upsert(RpcPod, Filing), rpc) else Finish(IN_THIRTY_SECONDS)
  }

  /** `ReconcilePod` once `CreateOrReconcile` has returned. */
  function JudgePod(rpc: Rpc, pod: Pod): Process {
    if Unhealthy(pod.status) then Running(DeletePod, rpc)
    else if pod.status.running then Running(ProbePod, rpc)
    else EnterMonitor(rpc)
  }

  function EnterMonitor(rpc: Rpc): Process {
    if MonitorEnabled(rpc.spec) then Running(FindPod, rpc) else Running(FindOldMonitor, rpc)
  }

  /** An error of `CreateOrReconcile`: `ReconcilePod` passes it on, while `Reconcile` drops it for the monitor. A
      panic is no error and unwinds both. */
  function UpsertFails(slot: Slot, e: Failure): Process {
    if slot == Monitor && e != Panicked then Finish(DONE) else Fail(e)
  }

  /** The loop over the reconcilers is done. */
  function UpsertRepairs(rpc: Rpc, slot: Slot, repaired: Repaired): Process {
    match repaired
    case Settled(o, updated) =>
      if updated then Running(Upsert(slot, Repairing(o)), rpc) else UpsertSettles(rpc, slot, o)
    case Broken => UpsertFails(slot, BrokenUpdate)
    case Crashed => UpsertFails(slot, Panicked)
  }

  function UpsertSettles(rpc: Rpc, slot: Slot, o: Object): Process {
    if o.PodObject? then JudgePod(rpc, o.pod) else Finish(DONE)
  }

  function AfterStore(rpc: Rpc, w: StatusWrite): Process {
    match w
    case Initialize => Running(CreateStorage, rpc)
    case ResetRestore => EnterRestore(rpc)
    case SkipRestore => LeaveRestore(rpc)
    case StartRestore => Finish(IN_ONE_SECOND)
    case FinishRestore(_) => Finish(IN_ONE_SECOND)
    case FailRestore(_) => Fail(TerminateLoop)
    case MarkCreating(pod) => JudgePod(rpc, pod)
    case MarkCatchingUp => EnterMonitor(rpc)
  }

  function Resume(n: Name, p: Process, answer: Response, now: int): Process {
    match p
    case Resting(_) => Fetched(answer)
    case Running(at, rpc) =>
      match at
      case CreateStorage =>
        if answer.Accepted? then Running(Storing(ResetRestore), rpc)
        else if answer.error.AlreadyExists? then EnterRestore(rpc)
        else Fail(Api(answer.error))
      case DeleteJob => if Gone(answer) then Running(DeleteScratch, rpc) else Fail(Api(answer.error))
      case DeleteScratch => if Gone(answer) then LeaveRestore(rpc) else Fail(Api(answer.error))
      case CreateScratch => if Present(answer) then Running(GetScratch, rpc) else Fail(Api(answer.error))
      case GetScratch =>
        if answer.Refused? then
          if answer.error.NotFound? then Finish(IN_ONE_SECOND) else Fail(Api(answer.error))
        else if ReadyClaim(answer.payload) then Running(GetStorage, rpc)
        else Finish(IN_ONE_SECOND)
      case GetStorage =>
        if answer.Refused? then Fail(Api(answer.error))
        else if ReadyClaim(answer.payload) then Running(CreateJob, rpc)
        else Finish(IN_ONE_SECOND)
      case CreateJob =>
        if answer.Accepted? then Running(Storing(StartRestore), rpc)
        else if answer.error.AlreadyExists? then Running(GetJob, rpc)
        else Fail(Api(answer.error))
      case GetJob =>
        if answer.Refused? then Fail(Api(answer.error))
        else if answer.payload.JobObject? && answer.payload.job.succeeded > 0 then
          Running(Storing(FinishRestore(answer.payload.job)), rpc)
        else if answer.payload.JobObject? && answer.payload.job.failed > 0 then
          Running(Storing(FailRestore(answer.payload.job)), rpc)
        else Finish(IN_THIRTY_SECONDS)
      case Upsert(slot, Filing) =>
        if answer.Accepted? then
          if answer.payload.PodObject? then Running(Storing(MarkCreating(answer.payload.pod)), rpc) else Finish(DONE)
        else if answer.error.AlreadyExists? then Running(Upsert(slot, Fetching), rpc)
        else UpsertFails(slot, Api(answer.error))
      case Upsert(slot, Fetching) =>
        if answer.Refused? then UpsertFails(slot, Api(answer.error))
        else UpsertRepairs(rpc, slot, Repair(answer.payload, Reconcilers(slot, n, rpc.spec)))
      case Upsert(slot, Repairing(_)) =>
        if answer.Refused? then UpsertFails(slot, Api(answer.error)) else UpsertSettles(rpc, slot, answer.payload)
      case DeletePod => if answer.Accepted? then Finish(AT_ONCE) else Fail(Api(answer.error))
      case ProbePod => if answer.Accepted? then Running(Storing(MarkCatchingUp), rpc) else EnterMonitor(rpc)
      case FindOldMonitor => if answer.Accepted? then Running(DeleteOldMonitor, rpc) else Finish(DONE)
      case DeleteOldMonitor => Finish(DONE)
      case FindPod => if answer.Accepted? then Running(Upsert(Monitor, Filing), rpc) else Finish(DONE)
      case Storing(w) =>
        if answer.Accepted? then AfterStore(rpc.(conditions := Write(rpc.conditions, w, now)), w)
        else Fail(Api(answer.error))
  }

  function Fetched(answer: Response): Process {
    if answer.Refused? then
      if answer.error.NotFound? then Finish(DONE) else Fail(Api(answer.error))
    else if !answer.payload.RpcObject? then Finish(DONE)
    else if answer.payload.rpc.conditions == [] then Running(Storing(Initialize), answer.payload.rpc)
    else Running(CreateStorage, answer.payload.rpc)
  }

  predicate Gone(answer: Response) {
    answer.Accepted? || answer.error.NotFound?
  }

  predicate Present(answer: Response) {
    answer.Accepted? || answer.error.AlreadyExists?
  }

  predicate ReadyClaim(o: Object) {
    o.ClaimObject? && IsReady(o.claim)
  }
}
