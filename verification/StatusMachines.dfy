/** The stored conditions as two abstract machines: the five-state restore machine and the availability machine. */
module StatusMachines {
  import opened Objects
  import opened Conditions
  import opened Names
  import opened Server
  import opened Drift
  import opened Workload
  import opened Process
  import opened Machine
  import opened Soundness
  import opened Moves

  /** The typed status each stored restore reason stands for. */
  function RestorePhase(c: Condition): RestoreStatus {
    match c.reason
    case ArchiveJobProgressing => Restoring
    case ArchiveJobFinished => Success
    case ArchiveJobFailed => Failed
    case ArchiveRestoreSkipped => Skipped
    case _ => RestorePending
  }

  function AvailablePhase(c: Condition): AvailableStatus {
    match c.reason
    case Pending => AvailablePending
    case Creating => AvailableCreating
    case CatchingUp => AvailableCatchingUp
    case _ => AvailableUnknown
  }

  /** The stored statuses are the ones the typed enumerations prescribe. */
  lemma EntriesMatchEnumerations(conditions: seq<Condition>)
    requires Shaped(conditions)
    ensures conditions[0].status == RestorePhase(conditions[0]).Status()
    ensures conditions[1].status == AvailablePhase(conditions[1]).Status() == ConditionStatus.Unknown
    ensures Restored(conditions) <==> RestorePhase(conditions[0]) in {Success, Skipped}
  {
  }

  /** The abstract machine: a finished restore is only ever reset. */
  predicate RestoreMove(from: RestoreStatus, to: RestoreStatus) {
    from == to || to == RestorePending || from.Status() == ConditionStatus.False
  }

  /** What must be true of the pass that moves the restore status. */
  predicate RestoreEvidence(p: Process, to: RestoreStatus) {
    match to
    case RestorePending => Resetting(p)
    case Restoring => At(p, Storing(StartRestore)) && p.rpc.spec.enable != Some(false)
    case Success => p.Running? && p.at.Storing? && p.at.write.FinishRestore? && p.at.write.seen.succeeded > 0
    case Failed => p.Running? && p.at.Storing? && p.at.write.FailRestore? && p.at.write.seen.succeeded == 0
        && p.at.write.seen.failed > 0
    case Skipped => At(p, Storing(SkipRestore)) && p.rpc.spec.enable == Some(false)
  }

  predicate AvailableMove(from: AvailableStatus, to: AvailableStatus) {
    from == to || to == AvailableCreating || to == AvailableCatchingUp
  }

  predicate AvailableEvidence(p: Process, restored: bool, to: AvailableStatus) {
    && restored
    && p.Running? && p.at.Storing?
    && (if to == AvailableCreating then p.at.write.MarkCreating? else p.at.write.MarkCatchingUp?)
  }

  function StoredConditions(w: World): seq<Condition> {
    if TheRpc in w && w[TheRpc].RpcObject? then w[TheRpc].rpc.conditions else []
  }

  /** One write of a pass at `p`, seen from the stored conditions. */
  predicate StatusWriteStep(p: Process, was: seq<Condition>, now: seq<Condition>)
    requires p.Running? && p.at.Storing?
  {
    if was == [] then
      && p.at.write.Initialize?
      && Shaped(now) && RestorePhase(now[0]) == RestorePending && AvailablePhase(now[1]) == AvailablePending
    else
      && Shaped(was) && Shaped(now)
      && RestoreMove(RestorePhase(was[0]), RestorePhase(now[0]))
      && (RestorePhase(was[0]) != RestorePhase(now[0]) ==> now[1] == was[1] && RestoreEvidence(p, RestorePhase(now[0])))
      && AvailableMove(AvailablePhase(was[1]), AvailablePhase(now[1]))
      && (AvailablePhase(was[1]) != AvailablePhase(now[1]) ==>
            now[0] == was[0] && AvailableEvidence(p, Restored(was), AvailablePhase(now[1])))
      && (p.at.write.MarkCreating? ==> AvailablePhase(now[1]) == AvailableCreating)
      && (p.at.write.FinishRestore? ==> RestorePhase(now[0]) == Success)
      && (p.at.write.SkipRestore? ==> RestorePhase(now[0]) == Skipped)
  }

  /** One call of the operator: the stored conditions change only by such a write. */
  predicate StatusStep(s: Sys, reply: Reply, next: Sys) {
    var was, now := StoredConditions(WorldOf(s)), StoredConditions(WorldOf(next));
    if Writes(WorldOf(s), s.process, reply) then StatusWriteStep(s.process, was, now) else now == was
  }

  /** A write, seen from the list it replaces. */
  lemma WriteIsStatusStep(n: Name, p: Process, now: int)
    requires Local(n, p) && p.Running? && p.at.Storing?
    ensures StatusWriteStep(p, p.rpc.conditions, Write(p.rpc.conditions, p.at.write, now))
  {
    WriteShapes(p.rpc.conditions, p.at.write, now);
  }

  lemma CallIsStatusStep(n: Name, s: Sys, reply: Reply, now: int, next: Sys)
    requires Moved(n, s, reply, now, next)
    ensures StatusStep(s, reply, next)
  {
    if s.process.Running? && s.process.at.Storing? {
      WriteIsStatusStep(n, s.process, now);
    }
  }

  /** Every call in every run is a step of both machines: the restore status leaves a true value only for Pending, and
      then in the call that resets it; Success needs a Job read with a success count, Failed one with failures and no
      success, Skipped a resource that switched the restore off; the availability leaves Pending only on a true restore
      status and never comes back to it. */
  lemma RunsRefineStatusMachines(n: Name, ticks: seq<Tick<Slot>>, t: Tick<Slot>)
    ensures StatusStep(Before(n, INIT, ticks, t), t.reply, Step(n, Exec(n, INIT, ticks), t))
  {
    RunsAreSound(n, ticks, t);
    CallIsStatusStep(n, Before(n, INIT, ticks, t), t.reply, t.now, Step(n, Exec(n, INIT, ticks), t));
  }

  /** The environment never touches a status, short of removing the resource. */
  lemma EnvKeepsStatus(s: Sys, a: Action<Slot>)
    requires Typed(WorldOf(s))
    ensures var was, now := StoredConditions(WorldOf(s)), StoredConditions(WorldOf(EnvStep(s, a)));
            now == was || (now == [] && a == Remove(TheRpc))
  {
  }

  /** The pass is about to reset the restore status only if its last call created a storage claim, and about to record
      Success or Failed only if its last call read the Job that says so. */
  lemma EvidenceIsFresh(n: Name, ticks: seq<Tick<Slot>>, t: Tick<Slot>)
    ensures var s, next := Before(n, INIT, ticks, t), Step(n, Exec(n, INIT, ticks), t);
            && (Resetting(next.process) ==> Storage !in WorldOf(s) && Storage in WorldOf(next))
            && (next.process.Running? && next.process.at.Storing?
                && (next.process.at.write.FinishRestore? || next.process.at.write.FailRestore?) ==>
                  RestoreJob in WorldOf(s) && WorldOf(s)[RestoreJob] == JobObject(next.process.at.write.seen))
  {
    RunsAreSound(n, ticks, t);
  }

  lemma ResumeMarksCreation(n: Name, p: Process, answer: Response, now: int)
    requires Local(n, p) && AnswerFits(Ask(n, p, now), answer)
    ensures var q := Resume(n, p, answer, now);
            (q.Running? && q.at.Storing? && q.at.write.MarkCreating?) <==>
            (At(p, Upsert(RpcPod, Filing)) && answer.Accepted?)
  {
    if p.Running? && p.at.Upsert? {
      UpsertMarksCreation(n, p, answer, now);
    } else if p.Running? && p.at.Storing? {
      hide Repair;
    } else {
      hide Repair, AfterStore;
    }
  }

  lemma RepairsMarkNoCreation(rpc: Rpc, slot: Slot, repaired: Repaired)
    ensures var q := UpsertRepairs(rpc, slot, repaired); !(q.Running? && q.at.Storing? && q.at.write.MarkCreating?)
  {
  }

  lemma UpsertMarksCreation(n: Name, p: Process, answer: Response, now: int)
    requires Local(n, p) && p.Running? && p.at.Upsert? && AnswerFits(Ask(n, p, now), answer)
    ensures var q := Resume(n, p, answer, now);
            (q.Running? && q.at.Storing? && q.at.write.MarkCreating?) <==>
            (At(p, Upsert(RpcPod, Filing)) && answer.Accepted?)
  {
    hide Repair, AfterStore;
    if p.at.stage == Fetching && answer.Accepted? {
      RepairsMarkNoCreation(p.rpc, p.at.slot, Repair(answer.payload, Reconcilers(p.at.slot, n, p.rpc.spec)));
    }
  }

  /** The pass is about to record Creating exactly if its last call created the pod. */
  lemma CreatingFollowsCreation(n: Name, ticks: seq<Tick<Slot>>, t: Tick<Slot>)
    ensures var s, next := Before(n, INIT, ticks, t), Step(n, Exec(n, INIT, ticks), t);
            (next.process.Running? && next.process.at.Storing? && next.process.at.write.MarkCreating?) <==>
            (At(s.process, Upsert(RpcPod, Filing)) && RpcPod !in WorldOf(s) && t.reply.Answered?)
  {
    RunsAreSound(n, ticks, t);
    var s := Before(n, INIT, ticks, t);
    var r := Ask(n, s.process, t.now);
    AskFits(n, s, t.reply, t.now);
    ServeTells(s.cluster, r, t.reply);
    ResumeMarksCreation(n, s.process, Serve(s.cluster, r, t.reply).1, t.now);
  }
}
