/** What a single pass does with failures, how it ends and how long it is. */
module Passes {
  import opened Objects
  import opened Conditions
  import opened Names
  import opened Server
  import opened Drift
  import opened Workload
  import opened Process
  import opened Machine
  import opened Soundness
  import opened Moves

  /** The answers a pass shrugs off: the object is there already, or gone already, or the readiness probe failed. */
  predicate Tolerated(p: Process, answer: Response) {
    answer.Refused? && p.Running? &&
    match p.at
    case DeleteJob => answer.error.NotFound?
    case DeleteScratch => answer.error.NotFound?
    case CreateStorage => answer.error.AlreadyExists?
    case CreateScratch => answer.error.AlreadyExists?
    case CreateJob => answer.error.AlreadyExists?
    case Upsert(_, Filing) => answer.error.AlreadyExists?
    case ProbePod => true
    case _ => false
  }

  /** Any other failure ends the pass, and a new pass starts with a read. */
  lemma FailuresStopThePass(n: Name, p: Process, answer: Response, now: int)
    requires answer.Refused? && !Tolerated(p, answer)
    ensures Resume(n, p, answer, now).Resting?
    ensures Ask(n, Resume(n, p, answer, now), now) == Get(TheRpc)
  {
  }

  /** The position of each program point in a pass. */
  function Rank(at: Pc): nat {
    match at
    case CreateStorage => 1
    case DeleteJob => 3
    case DeleteScratch => 4
    case CreateScratch => 3
    case GetScratch => 4
    case GetStorage => 5
    case CreateJob => 6
    case GetJob => 7
    case Upsert(RpcPod, Filing) => 5
    case Upsert(RpcPod, Fetching) => 6
    case Upsert(RpcPod, Repairing(_)) => 7
    case DeletePod => 8
    case ProbePod => 8
    case FindOldMonitor => 10
    case DeleteOldMonitor => 11
    case FindPod => 10
    case Upsert(_, Filing) => 11
    case Upsert(_, Fetching) => 12
    case Upsert(_, Repairing(_)) => 13
    case Storing(Initialize) => 0
    case Storing(ResetRestore) => 2
    case Storing(SkipRestore) => 3
    case Storing(StartRestore) => 7
    case Storing(FinishRestore(_)) => 8
    case Storing(FailRestore(_)) => 8
    case Storing(MarkCreating(_)) => 6
    case Storing(MarkCatchingUp) => 9
  }

  lemma PodIsJudgedLate(n: Name, rpc: Rpc, pod: Pod)
    ensures var q := JudgePod(rpc, pod); q.Running? && 8 <= Rank(q.at) <= 10
    ensures At(JudgePod(rpc, pod), DeletePod) <==> Unhealthy(pod.status)
  {
  }

  /** Where a pass can go once `CreateOrReconcile` has read the object. */
  lemma UpsertMovesForward(n: Name, rpc: Rpc, slot: Slot, repaired: Repaired)
    requires slot == RpcPod || slot == Monitor
    requires repaired.Settled? ==> KindOf(repaired.payload) == SlotKind(slot)
    ensures var q := UpsertRepairs(rpc, slot, repaired);
            q.Running? ==> Rank(Upsert(slot, Fetching)) < Rank(q.at) <= 13 && (slot == Monitor ==> q.at != DeletePod)
  {
    if repaired.Settled? && slot == RpcPod {
      PodIsJudgedLate(n, rpc, repaired.payload.pod);
    }
  }

  lemma PlainMovesForward(n: Name, p: Process, answer: Response, now: int)
    requires p.Running? && !p.at.Storing? && !p.at.Upsert?
    ensures var q := Resume(n, p, answer, now);
            q.Running? ==> Rank(p.at) < Rank(q.at) <= 13 && q.at != DeletePod
  {
  }

  /** A pass only moves forward, so it makes each call at most once and at most fifteen calls in all. A pass that
      created the pod never deletes it: the only way to the deletion is through the pod it found. */
  lemma PassesMoveForward(n: Name, p: Process, answer: Response, now: int)
    requires Local(n, p) && p.Running?
    requires AnswerFits(Ask(n, p, now), answer)
    ensures var q := Resume(n, p, answer, now);
            && (q.Running? ==> Rank(p.at) < Rank(q.at) <= 13)
            && (At(q, DeletePod) ==> p.at.Upsert? && p.at.slot == RpcPod && p.at.stage != Filing)
  {
    match p.at {
      case Upsert(slot, Filing) =>
      case Upsert(slot, Fetching) =>
        if answer.Accepted? {
          var repaired := Repair(answer.payload, Reconcilers(slot, n, p.rpc.spec));
          if repaired.Settled? {
            RepairFits(slot, n, p.rpc.spec, answer.payload);
          }
          UpsertMovesForward(n, p.rpc, slot, repaired);
        }
      case Upsert(slot, Repairing(_)) =>
        if answer.Accepted? && slot == RpcPod {
          PodIsJudgedLate(n, p.rpc, answer.payload.pod);
        }
      case Storing(w) =>
        StoringMovesForward(n, p.rpc.(conditions := Write(p.rpc.conditions, w, now)), w);
      case _ =>
        PlainMovesForward(n, p, answer, now);
    }
  }

  lemma StoringMovesForward(n: Name, rpc: Rpc, w: StatusWrite)
    requires w.MarkCreating? ==> w.made.status == FRESH_STATUS
    ensures var q := AfterStore(rpc, w);
            q.Running? ==> Rank(Storing(w)) < Rank(q.at) <= 13 && q.at != DeletePod
  {
    if w.MarkCreating? {
      PodIsJudgedLate(n, rpc, w.made);
    }
  }

  /** A pass that deletes the pod asks to be run again at once. */
  lemma DeletionRequeues(n: Name, s: Sys, reply: Reply, now: int)
    requires Sound(n, s) && At(s.process, DeletePod)
    ensures var next := CallStep(n, s, reply, now);
            if RpcPod in WorldOf(s) && reply.Answered?
            then
              && next.process.Resting? && next.process.last.Completed? && next.process.last.result.requeue
              && RpcPod !in WorldOf(next)
            else next.process.Resting? && next.process.last.Errored?
  {
  }

  /** The program points from the creation of the pod to the end of the pass. */
  predicate PodMade(p: Process) {
    p.Running? ==>
      || p.at.ProbePod? || p.at.FindOldMonitor? || p.at.DeleteOldMonitor? || p.at.FindPod?
      || (p.at.Upsert? && p.at.slot == Monitor)
      || (p.at.Storing? && (p.at.write.MarkCreating? || p.at.write.MarkCatchingUp?))
  }

  lemma CreationMakesPod(n: Name, p: Process, answer: Response, now: int)
    requires At(p, Upsert(RpcPod, Filing)) && answer.Accepted?
    ensures PodMade(Resume(n, p, answer, now))
  {
  }

  lemma MadePodStays(n: Name, p: Process, answer: Response, now: int)
    requires Local(n, p) && PodMade(p) && p.Running?
    requires AnswerFits(Ask(n, p, now), answer)
    ensures PodMade(Resume(n, p, answer, now))
    ensures Ask(n, p, now) != Delete(RpcPod)
  {
    if p.at.Upsert? {
      MonitorStepStays(n, p, answer, now);
    }
  }

  lemma MonitorConclusionStays(rpc: Rpc, repaired: Repaired)
    requires repaired.Settled? ==> repaired.payload.MonitorObject?
    ensures PodMade(UpsertRepairs(rpc, Monitor, repaired))
  {
  }

  lemma MonitorStepStays(n: Name, p: Process, answer: Response, now: int)
    requires p.Running? && p.at.Upsert? && p.at.slot == Monitor
    requires AnswerFits(Ask(n, p, now), answer)
    ensures PodMade(Resume(n, p, answer, now))
  {
    match p.at.stage {
      case Filing =>
      case Repairing(_) =>
      case Fetching =>
        if answer.Accepted? {
          var repaired := Repair(answer.payload, Reconcilers(Monitor, n, p.rpc.spec));
          if repaired.Settled? {
            RepairFits(Monitor, n, p.rpc.spec, answer.payload);
          }
          MonitorConclusionStays(p.rpc, repaired);
        }
    }
  }

  lemma CallKeepsMadePod(n: Name, s: Sys, reply: Reply, now: int)
    requires Sound(n, s) && PodMade(s.process) && s.process.Running?
    ensures var next := CallStep(n, s, reply, now); Sound(n, next) && PodMade(next.process)
    ensures Ask(n, s.process, now) != Delete(RpcPod)
  {
    CallKeepsSound(n, s, reply, now);
    AskFits(n, s, reply, now);
    MadePodStays(n, s.process, Serve(s.cluster, Ask(n, s.process, now), reply).1, now);
  }

  lemma {:induction false} EnvIsSound(n: Name, s: Sys, env: seq<Action<Slot>>)
    requires Sound(n, s)
    ensures Sound(n, EnvSteps(s, env)) && EnvSteps(s, env).process == s.process
    decreases |env|
  {
    if |env| > 0 {
      EnvKeepsSound(n, s, env[0]);
      EnvIsSound(n, EnvStep(s, env[0]), env[1..]);
    }
  }

  lemma TickKeepsMadePod(n: Name, s: Sys, t: Tick<Slot>)
    requires Sound(n, s) && PodMade(s.process) && s.process.Running?
    ensures var b := EnvSteps(s, t.env); b.process == s.process && Ask(n, b.process, t.now) != Delete(RpcPod)
    ensures var next := Step(n, s, t); Sound(n, next) && PodMade(next.process)
  {
    EnvIsSound(n, s, t.env);
    CallKeepsMadePod(n, EnvSteps(s, t.env), t.reply, t.now);
  }

  /** The pass goes on through all the ticks. */
  predicate StaysRunning(n: Name, from: Sys, ticks: seq<Tick<Slot>>) {
    && Exec(n, from, ticks).process.Running?
    && (|ticks| > 0 ==> StaysRunning(n, from, ticks[..|ticks| - 1]))
  }

  lemma {:induction false} PodStaysMade(n: Name, from: Sys, ticks: seq<Tick<Slot>>)
    requires Sound(n, from) && PodMade(from.process) && StaysRunning(n, from, ticks)
    ensures Sound(n, Exec(n, from, ticks)) && PodMade(Exec(n, from, ticks).process)
  {
    if |ticks| > 0 {
      var earlier := ticks[..|ticks| - 1];
      PodStaysMade(n, from, earlier);
      assert StaysRunning(n, from, earlier);
      TickKeepsMadePod(n, Exec(n, from, earlier), ticks[|ticks| - 1]);
    }
  }

  /** As long as a pass that created the pod goes on, whatever happens around it, it does not delete that pod. */
  lemma CreatingPassKeepsPod(n: Name, s: Sys, now: int, ticks: seq<Tick<Slot>>, t: Tick<Slot>)
    requires Sound(n, s) && At(s.process, Upsert(RpcPod, Filing)) && RpcPod !in WorldOf(s)
    requires StaysRunning(n, CallStep(n, s, Answered, now), ticks)
    ensures Ask(n, Before(n, CallStep(n, s, Answered, now), ticks, t).process, t.now) != Delete(RpcPod)
  {
    var from := CallStep(n, s, Answered, now);
    CallKeepsSound(n, s, Answered, now);
    CreationMakesPod(n, s.process, Serve(s.cluster, Ask(n, s.process, now), Answered).1, now);
    PodStaysMade(n, from, ticks);
    TickKeepsMadePod(n, Exec(n, from, ticks), t);
  }

  // ---- A pod that is not there is made ----

  /** The program points of a pass that has found a true restore status, up to the pod. */
  predicate BeforePod(p: Process, rpc: Rpc) {
    && p.Running? && p.rpc == rpc && Restored(rpc.conditions)
    && (p.at == CreateStorage || p.at == DeleteJob || p.at == DeleteScratch || p.at == Upsert(RpcPod, Filing))
  }

  /** The call looks after the pod, which is there afterwards; if it was not there before, it is the wanted one. */
  predicate MakesPodSure(n: Name, b: Sys, next: Sys, rpc: Rpc) {
    && At(b.process, Upsert(RpcPod, Filing)) && b.process.rpc == rpc
    && RpcPod in WorldOf(next)
    && (RpcPod !in WorldOf(b) ==> WorldOf(next)[RpcPod] == PodObject(GetWantedPod(n, rpc.spec)))
  }

  /** The call creates the storage claim, which sends the pass back to the restore. */
  predicate MakesStorageAnew(b: Sys, next: Sys) {
    Storage !in WorldOf(b) && Resetting(next.process)
  }

  lemma CallNearsPod(n: Name, b: Sys, reply: Reply, now: int, rpc: Rpc)
    requires Sound(n, b) && BeforePod(b.process, rpc)
    ensures var next := CallStep(n, b, reply, now);
            || BeforePod(next.process, rpc) || MakesPodSure(n, b, next, rpc) || MakesStorageAnew(b, next)
            || (next.process.Resting? && next.process.last.Errored?)
  {
    hide Repair;
  }

  lemma TickNearsPod(n: Name, s: Sys, t: Tick<Slot>, rpc: Rpc)
    requires Sound(n, s) && BeforePod(s.process, rpc)
    ensures var b, next := EnvSteps(s, t.env), Step(n, s, t);
            && Sound(n, next)
            && (|| BeforePod(next.process, rpc) || MakesPodSure(n, b, next, rpc) || MakesStorageAnew(b, next)
                || (next.process.Resting? && next.process.last.Errored?))
  {
    hide Sound, CallStep;
    EnvIsSound(n, s, t.env);
    CallNearsPod(n, EnvSteps(s, t.env), t.reply, t.now, rpc);
    CallKeepsSound(n, EnvSteps(s, t.env), t.reply, t.now);
  }

  /** Some call of the run looked after the pod, or had to create the storage claim first. */
  ghost predicate PodWasSeenTo(n: Name, s: Sys, ticks: seq<Tick<Slot>>, rpc: Rpc) {
    |ticks| > 0 &&
    (var earlier, last := ticks[..|ticks| - 1], ticks[|ticks| - 1];
     var b, next := Before(n, s, earlier, last), Exec(n, s, ticks);
     MakesPodSure(n, b, next, rpc) || MakesStorageAnew(b, next) || PodWasSeenTo(n, s, earlier, rpc))
  }

  /** A pass that found a true restore status, and did not end in an error, has seen to the pod, whatever happened
      around it: a pod that was missing was made as wanted. The one exception is a pass that had to create the storage
      claim. */
  lemma {:induction false} ErrorFreePassSeesToPod(n: Name, s: Sys, ticks: seq<Tick<Slot>>, rpc: Rpc)
    requires Sound(n, s) && BeforePod(s.process, rpc)
    requires |ticks| > 0 ==> StaysRunning(n, s, ticks[..|ticks| - 1])
    ensures Sound(n, Exec(n, s, ticks))
    ensures var p := Exec(n, s, ticks).process;
            BeforePod(p, rpc) || PodWasSeenTo(n, s, ticks, rpc) || (p.Resting? && p.last.Errored?)
  {
    hide Sound, BeforePod, MakesPodSure, MakesStorageAnew, Step;
    if |ticks| > 0 {
      var earlier, last := ticks[..|ticks| - 1], ticks[|ticks| - 1];
      ErrorFreePassSeesToPod(n, s, earlier, rpc);
      TickIsSound(n, Exec(n, s, earlier), last);
      if BeforePod(Exec(n, s, earlier).process, rpc) {
        TickNearsPod(n, Exec(n, s, earlier), last, rpc);
      }
    }
  }

  lemma TickIsSound(n: Name, s: Sys, t: Tick<Slot>)
    requires Sound(n, s)
    ensures Sound(n, Step(n, s, t))
  {
    EnvIsSound(n, s, t.env);
    CallKeepsSound(n, EnvSteps(s, t.env), t.reply, t.now);
  }

  // ---- No lost wake-up ----

  predicate WakesUp(e: Ending) {
    e.Errored? || e.result.requeueAfter > 0
  }

  /** A pass that ends quietly had seen a true restore status, and holds it still. */
  lemma QuietEndIsRestored(n: Name, p: Process, answer: Response, now: int)
    requires Local(n, p) && p.Running?
    requires Resume(n, p, answer, now).Resting? && !WakesUp(Resume(n, p, answer, now).last)
    ensures Behind(p) && Restored(p.rpc.conditions)
    ensures p.at.Storing? ==> p.at.write.MarkCreating? || p.at.write.MarkCatchingUp?
  {
  }

  /** In every run: a pass for an existing resource that ends while the stored restore status is not true returns an
      error or asks to be run again after a positive delay. */
  lemma NoLostWakeUp(n: Name, ticks: seq<Tick<Slot>>, t: Tick<Slot>)
    ensures var s, next := Before(n, INIT, ticks, t), Step(n, Exec(n, INIT, ticks), t);
            var w := WorldOf(next);
            next.process.Resting? && TheRpc in w && w[TheRpc].RpcObject? && !Restored(w[TheRpc].rpc.conditions)
            && (s.process.Running? ==> Current(w, s.process.rpc)) ==>
              WakesUp(next.process.last)
  {
    RunsAreSound(n, ticks, t);
    var s, next := Before(n, INIT, ticks, t), Step(n, Exec(n, INIT, ticks), t);
    var p, answer := s.process, Serve(s.cluster, Ask(n, s.process, t.now), t.reply).1;
    if next.process.Resting? && !WakesUp(next.process.last) && p.Running? {
      QuietEndIsRestored(n, p, answer, t.now);
      if p.at.Storing? {
        WriteShapes(p.rpc.conditions, p.at.write, t.now);
      }
    }
  }

  // ---- The gate ----

  /** The restore step hands over, to the pod or to the guard in front of it. */
  predicate HandsOver(p: Process, answer: Response) {
    (At(p, DeleteScratch) && Gone(answer)) || (At(p, Storing(SkipRestore)) && answer.Accepted?)
  }

  /** In every run, when the restore step returns without an error the restore status is true both in the pass's copy
      and in the store; the guard after it never fires. */
  lemma GateAgrees(n: Name, ticks: seq<Tick<Slot>>, t: Tick<Slot>)
    ensures var s, next := Before(n, INIT, ticks, t), Step(n, Exec(n, INIT, ticks), t);
            HandsOver(s.process, Serve(s.cluster, Ask(n, s.process, t.now), t.reply).1) ==>
              && At(next.process, Upsert(RpcPod, Filing))
              && Restored(next.process.rpc.conditions)
              && (Current(WorldOf(next), next.process.rpc) ==>
                    WorldOf(next)[TheRpc].rpc.conditions == next.process.rpc.conditions)
  {
    RunsAreSound(n, ticks, t);
    var s := Before(n, INIT, ticks, t);
    if At(s.process, Storing(SkipRestore)) {
      WriteShapes(s.process.rpc.conditions, SkipRestore, t.now);
    }
  }

  /** The pass's copy and the store agree whenever a call is made, so at every object write. */
  lemma CopyAgreesAtEveryCall(n: Name, ticks: seq<Tick<Slot>>, t: Tick<Slot>)
    ensures var s := Before(n, INIT, ticks, t);
            s.process.Running? && Current(WorldOf(s), s.process.rpc) ==>
              WorldOf(s)[TheRpc].rpc.conditions == s.process.rpc.conditions
  {
    RunsAreSound(n, ticks, t);
  }
}
