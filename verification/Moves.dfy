/** One API call of the operator, summed up: what it can change in the world and where it can take the process. */
module Moves {
  import opened Objects
  import opened Conditions
  import opened Names
  import opened Server
  import opened Process
  import opened Machine
  import opened Soundness

  predicate Resetting(p: Process) {
    p.Running? && p.at == Storing(ResetRestore)
  }

  /** The pass is storing its conditions and the write takes effect. */
  predicate Writes(w: World, p: Process, reply: Reply) {
    p.Running? && p.at.Storing? && Current(w, p.rpc) && !reply.Rejected?
  }

  predicate At(p: Process, at: Pc) {
    p.Running? && p.at == at
  }

  ghost predicate ObjectsMove(w: World, p: Process, reply: Reply, after: World) {
    && (Storage in w ==> Storage in after)
    && (Storage in after && Storage !in w ==> At(p, CreateStorage) && !reply.Rejected?)
    && (HasSucceeded(after) ==> HasSucceeded(w))
    && (RestoreJob in after && RestoreJob !in w ==> At(p, CreateJob) && !reply.Rejected?)
    && (Scratch in after && Scratch !in w ==> At(p, CreateScratch) && !reply.Rejected?)
    && (RpcPod in after && RpcPod !in w ==> At(p, Upsert(RpcPod, Filing)) && !reply.Rejected?)
  }

  ghost predicate WorldMoves(w: World, p: Process, reply: Reply, now: int, after: World) {
    && ObjectsMove(w, p, reply, after)
    && (TheRpc in after <==> TheRpc in w)
    && (TheRpc in w ==>
          && w[TheRpc].RpcObject?
          && after[TheRpc] == RpcObject(w[TheRpc].rpc.(conditions :=
                if Writes(w, p, reply) then Write(p.rpc.conditions, p.at.write, now) else w[TheRpc].rpc.conditions)))
  }

  ghost predicate ProcessMoves(w: World, p: Process, reply: Reply, now: int, q: Process) {
    && (At(p, CreateStorage) && Storage !in w && reply.Answered? ==> Resetting(q))
    && (q.Running? ==>
      && (p.Resting? ==>
            TheRpc in w && w[TheRpc].RpcObject? && q.rpc == w[TheRpc].rpc && Preparing(q.at) && !Resetting(q))
      && (p.Running? && p.at.Storing? ==>
            reply.Answered? && Writes(w, p, reply)
            && q.rpc == p.rpc.(conditions := Write(p.rpc.conditions, p.at.write, now)))
      && (p.Running? && !p.at.Storing? ==> q.rpc == p.rpc)
      && (Resetting(q) ==> At(p, CreateStorage) && Storage !in w)
      && (At(p, CreateStorage) && !Resetting(q) ==> Storage in w)
      && (q.at.Storing? && (q.at.write.FinishRestore? || q.at.write.FailRestore?) ==>
            At(p, GetJob) && RestoreJob in w && w[RestoreJob] == JobObject(q.at.write.seen)))
  }

  /** The program points behind the gate, with the restore Job already deleted or never wanted. */
  predicate PastGate(at: Pc) {
    !Preparing(at) && !InRestore(at) && at != Storing(SkipRestore) && !at.DeleteJob?
  }

  predicate Behind(p: Process) {
    p.Running? && PastGate(p.at)
  }

  /** The program points at which the pass has not made sure of its storage claim yet. */
  predicate Early(p: Process) {
    p.Running? && (p.at == CreateStorage || p.at == Storing(Initialize))
  }

  /** How a pass gets behind the gate, and what its deletions have achieved by then. */
  ghost predicate Passes(p: Process, after: World, q: Process) {
    && (Behind(q) ==> Behind(p) || At(p, DeleteJob) || At(p, Storing(SkipRestore)))
    && (At(p, DeleteJob) && q.Running? ==> At(q, DeleteScratch) && RestoreJob !in after)
    && (At(p, DeleteScratch) && q.Running? ==> At(q, Upsert(RpcPod, Filing)) && Scratch !in after)
    && (At(q, DeleteScratch) ==> At(p, DeleteJob))
    && (At(q, CreateStorage) ==> p.Resting? || At(p, Storing(Initialize)))
    && (At(q, DeleteJob) ==> At(p, CreateStorage) || Resetting(p))
    && (At(q, Upsert(RpcPod, Filing)) ==> At(p, DeleteScratch) || At(p, Storing(SkipRestore)))
    && (At(p, CreateStorage) && q.Running? ==> Storage in after)
    && (q.Running? && !Early(q) ==> p.Running? && (!Early(p) || At(p, CreateStorage)))
    && (q.Running? && (InRestore(q.at) || q.at == Storing(SkipRestore)) && p.Running? ==>
          Preparing(p.at) || InRestore(p.at))
  }

  lemma ResumePassesGate(n: Name, p: Process, answer: Response, now: int)
    requires Local(n, p)
    ensures var q := Resume(n, p, answer, now);
            && (Behind(q) ==> Behind(p) || At(p, DeleteJob) || At(p, Storing(SkipRestore)))
            && (q.Running? && (InRestore(q.at) || q.at == Storing(SkipRestore)) && p.Running? ==>
                  Preparing(p.at) || InRestore(p.at))
  {
  }

  lemma ResumePassesFrom(n: Name, p: Process, answer: Response, now: int)
    ensures var q := Resume(n, p, answer, now);
            && (At(q, CreateStorage) ==> p.Resting? || At(p, Storing(Initialize)))
            && (At(q, DeleteJob) ==> At(p, CreateStorage) || Resetting(p))
            && (At(q, Upsert(RpcPod, Filing)) ==> At(p, DeleteScratch) || At(p, Storing(SkipRestore)))
  {
  }

  lemma ResumePasses(n: Name, p: Process, answer: Response, now: int)
    requires Local(n, p)
    ensures var q := Resume(n, p, answer, now);
            && (At(p, DeleteJob) && q.Running? ==> At(q, DeleteScratch) && Gone(answer))
            && (At(p, DeleteScratch) && q.Running? ==> At(q, Upsert(RpcPod, Filing)) && Gone(answer))
            && (At(q, DeleteScratch) ==> At(p, DeleteJob))
            && (At(p, CreateStorage) && q.Running? ==> Present(answer))
            && (q.Running? && !Early(q) ==> p.Running? && (!Early(p) || At(p, CreateStorage)))
  {
  }

  lemma CallPasses(n: Name, s: Sys, reply: Reply, now: int)
    requires Sound(n, s)
    ensures Passes(s.process, WorldOf(CallStep(n, s, reply, now)), CallStep(n, s, reply, now).process)
  {
    ResumePassesGate(n, s.process, Serve(s.cluster, Ask(n, s.process, now), reply).1, now);
    ResumePassesFrom(n, s.process, Serve(s.cluster, Ask(n, s.process, now), reply).1, now);
    ResumePasses(n, s.process, Serve(s.cluster, Ask(n, s.process, now), reply).1, now);
  }

  lemma CallMovesObjects(n: Name, s: Sys, reply: Reply, now: int)
    requires Sound(n, s)
    ensures ObjectsMove(WorldOf(s), s.process, reply, WorldOf(CallStep(n, s, reply, now)))
  {
    hide Resume, RecordCall;
  }

  lemma CallMovesWorld(n: Name, s: Sys, reply: Reply, now: int)
    requires Sound(n, s)
    ensures WorldMoves(WorldOf(s), s.process, reply, now, WorldOf(CallStep(n, s, reply, now)))
  {
    hide Resume, RecordCall, ObjectsMove;
    CallMovesObjects(n, s, reply, now);
  }

  /** What the answer to a call says about the object it was about. */
  predicate AnswerTells(w: World, r: Request<Slot>, reply: Reply, answer: Response) {
    && (answer.Accepted? ==> reply.Answered?)
    && (answer.Accepted? && r.Create? ==> r.key !in w)
    && (answer.Accepted? && r.Get? ==> r.key in w && answer.payload == w[r.key])
    && (answer.Accepted? && r.PutStatus? ==> r.key in w && w[r.key].RpcObject? && w[r.key].rpc.uid == r.uid)
    && (answer.Refused? && answer.error.AlreadyExists? ==> r.Create? && r.key in w)
    && (r.Create? && r.key !in w && reply.Answered? ==> answer.Accepted?)
  }

  lemma ServeTells(c: Cluster<Slot>, r: Request<Slot>, reply: Reply)
    ensures AnswerTells(c.objects, r, reply, Serve(c, r, reply).1)
  {
  }

  lemma ResumeMoves(n: Name, w: World, p: Process, reply: Reply, answer: Response, now: int)
    requires AnswerTells(w, Ask(n, p, now), reply, answer)
    ensures ProcessMoves(w, p, reply, now, Resume(n, p, answer, now))
  {
    if p.Running? && Resume(n, p, answer, now).Running? {
      ResumeKeepsCopy(n, p, answer, now);
    }
  }

  lemma CallMovesProcess(n: Name, s: Sys, reply: Reply, now: int)
    requires Sound(n, s)
    ensures ProcessMoves(WorldOf(s), s.process, reply, now, CallStep(n, s, reply, now).process)
  {
    var r := Ask(n, s.process, now);
    ServeTells(s.cluster, r, reply);
    ResumeMoves(n, WorldOf(s), s.process, reply, Serve(s.cluster, r, reply).1, now);
  }

  /** Everything the invariants need to know about one call of the operator. */
  ghost predicate Moved(n: Name, s: Sys, reply: Reply, now: int, next: Sys) {
    && Sound(n, s) && Sound(n, next)
    && WorldMoves(WorldOf(s), s.process, reply, now, WorldOf(next))
    && ProcessMoves(WorldOf(s), s.process, reply, now, next.process)
    && Passes(s.process, WorldOf(next), next.process)
    && next.history == RecordCall(n, WorldOf(s), s.process, s.history, reply, WorldOf(next))
  }

  lemma CallsMove(n: Name, s: Sys, reply: Reply, now: int)
    requires Sound(n, s)
    ensures Moved(n, s, reply, now, CallStep(n, s, reply, now))
  {
    CallKeepsSound(n, s, reply, now);
    CallMovesWorld(n, s, reply, now);
    CallMovesProcess(n, s, reply, now);
    CallPasses(n, s, reply, now);
  }

  /** Induction over runs for a property of sound states: it is enough that the environment's actions and the moves of
      the operator keep it. The property then holds after every run, and whenever a call is made. */
  lemma SoundInvariant(n: Name, from: Sys, ticks: seq<Tick<Slot>>, t: Tick<Slot>, inv: Sys -> bool, rules: Rules)
    requires Obeys(n, from, ticks + [t], rules)
    requires Sound(n, from) && inv(from)
    requires forall s: Sys, a :: Sound(n, s) && inv(s) && rules.act(s, a) && Proper(a) ==> inv(EnvStep(s, a))
    requires forall s: Sys, reply, now, next ::
               inv(s) && rules.answer(s, reply) && Moved(n, s, reply, now, next) ==> inv(next)
    ensures Sound(n, Exec(n, from, ticks)) && inv(Exec(n, from, ticks))
    ensures Sound(n, Before(n, from, ticks, t)) && inv(Before(n, from, ticks, t))
    ensures Moved(n, Before(n, from, ticks, t), t.reply, t.now, Step(n, Exec(n, from, ticks), t))
    ensures inv(Step(n, Exec(n, from, ticks), t))
  {
    var both: Sys -> bool := s => Sound(n, s) && inv(s);
    forall s, a | both(s) && rules.act(s, a) && Proper(a) ensures both(EnvStep(s, a)) { EnvKeepsSound(n, s, a); }
    forall s, reply, now | both(s) && rules.answer(s, reply) ensures both(CallStep(n, s, reply, now)) {
      CallsMove(n, s, reply, now);
    }
    assert (ticks + [t])[..|ticks|] == ticks;
    RunInvariant(n, from, ticks, both, rules);
    EnvInvariant(Exec(n, from, ticks), t.env, both, rules);
    CallsMove(n, Before(n, from, ticks, t), t.reply, t.now);
  }

  lemma RunsAreSound(n: Name, ticks: seq<Tick<Slot>>, t: Tick<Slot>)
    ensures Sound(n, Exec(n, INIT, ticks)) && Sound(n, Before(n, INIT, ticks, t))
    ensures Moved(n, Before(n, INIT, ticks, t), t.reply, t.now, Step(n, Exec(n, INIT, ticks), t))
  {
    AllRunsAreFree(n, INIT, ticks + [t]);
    SoundInvariant(n, INIT, ticks, t, s => true, FREE);
  }
}
