/** What every reachable state looks like: well-typed objects, a process that is where its own copy of the resource
    says it can be, and agreement between that copy and the stored one. */
module Soundness {
  import opened Objects
  import opened Conditions
  import opened Names
  import opened Server
  import opened Drift
  import opened Monitoring
  import opened Workload
  import opened Process
  import opened Machine

  predicate Typed(w: World) {
    forall k :: k in w ==> KindOf(w[k]) == SlotKind(k)
  }

  predicate StoredShape(conditions: seq<Condition>) {
    conditions == [] || Shaped(conditions)
  }

  /** The program points before the gate, where the data still has to be restored. */
  predicate InRestore(at: Pc) {
    || at.CreateScratch? || at.GetScratch? || at.GetStorage? || at.CreateJob? || at.GetJob?
    || (at.Storing? && (at.write.StartRestore? || at.write.FinishRestore? || at.write.FailRestore?))
  }

  /** The program points where the pass has not looked at the restore status yet. */
  predicate Preparing(at: Pc) {
    at.CreateStorage? || (at.Storing? && (at.write.Initialize? || at.write.ResetRestore?))
  }

  /** The pod has the image its resource asks for, and works on the storage claim. */
  predicate PodFits(n: Name, spec: Spec, pod: Pod) {
    pod.image == GetPodImage(spec) && PodMounts(n, pod)
  }

  predicate LocalPc(n: Name, at: Pc, rpc: Rpc) {
    match at
    case Upsert(RpcPod, stage) =>
      stage.Repairing? ==> stage.changed.PodObject? && PodFits(n, rpc.spec, stage.changed.pod)
    case Upsert(Monitor, stage) =>
      && MonitorEnabled(rpc.spec)
      && (stage.Repairing? ==> stage.changed.MonitorObject? && WrittenMonitor(stage.changed.monitor, n, rpc.spec))
    case Upsert(_, _) => false
    case FindPod => MonitorEnabled(rpc.spec)
    case FindOldMonitor => !MonitorEnabled(rpc.spec)
    case DeleteOldMonitor => !MonitorEnabled(rpc.spec)
    case Storing(FinishRestore(job)) => job.succeeded > 0
    case Storing(FailRestore(job)) => job.succeeded == 0 && job.failed > 0
    case Storing(MarkCreating(pod)) => pod == GetWantedPod(n, rpc.spec)
    case _ => true
  }

  /** What a running pass knows from its own copy of the resource. */
  predicate Local(n: Name, p: Process) {
    p.Running? ==>
      && (if p.at == Storing(Initialize) then p.rpc.conditions == [] else Shaped(p.rpc.conditions))
      && LocalPc(n, p.at, p.rpc)
      && (InRestore(p.at) ==> !Restored(p.rpc.conditions) && RestoreEnabled(p.rpc.spec))
      && (p.at == Storing(SkipRestore) ==> !Restored(p.rpc.conditions) && !RestoreEnabled(p.rpc.spec))
      && (!Preparing(p.at) && !InRestore(p.at) && p.at != Storing(SkipRestore) ==> Restored(p.rpc.conditions))
  }

  /** The pass and the store hold the same conditions; a resource that replaced the pass's own has none yet. */
  predicate Agree(w: World, p: Process) {
    p.Running? && TheRpc in w && w[TheRpc].RpcObject? ==>
      w[TheRpc].rpc.conditions == if w[TheRpc].rpc.uid == p.rpc.uid then p.rpc.conditions else []
  }

  predicate Stored(s: Sys) {
    var w := WorldOf(s);
    && Typed(w)
    && (TheRpc in w ==> w[TheRpc].rpc.uid < s.cluster.births && StoredShape(w[TheRpc].rpc.conditions))
    && (s.process.Running? ==> s.process.rpc.uid < s.cluster.births)
  }

  /** The stored Job and pod work on the claims of their resource. */
  predicate Mounting(n: Name, w: World) {
    && (RestoreJob in w ==> w[RestoreJob].JobObject? && JobMounts(n, w[RestoreJob].job))
    && (RpcPod in w ==> w[RpcPod].PodObject? && PodMounts(n, w[RpcPod].pod))
  }

  predicate Sound(n: Name, s: Sys) {
    Stored(s) && Mounting(n, WorldOf(s)) && Local(n, s.process) && Agree(WorldOf(s), s.process)
  }

  // ---- Kept by the environment ----

  lemma EnvKeepsSound(n: Name, s: Sys, a: Action<Slot>)
    requires Sound(n, s)
    ensures Sound(n, EnvStep(s, a))
  {
    EnvKeepsMounting(n, s, a);
    hide Mounting, Local;
  }

  lemma EnvKeepsMounting(n: Name, s: Sys, a: Action<Slot>)
    requires Mounting(n, WorldOf(s))
    ensures Mounting(n, WorldOf(EnvStep(s, a)))
  {
  }

  // ---- Kept by the operator ----

  predicate AnswerFits(r: Request<Slot>, answer: Response) {
    answer.Accepted? ==>
      && KindOf(answer.payload) == SlotKind(r.key)
      && (r.Create? ==> answer.payload == Admit(r.payload))
      && (r.Update? ==> KindOf(r.payload) == SlotKind(r.key))
  }

  /** A pod in an answer works on the storage claim. */
  predicate AnswerMounts(n: Name, answer: Response) {
    answer.Accepted? && answer.payload.PodObject? ==> PodMounts(n, answer.payload.pod)
  }

  lemma AnswersMount(n: Name, s: Sys, reply: Reply, now: int)
    requires Sound(n, s)
    ensures var served := Serve(s.cluster, Ask(n, s.process, now), reply);
            AnswerMounts(n, served.1) && Mounting(n, served.0.objects)
  {
    AskMounts(n, s.process, now);
    hide Ask, Local, Agree;
    ServingMounts(n, s.cluster, Ask(n, s.process, now), reply);
  }

  /** What is sent is of the right kind, and works on the right claims. */
  predicate RequestMounts(n: Name, r: Request<Slot>) {
    r.Create? || r.Update? ==>
      && KindOf(r.payload) == SlotKind(r.key)
      && (r.payload.JobObject? ==> r.Create? && JobMounts(n, r.payload.job))
      && (r.payload.PodObject? ==> PodMounts(n, r.payload.pod))
  }

  lemma AskMounts(n: Name, p: Process, now: int)
    requires Local(n, p)
    ensures RequestMounts(n, Ask(n, p, now))
  {
    hide WrittenMonitor, Write, GetWantedPodMonitor;
  }

  lemma ServingMounts(n: Name, c: Cluster<Slot>, r: Request<Slot>, reply: Reply)
    requires Typed(c.objects) && Mounting(n, c.objects) && RequestMounts(n, r)
    ensures AnswerMounts(n, Serve(c, r, reply).1) && Mounting(n, Serve(c, r, reply).0.objects)
  {
  }

  lemma AskFits(n: Name, s: Sys, reply: Reply, now: int)
    requires Sound(n, s)
    ensures var r := Ask(n, s.process, now);
            && (r.Create? || r.Update? ==> KindOf(r.payload) == SlotKind(r.key))
            && AnswerFits(r, Serve(s.cluster, r, reply).1)
            && Typed(Serve(s.cluster, r, reply).0.objects)
  {
  }

  lemma RepairFits(s: Slot, n: Name, spec: Spec, o: Object)
    requires KindOf(o) == SlotKind(s)
    requires s == RpcPod || s == Monitor
    requires Repair(o, Reconcilers(s, n, spec)).Settled?
    ensures KindOf(Repair(o, Reconcilers(s, n, spec)).payload) == KindOf(o)
    ensures s == RpcPod ==> Repair(o, Reconcilers(s, n, spec)).payload.pod == o.pod.(image := GetPodImage(spec))
    ensures var repaired := Repair(o, Reconcilers(s, n, spec));
            s == Monitor && repaired.updated ==> WrittenMonitor(repaired.payload.monitor, n, spec)
  {
    assert Reconcilers(s, n, spec)[1..] == [];
    if s == Monitor {
      RefreshWrites(o.monitor, n, spec);
    }
    hide Inspect, Refresh, WrittenMonitor;
  }

  /** The status writes of the restore step end it, with the status they wrote. */
  predicate WrittenFor(rpc: Rpc, w: StatusWrite) {
    && Shaped(rpc.conditions)
    && (w.SkipRestore? || w.FinishRestore? || w.MarkCreating? || w.MarkCatchingUp? ==> Restored(rpc.conditions))
  }

  lemma AfterStoreKeepsLocal(n: Name, rpc: Rpc, w: StatusWrite)
    requires WrittenFor(rpc, w)
    ensures Local(n, AfterStore(rpc, w))
  {
  }

  lemma WrittenAsWanted(n: Name, rpc: Rpc, w: StatusWrite, now: int)
    requires Local(n, Running(Storing(w), rpc))
    ensures WrittenFor(rpc.(conditions := Write(rpc.conditions, w, now)), w)
  {
    WriteShapes(rpc.conditions, w, now);
  }

  lemma StoringKeepsLocal(n: Name, rpc: Rpc, w: StatusWrite, answer: Response, now: int)
    requires Local(n, Running(Storing(w), rpc))
    ensures Local(n, Resume(n, Running(Storing(w), rpc), answer, now))
  {
    WrittenAsWanted(n, rpc, w, now);
    AfterStoreKeepsLocal(n, rpc.(conditions := Write(rpc.conditions, w, now)), w);
  }

  lemma SettledKeepsLocal(n: Name, rpc: Rpc, slot: Slot, o: Object)
    requires Local(n, Running(Upsert(slot, Filing), rpc))
    ensures Local(n, UpsertSettles(rpc, slot, o))
  {
  }

  lemma RepairsKeepLocal(n: Name, rpc: Rpc, slot: Slot, repaired: Repaired)
    requires Local(n, Running(Upsert(slot, Fetching), rpc))
    requires repaired.Settled? ==> KindOf(repaired.payload) == SlotKind(slot)
    requires repaired.Settled? && slot == RpcPod ==> PodFits(n, rpc.spec, repaired.payload.pod)
    requires repaired.Settled? && repaired.updated && slot == Monitor ==>
               WrittenMonitor(repaired.payload.monitor, n, rpc.spec)
    ensures Local(n, UpsertRepairs(rpc, slot, repaired))
  {
    if repaired.Settled? {
      SettledKeepsLocal(n, rpc, slot, repaired.payload);
    }
  }

  lemma UpsertKeepsLocal(n: Name, rpc: Rpc, slot: Slot, stage: Stage, answer: Response, now: int)
    requires Local(n, Running(Upsert(slot, stage), rpc)) && AnswerMounts(n, answer)
    requires AnswerFits(Ask(n, Running(Upsert(slot, stage), rpc), now), answer)
    ensures Local(n, Resume(n, Running(Upsert(slot, stage), rpc), answer, now))
  {
    hide Inspect, Refresh, WrittenMonitor, GetWantedPodMonitor;
    match stage {
      case Filing =>
      case Fetching =>
        if answer.Accepted? {
          var repaired := Repair(answer.payload, Reconcilers(slot, n, rpc.spec));
          if repaired.Settled? {
            RepairFits(slot, n, rpc.spec, answer.payload);
          }
          hide Repair, LocalPc;
          RepairsKeepLocal(n, rpc, slot, repaired);
        }
      case Repairing(_) =>
        if answer.Accepted? {
          SettledKeepsLocal(n, rpc, slot, answer.payload);
        }
    }
  }

  lemma ResumeKeepsLocal(n: Name, p: Process, answer: Response, now: int)
    requires Local(n, p) && AnswerMounts(n, answer)
    requires AnswerFits(Ask(n, p, now), answer)
    requires p.Resting? && answer.Accepted? ==> StoredShape(answer.payload.rpc.conditions)
    ensures Local(n, Resume(n, p, answer, now))
  {
    if p.Running? && p.at.Storing? {
      StoringKeepsLocal(n, p.rpc, p.at.write, answer, now);
    } else if p.Running? && p.at.Upsert? {
      UpsertKeepsLocal(n, p.rpc, p.at.slot, p.at.stage, answer, now);
    } else {
      hide Repair, UpsertRepairs, AfterStore;
    }
  }

  /** A pass changes its own copy of the resource only when a status write goes through. */
  lemma ResumeKeepsCopy(n: Name, p: Process, answer: Response, now: int)
    requires p.Running? && Resume(n, p, answer, now).Running?
    ensures Resume(n, p, answer, now).rpc ==
            if p.at.Storing? then p.rpc.(conditions := Write(p.rpc.conditions, p.at.write, now)) else p.rpc
  {
  }

  lemma CallKeepsAgreement(n: Name, s: Sys, reply: Reply, now: int)
    requires Sound(n, s)
    ensures Agree(Serve(s.cluster, Ask(n, s.process, now), reply).0.objects, CallStep(n, s, reply, now).process)
  {
    AskFits(n, s, reply, now);
    if s.process.Resting? {
      FetchedAgrees(n, s, reply, now);
    } else if CallStep(n, s, reply, now).process.Running? {
      hide Resume;
      ResumeKeepsCopy(n, s.process, Serve(s.cluster, Ask(n, s.process, now), reply).1, now);
      if s.process.at.Storing? {
        StoredIsWritten(n, s, reply, now);
      }
    }
  }

  lemma FetchedAgrees(n: Name, s: Sys, reply: Reply, now: int)
    requires Sound(n, s) && s.process.Resting?
    ensures Agree(Serve(s.cluster, Ask(n, s.process, now), reply).0.objects, CallStep(n, s, reply, now).process)
  {
  }

  /** A pass that goes on after a status write has written what it then holds. */
  lemma StoredIsWritten(n: Name, s: Sys, reply: Reply, now: int)
    requires Sound(n, s) && s.process.Running? && s.process.at.Storing?
    requires CallStep(n, s, reply, now).process.Running?
    ensures Serve(s.cluster, Ask(n, s.process, now), reply).1.Accepted?
  {
  }

  /** The resource in the store, after a call: only a status write changes it, and only its conditions. */
  lemma CallKeepsResource(n: Name, s: Sys, reply: Reply, now: int)
    requires Sound(n, s)
    ensures Stored(Sys(Serve(s.cluster, Ask(n, s.process, now), reply).0, Finish(DONE), s.history))
    ensures Serve(s.cluster, Ask(n, s.process, now), reply).0.births == s.cluster.births
  {
    AskFits(n, s, reply, now);
    if s.process.Running? && s.process.at.Storing? {
      WriteShapes(s.process.rpc.conditions, s.process.at.write, now);
    }
  }

  lemma FetchedIsKnown(n: Name, s: Sys, reply: Reply, now: int)
    requires Sound(n, s) && s.process.Resting?
    ensures var q := CallStep(n, s, reply, now).process; q.Running? ==> q.rpc.uid < s.cluster.births
  {
  }

  lemma CallKeepsStored(n: Name, s: Sys, reply: Reply, now: int)
    requires Sound(n, s)
    ensures Stored(CallStep(n, s, reply, now))
  {
    hide Resume, Ask, Serve;
    CallKeepsResource(n, s, reply, now);
    if s.process.Resting? {
      FetchedIsKnown(n, s, reply, now);
    } else if CallStep(n, s, reply, now).process.Running? {
      ResumeKeepsCopy(n, s.process, Serve(s.cluster, Ask(n, s.process, now), reply).1, now);
    }
  }

  lemma CallKeepsSound(n: Name, s: Sys, reply: Reply, now: int)
    requires Sound(n, s)
    ensures Sound(n, CallStep(n, s, reply, now))
  {
    AskFits(n, s, reply, now);
    AnswersMount(n, s, reply, now);
    ResumeKeepsLocal(n, s.process, Serve(s.cluster, Ask(n, s.process, now), reply).1, now);
    CallKeepsAgreement(n, s, reply, now);
    CallKeepsStored(n, s, reply, now);
    hide Stored, Mounting, Local, Agree, Ask, Serve, Resume;
  }
}
