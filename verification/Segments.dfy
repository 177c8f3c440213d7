/** A pass in which every call is answered, cut into the segments between its decisions. */
module Segments {
  import opened Objects
  import opened Conditions
  import opened Names
  import opened Server
  import opened Drift
  import opened Monitoring
  import opened Workload
  import opened Process
  import opened Machine
  import opened Moves

  /** Whose pass it is, what the readiness probe says, and when it happens; `R` is any relation between states that
      contains the calm calls and can be chained, and `rules` what it assumes of the other ticks it contains. Passes are
      assembled over such a relation, which keeps the runs themselves out of the proofs. */
  datatype Setting = Setting(n: Name, ready: bool, now: int, R: (Sys, Sys) -> bool, rules: Rules)

  function CalmReply(p: Process, ready: bool): Reply {
    if At(p, ProbePod) && !ready then Rejected else Answered
  }

  ghost predicate Calmly(c: Setting) {
    && (forall s: Sys {:trigger CallStep(c.n, s, CalmReply(s.process, c.ready), c.now)} ::
          s.process.Running? ==> c.R(s, CallStep(c.n, s, CalmReply(s.process, c.ready), c.now)))
    && (forall x, y, z :: c.R(x, y) && c.R(y, z) ==> c.R(x, z))
  }

  lemma CallLeads(c: Setting, s: Sys)
    requires Calmly(c) && s.process.Running? && CalmReply(s.process, c.ready) == Answered
    ensures c.R(s, CallStep(c.n, s, Answered, c.now))
  {
  }

  function StoredRpc(s: Sys): Rpc
    requires TheRpc in WorldOf(s) && WorldOf(s)[TheRpc].RpcObject?
  {
    WorldOf(s)[TheRpc].rpc
  }

  predicate HasRpc(s: Sys) {
    TheRpc in WorldOf(s) && WorldOf(s)[TheRpc].RpcObject?
  }

  /** The read a pass starts with. */
  lemma Reads(n: Name, s: Sys, now: int)
    requires s.process.Resting? && HasRpc(s)
    ensures CallStep(n, s, Answered, now) ==
            s.(process :=
                 Running(if StoredRpc(s).conditions == [] then Storing(Initialize) else CreateStorage, StoredRpc(s)))
  {
    assert WorldOf(CallStep(n, s, Answered, now)) == WorldOf(s);
  }

  /** A pass that has read its resource initialises the conditions when there are none. */
  lemma Initializes(c: Setting, s: Sys) returns (next: Sys, rpc: Rpc)
    requires Calmly(c)
    requires At(s.process, Storing(Initialize)) && HasRpc(s) && StoredRpc(s) == s.process.rpc
        && s.process.rpc.conditions == []
    ensures c.R(s, next)
    ensures rpc == s.process.rpc.(conditions := rpc.conditions) && Shaped(rpc.conditions) && !Restored(rpc.conditions)
    ensures next == Sys(s.cluster.(objects := WorldOf(s)[TheRpc := RpcObject(rpc)]), Running(CreateStorage, rpc),
        s.history)
  {
    WriteShapes([], Initialize, c.now);
    next := CallStep(c.n, s, Answered, c.now);
    CallLeads(c, s);
    rpc := next.process.rpc;
  }

  /** The storage claim is there. */
  lemma FindsStorage(c: Setting, s: Sys) returns (next: Sys)
    requires Calmly(c)
    requires At(s.process, CreateStorage) && Storage in WorldOf(s)
    ensures c.R(s, next) && next == s.(process := EnterRestore(s.process.rpc))
  {
    next := CallStep(c.n, s, Answered, c.now);
    CallLeads(c, s);
    assert WorldOf(next) == WorldOf(s);
  }

  /** The storage claim is created, and its reset is about to be stored. */
  lemma MakesStorage(c: Setting, s: Sys) returns (next: Sys)
    requires Calmly(c)
    requires At(s.process, CreateStorage) && Storage !in WorldOf(s)
    ensures c.R(s, next)
    ensures next.process == Running(Storing(ResetRestore), s.process.rpc)
    ensures next.cluster == s.cluster.(objects := WorldOf(s)[Storage := ClaimObject(Claim(ClaimPending))])
    ensures next.history ==
            Note(s.history.(claims := s.history.claims + 1),
                 StaleForNext(WorldOf(s), s.history), StaleJob(s.history.claims + 1))
  {
    next := CallStep(c.n, s, Answered, c.now);
    CallLeads(c, s);
  }

  /** The reset is stored. */
  lemma Resets(c: Setting, s: Sys) returns (next: Sys, rpc: Rpc)
    requires Calmly(c)
    requires Resetting(s.process) && HasRpc(s) && StoredRpc(s) == s.process.rpc && Shaped(s.process.rpc.conditions)
    ensures c.R(s, next)
    ensures rpc == s.process.rpc.(conditions := rpc.conditions) && Shaped(rpc.conditions) && !Restored(rpc.conditions)
    ensures next.process == EnterRestore(rpc)
    ensures next.cluster == s.cluster.(objects := WorldOf(s)[TheRpc := RpcObject(rpc)])
    ensures next.history == Note(s.history, RpcPod in WorldOf(s), ResetUnderPod)
  {
    WriteShapes(s.process.rpc.conditions, ResetRestore, c.now);
    next := CallStep(c.n, s, Answered, c.now);
    CallLeads(c, s);
    rpc := s.process.rpc.(conditions := Write(s.process.rpc.conditions, ResetRestore, c.now));
  }

  predicate Bound(w: World, claim: Slot) {
    claim in w && w[claim] == ClaimObject(Claim(ClaimBound))
  }

  /** The scratch claim is created and has to be waited for. */
  lemma MakesScratch(c: Setting, s: Sys) returns (next: Sys)
    requires Calmly(c)
    requires At(s.process, CreateScratch) && Scratch !in WorldOf(s)
    ensures c.R(s, next)
    ensures next == Sys(s.cluster.(objects := WorldOf(s)[Scratch := ClaimObject(Claim(ClaimPending))]),
        Finish(IN_ONE_SECOND), s.history)
  {
    var middle := CallStep(c.n, s, Answered, c.now);
    CallLeads(c, s);
    assert middle == Sys(s.cluster.(objects := WorldOf(s)[Scratch := ClaimObject(Claim(ClaimPending))]),
        Running(GetScratch, s.process.rpc), s.history);
    next := CallStep(c.n, middle, Answered, c.now);
    CallLeads(c, middle);
    assert WorldOf(next) == WorldOf(middle);
  }

  /** With both claims bound the pass gets to the Job. */
  lemma ReachesJob(c: Setting, s: Sys) returns (next: Sys)
    requires Calmly(c)
    requires At(s.process, CreateScratch) && Bound(WorldOf(s), Scratch) && Bound(WorldOf(s), Storage)
    ensures c.R(s, next) && next == s.(process := Running(CreateJob, s.process.rpc))
  {
    var a := CallStep(c.n, s, Answered, c.now);
    CallLeads(c, s);
    assert WorldOf(a) == WorldOf(s);
    assert a == s.(process := Running(GetScratch, s.process.rpc));
    var b := CallStep(c.n, a, Answered, c.now);
    CallLeads(c, a);
    assert WorldOf(b) == WorldOf(s);
    assert b == s.(process := Running(GetStorage, s.process.rpc));
    next := CallStep(c.n, b, Answered, c.now);
    CallLeads(c, b);
    assert WorldOf(next) == WorldOf(s);
  }

  /** The scratch claim is bound but the storage claim has to be waited for. */
  lemma WaitsForStorage(c: Setting, s: Sys) returns (next: Sys)
    requires Calmly(c)
    requires At(s.process, CreateScratch) && Bound(WorldOf(s), Scratch) && Storage in WorldOf(s)
        && !ReadyClaim(WorldOf(s)[Storage])
    ensures c.R(s, next) && next == s.(process := Finish(IN_ONE_SECOND))
  {
    var a := CallStep(c.n, s, Answered, c.now);
    CallLeads(c, s);
    assert WorldOf(a) == WorldOf(s);
    assert a == s.(process := Running(GetScratch, s.process.rpc));
    var b := CallStep(c.n, a, Answered, c.now);
    CallLeads(c, a);
    assert WorldOf(b) == WorldOf(s);
    assert b == s.(process := Running(GetStorage, s.process.rpc));
    next := CallStep(c.n, b, Answered, c.now);
    CallLeads(c, b);
    assert WorldOf(next) == WorldOf(s);
  }

  /** The restore is recorded as skipped. */
  lemma Skips(c: Setting, s: Sys) returns (next: Sys, rpc: Rpc)
    requires Calmly(c)
    requires At(s.process, Storing(SkipRestore))
    requires HasRpc(s) && StoredRpc(s) == s.process.rpc && Shaped(s.process.rpc.conditions)
    ensures c.R(s, next)
    ensures rpc == s.process.rpc.(conditions := rpc.conditions) && Shaped(rpc.conditions) && Restored(rpc.conditions)
    ensures next.process == Running(Upsert(RpcPod, Filing), rpc)
    ensures next.cluster == s.cluster.(objects := WorldOf(s)[TheRpc := RpcObject(rpc)])
    ensures RestoreJob in WorldOf(s) && Storage in WorldOf(s) ==>
              next.history ==
              s.history.(skipped := s.history.skipped + {s.history.claims},
                  incidents := s.history.incidents + {SkippedOverJob})
  {
    WriteShapes(s.process.rpc.conditions, SkipRestore, c.now);
    rpc := s.process.rpc.(conditions := Write(s.process.rpc.conditions, SkipRestore, c.now));
    next := CallStep(c.n, s, Answered, c.now);
    CallLeads(c, s);
  }

  /** The Job is created and the status says so. */
  lemma MakesJob(c: Setting, s: Sys) returns (next: Sys, rpc: Rpc)
    requires Calmly(c)
    requires At(s.process, CreateJob) && RestoreJob !in WorldOf(s)
    requires HasRpc(s) && StoredRpc(s) == s.process.rpc && Shaped(s.process.rpc.conditions)
    ensures c.R(s, next) && next.process.Resting?
    ensures var claim := if Storage in WorldOf(s) then s.history.claims else s.history.claims + 1;
            next.history == s.history.(target := claim)
    ensures rpc == s.process.rpc.(conditions := rpc.conditions) && Shaped(rpc.conditions) && !Restored(rpc.conditions)
    ensures var job := JobObject(GetWantedRestoreJob(c.n));
            next.cluster == s.cluster.(objects := WorldOf(s)[RestoreJob := job][TheRpc := RpcObject(rpc)])
  {
    var middle := CallStep(c.n, s, Answered, c.now);
    CallLeads(c, s);
    assert middle == Sys(s.cluster.(objects := WorldOf(s)[RestoreJob := JobObject(GetWantedRestoreJob(c.n))]),
        Running(Storing(StartRestore), s.process.rpc),
        s.history.(target := if Storage in WorldOf(s) then s.history.claims else s.history.claims + 1));
    WriteShapes(s.process.rpc.conditions, StartRestore, c.now);
    rpc := s.process.rpc.(conditions := Write(s.process.rpc.conditions, StartRestore, c.now));
    next := CallStep(c.n, middle, Answered, c.now);
    CallLeads(c, middle);
  }

  /** The Job is found to have succeeded. */
  lemma FindsJob(c: Setting, s: Sys) returns (next: Sys)
    requires Calmly(c)
    requires At(s.process, CreateJob) && HasSucceeded(WorldOf(s))
    ensures c.R(s, next)
    ensures next == s.(process := Running(Storing(FinishRestore(WorldOf(s)[RestoreJob].job)), s.process.rpc))
  {
    var middle := CallStep(c.n, s, Answered, c.now);
    CallLeads(c, s);
    assert WorldOf(middle) == WorldOf(s);
    assert middle == s.(process := Running(GetJob, s.process.rpc));
    next := CallStep(c.n, middle, Answered, c.now);
    CallLeads(c, middle);
    assert WorldOf(next) == WorldOf(s);
  }

  /** The restore is recorded as finished. */
  lemma Finishes(c: Setting, s: Sys) returns (next: Sys, rpc: Rpc)
    requires Calmly(c)
    requires s.process.Running? && s.process.at.Storing? && s.process.at.write.FinishRestore?
    requires HasRpc(s) && StoredRpc(s) == s.process.rpc && Shaped(s.process.rpc.conditions)
    ensures c.R(s, next) && next.process.Resting? && next.history == s.history
    ensures rpc == s.process.rpc.(conditions := rpc.conditions) && Shaped(rpc.conditions) && Restored(rpc.conditions)
    ensures next.cluster == s.cluster.(objects := WorldOf(s)[TheRpc := RpcObject(rpc)])
  {
    WriteShapes(s.process.rpc.conditions, s.process.at.write, c.now);
    rpc := s.process.rpc.(conditions := Write(s.process.rpc.conditions, s.process.at.write, c.now));
    next := CallStep(c.n, s, Answered, c.now);
    CallLeads(c, s);
  }

  /** The finished restore is cleaned up, and the pod comes next. */
  lemma CleansUp(c: Setting, s: Sys) returns (next: Sys)
    requires Calmly(c)
    requires At(s.process, DeleteJob) && Restored(s.process.rpc.conditions)
    ensures c.R(s, next)
    ensures next ==
            Sys(s.cluster.(objects := WorldOf(s) - {RestoreJob, Scratch}),
                Running(Upsert(RpcPod, Filing), s.process.rpc), s.history)
  {
    var a := CallStep(c.n, s, Answered, c.now);
    CallLeads(c, s);
    assert WorldOf(a) == WorldOf(s) - {RestoreJob};
    assert a == Sys(s.cluster.(objects := WorldOf(s) - {RestoreJob}), Running(DeleteScratch, s.process.rpc), s.history);
    next := CallStep(c.n, a, Answered, c.now);
    CallLeads(c, a);
    assert WorldOf(next) == WorldOf(s) - {RestoreJob, Scratch};
  }

  /** The pod is created. */
  lemma MakesPod(c: Setting, s: Sys) returns (next: Sys)
    requires Calmly(c)
    requires At(s.process, Upsert(RpcPod, Filing)) && RpcPod !in WorldOf(s)
    ensures c.R(s, next)
    ensures var pod := PodObject(GetWantedPod(c.n, s.process.rpc.spec));
            next.cluster == s.cluster.(objects := WorldOf(s)[RpcPod := pod])
    ensures next.process == Running(Storing(MarkCreating(GetWantedPod(c.n, s.process.rpc.spec))), s.process.rpc)
    ensures next.history == s.history
  {
    next := CallStep(c.n, s, Answered, c.now);
    CallLeads(c, s);
  }

  /** The new pod is recorded; it has no status yet, so it is left alone. */
  lemma RecordsPod(c: Setting, s: Sys) returns (next: Sys, rpc: Rpc)
    requires Calmly(c)
    requires s.process.Running? && s.process.at.Storing? && s.process.at.write.MarkCreating?
        && s.process.at.write.made.status == FRESH_STATUS
    requires HasRpc(s) && StoredRpc(s) == s.process.rpc && Shaped(s.process.rpc.conditions)
        && Restored(s.process.rpc.conditions)
    ensures c.R(s, next)
    ensures rpc == s.process.rpc.(conditions := rpc.conditions) && Shaped(rpc.conditions) && Restored(rpc.conditions)
    ensures next == Sys(s.cluster.(objects := WorldOf(s)[TheRpc := RpcObject(rpc)]), EnterMonitor(rpc), s.history)
  {
    WriteShapes(s.process.rpc.conditions, s.process.at.write, c.now);
    rpc := s.process.rpc.(conditions := Write(s.process.rpc.conditions, s.process.at.write, c.now));
    next := CallStep(c.n, s, Answered, c.now);
    CallLeads(c, s);
  }

  /** The pod is there and is fetched. */
  lemma FindsPod(c: Setting, s: Sys) returns (next: Sys)
    requires Calmly(c)
    requires At(s.process, Upsert(RpcPod, Filing)) && RpcPod in WorldOf(s)
    ensures c.R(s, next) && next == s.(process := Running(Upsert(RpcPod, Fetching), s.process.rpc))
  {
    next := CallStep(c.n, s, Answered, c.now);
    CallLeads(c, s);
    assert WorldOf(next) == WorldOf(s);
  }

  /** Its image is brought up to date. */
  lemma RepairsPod(c: Setting, s: Sys) returns (next: Sys, pod: Pod)
    requires Calmly(c)
    requires At(s.process, Upsert(RpcPod, Fetching)) && RpcPod in WorldOf(s) && WorldOf(s)[RpcPod].PodObject?
    ensures c.R(s, next)
    ensures pod == WorldOf(s)[RpcPod].pod.(image := GetPodImage(s.process.rpc.spec))
    ensures next == Sys(s.cluster.(objects := WorldOf(s)[RpcPod := PodObject(pod)]), JudgePod(s.process.rpc, pod),
        s.history)
  {
    var found := WorldOf(s)[RpcPod].pod;
    pod := found.(image := GetPodImage(s.process.rpc.spec));
    RepairOfOne(PodObject(found), ImageReconciler(s.process.rpc.spec));
    next := CallStep(c.n, s, Answered, c.now);
    CallLeads(c, s);
    assert WorldOf(next) == WorldOf(s);
    if found.image != pod.image {
      var middle := next;
      assert middle == s.(process := Running(Upsert(RpcPod, Repairing(PodObject(pod))), s.process.rpc));
      next := CallStep(c.n, middle, Answered, c.now);
      CallLeads(c, middle);
    }
    assert WorldOf(next) == WorldOf(s)[RpcPod := PodObject(pod)];
  }

  /** The node's availability after the probe. */
  predicate Probed(c: Setting, was: seq<Condition>, now: seq<Condition>, running: bool) {
    if running && c.ready then
      && Shaped(was) && Shaped(now) && now == [was[0], was[1].(reason := CatchingUp)]
    else
      now == was
  }

  /** A healthy pod is probed if it runs. */
  lemma ProbesPod(c: Setting, s: Sys, pod: Pod) returns (next: Sys, rpc: Rpc)
    requires Calmly(c)
    requires HasRpc(s) && s.process == JudgePod(StoredRpc(s), pod) && !Unhealthy(pod.status)
    requires Shaped(StoredRpc(s).conditions) && Restored(StoredRpc(s).conditions) && RpcPod in WorldOf(s)
    ensures s == next || c.R(s, next)
    ensures rpc == StoredRpc(s).(conditions := rpc.conditions) && Restored(rpc.conditions)
    ensures Probed(c, StoredRpc(s).conditions, rpc.conditions, pod.status.running)
    ensures next == Sys(s.cluster.(objects := WorldOf(s)[TheRpc := RpcObject(rpc)]), EnterMonitor(rpc), s.history)
  {
    rpc := StoredRpc(s);
    next := s;
    if pod.status.running {
      next := CallStep(c.n, s, CalmReply(s.process, c.ready), c.now);
      assert c.R(s, next);
      assert WorldOf(next) == WorldOf(s);
      if c.ready {
        var middle := next;
        assert middle == s.(process := Running(Storing(MarkCatchingUp), rpc));
        next, rpc := RecordsProbe(c, middle);
      }
    }
    assert WorldOf(next) == WorldOf(s)[TheRpc := RpcObject(rpc)];
  }

  lemma RecordsProbe(c: Setting, s: Sys) returns (next: Sys, rpc: Rpc)
    requires Calmly(c)
    requires At(s.process, Storing(MarkCatchingUp))
    requires HasRpc(s) && StoredRpc(s) == s.process.rpc && Shaped(s.process.rpc.conditions)
        && Restored(s.process.rpc.conditions)
    ensures c.R(s, next)
    ensures rpc == s.process.rpc.(conditions := rpc.conditions) && Shaped(rpc.conditions) && Restored(rpc.conditions)
    ensures var was := s.process.rpc.conditions; rpc.conditions == [was[0], was[1].(reason := CatchingUp)]
    ensures next == Sys(s.cluster.(objects := WorldOf(s)[TheRpc := RpcObject(rpc)]), EnterMonitor(rpc), s.history)
  {
    WriteShapes(s.process.rpc.conditions, MarkCatchingUp, c.now);
    rpc := s.process.rpc.(conditions := Write(s.process.rpc.conditions, MarkCatchingUp, c.now));
    next := CallStep(c.n, s, Answered, c.now);
    CallLeads(c, s);
  }

  // ---- The monitor ----

  /** The monitor after a pass that looked after it. */
  function MonitorAfter(o: Option<Object>, n: Name, spec: Spec): Option<Object> {
    if !MonitorEnabled(spec) then None
    else if o.None? || !o.value.MonitorObject? then Some(MonitorObject(GetWantedPodMonitor(n, spec)))
    else if Inspect(o.value.monitor, n, spec).Drifted? then Some(MonitorObject(Refresh(o.value.monitor, n, spec)))
    else o
  }

  predicate MonitorRight(w: World, n: Name, spec: Spec) {
    if MonitorWanted(spec)
    then Monitor in w && w[Monitor].MonitorObject? && Inspect(w[Monitor].monitor, n, spec).UpToDate?
    else Monitor !in w
  }

  /** The pod, if there is one, is not to be deleted. */
  predicate PodFine(w: World) {
    RpcPod in w ==> w[RpcPod].PodObject? && !Unhealthy(w[RpcPod].pod.status)
  }

  /** The one monitor the operator cannot get past: its check dereferences a nil port. */
  predicate Poisoned(o: Option<Object>, n: Name, spec: Spec) {
    MonitorWanted(spec) && o.Some? && o.value.MonitorObject? && Inspect(o.value.monitor, n, spec).Panics?
  }

  lemma DropsMonitor(c: Setting, s: Sys) returns (next: Sys)
    requires Calmly(c)
    requires At(s.process, FindOldMonitor)
    ensures c.R(s, next)
    ensures next == Sys(s.cluster.(objects := WorldOf(s) - {Monitor}), Finish(DONE), s.history)
  {
    next := CallStep(c.n, s, Answered, c.now);
    CallLeads(c, s);
    assert WorldOf(next) == WorldOf(s);
    if Monitor in WorldOf(s) {
      var middle := next;
      assert middle == s.(process := Running(DeleteOldMonitor, s.process.rpc));
      next := CallStep(c.n, middle, Answered, c.now);
      CallLeads(c, middle);
    }
    assert WorldOf(next) == WorldOf(s) - {Monitor};
  }

  lemma FindsMonitor(c: Setting, s: Sys) returns (next: Sys)
    requires Calmly(c)
    requires At(s.process, FindPod) && RpcPod in WorldOf(s) && Monitor in WorldOf(s)
    ensures c.R(s, next) && next == s.(process := Running(Upsert(Monitor, Fetching), s.process.rpc))
  {
    var middle := CallStep(c.n, s, Answered, c.now);
    CallLeads(c, s);
    assert WorldOf(middle) == WorldOf(s);
    assert middle == s.(process := Running(Upsert(Monitor, Filing), s.process.rpc));
    next := CallStep(c.n, middle, Answered, c.now);
    CallLeads(c, middle);
    assert WorldOf(next) == WorldOf(s);
  }

  lemma MakesMonitor(c: Setting, s: Sys) returns (next: Sys)
    requires Calmly(c)
    requires At(s.process, FindPod) && RpcPod in WorldOf(s) && Monitor !in WorldOf(s)
    ensures c.R(s, next)
    ensures next == Sys(s.cluster.(objects := WorldOf(s)[Monitor := Wanted(Monitor, c.n, s.process.rpc.spec)]),
        Finish(DONE), s.history)
  {
    var middle := CallStep(c.n, s, Answered, c.now);
    CallLeads(c, s);
    assert WorldOf(middle) == WorldOf(s);
    assert middle == s.(process := Running(Upsert(Monitor, Filing), s.process.rpc));
    next := CallStep(c.n, middle, Answered, c.now);
    CallLeads(c, middle);
  }

  lemma MonitorVerdict(m: PodMonitor, n: Name, spec: Spec)
    ensures Repair(MonitorObject(m), Reconcilers(Monitor, n, spec)) ==
            match Inspect(m, n, spec)
            case Panics => Crashed
            case UpToDate => Settled(MonitorObject(m), false)
            case Drifted => Settled(MonitorObject(Refresh(m, n, spec)), true)
  {
    RepairOfOne(MonitorObject(m), PodMonitorSpecReconciler(n, spec));
  }

  lemma FetchesMonitor(c: Setting, s: Sys, repaired: Repaired) returns (next: Sys)
    requires Calmly(c)
    requires At(s.process, Upsert(Monitor, Fetching)) && Monitor in WorldOf(s)
    requires repaired == Repair(WorldOf(s)[Monitor], Reconcilers(Monitor, c.n, s.process.rpc.spec))
    ensures c.R(s, next)
    ensures next == s.(process := UpsertRepairs(s.process.rpc, Monitor, repaired))
  {
    hide Repair, Reconcilers, UpsertRepairs;
    next := CallStep(c.n, s, Answered, c.now);
    CallLeads(c, s);
    assert WorldOf(next) == WorldOf(s);
  }

  lemma StoresMonitor(c: Setting, s: Sys, m: PodMonitor) returns (next: Sys)
    requires Calmly(c)
    requires At(s.process, Upsert(Monitor, Repairing(MonitorObject(m)))) && Monitor in WorldOf(s)
        && WorldOf(s)[Monitor].MonitorObject?
    ensures c.R(s, next)
    ensures next == Sys(s.cluster.(objects := WorldOf(s)[Monitor := MonitorObject(m)]), Finish(DONE), s.history)
  {
    next := CallStep(c.n, s, Answered, c.now);
    CallLeads(c, s);
  }

  lemma RepairsMonitor(c: Setting, s: Sys) returns (next: Sys)
    requires Calmly(c)
    requires At(s.process, Upsert(Monitor, Fetching)) && Monitor in WorldOf(s) && WorldOf(s)[Monitor].MonitorObject?
    ensures c.R(s, next)
    ensures var m, spec := WorldOf(s)[Monitor].monitor, s.process.rpc.spec;
            match Inspect(m, c.n, spec)
            case Panics => next == s.(process := Fail(Panicked))
            case UpToDate => next == s.(process := Finish(DONE))
            case Drifted =>
              next == Sys(s.cluster.(objects := WorldOf(s)[Monitor := MonitorObject(Refresh(m, c.n, spec))]),
                  Finish(DONE), s.history)
  {
    var m, spec := WorldOf(s)[Monitor].monitor, s.process.rpc.spec;
    MonitorVerdict(m, c.n, spec);
    var verdict := Inspect(m, c.n, spec);
    next := FetchesMonitor(c, s, Repair(MonitorObject(m), Reconcilers(Monitor, c.n, spec)));
    if verdict.Drifted? {
      next := StoresMonitor(c, next, Refresh(m, c.n, spec));
    }
  }
}
