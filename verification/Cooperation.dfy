/** Convergence when the environment does its part in its own time: between any two calls, and in any pass. */
module Cooperation {
  import opened Objects
  import opened Conditions
  import opened Names
  import opened Server
  import opened Drift
  import opened Monitoring
  import opened Workload
  import opened Process
  import opened Machine
  import opened Soundness
  import opened Moves
  import opened Segments
  import opened Passes

  /** Claims get bound, Jobs succeed and pods report that they are healthy; calls are answered, the probe as it may. */
  predicate Cooperates(a: Action<Slot>) {
    || a == BindClaim(Storage, ClaimBound) || a == BindClaim(Scratch, ClaimBound)
    || a == JobSucceeds(RestoreJob)
    || (a.PodReports? && a.key == RpcPod && !Unhealthy(a.status))
    || a == BirthElsewhere || a == Nothing
  }

  const COOPERATIVE :=
    Rules((s, a) => Cooperates(a), (s: Sys, reply: Reply) => reply.Answered? || At(s.process, ProbePod))

  // ---- How far there is to go ----

  predicate PodRight(w: World, spec: Spec) {
    RpcPod in w && w[RpcPod].PodObject? && AsksForImage(spec, w[RpcPod].pod.image)
  }

  predicate MonitorDone(w: World, n: Name, spec: Spec) {
    MonitorRight(w, n, spec) || Poisoned(Lookup(w, Monitor), n, spec)
  }

  /** Nothing is left to do for the resource that the operator can do. */
  predicate Finished(w: World, n: Name) {
    && StoredRestored(w) && Storage in w && Scratch !in w && RestoreJob !in w
    && PodRight(w, w[TheRpc].rpc.spec) && PodFine(w) && MonitorDone(w, n, w[TheRpc].rpc.spec)
  }

  function Level(w: World, n: Name): (l: nat)
    ensures l <= 4
  {
    if TheRpc !in w || !w[TheRpc].RpcObject? then 4
    else if Finished(w, n) then 0
    else if Restored(w[TheRpc].rpc.conditions) && Storage in w then 1
    else if !RestoreEnabled(w[TheRpc].rpc.spec) then 2
    else if Storage !in w || Scratch !in w then 4
    else if RestoreJob !in w then 3
    else 2
  }

  /** A report on the pod may bring a resource to rest during a pass. */
  predicate AtLevel(w: World, n: Name, level: nat) {
    Level(w, n) == level || (level == 1 && Level(w, n) == 0)
  }

  predicate JobFine(w: World) {
    RestoreJob in w ==> HasSucceeded(w)
  }

  /** The environment has caught up with what there is. */
  predicate Ready(w: World) {
    (Storage in w ==> Bound(w, Storage)) && (Scratch in w ==> Bound(w, Scratch)) && JobFine(w) && PodFine(w)
  }

  // ---- What a pass has achieved at each of its program points ----

  /** The restore step, for a pass that started at the given level, in a world that was ready or not. */
  predicate Restoring(w: World, at: Pc, level: nat, ready: bool) {
    && 2 <= level && Storage in w
    && (at == CreateScratch ==> (level <= 3 ==> Scratch in w))
    && (at != CreateScratch ==> Scratch in w)
    && (level == 2 ==> RestoreJob in w)
    && (ready ==> JobMayRun(w, at, level))
    && (at.GetJob? || at.Storing? ==> RestoreJob in w)
    && (at == Storing(StartRestore) ==> 3 <= level)
    && (ready && at.Storing? && at.write.FailRestore? ==> 3 <= level)
  }

  predicate JobMayRun(w: World, at: Pc, level: nat) {
    && (level <= 3 && !at.Storing? ==> Bound(w, Storage) && Bound(w, Scratch))
    && (level == 2 ==> HasSucceeded(w))
  }

  /** Behind the gate. */
  predicate Serving(w: World, n: Name, at: Pc, rpc: Rpc, level: nat, ready: bool) {
    && level <= 2 && Storage in w && Restored(rpc.conditions)
    && (ready ==> PodFine(w))
    && (level <= 1 && !at.DeleteJob? ==> RestoreJob !in w)
    && (level <= 1 && !at.DeleteJob? && !at.DeleteScratch? ==> Scratch !in w)
    && match at
       case DeleteJob => true
       case DeleteScratch => true
       case Upsert(RpcPod, Filing) => true
       case Upsert(RpcPod, _) => RpcPod in w && w[RpcPod].PodObject?
       case DeletePod => RpcPod in w && !ready
       case Upsert(Monitor, Fetching) => PodRight(w, rpc.spec) && Monitor in w
       case Upsert(Monitor, Repairing(o)) =>
         PodRight(w, rpc.spec) && Monitor in w && o.MonitorObject? && Inspect(o.monitor, n, rpc.spec).UpToDate?
       case _ => PodRight(w, rpc.spec)
  }

  predicate Achieved(w: World, n: Name, at: Pc, rpc: Rpc, level: nat, ready: bool) {
    if at == CreateStorage || at == Storing(Initialize) then AtLevel(w, n, level) && (ready && 0 < level ==> Ready(w))
    else if at == Storing(ResetRestore) then
      Storage in w && level == (if RestoreEnabled(rpc.spec) then 4 else 2) && (ready ==> JobFine(w) && PodFine(w))
    else if at == Storing(SkipRestore) then Storage in w && level == 2 && (ready ==> PodFine(w))
    else if InRestore(at) then Restoring(w, at, level, ready)
    else Serving(w, n, at, rpc, level, ready)
  }

  predicate Underway(n: Name, s: Sys, level: nat, ready: bool, poisoned: bool) {
    var w, p := WorldOf(s), s.process;
    && p.Running? && TheRpc in w && w[TheRpc] == RpcObject(p.rpc)
    && Poisoned(Lookup(w, Monitor), n, p.rpc.spec) == poisoned
    && (p.at.Upsert? && p.at.slot == Monitor && p.at.stage.Repairing? ==> !poisoned)
    && (level == 0 ==> ready)
    && Achieved(w, n, p.at, p.rpc, level, ready)
  }

  /** What the end of a pass comes to. */
  predicate Nearer(n: Name, s: Sys, level: nat, ready: bool, poisoned: bool) {
    var w, p := WorldOf(s), s.process;
    && p.Resting? && TheRpc in w && w[TheRpc].RpcObject?
    && Poisoned(Lookup(w, Monitor), n, w[TheRpc].rpc.spec) == poisoned
    && Level(w, n) <= level && (ready && 0 < level ==> Level(w, n) < level)
  }

  predicate GoesOn(n: Name, s: Sys, level: nat, ready: bool, poisoned: bool) {
    Underway(n, s, level, ready, poisoned) || Nearer(n, s, level, ready, poisoned)
  }

  // ---- The environment ----

  lemma ActionKeepsLevel(n: Name, s: Sys, a: Action<Slot>)
    requires Typed(WorldOf(s)) && Cooperates(a)
    ensures var w, after := WorldOf(s), WorldOf(EnvStep(s, a));
            && (forall k :: k in after <==> k in w)
            && (TheRpc in w ==> after[TheRpc] == w[TheRpc]) && (Monitor in w ==> after[Monitor] == w[Monitor])
            && (Ready(w) ==> Ready(after)) && (PodFine(w) ==> PodFine(after))
            && (HasSucceeded(w) ==> HasSucceeded(after))
            && (Bound(w, Storage) ==> Bound(after, Storage)) && (Bound(w, Scratch) ==> Bound(after, Scratch))
            && (forall spec :: PodRight(w, spec) ==> PodRight(after, spec))
            && (Finished(w, n) ==> Finished(after, n))
  {
  }

  /** What a cooperating action keeps. */
  ghost predicate Helped(w: World, after: World) {
    && (forall k :: k in after <==> k in w)
    && (TheRpc in w ==> after[TheRpc] == w[TheRpc]) && (Monitor in w ==> after[Monitor] == w[Monitor])
    && (Ready(w) ==> Ready(after)) && (JobFine(w) ==> JobFine(after)) && (PodFine(w) ==> PodFine(after))
    && (HasSucceeded(w) ==> HasSucceeded(after))
    && (Bound(w, Storage) ==> Bound(after, Storage)) && (Bound(w, Scratch) ==> Bound(after, Scratch))
    && (forall spec :: PodRight(w, spec) ==> PodRight(after, spec))
    && (RpcPod in w && w[RpcPod].PodObject? ==> after[RpcPod].PodObject?)
  }

  lemma ActionHelps(n: Name, s: Sys, a: Action<Slot>)
    requires Typed(WorldOf(s)) && Cooperates(a)
    ensures Helped(WorldOf(s), WorldOf(EnvStep(s, a)))
    ensures Level(WorldOf(EnvStep(s, a)), n) == Level(WorldOf(s), n)
            || (Level(WorldOf(s), n) == 1 && Level(WorldOf(EnvStep(s, a)), n) == 0)
  {
    ActionKeepsLevel(n, s, a);
    LevelFalls(WorldOf(s), WorldOf(EnvStep(s, a)), n);
    hide Act, Level, Inspect, Unhealthy, Finished;
  }

  lemma HelpKeepsRestoring(w: World, after: World, at: Pc, level: nat, ready: bool)
    requires Helped(w, after) && Restoring(w, at, level, ready)
    ensures Restoring(after, at, level, ready)
  {
    hide Ready, PodRight, PodFine, Bound, HasSucceeded;
  }

  lemma HelpKeepsServing(n: Name, w: World, after: World, at: Pc, rpc: Rpc, level: nat, ready: bool)
    requires Helped(w, after) && Serving(w, n, at, rpc, level, ready)
    ensures Serving(after, n, at, rpc, level, ready)
  {
    hide Ready, PodRight, PodFine, Bound, HasSucceeded, Inspect;
  }

  lemma ActionKeepsUnderway(n: Name, s: Sys, a: Action<Slot>, level: nat, ready: bool, poisoned: bool)
    requires Typed(WorldOf(s)) && Cooperates(a) && Underway(n, s, level, ready, poisoned)
    ensures Underway(n, EnvStep(s, a), level, ready, poisoned)
  {
    ActionHelps(n, s, a);
    hide Act, Inspect, Level, Restoring, Serving, Ready, PodRight, PodFine, JobFine, Bound, HasSucceeded;
    var w, after, p := WorldOf(s), WorldOf(EnvStep(s, a)), s.process;
    assert EnvStep(s, a).process == p;
    assert Lookup(after, Monitor) == Lookup(w, Monitor);
    if InRestore(p.at) {
      HelpKeepsRestoring(w, after, p.at, level, ready);
    } else if Serving(w, n, p.at, p.rpc, level, ready) {
      HelpKeepsServing(n, w, after, p.at, p.rpc, level, ready);
    }
  }

  lemma LevelFalls(w: World, after: World, n: Name)
    requires (forall k :: k in after <==> k in w) && (TheRpc in w ==> after[TheRpc] == w[TheRpc])
    requires Finished(w, n) ==> Finished(after, n)
    ensures Level(after, n) == Level(w, n) || (Level(w, n) == 1 && Level(after, n) == 0)
  {
  }

  // ---- The operator, one program point after the other ----

  lemma InitialLevel(w: World, n: Name, rpc: Rpc, level: nat)
    requires TheRpc in w && w[TheRpc].RpcObject? && w[TheRpc].rpc.conditions == [] && !Restored(rpc.conditions)
    requires rpc.spec == w[TheRpc].rpc.spec && AtLevel(w, n, level)
    ensures AtLevel(w[TheRpc := RpcObject(rpc)], n, level)
  {
  }

  lemma InitializeIsStored(n: Name, s: Sys, now: int)
    requires Sound(n, s) && s.process.Running? && s.process.at == Storing(Initialize)
    requires TheRpc in WorldOf(s) && WorldOf(s)[TheRpc] == RpcObject(s.process.rpc)
    ensures var next := CallStep(n, s, Answered, now);
            var rpc := s.process.rpc.(conditions := Write(s.process.rpc.conditions, Initialize, now));
            && next.process == Running(CreateStorage, rpc)
            && s.process.rpc.conditions == [] && !Restored(rpc.conditions)
            && WorldOf(next) == WorldOf(s)[TheRpc := RpcObject(rpc)]
  {
    WriteShapes([], Initialize, now);
    hide Repair;
  }

  lemma InitializeGoesOn(n: Name, s: Sys, now: int, level: nat, ready: bool, poisoned: bool)
    requires Sound(n, s) && Underway(n, s, level, ready, poisoned) && s.process.at == Storing(Initialize)
    ensures Underway(n, CallStep(n, s, Answered, now), level, ready, poisoned)
  {
    InitializeIsStored(n, s, now);
    hide Inspect, AtLevel, CallStep, Write, Sound;
    var rpc := s.process.rpc.(conditions := Write(s.process.rpc.conditions, Initialize, now));
    InitialLevel(WorldOf(s), n, rpc, level);
  }

  lemma CreateStorageGoesOn(n: Name, s: Sys, now: int, level: nat, ready: bool, poisoned: bool)
    requires Sound(n, s) && Underway(n, s, level, ready, poisoned) && s.process.at == CreateStorage
    ensures Underway(n, CallStep(n, s, Answered, now), level, ready, poisoned)
  {
    hide Inspect, Refresh, Repair, Reconcilers, GetWantedPod, GetWantedPodMonitor, Mounting, Agree, Local;
  }

  lemma ClaimWriteIsStored(n: Name, s: Sys, now: int)
    requires Sound(n, s) && (At(s.process, Storing(ResetRestore)) || At(s.process, Storing(SkipRestore)))
    requires TheRpc in WorldOf(s) && WorldOf(s)[TheRpc] == RpcObject(s.process.rpc)
    ensures var next, write := CallStep(n, s, Answered, now), s.process.at.write;
            var rpc := s.process.rpc.(conditions := Write(s.process.rpc.conditions, write, now));
            && next.process == AfterStore(rpc, write) && Restored(rpc.conditions) == write.SkipRestore?
            && WorldOf(next) == WorldOf(s)[TheRpc := RpcObject(rpc)]
  {
    WriteShapes(s.process.rpc.conditions, s.process.at.write, now);
    hide Repair, Mounting, Agree;
  }

  lemma ResetGoesOn(n: Name, s: Sys, now: int, level: nat, ready: bool, poisoned: bool)
    requires Sound(n, s) && Underway(n, s, level, ready, poisoned) && s.process.at == Storing(ResetRestore)
    ensures Underway(n, CallStep(n, s, Answered, now), level, ready, poisoned)
  {
    hide CallStep, Write, Sound, Inspect, Ready, Level, Poisoned, PodRight;
    ClaimWriteIsStored(n, s, now);
  }

  lemma SkipGoesOn(n: Name, s: Sys, now: int, level: nat, ready: bool, poisoned: bool)
    requires Sound(n, s) && Underway(n, s, level, ready, poisoned) && s.process.at == Storing(SkipRestore)
    ensures Underway(n, CallStep(n, s, Answered, now), level, ready, poisoned)
  {
    hide CallStep, Write, Sound, Inspect, Ready, Level, Restoring, Poisoned, PodRight;
    ClaimWriteIsStored(n, s, now);
  }

  lemma CreateScratchGoesOn(n: Name, s: Sys, now: int, level: nat, ready: bool, poisoned: bool)
    requires Sound(n, s) && Underway(n, s, level, ready, poisoned) && s.process.at.CreateScratch?
    ensures Underway(n, CallStep(n, s, Answered, now), level, ready, poisoned)
  {
    hide Inspect, Repair;
  }

  lemma GetClaimGoesOn(n: Name, s: Sys, now: int, level: nat, ready: bool, poisoned: bool)
    requires Sound(n, s) && Underway(n, s, level, ready, poisoned)
    requires s.process.at.GetScratch? || s.process.at.GetStorage?
    ensures GoesOn(n, CallStep(n, s, Answered, now), level, ready, poisoned)
  {
    hide Inspect, Repair;
    assert WorldOf(CallStep(n, s, Answered, now)) == WorldOf(s);
  }

  lemma CreateJobGoesOn(n: Name, s: Sys, now: int, level: nat, ready: bool, poisoned: bool)
    requires Sound(n, s) && Underway(n, s, level, ready, poisoned) && s.process.at.CreateJob?
    ensures Underway(n, CallStep(n, s, Answered, now), level, ready, poisoned)
  {
    hide Inspect, Refresh, Repair, Reconcilers, GetWantedPod, GetWantedPodMonitor, PodRight, Level;
  }

  lemma GetJobGoesOn(n: Name, s: Sys, now: int, level: nat, ready: bool, poisoned: bool)
    requires Sound(n, s) && Underway(n, s, level, ready, poisoned) && s.process.at.GetJob?
    ensures GoesOn(n, CallStep(n, s, Answered, now), level, ready, poisoned)
  {
    hide Inspect, Repair;
    assert WorldOf(CallStep(n, s, Answered, now)) == WorldOf(s);
  }

  lemma RestoreWriteIsStored(n: Name, s: Sys, now: int)
    requires Sound(n, s) && s.process.Running? && s.process.at.Storing? && InRestore(s.process.at)
    requires TheRpc in WorldOf(s) && WorldOf(s)[TheRpc] == RpcObject(s.process.rpc)
    ensures var next := CallStep(n, s, Answered, now);
            && next.process.Resting? && TheRpc in WorldOf(next) && WorldOf(next)[TheRpc].RpcObject?
            && WorldOf(next)[TheRpc].rpc.spec == s.process.rpc.spec
            && Restored(WorldOf(next)[TheRpc].rpc.conditions) == s.process.at.write.FinishRestore?
            && WorldOf(next) == WorldOf(s)[TheRpc := WorldOf(next)[TheRpc]]
  {
    WriteShapes(s.process.rpc.conditions, s.process.at.write, now);
    hide Repair;
  }

  lemma RestoreEnds(n: Name, s: Sys, now: int, level: nat, ready: bool, poisoned: bool)
    requires Sound(n, s) && Underway(n, s, level, ready, poisoned) && s.process.at.Storing? && InRestore(s.process.at)
    ensures Nearer(n, CallStep(n, s, Answered, now), level, ready, poisoned)
  {
    RestoreWriteIsStored(n, s, now);
    hide CallStep, Inspect, Finished, Sound;
  }

  lemma DeletionsGoOn(n: Name, s: Sys, now: int, level: nat, ready: bool, poisoned: bool)
    requires Sound(n, s) && Underway(n, s, level, ready, poisoned)
    requires s.process.at.DeleteJob? || s.process.at.DeleteScratch?
    ensures Underway(n, CallStep(n, s, Answered, now), level, ready, poisoned)
  {
    hide Inspect, Refresh, Repair, Reconcilers, GetWantedPod, GetWantedPodMonitor, Ready, Level, Restoring;
  }

  // ---- The pod ----

  lemma FilePodGoesOn(n: Name, s: Sys, now: int, level: nat, ready: bool, poisoned: bool)
    requires Sound(n, s) && Underway(n, s, level, ready, poisoned) && s.process.at == Upsert(RpcPod, Filing)
    ensures Underway(n, CallStep(n, s, Answered, now), level, ready, poisoned)
  {
    hide Inspect, Refresh, Repair, Reconcilers, GetWantedPodMonitor, Ready, Level, Restoring, Mounting, Agree;
  }

  /** Judging a pod of the right image. */
  lemma JudgingGoesOn(n: Name, s: Sys, rpc: Rpc, pod: Pod, level: nat, ready: bool, poisoned: bool)
    requires s.process == JudgePod(rpc, pod) && TheRpc in WorldOf(s) && WorldOf(s)[TheRpc] == RpcObject(rpc)
    requires RpcPod in WorldOf(s) && WorldOf(s)[RpcPod] == PodObject(pod) && pod.image == GetPodImage(rpc.spec)
    requires Poisoned(Lookup(WorldOf(s), Monitor), n, rpc.spec) == poisoned && (level == 0 ==> ready)
    requires level <= 2 && Storage in WorldOf(s) && Restored(rpc.conditions) && (ready ==> PodFine(WorldOf(s)))
    requires level <= 1 ==> RestoreJob !in WorldOf(s) && Scratch !in WorldOf(s)
    ensures Underway(n, s, level, ready, poisoned)
  {
    hide Inspect, Level;
  }

  lemma FetchPodGoesOn(n: Name, s: Sys, now: int, level: nat, ready: bool, poisoned: bool)
    requires Sound(n, s) && Underway(n, s, level, ready, poisoned) && s.process.at == Upsert(RpcPod, Fetching)
    ensures Underway(n, CallStep(n, s, Answered, now), level, ready, poisoned)
  {
    var next, o, spec := CallStep(n, s, Answered, now), WorldOf(s)[RpcPod], s.process.rpc.spec;
    assert WorldOf(next) == WorldOf(s);
    RepairOfOne(o, ImageReconciler(spec));
    hide Inspect, Level, Repair, Ready, Restoring, PodFine;
    if o.pod.image == GetPodImage(spec) {
      JudgingGoesOn(n, next, s.process.rpc, o.pod, level, ready, poisoned);
    }
  }

  lemma RepairPodGoesOn(n: Name, s: Sys, now: int, level: nat, ready: bool, poisoned: bool)
    requires Sound(n, s) && Underway(n, s, level, ready, poisoned)
    requires s.process.at.Upsert? && s.process.at.slot == RpcPod && s.process.at.stage.Repairing?
    ensures Underway(n, CallStep(n, s, Answered, now), level, ready, poisoned)
  {
    hide Inspect, Level, Repair;
    var next := CallStep(n, s, Answered, now);
    JudgingGoesOn(n, next, s.process.rpc, WorldOf(next)[RpcPod].pod, level, ready, poisoned);
  }

  /** Turning to the monitor. */
  lemma TurningToMonitorGoesOn(n: Name, s: Sys, rpc: Rpc, level: nat, ready: bool, poisoned: bool)
    requires s.process == EnterMonitor(rpc) && TheRpc in WorldOf(s) && WorldOf(s)[TheRpc] == RpcObject(rpc)
    requires PodRight(WorldOf(s), rpc.spec)
    requires Poisoned(Lookup(WorldOf(s), Monitor), n, rpc.spec) == poisoned && (level == 0 ==> ready)
    requires level <= 2 && Storage in WorldOf(s) && Restored(rpc.conditions) && (ready ==> PodFine(WorldOf(s)))
    requires level <= 1 ==> RestoreJob !in WorldOf(s) && Scratch !in WorldOf(s)
    ensures Underway(n, s, level, ready, poisoned)
  {
    hide Inspect, Level;
  }

  lemma PodWriteIsStored(n: Name, s: Sys, now: int)
    requires Sound(n, s) && s.process.Running? && Restored(s.process.rpc.conditions)
    requires s.process.at.Storing? && (s.process.at.write.MarkCreating? || s.process.at.write.MarkCatchingUp?)
    requires TheRpc in WorldOf(s) && WorldOf(s)[TheRpc] == RpcObject(s.process.rpc)
    ensures var next := CallStep(n, s, Answered, now);
            var rpc := s.process.rpc.(conditions := Write(s.process.rpc.conditions, s.process.at.write, now));
            && next.process == EnterMonitor(rpc) && Restored(rpc.conditions)
            && WorldOf(next) == WorldOf(s)[TheRpc := RpcObject(rpc)]
  {
    WriteShapes(s.process.rpc.conditions, s.process.at.write, now);
    hide Repair;
  }

  lemma PodWriteGoesOn(n: Name, s: Sys, now: int, level: nat, ready: bool, poisoned: bool)
    requires Sound(n, s) && Underway(n, s, level, ready, poisoned)
    requires s.process.at.Storing? && (s.process.at.write.MarkCreating? || s.process.at.write.MarkCatchingUp?)
    ensures Underway(n, CallStep(n, s, Answered, now), level, ready, poisoned)
  {
    hide Inspect, Level, CallStep, Write, EnterMonitor, Sound, Restoring, Ready;
    PodWriteIsStored(n, s, now);
    var rpc := s.process.rpc.(conditions := Write(s.process.rpc.conditions, s.process.at.write, now));
    TurningToMonitorGoesOn(n, CallStep(n, s, Answered, now), rpc, level, ready, poisoned);
  }

  lemma ProbeGoesOn(n: Name, s: Sys, reply: Reply, now: int, level: nat, ready: bool, poisoned: bool)
    requires Sound(n, s) && Underway(n, s, level, ready, poisoned) && s.process.at == ProbePod
    ensures Underway(n, CallStep(n, s, reply, now), level, ready, poisoned)
  {
    hide Inspect, Level, Repair;
    var next := CallStep(n, s, reply, now);
    assert WorldOf(next) == WorldOf(s);
    if next.process == EnterMonitor(s.process.rpc) {
      TurningToMonitorGoesOn(n, next, s.process.rpc, level, ready, poisoned);
    }
  }

  lemma DeletePodEnds(n: Name, s: Sys, now: int, level: nat, ready: bool, poisoned: bool)
    requires Sound(n, s) && Underway(n, s, level, ready, poisoned) && s.process.at == DeletePod
    ensures Nearer(n, CallStep(n, s, Answered, now), level, ready, poisoned)
  {
    hide Inspect, Repair;
  }

  // ---- The monitor ----

  /** Once the monitor is right, a pass that found everything ready has nothing left to do. */
  lemma ServedIsNearer(n: Name, s: Sys, rpc: Rpc, level: nat, ready: bool, poisoned: bool)
    requires s.process.Resting? && TheRpc in WorldOf(s) && WorldOf(s)[TheRpc] == RpcObject(rpc)
    requires Restored(rpc.conditions)
    requires level <= 2 && (level == 0 ==> ready) && Storage in WorldOf(s) && (ready ==> PodFine(WorldOf(s)))
    requires level <= 1 ==> RestoreJob !in WorldOf(s) && Scratch !in WorldOf(s)
    requires PodRight(WorldOf(s), rpc.spec) && MonitorDone(WorldOf(s), n, rpc.spec)
    requires Poisoned(Lookup(WorldOf(s), Monitor), n, rpc.spec) == poisoned
    ensures Nearer(n, s, level, ready, poisoned)
  {
  }

  lemma OldMonitorGoesOn(n: Name, s: Sys, now: int, level: nat, ready: bool, poisoned: bool)
    requires Sound(n, s) && Underway(n, s, level, ready, poisoned)
    requires s.process.at == FindOldMonitor || s.process.at == DeleteOldMonitor
    ensures GoesOn(n, CallStep(n, s, Answered, now), level, ready, poisoned)
  {
    hide Inspect, Level, Repair, Ready, Restoring, PodFine, Nearer;
    var next := CallStep(n, s, Answered, now);
    assert forall k :: k != Monitor ==> Lookup(WorldOf(next), k) == Lookup(WorldOf(s), k);
    if next.process.Resting? {
      MonitorIsLast(n, s, next, level, ready, poisoned);
    } else {
      assert WorldOf(next) == WorldOf(s);
    }
  }

  /** The pass ends after it has dealt with the monitor, and with nothing else. */
  lemma MonitorIsLast(n: Name, s: Sys, next: Sys, level: nat, ready: bool, poisoned: bool)
    requires Underway(n, s, level, ready, poisoned) && Serving(WorldOf(s), n, s.process.at, s.process.rpc, level, ready)
    requires PodRight(WorldOf(s), s.process.rpc.spec) && !s.process.at.DeleteJob? && !s.process.at.DeleteScratch?
    requires forall k :: k != Monitor ==> Lookup(WorldOf(next), k) == Lookup(WorldOf(s), k)
    requires next.process.Resting? && MonitorDone(WorldOf(next), n, s.process.rpc.spec)
    requires Poisoned(Lookup(WorldOf(next), Monitor), n, s.process.rpc.spec) == poisoned
    ensures Nearer(n, next, level, ready, poisoned)
  {
    hide Inspect, Level;
    var w, after := WorldOf(s), WorldOf(next);
    assert Lookup(after, TheRpc) == Lookup(w, TheRpc) && Lookup(after, RpcPod) == Lookup(w, RpcPod);
    assert Lookup(after, Storage) == Lookup(w, Storage) && Lookup(after, Scratch) == Lookup(w, Scratch);
    assert Lookup(after, RestoreJob) == Lookup(w, RestoreJob);
    ServedIsNearer(n, next, s.process.rpc, level, ready, poisoned);
  }

  lemma FindPodGoesOn(n: Name, s: Sys, now: int, level: nat, ready: bool, poisoned: bool)
    requires Sound(n, s) && Underway(n, s, level, ready, poisoned) && s.process.at == FindPod
    ensures Underway(n, CallStep(n, s, Answered, now), level, ready, poisoned)
  {
    hide Inspect, Level, Repair, Ready, Restoring, PodFine;
    assert WorldOf(CallStep(n, s, Answered, now)) == WorldOf(s);
  }

  lemma FileMonitorGoesOn(n: Name, s: Sys, now: int, level: nat, ready: bool, poisoned: bool)
    requires Sound(n, s) && Underway(n, s, level, ready, poisoned) && s.process.at == Upsert(Monitor, Filing)
    ensures GoesOn(n, CallStep(n, s, Answered, now), level, ready, poisoned)
  {
    hide Inspect, Level, Repair, GetWantedPodMonitor, Refresh, WrittenMonitor;
    WantedMonitorIsRight(n, s.process.rpc.spec);
    var next := CallStep(n, s, Answered, now);
    if next.process.Resting? {
      ServedIsNearer(n, next, s.process.rpc, level, ready, poisoned);
    }
  }

  lemma MonitorIsFetched(n: Name, s: Sys, now: int)
    requires s.process.Running? && s.process.at == Upsert(Monitor, Fetching) && Monitor in WorldOf(s)
    ensures var next, rpc := CallStep(n, s, Answered, now), s.process.rpc;
            var repaired := Repair(WorldOf(s)[Monitor], Reconcilers(Monitor, n, rpc.spec));
            WorldOf(next) == WorldOf(s) && next.process == UpsertRepairs(rpc, Monitor, repaired)
  {
    hide Inspect, Refresh, Repair, Reconcilers, UpsertRepairs;
    assert WorldOf(CallStep(n, s, Answered, now)) == WorldOf(s);
  }

  lemma MonitorIsJudged(n: Name, s: Sys, now: int)
    requires s.process.Running? && s.process.at == Upsert(Monitor, Fetching)
    requires Monitor in WorldOf(s) && WorldOf(s)[Monitor].MonitorObject?
    ensures var next, m, rpc := CallStep(n, s, Answered, now), WorldOf(s)[Monitor].monitor, s.process.rpc;
            && WorldOf(next) == WorldOf(s)
            && match Inspect(m, n, rpc.spec)
               case Panics => next.process == Fail(Panicked)
               case UpToDate => next.process == Finish(DONE)
               case Drifted =>
                 next.process == Running(Upsert(Monitor, Repairing(MonitorObject(Refresh(m, n, rpc.spec)))), rpc)
  {
    hide Inspect, Refresh, Repair, Reconcilers, CallStep;
    MonitorIsFetched(n, s, now);
    MonitorVerdict(WorldOf(s)[Monitor].monitor, n, s.process.rpc.spec);
  }

  lemma ChangingMonitorGoesOn(n: Name, was: Sys, s: Sys, m: PodMonitor, level: nat, ready: bool, poisoned: bool)
    requires Underway(n, was, level, ready, poisoned) && was.process.at == Upsert(Monitor, Fetching)
    requires WorldOf(s) == WorldOf(was)
    requires s.process == Running(Upsert(Monitor, Repairing(MonitorObject(m))), was.process.rpc)
    requires Inspect(m, n, was.process.rpc.spec).UpToDate? && !poisoned
    ensures Underway(n, s, level, ready, poisoned)
  {
    hide Inspect, Level;
  }

  lemma RightMonitorEnds(n: Name, was: Sys, s: Sys, level: nat, ready: bool, poisoned: bool)
    requires Underway(n, was, level, ready, poisoned) && was.process.at == Upsert(Monitor, Fetching)
    requires WorldOf(s) == WorldOf(was)
    requires s.process.Resting? && MonitorDone(WorldOf(was), n, was.process.rpc.spec)
    ensures Nearer(n, s, level, ready, poisoned)
  {
    hide Inspect, Level;
    ServedIsNearer(n, s, was.process.rpc, level, ready, poisoned);
  }

  lemma FetchMonitorGoesOn(n: Name, s: Sys, now: int, level: nat, ready: bool, poisoned: bool)
    requires Sound(n, s) && Underway(n, s, level, ready, poisoned) && s.process.at == Upsert(Monitor, Fetching)
    ensures GoesOn(n, CallStep(n, s, Answered, now), level, ready, poisoned)
  {
    hide Inspect, Level, Refresh, CallStep, Ready, Restoring, PodFine, PodRight, Nearer;
    var next, m, spec := CallStep(n, s, Answered, now), WorldOf(s)[Monitor].monitor, s.process.rpc.spec;
    MonitorIsJudged(n, s, now);
    if Inspect(m, n, spec).Drifted? {
      RefreshSettles(m, n, spec);
      ChangingMonitorGoesOn(n, s, next, Refresh(m, n, spec), level, ready, poisoned);
    } else {
      RightMonitorEnds(n, s, next, level, ready, poisoned);
    }
  }

  lemma RepairMonitorEnds(n: Name, s: Sys, now: int, level: nat, ready: bool, poisoned: bool)
    requires Sound(n, s) && Underway(n, s, level, ready, poisoned)
    requires s.process.at.Upsert? && s.process.at.slot == Monitor && s.process.at.stage.Repairing?
    ensures Nearer(n, CallStep(n, s, Answered, now), level, ready, poisoned)
  {
    hide Inspect, Level, Repair;
    ServedIsNearer(n, CallStep(n, s, Answered, now), s.process.rpc, level, ready, poisoned);
  }

  // ---- Any call ----

  lemma CallGoesOn(n: Name, s: Sys, reply: Reply, now: int, level: nat, ready: bool, poisoned: bool)
    requires Sound(n, s) && Underway(n, s, level, ready, poisoned) && COOPERATIVE.answer(s, reply)
    ensures GoesOn(n, CallStep(n, s, reply, now), level, ready, poisoned)
  {
    UpsertsAreTwo(n, s.process);
    hide CallStep, Achieved, Level, Inspect, Nearer, Sound;
    match s.process.at {
      case CreateStorage => CreateStorageGoesOn(n, s, now, level, ready, poisoned);
      case DeleteJob => DeletionsGoOn(n, s, now, level, ready, poisoned);
      case DeleteScratch => DeletionsGoOn(n, s, now, level, ready, poisoned);
      case CreateScratch => CreateScratchGoesOn(n, s, now, level, ready, poisoned);
      case GetScratch => GetClaimGoesOn(n, s, now, level, ready, poisoned);
      case GetStorage => GetClaimGoesOn(n, s, now, level, ready, poisoned);
      case CreateJob => CreateJobGoesOn(n, s, now, level, ready, poisoned);
      case GetJob => GetJobGoesOn(n, s, now, level, ready, poisoned);
      case DeletePod => DeletePodEnds(n, s, now, level, ready, poisoned);
      case ProbePod => ProbeGoesOn(n, s, reply, now, level, ready, poisoned);
      case FindOldMonitor => OldMonitorGoesOn(n, s, now, level, ready, poisoned);
      case DeleteOldMonitor => OldMonitorGoesOn(n, s, now, level, ready, poisoned);
      case FindPod => FindPodGoesOn(n, s, now, level, ready, poisoned);
      case Upsert(slot, stage) => UpsertGoesOn(n, s, now, level, ready, poisoned);
      case Storing(Initialize) => InitializeGoesOn(n, s, now, level, ready, poisoned);
      case Storing(ResetRestore) => ResetGoesOn(n, s, now, level, ready, poisoned);
      case Storing(SkipRestore) => SkipGoesOn(n, s, now, level, ready, poisoned);
      case Storing(MarkCreating(_)) => PodWriteGoesOn(n, s, now, level, ready, poisoned);
      case Storing(MarkCatchingUp) => PodWriteGoesOn(n, s, now, level, ready, poisoned);
      case Storing(_) => RestoreEnds(n, s, now, level, ready, poisoned);
    }
  }

  lemma UpsertsAreTwo(n: Name, p: Process)
    requires Local(n, p)
    ensures p.Running? && p.at.Upsert? ==> p.at.slot == RpcPod || p.at.slot == Monitor
  {
  }

  lemma UpsertGoesOn(n: Name, s: Sys, now: int, level: nat, ready: bool, poisoned: bool)
    requires Sound(n, s) && Underway(n, s, level, ready, poisoned)
    requires s.process.at.Upsert? && (s.process.at.slot == RpcPod || s.process.at.slot == Monitor)
    ensures GoesOn(n, CallStep(n, s, Answered, now), level, ready, poisoned)
  {
    hide CallStep, Achieved, Level, Inspect, Nearer, Sound;
    match s.process.at.stage {
      case Filing =>
        if s.process.at.slot == RpcPod {
          FilePodGoesOn(n, s, now, level, ready, poisoned);
        } else {
          FileMonitorGoesOn(n, s, now, level, ready, poisoned);
        }
      case Fetching =>
        if s.process.at.slot == RpcPod {
          FetchPodGoesOn(n, s, now, level, ready, poisoned);
        } else {
          FetchMonitorGoesOn(n, s, now, level, ready, poisoned);
        }
      case Repairing(_) =>
        if s.process.at.slot == RpcPod {
          RepairPodGoesOn(n, s, now, level, ready, poisoned);
        } else {
          RepairMonitorEnds(n, s, now, level, ready, poisoned);
        }
    }
  }

  // ---- Whole runs ----

  /** The state in which the latest pass made its first call. */
  function PassStart(n: Name, s: Sys, ticks: seq<Tick<Slot>>): Sys {
    if |ticks| == 0 then s
    else
      var earlier, last := ticks[..|ticks| - 1], ticks[|ticks| - 1];
      if Exec(n, s, earlier).process.Resting? then Before(n, s, earlier, last) else PassStart(n, s, earlier)
  }

  /** How many passes have ended that found the environment caught up when they started. */
  function ReadyPasses(n: Name, s: Sys, ticks: seq<Tick<Slot>>): nat {
    if |ticks| == 0 then 0
    else
      var earlier := ticks[..|ticks| - 1];
      ReadyPasses(n, s, earlier) +
      (if Exec(n, s, earlier).process.Running? && Exec(n, s, ticks).process.Resting?
          && Ready(WorldOf(PassStart(n, s, earlier))) then 1 else 0)
  }

  function LevelsLeft(level: nat, passes: nat): nat { if passes < level then level - passes else 0 }

  /** The pass has all it needs to make progress, or nothing to do. */
  predicate Favoured(w: World, n: Name) {
    Ready(w) || Level(w, n) == 0
  }

  /** The invariant, for a pass that started in the given state. */
  predicate Converging(n: Name, s: Sys, start: Sys, first: nat, passes: nat, poisoned: bool) {
    if s.process.Running? then
      var level := Level(WorldOf(start), n);
      Underway(n, s, level, Favoured(WorldOf(start), n), poisoned) && level <= LevelsLeft(first, passes)
    else
      && HasRpc(s) && Poisoned(Lookup(WorldOf(s), Monitor), n, StoredRpc(s).spec) == poisoned
      && Level(WorldOf(s), n) <= LevelsLeft(first, passes)
  }

  lemma ActionKeepsRest(n: Name, s: Sys, a: Action<Slot>)
    requires Typed(WorldOf(s)) && Cooperates(a) && HasRpc(s)
    ensures HasRpc(EnvStep(s, a)) && StoredRpc(EnvStep(s, a)) == StoredRpc(s)
    ensures Lookup(WorldOf(EnvStep(s, a)), Monitor) == Lookup(WorldOf(s), Monitor)
    ensures Level(WorldOf(EnvStep(s, a)), n) <= Level(WorldOf(s), n)
  {
    ActionKeepsLevel(n, s, a);
    LevelFalls(WorldOf(s), WorldOf(EnvStep(s, a)), n);
    hide Act, Level, Inspect;
  }

  lemma ActionKeepsConverging(n: Name, s: Sys, a: Action<Slot>, start: Sys, first: nat, passes: nat, poisoned: bool)
    requires Sound(n, s) && Cooperates(a) && Converging(n, s, start, first, passes, poisoned)
    ensures Converging(n, EnvStep(s, a), start, first, passes, poisoned)
  {
    hide Act, Level, Underway, Inspect, Ready;
    assert EnvStep(s, a).process == s.process;
    if s.process.Running? {
      var level := Level(WorldOf(start), n);
      ActionKeepsUnderway(n, s, a, level, Favoured(WorldOf(start), n), poisoned);
    } else {
      ActionKeepsRest(n, s, a);
    }
  }

  lemma {:induction false} EnvKeepsConverging(n: Name, s: Sys, env: seq<Action<Slot>>, start: Sys, first: nat,
                                             passes: nat, poisoned: bool)
    requires Sound(n, s) && EnvObeys(s, env, COOPERATIVE) && Converging(n, s, start, first, passes, poisoned)
    ensures Sound(n, EnvSteps(s, env)) && EnvSteps(s, env).process == s.process
    ensures Converging(n, EnvSteps(s, env), start, first, passes, poisoned)
    decreases |env|
  {
    hide Sound, Converging, Act;
    EnvIsSound(n, s, env);
    if |env| > 0 {
      EnvKeepsSound(n, s, env[0]);
      ActionKeepsConverging(n, s, env[0], start, first, passes, poisoned);
      EnvKeepsConverging(n, EnvStep(s, env[0]), env[1..], start, first, passes, poisoned);
    }
  }

  /** The first call of a pass. */
  lemma ReadingStarts(n: Name, s: Sys, now: int)
    requires Sound(n, s) && s.process.Resting? && HasRpc(s)
    ensures var level, poisoned := Level(WorldOf(s), n), Poisoned(Lookup(WorldOf(s), Monitor), n, StoredRpc(s).spec);
            Underway(n, CallStep(n, s, Answered, now), level, Favoured(WorldOf(s), n), poisoned)
  {
    Reads(n, s, now);
    hide CallStep, Level, Inspect, Ready;
  }

  lemma CallKeepsConverging(n: Name, s: Sys, reply: Reply, now: int, start: Sys, first: nat, passes: nat,
                            poisoned: bool)
    requires Sound(n, s) && COOPERATIVE.answer(s, reply) && Converging(n, s, start, first, passes, poisoned)
    ensures var next := CallStep(n, s, reply, now);
            if s.process.Resting? then Converging(n, next, s, first, passes, poisoned)
            else
              var more := if next.process.Resting? && Ready(WorldOf(start)) then 1 else 0;
              Converging(n, next, start, first, passes + more, poisoned)
  {
    hide CallStep, Level, Inspect, Ready, Achieved, Sound;
    if s.process.Resting? {
      assert reply == Answered;
      ReadingStarts(n, s, now);
      assert CallStep(n, s, reply, now).process.Running?;
    } else {
      var level := Level(WorldOf(start), n);
      CallGoesOn(n, s, reply, now, level, Favoured(WorldOf(start), n), poisoned);
    }
  }

  lemma {:induction false} RunsConverge(n: Name, s: Sys, ticks: seq<Tick<Slot>>)
    requires Sound(n, s) && s.process.Resting? && HasRpc(s) && Obeys(n, s, ticks, COOPERATIVE)
    ensures Sound(n, Exec(n, s, ticks))
    ensures Converging(n, Exec(n, s, ticks), PassStart(n, s, ticks), Level(WorldOf(s), n), ReadyPasses(n, s, ticks),
                       Poisoned(Lookup(WorldOf(s), Monitor), n, StoredRpc(s).spec))
  {
    if |ticks| > 0 {
      hide Sound, Converging, CallStep, Ready, Level;
      var earlier, last := ticks[..|ticks| - 1], ticks[|ticks| - 1];
      RunsConverge(n, s, earlier);
      var e := Exec(n, s, earlier);
      var start, first, passes := PassStart(n, s, earlier), Level(WorldOf(s), n), ReadyPasses(n, s, earlier);
      var poisoned := Poisoned(Lookup(WorldOf(s), Monitor), n, StoredRpc(s).spec);
      EnvKeepsConverging(n, e, last.env, start, first, passes, poisoned);
      CallKeepsSound(n, EnvSteps(e, last.env), last.reply, last.now);
      CallKeepsConverging(n, EnvSteps(e, last.env), last.reply, last.now, start, first, passes, poisoned);
    }
  }

  /** Let the environment bind claims, finish Jobs and report pods healthy whenever it likes, between any two calls.
      Every pass that starts with all of that done for what there is brings the resource a level closer, and no other
      pass takes it away; so after four of them nothing is left to do, and it stays that way. A monitor that makes the
      drift check panic stays as it is, and keeps nothing else from getting done. */
  lemma CooperationConverges(n: Name, s: Sys, ticks: seq<Tick<Slot>>)
    requires Sound(n, s) && s.process.Resting? && HasRpc(s) && Obeys(n, s, ticks, COOPERATIVE)
    requires Exec(n, s, ticks).process.Resting?
    ensures Level(WorldOf(Exec(n, s, ticks)), n) <= LevelsLeft(Level(WorldOf(s), n), ReadyPasses(n, s, ticks))
    ensures 4 <= ReadyPasses(n, s, ticks) || Finished(WorldOf(s), n) ==>
              var w := WorldOf(Exec(n, s, ticks));
              && Finished(w, n)
              && (!Poisoned(Lookup(WorldOf(s), Monitor), n, StoredRpc(s).spec)
                  <==> MonitorRight(w, n, w[TheRpc].rpc.spec))
              && (Monitor in w <==> MonitorWanted(w[TheRpc].rpc.spec))
  {
    RunsConverge(n, s, ticks);
  }
}
