/** Left alone with a cooperative environment, the operator brings a resource to rest in at most five rounds. */
module Convergence {
  import opened Objects
  import opened Conditions
  import opened Names
  import opened Server
  import opened Monitoring
  import opened Workload
  import opened Process
  import opened Machine
  import opened Soundness
  import opened Moves
  import opened Passes
  import opened Segments

  // ---- A calm pass and a round ----

  lemma CallMovesForward(n: Name, s: Sys, reply: Reply, now: int)
    requires Sound(n, s) && s.process.Running?
    ensures var next := CallStep(n, s, reply, now);
            Sound(n, next) && (next.process.Running? ==> Rank(s.process.at) < Rank(next.process.at) <= 13)
  {
    CallKeepsSound(n, s, reply, now);
    AskFits(n, s, reply, now);
    PassesMoveForward(n, s.process, Serve(s.cluster, Ask(n, s.process, now), reply).1, now);
  }

  /** The rest of the pass, with every call answered; a pass only moves forward, so it ends. */
  ghost function RunOut(n: Name, s: Sys, ready: bool, now: int): (r: Sys)
    requires Sound(n, s)
    ensures r.process.Resting? && Sound(n, r)
    decreases if s.process.Running? then 14 - Rank(s.process.at) else 0
  {
    if s.process.Resting? then s
    else
      CallMovesForward(n, s, CalmReply(s.process, ready), now);
      RunOut(n, CallStep(n, s, CalmReply(s.process, ready), now), ready, now)
  }

  ghost function CalmPass(n: Name, s: Sys, ready: bool, now: int): (r: Sys)
    requires Sound(n, s) && s.process.Resting?
    ensures r.process.Resting? && Sound(n, r)
  {
    CallKeepsSound(n, s, Answered, now);
    RunOut(n, CallStep(n, s, Answered, now), ready, now)
  }

  /** Both claims get bound, a Job that is there succeeds and a pod that is there is healthy. */
  function Settle(healthy: PodStatus): seq<Action<Slot>> {
    [
      BindClaim(Storage, ClaimBound), BindClaim(Scratch, ClaimBound),
      JobSucceeds(RestoreJob), PodReports(RpcPod, healthy)
    ]
  }

  ghost function Round(n: Name, s: Sys, healthy: PodStatus, ready: bool, now: int): (r: Sys)
    requires Sound(n, s) && s.process.Resting?
    ensures r.process.Resting? && Sound(n, r)
  {
    EnvIsSound(n, s, Settle(healthy));
    CalmPass(n, EnvSteps(s, Settle(healthy)), ready, now)
  }

  /** The relation the segments are chained over: they do not change where the pass ends. */
  ghost function PassSetting(n: Name, ready: bool, now: int): Setting {
    Setting(n, ready, now,
            (x, y) => Sound(n, x) ==> Sound(n, y) && RunOut(n, x, ready, now) == RunOut(n, y, ready, now), FREE)
  }

  lemma PassIsCalm(n: Name, ready: bool, now: int)
    ensures Calmly(PassSetting(n, ready, now))
  {
    var c := PassSetting(n, ready, now);
    forall s: Sys | s.process.Running?
      ensures c.R(s, CallStep(n, s, CalmReply(s.process, ready), now))
    {
      if Sound(n, s) {
        CallMovesForward(n, s, CalmReply(s.process, ready), now);
      }
    }
  }

  // ---- Stages ----

  /** What the pass makes of the pod, given the one it found. */
  function PodAfter(o: Option<Object>, n: Name, spec: Spec): Pod {
    if o.Some? && o.value.PodObject? then o.value.pod.(image := GetPodImage(spec)) else GetWantedPod(n, spec)
  }

  predicate Holds(s: Sys, rpc: Rpc) {
    HasRpc(s) && StoredRpc(s) == rpc && Shaped(rpc.conditions)
  }

  predicate SameResource(a: Rpc, b: Rpc) {
    a == b.(conditions := a.conditions)
  }

  /** The pod stage. */
  lemma ServesPod(c: Setting, s: Sys) returns (next: Sys, rpc: Rpc)
    requires Calmly(c)
    requires At(s.process, Upsert(RpcPod, Filing)) && Holds(s, s.process.rpc) && Restored(s.process.rpc.conditions)
    requires PodFine(WorldOf(s))
    ensures c.R(s, next)
    ensures SameResource(rpc, s.process.rpc) && Shaped(rpc.conditions) && Restored(rpc.conditions)
    ensures RpcPod in WorldOf(s) ==> Probed(c, s.process.rpc.conditions, rpc.conditions,
        WorldOf(s)[RpcPod].pod.status.running)
    ensures next.process == EnterMonitor(rpc)
    ensures var pod := PodAfter(Lookup(WorldOf(s), RpcPod), c.n, rpc.spec);
            WorldOf(next) == WorldOf(s)[TheRpc := RpcObject(rpc)][RpcPod := PodObject(pod)]
  {
    if RpcPod in WorldOf(s) {
      var a := FindsPod(c, s);
      var b, pod := RepairsPod(c, a);
      next, rpc := ProbesPod(c, b, pod);
    } else {
      var a := MakesPod(c, s);
      next, rpc := RecordsPod(c, a);
    }
  }

  /** The monitor stage. */
  lemma ServesMonitor(c: Setting, s: Sys, rpc: Rpc) returns (next: Sys)
    requires Calmly(c)
    requires s.process == EnterMonitor(rpc) && RpcPod in WorldOf(s)
    requires Monitor in WorldOf(s) ==> WorldOf(s)[Monitor].MonitorObject?
    ensures c.R(s, next) && next.process.Resting?
    ensures WorldOf(next) == Put(WorldOf(s), Monitor, MonitorAfter(Lookup(WorldOf(s), Monitor), c.n, rpc.spec))
  {
    hide Inspect, Refresh, GetWantedPodMonitor, MonitorEnabled, CallStep, CalmReply;
    if !MonitorEnabled(rpc.spec) {
      next := DropsMonitor(c, s);
    } else if Monitor in WorldOf(s) {
      var a := FindsMonitor(c, s);
      next := RepairsMonitor(c, a);
    } else {
      next := MakesMonitor(c, s);
    }
  }

  /** The resource is served: everything after the gate has been done, and the rest was left alone. */
  predicate Served(c: Setting, was: World, rpc: Rpc, now: World, done: Rpc) {
    && SameResource(done, rpc) && Shaped(done.conditions) && Restored(done.conditions)
    && (RpcPod in was && was[RpcPod].PodObject? ==>
        Probed(c, rpc.conditions, done.conditions, was[RpcPod].pod.status.running))
    && now ==
       Put(was[TheRpc := RpcObject(done)][RpcPod := PodObject(PodAfter(Lookup(was, RpcPod), c.n, done.spec))],
           Monitor, MonitorAfter(Lookup(was, Monitor), c.n, done.spec))
  }

  lemma Serves(c: Setting, s: Sys) returns (next: Sys, done: Rpc)
    requires Calmly(c)
    requires At(s.process, Upsert(RpcPod, Filing)) && Holds(s, s.process.rpc) && Restored(s.process.rpc.conditions)
    requires PodFine(WorldOf(s)) && (Monitor in WorldOf(s) ==> WorldOf(s)[Monitor].MonitorObject?)
    ensures c.R(s, next) && next.process.Resting?
    ensures Served(c, WorldOf(s), s.process.rpc, WorldOf(next), done)
  {
    var a;
    a, done := ServesPod(c, s);
    next := ServesMonitor(c, a, done);
  }

  predicate Prepared(w: World, rpc: Rpc, now: World, done: Rpc) {
    if Storage in w then now == w && done == rpc
    else !Restored(done.conditions) && now == w[Storage := ClaimObject(Claim(ClaimPending))][TheRpc := RpcObject(done)]
  }

  /** Every pass gets to the restore step, with a storage claim. If it had to create it, the status is not true. */
  lemma GetsToRestore(c: Setting, s: Sys) returns (next: Sys, rpc: Rpc)
    requires Calmly(c)
    requires At(s.process, CreateStorage) && Holds(s, s.process.rpc)
    ensures s == next || c.R(s, next)
    ensures next.process == EnterRestore(rpc) && Shaped(rpc.conditions) && SameResource(rpc, s.process.rpc)
    ensures Prepared(WorldOf(s), s.process.rpc, WorldOf(next), rpc)
  {
    rpc := s.process.rpc;
    if Storage in WorldOf(s) {
      next := FindsStorage(c, s);
    } else {
      var a := MakesStorage(c, s);
      next, rpc := Resets(c, a);
    }
  }

  predicate Advanced(n: Name, w: World, rpc: Rpc, now: World, done: Rpc) {
    if Scratch !in w then done == rpc && now == w[Scratch := ClaimObject(Claim(ClaimPending))]
    else if !Bound(w, Storage) then done == rpc && now == w
    else if RestoreJob !in w then
      !Restored(done.conditions) && now == w[RestoreJob := JobObject(GetWantedRestoreJob(n))][TheRpc := RpcObject(done)]
    else Restored(done.conditions) && now == w[TheRpc := RpcObject(done)]
  }

  /** The restore step of a resource that wants its data restored and has not got it yet. */
  lemma AdvancesRestore(c: Setting, s: Sys, rpc: Rpc) returns (next: Sys, done: Rpc)
    requires Calmly(c)
    requires s.process == EnterRestore(rpc) && Holds(s, rpc) && !Restored(rpc.conditions) && RestoreEnabled(rpc.spec)
    requires Storage in WorldOf(s) && (Scratch in WorldOf(s) ==> Bound(WorldOf(s), Scratch))
    requires Bound(WorldOf(s), Storage) || !ReadyClaim(WorldOf(s)[Storage])
    requires RestoreJob in WorldOf(s) ==> HasSucceeded(WorldOf(s))
    ensures c.R(s, next) && next.process.Resting?
    ensures SameResource(done, rpc) && Shaped(done.conditions)
    ensures Advanced(c.n, WorldOf(s), rpc, WorldOf(next), done)
  {
    done := rpc;
    if Scratch !in WorldOf(s) {
      next := MakesScratch(c, s);
    } else if !Bound(WorldOf(s), Storage) {
      next := WaitsForStorage(c, s);
    } else {
      var a := ReachesJob(c, s);
      if RestoreJob !in WorldOf(s) {
        next, done := MakesJob(c, a);
      } else {
        var b := FindsJob(c, a);
        next, done := Finishes(c, b);
      }
    }
  }

  // ---- The measure ----

  /** The state further rounds leave alone. */
  predicate Stable(w: World, n: Name, healthy: PodStatus, ready: bool) {
    && TheRpc in w && w[TheRpc].RpcObject?
    && (var rpc := w[TheRpc].rpc;
        && Shaped(rpc.conditions) && Restored(rpc.conditions)
        && Bound(w, Storage)
        && Scratch !in w && RestoreJob !in w
        && RpcPod in w && w[RpcPod].PodObject?
        && AsksForImage(rpc.spec, w[RpcPod].pod.image) && w[RpcPod].pod.status == healthy
        && (healthy.running && ready ==> rpc.conditions[1].reason.CatchingUp?)
        && MonitorRight(w, n, rpc.spec))
  }

  /** How many rounds it can still take. */
  function Distance(w: World, n: Name, healthy: PodStatus, ready: bool): (d: nat)
    requires TheRpc in w && w[TheRpc].RpcObject?
    ensures d <= 5
  {
    var restored, enabled := Restored(w[TheRpc].rpc.conditions), RestoreEnabled(w[TheRpc].rpc.spec);
    if Stable(w, n, healthy, ready) then 0
    else if restored && Storage in w && RpcPod in w then 1
    else if (restored && Storage in w) || !enabled then 2
    else if !restored && Storage in w && Scratch in w && RestoreJob in w then 3
    else if !restored && Storage in w && Scratch in w then 4
    else 5
  }

  predicate PoisonedWorld(w: World, n: Name)
    requires TheRpc in w && w[TheRpc].RpcObject?
  {
    Poisoned(Lookup(w, Monitor), n, w[TheRpc].rpc.spec)
  }

  /** What the environment has arranged by the time the pass starts. */
  predicate Settled(was: World, w: World, healthy: PodStatus) {
    && (forall k :: k in w <==> k in was)
    && (forall k :: k in w && k != Storage && k != Scratch && k != RestoreJob && k != RpcPod ==> w[k] == was[k])
    && (Storage in w ==> Bound(w, Storage))
    && (Scratch in w ==> Bound(w, Scratch))
    && (RestoreJob in w ==> HasSucceeded(w))
    && (RpcPod in w ==> was[RpcPod].PodObject? && w[RpcPod] == PodObject(was[RpcPod].pod.(status := healthy)))
  }

  lemma EnvStepsUnfold(s: Sys, env: seq<Action<Slot>>, i: nat)
    requires i < |env|
    ensures EnvSteps(s, env[i..]) == EnvSteps(EnvStep(s, env[i]), env[i + 1..])
  {
    assert env[i..][1..] == env[i + 1..];
  }

  /** An action on an object changes that object, if it is there. */
  predicate Changed(w: World, a: Action<Slot>, after: World)
    requires a.BindClaim? || a.JobSucceeds? || a.PodReports?
  {
    && (forall k :: k in after <==> k in w)
    && (forall k :: k in w && k != a.key ==> after[k] == w[k])
    && (a.key in w ==> Some(after[a.key]) == ActOne(Some(w[a.key]), a, 0))
  }

  lemma ActionChanges(s: Sys, a: Action<Slot>)
    requires a.BindClaim? || a.JobSucceeds? || a.PodReports?
    ensures Changed(WorldOf(s), a, WorldOf(EnvStep(s, a)))
  {
  }

  lemma ChangesSettleOne(w0: World, w1: World, w2: World, w3: World, w4: World, healthy: PodStatus, k: Slot)
    requires k in w0 && KindOf(w0[k]) == SlotKind(k)
    requires Changed(w0, BindClaim(Storage, ClaimBound), w1) && Changed(w1, BindClaim(Scratch, ClaimBound), w2)
    requires Changed(w2, JobSucceeds(RestoreJob), w3) && Changed(w3, PodReports(RpcPod, healthy), w4)
    ensures k in w4
    ensures match k
            case TheRpc => w4[k] == w0[k]
            case Monitor => w4[k] == w0[k]
            case RestoreJob => HasSucceeded(w4)
            case RpcPod => w4[k] == PodObject(w0[k].pod.(status := healthy))
            case _ => Bound(w4, k)
  {
    assert k in w1 && k in w2 && k in w3;
  }

  lemma ChangesSettle(w0: World, w1: World, w2: World, w3: World, w4: World, healthy: PodStatus)
    requires Typed(w0)
    requires Changed(w0, BindClaim(Storage, ClaimBound), w1) && Changed(w1, BindClaim(Scratch, ClaimBound), w2)
    requires Changed(w2, JobSucceeds(RestoreJob), w3) && Changed(w3, PodReports(RpcPod, healthy), w4)
    ensures Settled(w0, w4, healthy)
  {
    forall k | k in w0 {
      ChangesSettleOne(w0, w1, w2, w3, w4, healthy, k);
    }
    assert forall k :: k in w4 <==> k in w0;
  }

  lemma EnvSettles(n: Name, s: Sys, healthy: PodStatus)
    requires Typed(WorldOf(s))
    ensures Settled(WorldOf(s), WorldOf(EnvSteps(s, Settle(healthy))), healthy)
  {
    var env := Settle(healthy);
    assert env[0..] == env && env[4..] == [];
    var a := EnvStep(s, env[0]);
    var b := EnvStep(a, env[1]);
    var c := EnvStep(b, env[2]);
    EnvStepsUnfold(s, env, 0);
    EnvStepsUnfold(a, env, 1);
    EnvStepsUnfold(b, env, 2);
    EnvStepsUnfold(c, env, 3);
    ActionChanges(s, env[0]);
    ActionChanges(a, env[1]);
    ActionChanges(b, env[2]);
    ActionChanges(c, env[3]);
    ChangesSettle(WorldOf(s), WorldOf(a), WorldOf(b), WorldOf(c), WorldOf(EnvStep(c, env[3])), healthy);
  }

  // ---- A round brings the resource closer ----

  /** A served resource is one round from rest, whatever the restore has left behind. */
  lemma ServedIsNear(c: Setting, was: World, rpc: Rpc, now: World, done: Rpc, healthy: PodStatus)
    requires Served(c, was, rpc, now, done) && Storage in was
    requires Monitor in was ==> was[Monitor].MonitorObject?
    ensures TheRpc in now && now[TheRpc] == RpcObject(done)
    ensures Distance(now, c.n, healthy, c.ready) <= 1
    ensures Poisoned(Lookup(now, Monitor), c.n, done.spec) <==> Poisoned(Lookup(was, Monitor), c.n, rpc.spec)
  {
    MonitorStaysPoisoned(Lookup(was, Monitor), c.n, rpc.spec);
  }

  lemma MonitorStaysPoisoned(o: Option<Object>, n: Name, spec: Spec)
    requires o.Some? ==> o.value.MonitorObject?
    ensures Poisoned(MonitorAfter(o, n, spec), n, spec) <==> Poisoned(o, n, spec)
  {
    MonitorGetsUpToDate(o, n, spec);
  }

  lemma MonitorGetsUpToDate(o: Option<Object>, n: Name, spec: Spec)
    requires o.Some? ==> o.value.MonitorObject?
    ensures !Poisoned(o, n, spec) && MonitorEnabled(spec) ==>
              MonitorAfter(o, n, spec).Some? && MonitorAfter(o, n, spec).value.MonitorObject?
              && Inspect(MonitorAfter(o, n, spec).value.monitor, n, spec).UpToDate?
  {
    if o.Some? {
      RefreshSettles(o.value.monitor, n, spec);
    }
    WantedMonitorIsRight(n, spec);
    hide Inspect, Refresh, GetWantedPodMonitor;
  }

  /** A served resource with nothing left to clean up, a healthy pod and a monitor that can be checked is at rest. */
  lemma ServedIsStable(c: Setting, was: World, rpc: Rpc, now: World, done: Rpc, healthy: PodStatus)
    requires Served(c, was, rpc, now, done)
    requires TheRpc in was && was[TheRpc] == RpcObject(rpc)
    requires Monitor in was ==> was[Monitor].MonitorObject?
    requires Bound(was, Storage) && Scratch !in was && RestoreJob !in was
    requires RpcPod in was && was[RpcPod].PodObject? && was[RpcPod].pod.status == healthy
    requires !Poisoned(Lookup(was, Monitor), c.n, rpc.spec)
    ensures Stable(now, c.n, healthy, c.ready)
  {
    hide Inspect, Refresh, GetWantedPodMonitor, GetWantedPod;
    MonitorGetsUpToDate(Lookup(was, Monitor), c.n, rpc.spec);
  }

  /** Serving a resource at rest changes nothing. */
  lemma ServedStaysStable(c: Setting, was: World, rpc: Rpc, now: World, done: Rpc, healthy: PodStatus)
    requires Served(c, was, rpc, now, done)
    requires TheRpc in was && was[TheRpc] == RpcObject(rpc) && Stable(was, c.n, healthy, c.ready)
    ensures now == was
  {
    assert done.conditions == rpc.conditions;
  }

  /** One pass, seen from the measure. */
  predicate Closer(w: World, now: World, n: Name, healthy: PodStatus, ready: bool)
    requires TheRpc in w && w[TheRpc].RpcObject? && TheRpc in now && now[TheRpc].RpcObject?
  {
    var before, after := Distance(w, n, healthy, ready), Distance(now, n, healthy, ready);
    && (PoisonedWorld(now, n) <==> PoisonedWorld(w, n))
    && (after < before || (before == 0 && now == w) || (before == 1 && PoisonedWorld(w, n) && after <= 1))
  }

  lemma DistanceOfRestored(w: World, n: Name, healthy: PodStatus, ready: bool)
    requires TheRpc in w && w[TheRpc].RpcObject? && Restored(w[TheRpc].rpc.conditions) && Storage in w
    ensures Distance(w, n, healthy, ready) == if Stable(w, n, healthy, ready) then 0 else if RpcPod in w then 1 else 2
    ensures Stable(w, n, healthy, ready) ==> w - {RestoreJob, Scratch} == w && RpcPod in w && !PoisonedWorld(w, n)
  {
  }

  lemma RestoredCloser(c: Setting, w: World, rpc: Rpc, now: World, done: Rpc, healthy: PodStatus)
    requires Typed(w) && Settled(w, w, healthy)
    requires TheRpc in w && w[TheRpc] == RpcObject(rpc) && Restored(rpc.conditions) && Storage in w
    requires Served(c, w - {RestoreJob, Scratch}, rpc, now, done)
    ensures TheRpc in now && now[TheRpc].RpcObject? && Closer(w, now, c.n, healthy, c.ready)
  {
    hide Inspect, Refresh, GetWantedPodMonitor, GetWantedPod, GetPodImage, MonitorRight, AsksForImage, Unhealthy;
    var was := w - {RestoreJob, Scratch};
    DistanceOfRestored(w, c.n, healthy, c.ready);
    ServedIsNear(c, was, rpc, now, done, healthy);
    if RpcPod in w && !PoisonedWorld(w, c.n) {
      ServedIsStable(c, was, rpc, now, done, healthy);
    }
    if Stable(w, c.n, healthy, c.ready) {
      ServedStaysStable(c, was, rpc, now, done, healthy);
    }
  }

  lemma SkippedCloser(c: Setting, w: World, was: World, rpc: Rpc, now: World, done: Rpc, healthy: PodStatus)
    requires Typed(w) && TheRpc in w && SameResource(w[TheRpc].rpc, rpc) && !RestoreEnabled(rpc.spec)
    requires !(Restored(w[TheRpc].rpc.conditions) && Storage in w)
    requires Storage in was && (Monitor in was <==> Monitor in w) && (Monitor in w ==> was[Monitor] == w[Monitor])
    requires Served(c, was, rpc, now, done)
    ensures TheRpc in now && now[TheRpc].RpcObject? && Closer(w, now, c.n, healthy, c.ready)
  {
    ServedIsNear(c, was, rpc, now, done, healthy);
  }

  lemma AdvancedCloser(n: Name, w: World, mine: Rpc, was: World, rpc: Rpc, now: World, done: Rpc, healthy: PodStatus,
      ready: bool)
    requires TheRpc in w && w[TheRpc] == RpcObject(mine) && Settled(w, w, healthy)
    requires Prepared(w, mine, was, rpc) && Advanced(n, was, rpc, now, done)
    requires SameResource(rpc, mine) && SameResource(done, rpc)
    requires !Restored(rpc.conditions) && RestoreEnabled(rpc.spec)
    ensures TheRpc in now && now[TheRpc].RpcObject? && Closer(w, now, n, healthy, ready)
  {
  }

  /** The end of a calm pass that has read its resource. */
  lemma PassAdvances(c: Setting, s: Sys, healthy: PodStatus) returns (end: Sys)
    requires Calmly(c) && Typed(WorldOf(s))
    requires At(s.process, CreateStorage) && Holds(s, s.process.rpc) && !Unhealthy(healthy)
    requires Settled(WorldOf(s), WorldOf(s), healthy)
    ensures c.R(s, end) && end.process.Resting?
    ensures HasRpc(end) && Closer(WorldOf(s), WorldOf(end), c.n, healthy, c.ready)
  {
    var a, rpc := GetsToRestore(c, s);
    if Restored(rpc.conditions) {
      end := RestoredPass(c, s, a, rpc, healthy);
    } else if !RestoreEnabled(rpc.spec) {
      end := SkippedPass(c, s, a, rpc, healthy);
    } else {
      var done;
      end, done := AdvancesRestore(c, a, rpc);
      AdvancedCloser(c.n, WorldOf(s), s.process.rpc, WorldOf(a), rpc, WorldOf(end), done, healthy, c.ready);
    }
  }

  lemma RestoredPass(c: Setting, s: Sys, a: Sys, rpc: Rpc, healthy: PodStatus) returns (end: Sys)
    requires Calmly(c) && Typed(WorldOf(s)) && Settled(WorldOf(s), WorldOf(s), healthy) && !Unhealthy(healthy)
    requires a.process == EnterRestore(rpc) && WorldOf(a) == WorldOf(s) && Holds(s, rpc)
    requires Restored(rpc.conditions) && Storage in WorldOf(s)
    ensures c.R(a, end) && end.process.Resting?
    ensures HasRpc(end) && Closer(WorldOf(s), WorldOf(end), c.n, healthy, c.ready)
  {
    var b := CleansUp(c, a);
    var done;
    end, done := Serves(c, b);
    RestoredCloser(c, WorldOf(s), rpc, WorldOf(end), done, healthy);
  }

  lemma SkippedPass(c: Setting, s: Sys, a: Sys, rpc: Rpc, healthy: PodStatus) returns (end: Sys)
    requires Calmly(c) && Typed(WorldOf(s)) && Settled(WorldOf(s), WorldOf(s), healthy) && !Unhealthy(healthy)
    requires HasRpc(s) && SameResource(rpc, StoredRpc(s)) && Shaped(rpc.conditions)
        && Prepared(WorldOf(s), StoredRpc(s), WorldOf(a), rpc)
    requires a.process == EnterRestore(rpc) && !Restored(rpc.conditions) && !RestoreEnabled(rpc.spec)
    ensures c.R(a, end) && end.process.Resting?
    ensures HasRpc(end) && Closer(WorldOf(s), WorldOf(end), c.n, healthy, c.ready)
  {
    var b, skipped := Skips(c, a);
    var done;
    end, done := Serves(c, b);
    SkippedCloser(c, WorldOf(s), WorldOf(b), skipped, WorldOf(end), done, healthy);
  }

  /** Initialising the conditions of a new resource does not move it away from rest. */
  lemma InitialisingIsFree(w: World, rpc: Rpc, n: Name, healthy: PodStatus, ready: bool)
    requires TheRpc in w && w[TheRpc].RpcObject? && w[TheRpc].rpc.conditions == []
    requires SameResource(rpc, w[TheRpc].rpc) && Shaped(rpc.conditions) && !Restored(rpc.conditions)
    ensures Distance(w[TheRpc := RpcObject(rpc)], n, healthy, ready) == Distance(w, n, healthy, ready) > 1
    ensures PoisonedWorld(w[TheRpc := RpcObject(rpc)], n) <==> PoisonedWorld(w, n)
  {
  }

  /** Settling does not either. */
  lemma SettlingIsFree(was: World, w: World, n: Name, healthy: PodStatus, ready: bool)
    requires Typed(was) && TheRpc in was && Settled(was, w, healthy)
    ensures Distance(w, n, healthy, ready) <= Distance(was, n, healthy, ready)
    ensures Distance(w, n, healthy, ready) == 0 && Distance(was, n, healthy, ready) > 0 ==>
              Distance(was, n, healthy, ready) == 1
    ensures Stable(was, n, healthy, ready) ==> w == was
    ensures PoisonedWorld(w, n) <==> PoisonedWorld(was, n)
  {
  }

  /** A pass that has read its resource ends where the segments say. */
  lemma EndsThere(n: Name, s: Sys, end: Sys, ready: bool, now: int)
    requires Sound(n, s) && PassSetting(n, ready, now).R(s, end) && end.process.Resting?
    ensures RunOut(n, s, ready, now) == end
  {
  }

  lemma FreeThenCloser(w: World, middle: World, now: World, n: Name, healthy: PodStatus, ready: bool)
    requires TheRpc in w && w[TheRpc].RpcObject? && TheRpc in middle && middle[TheRpc].RpcObject?
    requires TheRpc in now && now[TheRpc].RpcObject?
    requires Distance(middle, n, healthy, ready) == Distance(w, n, healthy, ready) > 1
    requires PoisonedWorld(middle, n) <==> PoisonedWorld(w, n)
    requires Closer(middle, now, n, healthy, ready)
    ensures Closer(w, now, n, healthy, ready)
  {
  }

  /** The same for a resource that has no conditions yet. */
  lemma NewPassAdvances(c: Setting, s: Sys, healthy: PodStatus) returns (end: Sys)
    requires Calmly(c) && Typed(WorldOf(s))
    requires At(s.process, Storing(Initialize)) && HasRpc(s) && StoredRpc(s) == s.process.rpc
        && s.process.rpc.conditions == []
    requires Settled(WorldOf(s), WorldOf(s), healthy) && !Unhealthy(healthy)
    ensures c.R(s, end) && end.process.Resting?
    ensures HasRpc(end) && Closer(WorldOf(s), WorldOf(end), c.n, healthy, c.ready)
  {
    var first, rpc := Initializes(c, s);
    InitialisingIsFree(WorldOf(s), rpc, c.n, healthy, c.ready);
    end := PassAdvances(c, first, healthy);
    FreeThenCloser(WorldOf(s), WorldOf(first), WorldOf(end), c.n, healthy, c.ready);
  }

  lemma RunningPassCloser(n: Name, s: Sys, healthy: PodStatus, ready: bool, now: int)
    requires Sound(n, s) && HasRpc(s) && s.process.Running? && StoredRpc(s) == s.process.rpc
    requires s.process.at == if StoredRpc(s).conditions == [] then Storing(Initialize) else CreateStorage
    requires Settled(WorldOf(s), WorldOf(s), healthy) && !Unhealthy(healthy)
    ensures var end := RunOut(n, s, ready, now); HasRpc(end) && Closer(WorldOf(s), WorldOf(end), n, healthy, ready)
  {
    PassIsCalm(n, ready, now);
    var end;
    if s.process.at == CreateStorage {
      end := PassAdvances(PassSetting(n, ready, now), s, healthy);
    } else {
      end := NewPassAdvances(PassSetting(n, ready, now), s, healthy);
    }
    EndsThere(n, s, end, ready, now);
  }

  lemma CalmPassCloser(n: Name, s: Sys, healthy: PodStatus, ready: bool, now: int)
    requires Sound(n, s) && s.process.Resting? && HasRpc(s) && !Unhealthy(healthy)
    requires Settled(WorldOf(s), WorldOf(s), healthy)
    ensures var end := CalmPass(n, s, ready, now); HasRpc(end) && Closer(WorldOf(s), WorldOf(end), n, healthy, ready)
  {
    Reads(n, s, now);
    CallKeepsSound(n, s, Answered, now);
    RunningPassCloser(n, CallStep(n, s, Answered, now), healthy, ready, now);
  }

  /** A round brings the resource strictly closer to rest or leaves a resource at rest exactly as it is. The one
      exception is a monitor whose check dereferences a nil port: it is never repaired, and the round stalls there. */
  lemma RoundConverges(n: Name, s: Sys, healthy: PodStatus, ready: bool, now: int)
    requires Sound(n, s) && s.process.Resting? && HasRpc(s) && !Unhealthy(healthy)
    ensures var end := Round(n, s, healthy, ready, now);
            HasRpc(end) && Closer(WorldOf(s), WorldOf(end), n, healthy, ready)
  {
    var settled := EnvSteps(s, Settle(healthy));
    EnvIsSound(n, s, Settle(healthy));
    EnvSettles(n, s, healthy);
    SettlingIsFree(WorldOf(s), WorldOf(settled), n, healthy, ready);
    CalmPassCloser(n, settled, healthy, ready, now);
  }

  ghost function Rounds(n: Name, s: Sys, healthy: PodStatus, ready: bool, clock: nat -> int, k: nat): (r: Sys)
    requires Sound(n, s) && s.process.Resting?
    ensures r.process.Resting? && Sound(n, r)
  {
    if k == 0 then s else Round(n, Rounds(n, s, healthy, ready, clock, k - 1), healthy, ready, clock(k - 1))
  }

  function Left(k: nat): nat { if k < 5 then 5 - k else 0 }

  /** How near to rest a resource is that started poisoned, or not. */
  predicate Near(s: Sys, poisoned: bool, n: Name, healthy: PodStatus, ready: bool, k: nat) {
    && HasRpc(s)
    && (PoisonedWorld(WorldOf(s), n) <==> poisoned)
    && (!poisoned ==> Distance(WorldOf(s), n, healthy, ready) <= Left(k))
  }

  lemma RoundNears(n: Name, s: Sys, poisoned: bool, healthy: PodStatus, ready: bool, now: int, k: nat)
    requires Sound(n, s) && s.process.Resting? && !Unhealthy(healthy) && Near(s, poisoned, n, healthy, ready, k)
    ensures Near(Round(n, s, healthy, ready, now), poisoned, n, healthy, ready, k + 1)
  {
    RoundConverges(n, s, healthy, ready, now);
  }

  lemma {:induction false} RoundsComeCloser(n: Name, s: Sys, poisoned: bool, healthy: PodStatus, ready: bool,
      clock: nat -> int, k: nat)
    requires Sound(n, s) && s.process.Resting? && !Unhealthy(healthy) && Near(s, poisoned, n, healthy, ready, 0)
    ensures Near(Rounds(n, s, healthy, ready, clock, k), poisoned, n, healthy, ready, k)
  {
    if k > 0 {
      RoundsComeCloser(n, s, poisoned, healthy, ready, clock, k - 1);
      RoundNears(n, Rounds(n, s, healthy, ready, clock, k - 1), poisoned, healthy, ready, clock(k - 1), k - 1);
    }
  }

  /** From every sound state with a custom resource, five rounds bring it to rest, and it stays there; the only
      resources for which they do not are those whose monitor has to be checked and makes the check panic. The monitor
      is there, right or not, exactly when the resource asks for one, and the pod works on the storage claim. */
  lemma FiveRoundsConverge(n: Name, s: Sys, healthy: PodStatus, ready: bool, clock: nat -> int, k: nat)
    requires Sound(n, s) && s.process.Resting? && HasRpc(s) && !Unhealthy(healthy) && k >= 5
    ensures Stable(WorldOf(Rounds(n, s, healthy, ready, clock, k)), n, healthy, ready)
            <==> !PoisonedWorld(WorldOf(s), n)
    ensures !PoisonedWorld(WorldOf(s), n) ==>
              WorldOf(Rounds(n, s, healthy, ready, clock, k + 1)) == WorldOf(Rounds(n, s, healthy, ready, clock, k))
    ensures var w := WorldOf(Rounds(n, s, healthy, ready, clock, k));
            && TheRpc in w && w[TheRpc].RpcObject?
            && (Monitor in w <==> MonitorWanted(w[TheRpc].rpc.spec))
            && (RpcPod in w ==> w[RpcPod].PodObject? && ClaimKey(n, w[RpcPod].pod.claim) == KeyOf(n, Storage))
  {
    RoundsComeCloser(n, s, PoisonedWorld(WorldOf(s), n), healthy, ready, clock, k);
    var end := Rounds(n, s, healthy, ready, clock, k);
    RoundConverges(n, end, healthy, ready, clock(k));
  }

  // ---- A deleted pod comes back ----

  /** The calm pass after one that deleted the pod makes it again, as wanted, when the restore status is still true. */
  lemma NextPassRecreatesPod(n: Name, s: Sys, ready: bool, now: int)
    requires Sound(n, s) && s.process.Resting? && HasRpc(s) && Restored(StoredRpc(s).conditions)
    requires Storage in WorldOf(s) && RpcPod !in WorldOf(s)
    ensures Lookup(WorldOf(CalmPass(n, s, ready, now)), RpcPod) == Some(PodObject(GetWantedPod(n, StoredRpc(s).spec)))
  {
    Reads(n, s, now);
    CallKeepsSound(n, s, Answered, now);
    PassIsCalm(n, ready, now);
    var start := CallStep(n, s, Answered, now);
    var end := RestoredPassMakesPod(PassSetting(n, ready, now), start);
    EndsThere(n, start, end, ready, now);
  }

  lemma RestoredPassMakesPod(c: Setting, s: Sys) returns (end: Sys)
    requires Calmly(c) && Typed(WorldOf(s))
    requires At(s.process, CreateStorage) && Holds(s, s.process.rpc) && Restored(s.process.rpc.conditions)
    requires Storage in WorldOf(s) && RpcPod !in WorldOf(s)
    ensures c.R(s, end) && end.process.Resting?
    ensures Lookup(WorldOf(end), RpcPod) == Some(PodObject(GetWantedPod(c.n, s.process.rpc.spec)))
  {
    var a := FindsStorage(c, s);
    var b := CleansUp(c, a);
    var done;
    end, done := Serves(c, b);
  }
}
