/** The restore Job and the node's pod do not exist together. */
module Exclusion {
  import opened Objects
  import opened Conditions
  import opened Names
  import opened Server
  import opened Workload
  import opened Process
  import opened Machine
  import opened Soundness
  import opened Moves

  /** The three incidents after which Job and pod can meet. */
  predicate Overlap(h: History) {
    SkippedOverJob in h.incidents || ResetUnderPod in h.incidents || RpcDeleted in h.incidents
  }

  predicate PodApart(w: World) {
    RpcPod in w ==> RestoreJob !in w && StoredRestored(w)
  }

  predicate PassApart(w: World, p: Process) {
    && (Behind(p) ==> RestoreJob !in w)
    && (HeadsForPod(w, p) ==> Current(w, p.rpc))
  }

  predicate Apart(w: World, p: Process) {
    PodApart(w) && PassApart(w, p)
  }

  predicate ApartState(s: Sys) {
    Overlap(s.history) || Apart(WorldOf(s), s.process)
  }

  lemma EnvKeepsApart(n: Name, s: Sys, a: Action<Slot>)
    requires Sound(n, s) && ApartState(s)
    ensures ApartState(EnvStep(s, a))
  {
  }

  lemma WriteKeepsRestored(n: Name, p: Process, now: int)
    requires Local(n, p)
    ensures p.Running? && p.at.Storing? && Restored(p.rpc.conditions) && !Resetting(p) ==>
              Restored(Write(p.rpc.conditions, p.at.write, now))
  {
    if p.Running? && p.at.Storing? {
      WriteShapes(p.rpc.conditions, p.at.write, now);
    }
  }

  lemma OverlapStays(n: Name, w: World, p: Process, h: History, reply: Reply, after: World)
    ensures Overlap(h) ==> Overlap(RecordCall(n, w, p, h, reply, after))
  {
  }

  lemma CallKeepsPodApart(n: Name, s: Sys, reply: Reply, now: int, next: Sys)
    requires Apart(WorldOf(s), s.process) && Moved(n, s, reply, now, next)
    ensures Overlap(next.history) || PodApart(WorldOf(next))
  {
    WriteKeepsRestored(n, s.process, now);
  }

  lemma CallKeepsJobAway(n: Name, s: Sys, reply: Reply, now: int, next: Sys)
    requires Apart(WorldOf(s), s.process) && Moved(n, s, reply, now, next)
    ensures Behind(next.process) ==> Overlap(next.history) || RestoreJob !in WorldOf(next)
  {
    hide Sound, Write, HeadsForPod, StoredRestored;
  }

  lemma CallKeepsResource(n: Name, s: Sys, reply: Reply, now: int, next: Sys)
    requires Apart(WorldOf(s), s.process) && Moved(n, s, reply, now, next)
    ensures HeadsForPod(WorldOf(next), next.process) ==>
              Overlap(next.history) || Current(WorldOf(next), next.process.rpc)
  {
    if s.process.Running? && s.process.at.Storing? {
      WriteShapes(s.process.rpc.conditions, s.process.at.write, now);
    }
    hide Write, CallStep;
  }

  lemma CallKeepsPassApart(n: Name, s: Sys, reply: Reply, now: int, next: Sys)
    requires Apart(WorldOf(s), s.process) && Moved(n, s, reply, now, next)
    ensures Overlap(next.history) || PassApart(WorldOf(next), next.process)
  {
    CallKeepsJobAway(n, s, reply, now, next);
    CallKeepsResource(n, s, reply, now, next);
    hide Apart, Moved, Overlap, Behind, HeadsForPod, Current;
  }

  lemma CallKeepsApart(n: Name, s: Sys, reply: Reply, now: int, next: Sys)
    requires ApartState(s) && Moved(n, s, reply, now, next)
    ensures ApartState(next)
  {
    OverlapStays(n, WorldOf(s), s.process, s.history, reply, WorldOf(next));
    if Apart(WorldOf(s), s.process) {
      CallKeepsPodApart(n, s, reply, now, next);
      CallKeepsPassApart(n, s, reply, now, next);
    }
  }

  /** In every run: when the restore Job and the node's pod exist together, the restore had been recorded as skipped
      while the Job existed, or the status had been reset while the pod existed, or the custom resource had been deleted
      under the pod or under a pass on its way to it. Without such an incident, a pod implies a finished restore. */
  lemma JobAndPodApart(n: Name, ticks: seq<Tick<Slot>>, t: Tick<Slot>)
    ensures ApartState(Exec(n, INIT, ticks)) && ApartState(Before(n, INIT, ticks, t))
    ensures var s := Exec(n, INIT, ticks);
            RpcPod in WorldOf(s) && RestoreJob in WorldOf(s) ==> Overlap(s.history)
  {
    forall s, a | Sound(n, s) && ApartState(s) ensures ApartState(EnvStep(s, a)) { EnvKeepsApart(n, s, a); }
    forall s, reply, now, next | ApartState(s) && Moved(n, s, reply, now, next) ensures ApartState(next) {
      CallKeepsApart(n, s, reply, now, next);
    }
    AllRunsAreFree(n, INIT, ticks + [t]);
    SoundInvariant(n, INIT, ticks, t, ApartState, FREE);
  }

  /** The same state with a clean record, so that only what happens from now on is recorded. */
  function Forgiven(s: Sys): Sys {
    s.(history := s.history.(incidents := {}))
  }

  /** From a state in which Job and pod are kept apart, no run without an incident brings them together. */
  lemma ApartWithoutIncident(n: Name, s: Sys, ticks: seq<Tick<Slot>>)
    requires Sound(n, s) && Apart(WorldOf(s), s.process)
    ensures var later := Exec(n, Forgiven(s), ticks);
            later.history.incidents == {} ==> !(RestoreJob in WorldOf(later) && RpcPod in WorldOf(later))
  {
    var from, t := Forgiven(s), Tick([], Answered, 0);
    assert Sound(n, from) && ApartState(from);
    hide Sound, Apart, EnvStep, Moved;
    forall s, a | Sound(n, s) && ApartState(s) ensures ApartState(EnvStep(s, a)) { EnvKeepsApart(n, s, a); }
    forall s, reply, now, next | ApartState(s) && Moved(n, s, reply, now, next) ensures ApartState(next) {
      CallKeepsApart(n, s, reply, now, next);
    }
    AllRunsAreFree(n, from, ticks + [t]);
    SoundInvariant(n, from, ticks, t, ApartState, FREE);
  }

  // ---- With a steady environment ----

  /** The custom resource and its storage claim are never deleted, and the restore is not switched on or off. */
  const STEADY := Rules(
    (s: Sys, a: Action<Slot>) =>
      && a != Remove(TheRpc)
      && a != Remove(Storage)
      && (a.EditSpec? && a.key == TheRpc && TheRpc in WorldOf(s) && WorldOf(s)[TheRpc].RpcObject? ==>
            (a.spec.enable == Some(false) <==> WorldOf(s)[TheRpc].rpc.spec.enable == Some(false))),
    (s: Sys, reply: Reply) => true)

  predicate Steady(w: World, p: Process, h: History) {
    && !Overlap(h) && Apart(w, p)
    && (p.Running? ==> Current(w, p.rpc))
    && (TheRpc in w ==> w[TheRpc].RpcObject?)
    && (p.Running? ==> (p.rpc.spec.enable == Some(false) <==> w[TheRpc].rpc.spec.enable == Some(false)))
    && (RestoreJob in w ==> TheRpc in w && w[TheRpc].rpc.spec.enable != Some(false))
    && (RpcPod in w ==> Storage in w)
    && (p.Running? && !Early(p) ==> Storage in w)
    && (Resetting(p) ==> RpcPod !in w)
  }

  predicate SteadyState(s: Sys) {
    Steady(WorldOf(s), s.process, s.history)
  }

  lemma EnvKeepsSteady(n: Name, s: Sys, a: Action<Slot>)
    requires Sound(n, s) && SteadyState(s) && STEADY.act(s, a)
    ensures SteadyState(EnvStep(s, a))
  {
    hide Sound, Restored, Unhealthy;
  }

  lemma CallKeepsSteady(n: Name, s: Sys, reply: Reply, now: int, next: Sys)
    requires SteadyState(s) && Moved(n, s, reply, now, next)
    ensures SteadyState(next)
  {
    CallKeepsApart(n, s, reply, now, next);
  }

  /** Under a steady environment no run, with whatever interleaving and whatever failing calls, reaches a state with
      both the restore Job and the pod; a pod always means that the stored restore status is true. */
  lemma JobAndPodNeverMeet(n: Name, ticks: seq<Tick<Slot>>, t: Tick<Slot>)
    requires Obeys(n, INIT, ticks + [t], STEADY)
    ensures var w := WorldOf(Exec(n, INIT, ticks));
            !(RestoreJob in w && RpcPod in w) && (RpcPod in w ==> StoredRestored(w))
    ensures var w := WorldOf(Before(n, INIT, ticks, t));
            !(RestoreJob in w && RpcPod in w) && (RpcPod in w ==> StoredRestored(w))
  {
    forall s, a | Sound(n, s) && SteadyState(s) && STEADY.act(s, a) ensures SteadyState(EnvStep(s, a)) {
      EnvKeepsSteady(n, s, a);
    }
    forall s, reply, now, next | SteadyState(s) && Moved(n, s, reply, now, next) ensures SteadyState(next) {
      CallKeepsSteady(n, s, reply, now, next);
    }
    SoundInvariant(n, INIT, ticks, t, SteadyState, STEADY);
  }
}
