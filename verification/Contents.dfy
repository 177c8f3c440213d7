/** What the operator puts into the objects it writes, field by field, in every run. */
module Contents {
  import opened Objects
  import opened Conditions
  import opened Names
  import opened Server
  import opened Monitoring
  import opened Workload
  import opened Process
  import opened Machine
  import opened Soundness
  import opened Moves

  // ---- The claims that Job and pod work on ----

  predicate VolumesAreRight(n: Name, w: World) {
    && (RestoreJob in w ==>
          && w[RestoreJob].JobObject?
          && ClaimKey(n, w[RestoreJob].job.data) == KeyOf(n, Storage)
          && ClaimKey(n, w[RestoreJob].job.scratch) == KeyOf(n, Scratch))
    && (RpcPod in w ==> w[RpcPod].PodObject? && ClaimKey(n, w[RpcPod].pod.claim) == KeyOf(n, Storage))
  }

  /** In every run, a stored Job restores into the storage claim and unpacks in the scratch claim, and a stored pod
      works on the storage claim. */
  lemma StoredVolumesAreRight(n: Name, ticks: seq<Tick<Slot>>, t: Tick<Slot>)
    ensures VolumesAreRight(n, WorldOf(Exec(n, INIT, ticks))) && VolumesAreRight(n, WorldOf(Before(n, INIT, ticks, t)))
  {
    RunsAreSound(n, ticks, t);
  }

  /** In every run, a success makes the current storage claim a restored one only if the Job restores into it and was
      made for it. */
  lemma SuccessIsCredited(n: Name, ticks: seq<Tick<Slot>>, t: Tick<Slot>, a: Action<Slot>)
    ensures var s := Before(n, INIT, ticks, t);
            var w, h, next := WorldOf(s), s.history, EnvStep(s, a).history;
            next.restored != h.restored ==>
              && a == JobSucceeds(RestoreJob) && Storage in w
              && RestoreJob in w && w[RestoreJob].JobObject?
              && ClaimKey(n, w[RestoreJob].job.data) == KeyOf(n, Storage)
              && h.target == h.claims && next.restored == h.restored + {h.claims}
  {
    StoredVolumesAreRight(n, ticks, t);
  }

  // ---- The pod ----

  /** What a call may do to the stored pod, short of deleting it. */
  predicate PodWritten(n: Name, p: Process, w: World, after: World)
    requires RpcPod in after
  {
    && p.Running? && after[RpcPod].PodObject?
    && AsksForImage(p.rpc.spec, after[RpcPod].pod.image)
    && ClaimKey(n, after[RpcPod].pod.claim) == KeyOf(n, Storage)
    && (if RpcPod in w
        then w[RpcPod].PodObject? && after[RpcPod].pod == w[RpcPod].pod.(image := after[RpcPod].pod.image)
        else after[RpcPod].pod.status == PodStatus("", false, []))
  }

  lemma CallWritesPod(n: Name, s: Sys, reply: Reply, now: int)
    requires Sound(n, s)
    ensures var w, after := WorldOf(s), WorldOf(CallStep(n, s, reply, now));
            RpcPod in after && (RpcPod in w ==> w[RpcPod] != after[RpcPod]) ==> PodWritten(n, s.process, w, after)
  {
    hide Resume, RecordCall, Write, Inspect, Refresh, WrittenMonitor, GetWantedPodMonitor;
  }

  /** In every run, a call that creates or changes the pod gives it the image its pass's copy of the resource asks for;
      a new pod works on the storage claim, and a changed one keeps everything but the image. */
  lemma PodsAreWritten(n: Name, ticks: seq<Tick<Slot>>, t: Tick<Slot>)
    ensures var s := Before(n, INIT, ticks, t);
            var w, after := WorldOf(s), WorldOf(Step(n, Exec(n, INIT, ticks), t));
            RpcPod in after && (RpcPod in w ==> w[RpcPod] != after[RpcPod]) ==> PodWritten(n, s.process, w, after)
  {
    RunsAreSound(n, ticks, t);
    CallWritesPod(n, Before(n, INIT, ticks, t), t.reply, t.now);
  }

  // ---- The monitor ----

  const STANDARD_LABELS: set<string> := {
    "rpc.runelabs.xyz/type", "rpc.runelabs.xyz/name", "runelabs.xyz/network",
    "app.kubernetes.io/name", "app.kubernetes.io/instance", "app.kubernetes.io/managed-by"
  }

  /** What a call may do to the stored monitor, short of deleting it. */
  predicate MonitorWritten(n: Name, p: Process, w: World, after: World)
    requires Monitor in after
  {
    && p.Running? && p.rpc.spec.podMonitor.Some? && p.rpc.spec.podMonitor.value.enabled
    && after[Monitor].MonitorObject?
    && WrittenMonitor(after[Monitor].monitor, n, p.rpc.spec)
    && (Monitor !in w ==>
          after[Monitor].monitor.labels.Keys == STANDARD_LABELS + p.rpc.spec.podMonitor.value.labels.Keys)
  }

  lemma CallWritesMonitor(n: Name, s: Sys, reply: Reply, now: int)
    requires Sound(n, s)
    ensures var w, after := WorldOf(s), WorldOf(CallStep(n, s, reply, now));
            Monitor in after && (Monitor in w ==> w[Monitor] != after[Monitor]) ==>
              MonitorWritten(n, s.process, w, after)
  {
    hide CallStep, WrittenMonitor, GetWantedPodMonitor, STANDARD_LABELS;
    MonitorRequest(n, s, reply, now);
    var p := s.process;
    if p.Running? {
      WantedMonitorIsWritten(n, p.rpc.spec);
      if MonitorWanted(p.rpc.spec) {
        WantedMonitorIsLabelled(n, p.rpc.spec);
      }
    }
  }

  lemma WantedMonitorIsLabelled(n: Name, spec: Spec)
    requires MonitorWanted(spec)
    ensures GetWantedPodMonitor(n, spec).labels.Keys == STANDARD_LABELS + spec.podMonitor.value.labels.Keys
  {
  }

  /** The only calls that write the monitor. */
  lemma MonitorRequest(n: Name, s: Sys, reply: Reply, now: int)
    requires Sound(n, s)
    ensures var p, w, after := s.process, WorldOf(s), WorldOf(CallStep(n, s, reply, now));
            Monitor in after && (Monitor in w ==> w[Monitor] != after[Monitor]) ==>
              && p.Running? && p.at.Upsert? && p.at.slot == Monitor
              && (if Monitor in w
                  then p.at.stage.Repairing? && after[Monitor] == p.at.stage.changed
                  else p.at.stage == Filing && after[Monitor] == MonitorObject(GetWantedPodMonitor(n, p.rpc.spec)))
  {
    hide Resume, RecordCall, Write, WrittenMonitor, GetWantedPod, GetWantedPodMonitor, Mounting, Agree;
  }

  lemma CallRemovesMonitor(n: Name, s: Sys, reply: Reply, now: int)
    requires Sound(n, s)
    ensures Monitor in WorldOf(s) && Monitor !in WorldOf(CallStep(n, s, reply, now)) ==>
              s.process.Running? && !MonitorWanted(s.process.rpc.spec)
  {
    hide Resume, RecordCall, Write, WrittenMonitor, GetWantedPod, GetWantedPodMonitor, Mounting, Agree;
  }

  /** In every run, a call that creates or changes the monitor belongs to a pass whose copy of the resource enables it,
      and leaves it with the fields and labels the resource asks for; a call that removes it belongs to a pass whose
      copy does not. */
  lemma MonitorsAreWritten(n: Name, ticks: seq<Tick<Slot>>, t: Tick<Slot>)
    ensures var s := Before(n, INIT, ticks, t);
            var w, after := WorldOf(s), WorldOf(Step(n, Exec(n, INIT, ticks), t));
            && (Monitor in after && (Monitor in w ==> w[Monitor] != after[Monitor]) ==>
                  MonitorWritten(n, s.process, w, after))
            && (Monitor in w && Monitor !in after ==> s.process.Running? && !MonitorWanted(s.process.rpc.spec))
  {
    RunsAreSound(n, ticks, t);
    CallWritesMonitor(n, Before(n, INIT, ticks, t), t.reply, t.now);
    CallRemovesMonitor(n, Before(n, INIT, ticks, t), t.reply, t.now);
  }

  // ---- The objects of a restore ----

  lemma CallMakesRestore(n: Name, s: Sys, reply: Reply, now: int)
    requires Sound(n, s)
    ensures var w, after, p := WorldOf(s), WorldOf(CallStep(n, s, reply, now)), s.process;
            (RestoreJob in after && RestoreJob !in w) || (Scratch in after && Scratch !in w) ==>
              p.Running? && p.rpc.spec.enable != Some(false) && !IsStatusConditionTrue(p.rpc.conditions, Restore)
  {
    hide Resume, RecordCall, Write;
  }

  /** In every run, the Job and the scratch claim are only created by a pass whose copy of the resource does not switch
      the restore off, and does not have it done. */
  lemma RestoresAreWanted(n: Name, ticks: seq<Tick<Slot>>, t: Tick<Slot>)
    ensures var s := Before(n, INIT, ticks, t);
            var w, after, p := WorldOf(s), WorldOf(Step(n, Exec(n, INIT, ticks), t)), s.process;
            (RestoreJob in after && RestoreJob !in w) || (Scratch in after && Scratch !in w) ==>
              p.Running? && p.rpc.spec.enable != Some(false) && !IsStatusConditionTrue(p.rpc.conditions, Restore)
  {
    RunsAreSound(n, ticks, t);
    CallMakesRestore(n, Before(n, INIT, ticks, t), t.reply, t.now);
  }
}
