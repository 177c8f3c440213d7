/** The objects the operator creates, and what it checks on the pod. */
module Workload {
  import opened Objects
  import opened Drift
  import opened Names
  import opened Monitoring

  const DEFAULT_IMAGE := "eqlabs/pathfinder:v0.20.0"

  function GetPodImage(spec: Spec): string {
    if spec.image.Some? then spec.image.value else DEFAULT_IMAGE
  }

  function GetWantedPvc(): Claim { Claim(ClaimPending) }

  function GetWantedRestoreJob(n: Name): Job {
    Job(GetStoragePvcName(n).name, GetRestorePvcName(n).name, 0, 0)
  }

  function GetWantedPod(n: Name, spec: Spec): Pod {
    Pod(GetPodImage(spec), GetStoragePvcName(n).name, FRESH_STATUS)
  }

  /** The Job restores into the storage claim and unpacks in the scratch claim. */
  predicate JobMounts(n: Name, job: Job) {
    ClaimKey(n, job.data) == KeyOf(n, Storage) && ClaimKey(n, job.scratch) == KeyOf(n, Scratch)
  }

  /** The node works on the storage claim. */
  predicate PodMounts(n: Name, pod: Pod) {
    ClaimKey(n, pod.claim) == KeyOf(n, Storage)
  }

  /** The image a resource asks for. */
  predicate AsksForImage(spec: Spec, image: string) {
    match spec.image
    case Some(asked) => image == asked
    case None => image == "eqlabs/pathfinder:v0.20.0"
  }

  /** The resource asks for a monitor. */
  predicate MonitorWanted(spec: Spec) {
    match spec.podMonitor
    case Some(config) => config.enabled
    case None => false
  }

  function ImageReconciler(spec: Spec): ObjectReconciler {
    ObjectReconciler(
      "ImageReconciler",
      (o: Object) => if o.PodObject? && o.pod.image != GetPodImage(spec) then Drifted else UpToDate,
      (o: Object) => if o.PodObject? then Some(PodObject(o.pod.(image := GetPodImage(spec)))) else Some(o))
  }

  /** The wanted object in each slot the operator fills. */
  function Wanted(s: Slot, n: Name, spec: Spec): Object {
    match s
    case RestoreJob => JobObject(GetWantedRestoreJob(n))
    case RpcPod => PodObject(GetWantedPod(n, spec))
    case Monitor => MonitorObject(GetWantedPodMonitor(n, spec))
    case _ => ClaimObject(GetWantedPvc())
  }

  /** The repairs `CreateOrReconcile` is given for the slots it looks after. */
  function Reconcilers(s: Slot, n: Name, spec: Spec): seq<ObjectReconciler> {
    match s
    case RpcPod => [ImageReconciler(spec)]
    case Monitor => [PodMonitorSpecReconciler(n, spec)]
    case _ => []
  }

  function IsReady(c: Claim): bool { c.phase.ClaimBound? }

  predicate MonitorEnabled(spec: Spec) {
    spec.podMonitor.Some? && spec.podMonitor.value.enabled
  }

  /** The restore runs unless the resource switches it off explicitly. */
  predicate RestoreEnabled(spec: Spec) {
    spec.enable != Some(false)
  }

  // ---- Pod health ----

  predicate CrashLooping(c: ContainerStatus) {
    c.waiting == Some("CrashLoopBackOff") && c.restartCount > 5
  }

  predicate Unhealthy(status: PodStatus) {
    status.reason == "Evicted" || exists c :: c in status.containers && CrashLooping(c)
  }

  method ShouldPodGetRecreated(pod: Pod) returns (b: bool)
    ensures b <==> Unhealthy(pod.status)
  {
    if pod.status.reason == "Evicted" {
      return true;
    }
    for i := 0 to |pod.status.containers|
      invariant forall j :: 0 <= j < i ==> !CrashLooping(pod.status.containers[j])
    {
      var cs := pod.status.containers[i];
      var restartCount := cs.restartCount;
      if cs.waiting.Some? {
        var reason := cs.waiting.value;
        if reason == "CrashLoopBackOff" && restartCount > 5 {
          assert cs in pod.status.containers && CrashLooping(cs);
          return true;
        }
      }
    }
    return false;
  }

  lemma WantedIsUpToDate(s: Slot, n: Name, spec: Spec)
    ensures AllUpToDate(Wanted(s, n, spec), Reconcilers(s, n, spec))
  {
    if s == Monitor {
      WantedMonitorIsRight(n, spec);
    }
  }

  lemma OneReconcilerInterferesWithNone(s: Slot, n: Name, spec: Spec)
    ensures NonInterfering(Reconcilers(s, n, spec))
  {
  }

  /** Both reconcilers the operator uses meet the conditions under which one repair run is final. */
  lemma OperatorReconcilersSound(s: Slot, n: Name, spec: Spec)
    ensures Establishing(Reconcilers(s, n, spec)) && NonInterfering(Reconcilers(s, n, spec))
    ensures AllUpToDate(Wanted(s, n, spec), Reconcilers(s, n, spec))
  {
    var rs := Reconcilers(s, n, spec);
    forall i, o | 0 <= i < |rs| && rs[i].update(o).Some?
      ensures rs[i].isUpToDate(rs[i].update(o).value) == UpToDate
    {
      if s == Monitor && o.MonitorObject? {
        RefreshSettles(o.monitor, n, spec);
      }
    }
    OneReconcilerInterferesWithNone(s, n, spec);
    WantedIsUpToDate(s, n, spec);
  }
}
