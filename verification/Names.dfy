/** The names under which the operator stores the objects of one custom resource. */
module Names {
  import opened Objects

  datatype Key = Key(kind: Kind, name: Name)

  /** The objects of one custom resource, the resource itself included. */
  datatype Slot = TheRpc | Storage | Scratch | RestoreJob | RpcPod | Monitor

  const STORAGE_SUFFIX := "-storage"
  const SCRATCH_SUFFIX := "-archive-restore"
  const JOB_SUFFIX := "-archive-restore-job"
  const POD_SUFFIX := "-rpc"
  const MONITOR_SUFFIX := "-podmonitor"

  function Suffixed(n: Name, suffix: string): Name {
    n.(name := n.name + suffix)
  }

  function GetStoragePvcName(n: Name): Name { Suffixed(n, STORAGE_SUFFIX) }

  function GetRestorePvcName(n: Name): Name { Suffixed(n, SCRATCH_SUFFIX) }

  function GetRestoreJobName(n: Name): Name { Suffixed(n, JOB_SUFFIX) }

  function GetPodName(n: Name): Name { Suffixed(n, POD_SUFFIX) }

  function GetPodMonitorName(n: Name): Name { Suffixed(n, MONITOR_SUFFIX) }

  function SlotKind(s: Slot): Kind {
    match s
    case TheRpc => RpcKind
    case Storage => ClaimKind
    case Scratch => ClaimKind
    case RestoreJob => JobKind
    case RpcPod => PodKind
    case Monitor => MonitorKind
  }

  function KeyOf(n: Name, s: Slot): Key {
    Key(SlotKind(s),
        match s
        case TheRpc => n
        case Storage => GetStoragePvcName(n)
        case Scratch => GetRestorePvcName(n)
        case RestoreJob => GetRestoreJobName(n)
        case RpcPod => GetPodName(n)
        case Monitor => GetPodMonitorName(n))
  }

  /** The claim that a pod or Job of `n` mounts under the given name: volumes name claims of their own namespace. */
  function ClaimKey(n: Name, volume: string): Key {
    Key(ClaimKind, Name(n.namespace, volume))
  }

  /** The names under which everything is stored. */
  lemma KeysAreNamed(n: Name)
    ensures KeyOf(n, TheRpc) == Key(RpcKind, Name(n.namespace, n.name))
    ensures KeyOf(n, Storage) == Key(ClaimKind, Name(n.namespace, n.name + "-storage"))
    ensures KeyOf(n, Scratch) == Key(ClaimKind, Name(n.namespace, n.name + "-archive-restore"))
    ensures KeyOf(n, RestoreJob) == Key(JobKind, Name(n.namespace, n.name + "-archive-restore-job"))
    ensures KeyOf(n, RpcPod) == Key(PodKind, Name(n.namespace, n.name + "-rpc"))
    ensures KeyOf(n, Monitor) == Key(MonitorKind, Name(n.namespace, n.name + "-podmonitor"))
  {
  }

  lemma SuffixInjective(a: string, b: string, suffix: string)
    requires a + suffix == b + suffix
    ensures a == b
  {
    assert |a| == |b|;
    assert a == (a + suffix)[..|a|] == (b + suffix)[..|b|] == b;
  }

  /** A storage claim is never mistaken for a scratch claim, of the same resource or another. */
  lemma SuffixesClash(a: string, b: string)
    ensures a + STORAGE_SUFFIX != b + SCRATCH_SUFFIX
  {
    var x, y := a + STORAGE_SUFFIX, b + SCRATCH_SUFFIX;
    assert x[|x| - 2] == STORAGE_SUFFIX[6] == 'g';
    assert y[|y| - 2] == SCRATCH_SUFFIX[14] == 'r';
  }

  /** No two resources share a key, and no two slots of one resource do. */
  lemma KeyOfInjective(n: Name, s: Slot, m: Name, t: Slot)
    requires KeyOf(n, s) == KeyOf(m, t)
    ensures n == m && s == t
  {
    if s == t {
      match s {
        case TheRpc =>
        case Storage => SuffixInjective(n.name, m.name, STORAGE_SUFFIX);
        case Scratch => SuffixInjective(n.name, m.name, SCRATCH_SUFFIX);
        case RestoreJob => SuffixInjective(n.name, m.name, JOB_SUFFIX);
        case RpcPod => SuffixInjective(n.name, m.name, POD_SUFFIX);
        case Monitor => SuffixInjective(n.name, m.name, MONITOR_SUFFIX);
      }
    } else if s == Storage {
      SuffixesClash(n.name, m.name);
      assert false;
    } else {
      SuffixesClash(m.name, n.name);
      assert false;
    }
  }

  const SLOTS: set<Slot> := {TheRpc, Storage, Scratch, RestoreJob, RpcPod, Monitor}

  /** Every key a pass for `n` may touch. */
  function Footprint(n: Name): (keys: set<Key>)
    ensures forall s :: KeyOf(n, s) in keys
    ensures forall k :: k in keys ==> exists s :: k == KeyOf(n, s)
  {
    set s | s in SLOTS :: KeyOf(n, s)
  }

  lemma FootprintsDisjoint(n: Name, m: Name)
    requires n != m
    ensures Footprint(n) !! Footprint(m)
  {
    forall k | k in Footprint(n) && k in Footprint(m)
      ensures false
    {
      var s :| k == KeyOf(n, s);
      var t :| k == KeyOf(m, t);
      KeyOfInjective(n, s, m, t);
    }
  }
}
