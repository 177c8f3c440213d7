/** The API objects the operator reads and writes, cut down to the fields its decisions depend on. */
module Objects {

  datatype Option<+T> = None | Some(value: T)

  /** A namespaced name (`types.NamespacedName`). */
  datatype Name = Name(namespace: string, name: string)

  datatype ConditionStatus = True | False | Unknown

  datatype ConditionType = Restore | Available | OtherType(name: string)

  /** Every reason string the operator writes into a condition. */
  datatype Reason =
    | Pending
    | ArchiveJobProgressing
    | ArchiveJobFinished
    | ArchiveJobFailed
    | ArchiveRestoreSkipped
    | Creating
    | CatchingUp
    | OtherReason(text: string)

  datatype Condition = Condition(kind: ConditionType, status: ConditionStatus, reason: Reason, lastTransition: int)

  /** `v1alpha1.PodMonitor`; a nil label map reads as the empty one. */
  datatype MonitorConfig = MonitorConfig(enabled: bool, labels: map<string, string>)

  datatype Spec = Spec(network: string, enable: Option<bool>, image: Option<string>, podMonitor: Option<MonitorConfig>)

  /** A StarknetRPC custom resource as stored; its name is its key. */
  datatype Rpc = Rpc(uid: nat, spec: Spec, conditions: seq<Condition>)

  datatype ClaimPhase = ClaimPending | ClaimBound | ClaimLost

  datatype Claim = Claim(phase: ClaimPhase)

  datatype Job = Job(data: string, scratch: string, succeeded: nat, failed: nat)

  /** `waiting` is the reason of the Waiting state, when the container is in that state. */
  datatype ContainerStatus = ContainerStatus(restartCount: int, waiting: Option<string>)

  datatype PodStatus = PodStatus(reason: string, running: bool, containers: seq<ContainerStatus>)

  const FRESH_STATUS := PodStatus("", false, [])

  datatype Pod = Pod(image: string, claim: string, status: PodStatus)

  /** The port of an endpoint is a pointer in Go and may be nil. */
  datatype Endpoint = Endpoint(port: Option<string>, path: string)

  datatype MonitorSpec = MonitorSpec(
    endpoints: seq<Endpoint>,
    matchLabels: map<string, string>,
    matchExpressions: seq<string>,
    namespaces: seq<string>,
    targetLabels: seq<string>)

  datatype PodMonitor = PodMonitor(labels: map<string, string>, spec: MonitorSpec)

  /** `client.Object`. */
  datatype Object =
    | RpcObject(rpc: Rpc)
    | ClaimObject(claim: Claim)
    | JobObject(job: Job)
    | PodObject(pod: Pod)
    | MonitorObject(monitor: PodMonitor)

  datatype Kind = RpcKind | ClaimKind | JobKind | PodKind | MonitorKind

  function KindOf(o: Object): Kind {
    match o
    case RpcObject(_) => RpcKind
    case ClaimObject(_) => ClaimKind
    case JobObject(_) => JobKind
    case PodObject(_) => PodKind
    case MonitorObject(_) => MonitorKind
  }
}
