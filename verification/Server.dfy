/** What the API server does with one request, and what the rest of the world may do to the objects it holds. The
    key type is a parameter: the whole cluster uses keys, the step machine of one resource uses slots. */
module Server {
  import opened Objects

  datatype Request<K> =
    | Get(key: K)
    | Create(key: K, payload: Object)
    | Update(key: K, payload: Object)
    | Delete(key: K)
    | PutStatus(key: K, uid: nat, conditions: seq<Condition>)
    | Probe(key: K)

  datatype ApiError = AlreadyExists | NotFound | Conflict | Unavailable

  datatype Response = Accepted(payload: Object) | Refused(error: ApiError)

  /** How a call goes: answered, failed before it took effect, or took effect with its answer lost. */
  datatype Reply = Answered | Rejected | Lost

  /** `births` numbers the custom resources ever created, which is where their UIDs come from. */
  datatype Cluster<!K> = Cluster(objects: map<K, Object>, births: nat)

  function Lookup<K>(objects: map<K, Object>, key: K): Option<Object> {
    if key in objects then Some(objects[key]) else None
  }

  function Put<K>(objects: map<K, Object>, key: K, o: Option<Object>): map<K, Object> {
    match o
    case Some(value) => objects[key := value]
    case None => objects - {key}
  }

  /** A created object starts with the status of a new object, whatever the caller sent. */
  function Admit(o: Object): Object {
    match o
    case ClaimObject(c) => ClaimObject(c.(phase := ClaimPending))
    case JobObject(j) => JobObject(j.(succeeded := 0, failed := 0))
    case PodObject(p) => PodObject(p.(status := FRESH_STATUS))
    case RpcObject(r) => RpcObject(r.(conditions := []))
    case MonitorObject(m) => o
  }

  /** An update of the main resource leaves the stored status alone. */
  function Revise(stored: Object, sent: Object): Object {
    match (stored, sent)
    case (ClaimObject(c), ClaimObject(d)) => ClaimObject(d.(phase := c.phase))
    case (JobObject(j), JobObject(k)) => JobObject(k.(succeeded := j.succeeded, failed := j.failed))
    case (PodObject(p), PodObject(q)) => PodObject(q.(status := p.status))
    case (RpcObject(r), RpcObject(s)) => RpcObject(s.(uid := r.uid, conditions := r.conditions))
    case (MonitorObject(_), MonitorObject(_)) => sent
    case _ => stored
  }

  /** The effect of a request on the one object it names, and the honest answer. */
  function Effect<K>(o: Option<Object>, r: Request<K>): (Option<Object>, Response) {
    match r
    case Create(_, sent) =>
      if o.Some? then (o, Refused(AlreadyExists)) else (Some(Admit(sent)), Accepted(Admit(sent)))
    case _ =>
      if o.None? then (o, Refused(NotFound))
      else
        match r
        case Update(_, sent) => (Some(Revise(o.value, sent)), Accepted(Revise(o.value, sent)))
        case Delete(_) => (None, Accepted(o.value))
        case PutStatus(_, uid, conditions) =>
          if o.value.RpcObject? && o.value.rpc.uid == uid then
            var written := RpcObject(o.value.rpc.(conditions := conditions));
            (Some(written), Accepted(written))
          else
            (o, Refused(Conflict))
        case _ => (o, Accepted(o.value))
  }

  function ServeOne<K>(o: Option<Object>, r: Request<K>, reply: Reply): (Option<Object>, Response) {
    match reply
    case Answered => Effect(o, r)
    case Rejected => (o, Refused(Unavailable))
    case Lost => (Effect(o, r).0, Refused(Unavailable))
  }

  function Serve<K>(c: Cluster<K>, r: Request<K>, reply: Reply): (Cluster<K>, Response) {
    var served := ServeOne(Lookup(c.objects, r.key), r, reply);
    (c.(objects := Put(c.objects, r.key, served.0)), served.1)
  }

  // ---- The environment ----

  datatype Action<K> =
    | Remove(key: K)
    | BindClaim(key: K, phase: ClaimPhase)
    | JobSucceeds(key: K)
    | JobFails(key: K)
    | PodReports(key: K, status: PodStatus)
    | EditMonitor(key: K, monitor: PodMonitor)
    | EditSpec(key: K, spec: Spec)
    | CreateRpc(key: K, spec: Spec)
    | BirthElsewhere
    | Nothing

  function ActOne<K>(o: Option<Object>, a: Action<K>, births: nat): Option<Object> {
    match (a, o)
    case (Remove(_), _) => None
    case (BindClaim(_, phase), Some(ClaimObject(c))) => Some(ClaimObject(c.(phase := phase)))
    case (JobSucceeds(_), Some(JobObject(j))) => Some(JobObject(j.(succeeded := j.succeeded + 1)))
    case (JobFails(_), Some(JobObject(j))) => Some(JobObject(j.(failed := j.failed + 1)))
    case (PodReports(_, status), Some(PodObject(p))) => Some(PodObject(p.(status := status)))
    case (EditMonitor(_, m), Some(MonitorObject(_))) => Some(MonitorObject(m))
    case (EditSpec(_, spec), Some(RpcObject(r))) => Some(RpcObject(r.(spec := spec)))
    case (CreateRpc(_, spec), None) => Some(RpcObject(Rpc(births, spec, [])))
    case _ => o
  }

  function Act<K>(c: Cluster<K>, a: Action<K>): Cluster<K> {
    if a.Nothing? then c
    else if a.BirthElsewhere? then c.(births := c.births + 1)
    else
      Cluster(
        Put(c.objects, a.key, ActOne(Lookup(c.objects, a.key), a, c.births)),
        if a.CreateRpc? then c.births + 1 else c.births)
  }

  /** One API call with what happens around it: the actions before it, how it goes, and the time it is made. */
  datatype Tick<K> = Tick(env: seq<Action<K>>, reply: Reply, now: int)
}
