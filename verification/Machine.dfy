/** The step machine of one custom resource: its objects, the process working on them, and a history that only the
    theorems look at. */
module Machine {
  import opened Objects
  import opened Conditions
  import opened Names
  import opened Server
  import opened Process

  type World = map<Slot, Object>

  /** Events after which a guarantee of the protocol no longer holds. */
  datatype Incident =
    /** A storage claim was created under a stored status that was true, and the reset of that status was lost. */
    | LostReset(claim: nat)
    /** A storage claim was created while a restore Job was there that had not been made for it. */
    | StaleJob(claim: nat)
    /** The restore was recorded as skipped while a restore Job existed, and the pass went on to the pod. */
    | SkippedOverJob
    /** The restore status was reset while the node's pod existed. */
    | ResetUnderPod
    /** The custom resource was deleted while the node's pod existed or a pass was on its way to creating it. */
    | RpcDeleted

  /** `claims` counts the storage claims ever created, so it numbers the current one while there is one; `target` is the
      claim that the latest restore Job was made for, the next one if there was none, and 0 if it was made for no
      storage claim. */
  datatype History = History(claims: nat, restored: set<nat>, skipped: set<nat>, target: nat, incidents: set<Incident>)

  datatype Sys = Sys(cluster: Cluster<Slot>, process: Process, history: History)

  const INIT := Sys(Cluster(map[], 0), Finish(DONE), History(0, {}, {}, 0, {}))

  function WorldOf(s: Sys): World { s.cluster.objects }

  function Note(h: History, happened: bool, i: Incident): History {
    if happened then h.(incidents := h.incidents + {i}) else h
  }

  /** The custom resource a pass works on is still the stored one. */
  predicate Current(w: World, rpc: Rpc) {
    TheRpc in w && w[TheRpc].RpcObject? && w[TheRpc].rpc.uid == rpc.uid
  }

  predicate StoredRestored(w: World) {
    TheRpc in w && w[TheRpc].RpcObject? && Restored(w[TheRpc].rpc.conditions)
  }

  predicate HasSucceeded(w: World) {
    RestoreJob in w && w[RestoreJob].JobObject? && w[RestoreJob].job.succeeded > 0
  }

  /** The pass will create the pod if its calls are answered and nothing else happens. */
  predicate HeadsForPod(w: World, p: Process) {
    p.Running? &&
    match p.at
    case CreateStorage => Storage in w && Restored(p.rpc.conditions)
    case DeleteJob => true
    case DeleteScratch => true
    case Upsert(RpcPod, Filing) => true
    case _ => false
  }

  // ---- The environment's moves ----

  function RecordAct(s: Sys, a: Action<Slot>): History {
    var w, h := WorldOf(s), s.history;
    match a
    case Remove(TheRpc) => Note(h, TheRpc in w && (HeadsForPod(w, s.process) || RpcPod in w), RpcDeleted)
    case JobSucceeds(RestoreJob) =>
      if RestoreJob in w && Storage in w && h.target == h.claims then h.(restored := h.restored + {h.claims}) else h
    case _ => h
  }

  /** Only a custom resource can be created from outside. */
  predicate Proper(a: Action<Slot>) {
    a.CreateRpc? ==> a.key == TheRpc
  }

  function EnvStep(s: Sys, a: Action<Slot>): Sys {
    if !Proper(a) then s
    else Sys(Act(s.cluster, a), s.process, RecordAct(s, a))
  }

  function EnvSteps(s: Sys, env: seq<Action<Slot>>): Sys
    decreases |env|
  {
    if |env| == 0 then s else EnvSteps(EnvStep(s, env[0]), env[1..])
  }

  // ---- The operator's moves ----

  /** The status of an earlier claim outlives a new one: the answer to its creation is lost, or the reset after it
      is rejected, with nothing restored to it in between. */
  predicate LosesReset(w: World, p: Process, h: History, reply: Reply) {
    StoredRestored(w) && p.Running? &&
    match p.at
    case CreateStorage => Storage !in w && reply.Lost?
    case Storing(ResetRestore) => Storage in w && h.claims !in h.restored && reply.Rejected?
    case _ => false
  }

  /** The Job was made for an earlier claim than the next one, or has succeeded without waiting for it. */
  predicate StaleForNext(w: World, h: History) {
    RestoreJob in w && (h.target <= h.claims || HasSucceeded(w))
  }

  /** A new claim meets such a Job. */
  predicate MeetsStaleJob(w: World, p: Process, h: History, reply: Reply) {
    p.Running? && p.at.CreateStorage? && Storage !in w && !reply.Rejected? && StaleForNext(w, h)
  }

  /** The claim that a Job made now will restore into: the one its data volume names, or the next one of that name. */
  function TargetOf(n: Name, w: World, h: History, made: Object): nat {
    if !made.JobObject? || ClaimKey(n, made.job.data) != KeyOf(n, Storage) then 0
    else if Storage in w then h.claims
    else h.claims + 1
  }

  function RecordCall(n: Name, w: World, p: Process, h: History, reply: Reply, after: World): History {
    if p.Resting? then h
    else if p.at.CreateStorage? then
      if Storage in w || Storage !in after then h
      else
        var next := h.(claims := h.claims + 1);
        Note(Note(next, MeetsStaleJob(w, p, h, reply), StaleJob(next.claims)),
             LosesReset(w, p, h, reply), LostReset(next.claims))
    else if p.at == Storing(ResetRestore) then
      Note(Note(h, LosesReset(w, p, h, reply), LostReset(h.claims)),
           !reply.Rejected? && Current(w, p.rpc) && RpcPod in w, ResetUnderPod)
    else if p.at == Storing(SkipRestore) && !reply.Rejected? && Current(w, p.rpc) then
      Note(if Storage in w then h.(skipped := h.skipped + {h.claims}) else h,
           reply.Answered? && RestoreJob in w, SkippedOverJob)
    else if p.at.CreateJob? && RestoreJob !in w && RestoreJob in after then
      h.(target := TargetOf(n, w, h, after[RestoreJob]))
    else h
  }

  function CallStep(n: Name, s: Sys, reply: Reply, now: int): Sys {
    var served := Serve(s.cluster, Ask(n, s.process, now), reply);
    Sys(served.0,
        Resume(n, s.process, served.1, now),
        RecordCall(n, WorldOf(s), s.process, s.history, reply, served.0.objects))
  }

  function Step(n: Name, s: Sys, t: Tick<Slot>): Sys {
    CallStep(n, EnvSteps(s, t.env), t.reply, t.now)
  }

  function Exec(n: Name, s: Sys, ticks: seq<Tick<Slot>>): Sys {
    if |ticks| == 0 then s
    else Step(n, Exec(n, s, ticks[..|ticks| - 1]), ticks[|ticks| - 1])
  }

  /** The state in which the call of the last tick is made. */
  function Before(n: Name, from: Sys, ticks: seq<Tick<Slot>>, t: Tick<Slot>): Sys {
    EnvSteps(Exec(n, from, ticks), t.env)
  }

  // ---- Assumptions on runs ----

  /** What a theorem may assume of each environment action and of how each call goes, in the state it happens in. */
  datatype Rules = Rules(act: (Sys, Action<Slot>) -> bool, answer: (Sys, Reply) -> bool)

  /** No assumption at all. */
  const FREE := Rules((s, a) => true, (s, reply) => true)

  predicate EnvObeys(s: Sys, env: seq<Action<Slot>>, rules: Rules)
    decreases |env|
  {
    |env| == 0 || (rules.act(s, env[0]) && EnvObeys(EnvStep(s, env[0]), env[1..], rules))
  }

  predicate TickObeys(s: Sys, t: Tick<Slot>, rules: Rules) {
    EnvObeys(s, t.env, rules) && rules.answer(EnvSteps(s, t.env), t.reply)
  }

  predicate Obeys(n: Name, from: Sys, ticks: seq<Tick<Slot>>, rules: Rules) {
    |ticks| == 0 ||
    (var earlier := ticks[..|ticks| - 1];
     Obeys(n, from, earlier, rules) && TickObeys(Exec(n, from, earlier), ticks[|ticks| - 1], rules))
  }

  lemma {:induction false} EnvIsFree(s: Sys, env: seq<Action<Slot>>)
    ensures EnvObeys(s, env, FREE)
    decreases |env|
  {
    if |env| > 0 {
      EnvIsFree(EnvStep(s, env[0]), env[1..]);
    }
  }

  lemma {:induction false} AllRunsAreFree(n: Name, from: Sys, ticks: seq<Tick<Slot>>)
    ensures Obeys(n, from, ticks, FREE)
  {
    if |ticks| > 0 {
      AllRunsAreFree(n, from, ticks[..|ticks| - 1]);
      EnvIsFree(Exec(n, from, ticks[..|ticks| - 1]), ticks[|ticks| - 1].env);
    }
  }

  // ---- Induction over runs ----

  lemma {:induction false} EnvInvariant(s: Sys, env: seq<Action<Slot>>, inv: Sys -> bool, rules: Rules)
    requires inv(s) && EnvObeys(s, env, rules)
    requires forall x: Sys, a :: inv(x) && rules.act(x, a) && Proper(a) ==> inv(EnvStep(x, a))
    ensures inv(EnvSteps(s, env))
    decreases |env|
  {
    if |env| > 0 {
      assert inv(EnvStep(s, env[0]));
      EnvInvariant(EnvStep(s, env[0]), env[1..], inv, rules);
    }
  }

  lemma {:induction false} RunInvariant(n: Name, from: Sys, ticks: seq<Tick<Slot>>, inv: Sys -> bool, rules: Rules)
    requires inv(from) && Obeys(n, from, ticks, rules)
    requires forall x: Sys, a :: inv(x) && rules.act(x, a) && Proper(a) ==> inv(EnvStep(x, a))
    requires forall x: Sys, reply, now :: inv(x) && rules.answer(x, reply) ==> inv(CallStep(n, x, reply, now))
    ensures inv(Exec(n, from, ticks))
  {
    if |ticks| > 0 {
      var earlier, last := ticks[..|ticks| - 1], ticks[|ticks| - 1];
      RunInvariant(n, from, earlier, inv, rules);
      EnvInvariant(Exec(n, from, earlier), last.env, inv, rules);
      assert inv(CallStep(n, EnvSteps(Exec(n, from, earlier), last.env), last.reply, last.now));
    }
  }
}
