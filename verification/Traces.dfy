/** Concrete runs in which the guarantees fail, one for each assumption they rest on. */
module Traces {
  import opened Objects
  import opened Conditions
  import opened Names
  import opened Server
  import opened Process
  import opened Machine
  import opened Soundness
  import opened Moves
  import opened Segments
  import opened Safety

  const ON := Spec("mainnet", None, None, None)
  const OFF := ON.(enable := Some(false))

  /** Some run under the rules takes the system from one state to the other. */
  ghost predicate Leads(n: Name, s: Sys, next: Sys, rules: Rules) {
    exists ticks :: Exec(n, s, ticks) == next && Obeys(n, s, ticks, rules)
  }

  lemma {:induction false} ExecAppends(n: Name, s: Sys, a: seq<Tick<Slot>>, b: seq<Tick<Slot>>, rules: Rules)
    ensures Exec(n, s, a + b) == Exec(n, Exec(n, s, a), b)
    ensures Obeys(n, s, a, rules) && Obeys(n, Exec(n, s, a), b, rules) ==> Obeys(n, s, a + b, rules)
  {
    hide Step, EnvObeys, EnvSteps;
    if |b| == 0 {
      assert a + b == a;
    } else {
      var ab := a + b;
      assert ab[..|ab| - 1] == a + b[..|b| - 1];
      ExecAppends(n, s, a, b[..|b| - 1], rules);
    }
  }

  lemma LeadsOn(n: Name, s: Sys, middle: Sys, next: Sys, rules: Rules)
    requires Leads(n, s, middle, rules) && Leads(n, middle, next, rules)
    ensures Leads(n, s, next, rules)
  {
    var a :| Exec(n, s, a) == middle && Obeys(n, s, a, rules);
    var b :| Exec(n, middle, b) == next && Obeys(n, middle, b, rules);
    ExecAppends(n, s, a, b, rules);
  }

  lemma TickLeads(n: Name, s: Sys, t: Tick<Slot>, rules: Rules)
    requires TickObeys(s, t, rules)
    ensures Leads(n, s, Step(n, s, t), rules)
  {
    var ticks := [t];
    assert ticks[..0] == [];
    assert Exec(n, s, ticks) == Step(n, s, t) && Obeys(n, s, ticks, rules);
  }

  // ---- Rules that leave a trace enough room ----

  /** What the environment does in all traces. */
  predicate Benign(s: Sys, a: Action<Slot>) {
    || a.CreateRpc? || a.EditSpec? || a.BindClaim?
    || a == Remove(RpcPod) || a == Remove(Scratch)
    || (a.JobSucceeds? && Storage in WorldOf(s))
  }

  ghost predicate Roomy(rules: Rules) {
    && (forall s: Sys, a :: Benign(s, a) ==> rules.act(s, a))
    && (forall s: Sys :: rules.answer(s, Answered))
    && (forall s: Sys :: !Resetting(s.process) ==> rules.answer(s, Rejected))
  }

  /** Only the environment's side of the assumptions, only the operator's side, and both. */
  const ANY_ANSWER := Rules((s, a) => ClaimsKept(s, a), (s, reply) => true)
  const ANY_REMOVAL := Rules((s: Sys, a: Action<Slot>) => a.JobSucceeds? ==> Storage in WorldOf(s),
                             (s, reply) => ResetsKept(s, reply))

  /** Nothing but the environment's part in a trace; the calls may go in any way. */
  const BENIGN := Rules((s, a) => Benign(s, a), (s, reply) => true)

  lemma RulesAreRoomy()
    ensures Roomy(FREE) && Roomy(BENIGN) && Roomy(PAIRED) && Roomy(ANY_ANSWER) && Roomy(ANY_REMOVAL)
  {
  }

  /** The relation contains every tick the rules allow, not only the calm calls. */
  ghost predicate Ticks(c: Setting) {
    && Calmly(c) && c.ready && Roomy(c.rules)
    && (forall s: Sys, t :: TickObeys(s, t, c.rules) ==> c.R(s, Step(c.n, s, t)))
  }

  ghost function RunSetting(n: Name, rules: Rules): Setting {
    Setting(n, true, 0, (x, y) => Leads(n, x, y, rules), rules)
  }

  lemma RunsTick(n: Name, rules: Rules)
    requires Roomy(rules)
    ensures Ticks(RunSetting(n, rules))
  {
    var c := RunSetting(n, rules);
    forall s: Sys, t | TickObeys(s, t, rules) ensures c.R(s, Step(n, s, t)) { TickLeads(n, s, t, rules); }
    forall s: Sys ensures c.R(s, CallStep(n, s, CalmReply(s.process, c.ready), c.now)) {
      TickLeads(n, s, Tick([], CalmReply(s.process, c.ready), c.now), rules);
    }
    forall x, y, z | c.R(x, y) && c.R(y, z) ensures c.R(x, z) { LeadsOn(n, x, y, z, rules); }
  }

  // ---- The pieces that are not calm ----

  /** Between two passes, one action of the environment and a failed read. */
  lemma Acts(c: Setting, s: Sys, a: Action<Slot>) returns (next: Sys)
    requires Ticks(c)
    requires s.process.Resting? && Proper(a) && c.rules.act(s, a)
    ensures c.R(s, next)
    ensures next == Sys(Act(s.cluster, a), Fail(Api(Unavailable)), RecordAct(s, a))
  {
    assert [a][1..] == [];
    assert EnvSteps(s, [a]) == EnvStep(s, a) && EnvObeys(s, [a], c.rules);
    assert c.R(s, Step(c.n, s, Tick([a], Rejected, c.now)));
    next := CallStep(c.n, EnvStep(s, a), Rejected, c.now);
    assert WorldOf(next) == WorldOf(EnvStep(s, a));
  }

  /** Any call fails. */
  lemma Breaks(c: Setting, s: Sys) returns (next: Sys)
    requires Ticks(c)
    requires s.process.Running? && s.process.at != ProbePod && c.rules.answer(s, Rejected)
    ensures c.R(s, next)
    ensures next.cluster == s.cluster && next.process.Resting?
    ensures next.history ==
            Note(s.history, LosesReset(WorldOf(s), s.process, s.history, Rejected), LostReset(s.history.claims))
  {
    next := CallStep(c.n, s, Rejected, c.now);
    assert c.R(s, Step(c.n, s, Tick([], Rejected, c.now)));
    assert WorldOf(next) == WorldOf(s);
  }

  /** A pass starts, and initialises the conditions when there are none. */
  lemma Starts(c: Setting, s: Sys) returns (next: Sys, rpc: Rpc)
    requires Ticks(c)
    requires s.process.Resting? && HasRpc(s) && StoredShape(StoredRpc(s).conditions)
    ensures c.R(s, next)
    ensures rpc.uid == StoredRpc(s).uid && rpc.spec == StoredRpc(s).spec && Shaped(rpc.conditions)
    ensures Restored(rpc.conditions) == Restored(StoredRpc(s).conditions)
    ensures next == Sys(s.cluster.(objects := WorldOf(s)[TheRpc := RpcObject(rpc)]), Running(CreateStorage, rpc),
        s.history)
  {
    Reads(c.n, s, c.now);
    next := CallStep(c.n, s, Answered, c.now);
    assert c.R(s, Step(c.n, s, Tick([], Answered, c.now)));
    rpc := StoredRpc(s);
    if rpc.conditions == [] {
      next, rpc := Initializes(c, next);
    }
    assert WorldOf(next) == WorldOf(s)[TheRpc := RpcObject(rpc)];
  }

  // ---- Common prefixes ----

  /** A resource that wants its restore, at rest, with a bound storage claim and nothing of the restore step yet. */
  predicate Waiting(s: Sys) {
    var w := WorldOf(s);
    && s.process.Resting? && HasRpc(s)
    && StoredShape(StoredRpc(s).conditions) && !Restored(StoredRpc(s).conditions) && StoredRpc(s).spec == ON
    && Bound(w, Storage) && Scratch !in w && RestoreJob !in w
  }

  /** The same resource once its restore Job has been created. */
  predicate Started(s: Sys) {
    var w := WorldOf(s);
    && s.process.Resting? && HasRpc(s)
    && Shaped(StoredRpc(s).conditions) && !Restored(StoredRpc(s).conditions) && StoredRpc(s).spec == ON
    && Bound(w, Storage) && Bound(w, Scratch)
    && RestoreJob in w && w[RestoreJob].JobObject? && w[RestoreJob].job.succeeded == 0
  }

  /** A pass with both claims in reach of the Job. */
  lemma PassToJob(c: Setting, s: Sys) returns (next: Sys, rpc: Rpc)
    requires Ticks(c)
    requires s.process.Resting? && HasRpc(s)
    requires StoredShape(StoredRpc(s).conditions) && !Restored(StoredRpc(s).conditions)
    requires StoredRpc(s).spec == ON
    requires Bound(WorldOf(s), Storage) && Bound(WorldOf(s), Scratch)
    ensures c.R(s, next)
    ensures rpc.uid == StoredRpc(s).uid && rpc.spec == ON && Shaped(rpc.conditions) && !Restored(rpc.conditions)
    ensures next == Sys(s.cluster.(objects := WorldOf(s)[TheRpc := RpcObject(rpc)]), Running(CreateJob, rpc), s.history)
  {
    var a, b;
    a, rpc := Starts(c, s);
    b := FindsStorage(c, a);
    next := ReachesJob(c, b);
  }

  lemma StartsRestore(c: Setting, s: Sys) returns (next: Sys)
    requires Ticks(c)
    requires Waiting(s)
    ensures c.R(s, next) && Started(next) && next.history == s.history.(target := s.history.claims)
    ensures WorldOf(next).Keys == WorldOf(s).Keys + {Scratch, RestoreJob}
  {
    var a, rpc := Starts(c, s);
    var b := FindsStorage(c, a);
    var k := MakesScratch(c, b);
    var d := Acts(c, k, BindClaim(Scratch, ClaimBound));
    assert WorldOf(d) == WorldOf(a)[Scratch := ClaimObject(Claim(ClaimBound))];
    var e, again := PassToJob(c, d);
    next, again := MakesJob(c, e);
  }

  /** A new resource whose first claim has been made, reset and bound. */
  lemma Begins(c: Setting) returns (next: Sys)
    requires Ticks(c)
    ensures c.R(INIT, next) && Waiting(next) && next.history == History(1, {}, {}, 0, {})
    ensures WorldOf(next).Keys == {TheRpc, Storage}
  {
    var a := Acts(c, INIT, CreateRpc(TheRpc, ON));
    assert WorldOf(a) == map[TheRpc := RpcObject(Rpc(0, ON, []))];
    next := MakesClaim(c, a);
  }

  /** A pass makes the storage claim, resets the status and then breaks off; the claim gets bound. */
  lemma MakesClaim(c: Setting, s: Sys) returns (next: Sys)
    requires Ticks(c)
    requires s.process.Resting? && HasRpc(s) && StoredShape(StoredRpc(s).conditions) && StoredRpc(s).spec == ON
    requires Storage !in WorldOf(s)
    ensures c.R(s, next) && next.process.Resting? && HasRpc(next)
    ensures Shaped(StoredRpc(next).conditions) && !Restored(StoredRpc(next).conditions) && StoredRpc(next).spec == ON
    ensures WorldOf(next) == WorldOf(s)[Storage := ClaimObject(Claim(ClaimBound))][TheRpc := WorldOf(next)[TheRpc]]
    ensures next.history ==
            Note(Note(s.history.(claims := s.history.claims + 1),
                      StaleForNext(WorldOf(s), s.history), StaleJob(s.history.claims + 1)),
                 RpcPod in WorldOf(s), ResetUnderPod)
  {
    var a, rpc := Starts(c, s);
    var b := MakesStorage(c, a);
    var k, reset := Resets(c, b);
    var d := Breaks(c, k);
    next := Acts(c, d, BindClaim(Storage, ClaimBound));
  }

  /** The Job succeeds and a pass records it; the next pass gets to the pod. */
  lemma FinishesRestore(c: Setting, s: Sys) returns (next: Sys)
    requires Ticks(c)
    requires s.process.Resting? && HasRpc(s)
    requires StoredShape(StoredRpc(s).conditions) && !Restored(StoredRpc(s).conditions)
    requires StoredRpc(s).spec == ON
    requires Bound(WorldOf(s), Storage) && Bound(WorldOf(s), Scratch) && HasSucceeded(WorldOf(s))
    ensures c.R(s, next) && next.history == s.history
    ensures At(next.process, Upsert(RpcPod, Filing)) && HasRpc(next) && StoredRpc(next) == next.process.rpc
    ensures next.process.rpc.spec == ON && Shaped(next.process.rpc.conditions) && Restored(next.process.rpc.conditions)
    ensures WorldOf(next) == WorldOf(s)[TheRpc := WorldOf(next)[TheRpc]] - {RestoreJob, Scratch}
  {
    var a, rpc := PassToJob(c, s);
    var b := FindsJob(c, a);
    var k, done := Finishes(c, b);
    next := PassToPod(c, k);
  }

  /** A pass over a finished restore, up to the pod. */
  lemma PassToPod(c: Setting, s: Sys) returns (next: Sys)
    requires Ticks(c)
    requires s.process.Resting? && HasRpc(s) && Shaped(StoredRpc(s).conditions) && Restored(StoredRpc(s).conditions)
    requires Storage in WorldOf(s)
    ensures c.R(s, next) && next.history == s.history
    ensures At(next.process, Upsert(RpcPod, Filing)) && HasRpc(next) && StoredRpc(next) == next.process.rpc
    ensures next.process.rpc.spec == StoredRpc(s).spec
    ensures Shaped(next.process.rpc.conditions) && Restored(next.process.rpc.conditions)
    ensures WorldOf(next) == WorldOf(s)[TheRpc := WorldOf(next)[TheRpc]] - {RestoreJob, Scratch}
  {
    var a, rpc := Starts(c, s);
    var b := FindsStorage(c, a);
    next := CleansUp(c, b);
  }

  /** The happy path: restored once, and about to create the pod. */
  lemma RestoresOnce(c: Setting) returns (next: Sys)
    requires Ticks(c)
    ensures c.R(INIT, next) && next.history == History(1, {1}, {}, 1, {})
    ensures At(next.process, Upsert(RpcPod, Filing)) && HasRpc(next) && StoredRpc(next) == next.process.rpc
    ensures next.process.rpc.spec == ON && Shaped(next.process.rpc.conditions) && Restored(next.process.rpc.conditions)
    ensures WorldOf(next).Keys == {TheRpc, Storage} && Bound(WorldOf(next), Storage)
  {
    var a := Begins(c);
    var b := StartsRestore(c, a);
    var k := Acts(c, b, JobSucceeds(RestoreJob));
    next := FinishesRestore(c, k);
    assert next.history.restored == {1};
  }

  // ---- The failures ----

  const NOW: Tick<Slot> := Tick([], Answered, 0)

  /** A pod on a claim no Job ever wrote to. */
  predicate UnrestoredPod(s: Sys) {
    && CreatesPod(s, NOW) && Storage in WorldOf(s)
    && s.history.claims !in s.history.restored && s.history.claims !in s.history.skipped
  }

  /** The status reset after creating a claim is a write of its own, and losing it starts the node on an empty claim. */
  lemma LostResetServesEmptyData(c: Setting) returns (s: Sys)
    requires Ticks(c) && c.rules == ANY_ANSWER
    ensures c.R(INIT, s) && UnrestoredPod(s)
    ensures s.history.incidents == {LostReset(2)}
  {
    hide CallStep, EnvSteps, Write;
    var a := RestoresOnce(c);
    var b := Breaks(c, a);
    var k := Acts(c, b, Remove(Storage));
    var d, rpc := Starts(c, k);
    var e := MakesStorage(c, d);
    var f := Breaks(c, e);
    s := PassToPod(c, f);
  }

  /** Deleting the claim while the finished Job is still there makes the operator take the old success for the new
      claim. */
  lemma StaleJobServesEmptyData(c: Setting) returns (s: Sys)
    requires Ticks(c) && c.rules == ANY_REMOVAL
    ensures c.R(INIT, s) && UnrestoredPod(s)
    ensures s.history.incidents == {StaleJob(2)}
  {
    hide CallStep, EnvSteps, Write;
    var a := Begins(c);
    var b := StartsRestore(c, a);
    var k := Acts(c, b, JobSucceeds(RestoreJob));
    var d := Acts(c, k, Remove(Storage));
    var e := MakesClaim(c, d);
    s := FinishesRestore(c, e);
  }

  predicate Overlapping(s: Sys) {
    RestoreJob in WorldOf(s) && RpcPod in WorldOf(s)
  }

  /** Switching the restore off while its Job runs starts the node beside the Job. */
  lemma SwitchingOffOverlaps(c: Setting) returns (s: Sys)
    requires Ticks(c)
    ensures c.R(INIT, s) && Overlapping(s)
    ensures s.history.incidents == {SkippedOverJob}
  {
    hide CallStep, EnvSteps, Write;
    var a := Begins(c);
    var b := StartsRestore(c, a);
    var k := Acts(c, b, EditSpec(TheRpc, OFF));
    var d, rpc := Starts(c, k);
    var e := FindsStorage(c, d);
    var f, skipped := Skips(c, e);
    s := MakesPod(c, f);
  }

  lemma ServesThenBreaks(c: Setting) returns (s: Sys)
    requires Ticks(c)
    ensures c.R(INIT, s) && s.process.Resting? && HasRpc(s)
    ensures StoredRpc(s).spec == ON && Shaped(StoredRpc(s).conditions)
    ensures WorldOf(s).Keys == {TheRpc, Storage, RpcPod} && Bound(WorldOf(s), Storage)
        && s.history == History(1, {1}, {}, 1, {})
  {
    var a := RestoresOnce(c);
    var b := MakesPod(c, a);
    s := Breaks(c, b);
  }

  /** Deleting the claim under a running pod makes the operator restore a new claim beside the pod. */
  lemma DeletingClaimOverlaps(c: Setting) returns (s: Sys)
    requires Ticks(c) && c.rules == FREE
    ensures c.R(INIT, s) && Overlapping(s)
    ensures s.history.incidents == {ResetUnderPod}
  {
    var a := ServesThenBreaks(c);
    var b := Acts(c, a, Remove(Storage));
    var k := MakesClaim(c, b);
    s := StartsRestore(c, k);
  }

  /** Deleting and re-creating the resource under a running pod forgets the restore, and does it again beside it. */
  lemma RecreatingResourceOverlaps(c: Setting) returns (s: Sys)
    requires Ticks(c) && c.rules == FREE
    ensures c.R(INIT, s) && Overlapping(s)
    ensures s.history.incidents == {RpcDeleted}
  {
    var a := ServesThenBreaks(c);
    var b := Acts(c, a, Remove(TheRpc));
    var k := Acts(c, b, CreateRpc(TheRpc, ON));
    s := StartsRestore(c, k);
  }

  // ---- As runs from the empty world ----

  /** Each of the two ways to serve data that was never restored happens in some run from the empty world, with all the
      other assumptions kept. */
  lemma UnrestoredPodsHappen(n: Name)
    ensures exists s :: Leads(n, INIT, s, ANY_ANSWER) && UnrestoredPod(s) && s.history.incidents == {LostReset(2)}
    ensures exists s :: Leads(n, INIT, s, ANY_REMOVAL) && UnrestoredPod(s) && s.history.incidents == {StaleJob(2)}
  {
    RulesAreRoomy();
    RunsTick(n, ANY_ANSWER);
    var s := LostResetServesEmptyData(RunSetting(n, ANY_ANSWER));
    assert Leads(n, INIT, s, ANY_ANSWER);
    RunsTick(n, ANY_REMOVAL);
    var t := StaleJobServesEmptyData(RunSetting(n, ANY_REMOVAL));
    assert Leads(n, INIT, t, ANY_REMOVAL);
  }

  /** Each of the three ways for Job and pod to meet happens in some run from the empty world. */
  lemma OverlapsHappen(n: Name)
    ensures exists s :: Leads(n, INIT, s, FREE) && Overlapping(s) && s.history.incidents == {SkippedOverJob}
    ensures exists s :: Leads(n, INIT, s, FREE) && Overlapping(s) && s.history.incidents == {ResetUnderPod}
    ensures exists s :: Leads(n, INIT, s, FREE) && Overlapping(s) && s.history.incidents == {RpcDeleted}
  {
    RulesAreRoomy();
    RunsTick(n, FREE);
    var s := SwitchingOffOverlaps(RunSetting(n, FREE));
    assert Leads(n, INIT, s, FREE);
    var t := DeletingClaimOverlaps(RunSetting(n, FREE));
    assert Leads(n, INIT, t, FREE);
    var u := RecreatingResourceOverlaps(RunSetting(n, FREE));
    assert Leads(n, INIT, u, FREE);
  }
}
