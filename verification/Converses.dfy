/** The incidents are exact: whenever one of them happens, in any run, the guarantee it stands for can still fail. */
module Converses {
  import opened Objects
  import opened Conditions
  import opened Names
  import opened Server
  import opened Process
  import opened Machine
  import opened Soundness
  import opened Moves
  import opened Segments
  import opened Safety
  import opened Exclusion
  import opened Convergence
  import opened Traces

  // ---- Putting a resource in order between passes ----

  predicate AtRest(s: Sys) {
    && s.process.Resting? && Typed(WorldOf(s))
    && (TheRpc in WorldOf(s) ==> StoredShape(WorldOf(s)[TheRpc].rpc.conditions))
  }

  /** The resource is created if it is not there, and its restore is switched on. */
  lemma TurnsOn(c: Setting, s: Sys) returns (next: Sys)
    requires Ticks(c) && AtRest(s)
    ensures c.R(s, next) && AtRest(next) && next.history == s.history
    ensures HasRpc(next) && StoredRpc(next).spec == ON
    ensures Restored(StoredRpc(next).conditions) == StoredRestored(WorldOf(s))
    ensures WorldOf(next) == WorldOf(s)[TheRpc := WorldOf(next)[TheRpc]]
  {
    if TheRpc in WorldOf(s) {
      next := Acts(c, s, EditSpec(TheRpc, ON));
    } else {
      next := Acts(c, s, CreateRpc(TheRpc, ON));
    }
  }

  lemma Binds(c: Setting, s: Sys, claim: Slot) returns (next: Sys)
    requires Ticks(c) && AtRest(s) && SlotKind(claim) == ClaimKind && claim in WorldOf(s)
    ensures c.R(s, next) && AtRest(next) && next.history == s.history
    ensures WorldOf(next) == WorldOf(s)[claim := ClaimObject(Claim(ClaimBound))]
  {
    next := Acts(c, s, BindClaim(claim, ClaimBound));
  }

  lemma Drops(c: Setting, s: Sys, slot: Slot) returns (next: Sys)
    requires Ticks(c) && AtRest(s) && (slot == RpcPod || slot == Scratch)
    ensures c.R(s, next) && AtRest(next) && next.history == s.history
    ensures WorldOf(next) == WorldOf(s) - {slot}
  {
    next := Acts(c, s, Remove(slot));
  }

  // ---- Serving a claim that was never restored ----

  /** A claim that is about to be taken for a restored one. */
  predicate Exposed(s: Sys) {
    && AtRest(s) && Storage in WorldOf(s)
    && s.history.claims !in s.history.restored && s.history.claims !in s.history.skipped
    && (StoredRestored(WorldOf(s)) || StaleHere(WorldOf(s), s.history))
  }

  /** There is a Job whose success is not, or will not be, one of the current claim. */
  predicate StaleHere(w: World, h: History) {
    RestoreJob in w && (h.target < h.claims || HasSucceeded(w))
  }

  lemma GetsScratch(c: Setting, s: Sys) returns (next: Sys)
    requires Ticks(c) && AtRest(s) && HasRpc(s) && StoredRpc(s).spec == ON && !Restored(StoredRpc(s).conditions)
    requires Bound(WorldOf(s), Storage) && Scratch !in WorldOf(s)
    ensures c.R(s, next) && AtRest(next) && next.history == s.history
    ensures HasRpc(next) && StoredRpc(next).spec == ON && !Restored(StoredRpc(next).conditions)
    ensures WorldOf(next) == WorldOf(s)[TheRpc := WorldOf(next)[TheRpc]][Scratch := ClaimObject(Claim(ClaimBound))]
  {
    var a, rpc := Starts(c, s);
    var b := FindsStorage(c, a);
    var k := MakesScratch(c, b);
    next := Binds(c, k, Scratch);
  }

  /** The Job of an earlier claim reports its success late. */
  lemma Succeeds(c: Setting, s: Sys) returns (next: Sys)
    requires Ticks(c) && AtRest(s) && Storage in WorldOf(s)
    requires RestoreJob in WorldOf(s) && s.history.target < s.history.claims
    ensures c.R(s, next) && AtRest(next) && next.history == s.history && HasSucceeded(WorldOf(next))
    ensures WorldOf(next) == WorldOf(s)[RestoreJob := WorldOf(next)[RestoreJob]]
  {
    next := Acts(c, s, JobSucceeds(RestoreJob));
  }

  lemma SuccessIsTaken(c: Setting, s: Sys) returns (later: Sys)
    requires Ticks(c) && AtRest(s) && HasRpc(s) && StoredRpc(s).spec == ON && !Restored(StoredRpc(s).conditions)
    requires Bound(WorldOf(s), Storage) && HasSucceeded(WorldOf(s)) && RpcPod !in WorldOf(s)
    ensures c.R(s, later) && later.history == s.history
    ensures CreatesPod(later, NOW) && Storage in WorldOf(later)
  {
    var a := Drops(c, s, Scratch);
    var b := GetsScratch(c, a);
    later := FinishesRestore(c, b);
  }

  lemma ExposedClaimIsServed(c: Setting, s: Sys) returns (later: Sys)
    requires Ticks(c) && Exposed(s)
    ensures c.R(s, later) && UnrestoredPod(later) && later.history == s.history
  {
    var a := Drops(c, s, RpcPod);
    var b := TurnsOn(c, a);
    var k := Binds(c, b, Storage);
    later := BoundClaimIsServed(c, k);
  }

  lemma BoundClaimIsServed(c: Setting, s: Sys) returns (later: Sys)
    requires Ticks(c) && Exposed(s) && HasRpc(s) && StoredRpc(s).spec == ON
    requires Bound(WorldOf(s), Storage) && RpcPod !in WorldOf(s)
    ensures c.R(s, later) && UnrestoredPod(later) && later.history == s.history
  {
    if StoredRestored(WorldOf(s)) {
      later := PassToPod(c, s);
    } else if HasSucceeded(WorldOf(s)) {
      later := SuccessIsTaken(c, s);
    } else {
      var a := Succeeds(c, s);
      later := SuccessIsTaken(c, a);
    }
  }

  /** The reset of a claim that meets a stale Job does not help: the Job is still there afterwards. */
  lemma ResetKeepsExposed(c: Setting, s: Sys) returns (next: Sys)
    requires Ticks(c) && Sound(c.n, s) && Resetting(s.process)
    requires Storage in WorldOf(s) && StaleHere(WorldOf(s), s.history)
    requires s.history.claims !in s.history.restored && s.history.claims !in s.history.skipped
    ensures c.R(s, next) && Exposed(next) && next.history.claims == s.history.claims
  {
    next := ResetIsAnswered(c, s);
    assert Lookup(WorldOf(next), Storage) == Lookup(WorldOf(s), Storage);
    assert Lookup(WorldOf(next), RestoreJob) == Lookup(WorldOf(s), RestoreJob);
    if next.process.Running? {
      next := Breaks(c, next);
    }
  }

  lemma ResetIsAnswered(c: Setting, s: Sys) returns (next: Sys)
    requires Ticks(c) && Sound(c.n, s) && Resetting(s.process)
    ensures c.R(s, next) && Sound(c.n, next)
    ensures next.history == s.history.(incidents := next.history.incidents)
    ensures forall k :: k != TheRpc ==> Lookup(WorldOf(next), k) == Lookup(WorldOf(s), k)
    ensures next.process.Running? ==> next.process.at == CreateScratch || next.process.at == Storing(SkipRestore)
  {
    next := CallStep(c.n, s, Answered, c.now);
    CallLeads(c, s);
    CallKeepsSound(c.n, s, Answered, c.now);
    WriteShapes(s.process.rpc.conditions, ResetRestore, c.now);
  }

  /** The call in which a claim comes under a status, or beside a Job, that is not its own. */
  predicate Betrays(s: Sys, reply: Reply) {
    LosesReset(WorldOf(s), s.process, s.history, reply) || MeetsStaleJob(WorldOf(s), s.process, s.history, reply)
  }

  lemma BetrayalExposes(n: Name, s: Sys, reply: Reply, now: int)
    requires Sound(n, s) && Betrays(s, reply)
    ensures var next := CallStep(n, s, reply, now);
            && Storage in WorldOf(next)
            && (if LosesReset(WorldOf(s), s.process, s.history, reply)
                then next.process.Resting? && StoredRestored(WorldOf(next))
                else (next.process.Resting? || Resetting(next.process)) && StaleHere(WorldOf(next), next.history))
  {
  }

  lemma BetrayedClaimIsUnrestored(n: Name, ticks: seq<Tick<Slot>>, t: Tick<Slot>)
    requires Betrays(Before(n, INIT, ticks, t), t.reply)
    ensures var next := Step(n, Exec(n, INIT, ticks), t);
            && Sound(n, next) && Storage in WorldOf(next)
            && next.history.claims !in next.history.restored && next.history.claims !in next.history.skipped
            && (if LosesReset(WorldOf(Before(n, INIT, ticks, t)), Before(n, INIT, ticks, t).process,
                              Before(n, INIT, ticks, t).history, t.reply)
                then next.process.Resting? && StoredRestored(WorldOf(next))
                else (next.process.Resting? || Resetting(next.process)) && StaleHere(WorldOf(next), next.history))
  {
    NewClaimsAreUnrestored(n, ticks, t);
    RunsAreSound(n, ticks, t);
    BetrayalExposes(n, Before(n, INIT, ticks, t), t.reply, t.now);
  }

  predicate Incidental(h: History, claim: nat) {
    LostReset(claim) in h.incidents || StaleJob(claim) in h.incidents
  }

  lemma {:induction false} EnvAddsNoClaimIncident(s: Sys, env: seq<Action<Slot>>, claim: nat)
    ensures Incidental(EnvSteps(s, env).history, claim) == Incidental(s.history, claim)
    decreases |env|
  {
    if |env| > 0 {
      EnvAddsNoClaimIncident(EnvStep(s, env[0]), env[1..], claim);
    }
  }

  lemma CallAddsIncident(n: Name, s: Sys, reply: Reply, now: int, claim: nat)
    requires Incidental(CallStep(n, s, reply, now).history, claim) && !Incidental(s.history, claim)
    ensures Betrays(s, reply) && CallStep(n, s, reply, now).history.claims == claim
  {
  }

  lemma {:induction false} IncidentsAreBetrayals(n: Name, ticks: seq<Tick<Slot>>, claim: nat)
    requires Incidental(Exec(n, INIT, ticks).history, claim)
    ensures exists k :: 0 <= k < |ticks| && BetraysAt(n, ticks, k, claim)
  {
    assert |ticks| > 0;
    hide CallStep, EnvSteps, Betrays, Incidental;
    var earlier, last := ticks[..|ticks| - 1], ticks[|ticks| - 1];
    assert Exec(n, INIT, ticks) == Step(n, Exec(n, INIT, earlier), last);
    hide Exec;
    if Incidental(Exec(n, INIT, earlier).history, claim) {
      IncidentsAreBetrayals(n, earlier, claim);
      var k :| 0 <= k < |earlier| && BetraysAt(n, earlier, k, claim);
      assert earlier[..k] == ticks[..k];
      assert BetraysAt(n, ticks, k, claim);
    } else {
      LastCallBetrays(n, ticks, claim);
    }
  }

  lemma LastCallBetrays(n: Name, ticks: seq<Tick<Slot>>, claim: nat)
    requires |ticks| > 0 && Incidental(Exec(n, INIT, ticks).history, claim)
    requires !Incidental(Exec(n, INIT, ticks[..|ticks| - 1]).history, claim)
    ensures BetraysAt(n, ticks, |ticks| - 1, claim)
  {
    hide CallStep, EnvSteps, Betrays, Incidental;
    var earlier, last := ticks[..|ticks| - 1], ticks[|ticks| - 1];
    EnvAddsNoClaimIncident(Exec(n, INIT, earlier), last.env, claim);
    CallAddsIncident(n, Before(n, INIT, earlier, last), last.reply, last.now, claim);
  }

  /** The call of the given tick is made on the given claim. */
  predicate BetraysAt(n: Name, ticks: seq<Tick<Slot>>, k: nat, claim: nat)
    requires k < |ticks|
  {
    && Betrays(Before(n, INIT, ticks[..k], ticks[k]), ticks[k].reply)
    && Step(n, Exec(n, INIT, ticks[..k]), ticks[k]).history.claims == claim
  }

  /** In every run, a pod that starts on a claim that was never restored starts on one on which such a call was made. */
  lemma UnrestoredPodsAreBetrayed(n: Name, ticks: seq<Tick<Slot>>, t: Tick<Slot>)
    requires CreatesPod(Before(n, INIT, ticks, t), t) && Storage in WorldOf(Before(n, INIT, ticks, t))
    requires var h := Before(n, INIT, ticks, t).history; h.claims !in h.restored && h.claims !in h.skipped
    ensures var claim := Before(n, INIT, ticks, t).history.claims;
            exists k :: 0 <= k < |ticks| && BetraysAt(n, ticks, k, claim)
  {
    PodOnlyOnRestoredData(n, ticks, t);
    var claim := Before(n, INIT, ticks, t).history.claims;
    EnvAddsNoClaimIncident(Exec(n, INIT, ticks), t.env, claim);
    IncidentsAreBetrayals(n, ticks, claim);
  }

  /** Conversely, in every run each such call can be followed by a run that keeps all the assumptions and starts the pod
      on the very claim, unrestored. */
  lemma BetrayedClaimsAreServed(n: Name, ticks: seq<Tick<Slot>>, t: Tick<Slot>)
    requires Betrays(Before(n, INIT, ticks, t), t.reply)
    ensures var next := Step(n, Exec(n, INIT, ticks), t);
            exists later :: Leads(n, next, later, PAIRED) && UnrestoredPod(later)
                            && later.history.claims == next.history.claims
  {
    BetrayedClaimIsUnrestored(n, ticks, t);
    RulesAreRoomy();
    RunsTick(n, PAIRED);
    var c := RunSetting(n, PAIRED);
    var next := Step(n, Exec(n, INIT, ticks), t);
    var later;
    if next.process.Resting? {
      later := ExposedClaimIsServed(c, next);
      assert Leads(n, next, later, PAIRED);
    } else {
      var middle := ResetKeepsExposed(c, next);
      later := ExposedClaimIsServed(c, middle);
      assert c.R(next, later);
      assert Leads(n, next, later, PAIRED);
    }
  }

  /** A lost reset needs no help: if there is no pod, the next calm pass puts one on the unrestored claim. */
  lemma LostResetIsServedNext(n: Name, ticks: seq<Tick<Slot>>, t: Tick<Slot>, ready: bool, now: int)
    requires var s := Before(n, INIT, ticks, t);
             LosesReset(WorldOf(s), s.process, s.history, t.reply) && RpcPod !in WorldOf(s)
    ensures var next := Step(n, Exec(n, INIT, ticks), t);
            && Sound(n, next) && next.process.Resting? && Storage in WorldOf(next)
            && next.history.claims !in next.history.restored && next.history.claims !in next.history.skipped
            && RpcPod !in WorldOf(next) && RpcPod in WorldOf(CalmPass(n, next, ready, now))
  {
    BetrayedClaimIsUnrestored(n, ticks, t);
    RunsAreSound(n, ticks, t);
    NextPassRecreatesPod(n, Step(n, Exec(n, INIT, ticks), t), ready, now);
  }

  // ---- Job and pod together ----

  /** A pass creates the storage claim, and fails when it comes to the reset; there is nothing to reset. */
  lemma AdoptsClaim(c: Setting, s: Sys) returns (next: Sys)
    requires Ticks(c) && c.rules == BENIGN && AtRest(s) && HasRpc(s) && StoredRpc(s).spec == ON
    requires !Restored(StoredRpc(s).conditions) && Storage !in WorldOf(s) && RestoreJob !in WorldOf(s)
    ensures c.R(s, next) && AtRest(next) && next.history.incidents == s.history.incidents
    ensures HasRpc(next) && StoredRpc(next).spec == ON && !Restored(StoredRpc(next).conditions)
    ensures WorldOf(next) == WorldOf(s)[TheRpc := WorldOf(next)[TheRpc]][Storage := ClaimObject(Claim(ClaimBound))]
  {
    var a, rpc := Starts(c, s);
    var b := MakesStorage(c, a);
    var k := Breaks(c, b);
    next := Binds(c, k, Storage);
  }

  /** A pod beside a resource that is not restored gets a Job beside it, and it takes no further incident. */
  lemma RestoringUnderPodOverlaps(c: Setting, s: Sys) returns (later: Sys)
    requires Ticks(c) && c.rules == BENIGN && AtRest(s) && RpcPod in WorldOf(s) && !StoredRestored(WorldOf(s))
    ensures c.R(s, later) && Overlapping(later) && later.history.incidents == s.history.incidents
  {
    var a := TurnsOn(c, s);
    if RestoreJob in WorldOf(s) {
      return a;
    }
    var b := Drops(c, a, Scratch);
    var k;
    if Storage in WorldOf(b) {
      k := Binds(c, b, Storage);
    } else {
      k := AdoptsClaim(c, b);
    }
    later := StartsRestore(c, k);
  }

  /** Failing calls end a pass; only the probe has to be followed by another failure. */
  lemma Stops(c: Setting, s: Sys) returns (next: Sys)
    requires Ticks(c) && c.rules == BENIGN && s.process.Running? && !StoredRestored(WorldOf(s))
    ensures c.R(s, next) && next.process.Resting? && next.cluster == s.cluster && next.history == s.history
  {
    if s.process.at == ProbePod {
      var middle := CallStep(c.n, s, Rejected, c.now);
      assert c.R(s, Step(c.n, s, Tick([], Rejected, c.now)));
      assert WorldOf(middle) == WorldOf(s);
      next := Breaks(c, middle);
    } else {
      next := Breaks(c, s);
    }
  }

  lemma PodIsCaughtUp(c: Setting, s: Sys) returns (later: Sys)
    requires Ticks(c) && c.rules == BENIGN && Sound(c.n, s) && RpcPod in WorldOf(s) && !StoredRestored(WorldOf(s))
    ensures c.R(s, later) && Overlapping(later) && later.history.incidents == s.history.incidents
  {
    if s.process.Resting? {
      later := RestoringUnderPodOverlaps(c, s);
    } else {
      var a := Stops(c, s);
      later := RestoringUnderPodOverlaps(c, a);
    }
  }

  /** Some run brings Job and pod together without any incident on the way. By `ApartWithoutIncident` there is none from
      a state in which they are kept apart. */
  ghost predicate OverlapsByItself(n: Name, s: Sys) {
    exists later :: Leads(n, Forgiven(s), later, BENIGN) && Overlapping(later) && later.history.incidents == {}
  }

  /** After the skip the pass creates the pod beside the Job, with its next call. */
  lemma SkippingOverJobOverlaps(n: Name, ticks: seq<Tick<Slot>>, t: Tick<Slot>, now: int)
    requires var s := Before(n, INIT, ticks, t);
             At(s.process, Storing(SkipRestore)) && Current(WorldOf(s), s.process.rpc)
             && RestoreJob in WorldOf(s) && t.reply.Answered?
    ensures var next := Step(n, Exec(n, INIT, ticks), t);
            var later := CallStep(n, next, Answered, now);
            Overlapping(later) && later.history == next.history
  {
    RunsAreSound(n, ticks, t);
    SkipLeadsToPod(n, Before(n, INIT, ticks, t), t.now);
    FilingKeepsObjects(n, Step(n, Exec(n, INIT, ticks), t), now);
  }

  lemma SkipLeadsToPod(n: Name, s: Sys, now: int)
    requires Sound(n, s) && At(s.process, Storing(SkipRestore)) && Current(WorldOf(s), s.process.rpc)
    ensures var next := CallStep(n, s, Answered, now);
            At(next.process, Upsert(RpcPod, Filing)) && (forall k :: k in WorldOf(next) <==> k in WorldOf(s))
  {
    WriteShapes(s.process.rpc.conditions, SkipRestore, now);
  }

  lemma FilingKeepsObjects(n: Name, s: Sys, now: int)
    requires At(s.process, Upsert(RpcPod, Filing))
    ensures var next := CallStep(n, s, Answered, now);
            && next.history == s.history && RpcPod in WorldOf(next)
            && (forall k :: k in WorldOf(s) ==> k in WorldOf(next))
  {
  }

  /** In every run, a reset under the pod lets the restore start beside it, and takes no other incident to do so. */
  lemma ResettingUnderPodOverlaps(n: Name, ticks: seq<Tick<Slot>>, t: Tick<Slot>)
    requires var s := Before(n, INIT, ticks, t);
             Resetting(s.process) && Current(WorldOf(s), s.process.rpc) && RpcPod in WorldOf(s) && !t.reply.Rejected?
    ensures OverlapsByItself(n, Step(n, Exec(n, INIT, ticks), t))
  {
    RunsAreSound(n, ticks, t);
    ResetTakesEffect(n, Before(n, INIT, ticks, t), t.reply, t.now);
    UnrestoredPodOverlaps(n, Step(n, Exec(n, INIT, ticks), t));
  }

  lemma ResetTakesEffect(n: Name, s: Sys, reply: Reply, now: int)
    requires Sound(n, s) && Resetting(s.process) && Current(WorldOf(s), s.process.rpc) && !reply.Rejected?
    ensures var next := CallStep(n, s, reply, now);
            !StoredRestored(WorldOf(next)) && (RpcPod in WorldOf(s) ==> RpcPod in WorldOf(next))
  {
    WriteShapes(s.process.rpc.conditions, ResetRestore, now);
  }

  lemma UnrestoredPodOverlaps(n: Name, s: Sys)
    requires Sound(n, s) && RpcPod in WorldOf(s) && !StoredRestored(WorldOf(s))
    ensures OverlapsByItself(n, s)
  {
    RulesAreRoomy();
    RunsTick(n, BENIGN);
    var later := PodIsCaughtUp(RunSetting(n, BENIGN), Forgiven(s));
    assert Leads(n, Forgiven(s), later, BENIGN);
  }

  /** A pass on its way to the pod gets there, whatever becomes of its resource. */
  lemma PassGoesOnToPod(c: Setting, s: Sys) returns (next: Sys)
    requires Ticks(c) && HeadsForPod(WorldOf(s), s.process) && RpcPod !in WorldOf(s)
    requires s.process.at == CreateStorage || s.process.at == DeleteJob ==> Restored(s.process.rpc.conditions)
    requires s.process.at == DeleteScratch ==> Restored(s.process.rpc.conditions)
    ensures c.R(s, next) && next.process.Running? && RpcPod in WorldOf(next) && next.history == s.history
    ensures Typed(WorldOf(s)) ==> Typed(WorldOf(next))
    ensures Lookup(WorldOf(next), TheRpc) == Lookup(WorldOf(s), TheRpc)
  {
    if s.process.at == CreateStorage {
      var b := FindsStorage(c, s);
      var k := CleansUp(c, b);
      next := MakesPod(c, k);
    } else if s.process.at == DeleteJob {
      var k := CleansUp(c, s);
      next := MakesPod(c, k);
    } else if s.process.at == DeleteScratch {
      var k := CallStep(c.n, s, Answered, c.now);
      CallLeads(c, s);
      assert WorldOf(k) == WorldOf(s) - {Scratch};
      next := MakesPod(c, k);
    } else {
      next := MakesPod(c, s);
    }
  }

  /** In every run, deleting the resource under its pod, or under a pass on its way to the pod, lets a restore for a new
      resource start beside that pod, and takes no other incident to do so. */
  lemma DeletingResourceOverlaps(n: Name, ticks: seq<Tick<Slot>>, t: Tick<Slot>)
    requires var s := Before(n, INIT, ticks, t); HeadsForPod(WorldOf(s), s.process) || RpcPod in WorldOf(s)
    ensures OverlapsByItself(n, EnvStep(Before(n, INIT, ticks, t), Remove(TheRpc)))
  {
    RunsAreSound(n, ticks, t);
    var s := Before(n, INIT, ticks, t);
    EnvKeepsSound(n, s, Remove(TheRpc));
    DeletionTakesEffect(n, s);
    var next := EnvStep(s, Remove(TheRpc));
    if RpcPod in WorldOf(next) {
      UnrestoredPodOverlaps(n, next);
    } else {
      OrphanedPassOverlaps(n, next);
    }
  }

  lemma DeletionTakesEffect(n: Name, s: Sys)
    ensures var next := EnvStep(s, Remove(TheRpc));
            TheRpc !in WorldOf(next) && next.process == s.process && (RpcPod in WorldOf(next) <==> RpcPod in WorldOf(s))
    ensures HeadsForPod(WorldOf(s), s.process) ==>
              HeadsForPod(WorldOf(EnvStep(s, Remove(TheRpc))), s.process)
  {
  }

  lemma OrphanedPassOverlaps(n: Name, s: Sys)
    requires Sound(n, s) && TheRpc !in WorldOf(s) && HeadsForPod(WorldOf(s), s.process) && RpcPod !in WorldOf(s)
    ensures OverlapsByItself(n, s)
  {
    RulesAreRoomy();
    RunsTick(n, BENIGN);
    var later := DeletionIsCaughtUp(RunSetting(n, BENIGN), Forgiven(s));
    assert Leads(n, Forgiven(s), later, BENIGN);
  }

  lemma DeletionIsCaughtUp(c: Setting, s: Sys) returns (later: Sys)
    requires Ticks(c) && c.rules == BENIGN && Sound(c.n, s)
    requires TheRpc !in WorldOf(s) && HeadsForPod(WorldOf(s), s.process) && RpcPod !in WorldOf(s)
    ensures c.R(s, later) && Overlapping(later) && later.history.incidents == s.history.incidents
  {
    var made := PassGoesOnToPod(c, s);
    var a := Stops(c, made);
    later := RestoringUnderPodOverlaps(c, a);
  }
}
