/** What the calls of one pass come to: a bound on their number and, when nothing interferes, the calm pass. */
module OnePass {
  import opened Objects
  import opened Names
  import opened Server
  import opened Process
  import opened Machine
  import opened Soundness
  import opened Passes
  import opened Decisions
  import opened Segments
  import opened Convergence
  import opened Isolation
  import opened Store

  function SeenAll(n: Name, env: seq<Action<Key>>): seq<Action<Slot>> {
    if |env| == 0 then []
    else
      var a := env[|env| - 1];
      SeenAll(n, env[..|env| - 1]) + (if Allowed(a) then [Seen(n, a)] else [])
  }

  lemma {:induction false} WorldsMatch(w: Whole, n: Name, s: Sys, env: seq<Action<Key>>)
    requires Matches(w, n, s)
    ensures Matches(w.(cluster := OutsideAll(w.cluster, env)), n, EnvSteps(s, SeenAll(n, env)))
  {
    if |env| > 0 {
      var earlier, a := env[..|env| - 1], env[|env| - 1];
      WorldsMatch(w, n, s, earlier);
      if Allowed(a) {
        var middle := w.(cluster := OutsideAll(w.cluster, earlier));
        ActionMatches(middle, n, EnvSteps(s, SeenAll(n, earlier)), a);
        EnvStepsSnoc(s, SeenAll(n, earlier), Seen(n, a));
      } else {
        assert SeenAll(n, env) == SeenAll(n, earlier);
      }
    }
  }

  /** A tick of the whole operator in which `n` makes a call is a tick of its step machine. */
  function SeenStep(n: Name, s: Sys, t: Tick<Key>): Sys {
    CallStep(n, EnvSteps(s, SeenAll(n, t.env)), t.reply, t.now)
  }

  lemma TickMatches(w: Whole, n: Name, s: Sys, t: Tick<Key>)
    requires Matches(w, n, s)
    ensures Matches(AfterTick(w, n, t), n, SeenStep(n, s, t))
  {
    WorldsMatch(w, n, s, t.env);
    CallMatches(w.(cluster := OutsideAll(w.cluster, t.env)), n, EnvSteps(s, SeenAll(n, t.env)), t.reply, t.now);
  }

  // ---- A stretch of calls of one process ----

  function CallsOn(callers: seq<Name>, n: Name, k: nat): seq<Name> {
    if k == 0 then callers else CallsOn(callers, n, k - 1) + [n]
  }

  lemma {:induction false} CallsOnLength(callers: seq<Name>, n: Name, k: nat)
    ensures |CallsOn(callers, n, k)| == |callers| + k
  {
    if k > 0 {
      CallsOnLength(callers, n, k - 1);
    }
  }

  lemma {:induction false} CallsOnIs(callers: seq<Name>, n: Name, later: seq<Name>)
    requires |callers| <= |later| && later[..|callers|] == callers
    requires forall i :: |callers| <= i < |later| ==> later[i] == n
    ensures later == CallsOn(callers, n, |later| - |callers|)
    decreases |later|
  {
    if |later| > |callers| {
      var earlier := later[..|later| - 1];
      assert earlier[..|callers|] == later[..|callers|];
      CallsOnIs(callers, n, earlier);
      assert later == earlier + [n];
    } else {
      assert later == later[..|callers|];
    }
  }

  /** The step machine of `n` along such a stretch. */
  function Along(n: Name, weather: nat -> Tick<Key>, callers: seq<Name>, k: nat): Sys {
    if k == 0 then ShareState(n, Timeline(weather, callers))
    else SeenStep(n, Along(n, weather, callers, k - 1), weather(|callers| + k - 1))
  }

  lemma {:induction false} AlongMatches(n: Name, weather: nat -> Tick<Key>, callers: seq<Name>, k: nat)
    ensures Matches(Outcome(weather, CallsOn(callers, n, k)), n, Along(n, weather, callers, k))
    ensures Sound(n, Along(n, weather, callers, k))
  {
    hide SeenStep, AfterTick, Sound, ShareState;
    if k == 0 {
      TimelineHappens(weather, callers);
      EveryResourceIsSafe(n, Timeline(weather, callers));
      WholeRunsMatch(n, Timeline(weather, callers));
    } else {
      AlongMatches(n, weather, callers, k - 1);
      CallsOnLength(callers, n, k - 1);
      var earlier, s, t := CallsOn(callers, n, k - 1), Along(n, weather, callers, k - 1), weather(|callers| + k - 1);
      OutcomeSnoc(weather, earlier, n);
      TickMatches(Outcome(weather, earlier), n, s, t);
      SeenStepIsSound(n, s, t);
    }
  }

  lemma SeenStepIsSound(n: Name, s: Sys, t: Tick<Key>)
    requires Sound(n, s)
    ensures Sound(n, SeenStep(n, s, t))
  {
    EnvIsSound(n, s, SeenAll(n, t.env));
    CallKeepsSound(n, EnvSteps(s, SeenAll(n, t.env)), t.reply, t.now);
  }

  // ---- One pass ----

  /** The stretch of calls is one pass: it goes from rest to rest, and only its first call starts a pass. */
  predicate IsPass(n: Name, weather: nat -> Tick<Key>, callers: seq<Name>, later: seq<Name>) {
    && |callers| <= |later| && later[..|callers|] == callers
    && (forall i :: |callers| <= i < |later| ==> later[i] == n)
    && ProcessOf(Outcome(weather, callers), n).Resting? && ProcessOf(Outcome(weather, later), n).Resting?
    && PassesBegun(weather, later) == PassesBegun(weather, callers) + 1
  }

  lemma {:induction false} PassesOnlyGrow(n: Name, weather: nat -> Tick<Key>, callers: seq<Name>, j: nat, k: nat)
    requires j <= k
    ensures PassesBegun(weather, CallsOn(callers, n, j)) <= PassesBegun(weather, CallsOn(callers, n, k))
    decreases k
  {
    hide Outcome, PassesBegun;
    if j < k {
      PassesOnlyGrow(n, weather, callers, j, k - 1);
      OutcomeSnoc(weather, CallsOn(callers, n, k - 1), n);
    }
  }

  /** After every call of the pass but the last, the process is running. */
  lemma PassIsUnbroken(n: Name, weather: nat -> Tick<Key>, callers: seq<Name>, later: seq<Name>, j: nat)
    requires IsPass(n, weather, callers, later) && 0 < j < |later| - |callers|
    ensures Along(n, weather, callers, j).process.Running?
  {
    hide Outcome, PassesBegun, Along, Sound;
    CallsOnIs(callers, n, later);
    AlongMatches(n, weather, callers, j);
    OutcomeSnoc(weather, callers, n);
    assert CallsOn(callers, n, 0) == callers;
    assert CallsOn(callers, n, 1) == callers + [n];
    PassesOnlyGrow(n, weather, callers, 1, j);
    OutcomeSnoc(weather, CallsOn(callers, n, j), n);
    PassesOnlyGrow(n, weather, callers, j + 1, |later| - |callers|);
  }

  lemma PassHasCalls(n: Name, weather: nat -> Tick<Key>, callers: seq<Name>, later: seq<Name>)
    requires IsPass(n, weather, callers, later)
    ensures |callers| < |later|
  {
    assert |later| == |callers| ==> later == callers;
  }

  lemma SeenStepRaisesRank(n: Name, s: Sys, t: Tick<Key>)
    requires Sound(n, s) && s.process.Running?
    ensures var next := SeenStep(n, s, t); next.process.Running? ==> Rank(s.process.at) < Rank(next.process.at) <= 13
  {
    EnvIsSound(n, s, SeenAll(n, t.env));
    CallMovesForward(n, EnvSteps(s, SeenAll(n, t.env)), t.reply, t.now);
  }

  lemma {:induction false} PassClimbs(n: Name, weather: nat -> Tick<Key>, callers: seq<Name>, later: seq<Name>, j: nat)
    requires IsPass(n, weather, callers, later) && 0 < j < |later| - |callers|
    ensures var p := Along(n, weather, callers, j).process;
            p.Running? && j - 1 <= Rank(p.at) <= 13
  {
    hide Outcome, PassesBegun, SeenStep, Rank;
    PassIsUnbroken(n, weather, callers, later, j);
    if j > 1 {
      PassClimbs(n, weather, callers, later, j - 1);
      AlongMatches(n, weather, callers, j - 1);
      SeenStepRaisesRank(n, Along(n, weather, callers, j - 1), weather(|callers| + j - 1));
    } else {
      RankIsBounded(Along(n, weather, callers, j).process.at);
    }
  }

  lemma RankIsBounded(at: Pc)
    ensures Rank(at) <= 13
  {
  }

  /** Whatever happens around it, a pass makes at most fifteen calls. */
  lemma PassIsShort(n: Name, weather: nat -> Tick<Key>, callers: seq<Name>, later: seq<Name>)
    requires IsPass(n, weather, callers, later)
    ensures |callers| < |later| <= |callers| + 15
  {
    PassHasCalls(n, weather, callers, later);
    if |later| > |callers| + 1 {
      PassClimbs(n, weather, callers, later, |later| - |callers| - 1);
    }
  }

  // ---- How a pass ends ----

  /** The state in which the last call of the pass is made, and its tick, as the step machine sees them. */
  function LastState(n: Name, weather: nat -> Tick<Key>, callers: seq<Name>, later: seq<Name>): Sys
    requires |callers| < |later|
  {
    EnvSteps(Along(n, weather, callers, |later| - |callers| - 1), SeenAll(n, weather(|later| - 1).env))
  }

  function LastTick(n: Name, weather: nat -> Tick<Key>, later: seq<Name>): Tick<Slot>
    requires |later| > 0
  {
    var t := weather(|later| - 1);
    Tick(SeenAll(n, t.env), t.reply, t.now)
  }

  /** The pass ends as its last call makes it end. */
  predicate PassEnds(n: Name, weather: nat -> Tick<Key>, callers: seq<Name>, later: seq<Name>, e: Ending) {
    |callers| < |later| && EndsRightly(n, LastState(n, weather, callers, later), LastTick(n, weather, later), e)
  }

  /** Some call of the pass asks for the deletion of the pod. */
  predicate DropsItsPod(n: Name, weather: nat -> Tick<Key>, callers: seq<Name>, later: seq<Name>) {
    exists j :: 0 <= j < |later| - |callers| && DropsPodAt(n, weather, callers, j)
  }

  predicate DropsPodAt(n: Name, weather: nat -> Tick<Key>, callers: seq<Name>, j: nat) {
    Ask(n, Along(n, weather, callers, j).process, weather(|callers| + j).now) == Delete(RpcPod)
  }

  /** The pass, as the step machine sees its ends. */
  lemma PassEndsAlong(n: Name, weather: nat -> Tick<Key>, callers: seq<Name>, later: seq<Name>)
    requires IsPass(n, weather, callers, later)
    ensures |callers| < |later|
    ensures Along(n, weather, callers, |later| - |callers|).process == ProcessOf(Outcome(weather, later), n)
    ensures Sound(n, Along(n, weather, callers, |later| - |callers| - 1))
    ensures ProcessOf(Outcome(weather, later), n).Resting?
  {
    hide Outcome, PassesBegun, Along, Sound;
    PassHasCalls(n, weather, callers, later);
    CallsOnIs(callers, n, later);
    AlongMatches(n, weather, callers, |later| - |callers| - 1);
    AlongMatches(n, weather, callers, |later| - |callers|);
  }

  lemma LastCallEndsPass(n: Name, weather: nat -> Tick<Key>, callers: seq<Name>, later: seq<Name>)
    requires IsPass(n, weather, callers, later)
    ensures ProcessOf(Outcome(weather, later), n).Resting?
    ensures PassEnds(n, weather, callers, later, ProcessOf(Outcome(weather, later), n).last)
  {
    hide IsPass, Outcome, Along, Sound, EndsRightly, CallStep, ProcessOf, EnvSteps, SeenAll;
    PassEndsAlong(n, weather, callers, later);
    var calls := |later| - |callers|;
    var s, t := Along(n, weather, callers, calls - 1), weather(|later| - 1);
    AlongSnoc(n, weather, callers, calls);
    EnvIsSound(n, s, SeenAll(n, t.env));
    CallEndsRightly(n, LastState(n, weather, callers, later), LastTick(n, weather, later));
  }

  lemma AlongSnoc(n: Name, weather: nat -> Tick<Key>, callers: seq<Name>, k: nat)
    requires k > 0
    ensures Along(n, weather, callers, k) == SeenStep(n, Along(n, weather, callers, k - 1), weather(|callers| + k - 1))
  {
  }

  /** The call that asks for the deletion of the pod is the last one. */
  lemma DeletionIsLast(n: Name, weather: nat -> Tick<Key>, callers: seq<Name>, later: seq<Name>, j: nat)
    requires IsPass(n, weather, callers, later) && j < |later| - |callers| && DropsPodAt(n, weather, callers, j)
    ensures j == |later| - |callers| - 1
  {
    hide IsPass, Outcome, Along, Sound, CallStep, SeenAll, Ask;
    AlongSnoc(n, weather, callers, j + 1);
    var s, t := Along(n, weather, callers, j), weather(|callers| + j);
    AlongMatches(n, weather, callers, j);
    EnvIsSound(n, s, SeenAll(n, t.env));
    DeletionRests(n, EnvSteps(s, SeenAll(n, t.env)), t.reply, t.now);
    if j + 1 < |later| - |callers| {
      PassIsUnbroken(n, weather, callers, later, j + 1);
    }
  }

  lemma DeletionRests(n: Name, s: Sys, reply: Reply, now: int)
    requires Sound(n, s) && Ask(n, s.process, now) == Delete(RpcPod)
    ensures CallStep(n, s, reply, now).process.Resting?
  {
    AsksAre(n, s.process, now);
    hide Sound, Ask;
  }

  /** The ending a deletion calls for. */
  lemma DroppingRequeues(n: Name, s: Sys, t: Tick<Slot>, e: Ending)
    requires Sound(n, s) && EndsRightly(n, s, t, e) && e.Completed?
    ensures e.result.requeue <==> Ask(n, s.process, t.now) == Delete(RpcPod)
  {
    AsksAre(n, s.process, t.now);
    hide Ask, Sound;
  }

  lemma LastAsk(n: Name, weather: nat -> Tick<Key>, callers: seq<Name>, later: seq<Name>)
    requires |callers| < |later| && Sound(n, Along(n, weather, callers, |later| - |callers| - 1))
    ensures Sound(n, LastState(n, weather, callers, later))
    ensures Ask(n, LastState(n, weather, callers, later).process, LastTick(n, weather, later).now) == Delete(RpcPod)
            <==> DropsPodAt(n, weather, callers, |later| - |callers| - 1)
  {
    hide Along, Sound, Ask, SeenAll;
    EnvIsSound(n, Along(n, weather, callers, |later| - |callers| - 1), SeenAll(n, weather(|later| - 1).env));
  }

  /** A pass that ends without an error asks to be run again at once exactly if it has deleted its pod. */
  lemma DeletionRequeuesPass(n: Name, weather: nat -> Tick<Key>, callers: seq<Name>, later: seq<Name>)
    requires IsPass(n, weather, callers, later)
    ensures ProcessOf(Outcome(weather, later), n).Resting?
    ensures var e := ProcessOf(Outcome(weather, later), n).last;
            e.Completed? ==> (e.result.requeue <==> DropsItsPod(n, weather, callers, later))
  {
    hide IsPass, Outcome, Along, Sound, ProcessOf, EndsRightly, DropsPodAt, LastState;
    PassEndsAlong(n, weather, callers, later);
    LastCallEndsPass(n, weather, callers, later);
    LastAsk(n, weather, callers, later);
    var e := ProcessOf(Outcome(weather, later), n).last;
    if e.Completed? {
      DroppingRequeues(n, LastState(n, weather, callers, later), LastTick(n, weather, later), e);
    }
    if DropsItsPod(n, weather, callers, later) {
      var j :| 0 <= j < |later| - |callers| && DropsPodAt(n, weather, callers, j);
      DeletionIsLast(n, weather, callers, later, j);
    }
  }

  // ---- A calm pass ----

  /** Nothing happens between the calls, and they are answered; the readiness probe says what it says. */
  predicate CalmWeather(n: Name, weather: nat -> Tick<Key>, callers: seq<Name>, calls: nat, ready: bool, now: int) {
    forall j :: 0 <= j < calls ==>
                  weather(|callers| + j) == Tick([], CalmReply(Along(n, weather, callers, j).process, ready), now)
  }

  lemma CalmStep(n: Name, s: Sys, reply: Reply, now: int)
    ensures SeenStep(n, s, Tick([], reply, now)) == CallStep(n, s, reply, now)
  {
  }

  lemma {:induction false} CalmCallsRunOut(n: Name, weather: nat -> Tick<Key>, callers: seq<Name>, later: seq<Name>,
                                           ready: bool, now: int, j: nat)
    requires IsPass(n, weather, callers, later) && 0 < j <= |later| - |callers|
    requires CalmWeather(n, weather, callers, |later| - |callers|, ready, now)
    ensures Sound(n, Along(n, weather, callers, 0)) && Along(n, weather, callers, 0).process.Resting?
    ensures Sound(n, Along(n, weather, callers, j))
    ensures RunOut(n, Along(n, weather, callers, j), ready, now) ==
            CalmPass(n, Along(n, weather, callers, 0), ready, now)
  {
    hide Outcome, PassesBegun, SeenStep, CallStep, Sound;
    var s := Along(n, weather, callers, j - 1);
    AlongMatches(n, weather, callers, 0);
    AlongMatches(n, weather, callers, j);
    CalmStep(n, s, CalmReply(s.process, ready), now);
    if j > 1 {
      CalmCallsRunOut(n, weather, callers, later, ready, now, j - 1);
      PassIsUnbroken(n, weather, callers, later, j - 1);
    }
  }

  /** The pass starts and ends at rest, also as its step machine sees it. */
  lemma PassRests(n: Name, weather: nat -> Tick<Key>, callers: seq<Name>, later: seq<Name>)
    requires IsPass(n, weather, callers, later)
    ensures var calls := |later| - |callers|;
            && later == CallsOn(callers, n, calls) && 0 < calls
            && Along(n, weather, callers, 0) == ShareState(n, Timeline(weather, callers))
            && Along(n, weather, callers, 0).process.Resting? && Along(n, weather, callers, calls).process.Resting?
  {
    hide Outcome, PassesBegun, Sound, SeenStep, View;
    PassHasCalls(n, weather, callers, later);
    CallsOnIs(callers, n, later);
    AlongMatches(n, weather, callers, 0);
    AlongMatches(n, weather, callers, |later| - |callers|);
  }

  lemma RestingRunsOut(n: Name, s: Sys, ready: bool, now: int)
    requires Sound(n, s) && s.process.Resting?
    ensures RunOut(n, s, ready, now) == s
  {
  }

  /** When nothing interferes, the pass takes the resource where the calm pass does. */
  lemma CalmPassHappens(n: Name, weather: nat -> Tick<Key>, callers: seq<Name>, later: seq<Name>, ready: bool, now: int)
    requires IsPass(n, weather, callers, later)
    requires CalmWeather(n, weather, callers, |later| - |callers|, ready, now)
    ensures var s := ShareState(n, Timeline(weather, callers));
            && Sound(n, s) && s.process.Resting?
            && Matches(Outcome(weather, later), n, CalmPass(n, s, ready, now))
  {
    hide *;
    var calls := |later| - |callers|;
    PassRests(n, weather, callers, later);
    AlongMatches(n, weather, callers, 0);
    AlongMatches(n, weather, callers, calls);
    CalmCallsRunOut(n, weather, callers, later, ready, now, calls);
    RestingRunsOut(n, Along(n, weather, callers, calls), ready, now);
  }
}
