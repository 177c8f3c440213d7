/** A finished restore leaves nothing behind, and nothing comes back until a storage claim is created. */
module Cleanup {
  import opened Objects
  import opened Conditions
  import opened Names
  import opened Server
  import opened Process
  import opened Machine
  import opened Soundness
  import opened Moves

  predicate Clean(s: Sys) {
    var w, p := WorldOf(s), s.process;
    && TheRpc in w && w[TheRpc].RpcObject? && Restored(w[TheRpc].rpc.conditions)
    && RestoreJob !in w && Scratch !in w
    && (p.Running? ==> Current(w, p.rpc) && !Resetting(p))
  }

  predicate JobGone(s: Sys) {
    At(s.process, DeleteScratch) ==> RestoreJob !in WorldOf(s)
  }

  lemma EnvKeepsJobGone(s: Sys, a: Action<Slot>)
    requires JobGone(s)
    ensures JobGone(EnvStep(s, a))
  {
  }

  lemma RunsDeleteJobFirst(n: Name, ticks: seq<Tick<Slot>>, t: Tick<Slot>)
    ensures Sound(n, Before(n, INIT, ticks, t)) && JobGone(Before(n, INIT, ticks, t))
    ensures Moved(n, Before(n, INIT, ticks, t), t.reply, t.now, Step(n, Exec(n, INIT, ticks), t))
  {
    assert Sound(n, INIT);
    hide Step, Exec, Before, Sound;
    forall s, a | JobGone(s) ensures JobGone(EnvStep(s, a)) { EnvKeepsJobGone(s, a); }
    AllRunsAreFree(n, INIT, ticks + [t]);
    SoundInvariant(n, INIT, ticks, t, JobGone, FREE);
  }

  /** In every run, the deletions of the restore step that go through leave neither Job nor scratch claim. */
  lemma RestoreStepCleansUp(n: Name, ticks: seq<Tick<Slot>>, t: Tick<Slot>)
    requires var s := Before(n, INIT, ticks, t);
             At(s.process, DeleteScratch) && t.reply.Answered? && Current(WorldOf(s), s.process.rpc)
    ensures Clean(Step(n, Exec(n, INIT, ticks), t))
  {
    RunsDeleteJobFirst(n, ticks, t);
    var s := Before(n, INIT, ticks, t);
    AskFits(n, s, t.reply, t.now);
  }

  /** The custom resource stays. */
  const KEPT := Rules((s: Sys, a: Action<Slot>) => a != Remove(TheRpc), (s: Sys, reply: Reply) => true)

  predicate CleanSince(claims: nat, s: Sys) {
    s.history.claims > claims || (s.history.claims == claims && Clean(s))
  }

  lemma EnvKeepsClean(n: Name, s: Sys, a: Action<Slot>, claims: nat)
    requires Sound(n, s) && CleanSince(claims, s) && KEPT.act(s, a)
    ensures CleanSince(claims, EnvStep(s, a))
  {
  }

  lemma CallKeepsClean(n: Name, s: Sys, reply: Reply, now: int, next: Sys, claims: nat)
    requires CleanSince(claims, s) && Moved(n, s, reply, now, next)
    ensures CleanSince(claims, next)
  {
    if s.process.Running? && s.process.at.Storing? {
      WriteShapes(s.process.rpc.conditions, s.process.at.write, now);
    }
  }

  /** From a clean state on, no run brings back the Job or the scratch claim before it has created a storage claim. */
  lemma CleanupIsStable(n: Name, from: Sys, ticks: seq<Tick<Slot>>, t: Tick<Slot>)
    requires Sound(n, from) && Clean(from)
    requires Obeys(n, from, ticks + [t], KEPT)
    ensures var later := Before(n, from, ticks, t);
            later.history.claims == from.history.claims ==> Clean(later)
  {
    var claims := from.history.claims;
    forall s, a | Sound(n, s) && CleanSince(claims, s) && KEPT.act(s, a) ensures CleanSince(claims, EnvStep(s, a)) {
      EnvKeepsClean(n, s, a, claims);
    }
    forall s, reply, now, next | CleanSince(claims, s) && Moved(n, s, reply, now, next)
      ensures CleanSince(claims, next)
    {
      CallKeepsClean(n, s, reply, now, next, claims);
    }
    SoundInvariant(n, from, ticks, t, s => CleanSince(claims, s), KEPT);
  }
}
