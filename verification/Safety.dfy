/** The node never starts on data that was not restored. */
module Safety {
  import opened Objects
  import opened Conditions
  import opened Names
  import opened Server
  import opened Process
  import opened Machine
  import opened Soundness
  import opened Moves

  /** A restore Job made for the current claim succeeded, or one not made for it was there when it was created. */
  predicate RestoredByJob(h: History) {
    h.claims in h.restored || StaleJob(h.claims) in h.incidents
  }

  /** The current claim holds restored data, or data the user asked not to restore, or one of the two incidents that
      defeat the protocol happened to it. */
  predicate Backed(h: History) {
    RestoredByJob(h) || h.claims in h.skipped || LostReset(h.claims) in h.incidents
  }

  /** A Job is made for a claim that has been created, or for the next one. */
  predicate TargetGuarded(h: History) {
    h.target <= h.claims + 1
  }

  /** A success that has been or can be seen is one of the current claim. */
  predicate SuccessGuarded(w: World, p: Process, h: History) {
    Storage in w ==>
      && (HasSucceeded(w) ==> RestoredByJob(h))
      && (RestoreJob in w ==> h.target == h.claims || StaleJob(h.claims) in h.incidents)
      && (p.Running? && p.at.Storing? && p.at.write.FinishRestore? ==> RestoredByJob(h))
  }

  /** So is a true status. */
  predicate StatusGuarded(w: World, p: Process, h: History) {
    Storage in w ==>
      && (!Resetting(p) && TheRpc in w && w[TheRpc].RpcObject? && Restored(w[TheRpc].rpc.conditions) ==> Backed(h))
      && (!Resetting(p) && p.Running? && Restored(p.rpc.conditions) ==> Backed(h))
  }

  predicate SafeState(s: Sys) {
    && TargetGuarded(s.history)
    && SuccessGuarded(WorldOf(s), s.process, s.history) && StatusGuarded(WorldOf(s), s.process, s.history)
  }

  lemma EnvKeepsSafe(n: Name, s: Sys, a: Action<Slot>)
    requires Sound(n, s) && SafeState(s)
    ensures SafeState(EnvStep(s, a))
  {
  }

  /** The status writes that leave, or keep, the restore condition true. */
  predicate Restores(p: Process)
    requires p.Running? && p.at.Storing?
  {
    var w := p.at.write;
    w.SkipRestore? || w.FinishRestore? || ((w.MarkCreating? || w.MarkCatchingUp?) && Restored(p.rpc.conditions))
  }

  lemma WriteRestores(n: Name, p: Process, now: int)
    requires Local(n, p)
    ensures p.Running? && p.at.Storing? ==> (Restored(Write(p.rpc.conditions, p.at.write, now)) ==> Restores(p))
  {
    if p.Running? && p.at.Storing? {
      WriteShapes(p.rpc.conditions, p.at.write, now);
    }
  }

  /** A call keeps the history of a claim that stays, but for the Job made for it. */
  lemma HistoryGrows(n: Name, w: World, p: Process, h: History, reply: Reply, after: World)
    requires Storage in w && Mounting(n, after)
    ensures var next := RecordCall(n, w, p, h, reply, after);
            next.claims == h.claims && next.restored == h.restored
            && h.skipped <= next.skipped && h.incidents <= next.incidents
            && (next.target == h.target || (next.target == h.claims && RestoreJob !in w))
            && (RestoreJob in after && RestoreJob !in w && p.Running? && p.at.CreateJob? ==> next.target == h.claims)
  {
  }

  lemma CallKeepsSuccessGuarded(n: Name, s: Sys, reply: Reply, now: int, next: Sys)
    requires SafeState(s) && Moved(n, s, reply, now, next)
    ensures TargetGuarded(next.history) && SuccessGuarded(WorldOf(next), next.process, next.history)
  {
    FinishNeedsSuccess(n, s, reply, now, next);
    hide Sound;
    TargetStaysGuarded(n, WorldOf(s), s.process, s.history, reply, WorldOf(next));
    if Storage in WorldOf(s) {
      HistoryGrows(n, WorldOf(s), s.process, s.history, reply, WorldOf(next));
    } else if Storage in WorldOf(next) {
      NewClaimIsGuarded(n, WorldOf(s), s.process, s.history, reply, WorldOf(next));
    }
    hide RecordCall, HasSucceeded;
  }

  lemma FinishNeedsSuccess(n: Name, s: Sys, reply: Reply, now: int, next: Sys)
    requires Moved(n, s, reply, now, next)
    ensures var q := next.process;
            q.Running? && q.at.Storing? && q.at.write.FinishRestore? ==>
              HasSucceeded(WorldOf(s)) && At(s.process, GetJob)
  {
    hide Mounting, Agree, RecordCall;
  }

  lemma TargetStaysGuarded(n: Name, w: World, p: Process, h: History, reply: Reply, after: World)
    requires TargetGuarded(h)
    ensures TargetGuarded(RecordCall(n, w, p, h, reply, after))
  {
  }

  lemma NewClaimIsGuarded(n: Name, w: World, p: Process, h: History, reply: Reply, after: World)
    requires TargetGuarded(h) && Storage !in w && Storage in after && At(p, CreateStorage) && !reply.Rejected?
    ensures var next := RecordCall(n, w, p, h, reply, after);
            && (RestoreJob in w ==> next.target == next.claims || StaleJob(next.claims) in next.incidents)
            && (HasSucceeded(w) ==> StaleJob(next.claims) in next.incidents)
  {
  }

  lemma CallKeepsStatusGuarded(n: Name, s: Sys, reply: Reply, now: int, next: Sys)
    requires SafeState(s) && Moved(n, s, reply, now, next)
    ensures StatusGuarded(WorldOf(next), next.process, next.history)
  {
    WriteRestores(n, s.process, now);
    if Storage in WorldOf(s) {
      HistoryGrows(n, WorldOf(s), s.process, s.history, reply, WorldOf(next));
    }
  }

  lemma CallKeepsSafe(n: Name, s: Sys, reply: Reply, now: int, next: Sys)
    requires SafeState(s) && Moved(n, s, reply, now, next)
    ensures SafeState(next)
  {
    CallKeepsSuccessGuarded(n, s, reply, now, next);
    CallKeepsStatusGuarded(n, s, reply, now, next);
  }

  /** The call is about to create the node's pod, and does. */
  predicate CreatesPod(s: Sys, t: Tick<Slot>) {
    At(s.process, Upsert(RpcPod, Filing)) && RpcPod !in WorldOf(s) && !t.reply.Rejected?
  }

  lemma RunsAreSafe(n: Name, ticks: seq<Tick<Slot>>, t: Tick<Slot>)
    ensures Sound(n, Before(n, INIT, ticks, t)) && SafeState(Before(n, INIT, ticks, t))
  {
    forall s, a | Sound(n, s) && SafeState(s) ensures SafeState(EnvStep(s, a)) { EnvKeepsSafe(n, s, a); }
    forall s, reply, now, next | SafeState(s) && Moved(n, s, reply, now, next) ensures SafeState(next) {
      CallKeepsSafe(n, s, reply, now, next);
    }
    AllRunsAreFree(n, INIT, ticks + [t]);
    SoundInvariant(n, INIT, ticks, t, SafeState, FREE);
  }

  /** In every run, whatever fails and whatever the environment does: a pod is only ever created when the storage claim
      is absent, or holds data a restore Job succeeded on, or data for which the restore was skipped, or is a claim
      that was created under a true status whose reset was lost, or beside a Job that was not made for it. And the
      storage claim is the one that the new pod works on. */
  lemma PodOnlyOnRestoredData(n: Name, ticks: seq<Tick<Slot>>, t: Tick<Slot>)
    requires CreatesPod(Before(n, INIT, ticks, t), t)
    ensures var s := Before(n, INIT, ticks, t);
            var claim := s.history.claims;
            || Storage !in WorldOf(s)
            || claim in s.history.restored
            || claim in s.history.skipped
            || LostReset(claim) in s.history.incidents
            || StaleJob(claim) in s.history.incidents
    ensures var w := WorldOf(Step(n, Exec(n, INIT, ticks), t));
            RpcPod in w && w[RpcPod].PodObject? && ClaimKey(n, w[RpcPod].pod.claim) == KeyOf(n, Storage)
  {
    RunsAreSafe(n, ticks, t);
    RunsAreSound(n, ticks, t);
    CreatedPodIsThere(n, Before(n, INIT, ticks, t), t);
  }

  lemma CreatedPodIsThere(n: Name, s: Sys, t: Tick<Slot>)
    requires CreatesPod(s, t)
    ensures RpcPod in WorldOf(CallStep(n, s, t.reply, t.now))
  {
  }

  // ---- What the history means ----

  predicate Numbered(s: Sys) {
    && (forall claim :: claim in s.history.restored ==> claim <= s.history.claims)
    && (forall claim :: claim in s.history.skipped ==> claim <= s.history.claims)
    && (Resetting(s.process) ==> s.history.claims !in s.history.skipped)
  }

  lemma EnvKeepsNumbered(s: Sys, a: Action<Slot>)
    requires Numbered(s)
    ensures Numbered(EnvStep(s, a))
  {
  }

  /** One call: a storage claim that is created gets a new number. */
  predicate NewClaimsAreNew(s: Sys, next: Sys) {
    if Storage !in WorldOf(s) && Storage in WorldOf(next)
    then next.history.claims == s.history.claims + 1
         && next.history.claims !in next.history.restored && next.history.claims !in next.history.skipped
    else next.history.claims == s.history.claims
  }

  lemma CallKeepsNumbered(n: Name, s: Sys, reply: Reply, now: int, next: Sys)
    requires Numbered(s) && Moved(n, s, reply, now, next)
    ensures Numbered(next) && NewClaimsAreNew(s, next)
  {
  }

  /** Every storage claim has a number of its own, and starts out neither restored nor skipped. */
  lemma NewClaimsAreUnrestored(n: Name, ticks: seq<Tick<Slot>>, t: Tick<Slot>)
    ensures Numbered(Before(n, INIT, ticks, t))
    ensures NewClaimsAreNew(Before(n, INIT, ticks, t), Step(n, Exec(n, INIT, ticks), t))
  {
    forall s, a | Numbered(s) ensures Numbered(EnvStep(s, a)) { EnvKeepsNumbered(s, a); }
    forall s, reply, now, next | Numbered(s) && Moved(n, s, reply, now, next) ensures Numbered(next) {
      CallKeepsNumbered(n, s, reply, now, next);
    }
    AllRunsAreFree(n, INIT, ticks + [t]);
    SoundInvariant(n, INIT, ticks, t, Numbered, FREE);
    CallKeepsNumbered(n, Before(n, INIT, ticks, t), t.reply, t.now, Step(n, Exec(n, INIT, ticks), t));
  }

  // ---- The two assumptions under which only restored or skipped data is ever served ----

  /** A claim is not deleted beside a Job, and a Job can only succeed while there is a claim. */
  predicate ClaimsKept(s: Sys, a: Action<Slot>) {
    && (a == Remove(Storage) ==> RestoreJob !in WorldOf(s))
    && (a == JobSucceeds(RestoreJob) ==> Storage in WorldOf(s))
  }

  /** Creating a claim under a true status and resetting that status go together. */
  predicate ResetsKept(s: Sys, reply: Reply) {
    !LosesReset(WorldOf(s), s.process, s.history, reply)
  }

  const PAIRED := Rules((s, a) => ClaimsKept(s, a), (s, reply) => ResetsKept(s, reply))

  predicate PairedState(s: Sys) {
    && SafeState(s)
    && (RestoreJob in WorldOf(s) && Storage !in WorldOf(s) ==>
          !HasSucceeded(WorldOf(s)) && s.history.target == s.history.claims + 1)
    && (forall i :: i in s.history.incidents ==> !i.LostReset? && !i.StaleJob?)
  }

  lemma EnvKeepsPaired(n: Name, s: Sys, a: Action<Slot>)
    requires Sound(n, s) && PairedState(s) && PAIRED.act(s, a)
    ensures PairedState(EnvStep(s, a))
  {
    EnvKeepsSafe(n, s, a);
  }

  lemma CallKeepsPaired(n: Name, s: Sys, reply: Reply, now: int, next: Sys)
    requires PairedState(s) && PAIRED.answer(s, reply) && Moved(n, s, reply, now, next)
    ensures PairedState(next)
  {
    CallKeepsSafe(n, s, reply, now, next);
    assert !MeetsStaleJob(WorldOf(s), s.process, s.history, reply);
    assert next.history.incidents <= s.history.incidents + {SkippedOverJob, ResetUnderPod};
  }

  lemma RunsArePaired(n: Name, ticks: seq<Tick<Slot>>, t: Tick<Slot>)
    requires Obeys(n, INIT, ticks + [t], PAIRED)
    ensures Sound(n, Before(n, INIT, ticks, t)) && PairedState(Before(n, INIT, ticks, t))
  {
    forall s, a | Sound(n, s) && PairedState(s) && PAIRED.act(s, a) ensures PairedState(EnvStep(s, a)) {
      EnvKeepsPaired(n, s, a);
    }
    forall s, reply, now, next | PairedState(s) && PAIRED.answer(s, reply) && Moved(n, s, reply, now, next)
      ensures PairedState(next)
    {
      CallKeepsPaired(n, s, reply, now, next);
    }
    SoundInvariant(n, INIT, ticks, t, PairedState, PAIRED);
  }

  /** The restored-data guarantee itself. */
  lemma PairedRunsServeRestoredData(n: Name, ticks: seq<Tick<Slot>>, t: Tick<Slot>)
    requires Obeys(n, INIT, ticks + [t], PAIRED)
    requires CreatesPod(Before(n, INIT, ticks, t), t)
    ensures var s := Before(n, INIT, ticks, t);
            Storage !in WorldOf(s) || s.history.claims in s.history.restored || s.history.claims in s.history.skipped
  {
    RunsArePaired(n, ticks, t);
  }

  // ---- A restore that never succeeds ----

  /** The restore stays enabled and no restore Job ever reports success; anything else may happen. */
  const HOPELESS := Rules(
    (s: Sys, a: Action<Slot>) =>
      && !a.JobSucceeds?
      && (a.EditSpec? || a.CreateRpc? ==> a.spec.enable != Some(false)),
    (s: Sys, reply: Reply) => true)

  predicate Hopeless(w: World, p: Process) {
    && RpcPod !in w
    && !HasSucceeded(w)
    && (TheRpc in w ==> w[TheRpc].RpcObject? && w[TheRpc].rpc.spec.enable != Some(false))
    && (TheRpc in w ==> !Restored(w[TheRpc].rpc.conditions))
    && (p.Running? ==> p.rpc.spec.enable != Some(false) && !Restored(p.rpc.conditions))
    && (p.Running? && p.at.Storing? ==> !p.at.write.FinishRestore?)
  }

  predicate HopelessState(s: Sys) {
    Hopeless(WorldOf(s), s.process)
  }

  lemma EnvKeepsHopeless(n: Name, s: Sys, a: Action<Slot>)
    requires Sound(n, s) && HopelessState(s) && HOPELESS.act(s, a)
    ensures HopelessState(EnvStep(s, a))
  {
  }

  lemma CallKeepsHopeless(n: Name, s: Sys, reply: Reply, now: int, next: Sys)
    requires HopelessState(s) && Moved(n, s, reply, now, next)
    ensures HopelessState(next)
  {
    WriteRestores(n, s.process, now);
    FinishNeedsSuccess(n, s, reply, now, next);
    HopelessGoesOn(n, s, reply, now, next);
    hide Mounting, Agree, Write, ProcessMoves, Passes;
  }

  lemma HopelessGoesOn(n: Name, s: Sys, reply: Reply, now: int, next: Sys)
    requires HopelessState(s) && Moved(n, s, reply, now, next)
    ensures var q := next.process; q.Running? ==> q.rpc.spec.enable != Some(false) && !Restored(q.rpc.conditions)
  {
    WriteRestores(n, s.process, now);
    hide Mounting, Agree, Write, Passes;
  }

  /** While the restore is wanted and has never succeeded there is no pod and no true restore status, whatever fails, is
      retried, edited or deleted. */
  lemma NoPodWithoutSuccess(n: Name, ticks: seq<Tick<Slot>>, t: Tick<Slot>)
    requires Obeys(n, INIT, ticks + [t], HOPELESS)
    ensures var w := WorldOf(Before(n, INIT, ticks, t));
            RpcPod !in w && (TheRpc in w ==> w[TheRpc].RpcObject? && !Restored(w[TheRpc].rpc.conditions))
    ensures !CreatesPod(Before(n, INIT, ticks, t), t)
  {
    forall s, a | Sound(n, s) && HopelessState(s) && HOPELESS.act(s, a) ensures HopelessState(EnvStep(s, a)) {
      EnvKeepsHopeless(n, s, a);
    }
    forall s, reply, now, next | HopelessState(s) && Moved(n, s, reply, now, next) ensures HopelessState(next) {
      CallKeepsHopeless(n, s, reply, now, next);
    }
    SoundInvariant(n, INIT, ticks, t, HopelessState, HOPELESS);
  }
}
