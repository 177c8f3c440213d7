/** The decisions of a pass, in every run: what the next call is, or how the pass ends, in terms of the fields that the
    last answer and the pass's copy of the resource had. */
module Decisions {
  import opened Objects
  import opened Conditions
  import opened Names
  import opened Server
  import opened Drift
  import opened Monitoring
  import opened Workload
  import opened Process
  import opened Machine
  import opened Soundness
  import opened Moves

  /** The request stores conditions in which the given one reads like this. */
  predicate Records(r: Request<Slot>, kind: ConditionType, status: ConditionStatus, reason: Reason) {
    && r.PutStatus? && r.key == TheRpc
    && var found := Find(r.conditions, kind);
       found.Some? && found.value.status == status && found.value.reason == reason
  }

  lemma ShapedFinds(conditions: seq<Condition>)
    requires Shaped(conditions)
    ensures Find(conditions, Restore) == Some(conditions[0]) && Find(conditions, Available) == Some(conditions[1])
  {
  }

  lemma StoringRecords(n: Name, p: Process, now: int)
    requires Local(n, p) && p.Running? && p.at.Storing? && !p.at.write.Initialize?
    ensures var c, r := Transitions(p.at.write)[0], Ask(n, p, now); Records(r, c.kind, c.status, c.reason)
  {
    WriteShapes(p.rpc.conditions, p.at.write, now);
    ShapedFinds(Write(p.rpc.conditions, p.at.write, now));
  }

  // ---- What has happened is recorded ----

  /** The call creates the object of the given slot, and the pass knows it. */
  predicate Creates(n: Name, s: Sys, t: Tick<Slot>, slot: Slot) {
    var r := Ask(n, s.process, t.now);
    r.Create? && r.key == slot && slot !in WorldOf(s) && t.reply.Answered?
  }

  /** The call reads the resource that a pass starts with. */
  predicate Starts(s: Sys, reply: Reply) {
    s.process.Resting? && reply.Answered? && TheRpc in WorldOf(s) && WorldOf(s)[TheRpc].RpcObject?
  }

  predicate RecordsEvents(n: Name, s: Sys, t: Tick<Slot>, q: Process, now: int) {
    var r := Ask(n, q, now);
    && (Creates(n, s, t, Storage) ==> Records(r, Restore, ConditionStatus.False, Reason.Pending))
    && (Creates(n, s, t, RestoreJob) ==> Records(r, Restore, ConditionStatus.False, ArchiveJobProgressing))
    && (Creates(n, s, t, RpcPod) ==> Records(r, Available, ConditionStatus.Unknown, Creating))
    && (Starts(s, t.reply) ==>
          if WorldOf(s)[TheRpc].rpc.conditions == []
          then Records(r, Restore, ConditionStatus.False, Reason.Pending)
               && Records(r, Available, ConditionStatus.Unknown, Reason.Pending)
          else r == Create(Storage, ClaimObject(Claim(ClaimPending))))
  }

  /** What a call of each of these kinds leads to. */
  lemma EventsLeadToWrites(n: Name, s: Sys, t: Tick<Slot>)
    requires Sound(n, s)
    ensures var q := CallStep(n, s, t.reply, t.now).process;
            && (Creates(n, s, t, Storage) ==> At(q, Storing(ResetRestore)))
            && (Creates(n, s, t, RestoreJob) ==> At(q, Storing(StartRestore)))
            && (Creates(n, s, t, RpcPod) ==> q.Running? && q.at.Storing? && q.at.write.MarkCreating?)
            && (Starts(s, t.reply) ==>
                  At(q, if WorldOf(s)[TheRpc].rpc.conditions == [] then Storing(Initialize) else CreateStorage))
  {
    hide Write, Repair, Mounting, Agree, WrittenMonitor, RecordCall;
  }

  lemma InitializingRecords(n: Name, p: Process, now: int)
    requires Local(n, p) && At(p, Storing(Initialize))
    ensures var r := Ask(n, p, now);
            && Records(r, Restore, ConditionStatus.False, Reason.Pending)
            && Records(r, Available, ConditionStatus.Unknown, Reason.Pending)
  {
    WriteShapes([], Initialize, now);
    ShapedFinds(Write([], Initialize, now));
  }

  lemma CallRecordsEvents(n: Name, s: Sys, t: Tick<Slot>, later: int)
    requires Sound(n, s)
    ensures RecordsEvents(n, s, t, CallStep(n, s, t.reply, t.now).process, later)
  {
    var q := CallStep(n, s, t.reply, t.now).process;
    CallKeepsSound(n, s, t.reply, t.now);
    EventsLeadToWrites(n, s, t);
    hide CallStep, Stored, Mounting, Agree, Write, Creates;
    if At(q, Storing(Initialize)) {
      InitializingRecords(n, q, later);
    } else if q.Running? && q.at.Storing? {
      StoringRecords(n, q, later);
    }
    hide Local, Records;
  }

  /** In every run, a pass that has just created the storage claim, the Job or the pod next records that the restore is
      pending or in progress, or that the node is being created; and a pass that starts without conditions first records
      that both are pending. */
  lemma EventsAreRecorded(n: Name, ticks: seq<Tick<Slot>>, t: Tick<Slot>, later: int)
    ensures RecordsEvents(n, Before(n, INIT, ticks, t), t, Step(n, Exec(n, INIT, ticks), t).process, later)
  {
    RunsAreSound(n, ticks, t);
    CallRecordsEvents(n, Before(n, INIT, ticks, t), t, later);
  }

  // ---- Where a pass can come from ----

  /** Points that are only reached from one program point each. */
  predicate Elsewhere(q: Process) {
    q.Running? ==>
      !q.at.GetStorage? && !q.at.CreateJob? && !q.at.DeletePod? && !q.at.ProbePod? && q.at != Storing(MarkCatchingUp)
  }

  lemma StoringGoesElsewhere(n: Name, rpc: Rpc, w: StatusWrite)
    requires w.MarkCreating? ==> w.made.status == FRESH_STATUS
    ensures Elsewhere(AfterStore(rpc, w))
  {
  }

  /** An upsert leads to the pod's deletion or probe, and to nothing else that is asked about here. */
  lemma UpsertGoesElsewhere(n: Name, p: Process, answer: Response, now: int)
    requires Local(n, p) && p.Running? && p.at.Upsert?
    ensures var q := Resume(n, p, answer, now);
            q.Running? ==> !q.at.GetStorage? && !q.at.CreateJob? && q.at != Storing(MarkCatchingUp)
    ensures p.at.stage == Filing ==> Elsewhere(Resume(n, p, answer, now))
  {
    hide Repair;
  }

  lemma MonitorUpsertGoesElsewhere(n: Name, p: Process, answer: Response, now: int)
    requires Local(n, p) && p.Running? && p.at.Upsert? && p.at.slot == Monitor && AnswerFits(Ask(n, p, now), answer)
    ensures Elsewhere(Resume(n, p, answer, now))
  {
    hide Inspect, Refresh, Repair, Reconcilers, WrittenMonitor;
    if p.at.stage == Fetching && answer.Accepted? {
      var repaired := Repair(answer.payload, Reconcilers(Monitor, n, p.rpc.spec));
      if repaired.Settled? {
        RepairFits(Monitor, n, p.rpc.spec, answer.payload);
      }
      RepairsGoElsewhere(p.rpc, repaired);
    }
  }

  lemma RepairsGoElsewhere(rpc: Rpc, repaired: Repaired)
    requires repaired.Settled? ==> repaired.payload.MonitorObject?
    ensures Elsewhere(UpsertRepairs(rpc, Monitor, repaired))
  {
  }

  /** Every other call of a pass. */
  lemma PlainGoesElsewhere(n: Name, p: Process, answer: Response, now: int)
    requires p.Running? ==> !p.at.Storing? && !p.at.Upsert?
    ensures var q := Resume(n, p, answer, now);
            && (At(q, GetStorage) <==> At(p, GetScratch) && answer.Accepted? && ReadyClaim(answer.payload))
            && (At(q, CreateJob) <==> At(p, GetStorage) && answer.Accepted? && ReadyClaim(answer.payload))
            && (At(q, Storing(MarkCatchingUp)) <==> At(p, ProbePod) && answer.Accepted?)
            && (q.Running? ==> !q.at.DeletePod? && !q.at.ProbePod?)
  {
  }

  lemma ResumeGoesOn(n: Name, p: Process, answer: Response, now: int)
    requires Local(n, p)
    ensures var q := Resume(n, p, answer, now);
            && (At(q, GetStorage) <==> At(p, GetScratch) && answer.Accepted? && ReadyClaim(answer.payload))
            && (At(q, CreateJob) <==> At(p, GetStorage) && answer.Accepted? && ReadyClaim(answer.payload))
            && (At(q, Storing(MarkCatchingUp)) <==> At(p, ProbePod) && answer.Accepted?)
            && (q.Running? && (q.at.DeletePod? || q.at.ProbePod?) ==>
                  p.Running? && p.at.Upsert? && p.at.stage != Filing)
  {
    hide Resume, ReadyClaim;
    if p.Running? && p.at.Storing? {
      StoringResumes(n, p, answer, now);
    } else if p.Running? && p.at.Upsert? {
      UpsertGoesElsewhere(n, p, answer, now);
    } else {
      PlainGoesElsewhere(n, p, answer, now);
    }
  }

  lemma StoringResumes(n: Name, p: Process, answer: Response, now: int)
    requires Local(n, p) && p.Running? && p.at.Storing?
    ensures Elsewhere(Resume(n, p, answer, now))
  {
    hide AfterStore, Write;
    StoringGoesElsewhere(n, p.rpc.(conditions := Write(p.rpc.conditions, p.at.write, now)), p.at.write);
  }

  /** What a read is answered with. */
  lemma ReadsAreAnswered(n: Name, s: Sys, reply: Reply, now: int, slot: Slot)
    requires Sound(n, s) && Ask(n, s.process, now) == Get(slot)
    ensures var answer := Serve(s.cluster, Get(slot), reply).1;
            && (answer.Accepted? <==> reply.Answered? && slot in WorldOf(s))
            && (answer.Accepted? ==> answer.payload == WorldOf(s)[slot])
  {
  }

  lemma AsksAre(n: Name, p: Process, now: int)
    requires Local(n, p)
    ensures var r := Ask(n, p, now);
            && (r == Get(Storage) <==> At(p, GetStorage)) && (r == Get(Scratch) <==> At(p, GetScratch))
            && (r == Get(RestoreJob) <==> At(p, GetJob)) && (r.Create? && r.key == RestoreJob <==> At(p, CreateJob))
            && (r == Delete(RpcPod) <==> At(p, DeletePod)) && (r == Probe(RpcPod) <==> At(p, ProbePod))
  {
  }

  // ---- The restore step ----

  /** The call with which the pass is done with its storage claim: it was there, or its reset has been stored. */
  predicate ClaimIsSettled(s: Sys, reply: Reply) {
    && reply.Answered?
    && (|| (At(s.process, CreateStorage) && Storage in WorldOf(s))
        || (Resetting(s.process) && Current(WorldOf(s), s.process.rpc)))
  }

  predicate RestoreBegins(n: Name, q: Process, now: int) {
    q.Running? &&
    var r := Ask(n, q, now);
    if IsStatusConditionTrue(q.rpc.conditions, Restore) then r == Delete(RestoreJob)
    else if q.rpc.spec.enable == Some(false) then Records(r, Restore, ConditionStatus.True, ArchiveRestoreSkipped)
    else r == Create(Scratch, ClaimObject(Claim(ClaimPending)))
  }

  lemma CallBeginsRestore(n: Name, s: Sys, reply: Reply, now: int, later: int)
    requires Sound(n, s) && ClaimIsSettled(s, reply)
    ensures var q := CallStep(n, s, reply, now).process;
            RestoreBegins(n, q, later) && q.rpc.spec == s.process.rpc.spec
  {
    var q := CallStep(n, s, reply, now).process;
    CallKeepsSound(n, s, reply, now);
    ClaimSettles(n, s, reply, now);
    hide CallStep, Stored, Mounting, Agree, Write;
    if q.Running? && q.at == Storing(SkipRestore) {
      StoringRecords(n, q, later);
    }
  }

  lemma ClaimSettles(n: Name, s: Sys, reply: Reply, now: int)
    requires Sound(n, s) && ClaimIsSettled(s, reply)
    ensures var q := CallStep(n, s, reply, now).process;
            q.Running? && q == EnterRestore(q.rpc) && q.rpc.spec == s.process.rpc.spec
  {
    hide Write, Mounting, Agree;
  }

  /** In every run: a finished restore is cleaned up after, a restore that the resource switches off is recorded as
      skipped, and any other is begun, whether the resource asks for it or says nothing. */
  lemma SwitchDecides(n: Name, ticks: seq<Tick<Slot>>, t: Tick<Slot>, later: int)
    requires ClaimIsSettled(Before(n, INIT, ticks, t), t.reply)
    ensures var q := Step(n, Exec(n, INIT, ticks), t).process;
            RestoreBegins(n, q, later) && q.rpc.spec == Before(n, INIT, ticks, t).process.rpc.spec
  {
    RunsAreSound(n, ticks, t);
    CallBeginsRestore(n, Before(n, INIT, ticks, t), t.reply, t.now, later);
  }

  /** The call is answered with the claim, and the claim is bound. */
  predicate ReadsBound(n: Name, s: Sys, t: Tick<Slot>, claim: Slot) {
    && Ask(n, s.process, t.now) == Get(claim) && t.reply.Answered?
    && claim in WorldOf(s) && WorldOf(s)[claim].ClaimObject? && WorldOf(s)[claim].claim.phase == ClaimBound
  }

  lemma CallAwaitsClaims(n: Name, s: Sys, t: Tick<Slot>, later: int)
    requires Sound(n, s)
    ensures var r := Ask(n, CallStep(n, s, t.reply, t.now).process, later);
            && (r == Get(Storage) <==> ReadsBound(n, s, t, Scratch))
            && (r.Create? && r.key == RestoreJob <==> ReadsBound(n, s, t, Storage))
  {
    CallKeepsSound(n, s, t.reply, t.now);
    AsksAre(n, s.process, t.now);
    AsksAre(n, CallStep(n, s, t.reply, t.now).process, later);
    ResumeGoesOn(n, s.process, Serve(s.cluster, Ask(n, s.process, t.now), t.reply).1, t.now);
    if At(s.process, GetScratch) {
      ReadsAreAnswered(n, s, t.reply, t.now, Scratch);
    } else if At(s.process, GetStorage) {
      ReadsAreAnswered(n, s, t.reply, t.now, Storage);
    }
    hide Ask, Resume, Serve, RecordCall;
  }

  /** In every run, the pass looks at the storage claim exactly after it has read a bound scratch claim, and files the
      Job exactly after it has read a bound storage claim. */
  lemma ClaimsAreAwaited(n: Name, ticks: seq<Tick<Slot>>, t: Tick<Slot>, later: int)
    ensures var s, r := Before(n, INIT, ticks, t), Ask(n, Step(n, Exec(n, INIT, ticks), t).process, later);
            && (r == Get(Storage) <==> ReadsBound(n, s, t, Scratch))
            && (r.Create? && r.key == RestoreJob <==> ReadsBound(n, s, t, Storage))
  {
    RunsAreSound(n, ticks, t);
    CallAwaitsClaims(n, Before(n, INIT, ticks, t), t, later);
  }

  predicate JudgesJob(n: Name, job: Job, q: Process, now: int) {
    var r := Ask(n, q, now);
    if job.succeeded > 0 then Records(r, Restore, ConditionStatus.True, ArchiveJobFinished)
    else if job.failed > 0 then Records(r, Restore, ConditionStatus.False, ArchiveJobFailed)
    else q == Resting(Completed(Result(false, 30)))
  }

  lemma CallJudgesJob(n: Name, s: Sys, now: int, later: int)
    requires Sound(n, s) && At(s.process, GetJob) && RestoreJob in WorldOf(s)
    ensures JudgesJob(n, WorldOf(s)[RestoreJob].job, CallStep(n, s, Answered, now).process, later)
  {
    var q := CallStep(n, s, Answered, now).process;
    CallKeepsSound(n, s, Answered, now);
    if q.Running? && q.at.Storing? {
      StoringRecords(n, q, later);
    }
    hide Write;
  }

  /** In every run, a Job that was read is recorded as finished as soon as it has succeeded once, as failed if it has
      only failed, and is looked at again after thirty seconds otherwise. */
  lemma JobDecides(n: Name, ticks: seq<Tick<Slot>>, t: Tick<Slot>, later: int)
    requires var s := Before(n, INIT, ticks, t);
             Ask(n, s.process, t.now) == Get(RestoreJob) && t.reply.Answered? && RestoreJob in WorldOf(s)
    ensures WorldOf(Before(n, INIT, ticks, t))[RestoreJob].JobObject?
    ensures JudgesJob(n, WorldOf(Before(n, INIT, ticks, t))[RestoreJob].job, Step(n, Exec(n, INIT, ticks), t).process,
                      later)
  {
    RunsAreSound(n, ticks, t);
    CallJudgesJob(n, Before(n, INIT, ticks, t), t.now, later);
  }

  // ---- The pod ----

  predicate BeyondRepair(status: PodStatus) {
    || status.reason == "Evicted"
    || exists c :: c in status.containers && c.waiting == Some("CrashLoopBackOff") && c.restartCount > 5
  }

  /** The call has left the pass with a stored pod of the image it asks for. */
  predicate LeavesPod(s: Sys, reply: Reply, after: World) {
    && s.process.Running? && s.process.at.Upsert? && s.process.at.slot == RpcPod && s.process.at.stage != Filing
    && reply.Answered? && RpcPod in after && after[RpcPod].PodObject?
    && AsksForImage(s.process.rpc.spec, after[RpcPod].pod.image)
  }

  predicate JudgesPod(n: Name, s: Sys, reply: Reply, next: Sys, now: int) {
    var r, after := Ask(n, next.process, now), WorldOf(next);
    && (r == Delete(RpcPod) <==> LeavesPod(s, reply, after) && BeyondRepair(after[RpcPod].pod.status))
    && (r == Probe(RpcPod) <==>
          && LeavesPod(s, reply, after) && !BeyondRepair(after[RpcPod].pod.status) && after[RpcPod].pod.status.running)
  }

  lemma FetchLeavesPod(n: Name, s: Sys, reply: Reply, now: int, later: int)
    requires Sound(n, s) && At(s.process, Upsert(RpcPod, Fetching))
    ensures JudgesPod(n, s, reply, CallStep(n, s, reply, now), later)
  {
    PodIsFetched(n, s, reply, now);
    hide CallStep, Sound, AsksForImage;
  }

  lemma PodIsFetched(n: Name, s: Sys, reply: Reply, now: int)
    requires Sound(n, s) && At(s.process, Upsert(RpcPod, Fetching))
    ensures var next, p, w := CallStep(n, s, reply, now), s.process, WorldOf(s);
            && WorldOf(next) == w
            && (if !reply.Answered? || RpcPod !in w then next.process.Resting?
                else if !AsksForImage(p.rpc.spec, w[RpcPod].pod.image) then
                  next.process.Running? && next.process.at.Upsert?
                else next.process == JudgePod(p.rpc, w[RpcPod].pod))
  {
    assert WorldOf(CallStep(n, s, reply, now)) == WorldOf(s);
    if RpcPod in WorldOf(s) {
      RepairOfOne(WorldOf(s)[RpcPod], ImageReconciler(s.process.rpc.spec));
    }
    hide RecordCall, Write, Repair, JudgePod;
  }

  lemma RepairLeavesPod(n: Name, s: Sys, reply: Reply, now: int, later: int)
    requires Sound(n, s)
    requires s.process.Running? && s.process.at.Upsert? && s.process.at.slot == RpcPod && s.process.at.stage.Repairing?
    ensures JudgesPod(n, s, reply, CallStep(n, s, reply, now), later)
  {
    hide RecordCall, Write, Repair, Agree, JobMounts, PodMounts;
  }

  /** No other call leads to the deletion of the pod or to its probe. */
  lemma OthersSparePod(n: Name, s: Sys, reply: Reply, now: int, later: int)
    requires Sound(n, s)
    requires s.process.Running? && s.process.at.Upsert? && s.process.at.slot == RpcPod ==> s.process.at.stage == Filing
    ensures JudgesPod(n, s, reply, CallStep(n, s, reply, now), later)
  {
    var p, answer := s.process, Serve(s.cluster, Ask(n, s.process, now), reply).1;
    CallKeepsSound(n, s, reply, now);
    AskFits(n, s, reply, now);
    AsksAre(n, CallStep(n, s, reply, now).process, later);
    ResumeGoesOn(n, p, answer, now);
    hide Ask, Resume, Serve, RecordCall, AsksForImage, BeyondRepair;
    if p.Running? && p.at.Upsert? && p.at.stage != Filing {
      MonitorUpsertGoesElsewhere(n, p, answer, now);
    }
  }

  /** In every run, the pass deletes its pod exactly after it has been left with one, of the right image, that was
      evicted or has a container in a crash loop with more than five restarts; and it probes the pod exactly after it
      has been left with a running one otherwise. */
  lemma PodDecides(n: Name, ticks: seq<Tick<Slot>>, t: Tick<Slot>, later: int)
    ensures JudgesPod(n, Before(n, INIT, ticks, t), t.reply, Step(n, Exec(n, INIT, ticks), t), later)
  {
    RunsAreSound(n, ticks, t);
    var s := Before(n, INIT, ticks, t);
    if s.process.Running? && s.process.at.Upsert? && s.process.at.slot == RpcPod && s.process.at.stage != Filing {
      if s.process.at.stage == Fetching {
        FetchLeavesPod(n, s, t.reply, t.now, later);
      } else {
        RepairLeavesPod(n, s, t.reply, t.now, later);
      }
    } else {
      OthersSparePod(n, s, t.reply, t.now, later);
    }
  }

  lemma CallProbes(n: Name, s: Sys, reply: Reply, now: int, later: int)
    requires Sound(n, s)
    ensures var q := CallStep(n, s, reply, now).process;
            var ready := Ask(n, s.process, now) == Probe(RpcPod) && RpcPod in WorldOf(s) && reply.Answered?;
            && (q.Running? && q.at == Storing(MarkCatchingUp) <==> ready)
            && (ready ==> Records(Ask(n, q, later), Available, ConditionStatus.Unknown, CatchingUp))
  {
    var q := CallStep(n, s, reply, now).process;
    CallKeepsSound(n, s, reply, now);
    AsksAre(n, s.process, now);
    ResumeGoesOn(n, s.process, Serve(s.cluster, Ask(n, s.process, now), reply).1, now);
    if At(s.process, ProbePod) {
      ProbesAreAnswered(n, s, reply, now);
    }
    hide Ask, Resume, Serve, RecordCall, Write;
    if q.Running? && q.at == Storing(MarkCatchingUp) {
      StoringRecords(n, q, later);
    }
  }

  lemma ProbesAreAnswered(n: Name, s: Sys, reply: Reply, now: int)
    requires At(s.process, ProbePod)
    ensures Serve(s.cluster, Ask(n, s.process, now), reply).1.Accepted? <==> reply.Answered? && RpcPod in WorldOf(s)
  {
  }

  /** In every run, the node is recorded as catching up exactly after a probe that was answered. */
  lemma ProbeDecides(n: Name, ticks: seq<Tick<Slot>>, t: Tick<Slot>, later: int)
    ensures var s, q := Before(n, INIT, ticks, t), Step(n, Exec(n, INIT, ticks), t).process;
            var ready := Ask(n, s.process, t.now) == Probe(RpcPod) && RpcPod in WorldOf(s) && t.reply.Answered?;
            && (q.Running? && q.at == Storing(MarkCatchingUp) <==> ready)
            && (ready ==> Records(Ask(n, q, later), Available, ConditionStatus.Unknown, CatchingUp))
  {
    RunsAreSound(n, ticks, t);
    CallProbes(n, Before(n, INIT, ticks, t), t.reply, t.now, later);
  }

  /** In every run, a pass that has read a pod of another image than it asks for next updates the image and nothing
      else. */
  lemma ImageDecides(n: Name, ticks: seq<Tick<Slot>>, t: Tick<Slot>, later: int)
    requires var s := Before(n, INIT, ticks, t);
             Ask(n, s.process, t.now) == Get(RpcPod) && At(s.process, Upsert(RpcPod, Fetching))
             && t.reply.Answered? && RpcPod in WorldOf(s)
    ensures var s, r := Before(n, INIT, ticks, t), Ask(n, Step(n, Exec(n, INIT, ticks), t).process, later);
            && WorldOf(s)[RpcPod].PodObject?
            && (r.Update? <==> !AsksForImage(s.process.rpc.spec, WorldOf(s)[RpcPod].pod.image))
            && (r.Update? ==>
                  && r.key == RpcPod && r.payload.PodObject?
                  && AsksForImage(s.process.rpc.spec, r.payload.pod.image)
                  && r.payload.pod == WorldOf(s)[RpcPod].pod.(image := r.payload.pod.image))
  {
    RunsAreSound(n, ticks, t);
    CallUpdatesImage(n, Before(n, INIT, ticks, t), t.now, later);
  }

  lemma CallUpdatesImage(n: Name, s: Sys, now: int, later: int)
    requires Sound(n, s) && At(s.process, Upsert(RpcPod, Fetching)) && RpcPod in WorldOf(s)
    ensures WorldOf(s)[RpcPod].PodObject?
    ensures var r, spec := Ask(n, CallStep(n, s, Answered, now).process, later), s.process.rpc.spec;
            var pod := WorldOf(s)[RpcPod].pod;
            && (r.Update? <==> !AsksForImage(spec, pod.image))
            && (r.Update? ==>
                  && r.key == RpcPod && r.payload.PodObject? && AsksForImage(spec, r.payload.pod.image)
                  && r.payload.pod == pod.(image := r.payload.pod.image))
  {
    RepairOfOne(WorldOf(s)[RpcPod], ImageReconciler(s.process.rpc.spec));
    assert WorldOf(CallStep(n, s, Answered, now)) == WorldOf(s);
    hide RecordCall, Write, Repair, Mounting, Agree, Unhealthy;
  }

  // ---- The monitor ----

  predicate JudgesMonitor(n: Name, m: PodMonitor, spec: Spec, q: Process, now: int) {
    if HitsNilPort(m, n, spec) then q == Resting(Errored(Panicked))
    else if LooksRight(m, n, spec) then q == Resting(Completed(Result(false, 0)))
    else
      var r := Ask(n, q, now);
      && r.Update? && r.key == Monitor && r.payload.MonitorObject? && WrittenMonitor(r.payload.monitor, n, spec)
      && (forall k :: k in m.labels ==> k in r.payload.monitor.labels)
  }

  lemma VerdictDecides(n: Name, p: Process, m: PodMonitor, now: int, later: int)
    requires At(p, Upsert(Monitor, Fetching))
    ensures JudgesMonitor(n, m, p.rpc.spec, Resume(n, p, Accepted(MonitorObject(m)), now), later)
  {
    hide Resume, Inspect, Refresh, WrittenMonitor, LooksRight, HitsNilPort;
    var spec := p.rpc.spec;
    VerdictResumes(n, p, m, now);
    UpToDateMeans(m, n, spec);
    PanicsExactly(m, n, spec);
    RefreshWrites(m, n, spec);
    RefreshKeepsKeys(m, n, spec);
  }

  lemma VerdictResumes(n: Name, p: Process, m: PodMonitor, now: int)
    requires At(p, Upsert(Monitor, Fetching))
    ensures Resume(n, p, Accepted(MonitorObject(m)), now) ==
            match Inspect(m, n, p.rpc.spec)
            case Panics => Resting(Errored(Panicked))
            case UpToDate => Resting(Completed(DONE))
            case Drifted => Running(Upsert(Monitor, Repairing(MonitorObject(Refresh(m, n, p.rpc.spec)))), p.rpc)
  {
    hide Inspect, Refresh, Repair;
    RepairOfOne(MonitorObject(m), PodMonitorSpecReconciler(n, p.rpc.spec));
  }

  lemma RefreshKeepsKeys(m: PodMonitor, n: Name, spec: Spec)
    ensures forall k :: k in m.labels ==> k in Refresh(m, n, spec).labels
  {
  }

  /** In every run, a pass that has read its monitor panics on a nil port that the check gets to, is done if the check
      accepts the monitor, and updates it otherwise, keeping every label key that is there. */
  lemma MonitorCheckDecides(n: Name, ticks: seq<Tick<Slot>>, t: Tick<Slot>, later: int)
    requires var s := Before(n, INIT, ticks, t);
             At(s.process, Upsert(Monitor, Fetching)) && t.reply.Answered? && Monitor in WorldOf(s)
    ensures var s := Before(n, INIT, ticks, t);
            && WorldOf(s)[Monitor].MonitorObject?
            && JudgesMonitor(n, WorldOf(s)[Monitor].monitor, s.process.rpc.spec,
                             Step(n, Exec(n, INIT, ticks), t).process, later)
  {
    RunsAreSound(n, ticks, t);
    var s := Before(n, INIT, ticks, t);
    ReadsAreAnswered(n, s, t.reply, t.now, Monitor);
    VerdictDecides(n, s.process, WorldOf(s)[Monitor].monitor, t.now, later);
    hide Resume, JudgesMonitor;
  }

  /** The pass has turned to the monitor, and does with it what its resource asks for. */
  predicate TurnsToMonitor(n: Name, s: Sys, reply: Reply, q: Process, now: int) {
    var r := Ask(n, q, now);
    && (q.Running? && (q.at.FindPod? || q.at.FindOldMonitor?) ==>
          r == if MonitorWanted(q.rpc.spec) then Get(RpcPod) else Get(Monitor))
    && (r == Delete(Monitor) <==> At(s.process, FindOldMonitor) && reply.Answered? && Monitor in WorldOf(s))
    && (r.Create? && r.key == Monitor <==> At(s.process, FindPod) && reply.Answered? && RpcPod in WorldOf(s))
    && (r.Create? && r.key == Monitor ==> r.payload.MonitorObject? && WrittenMonitor(r.payload.monitor, n, q.rpc.spec))
  }

  lemma CallTurnsToMonitor(n: Name, s: Sys, reply: Reply, now: int, later: int)
    requires Sound(n, s)
    ensures TurnsToMonitor(n, s, reply, CallStep(n, s, reply, now).process, later)
  {
    var p, r := s.process, Ask(n, s.process, now);
    CallKeepsSound(n, s, reply, now);
    MonitorAsksAre(n, CallStep(n, s, reply, now).process, later);
    ResumeTurnsToMonitor(n, p, Serve(s.cluster, r, reply).1, now);
    if At(p, FindOldMonitor) {
      ReadsAreAnswered(n, s, reply, now, Monitor);
    } else if At(p, FindPod) {
      ReadsAreAnswered(n, s, reply, now, RpcPod);
    }
    hide Ask, Resume, Serve, RecordCall, WrittenMonitor;
  }

  lemma MonitorAsksAre(n: Name, p: Process, now: int)
    requires Local(n, p)
    ensures var r := Ask(n, p, now);
            && (r == Delete(Monitor) <==> At(p, DeleteOldMonitor))
            && (r.Create? && r.key == Monitor <==> At(p, Upsert(Monitor, Filing)))
            && (r.Create? && r.key == Monitor ==>
                  r.payload.MonitorObject? && WrittenMonitor(r.payload.monitor, n, p.rpc.spec))
            && (p.Running? && (p.at.FindPod? || p.at.FindOldMonitor?) ==>
                  r == if MonitorWanted(p.rpc.spec) then Get(RpcPod) else Get(Monitor))
  {
    if p.Running? {
      WantedMonitorIsWritten(n, p.rpc.spec);
    }
    hide WrittenMonitor, GetWantedPodMonitor;
  }

  lemma ResumeTurnsToMonitor(n: Name, p: Process, answer: Response, now: int)
    requires Local(n, p)
    ensures var q := Resume(n, p, answer, now);
            && (At(q, DeleteOldMonitor) <==> At(p, FindOldMonitor) && answer.Accepted?)
            && (At(q, Upsert(Monitor, Filing)) <==> At(p, FindPod) && answer.Accepted?)
  {
    hide Repair, Write, WrittenMonitor, PodFits;
  }

  /** In every run: a pass that turns to the monitor goes for its pod first if its copy of the resource enables the
      monitor, and for an old monitor otherwise. It files a monitor exactly when it has found the pod, and deletes one
      exactly when it has found it. */
  lemma MonitorDecides(n: Name, ticks: seq<Tick<Slot>>, t: Tick<Slot>, later: int)
    ensures TurnsToMonitor(n, Before(n, INIT, ticks, t), t.reply, Step(n, Exec(n, INIT, ticks), t).process, later)
  {
    RunsAreSound(n, ticks, t);
    CallTurnsToMonitor(n, Before(n, INIT, ticks, t), t.reply, t.now, later);
  }

  // ---- What a pass asks for at all ----

  /** In every run, a pass writes nothing but the objects of its own: it never deletes, creates or changes the resource,
      but for its status, and never deletes the storage claim. */
  lemma RequestsKeepToTheirOwn(n: Name, ticks: seq<Tick<Slot>>, t: Tick<Slot>)
    ensures var s, r := Before(n, INIT, ticks, t), Ask(n, Before(n, INIT, ticks, t).process, t.now);
            match r
            case Get(_) => true
            case Probe(slot) => slot == RpcPod
            case Delete(slot) => slot in {RestoreJob, Scratch, RpcPod, Monitor}
            case Update(slot, _) => slot in {RpcPod, Monitor}
            case Create(slot, o) => slot != TheRpc && KindOf(o) == SlotKind(slot)
            case PutStatus(slot, uid, _) => slot == TheRpc && s.process.Running? && uid == s.process.rpc.uid
  {
    RunsAreSound(n, ticks, t);
    hide Ask, EnvSteps;
    AsksForOwn(n, Before(n, INIT, ticks, t).process, t.now);
  }

  lemma AsksForOwn(n: Name, p: Process, now: int)
    requires Local(n, p)
    ensures match Ask(n, p, now)
            case Get(_) => true
            case Probe(slot) => slot == RpcPod
            case Delete(slot) => slot in {RestoreJob, Scratch, RpcPod, Monitor}
            case Update(slot, _) => slot in {RpcPod, Monitor}
            case Create(slot, o) => slot != TheRpc && KindOf(o) == SlotKind(slot)
            case PutStatus(slot, uid, _) => slot == TheRpc && p.Running? && uid == p.rpc.uid
  {
    hide Write, WrittenMonitor, PodFits;
  }

  // ---- The endings ----

  /** The call stores its conditions, and the pass knows it. */
  predicate Stores(s: Sys, reply: Reply, w: StatusWrite) {
    At(s.process, Storing(w)) && Current(WorldOf(s), s.process.rpc) && reply.Answered?
  }

  predicate StoresRestore(s: Sys, reply: Reply) {
    && s.process.Running? && s.process.at.Storing? && Current(WorldOf(s), s.process.rpc) && reply.Answered?
    && (s.process.at.write.StartRestore? || s.process.at.write.FinishRestore?)
  }

  predicate StoresFailure(s: Sys, reply: Reply) {
    && s.process.Running? && s.process.at.Storing? && Current(WorldOf(s), s.process.rpc) && reply.Answered?
    && s.process.at.write.FailRestore?
  }

  /** The call is answered with a claim that is not bound, or with the absence of the scratch claim. */
  predicate WaitsForClaim(n: Name, s: Sys, t: Tick<Slot>) {
    var w, r := WorldOf(s), Ask(n, s.process, t.now);
    && t.reply.Answered?
    && (|| (r == Get(Scratch) && (Scratch in w ==> w[Scratch].ClaimObject? && w[Scratch].claim.phase != ClaimBound))
        || (r == Get(Storage) && Storage in w && w[Storage].ClaimObject? && w[Storage].claim.phase != ClaimBound))
  }

  predicate WaitsForJob(n: Name, s: Sys, t: Tick<Slot>) {
    var w := WorldOf(s);
    && Ask(n, s.process, t.now) == Get(RestoreJob) && t.reply.Answered?
    && RestoreJob in w && w[RestoreJob].JobObject? && w[RestoreJob].job.succeeded == 0 && w[RestoreJob].job.failed == 0
  }

  predicate DropsPod(n: Name, s: Sys, t: Tick<Slot>) {
    Ask(n, s.process, t.now) == Delete(RpcPod) && t.reply.Answered? && RpcPod in WorldOf(s)
  }

  /** The pass has come to the monitor, with nothing left to do for the pod. */
  predicate AtMonitor(p: Process) {
    && p.Running?
    && (|| p.at == FindOldMonitor || p.at == DeleteOldMonitor || p.at == FindPod
        || (p.at.Upsert? && p.at.slot == Monitor))
  }

  /** How a pass ends with the given call: the delays in seconds, and when it asks for one. */
  predicate EndsRightly(n: Name, s: Sys, t: Tick<Slot>, e: Ending) {
    && (e == Completed(Result(true, 0)) <==> DropsPod(n, s, t))
    && (e == Completed(Result(false, 1)) <==> WaitsForClaim(n, s, t) || StoresRestore(s, t.reply))
    && (e == Completed(Result(false, 30)) <==> WaitsForJob(n, s, t))
    && (e == Errored(TerminateLoop) <==> StoresFailure(s, t.reply))
    && (e == Completed(Result(false, 0)) <==>
          || (AtMonitor(s.process) && e != Errored(Panicked))
          || (s.process.Resting? && t.reply.Answered? && TheRpc !in WorldOf(s)))
    && (e.Completed? ==> e.result in {Result(true, 0), Result(false, 1), Result(false, 30), Result(false, 0)})
    && e != Errored(NextLoop)
  }

  /** The same, in terms of the answer. */
  predicate AnswerEnds(p: Process, answer: Response, e: Ending) {
    && (e == Completed(Result(true, 0)) <==> At(p, DeletePod) && answer.Accepted?)
    && (e == Completed(Result(false, 1)) <==> AnswerDelays(p, answer))
    && (e == Completed(Result(false, 30)) <==>
          && At(p, GetJob) && answer.Accepted? && answer.payload.JobObject?
          && answer.payload.job.succeeded == 0 && answer.payload.job.failed == 0)
    && (e == Errored(TerminateLoop) <==> p.Running? && p.at.Storing? && p.at.write.FailRestore? && answer.Accepted?)
    && (e == Completed(Result(false, 0)) <==>
          (AtMonitor(p) && e != Errored(Panicked)) || (p.Resting? && answer.Refused? && answer.error.NotFound?))
    && (e.Completed? ==> e.result in {Result(true, 0), Result(false, 1), Result(false, 30), Result(false, 0)})
    && e != Errored(NextLoop)
  }

  predicate AnswerDelays(p: Process, answer: Response) {
    || (At(p, GetScratch) && if answer.Accepted? then !ReadyClaim(answer.payload) else answer.error.NotFound?)
    || (At(p, GetStorage) && answer.Accepted? && !ReadyClaim(answer.payload))
    || (p.Running? && p.at.Storing? && (p.at.write.StartRestore? || p.at.write.FinishRestore?) && answer.Accepted?)
  }

  lemma StoringEnds(n: Name, p: Process, answer: Response, now: int)
    requires Local(n, p) && p.Running? && p.at.Storing?
    ensures var q := Resume(n, p, answer, now); q.Resting? ==> AnswerEnds(p, answer, q.last)
  {
    WrittenAsWanted(n, p.rpc, p.at.write, now);
    assert p == Running(Storing(p.at.write), p.rpc);
    hide Write;
  }

  /** How the pass ends when its upsert does: at the pod with an error, at the monitor quietly unless it panics. */
  predicate UpsertEnding(slot: Slot, q: Process) {
    q.Resting? ==>
      if slot == Monitor then q.last == Completed(Result(false, 0)) || q.last == Errored(Panicked)
      else q.last.Errored? && q.last.cause != TerminateLoop && q.last.cause != NextLoop
  }

  lemma RepairsEnd(rpc: Rpc, slot: Slot, repaired: Repaired)
    requires slot == RpcPod || slot == Monitor
    requires repaired.Settled? ==> KindOf(repaired.payload) == SlotKind(slot)
    ensures UpsertEnding(slot, UpsertRepairs(rpc, slot, repaired))
  {
  }

  lemma UpsertEnds(n: Name, p: Process, answer: Response, now: int)
    requires Local(n, p) && p.Running? && p.at.Upsert? && AnswerFits(Ask(n, p, now), answer)
    ensures (p.at.slot == RpcPod || p.at.slot == Monitor) && UpsertEnding(p.at.slot, Resume(n, p, answer, now))
  {
    var slot, spec := p.at.slot, p.rpc.spec;
    hide Inspect, Refresh, Repair, Reconcilers, WrittenMonitor, PodFits, JudgePod;
    if p.at.stage == Fetching && answer.Accepted? {
      var repaired := Repair(answer.payload, Reconcilers(slot, n, spec));
      if repaired.Settled? {
        RepairFits(slot, n, spec, answer.payload);
      }
      RepairsEnd(p.rpc, slot, repaired);
    }
  }

  lemma UpsertAnswerEnds(p: Process, answer: Response, q: Process)
    requires p.Running? && p.at.Upsert? && (p.at.slot == RpcPod || p.at.slot == Monitor) && UpsertEnding(p.at.slot, q)
    ensures q.Resting? ==> AnswerEnds(p, answer, q.last)
  {
  }

  lemma PlainEnds(n: Name, p: Process, answer: Response, now: int)
    requires Local(n, p) && AnswerFits(Ask(n, p, now), answer)
    requires p.Running? ==> !p.at.Storing? && !p.at.Upsert?
    ensures var q := Resume(n, p, answer, now); q.Resting? ==> AnswerEnds(p, answer, q.last)
  {
    hide ReadyClaim;
  }

  lemma ResumeEnds(n: Name, p: Process, answer: Response, now: int)
    requires Local(n, p) && AnswerFits(Ask(n, p, now), answer)
    ensures var q := Resume(n, p, answer, now); q.Resting? ==> AnswerEnds(p, answer, q.last)
  {
    hide Resume, AnswerEnds;
    if p.Running? && p.at.Storing? {
      StoringEnds(n, p, answer, now);
    } else if p.Running? && p.at.Upsert? {
      UpsertEnds(n, p, answer, now);
      UpsertAnswerEnds(p, answer, Resume(n, p, answer, now));
    } else {
      PlainEnds(n, p, answer, now);
    }
  }

  /** What the answers in such an ending say about the stored objects. */
  lemma AnswersTell(n: Name, s: Sys, t: Tick<Slot>)
    requires Sound(n, s)
    ensures var p, w, answer := s.process, WorldOf(s), Serve(s.cluster, Ask(n, s.process, t.now), t.reply).1;
            && (At(p, DeletePod) ==> (answer.Accepted? <==> t.reply.Answered? && RpcPod in w))
            && (p.Running? && p.at.Storing? ==> (answer.Accepted? <==> t.reply.Answered? && Current(w, p.rpc)))
            && (At(p, GetScratch) || At(p, GetStorage) || At(p, GetJob) || p.Resting? ==>
                  var slot := Ask(n, p, t.now).key;
                  && (answer.Accepted? <==> t.reply.Answered? && slot in w)
                  && (answer.Accepted? ==> answer.payload == w[slot])
                  && (answer.Refused? && answer.error.NotFound? <==> t.reply.Answered? && slot !in w))
  {
    hide PodMounts, JobMounts, Write;
  }

  lemma DelaysAreRight(n: Name, s: Sys, t: Tick<Slot>)
    requires Sound(n, s)
    ensures AnswerDelays(s.process, Serve(s.cluster, Ask(n, s.process, t.now), t.reply).1) <==>
            WaitsForClaim(n, s, t) || StoresRestore(s, t.reply)
  {
    AskFits(n, s, t.reply, t.now);
    AsksAre(n, s.process, t.now);
    AnswersTell(n, s, t);
    hide Serve, Write, Ask, Local, Agree, Mounting;
  }

  lemma CallEndsRightly(n: Name, s: Sys, t: Tick<Slot>)
    requires Sound(n, s)
    ensures var q := CallStep(n, s, t.reply, t.now).process; q.Resting? ==> EndsRightly(n, s, t, q.last)
  {
    AskFits(n, s, t.reply, t.now);
    AsksAre(n, s.process, t.now);
    AnswersTell(n, s, t);
    DelaysAreRight(n, s, t);
    hide AnswerDelays, WaitsForClaim, StoresRestore;
    ResumeEnds(n, s.process, Serve(s.cluster, Ask(n, s.process, t.now), t.reply).1, t.now);
    hide Resume, Serve, RecordCall, Write, Ask, Local, Agree, Mounting;
  }

  /** In every run: how each pass ends. */
  lemma EndingsAreRight(n: Name, ticks: seq<Tick<Slot>>, t: Tick<Slot>)
    ensures var q := Step(n, Exec(n, INIT, ticks), t).process;
            q.Resting? ==> EndsRightly(n, Before(n, INIT, ticks, t), t, q.last)
  {
    RunsAreSound(n, ticks, t);
    CallEndsRightly(n, Before(n, INIT, ticks, t), t);
  }
}
