/** `CreateOrReconcile`, for any object and any list of repairs. */
module Ensure {
  import opened Objects
  import opened Names
  import opened Server
  import opened Drift
  import opened Process
  import opened Workload
  import opened Monitoring
  import opened Isolation
  import opened Store

  /** The object the caller passes by reference, which every answer overwrites. */
  class Holder {
    var payload: Object

    constructor (payload: Object)
      ensures this.payload == payload
    {
      this.payload := payload;
    }
  }

  /** The exchanges of one call, and what it makes of them. */
  predicate Conversation(es: seq<Exchange>, key: Key, wanted: Object, reconcilers: seq<ObjectReconciler>,
                         after: Object, created: bool, err: Option<Failure>) {
    && 1 <= |es| <= 3
    && es[0].request == Create(key, wanted)
    && (if es[0].answer.Accepted? then |es| == 1 && created && err == None && after == es[0].answer.payload
        else if es[0].answer.error != AlreadyExists then |es| == 1 && created && err == Some(Api(es[0].answer.error))
        else |es| >= 2 && es[1].request == Get(key) && !created && Reconciling(es, key, reconcilers, after, err))
  }

  /** The part of it that looks after an object that was there already. */
  predicate Reconciling(es: seq<Exchange>, key: Key, reconcilers: seq<ObjectReconciler>, after: Object,
      err: Option<Failure>)
    requires 2 <= |es| <= 3
  {
    if es[1].answer.Refused? then |es| == 2 && err == Some(Api(es[1].answer.error))
    else Concluding(es, key, Repair(es[1].answer.payload, reconcilers), after, err)
  }

  /** The changes are stored, if there are any. */
  predicate Concluding(es: seq<Exchange>, key: Key, repaired: Repaired, after: Object, err: Option<Failure>)
    requires 2 <= |es| <= 3
  {
    match repaired
    case Broken => |es| == 2 && err == Some(BrokenUpdate)
    case Crashed => |es| == 2 && err == Some(Panicked)
    case Settled(o, false) => |es| == 2 && err == None && after == o
    case Settled(o, true) =>
      && |es| == 3 && es[2].request == Update(key, o)
      && (if es[2].answer.Accepted? then err == None && after == es[2].answer.payload
          else err == Some(Api(es[2].answer.error)))
  }

  /** The calls of it, one after the other. */
  method Converse(server: ApiServer, key: Key, held: Holder, reconcilers: seq<ObjectReconciler>)
    returns (created: bool, err: Option<Failure>)
    requires server.Valid()
    modifies server`cluster, server`clock, server`pending, held
    ensures server.Valid() && old(server.pending) <= server.pending
    ensures Conversation(server.pending[|old(server.pending)|..], key, old(held.payload), reconcilers, held.payload,
        created, err)
  {
    hide Outcome, PassesBegun, Timely, Exchanged, Repair;
    var answer := server.Handle(Create(key, held.payload));
    if answer.Refused? && answer.error != AlreadyExists {
      return true, Some(Api(answer.error));
    } else if answer.Accepted? {
      held.payload := answer.payload;
      return true, None;
    }
    answer := server.Handle(Get(key));
    if answer.Refused? {
      return false, Some(Api(answer.error));
    }
    held.payload := answer.payload;
    var updated;
    updated, err := RunReconcilers(held, reconcilers);
    if err.Some? {
      return false, err;
    }
    if updated {
      answer := server.Handle(Update(key, held.payload));
      if answer.Refused? {
        return false, Some(Api(answer.error));
      }
      held.payload := answer.payload;
    }
    return false, None;
  }

  /** The loop in the middle of it, which repairs the held object in place. */
  method RunReconcilers(held: Holder, reconcilers: seq<ObjectReconciler>) returns (updated: bool, err: Option<Failure>)
    modifies held
    ensures match Repair(old(held.payload), reconcilers)
            case Broken => err == Some(BrokenUpdate)
            case Crashed => err == Some(Panicked)
            case Settled(o, changed) => err == None && held.payload == o && updated == changed
  {
    updated := false;
    assert reconcilers[0..] == reconcilers;
    for i := 0 to |reconcilers|
      invariant var rest := Repair(held.payload, reconcilers[i..]);
                Repair(old(held.payload), reconcilers) == if updated then Touched(rest) else rest
    {
      assert reconcilers[i..][0] == reconcilers[i] && reconcilers[i..][1..] == reconcilers[i + 1..];
      var verdict := reconcilers[i].isUpToDate(held.payload);
      if verdict == Panics {
        return updated, Some(Panicked);
      }
      if verdict == Drifted {
        var changed := reconcilers[i].update(held.payload);
        if changed == None {
          return updated, Some(BrokenUpdate);
        }
        held.payload := changed.value;
        updated := true;
      }
    }
    return updated, None;
  }

  /** What the caller is told: whether the object was there already, even when the creation failed otherwise, and the
      error of the last request. */
  lemma ReportsWhatHappened(es: seq<Exchange>, key: Key, wanted: Object, reconcilers: seq<ObjectReconciler>,
                            after: Object, created: bool, err: Option<Failure>, e: ApiError)
    requires Conversation(es, key, wanted, reconcilers, after, created, err)
    ensures !created <==> es[0].answer == Refused(AlreadyExists)
    ensures err == Some(Api(e)) <==> es[|es| - 1].answer == Refused(e)
    ensures forall i :: 0 < i < |es| - 1 ==> es[i].answer.Accepted?
  {
  }

  // ---- What a conversation achieves ----

  /** The checks look at nothing that the server sets on its own. */
  ghost predicate StatusBlind(reconcilers: seq<ObjectReconciler>) {
    && (forall i, sent :: 0 <= i < |reconcilers| ==>
          reconcilers[i].isUpToDate(Admit(sent)) == reconcilers[i].isUpToDate(sent))
    && (forall i, stored, sent :: 0 <= i < |reconcilers| && KindOf(stored) == KindOf(sent) ==>
          reconcilers[i].isUpToDate(Revise(stored, sent)) == reconcilers[i].isUpToDate(sent))
  }

  /** The repairs keep the kind of the object, as the type parameter of the Go function makes them. */
  ghost predicate KindKeeping(reconcilers: seq<ObjectReconciler>) {
    forall i, o :: 0 <= i < |reconcilers| && reconcilers[i].update(o).Some? ==>
                     KindOf(reconcilers[i].update(o).value) == KindOf(o)
  }

  lemma {:induction false} RepairKeepsKind(o: Object, reconcilers: seq<ObjectReconciler>)
    requires KindKeeping(reconcilers)
    ensures Repair(o, reconcilers).Settled? ==> KindOf(Repair(o, reconcilers).payload) == KindOf(o)
    decreases |reconcilers|
  {
    if |reconcilers| > 0 {
      assert KindKeeping(reconcilers[1..]);
      RepairKeepsKind(o, reconcilers[1..]);
      if reconcilers[0].update(o).Some? {
        RepairKeepsKind(reconcilers[0].update(o).value, reconcilers[1..]);
      }
    }
  }

  /** An accepted request leaves the answered object in the store. */
  lemma AnsweredIsStored(c: Cluster<Key>, request: Request<Key>, tick: Tick<Key>)
    requires Exchanged(c, request, tick).1.Accepted? && (request.Create? || request.Get? || request.Update?)
    ensures Lookup(Exchanged(c, request, tick).0.objects, request.key) == Some(Exchanged(c, request, tick).1.payload)
    ensures request.Create? ==> Exchanged(c, request, tick).1.payload == Admit(request.payload)
    ensures request.Update? ==>
              var stored := Lookup(OutsideAll(c, tick.env).objects, request.key);
              stored.Some? && Exchanged(c, request, tick).1.payload == Revise(stored.value, request.payload)
  {
  }

  lemma ReplaysLast(c: Cluster<Key>, es: seq<Exchange>, after: Cluster<Key>) returns (before: Cluster<Key>)
    requires 1 <= |es| && Replays(c, es, after)
    ensures Replays(c, es[..|es| - 1], before)
    ensures var last := es[|es| - 1];
            Exchanged(before, last.request, last.tick) == (after, last.answer)
    decreases |es|
  {
    var served := Exchanged(c, es[0].request, es[0].tick);
    if |es| == 1 {
      before := c;
    } else {
      before := ReplaysLast(served.0, es[1..], after);
      assert es[..|es| - 1][1..] == es[1..][..|es| - 2];
    }
  }

  /** Every answered object under the key has the key's kind, as the server's type checking ensures. */
  predicate KindsHold(es: seq<Exchange>, key: Key) {
    forall i :: 0 <= i < |es| && es[i].answer.Accepted? ==> KindOf(es[i].answer.payload) == key.kind
  }

  /** For every list of repairs that establish their own check and keep the earlier ones, and every wanted object that
      passes them all: a call without an error leaves a stored object that passes them all. */
  lemma NilErrorRepairs(c: Cluster<Key>, es: seq<Exchange>, after: Cluster<Key>, key: Key, wanted: Object,
                        reconcilers: seq<ObjectReconciler>, held: Object, created: bool)
    requires Establishing(reconcilers) && NonInterfering(reconcilers) && StatusBlind(reconcilers)
        && KindKeeping(reconcilers)
    requires AllUpToDate(wanted, reconcilers)
    requires Conversation(es, key, wanted, reconcilers, held, created, None) && Replays(c, es, after)
    requires KindsHold(es, key)
    ensures Lookup(after.objects, key) == Some(held) && AllUpToDate(held, reconcilers)
  {
    hide Repair, Exchanged, Replays;
    var before := ReplaysLast(c, es, after);
    var last := es[|es| - 1];
    AnsweredIsStored(before, last.request, last.tick);
    if !created {
      var found := es[1].answer.payload;
      RepairIsFinal(found, reconcilers);
      RepairUpdatesIffDrift(found, reconcilers);
      RepairKeepsKind(found, reconcilers);
    }
  }

  // ---- The method ----

  lemma {:induction false} TimelyReplays(weather: nat -> Tick<Key>, c: Cluster<Key>, from: nat, es: seq<Exchange>,
                                         after: Cluster<Key>, until: nat)
    requires Timely(weather, c, from, es, after, until)
    ensures Replays(c, es, after)
    decreases |es|
  {
    hide Exchanged;
    if |es| > 0 {
      TimelyReplays(weather, Exchanged(c, es[0].request, weather(from)).0, from + 1, es[1..], after, until);
    }
  }

  /** The later exchanges start where the earlier ones end. */
  lemma {:induction false} LaterReplays(weather: nat -> Tick<Key>, c: Cluster<Key>, from: nat, a: seq<Exchange>,
                                        middle: Cluster<Key>, half: nat, b: seq<Exchange>, after: Cluster<Key>,
                                        until: nat)
    requires Timely(weather, c, from, a, middle, half) && Timely(weather, c, from, a + b, after, until)
    ensures Replays(middle, b, after)
    decreases |a|
  {
    hide Exchanged;
    if |a| == 0 {
      assert a + b == b;
      TimelyReplays(weather, c, from, b, after, until);
    } else {
      assert (a + b)[1..] == a[1..] + b;
      var next := Exchanged(c, a[0].request, weather(from)).0;
      LaterReplays(weather, next, from + 1, a[1..], middle, half, b, after, until);
    }
  }

  lemma RequestKeepsTypes(c: Cluster<Key>, request: Request<Key>, tick: Tick<Key>)
    requires WellTyped(c) && (request.Create? ==> KindOf(request.payload) == request.key.kind)
    ensures WellTyped(Exchanged(c, request, tick).0)
    ensures AnswerIsTyped(Exchange(request, tick, Exchanged(c, request, tick).1))
  {
    OutsideAllKeepsTypes(c, tick.env);
    AnswersAreTyped(c, request, tick);
  }

  lemma {:induction false} AnswersHaveKinds(c: Cluster<Key>, es: seq<Exchange>, after: Cluster<Key>)
    requires WellTyped(c) && Replays(c, es, after)
    requires forall e :: e in es && e.request.Create? ==> KindOf(e.request.payload) == e.request.key.kind
    ensures forall e :: e in es ==> AnswerIsTyped(e)
    decreases |es|
  {
    hide Exchanged, WellTyped;
    if |es| > 0 {
      RequestKeepsTypes(c, es[0].request, es[0].tick);
      AnswersHaveKinds(Exchanged(c, es[0].request, es[0].tick).0, es[1..], after);
    }
  }

  lemma ConversationHasKinds(c: Cluster<Key>, es: seq<Exchange>, after: Cluster<Key>, key: Key, wanted: Object,
                             reconcilers: seq<ObjectReconciler>, held: Object, created: bool)
    requires WellTyped(c) && KindOf(wanted) == key.kind && Replays(c, es, after)
    requires Conversation(es, key, wanted, reconcilers, held, created, None)
    ensures KindsHold(es, key)
  {
    hide Replays, Repair;
    AnswersHaveKinds(c, es, after);
    assert forall i :: 0 <= i < |es| ==> AnswerIsTyped(es[i]);
  }

  /** Repairs and a wanted object for which a call is final. */
  ghost predicate Repairable(wanted: Object, reconcilers: seq<ObjectReconciler>) {
    && Establishing(reconcilers) && NonInterfering(reconcilers) && StatusBlind(reconcilers) && KindKeeping(reconcilers)
    && AllUpToDate(wanted, reconcilers)
  }

  /** For any object and any repairs: the exact exchanges, and what they leave with the caller. When the repairs are fit
      for it and the server is well typed, a call without an error leaves the stored object passing every check. */
  method CreateOrReconcile(server: ApiServer, key: Key, held: Holder, reconcilers: seq<ObjectReconciler>)
    returns (created: bool, err: Option<Failure>)
    requires server.Valid()
    modifies server`cluster, server`clock, server`pending, held
    ensures server.Valid() && old(server.pending) <= server.pending
    ensures Conversation(server.pending[|old(server.pending)|..], key, old(held.payload), reconcilers, held.payload,
        created, err)
    ensures err == None && WellTyped(old(server.cluster)) && KindOf(old(held.payload)) == key.kind
            && Repairable(old(held.payload), reconcilers) ==>
              Lookup(server.cluster.objects, key) == Some(held.payload) && AllUpToDate(held.payload, reconcilers)
  {
    hide Outcome, PassesBegun, Conversation, WellTyped, Replays, Timely;
    ghost var a, c, half, wanted := server.pending, server.cluster, server.clock, held.payload;
    created, err := Converse(server, key, held, reconcilers);
    ghost var es := server.pending[|a|..];
    assert server.pending == a + es;
    LaterReplays(server.weather, server.settled.cluster, |server.callers|, a, c, half, es, server.cluster,
                 server.clock);
    if err == None && WellTyped(c) && KindOf(wanted) == key.kind && Repairable(wanted, reconcilers) {
      ConversationHasKinds(c, es, server.cluster, key, wanted, reconcilers, held.payload, created);
      NilErrorRepairs(c, es, server.cluster, key, wanted, reconcilers, held.payload, created);
    }
  }

  /** One call updates at most once, and does so exactly when it found the object and some check saw drift that could be
      repaired. */
  lemma UpdatesOnceIffDrift(es: seq<Exchange>, key: Key, wanted: Object, reconcilers: seq<ObjectReconciler>,
                            held: Object, created: bool, err: Option<Failure>)
    requires Conversation(es, key, wanted, reconcilers, held, created, err)
    ensures forall i :: 0 <= i < |es| ==> (es[i].request.Update? <==> i == 2)
    ensures |es| == 3 <==>
              && |es| >= 2 && es[1].answer.Accepted?
              && !AllUpToDate(es[1].answer.payload, reconcilers)
              && Repair(es[1].answer.payload, reconcilers).Settled?
  {
    if |es| >= 2 && es[1].answer.Accepted? {
      RepairUpdatesIffDrift(es[1].answer.payload, reconcilers);
    }
  }

  /** The tick of a call that nothing interferes with. */
  predicate Quiet(e: Exchange) {
    e.tick.env == [] && e.tick.reply.Answered?
  }

  lemma QuietCallOnPresent(c: Cluster<Key>, e: Exchange, o: Object)
    requires Quiet(e) && Lookup(c.objects, e.request.key) == Some(o) && e.answer == Exchanged(c, e.request, e.tick).1
    ensures e.request.Create? ==> e.answer == Refused(AlreadyExists) && Exchanged(c, e.request, e.tick).0 == c
    ensures e.request.Get? ==> e.answer == Accepted(o) && Exchanged(c, e.request, e.tick).0 == c
  {
    assert Put(c.objects, e.request.key, Some(o)) == c.objects;
  }

  /** A second call right after one that left the object up to date finds it so and writes nothing. */
  lemma SecondCallWritesNothing(c: Cluster<Key>, es: seq<Exchange>, after: Cluster<Key>, key: Key, wanted: Object,
                                reconcilers: seq<ObjectReconciler>, held: Object, created: bool,
                                err: Option<Failure>, o: Object)
    requires Lookup(c.objects, key) == Some(o) && AllUpToDate(o, reconcilers)
    requires Conversation(es, key, wanted, reconcilers, held, created, err) && Replays(c, es, after)
    requires forall i :: 0 <= i < |es| ==> Quiet(es[i])
    ensures after == c && |es| == 2 && !created && err == None && held == o
  {
    RepairUpdatesIffDrift(o, reconcilers);
    QuietCallOnPresent(c, es[0], o);
    assert es[1..][0] == es[1] && Replays(c, es[1..], after);
    QuietCallOnPresent(c, es[1], o);
    assert |es| == 2;
    assert Replays(c, es[1..][1..], after) && es[1..][1..] == [];
  }

  lemma ChecksAreStatusBlind(s: Slot, n: Name, spec: Spec)
    ensures StatusBlind(Reconcilers(s, n, spec)) && KindKeeping(Reconcilers(s, n, spec))
  {
    hide Inspect, Refresh;
  }

  /** The operator's repair lists meet all the conditions. */
  lemma OperatorListsQualify(s: Slot, n: Name, spec: Spec)
    ensures var rs := Reconcilers(s, n, spec);
            && Establishing(rs) && NonInterfering(rs) && StatusBlind(rs) && KindKeeping(rs)
            && AllUpToDate(Wanted(s, n, spec), rs)
  {
    OperatorReconcilersSound(s, n, spec);
    ChecksAreStatusBlind(s, n, spec);
  }
}
