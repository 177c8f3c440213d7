/** Many custom resources on one API server: each sees only its own objects, and their passes do not interfere. */
module Isolation {
  import opened Objects
  import opened Names
  import opened Server
  import opened Process
  import opened Machine
  import opened Soundness
  import opened Moves
  import opened Safety
  import opened Exclusion

  /** The request of a pass for `n`, under the names the objects really have. */
  function Named(n: Name, r: Request<Slot>): Request<Key> {
    match r
    case Get(s) => Get(KeyOf(n, s))
    case Create(s, o) => Create(KeyOf(n, s), o)
    case Update(s, o) => Update(KeyOf(n, s), o)
    case Delete(s) => Delete(KeyOf(n, s))
    case PutStatus(s, uid, conditions) => PutStatus(KeyOf(n, s), uid, conditions)
    case Probe(s) => Probe(KeyOf(n, s))
  }

  /** The objects of one resource. */
  function View(c: Cluster<Key>, n: Name): Cluster<Slot> {
    Cluster(map s | s in SLOTS && KeyOf(n, s) in c.objects :: c.objects[KeyOf(n, s)], c.births)
  }

  function SlotOf(n: Name, k: Key): (s: Option<Slot>)
    ensures s.Some? ==> k == KeyOf(n, s.value)
    ensures s.None? <==> k !in Footprint(n)
  {
    if k == KeyOf(n, TheRpc) then Some(TheRpc)
    else if k == KeyOf(n, Storage) then Some(Storage)
    else if k == KeyOf(n, Scratch) then Some(Scratch)
    else if k == KeyOf(n, RestoreJob) then Some(RestoreJob)
    else if k == KeyOf(n, RpcPod) then Some(RpcPod)
    else if k == KeyOf(n, Monitor) then Some(Monitor)
    else None
  }

  /** An action of the environment, as one resource sees it. */
  function Seen(n: Name, a: Action<Key>): Action<Slot> {
    match a
    case Nothing => Nothing
    case BirthElsewhere => BirthElsewhere
    case CreateRpc(k, spec) => if k == KeyOf(n, TheRpc) then CreateRpc(TheRpc, spec) else BirthElsewhere
    case _ =>
      match SlotOf(n, a.key)
      case None => Nothing
      case Some(s) =>
        match a
        case Remove(_) => Remove(s)
        case BindClaim(_, phase) => BindClaim(s, phase)
        case JobSucceeds(_) => JobSucceeds(s)
        case JobFails(_) => JobFails(s)
        case PodReports(_, status) => PodReports(s, status)
        case EditMonitor(_, m) => EditMonitor(s, m)
        case EditSpec(_, spec) => EditSpec(s, spec)
        case _ => Nothing
  }

  // ---- The whole operator ----

  /** One process for each resource; one that never had a pass is resting. */
  datatype Whole = Whole(cluster: Cluster<Key>, processes: map<Name, Process>)

  datatype Event = World(action: Action<Key>) | CallBy(who: Name, reply: Reply, now: int)

  const START := Whole(Cluster(map[], 0), map[])

  function ProcessOf(w: Whole, n: Name): Process {
    if n in w.processes then w.processes[n] else Finish(DONE)
  }

  /** Only a custom resource can be created from outside. */
  predicate Allowed(a: Action<Key>) {
    a.CreateRpc? ==> a.key.kind == RpcKind
  }

  function Outside(c: Cluster<Key>, a: Action<Key>): Cluster<Key> {
    if Allowed(a) then Act(c, a) else c
  }

  /** The next call of a process, and where its answer takes it. */
  function Call(c: Cluster<Key>, n: Name, p: Process, reply: Reply, now: int): (Cluster<Key>, Process) {
    var served := Serve(c, Named(n, Ask(n, p, now)), reply);
    (served.0, Resume(n, p, served.1, now))
  }

  function Happen(w: Whole, e: Event): Whole {
    match e
    case World(a) => w.(cluster := Outside(w.cluster, a))
    case CallBy(n, reply, now) =>
      var called := Call(w.cluster, n, ProcessOf(w, n), reply, now);
      Whole(called.0, w.processes[n := called.1])
  }

  function HappenAll(w: Whole, events: seq<Event>): Whole {
    if |events| == 0 then w else Happen(HappenAll(w, events[..|events| - 1]), events[|events| - 1])
  }

  // ---- One object at a time ----

  lemma NamedKeepsEffect(n: Name, o: Option<Object>, r: Request<Slot>, reply: Reply)
    ensures Named(n, r).key == KeyOf(n, r.key)
    ensures ServeOne(o, Named(n, r), reply) == ServeOne(o, r, reply)
  {
  }

  lemma LookupPut<K>(objects: map<K, Object>, k: K, o: Option<Object>, j: K)
    ensures Lookup(Put(objects, k, o), j) == if j == k then o else Lookup(objects, j)
  {
  }

  lemma LookupView(c: Cluster<Key>, n: Name, s: Slot)
    ensures Lookup(View(c, n).objects, s) == Lookup(c.objects, KeyOf(n, s))
  {
  }

  lemma PutIsSeen(c: Cluster<Key>, n: Name, s: Slot, o: Option<Object>, births: nat)
    ensures View(Cluster(Put(c.objects, KeyOf(n, s), o), births), n) == Cluster(Put(View(c, n).objects, s, o), births)
    ensures Lookup(View(c, n).objects, s) == Lookup(c.objects, KeyOf(n, s))
  {
    var after := Cluster(Put(c.objects, KeyOf(n, s), o), births);
    var put := Put(View(c, n).objects, s, o);
    forall t ensures Lookup(View(after, n).objects, t) == Lookup(put, t) {
      LookupView(after, n, t);
      LookupView(c, n, t);
      LookupPut(c.objects, KeyOf(n, s), o, KeyOf(n, t));
      LookupPut(View(c, n).objects, s, o, t);
      if KeyOf(n, t) == KeyOf(n, s) {
        KeyOfInjective(n, t, n, s);
      }
    }
    SameLookups(View(after, n).objects, put);
    LookupView(c, n, s);
  }

  lemma SameLookups<K(!new)>(a: map<K, Object>, b: map<K, Object>)
    requires forall k :: Lookup(a, k) == Lookup(b, k)
    ensures a == b
  {
    forall k ensures (k in a <==> k in b) && (k in a ==> a[k] == b[k]) {
      assert Lookup(a, k) == Lookup(b, k);
    }
  }

  lemma PutIsUnseen(c: Cluster<Key>, n: Name, k: Key, o: Option<Object>, births: nat)
    requires k !in Footprint(n)
    ensures View(Cluster(Put(c.objects, k, o), births), n) == View(c, n).(births := births)
  {
  }

  // ---- A pass and its own objects ----

  /** Serving a pass under the real names is serving it on the view, with the same answer. */
  lemma OwnCallIsSeen(c: Cluster<Key>, n: Name, r: Request<Slot>, reply: Reply)
    ensures View(Serve(c, Named(n, r), reply).0, n) == Serve(View(c, n), r, reply).0
    ensures Serve(c, Named(n, r), reply).1 == Serve(View(c, n), r, reply).1
  {
    var o := Lookup(c.objects, KeyOf(n, r.key));
    NamedKeepsEffect(n, o, r, reply);
    PutIsSeen(c, n, r.key, ServeOne(o, r, reply).0, c.births);
  }

  lemma OtherKeyIsOutside(n: Name, m: Name, s: Slot)
    requires n != m
    ensures KeyOf(m, s) !in Footprint(n)
  {
    FootprintsDisjoint(n, m);
  }

  lemma OtherCallIsUnseen(c: Cluster<Key>, n: Name, m: Name, r: Request<Slot>, reply: Reply)
    requires n != m
    ensures View(Serve(c, Named(m, r), reply).0, n) == View(c, n)
  {
    var k := KeyOf(m, r.key);
    OtherKeyIsOutside(n, m, r.key);
    NamedKeepsEffect(m, Lookup(c.objects, k), r, reply);
    PutIsUnseen(c, n, k, ServeOne(Lookup(c.objects, k), r, reply).0, c.births);
  }

  /** A call changes no object outside the footprint of its resource, and no custom resource is ever created by one. */
  lemma CallStaysInFootprint(c: Cluster<Key>, n: Name, r: Request<Slot>, reply: Reply, k: Key)
    requires k !in Footprint(n)
    ensures Lookup(Serve(c, Named(n, r), reply).0.objects, k) == Lookup(c.objects, k)
    ensures Serve(c, Named(n, r), reply).0.births == c.births
  {
    NamedKeepsEffect(n, Lookup(c.objects, KeyOf(n, r.key)), r, reply);
  }

  lemma SeenKeepsEffect(n: Name, o: Option<Object>, a: Action<Key>, births: nat)
    requires !a.Nothing? && !a.BirthElsewhere? && Allowed(a)
    requires a.key in Footprint(n)
    ensures var b := Seen(n, a);
            && Proper(b) && !b.Nothing? && !b.BirthElsewhere? && KeyOf(n, b.key) == a.key
            && (b.CreateRpc? <==> a.CreateRpc?) && ActOne(o, b, births) == ActOne(o, a, births)
  {
    if a.CreateRpc? {
      var s := SlotOf(n, a.key).value;
      assert SlotKind(s) == RpcKind;
    }
  }

  lemma ActionIsSeen(c: Cluster<Key>, n: Name, a: Action<Key>)
    requires Allowed(a)
    ensures Proper(Seen(n, a)) && View(Act(c, a), n) == Act(View(c, n), Seen(n, a))
  {
    if !a.Nothing? && !a.BirthElsewhere? {
      var births := if a.CreateRpc? then c.births + 1 else c.births;
      var after := ActOne(Lookup(c.objects, a.key), a, c.births);
      if a.key in Footprint(n) {
        SeenKeepsEffect(n, Lookup(c.objects, a.key), a, c.births);
        PutIsSeen(c, n, Seen(n, a).key, after, births);
      } else {
        PutIsUnseen(c, n, a.key, after, births);
      }
    }
  }

  // ---- Every run of the whole operator is, for each resource, a run of the step machine ----

  /** The part of a run that concerns one resource: its finished ticks, and the actions since its last call. */
  function Share(n: Name, events: seq<Event>): (seq<Tick<Slot>>, seq<Action<Slot>>) {
    if |events| == 0 then ([], [])
    else
      var (ticks, env) := Share(n, events[..|events| - 1]);
      match events[|events| - 1]
      case World(a) => if Allowed(a) then (ticks, env + [Seen(n, a)]) else (ticks, env)
      case CallBy(m, reply, now) => if m == n then (ticks + [Tick(env, reply, now)], []) else (ticks, env)
  }

  function ShareState(n: Name, events: seq<Event>): Sys {
    EnvSteps(Exec(n, INIT, Share(n, events).0), Share(n, events).1)
  }

  lemma {:induction false} EnvStepsSnoc(s: Sys, env: seq<Action<Slot>>, a: Action<Slot>)
    ensures EnvSteps(s, env + [a]) == EnvStep(EnvSteps(s, env), a)
    decreases |env|
  {
    if |env| == 0 {
      assert env + [a] == [a] && [a][1..] == [];
    } else {
      assert (env + [a])[1..] == env[1..] + [a];
      EnvStepsSnoc(EnvStep(s, env[0]), env[1..], a);
    }
  }

  predicate Matches(w: Whole, n: Name, s: Sys) {
    s.cluster == View(w.cluster, n) && s.process == ProcessOf(w, n)
  }

  lemma ActionMatches(w: Whole, n: Name, s: Sys, a: Action<Key>)
    requires Matches(w, n, s) && Allowed(a)
    ensures Matches(Happen(w, World(a)), n, EnvStep(s, Seen(n, a)))
  {
    ActionIsSeen(w.cluster, n, a);
  }

  lemma CallMatches(w: Whole, n: Name, s: Sys, reply: Reply, now: int)
    requires Matches(w, n, s)
    ensures Matches(Happen(w, CallBy(n, reply, now)), n, CallStep(n, s, reply, now))
  {
    OwnCallIsSeen(w.cluster, n, Ask(n, s.process, now), reply);
  }

  lemma OtherCallMatches(w: Whole, n: Name, s: Sys, m: Name, reply: Reply, now: int)
    requires Matches(w, n, s) && n != m
    ensures Matches(Happen(w, CallBy(m, reply, now)), n, s)
  {
    OtherCallIsUnseen(w.cluster, n, m, Ask(m, ProcessOf(w, m), now), reply);
  }

  lemma {:induction false} WholeRunsMatch(n: Name, events: seq<Event>)
    ensures Matches(HappenAll(START, events), n, ShareState(n, events))
  {
    if |events| > 0 {
      var earlier, last := events[..|events| - 1], events[|events| - 1];
      WholeRunsMatch(n, earlier);
      var w, s := HappenAll(START, earlier), ShareState(n, earlier);
      var (ticks, env) := Share(n, earlier);
      match last {
        case World(a) =>
          if Allowed(a) {
            ActionMatches(w, n, s, a);
            EnvStepsSnoc(Exec(n, INIT, ticks), env, Seen(n, a));
          }
        case CallBy(m, reply, now) =>
          if m == n {
            CallMatches(w, n, s, reply, now);
            assert (ticks + [Tick(env, reply, now)])[..|ticks|] == ticks;
          } else {
            OtherCallMatches(w, n, s, m, reply, now);
          }
      }
    }
  }

  /** So the guarantees for one resource hold for every resource of a shared API server. */
  lemma EveryResourceIsSafe(n: Name, events: seq<Event>)
    ensures var s, w := ShareState(n, events), HappenAll(START, events);
            && s.cluster == View(w.cluster, n) && s.process == ProcessOf(w, n)
            && Sound(n, s) && SafeState(s) && ApartState(s)
  {
    WholeRunsMatch(n, events);
    var (ticks, env) := Share(n, events);
    var t := Tick(env, Answered, 0);
    RunsAreSafe(n, ticks, t);
    JobAndPodApart(n, ticks, t);
  }

  predicate WellTyped(c: Cluster<Key>) {
    forall k :: k in c.objects ==> KindOf(c.objects[k]) == k.kind
  }

  lemma OutsideKeepsTypes(c: Cluster<Key>, a: Action<Key>)
    requires WellTyped(c)
    ensures WellTyped(Outside(c, a))
  {
  }

  lemma CallKeepsTypes(w: Whole, n: Name, reply: Reply, now: int)
    requires WellTyped(w.cluster)
    requires Typed(View(Happen(w, CallBy(n, reply, now)).cluster, n).objects)
    ensures WellTyped(Happen(w, CallBy(n, reply, now)).cluster)
  {
    var after := Happen(w, CallBy(n, reply, now)).cluster;
    forall k | k in after.objects ensures KindOf(after.objects[k]) == k.kind {
      if k in Footprint(n) {
        var s :| k == KeyOf(n, s);
        LookupView(after, n, s);
        assert View(after, n).objects[s] == after.objects[k];
      } else {
        CallStaysInFootprint(w.cluster, n, Ask(n, ProcessOf(w, n), now), reply, k);
        assert Lookup(after.objects, k) == Lookup(w.cluster.objects, k);
      }
    }
  }

  /** Every object is of the kind its key names. */
  lemma {:induction false} WholeRunsAreTyped(events: seq<Event>)
    ensures WellTyped(HappenAll(START, events).cluster)
  {
    if |events| > 0 {
      var earlier, last := events[..|events| - 1], events[|events| - 1];
      WholeRunsAreTyped(earlier);
      var w := HappenAll(START, earlier);
      match last {
        case World(a) => OutsideKeepsTypes(w.cluster, a);
        case CallBy(n, reply, now) =>
          EveryResourceIsSafe(n, events);
          CallKeepsTypes(w, n, reply, now);
      }
    }
  }

  /** A pod is created only on restored or skipped data, or after one of the two incidents, in a cluster with any number
      of resources. */
  lemma EveryPodIsBacked(n: Name, events: seq<Event>, reply: Reply, now: int)
    requires var w := HappenAll(START, events);
             && KeyOf(n, RpcPod) !in w.cluster.objects
             && KeyOf(n, RpcPod) in Happen(w, CallBy(n, reply, now)).cluster.objects
             && KeyOf(n, Storage) in w.cluster.objects
    ensures Backed(ShareState(n, events).history)
    ensures var pod := Happen(HappenAll(START, events), CallBy(n, reply, now)).cluster.objects[KeyOf(n, RpcPod)];
            pod.PodObject? && ClaimKey(n, pod.pod.claim) == KeyOf(n, Storage)
  {
    var w, s := HappenAll(START, events), ShareState(n, events);
    WholeRunsMatch(n, events);
    CallMatches(w, n, s, reply, now);
    LookupView(w.cluster, n, RpcPod);
    LookupView(w.cluster, n, Storage);
    LookupView(Happen(w, CallBy(n, reply, now)).cluster, n, RpcPod);
    var (ticks, env) := Share(n, events);
    CreatingCallIsBacked(n, ticks, Tick(env, reply, now));
  }

  lemma CreatingCallIsBacked(n: Name, ticks: seq<Tick<Slot>>, t: Tick<Slot>)
    requires var s := Before(n, INIT, ticks, t);
             RpcPod !in WorldOf(s) && RpcPod in WorldOf(CallStep(n, s, t.reply, t.now)) && Storage in WorldOf(s)
    ensures Backed(Before(n, INIT, ticks, t).history)
    ensures var w := WorldOf(CallStep(n, Before(n, INIT, ticks, t), t.reply, t.now));
            w[RpcPod].PodObject? && ClaimKey(n, w[RpcPod].pod.claim) == KeyOf(n, Storage)
  {
    RunsAreSound(n, ticks, t);
    PodOnlyOnRestoredData(n, ticks, t);
  }

  // ---- Passes for different resources commute ----

  /** Calls of two resources can be swapped without any difference to the whole store or to either pass. */
  lemma CallsCommute(w: Whole, n: Name, m: Name, reply: Reply, now: int, reply': Reply, now': int)
    requires n != m
    ensures Happen(Happen(w, CallBy(n, reply, now)), CallBy(m, reply', now')) ==
            Happen(Happen(w, CallBy(m, reply', now')), CallBy(n, reply, now))
  {
    var p, q := ProcessOf(w, n), ProcessOf(w, m);
    CallsOnStoreCommute(w.cluster, n, p, m, q, reply, now, reply', now');
    var p', q' := Call(w.cluster, n, p, reply, now).1, Call(w.cluster, m, q, reply', now').1;
    assert w.processes[n := p'][m := q'] == w.processes[m := q'][n := p'];
  }

  lemma CallsOnStoreCommute(c: Cluster<Key>, n: Name, p: Process, m: Name, q: Process, reply: Reply, now: int,
      reply': Reply, now': int)
    requires n != m
    ensures var first, second := Call(c, n, p, reply, now), Call(c, m, q, reply', now');
            && Call(first.0, m, q, reply', now').0 == Call(second.0, n, p, reply, now).0
            && Call(first.0, m, q, reply', now').1 == second.1
            && Call(second.0, n, p, reply, now).1 == first.1
  {
    var r, r' := Ask(n, p, now), Ask(m, q, now');
    NamedKeepsEffect(n, None, r, reply);
    NamedKeepsEffect(m, None, r', reply');
    if KeyOf(n, r.key) == KeyOf(m, r'.key) {
      KeyOfInjective(n, r.key, m, r'.key);
    }
    ServesCommute(c, Named(n, r), Named(m, r'), reply, reply');
  }

  lemma ServesCommute<K>(c: Cluster<K>, r: Request<K>, r': Request<K>, reply: Reply, reply': Reply)
    requires r.key != r'.key
    ensures Serve(Serve(c, r, reply).0, r', reply').0 == Serve(Serve(c, r', reply').0, r, reply).0
    ensures Serve(Serve(c, r, reply).0, r', reply').1 == Serve(c, r', reply').1
    ensures Serve(Serve(c, r', reply').0, r, reply).1 == Serve(c, r, reply).1
  {
    var o, o' := ServeOne(Lookup(c.objects, r.key), r, reply).0, ServeOne(Lookup(c.objects, r'.key), r', reply').0;
    PutsCommute(c.objects, r.key, o, r'.key, o');
  }

  lemma PutsCommute<K>(objects: map<K, Object>, k: K, o: Option<Object>, k': K, o': Option<Object>)
    requires k != k'
    ensures Put(Put(objects, k, o), k', o') == Put(Put(objects, k', o'), k, o)
    ensures Lookup(Put(objects, k, o), k') == Lookup(objects, k')
    ensures Lookup(Put(objects, k', o'), k) == Lookup(objects, k)
  {
  }

  predicate CallsOf(n: Name, events: seq<Event>) {
    forall i :: 0 <= i < |events| ==> events[i].CallBy? && events[i].who == n
  }

  lemma {:induction false} CallMovesPast(w: Whole, n: Name, events: seq<Event>, e: Event)
    requires CallsOf(n, events) && e.CallBy? && e.who != n
    ensures Happen(HappenAll(w, events), e) == HappenAll(Happen(w, e), events)
  {
    if |events| > 0 {
      var earlier, last := events[..|events| - 1], events[|events| - 1];
      CallMovesPast(w, n, earlier, e);
      CallsCommute(HappenAll(w, earlier), n, e.who, last.reply, last.now, e.reply, e.now);
    }
  }

  lemma {:induction false} HappenAllAppends(w: Whole, a: seq<Event>, b: seq<Event>)
    ensures HappenAll(w, a + b) == HappenAll(HappenAll(w, a), b)
  {
    if |b| == 0 {
      assert a + b == a;
    } else {
      assert (a + b)[..|a + b| - 1] == a + b[..|b| - 1];
      HappenAllAppends(w, a, b[..|b| - 1]);
    }
  }

  /** Whole passes, or any other stretches of calls, for two resources can be made in either order. */
  lemma {:induction false} PassesCommute(w: Whole, n: Name, a: seq<Event>, m: Name, b: seq<Event>)
    requires n != m && CallsOf(n, a) && CallsOf(m, b)
    ensures HappenAll(w, a + b) == HappenAll(w, b + a)
  {
    HappenAllAppends(w, a, b);
    HappenAllAppends(w, b, a);
    if |b| > 0 {
      var earlier, last := b[..|b| - 1], b[|b| - 1];
      PassesCommute(w, n, a, m, earlier);
      HappenAllAppends(w, a, earlier);
      HappenAllAppends(w, earlier, a);
      CallMovesPast(HappenAll(w, earlier), n, a, last);
    }
  }
}
