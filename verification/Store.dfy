/** The API server as the operator's client sees it: an object whose state every request, and everything that happens
    between requests, updates in place. */
module Store {
  import opened Objects
  import opened Names
  import opened Server
  import opened Process
  import opened Soundness
  import opened Safety
  import opened Exclusion
  import opened Isolation

  /** One request, the tick it was made in, and its answer. */
  datatype Exchange = Exchange(request: Request<Key>, tick: Tick<Key>, answer: Response)

  function OutsideAll(c: Cluster<Key>, env: seq<Action<Key>>): Cluster<Key> {
    if |env| == 0 then c else Outside(OutsideAll(c, env[..|env| - 1]), env[|env| - 1])
  }

  function Exchanged(c: Cluster<Key>, request: Request<Key>, tick: Tick<Key>): (Cluster<Key>, Response) {
    Serve(OutsideAll(c, tick.env), request, tick.reply)
  }

  /** The answer is of the kind the request is about. */
  predicate AnswerIsTyped(e: Exchange) {
    e.answer.Accepted? && (e.request.Create? || e.request.Get? || e.request.Update?) ==>
      (e.request.Create? ==> KindOf(e.request.payload) == e.request.key.kind) ==>
        KindOf(e.answer.payload) == e.request.key.kind
  }

  /** The exchanges are what happens to the cluster on its way from the first state to the second. */
  predicate Replays(c: Cluster<Key>, es: seq<Exchange>, after: Cluster<Key>)
    decreases |es|
  {
    if |es| == 0 then c == after
    else
      var served := Exchanged(c, es[0].request, es[0].tick);
      es[0].answer == served.1 && Replays(served.0, es[1..], after)
  }

  function Worlds(env: seq<Action<Key>>): seq<Event> {
    seq(|env|, i requires 0 <= i < |env| => World(env[i]))
  }

  /** An exchange as events of the whole operator: what the world did, and the call. */
  function Events(n: Name, t: Tick<Key>): seq<Event> {
    Worlds(t.env) + [CallBy(n, t.reply, t.now)]
  }

  lemma {:induction false} WorldsHappen(w: Whole, env: seq<Action<Key>>)
    ensures HappenAll(w, Worlds(env)) == w.(cluster := OutsideAll(w.cluster, env))
  {
    if |env| > 0 {
      var worlds, earlier := Worlds(env), env[..|env| - 1];
      assert worlds[..|worlds| - 1] == Worlds(earlier);
      WorldsHappen(w, earlier);
    }
  }

  lemma LastHappens(w: Whole, events: seq<Event>, e: Event)
    ensures HappenAll(w, events + [e]) == Happen(HappenAll(w, events), e)
  {
    assert (events + [e])[..|events|] == events;
  }

  // ---- The order of calls ----

  /** The state after one tick, in which the process for `n` makes a call. */
  function AfterTick(w: Whole, n: Name, t: Tick<Key>): Whole {
    Happen(w.(cluster := OutsideAll(w.cluster, t.env)), CallBy(n, t.reply, t.now))
  }

  /** Everything that has happened when the processes have made their calls in this order. */
  function Timeline(weather: nat -> Tick<Key>, callers: seq<Name>): seq<Event> {
    if |callers| == 0 then []
    else
      var last := |callers| - 1;
      Timeline(weather, callers[..last]) + Events(callers[last], weather(last))
  }

  /** What it comes to. */
  function Outcome(weather: nat -> Tick<Key>, callers: seq<Name>): Whole {
    if |callers| == 0 then START
    else
      var last := |callers| - 1;
      AfterTick(Outcome(weather, callers[..last]), callers[last], weather(last))
  }

  /** How many of the calls started a pass. */
  function PassesBegun(weather: nat -> Tick<Key>, callers: seq<Name>): nat {
    if |callers| == 0 then 0
    else
      var earlier, last := callers[..|callers| - 1], callers[|callers| - 1];
      PassesBegun(weather, earlier) + (if ProcessOf(Outcome(weather, earlier), last).Resting? then 1 else 0)
  }

  lemma TickHappens(run: seq<Event>, n: Name, t: Tick<Key>)
    ensures HappenAll(START, run + Events(n, t)) == AfterTick(HappenAll(START, run), n, t)
  {
    HappenAllAppends(START, run, Events(n, t));
    LastHappens(HappenAll(START, run), Worlds(t.env), CallBy(n, t.reply, t.now));
    WorldsHappen(HappenAll(START, run), t.env);
  }

  lemma {:induction false} TimelineHappens(weather: nat -> Tick<Key>, callers: seq<Name>)
    ensures HappenAll(START, Timeline(weather, callers)) == Outcome(weather, callers)
  {
    if |callers| > 0 {
      var last := |callers| - 1;
      TimelineHappens(weather, callers[..last]);
      TickHappens(Timeline(weather, callers[..last]), callers[last], weather(last));
    }
  }

  lemma AnswersAreTyped(c: Cluster<Key>, request: Request<Key>, tick: Tick<Key>)
    requires WellTyped(OutsideAll(c, tick.env))
    ensures AnswerIsTyped(Exchange(request, tick, Exchanged(c, request, tick).1))
  {
  }

  lemma {:induction false} OutsideAllKeepsTypes(c: Cluster<Key>, env: seq<Action<Key>>)
    requires WellTyped(c)
    ensures WellTyped(OutsideAll(c, env))
  {
    if |env| > 0 {
      OutsideAllKeepsTypes(c, env[..|env| - 1]);
      OutsideKeepsTypes(OutsideAll(c, env[..|env| - 1]), env[|env| - 1]);
    }
  }

  /** What accounting for an exchange comes to. */
  lemma ExchangeSettles(w: Whole, n: Name, e: Exchange)
    requires e.request == Named(n, Ask(n, ProcessOf(w, n), e.tick.now))
    requires e.answer == Exchanged(w.cluster, e.request, e.tick).1
    ensures AfterTick(w, n, e.tick) ==
            Whole(Exchanged(w.cluster, e.request, e.tick).0,
                  w.processes[n := Resume(n, ProcessOf(w, n), e.answer, e.tick.now)])
  {
  }

  lemma OutcomeIsTyped(weather: nat -> Tick<Key>, callers: seq<Name>, e: Exchange)
    requires e.answer == Exchanged(Outcome(weather, callers).cluster, e.request, e.tick).1
    ensures AnswerIsTyped(e)
  {
    var w := Outcome(weather, callers);
    TimelineHappens(weather, callers);
    WholeRunsAreTyped(Timeline(weather, callers));
    OutsideAllKeepsTypes(w.cluster, e.tick.env);
    AnswersAreTyped(w.cluster, e.request, e.tick);
  }

  lemma OutcomeSnoc(weather: nat -> Tick<Key>, callers: seq<Name>, n: Name)
    ensures var w := Outcome(weather, callers);
            && Outcome(weather, callers + [n]) == AfterTick(w, n, weather(|callers|))
            && PassesBegun(weather, callers + [n]) ==
               PassesBegun(weather, callers) + (if ProcessOf(w, n).Resting? then 1 else 0)
  {
    assert (callers + [n])[..|callers|] == callers;
  }

  /** The exchanges take the cluster from one state and time to another. */
  predicate Timely(weather: nat -> Tick<Key>, c: Cluster<Key>, from: nat, es: seq<Exchange>,
                   after: Cluster<Key>, until: nat)
    decreases |es|
  {
    if |es| == 0 then c == after && from == until
    else
      var served := Exchanged(c, es[0].request, weather(from));
      && es[0].tick == weather(from) && es[0].answer == served.1
      && Timely(weather, served.0, from + 1, es[1..], after, until)
  }

  lemma {:induction false} TimelySnoc(weather: nat -> Tick<Key>, c: Cluster<Key>, from: nat, es: seq<Exchange>,
                                      middle: Cluster<Key>, until: nat, request: Request<Key>)
    requires Timely(weather, c, from, es, middle, until)
    ensures var served := Exchanged(middle, request, weather(until));
            Timely(weather, c, from, es + [Exchange(request, weather(until), served.1)], served.0, until + 1)
    decreases |es|
  {
    var served := Exchanged(middle, request, weather(until));
    var e := Exchange(request, weather(until), served.1);
    if |es| == 0 {
      assert (es + [e])[1..] == [];
    } else {
      assert (es + [e])[1..] == es[1..] + [e];
      TimelySnoc(weather, Exchanged(c, es[0].request, weather(from)).0, from + 1, es[1..], middle, until, request);
    }
  }

  class ApiServer {
    var cluster: Cluster<Key>
    var clock: nat
    /** What happens in each tick: the environment's actions, how the call goes, and the time. */
    const weather: nat -> Tick<Key>

    /** Whose process made each call so far, what that comes to, and how many passes it has started. */
    ghost var callers: seq<Name>
    ghost var settled: Whole
    ghost var passes: nat

    /** The exchanges not yet accounted for as calls of a process. */
    ghost var pending: seq<Exchange>

    ghost predicate Kept()
      reads `callers, `settled, `passes
    {
      settled == Outcome(weather, callers) && passes == PassesBegun(weather, callers)
    }

    ghost predicate Due()
      reads `callers, `settled, `pending, `cluster, `clock
    {
      Timely(weather, settled.cluster, |callers|, pending, cluster, clock)
    }

    ghost predicate Valid()
      reads this
    {
      Kept() && Due()
    }

    /** Nothing is left to account for. */
    ghost predicate Idle()
      reads this
    {
      Valid() && pending == []
    }

    ghost function ProcessFor(n: Name): Process
      reads this
    {
      ProcessOf(settled, n)
    }

    function Now(): int
      reads this
    {
      weather(clock).now
    }

    /** Nothing is left to account for, and the process for `n` has got to the given point. */
    ghost predicate At(n: Name, p: Process)
      reads this
    {
      Idle() && ProcessFor(n) == p
    }

    /** The process for `n` has been going on with its pass: it has made all the calls, and none of them started one. */
    twostate predicate Worked(n: Name)
      reads this
    {
      && Idle() && passes == old(passes) && Called(n)
      && settled.processes == old(settled.processes)[n := ProcessFor(n)]
    }

    /** All new calls are those of the process for `n`. */
    twostate predicate Called(n: Name)
      reads this
    {
      && |old(callers)| <= |callers| && callers[..|old(callers)|] == old(callers)
      && (forall i :: |old(callers)| <= i < |callers| ==> callers[i] == n)
    }

    constructor (weather: nat -> Tick<Key>)
      ensures Idle() && callers == [] && clock == 0 && this.weather == weather
    {
      cluster, clock := Cluster(map[], 0), 0;
      this.weather := weather;
      callers, settled, passes, pending := [], START, 0, [];
    }

    /** What happens before the request is served. */
    method Suffer(env: seq<Action<Key>>)
      modifies `cluster
      ensures cluster == OutsideAll(old(cluster), env)
    {
      var i := 0;
      assert env[..0] == [];
      while i < |env|
        invariant 0 <= i <= |env|
        invariant cluster == OutsideAll(old(cluster), env[..i])
      {
        assert env[..i + 1][..i] == env[..i];
        if Allowed(env[i]) {
          cluster := Act(cluster, env[i]);
        }
        i := i + 1;
      }
      assert env[..i] == env;
    }

    /** Any request of any client. */
    method Handle(request: Request<Key>) returns (answer: Response)
      requires Valid()
      modifies `cluster, `clock, `pending
      ensures Valid() && clock == old(clock) + 1
      ensures (cluster, answer) == Exchanged(old(cluster), request, weather(old(clock)))
      ensures pending == old(pending) + [Exchange(request, weather(old(clock)), answer)]
    {
      hide Outcome, PassesBegun;
      var tick := weather(clock);
      Suffer(tick.env);
      var served := Serve(cluster, request, tick.reply);
      cluster, answer := served.0, served.1;
      clock := clock + 1;
      TimelySnoc(weather, settled.cluster, |callers|, pending, old(cluster), old(clock), request);
      pending := pending + [Exchange(request, tick, answer)];
    }

    /** The oldest pending exchange was the call the process for `n` had to make next. */
    ghost method Account(n: Name)
      requires Valid() && pending != []
      requires pending[0].request == Named(n, Ask(n, ProcessFor(n), pending[0].tick.now))
      modifies `callers, `settled, `passes, `pending
      ensures AnswerIsTyped(old(pending[0]))
      ensures Valid() && pending == old(pending[1..]) && callers == old(callers) + [n]
      ensures passes == old(passes) + (if old(ProcessFor(n)).Resting? then 1 else 0)
      ensures var e := old(pending[0]);
              settled.processes == old(settled.processes)[n := Resume(n, old(ProcessFor(n)), e.answer, e.tick.now)]
    {
      var e := pending[0];
      OutcomeIsTyped(weather, callers, e);
      OutcomeSnoc(weather, callers, n);
      ExchangeSettles(settled, n, e);
      passes := passes + if ProcessFor(n).Resting? then 1 else 0;
      callers := callers + [n];
      settled := AfterTick(settled, n, e.tick);
      pending := pending[1..];
    }

    /** The next request of the process for `n`: an operator that makes only such requests follows the step machine.
        What the request did to the cluster is in the timeline, as `Handle` does it. */
    method Send(ghost n: Name, request: Request<Key>) returns (answer: Response)
      requires Idle() && request == Named(n, Ask(n, ProcessFor(n), Now()))
      modifies this
      ensures Idle() && clock == old(clock) + 1 && callers == old(callers) + [n]
      ensures passes == old(passes) + (if old(ProcessFor(n)).Resting? then 1 else 0)
      ensures AnswerIsTyped(Exchange(request, weather(old(clock)), answer))
      ensures settled.processes == old(settled.processes)[n := Resume(n, old(ProcessFor(n)), answer, old(Now()))]
    {
      answer := Handle(request);
      Account(n);
    }
  }

  /** Whatever such an operator has done so far, every resource is in a reachable state of its step machine, with all
      the guarantees that hold there. */
  lemma IdleServerIsSafe(server: ApiServer, n: Name)
    requires server.Idle()
    ensures var s := ShareState(n, Timeline(server.weather, server.callers));
            && s.cluster == View(server.cluster, n) && s.process == server.ProcessFor(n)
            && Sound(n, s) && SafeState(s) && ApartState(s)
  {
    TimelineHappens(server.weather, server.callers);
    EveryResourceIsSafe(n, Timeline(server.weather, server.callers));
  }
}
