/** The one way an effect settles on an outdated view: it reads a memo, changes a source behind it, and
    reads the memo again. The second read overwrites the version the first one recorded, so the run
    queued by the write finds nothing changed and is skipped. */
module OwnWrites {

  import opened Basics
  import opened Computation
  import opened EdgeCounts
  import opened Graphs
  import opened Frames
  import opened Steps
  import opened Refreshing
  import opened Foresight
  import opened Marking
  import opened LaneSteps
  import opened Growth
  import opened Lanes
  import opened Churning
  import opened EffectSteps
  import opened ReactorModule
  import opened Scheduling
  import opened Unfolding

  /** A memo that returns the source `s` unchanged. */
  ghost predicate Echoes(g: Graph, m: NodeId, s: NodeId) {
    && IsSignal(g, s) && Computed(g, m) && m in g.program
    && g.program[m].Get? && g.program[m].node == s && g.program[m].rest.Return?
    && forall v :: g.program[m].rest.result([v]) == v
  }

  lemma EchoIsSource(g: Graph, m: NodeId, s: NodeId)
    requires Inv(g) && Echoes(g, m, s) && Fresh(g, m)
    ensures m in g.cache && s in g.cache && g.cache[m] == g.cache[s]
  {
    FreshKnows(g, m);
    FreshKnows(g, s);
    hide Inv;
    var event := g.past.log[m][0];
    assert [] + [event.value] == [event.value];
    assert Follows(g.program[m].rest, [event.value], g.past.log[m][1..], g.cache[m]);
    assert EventRecorded(g.edges, g.past.hist, m, event);
    assert Current(g, m, s);
  }

  /** Two reads of one node that found different values: the later superseded the earlier. */
  lemma TwoValuesSupersede(e: Edges, hist: map<Stamp, Value>, n: NodeId, first: ReadEvent, second: ReadEvent, superseded: bool)
    requires EventsKept(e, hist, n, [first, second], superseded) && first.tracked && second.tracked
    requires first.node == second.node && first.value != second.value
    ensures superseded
  {
    var events := [first, second];
    assert EventKept(e, hist, n, events[0], superseded) && EventKept(e, hist, n, events[1], superseded);
  }

  /** The body of `n` reads the memo `m` and finds the value of `s`. */
  method ReadEcho(scheduler: Scheduler, n: NodeId, m: NodeId, s: NodeId, v: Value, ghost prior: seq<ReadEvent>) returns (ghost event: ReadEvent)
    requires scheduler.Valid() && scheduler.InBodyOf(n)
    requires EventsKept(scheduler.reactor.E(), scheduler.reactor.past.hist, n, prior, n in scheduler.reactor.superseded)
    requires Layered(scheduler.reactor.program) && Echoes(scheduler.reactor.G(), m, s) && InCache(scheduler.reactor.G(), s, v)
    modifies scheduler.reactor, scheduler`settled
    ensures scheduler.Valid() && scheduler.InBodyOf(n) && scheduler.reactor.program == old(scheduler.reactor.program)
    ensures Echoes(scheduler.reactor.G(), m, s) && InCache(scheduler.reactor.G(), s, v)
    ensures scheduler.reactor.frames == old(scheduler.reactor.frames)
    ensures scheduler.L() == old(scheduler.L()).(superseded := scheduler.reactor.superseded)
    ensures Fresh(scheduler.reactor.G(), m) && ReadRecorded(old(scheduler.reactor.E()), scheduler.reactor.E(), n, m, Ver(scheduler.reactor.G(), m))
    ensures forall st :: InState(old(scheduler.reactor.G()), n, st) ==> InState(scheduler.reactor.G(), n, st)
    ensures event.node == m && event.tracked && event.value == v
    ensures EventsKept(scheduler.reactor.E(), scheduler.reactor.past.hist, n, prior + [event], n in scheduler.reactor.superseded)
  {
    hide Inv, LaneInv, Framed, EventsKept, Layered, Follows, Continued, InCache, Echoes, Readable, WorldOf, Fresh, UpToDate, ReadRecorded, InState;
    ghost var start := scheduler.Now();
    EchoScoped(start.graph, m, s);
    var r, read := scheduler.ReadInBody(n, m, true, prior);
    event := read;
    ReadReturns(r, start, scheduler.Now(), scheduler.running - {n});
    ContinuedFacts(start, scheduler.Now(), scheduler.running - {n}, r.Done?);
    EchoKept(start, scheduler.Now(), scheduler.running - {n}, m, s);
    EchoIsSource(scheduler.reactor.G(), m, s);
    WorldSource(start.graph, scheduler.reactor.G(), s, v);
    SameCached(scheduler.reactor.G(), m, s, v, event.value);
  }

  /** A Clean effect that read only the memo `m` of `s` is told to check, not that it is dirty. */
  lemma OwnWriteMarks(g: Graph, g': Graph, n: NodeId, m: NodeId, s: NodeId, v: Value)
    requires Inv(g) && WrittenAndMarked(g, g', s, v) && Echoes(g, m, s) && Fresh(g, m)
    requires Deps(g.edges, n).Keys == {m} && InState(g, n, Clean)
    ensures InState(g', n, Check)
  {
    hide Inv, Typed, ProgramsScoped, EdgesTyped, CleanClosed, DirtyJustified, Valued, Historic, Acyclic, EdgesBelow, Mirrored, Marked, Echoes, WrittenAndMarked, Fresh, Reaches;
    EchoReads(g, m, s);
    OwnWriteParts(g, g', m, s, v);
    assert m in Deps(g.edges, n);
    assert InState(g, m, Clean) && s != m;
    TwoStepsUp(g.edges, g.state, g'.state, s, m, n);
  }

  lemma OwnWriteParts(g: Graph, g': Graph, m: NodeId, s: NodeId, v: Value)
    requires Inv(g) && WrittenAndMarked(g, g', s, v) && Echoes(g, m, s) && Fresh(g, m)
    ensures Marked(g.edges, g.state, g'.state, s, Dirty) && InState(g, m, Clean) && s != m && Mirrored(g.edges)
  {
    InvParts(g);
    hide Inv, Typed, ProgramsScoped, EdgesTyped, CleanClosed, DirtyJustified, Valued, Historic, Acyclic, EdgesBelow, Mirrored, Marked;
  }

  lemma EchoReads(g: Graph, m: NodeId, s: NodeId)
    requires Inv(g) && Echoes(g, m, s) && Fresh(g, m)
    ensures s in Deps(g.edges, m)
  {
    FreshKnows(g, m);
    hide Inv;
    assert EventRecorded(g.edges, g.past.hist, m, g.past.log[m][0]);
  }

  /** What one tracked read leaves recorded. */
  lemma OneRead(e: Edges, e': Edges, hist: map<Stamp, Value>, n: NodeId, m: NodeId, v: int, prior: seq<ReadEvent>, superseded: bool)
    requires ReadRecorded(e, e', n, m, v) && EventsKept(e, hist, n, prior, superseded)
    requires forall i :: 0 <= i < |prior| ==> prior[i].node == m
    ensures Deps(e', n) == map[m := v]
  {
    forall d | d in Deps(e, n)
      ensures d == m
    {
      assert TracksNode(prior, d);
    }
  }

  lemma OnlyCurrent(g: Graph, n: NodeId, m: NodeId)
    requires Fresh(g, m) && Deps(g.edges, n) == map[m := Ver(g, m)]
    ensures AllCurrent(g, n)
  {
  }

  lemma WasZero(g: Graph, s: NodeId)
    requires InCache(g, s, 0)
    ensures !InCache(g, s, 1)
  {
  }

  /** Everything but the latch, the queue and the record of superseded reads. */
  ghost predicate SameButLatch(l: Lane, l': Lane) {
    l' == l.(queue := l'.queue, scheduled := l'.scheduled, superseded := l'.superseded)
  }

  /** The body of `n`, which has read only `m`, sets `s` from 0 to 1. */
  method OwnWrite(scheduler: Scheduler, n: NodeId, m: NodeId, s: NodeId, ghost prior: seq<ReadEvent>)
    requires scheduler.Valid() && scheduler.InBodyOf(n) && n in scheduler.running
    requires EventsKept(scheduler.reactor.E(), scheduler.reactor.past.hist, n, prior, n in scheduler.reactor.superseded)
    requires Echoes(scheduler.reactor.G(), m, s) && Fresh(scheduler.reactor.G(), m) && InCache(scheduler.reactor.G(), s, 0)
    requires Deps(scheduler.reactor.E(), n).Keys == {m}
    modifies scheduler, scheduler.reactor
    ensures scheduler.Valid() && scheduler.InBodyOf(n) && InCache(scheduler.reactor.G(), s, 1) && Echoes(scheduler.reactor.G(), m, s)
    ensures scheduler.reactor.frames == old(scheduler.reactor.frames) && scheduler.flushDepth == old(scheduler.flushDepth) && scheduler.reactor.program == old(scheduler.reactor.program)
    ensures EventsKept(scheduler.reactor.E(), scheduler.reactor.past.hist, n, prior, n in scheduler.reactor.superseded)
    ensures InState(old(scheduler.reactor.G()), n, Clean) ==> InState(scheduler.reactor.G(), n, Check)
    ensures SameButLatch(old(scheduler.L()), scheduler.L())
  {
    hide Inv, LaneInv, Framed, EventsKept, Layered, Follows, Continued, InCache, Echoes, IsSignal, Fresh, Marked, WrittenAndMarked, InState;
    ghost var before := scheduler.Now();
    EchoSignal(before.graph, m, s);
    WasZero(before.graph, s);
    scheduler.WriteSignal(s, 1, false, Some(n));
    AfterInterruption(before, scheduler.Now(), n, prior);
    ContinuedFacts(before, scheduler.Now(), scheduler.running, true);
    EchoKept(before, scheduler.Now(), scheduler.running, m, s);
    if InState(before.graph, n, Clean) {
      OwnWriteMarks(before.graph, scheduler.reactor.G(), n, m, s, 1);
    }
  }

  /** The first half of the body: `m` is read and `s` set from 0 to 1. */
  method ReadThenWrite(scheduler: Scheduler, n: NodeId, m: NodeId, s: NodeId) returns (ghost first: ReadEvent)
    requires scheduler.Valid() && scheduler.InBodyOf(n) && n in scheduler.running
    requires EventsKept(scheduler.reactor.E(), scheduler.reactor.past.hist, n, [], n in scheduler.reactor.superseded)
    requires Layered(scheduler.reactor.program) && Echoes(scheduler.reactor.G(), m, s) && InCache(scheduler.reactor.G(), s, 0)
    modifies scheduler, scheduler.reactor
    ensures scheduler.Valid() && scheduler.InBodyOf(n) && InCache(scheduler.reactor.G(), s, 1) && Echoes(scheduler.reactor.G(), m, s)
    ensures scheduler.reactor.frames == old(scheduler.reactor.frames) && scheduler.flushDepth == old(scheduler.flushDepth) && scheduler.reactor.program == old(scheduler.reactor.program)
    ensures first.node == m && first.tracked && first.value == 0
    ensures EventsKept(scheduler.reactor.E(), scheduler.reactor.past.hist, n, [first], n in scheduler.reactor.superseded)
    ensures InState(old(scheduler.reactor.G()), n, Clean) ==> InState(scheduler.reactor.G(), n, Check)
    ensures SameButLatch(old(scheduler.L()), scheduler.L())
  {
    hide Inv, LaneInv, Framed, EventsKept, Layered, Follows, Continued, InCache, Echoes, IsSignal, Fresh, ReadRecorded, InState, Scheduler.Orderly;
    ghost var g, superseded := scheduler.reactor.G(), n in scheduler.reactor.superseded;
    first := ReadEcho(scheduler, n, m, s, 0, []);
    assert [] + [first] == [first];
    ghost var g' := scheduler.reactor.G();
    OneRead(g.edges, g'.edges, g.past.hist, n, m, Ver(g', m), [], superseded);
    OwnWrite(scheduler, n, m, s, [first]);
  }

  /** The body of effect `n` reads `m`, sets `s` from 0 to 1 and reads `m` again: its first read is out of
      date at once, but its recorded edge is current, and it is only told to check. */
  method RereadAfterOwnWrite(scheduler: Scheduler, n: NodeId, m: NodeId, s: NodeId) returns (ghost first: ReadEvent, ghost second: ReadEvent)
    requires scheduler.Valid() && scheduler.InBodyOf(n) && n in scheduler.running
    requires EventsKept(scheduler.reactor.E(), scheduler.reactor.past.hist, n, [], n in scheduler.reactor.superseded)
    requires Layered(scheduler.reactor.program) && Echoes(scheduler.reactor.G(), m, s) && InCache(scheduler.reactor.G(), s, 0)
    modifies scheduler, scheduler.reactor
    ensures scheduler.Valid() && InCache(scheduler.reactor.G(), s, 1) && Echoes(scheduler.reactor.G(), m, s) && Fresh(scheduler.reactor.G(), m)
    ensures scheduler.reactor.frames == old(scheduler.reactor.frames) && scheduler.flushDepth == old(scheduler.flushDepth) && scheduler.reactor.program == old(scheduler.reactor.program)
    ensures first.node == m && first.tracked && first.value == 0 && second.node == m && second.tracked && second.value == 1
    ensures EventsKept(scheduler.reactor.E(), scheduler.reactor.past.hist, n, [first, second], true)
    ensures n in scheduler.reactor.superseded && AllCurrent(scheduler.reactor.G(), n)
    ensures InState(old(scheduler.reactor.G()), n, Clean) ==> InState(scheduler.reactor.G(), n, Check)
    ensures SameButLatch(old(scheduler.L()), scheduler.L())
  {
    hide Inv, LaneInv, Framed, EventsKept, Layered, Follows, Continued, InCache, Echoes, IsSignal, Fresh, ReadRecorded, AllCurrent, InState, Scheduler.Orderly;
    first := ReadThenWrite(scheduler, n, m, s);
    ghost var g := scheduler.reactor.G();
    ghost var superseded := n in scheduler.reactor.superseded;
    second := ReadEcho(scheduler, n, m, s, 1, [first]);
    assert [first] + [second] == [first, second];
    ghost var g' := scheduler.reactor.G();
    OneRead(g.edges, g'.edges, g.past.hist, n, m, Ver(g', m), [first], superseded);
    OnlyCurrent(g', n, m);
    TwoValuesSupersede(g'.edges, g'.past.hist, n, first, second, n in scheduler.reactor.superseded);
  }

  lemma ReadReturns(r: Outcome<Value>, a: Moment, b: Moment, held: set<NodeId>)
    requires Layered(a.graph.program) && Continued(a, b, held, r.Done?)
    requires r.Panic? ==> Circular(r.cause, b.graph.program)
    ensures r.Done?
  {
  }

  lemma EchoSignal(g: Graph, m: NodeId, s: NodeId)
    requires Echoes(g, m, s)
    ensures IsSignal(g, s)
  {
  }

  lemma SameCached(g: Graph, m: NodeId, s: NodeId, v: Value, w: Value)
    requires m in g.cache && s in g.cache && g.cache[m] == g.cache[s] && InCache(g, s, v) && InCache(g, m, w)
    ensures w == v
  {
  }

  lemma EchoScoped(g: Graph, m: NodeId, s: NodeId)
    requires Echoes(g, m, s)
    ensures m in Readable(g.meta)
  {
  }

  lemma EchoKept(a: Moment, b: Moment, held: set<NodeId>, m: NodeId, s: NodeId)
    requires Echoes(a.graph, m, s) && Continued(a, b, held, true)
    ensures Echoes(b.graph, m, s) && b.graph.program == a.graph.program
  {
    assert SameKind(a.graph, b.graph, m) && SameKind(a.graph, b.graph, s);
  }

  lemma WorldSource(g: Graph, g': Graph, s: NodeId, v: Value)
    requires WorldOf(g') == WorldOf(g) && InCache(g, s, v) && s in g'.cache
    requires exists m :: Echoes(g, m, s)
    requires exists m :: Echoes(g', m, s)
    ensures InCache(g', s, v)
  {
    assert WorldOf(g).sources[s] == v;
    assert WorldOf(g').sources[s] == g'.cache[s];
  }

  // -------------------------------------------------------------------------------- the whole run

  const S := NodeId(0)
  const M := NodeId(1)
  const N := NodeId(2)

  function Only(env: seq<Value>): Value { if |env| > 0 then env[0] else 0 }

  const ECHO := map[M := Closure(true, Get(S, Return(Only)))]

  /** Reads the memo, changes the source behind it, reads the memo again. */
  const BODY: Body := ReadNode(M, true, Write(S, (env: seq<Value>) => 1, false, ReadNode(M, true, Finish)))

  /** The job queue holds the one run of the one effect. */
  ghost function Waiting(): Lane { Lane([N], {N}, {}, {}, {}, map[N := BODY], map[], {}, {}) }

  ghost predicate Set(g: Graph) {
    && Echoes(g, M, S) && InCache(g, S, 0) && Layered(g.program) && IsEffect(g, N) && g.active == {}
  }

  lemma EchoCells(g: Graph)
    requires g == WithComputed(WithSignal(EmptyGraph(), S, 0), ECHO)
    ensures IsSignal(g, S) && Computed(g, M) && M in Readable(g.meta) && N !in g.meta && InCache(g, S, 0)
    ensures g.program == map[M := Get(S, Return(Only))] && g.active == {}
  {
    hide Each;
    assert Metas(ECHO)[M] == NodeMeta(0, Memo) && Closures(ECHO) == map[M := Get(S, Return(Only))];
    assert EmptyGraph().program + Closures(ECHO) == map[M := Get(S, Return(Only))];
    hide Metas, Closures;
  }

  lemma SetUp(g: Graph)
    requires g == WithComputed(WithSignal(EmptyGraph(), S, 0), ECHO)
    ensures Set(WithEffect(g, N)) && InState(WithEffect(g, N), N, Dirty) && N !in g.meta && BodyScoped(BODY, g)
    ensures Enrolled(EmptyLane(), N, BODY).body == map[N := BODY]
  {
    EchoCells(g);
    hide WithComputed, WithSignal;
    assert Layered(g.program) by {
      assert ReadsBelow(Get(S, Return(Only)), M);
    }
    assert forall v :: Only([v]) == v;
    assert Echoes(WithEffect(g, N), M, S);
    assert BodyScoped(BODY.rest.rest, g) && BodyScoped(BODY.rest, g);
  }

  lemma EchoScope()
    ensures WithSignal(EmptyGraph(), S, 0).meta.Keys == {S} && ECHO.Keys == {M} && EmptyGraph().meta == map[]
    ensures forall n :: n in ECHO ==> Scoped(ECHO[n].comp, Readable(WithSignal(EmptyGraph(), S, 0).meta) + ECHO.Keys)
  {
    assert S in Readable(WithSignal(EmptyGraph(), S, 0).meta);
  }

  method SetUpEffect() returns (scheduler: Scheduler)
    ensures fresh(scheduler) && fresh(scheduler.reactor) && scheduler.Valid() && scheduler.flushDepth == 0 && scheduler.L() == Waiting()
    ensures Set(scheduler.reactor.G()) && InState(scheduler.reactor.G(), N, Dirty) && scheduler.reactor.frames == Bottom
  {
    hide Inv, LaneInv, Framed, Counted, WithSignal, WithComputed, WithEffect, EmptyGraph, Readable, Scoped, BodyScoped, Set, InState, Scheduler.Orderly;
    hide Scheduler.Accounts;
    scheduler := new Scheduler();
    EchoScope();
    scheduler.CreateSignal(S, 0);
    scheduler.CreateComputed(ECHO);
    SetUp(scheduler.reactor.G());
    scheduler.CreateEffect(N, BODY);
    scheduler.Idle();
  }

  /** The lane inside the body of the first run. */
  ghost function Underway(): Lane { Waiting().(queue := [], scheduled := {}, running := {N}, cleanups := map[N := []]) }

  /** The first run, up to its body: the steps `FlushJobs`, `Drain`, `RunScheduled` and `RunWindow` take. */
  method BeginRun(scheduler: Scheduler) returns (saved: nat)
    requires scheduler.Valid() && scheduler.flushDepth == 0 && scheduler.L() == Waiting() && scheduler.reactor.frames == Bottom
    requires Set(scheduler.reactor.G()) && InState(scheduler.reactor.G(), N, Dirty)
    modifies scheduler, scheduler.reactor
    ensures scheduler.Valid() && scheduler.InBodyOf(N) && scheduler.L() == Underway() && scheduler.flushDepth == 1
    ensures scheduler.reactor.frames == Push(Computing(N), Bottom) && InState(scheduler.reactor.G(), N, Clean)
    ensures EventsKept(scheduler.reactor.E(), scheduler.reactor.past.hist, N, [], false)
    ensures SetBut(scheduler.reactor.G(), {N})
  {
    hide Inv, LaneInv, Framed, Counted, Set, InState, EventsKept, SetBut, BodyEntered, MarkTaken;
    hide Scheduler.Accounts;
    ghost var g := scheduler.reactor.G();
    SetFacts(g);
    saved := EnterFirst(scheduler, N);
    EnteredFacts(g, scheduler.reactor.E());
  }

  /** Everything is in place and only `active` is running. */
  ghost predicate SetBut(g: Graph, active: set<NodeId>) {
    Echoes(g, M, S) && InCache(g, S, 0) && Layered(g.program) && IsEffect(g, N) && g.active == active
  }

  lemma SetFacts(g: Graph)
    requires Set(g)
    ensures IsEffect(g, N) && g.active == {}
  {
  }

  lemma TakenFacts(g: Graph)
    requires Set(g)
    ensures IsEffect(MarkTaken(g, N), N) && InState(MarkTaken(g, N), N, Clean)
  {
  }

  lemma EnteredFacts(g: Graph, e': Edges)
    requires Set(g)
    ensures SetBut(BodyEntered(MarkTaken(g, N), e', N), {N}) && InState(BodyEntered(MarkTaken(g, N), e', N), N, Clean)
  {
  }

  lemma LeftFacts(g: Graph, events: seq<ReadEvent>)
    requires InState(g, N, Check) && AllCurrent(g, N) && Echoes(g, M, S) && Fresh(g, M) && IsEffect(g, N)
    ensures var g' := BodyLeft(g, N, events);
            && InState(g', N, Check) && AllCurrent(g', N) && Echoes(g', M, S) && Fresh(g', M)
            && N in g'.past.log && g'.past.log[N] == events && g'.past.hist == g.past.hist && g'.edges == g.edges && g'.cache == g.cache
  {
    var g' := BodyLeft(g, N, events);
    forall d | d in Deps(g'.edges, N)
      ensures Current(g', N, d)
    {
      assert Current(g, N, d);
    }
  }

  lemma SkippedFacts(g: Graph)
    requires Echoes(g, M, S) && Fresh(g, M) && N in g.past.log && IsEffect(g, N)
    ensures var g' := Settled(MarkTaken(g, N), N);
            && Echoes(g', M, S) && Fresh(g', M) && InState(g', N, Clean)
            && N in g'.past.log && g'.past.log[N] == g.past.log[N] && g'.past.hist == g.past.hist && g'.edges == g.edges && g'.cache == g.cache
  {
  }

  /** A read that found 0 is out of date once the memo is 1. */
  lemma FirstReadOutdated(g: Graph, first: ReadEvent, second: ReadEvent)
    requires Inv(g) && Echoes(g, M, S) && Fresh(g, M) && InCache(g, S, 1)
    requires EventsKept(g.edges, g.past.hist, N, [first, second], true) && first.node == M && first.tracked && first.value == 0
    ensures first.version != Ver(g, M) && InCache(g, M, 1)
  {
    EchoIsSource(g, M, S);
    FreshKnows(g, M);
    hide Inv;
    assert EventKept(g.edges, g.past.hist, N, [first, second][0], true);
  }

  /** The body has returned: its effect holds the one job there is. */
  method EndRun(scheduler: Scheduler, saved: nat, ghost first: ReadEvent, ghost second: ReadEvent)
    requires scheduler.Valid() && SameButLatch(Underway(), scheduler.L()) && N in scheduler.reactor.superseded && scheduler.flushDepth == 1
    requires scheduler.reactor.frames == Push(Computing(N), Bottom) && InState(scheduler.reactor.G(), N, Check)
    requires AllCurrent(scheduler.reactor.G(), N) && Echoes(scheduler.reactor.G(), M, S) && Fresh(scheduler.reactor.G(), M)
    requires EventsKept(scheduler.reactor.E(), scheduler.reactor.past.hist, N, [first, second], true)
    requires first.node == M && first.tracked && second.node == M && second.tracked
    modifies scheduler, scheduler.reactor
    ensures scheduler.Valid() && scheduler.flushDepth == 1 && scheduler.reactor.frames == Bottom
    ensures scheduler.reactor.G() == BodyLeft(old(scheduler.reactor.G()), N, [first, second])
    ensures scheduler.L() == Underway().(running := {}, queue := [N], scheduled := {N}, superseded := scheduler.reactor.superseded)
    ensures N in scheduler.reactor.superseded && IsEffect(scheduler.reactor.G(), N)
  {
    hide Inv, LaneInv, Framed, Counted, InState, EventsKept, Continued, Reported, AllCurrent, Fresh, Echoes, Churns;
    hide Scheduler.Accounts, Scheduler.Tokens;
    ghost var g := scheduler.reactor.G();
    BodyFollowed(first, second);
    scheduler.LeaveTracked(N, [first, second], saved);
    scheduler.KnownEffects();
    assert scheduler.body.Keys == {N};
    LeftState(g, [first, second]);
    OneJob(scheduler.reactor.G(), scheduler.reactor.frames, scheduler.L(), N);
  }

  lemma BodyFollowed(first: ReadEvent, second: ReadEvent)
    requires first.node == M && first.tracked && second.node == M && second.tracked
    ensures BodyFollows(BODY, [], [first, second]) && !NeverSplit(BODY)
  {
    assert BodyFollows(BODY.rest.rest, [] + [first.value], [first, second][1..]);
    assert BodyFollows(BODY.rest, [] + [first.value], [first, second][1..]);
    var seen := AfterRead(Seen({}, {}), M, true);
    assert !ReadsApart(BODY.rest.rest, AfterStep(seen, BODY.rest));
  }

  lemma LeftState(g: Graph, events: seq<ReadEvent>)
    requires InState(g, N, Check)
    ensures InState(BodyLeft(g, N, events), N, Check)
  {
  }

  /** The second job: the effect is asked, found unchanged and skipped, and the flush is over. */
  method SkipRerun(scheduler: Scheduler)
    requires scheduler.Valid() && scheduler.flushDepth == 1 && scheduler.reactor.frames == Bottom
    requires scheduler.pendingJobs == [N] && scheduler.running == {} && scheduler.disposed == {} && IsEffect(scheduler.reactor.G(), N)
    requires InState(scheduler.reactor.G(), N, Check) && AllCurrent(scheduler.reactor.G(), N)
    modifies scheduler, scheduler.reactor
    ensures scheduler.Valid() && scheduler.flushDepth == 0 && AtRest(scheduler.reactor.frames, scheduler.L())
    ensures scheduler.reactor.G() == Settled(MarkTaken(old(scheduler.reactor.G()), N), N)
    ensures scheduler.L() == Unlatched(Popped(old(scheduler.L())), N)
  {
    hide Inv, LaneInv, Framed, Counted, InState, WindowedAt, Continued, Moved, AllCurrent, Reported, IsEffect;
    hide Scheduler.Accounts, Scheduler.Tokens;
    var job := scheduler.Pop();
    ghost var l := scheduler.L();
    var live := scheduler.TakeJob(job);
    ghost var taken := scheduler.Now();
    var needed := scheduler.ShouldRun(job, l);
    ContinuedFacts(taken, scheduler.Now(), scheduler.running, true);
    scheduler.CloseFlush();
  }

  lemma EffectBefore(g: Graph, events: seq<ReadEvent>)
    requires IsEffect(BodyLeft(g, N, events), N)
    ensures IsEffect(g, N)
  {
  }

  lemma SameHolds(g: Graph, g': Graph)
    requires g'.cache == g.cache
    ensures InCache(g, S, 1) ==> InCache(g', S, 1)
  {
  }

  lemma EchoSealed(g: Graph)
    requires Typed(g) && Echoes(g, M, S)
    ensures Sealed(g.program, {S, M})
  {
    assert S !in g.program;
    var c := g.program[M];
    assert Tracked(c.rest) && Scoped(c.rest, {S, M});
  }

  lemma AtLast(g: Graph, first: ReadEvent, second: ReadEvent)
    requires Inv(g) && Echoes(g, M, S) && Fresh(g, M) && InCache(g, S, 1)
    requires EventsKept(g.edges, g.past.hist, N, [first, second], true) && first.node == M && first.tracked && first.value == 0
    ensures first.version != Ver(g, M) && InCache(g, M, 1) && Evaluates(WorldOf(g), M, 1)
  {
    FirstReadOutdated(g, first, second);
    InvParts(g);
    hide Inv, ProgramsScoped, EdgesTyped, CleanClosed, DirtyJustified, Valued, Historic, Acyclic, Mirrored, EdgesBelow, EventsKept, Fresh, Echoes, Sealed;
    EchoSealed(g);
    FreshMayBe(g, {S, M}, M);
  }

  /** The effect runs `BODY` once. Its own write queues it again, but the second read overwrote the version
      the first one had recorded, so that run finds nothing changed. At rest its first read is out of
      date: it found 0, and the memo is 1. */
  method OutdatedAtRest() returns (scheduler: Scheduler, ghost first: ReadEvent, ghost second: ReadEvent)
    ensures scheduler.Valid() && scheduler.flushDepth == 0 && AtRest(scheduler.reactor.frames, scheduler.L())
    ensures scheduler.body == map[N := BODY] && scheduler.disposed == {} && scheduler.tainted == {} && N in scheduler.reactor.superseded
    ensures N in scheduler.reactor.past.log && scheduler.reactor.past.log[N] == [first, second]
    ensures first.node == M && first.tracked && first.value == 0 && first.version != Ver(scheduler.reactor.G(), M)
    ensures InCache(scheduler.reactor.G(), M, 1) && Evaluates(WorldOf(scheduler.reactor.G()), M, 1) && !NeverSplit(BODY)
  {
    hide Inv, LaneInv, Framed, Counted, InState, EventsKept, AllCurrent, Fresh, Echoes, InCache, Layered, Set, IsEffect;
    hide Scheduler.Accounts, Scheduler.Tokens;
    scheduler := SetUpEffect();
    var saved := BeginRun(scheduler);
    first, second := RereadAfterOwnWrite(scheduler, N, M, S);
    ghost var inside := scheduler.reactor.G();
    EndRun(scheduler, saved, first, second);
    EffectBefore(inside, [first, second]);
    LeftFacts(inside, [first, second]);
    ghost var left := scheduler.reactor.G();
    SkipRerun(scheduler);
    SkippedFacts(left);
    SameHolds(inside, scheduler.reactor.G());
    AtLast(scheduler.reactor.G(), first, second);
    BodyFollowed(first, second);
  }
}
