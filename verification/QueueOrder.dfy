/** The order of the job queue, seen in the outcome: two effects that write one source, and the one created
    last has the last word. */
module QueueOrder {

  import opened Basics
  import opened Computation
  import opened Graphs
  import opened Frames
  import opened Steps
  import opened Marking
  import opened EdgeCounts
  import opened EffectSteps
  import opened Growth
  import opened Lanes
  import opened LaneSteps
  import opened Churning
  import opened Calm
  import opened ReactorModule
  import opened Scheduling
  import opened Unfolding

  const X := NodeId(0)
  const ONE := NodeId(1)
  const TWO := NodeId(2)

  function Writes(v: Value): Body { Write(X, (env: seq<Value>) => v, false, Finish) }

  const BODIES := map[ONE := Writes(1), TWO := Writes(2)]

  function Number(n: NodeId): Value { if n == ONE then 1 else 2 }

  /** The source and the two effects; nobody observes the source. */
  ghost predicate Setting(g: Graph) {
    IsSignal(g, X) && IsEffect(g, ONE) && IsEffect(g, TWO) && Observers(g.edges, X) == {}
  }

  ghost predicate Queued(l: Lane, queue: seq<NodeId>) {
    && l.queue == queue && l.disposed == {} && l.rerun == {} && l.running == {} && l.tainted == {} && l.body == BODIES
    && forall n :: CleanupsOf(l, n) == []
  }

  lemma SetUp(g: Graph)
    requires g == WithSignal(EmptyGraph(), X, 0)
    ensures BodyScoped(Writes(1), g) && BodyScoped(Writes(2), WithEffect(g, ONE)) && g.meta.Keys == {X}
    ensures var g' := WithEffect(WithEffect(g, ONE), TWO); Setting(g') && InState(g', ONE, Dirty) && InState(g', TWO, Dirty)
    ensures Queued(Born(Born(EmptyLane(), ONE, Writes(1)), TWO, Writes(2)), [ONE, TWO])
  {
  }

  lemma NothingYet()
    ensures EmptyGraph().meta == map[]
  {
  }

  /** The source, then the effect that writes 1, then the one that writes 2. */
  method Build() returns (scheduler: Scheduler)
    ensures fresh(scheduler) && fresh(scheduler.reactor) && scheduler.Valid() && scheduler.flushDepth == 0
    ensures Queued(scheduler.L(), [ONE, TWO]) && Setting(scheduler.reactor.G())
    ensures InState(scheduler.reactor.G(), ONE, Dirty) && InState(scheduler.reactor.G(), TWO, Dirty)
  {
    hide WithSignal, WithEffect, EmptyGraph, BodyScoped, Born, Queued, Setting, InState, Scheduler.Orderly;
    scheduler := new Scheduler();
    NothingYet();
    scheduler.CreateSignal(X, 0);
    SetUp(scheduler.reactor.G());
    Apart(scheduler.reactor.G());
    scheduler.CreateEffect(ONE, Writes(1));
    scheduler.CreateEffect(TWO, Writes(2));
  }

  lemma Apart(g: Graph)
    requires g.meta.Keys == {X}
    ensures ONE !in g.meta && TWO !in WithEffect(g, ONE).meta && ONE !in EmptyLane().disposed
    ensures TWO !in Born(EmptyLane(), ONE, Writes(1)).disposed
  {
  }

  lemma QueuedFacts(l: Lane, n: NodeId, rest: seq<NodeId>)
    requires Queued(l, [n] + rest) && n in BODIES
    ensures l.queue != [] && l.queue[0] == n && n !in l.disposed && CleanupsOf(l, n) == [] && l.body == BODIES
    ensures NeverSplit(BODIES[n]) && BodyFollows(BODIES[n], [], [])
    ensures Queued(Closed(InBody(Windowed(Unlatched(Popped(l), n), n), n), n), rest)
  {
    var l' := Closed(InBody(Windowed(Unlatched(Popped(l), n), n), n), n);
    assert forall m :: CleanupsOf(l', m) == CleanupsOf(l, m);
    assert ([n] + rest)[1..] == rest;
  }

  lemma SettingFacts(g: Graph, n: NodeId)
    requires Setting(g) && n in BODIES
    ensures IsEffect(g, n) && IsSignal(g, X) && Observers(g.edges, X) == {}
  {
  }

  lemma EnteredFacts(g: Graph, e': Edges, n: NodeId, m: NodeId)
    requires Setting(g) && EdgesCleared(g.edges, e', n)
    ensures var g' := BodyEntered(MarkTaken(g, n), e', n);
            Setting(g') && Deps(g'.edges, n) == map[] && (m != n && InState(g, m, Dirty) ==> InState(g', m, Dirty))
  {
  }

  /** The body of one of the two is entered. */
  method Enter(scheduler: Scheduler, n: NodeId, ghost other: NodeId, ghost rest: seq<NodeId>) returns (saved: nat)
    requires scheduler.Valid() && Between(scheduler) && Queued(scheduler.L(), [n] + rest) && n in BODIES && other != n
    requires Setting(scheduler.reactor.G()) && InState(scheduler.reactor.G(), n, Dirty) && scheduler.Used(n) == 0
    modifies scheduler, scheduler.reactor
    ensures scheduler.Valid() && scheduler.InBodyOf(n) && scheduler.flushDepth == 1 && scheduler.reactor.frames == Push(Computing(n), Bottom)
    ensures scheduler.L() == InBody(Windowed(Unlatched(Popped(old(scheduler.L())), n), n), n)
    ensures Setting(scheduler.reactor.G()) && Deps(scheduler.reactor.G().edges, n) == map[]
    ensures old(InState(scheduler.reactor.G(), other, Dirty)) ==> InState(scheduler.reactor.G(), other, Dirty)
    ensures n !in scheduler.reactor.superseded && scheduler.Used(other) == old(scheduler.Used(other))
  {
    hide Inv, LaneInv, Framed, Counted, InState, EventsKept, BodyEntered, MarkTaken, EdgesCleared, Setting, Queued, IsEffect, CleanupsOf;
    hide Scheduler.Accounts, Scheduler.Tokens, Scheduler.Orderly;
    ghost var g := scheduler.reactor.G();
    QueuedFacts(scheduler.L(), n, rest);
    SettingFacts(g, n);
    saved := EnterNext(scheduler, n, other);
    EnteredFacts(g, scheduler.reactor.E(), n, other);
  }

  lemma WrittenFacts(g: Graph, g': Graph, m: NodeId, v: Value)
    requires Setting(g) && (g' == g || (WrittenAndMarked(g, g', X, v) && g'.state == g.state))
    ensures Setting(g') && g'.edges == g.edges && (InState(g, m, Dirty) ==> InState(g', m, Dirty))
  {
    hide Marked;
  }

  /** It writes the source. Nobody observes that, so nothing is queued. */
  method WriteOnce(scheduler: Scheduler, n: NodeId, ghost other: NodeId)
    requires scheduler.Valid() && Setting(scheduler.reactor.G()) && Deps(scheduler.reactor.G().edges, n) == map[]
    requires scheduler.reactor.frames == Push(Computing(n), Bottom)
    modifies scheduler, scheduler.reactor
    ensures scheduler.Valid() && scheduler.L() == old(scheduler.L()) && scheduler.flushDepth == old(scheduler.flushDepth)
    ensures Setting(scheduler.reactor.G()) && InCache(scheduler.reactor.G(), X, Number(n)) && scheduler.reactor.frames == old(scheduler.reactor.frames)
    ensures EventsKept(scheduler.reactor.E(), scheduler.reactor.past.hist, n, [], false)
    ensures old(InState(scheduler.reactor.G(), other, Dirty)) ==> InState(scheduler.reactor.G(), other, Dirty)
    ensures scheduler.Used(other) == old(scheduler.Used(other))
  {
    hide Inv, LaneInv, Framed, Counted, InState, InCache, WrittenAndMarked, Setting, Continued, IsSignal, EventsKept;
    hide Scheduler.Accounts, Scheduler.Tokens, Scheduler.Orderly;
    ghost var g, before := scheduler.reactor.G(), scheduler.Now();
    SettingIs(g);
    scheduler.WriteSignal(X, Number(n), false, Some(n));
    ContinuedFacts(before, scheduler.Now(), scheduler.running, true);
    WrittenFacts(g, scheduler.reactor.G(), other, Number(n));
    NoEventsKept(scheduler.reactor.E(), scheduler.reactor.past.hist, n);
  }

  lemma SettingIs(g: Graph)
    requires Setting(g)
    ensures IsSignal(g, X) && Observers(g.edges, X) == {}
  {
  }

  lemma LeftFacts(g: Graph, n: NodeId, m: NodeId, v: Value)
    requires Setting(g)
    ensures Setting(BodyLeft(g, n, [])) && (InState(g, m, Dirty) ==> InState(BodyLeft(g, n, []), m, Dirty))
    ensures InCache(g, X, v) ==> InCache(BodyLeft(g, n, []), X, v)
  {
  }

  /** One of the two has its turn. */
  method Turn(scheduler: Scheduler, n: NodeId, ghost other: NodeId, ghost rest: seq<NodeId>)
    requires scheduler.Valid() && Between(scheduler) && Queued(scheduler.L(), [n] + rest) && n in BODIES && other != n
    requires Setting(scheduler.reactor.G()) && InState(scheduler.reactor.G(), n, Dirty) && scheduler.Used(n) == 0
    modifies scheduler, scheduler.reactor
    ensures scheduler.Valid() && Between(scheduler) && Queued(scheduler.L(), rest) && Setting(scheduler.reactor.G())
    ensures InCache(scheduler.reactor.G(), X, Number(n)) && scheduler.Used(other) == old(scheduler.Used(other))
    ensures old(InState(scheduler.reactor.G(), other, Dirty)) ==> InState(scheduler.reactor.G(), other, Dirty)
  {
    hide Inv, LaneInv, Framed, Counted, InState, EventsKept, BodyLeft, Churns, InCache, Queued, Setting, CleanupsOf, Closed;
    hide Scheduler.Accounts, Scheduler.Tokens, Scheduler.Orderly, BodyFollows, NeverSplit;
    QueuedFacts(scheduler.L(), n, rest);
    var saved := Enter(scheduler, n, other, rest);
    WriteOnce(scheduler, n, other);
    ghost var g := scheduler.reactor.G();
    scheduler.LeaveTracked(n, [], saved);
    LeftFacts(g, n, other, Number(n));
    IsBetween(scheduler, rest);
  }

  lemma IsBetween(scheduler: Scheduler, rest: seq<NodeId>)
    requires Queued(scheduler.L(), rest)
    ensures scheduler.running == {} && scheduler.pendingJobs == rest
  {
  }

  /** The flush runs both, the one created first first, so the source ends on what the other wrote. */
  method LastWord() returns (scheduler: Scheduler, ghost between: Graph)
    ensures scheduler.Valid() && scheduler.flushDepth == 0 && AtRest(scheduler.reactor.frames, scheduler.L())
    ensures InCache(between, X, 1) && InCache(scheduler.reactor.G(), X, 2)
  {
    hide Inv, LaneInv, Framed, Counted, InState, InCache, Queued, Setting, CleanupsOf;
    hide Scheduler.Accounts, Scheduler.Tokens, Scheduler.Orderly;
    scheduler := Build();
    assert [ONE, TWO] == [ONE] + [TWO] && [TWO] == [TWO] + [];
    Open(scheduler);
    Turn(scheduler, ONE, TWO, [TWO]);
    between := scheduler.reactor.G();
    Turn(scheduler, TWO, ONE, []);
    IsBetween(scheduler, []);
    scheduler.CloseFlush();
    scheduler.Idle();
  }
}
