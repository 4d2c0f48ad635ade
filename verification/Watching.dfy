/** A host's view of the whole: a source, a memo and an effect that watches it. */
module Watching {

  import opened Computation
  import opened Graphs
  import opened Frames
  import opened EdgeCounts
  import opened Evolution
  import opened EffectSteps
  import opened Growth
  import opened Lanes
  import opened ReactorModule
  import opened Foresight
  import opened Calm
  import opened Scheduling

  const S := NodeId(0)
  const M := NodeId(1)
  const N := NodeId(2)

  function Doubled(env: seq<Value>): Value { if |env| > 0 then 2 * env[0] else 0 }

  const MEMO := map[M := Closure(true, Get(S, Return(Doubled)))]

  const BODY: Body := ReadNode(M, true, Finish)

  const PROGRAM: map<NodeId, Comp> := map[M := Get(S, Return(Doubled))]

  lemma SetUp(g: Graph)
    requires g == WithComputed(WithSignal(EmptyGraph(), S, 0), MEMO)
    ensures N !in g.meta && BodyScoped(BODY, g) && Ours(WithEffect(g, N), Born(EmptyLane(), N, BODY))
  {
    hide Each;
    ProgramFacts();
    assert Metas(MEMO)[M] == NodeMeta(0, Memo) && Closures(MEMO) == PROGRAM;
    assert EmptyGraph().program + Closures(MEMO) == PROGRAM;
    hide Metas, Closures;
    assert M in Readable(g.meta);
  }

  lemma ProgramFacts()
    ensures AllClosuresTracked(PROGRAM) && Layered(PROGRAM) && CalmBody(BODY) && NeverSplit(BODY)
  {
    assert Tracked(PROGRAM[M]) && ReadsBelow(PROGRAM[M], M);
  }

  lemma MemoScope()
    ensures WithSignal(EmptyGraph(), S, 0).meta.Keys == {S} && MEMO.Keys == {M} && EmptyGraph().meta == map[]
    ensures forall n :: n in MEMO ==> Scoped(MEMO[n].comp, Readable(WithSignal(EmptyGraph(), S, 0).meta) + MEMO.Keys)
  {
    assert S in Readable(WithSignal(EmptyGraph(), S, 0).meta);
  }

  /** The effect has run to the end of its body and saw what the memo is from scratch. */
  ghost predicate Saw(g: Graph) {
    N in g.past.log && |g.past.log[N]| == 1 && g.past.log[N][0].node == M && Evaluates(WorldOf(g), M, g.past.log[N][0].value)
  }

  lemma AtRestSaw(g: Graph, fs: Frames, l: Lane)
    requires Inv(g) && LaneInv(g, fs, l, {}) && AtRest(fs, l) && g.active == {} && EffectKinds(g.meta, l.body.Keys)
    requires l.body == map[N := BODY] && N !in l.disposed && N !in l.tainted && g.program == PROGRAM
    ensures Saw(g)
  {
    ProgramFacts();
    AllTracked(g);
    InvFacts(g);
    hide Inv, LaneInv;
    assert N in l.body.Keys;
    NeverSplitSawFromScratch(g, fs, l, N, g.meta.Keys, 0);
    assert BodyFollows(Finish, [] + [g.past.log[N][0].value], g.past.log[N][1..]);
  }

  lemma InvFacts(g: Graph)
    requires Inv(g)
    ensures forall n, d {:trigger d in Deps(g.edges, n)} :: d in Deps(g.edges, n) ==> d in g.meta
  {
    forall n: NodeId, d: NodeId {:trigger d in Deps(g.edges, n)} | d in Deps(g.edges, n)
      ensures d in g.meta
    {
      assert d in Readable(g.meta);
    }
  }

  /** One effect, its body and its closures those above, and nothing that ever unwound. */
  ghost predicate Ours(g: Graph, l: Lane) {
    && g.program == PROGRAM && IsSignal(g, S) && CalmLane(l)
    && l.body == map[N := BODY] && l.disposed == {} && l.tainted == {}
  }

  /** Builds the source and the memo. */
  method BuildNodes() returns (scheduler: Scheduler)
    ensures fresh(scheduler) && fresh(scheduler.reactor) && scheduler.Valid() && scheduler.flushDepth == 0
    ensures scheduler.reactor.G() == WithComputed(WithSignal(EmptyGraph(), S, 0), MEMO) && scheduler.L() == EmptyLane()
  {
    hide WithSignal, WithComputed, EmptyGraph, Readable, Scoped, Scheduler.Valid;
    scheduler := new Scheduler();
    MemoScope();
    scheduler.CreateSignal(S, 0);
    scheduler.CreateComputed(MEMO);
  }

  /** Builds the three. */
  method Build() returns (scheduler: Scheduler)
    ensures fresh(scheduler) && fresh(scheduler.reactor) && scheduler.Valid() && scheduler.flushDepth == 0
    ensures Ours(scheduler.reactor.G(), scheduler.L())
  {
    hide WithSignal, WithComputed, WithEffect, EmptyGraph, BodyScoped, Born, Ours, Scheduler.Valid;
    scheduler := BuildNodes();
    SetUp(scheduler.reactor.G());
    assert N !in scheduler.L().disposed;
    scheduler.CreateEffect(N, BODY);
  }

  /** A flush of ours returns, and the effect has seen what there is to see. */
  method Settle(scheduler: Scheduler)
    requires scheduler.Valid() && scheduler.flushDepth == 0 && Ours(scheduler.reactor.G(), scheduler.L())
    modifies scheduler, scheduler.reactor
    ensures scheduler.Valid() && scheduler.flushDepth == 0 && Ours(scheduler.reactor.G(), scheduler.L())
    ensures Saw(scheduler.reactor.G()) && InState(scheduler.reactor.G(), N, Clean) && AllCurrent(scheduler.reactor.G(), N)
    ensures WorldOf(scheduler.reactor.G()) == WorldOf(old(scheduler.reactor.G()))
  {
    hide Inv, LaneInv, Framed, Counted, Scheduler.Gauged, Scheduler.Budgeted, Spares, Sparing, Saw, AllCurrent, InState, CalmLane, Guided, WorldOf;
    ghost var g := scheduler.reactor.G();
    ProgramFacts();
    LayeredIsPeaceful(g, scheduler.L());
    var r := scheduler.FlushNow();
    scheduler.Idle();
    AtRestSaw(scheduler.reactor.G(), scheduler.reactor.frames, scheduler.L());
    assert SameKind(g, scheduler.reactor.G(), S);
  }

  lemma StillOurs(a: Moment, b: Moment, held: set<NodeId>)
    requires Ours(a.graph, a.lane) && Continued(a, b, held, true) && b.lane.cleanups == a.lane.cleanups
    ensures Ours(b.graph, b.lane)
  {
    assert SameKind(a.graph, b.graph, S);
    CalmStays(a.lane, b.lane);
  }

  lemma HoldsOn(g: Graph, g': Graph, v: Value)
    requires WorldOf(g') == WorldOf(g) && InCache(g, S, v) && IsSignal(g, S) && IsSignal(g', S)
    ensures InCache(g', S, v)
  {
    assert S in WorldOf(g).sources && WorldOf(g).sources[S] == v;
  }

  /** Lets the effect run, writes the source and lets it run again: both flushes return, and each time the
      effect ends on what the memo is from scratch. */
  method Watch(v: Value) returns (scheduler: Scheduler, ghost g: Graph, ghost g': Graph)
    ensures Saw(g) && Saw(g') && scheduler.Valid() && scheduler.flushDepth == 0 && g' == scheduler.reactor.G()
    ensures InState(g', N, Clean) && AllCurrent(g', N) && scheduler.tainted == {} && InCache(g', S, v)
  {
    hide Inv, LaneInv, Framed, Counted, Scheduler.Accounts, Saw, AllCurrent, InState, CalmLane, Continued;
    scheduler := Build();
    Settle(scheduler);
    g := scheduler.reactor.G();
    ghost var before := scheduler.Now();
    scheduler.WriteSignal(S, v, false);
    StillOurs(before, scheduler.Now(), scheduler.running);
    ghost var written := scheduler.reactor.G();
    Settle(scheduler);
    g' := scheduler.reactor.G();
    HoldsOn(written, g', v);
  }
}
