/** A cycle report without a cycle: from scratch both nodes evaluate, but a read that goes by the edges of
    an earlier run reports one, and so does every retry. */
module SpuriousCycles {

  import opened Basics
  import opened Computation
  import opened Graphs
  import opened Frames
  import opened Steps
  import opened Evolution
  import opened Lanes
  import opened Foresight
  import opened Marking
  import opened Growth
  import opened EdgeCounts
  import opened ReactorModule
  import opened Loops
  import opened Scheduling

  const S := NodeId(0)
  const T := NodeId(1)
  const A := NodeId(2)
  const B := NodeId(3)

  ghost const NODES := {S, T, A, B}

  function First(env: seq<Value>): Value { if |env| > 0 then env[0] else 0 }

  function Second(env: seq<Value>): Value { if |env| > 1 then env[1] else 0 }

  /** `S` is the source, and the memo `T` passes its value on. `A` reads `B` while `T` is 0, and `B` reads `A`
      otherwise: since `T` is a memo, a write to `S` leaves both in Check. */
  const T_READS: Comp := Get(S, Return(First))
  const A_READS: Comp := Get(T, Branch((env: seq<Value>) => First(env) == 0, Get(B, Return(Second)), Return((env: seq<Value>) => 5)))
  const B_READS: Comp := Get(T, Branch((env: seq<Value>) => First(env) == 0, Return((env: seq<Value>) => 7), Get(A, Return(Second))))

  const CLOSURES := map[T := Closure(true, T_READS), A := Closure(true, A_READS), B := Closure(true, B_READS)]

  ghost function Program(): map<NodeId, Comp> { map[T := T_READS, A := A_READS, B := B_READS] }

  ghost function At(v: Value): World { World(map[S := v], Program()) }

  lemma TEvaluates(v: Value, fuel: nat)
    requires fuel > 0
    ensures EvalNode(At(v), T, fuel) == Some(v)
  {
    assert [] + [v] == [v];
    assert Eval(At(v), T_READS, [], fuel - 1) == Eval(At(v), Return(First), [v], fuel - 1);
  }

  /** The one of `A` and `B` that does not need the other. */
  lemma LeafEvaluates(v: Value, fuel: nat)
    requires fuel > 1
    ensures if v == 0 then EvalNode(At(v), B, fuel) == Some(7) else EvalNode(At(v), A, fuel) == Some(5)
  {
    TEvaluates(v, fuel - 1);
    assert [] + [v] == [v];
    assert Eval(At(v), B_READS, [], fuel - 1) == Eval(At(v), B_READS.rest, [v], fuel - 1);
    assert Eval(At(v), A_READS, [], fuel - 1) == Eval(At(v), A_READS.rest, [v], fuel - 1);
  }

  lemma OtherEvaluates(v: Value, fuel: nat)
    requires fuel > 2
    ensures if v == 0 then EvalNode(At(v), A, fuel) == Some(7) else EvalNode(At(v), B, fuel) == Some(5)
  {
    var w := At(v);
    TEvaluates(v, fuel - 1);
    LeafEvaluates(v, fuel - 1);
    assert [] + [v] == [v];
    if v == 0 {
      assert Eval(w, A_READS, [], fuel - 1) == Eval(w, A_READS.rest, [v], fuel - 1);
      assert Eval(w, A_READS.rest, [v], fuel - 1) == Eval(w, A_READS.rest.yes, [v], fuel - 1);
      assert Eval(w, A_READS.rest.yes, [v], fuel - 1) == Eval(w, Return(Second), [v] + [7], fuel - 1);
    } else {
      assert Eval(w, B_READS, [], fuel - 1) == Eval(w, B_READS.rest, [v], fuel - 1);
      assert Eval(w, B_READS.rest, [v], fuel - 1) == Eval(w, B_READS.rest.no, [v], fuel - 1);
      assert Eval(w, B_READS.rest.no, [v], fuel - 1) == Eval(w, Return(Second), [v] + [5], fuel - 1);
    }
  }

  ghost function Meant(n: NodeId, v: Value): Value
    requires n in NODES
  {
    if n == S || n == T then v else if v == 0 then 7 else 5
  }

  /** From scratch everything evaluates, whatever the source holds. */
  lemma AllEvaluate(v: Value, n: NodeId)
    requires n in NODES
    ensures Evaluates(At(v), n, Meant(n, v))
  {
    TEvaluates(v, 3);
    LeafEvaluates(v, 3);
    OtherEvaluates(v, 3);
    assert EvalNode(At(v), n, 3) == Some(Meant(n, v));
  }

  lemma IsSealed()
    ensures Sealed(Program(), NODES)
  {
    assert Tracked(T_READS) && Scoped(T_READS, NODES);
    forall c | c in {A_READS.rest.yes, A_READS.rest.no, B_READS.rest.yes, B_READS.rest.no}
      ensures Tracked(c) && Scoped(c, NODES)
    {
    }
    assert Tracked(A_READS.rest) && Scoped(A_READS.rest, NODES);
    assert Tracked(B_READS.rest) && Scoped(B_READS.rest, NODES);
  }

  /** What a read made from scratch finds is the only value there is. */
  lemma OnlyValue(v: Value, n: NodeId, u: Value)
    requires n in NODES && MayBe(At(v), NODES, n, u)
    ensures u == Meant(n, v)
  {
    AllEvaluate(v, n);
    EvaluatesDeterministic(At(v), n, u, Meant(n, v));
  }

  // ----------------------------------------------------------------------------- the first read

  /** While the source is 0 nothing leads back. */
  ghost function AtZero(): Guide {
    Guide((n: NodeId) => if n == S then 0 else if n == T then 1 else if n == B then 2 else 3, (n: NodeId) => n in NODES, NODES, {})
  }

  lemma ZeroFinds(n: NodeId, d: NodeId)
    requires n in Program() && MayFind(At(0), NODES, Program()[n], [], d)
    ensures Lower(AtZero(), n, d)
  {
    var w := At(0);
    if n == T {
      assert d != S ==> exists u :: MayBe(w, NODES, S, u) && MayFind(w, NODES, Return(First), [] + [u], d);
    } else {
      var rest := if n == A then A_READS.rest else B_READS.rest;
      if d != T {
        var u :| MayBe(w, NODES, T, u) && MayFind(w, NODES, rest, [] + [u], d);
        OnlyValue(0, T, u);
        assert First([] + [u]) == 0;
        if n == A {
          assert MayFind(w, NODES, Get(B, Return(Second)), [] + [u], d);
        } else {
          assert MayFind(w, NODES, B_READS.rest.yes, [] + [u], d);
        }
      }
    }
  }

  lemma ZeroIsGuided(g: Graph)
    requires WorldOf(g) == At(0) && g.program == Program() && forall n :: !InState(g, n, Check)
    ensures Guided(g, AtZero()) && AtZero().reach(A)
  {
    IsSealed();
    hide MayFind, Sealed, Program;
    forall n: NodeId, d: NodeId {:trigger Leads(g, NODES, n, d)} | Leads(g, NODES, n, d)
      ensures Lower(AtZero(), n, d)
    {
      ZeroFinds(n, d);
    }
  }

  /** What an up-to-date node of the program has recorded. */
  lemma RecordsAt(g: Graph, n: NodeId, v: Value)
    requires Inv(g) && g.program == Program() && WorldOf(g) == At(v) && Fresh(g, n) && n in Program()
    ensures n in g.past.log && n in g.cache && Follows(Program()[n], [], g.past.log[n], g.cache[n])
    ensures forall i :: 0 <= i < |g.past.log[n]| ==>
              var event := g.past.log[n][i];
              event.tracked && event.node in NODES && event.value == Meant(event.node, v) && event.node in Deps(g.edges, n) && Fresh(g, event.node)
    ensures forall d {:trigger d in Deps(g.edges, n)} :: d in Deps(g.edges, n) ==> TracksNode(g.past.log[n], d)
  {
    InvParts(g);
    IsSealed();
    FreshKnows(g, n);
    hide Inv, ProgramsScoped, EdgesTyped, CleanClosed, DirtyJustified, Valued, Historic, Acyclic, Mirrored, EdgesBelow, Fresh, MayBe;
    hide Program, Meant, At, Follows, Scoped, Tracked;
    var events := g.past.log[n];
    TrackedEvents(g.program[n], [], events, g.cache[n]);
    FollowsScoped(g.program[n], [], events, g.cache[n], NODES);
    forall i | 0 <= i < |events|
      ensures events[i].value == Meant(events[i].node, v) && events[i].node in Deps(g.edges, n) && Fresh(g, events[i].node)
    {
      var d := events[i].node;
      assert EventRecorded(g.edges, g.past.hist, n, events[i]);
      assert Current(g, n, d);
      FreshKnows(g, d);
      FreshMayBe(g, NODES, d);
      OnlyValue(v, d, events[i].value);
    }
  }

  /** After the first read every node has recorded its reads. */
  ghost predicate AllRead(g: Graph) {
    && Fresh(g, T) && Fresh(g, A) && Fresh(g, B)
    && Deps(g.edges, T).Keys == {S} && Deps(g.edges, A).Keys == {T, B} && Deps(g.edges, B).Keys == {T}
  }

  lemma FirstReadRecords(g: Graph)
    requires Inv(g) && g.program == Program() && WorldOf(g) == At(0) && Fresh(g, A)
    ensures AllRead(g)
  {
    hide Inv, Fresh;
    RecordsAt(g, A, 0);
    ReadsOfA(g.past.log[A], g.cache[A]);
    var a := g.past.log[A];
    assert a[0].node == T && a[1].node == B;
    assert Fresh(g, T) && Fresh(g, B) && T in Deps(g.edges, A) && B in Deps(g.edges, A);
    RecordsAt(g, B, 0);
    ReadsOfB(g.past.log[B], g.cache[B]);
    assert g.past.log[B][0].node == T;
    RecordsAt(g, T, 0);
    ReadsOfT(g.past.log[T], g.cache[T]);
    assert g.past.log[T][0].node == S;
  }

  lemma ReadsOfT(events: seq<ReadEvent>, v: Value)
    requires Follows(T_READS, [], events, v)
    ensures |events| == 1 && events[0].node == S
  {
    assert Follows(Return(First), [] + [events[0].value], events[1..], v);
  }

  lemma ReadsOfA(events: seq<ReadEvent>, v: Value)
    requires Follows(A_READS, [], events, v) && (|events| > 0 && events[0].node == T ==> events[0].value == 0)
    ensures |events| == 2 && events[0].node == T && events[1].node == B
  {
    var env := [] + [events[0].value];
    assert Follows(A_READS.rest, env, events[1..], v);
    assert First(env) == 0;
    assert Follows(Get(B, Return(Second)), env, events[1..], v);
    assert Follows(Return(Second), env + [events[1..][0].value], events[1..][1..], v);
  }

  lemma ReadsOfB(events: seq<ReadEvent>, v: Value)
    requires Follows(B_READS, [], events, v) && (|events| > 0 && events[0].node == T ==> events[0].value == 0)
    ensures |events| == 1 && events[0].node == T
  {
    var env := [] + [events[0].value];
    assert Follows(B_READS.rest, env, events[1..], v);
    assert First(env) == 0;
    assert Follows(B_READS.rest.yes, env, events[1..], v);
  }

  // -------------------------------------------------------------------------------- the write

  ghost function BackAndForth(): Guide { TrapOf(NODES, {A, B}) }

  lemma OneFinds()
    ensures MayFind(At(1), NODES, B_READS, [], A)
  {
    AllEvaluate(1, T);
    assert MayBe(At(1), NODES, T, 1);
    assert First([] + [1]) == 1;
    assert MayFind(At(1), NODES, Get(A, Return(Second)), [] + [1], A);
    assert MayFind(At(1), NODES, B_READS.rest, [] + [1], A);
  }

  lemma WrittenWorld(g: Graph, g': Graph)
    requires IsSignal(g, S) && WorldOf(g) == At(0) && WrittenAndMarked(g, g', S, 1)
    ensures WorldOf(g') == At(1)
  {
    hide Marked;
    var w, w' := WorldOf(g), WorldOf(g');
    forall n
      ensures n in w'.sources <==> n == S
      ensures n in w'.sources ==> w'.sources[n] == 1
    {
      assert n in w.sources <==> n in At(0).sources;
    }
    assert w'.sources == map[S := 1];
  }

  /** The write leaves `A` and `B` to be checked. */
  lemma WriteMarks(e: Edges, before: States, after: States)
    requires Mirrored(e) && Marked(e, before, after, S, Dirty) && {T, A, B} <= before.Keys
    requires before[T] == Clean && before[A] == Clean && before[B] == Clean
    requires Deps(e, T).Keys == {S} && Deps(e, A).Keys == {T, B} && Deps(e, B).Keys == {T}
    ensures {A, B} <= after.Keys && after[A] == Check && after[B] == Check
  {
    hide Mirrored, Marked;
    assert S in Deps(e, T) && T in Deps(e, A) && T in Deps(e, B);
    TwoStepsUp(e, before, after, S, T, A);
    TwoStepsUp(e, before, after, S, T, B);
  }

  lemma WriteFacts(g: Graph, g': Graph)
    requires WrittenAndMarked(g, g', S, 1)
    ensures g'.edges == g.edges && g'.program == g.program && Marked(g.edges, g.state, g'.state, S, Dirty)
    ensures forall n :: n != S && IsSignal(g', n) ==> IsSignal(g, n)
  {
    hide Marked;
  }

  lemma CleanStates(g: Graph)
    requires Typed(g) && AllRead(g) && g.program == Program()
    ensures {T, A, B} <= g.state.Keys && g.state[T] == Clean && g.state[A] == Clean && g.state[B] == Clean
    ensures Deps(g.edges, T).Keys == {S} && Deps(g.edges, A).Keys == {T, B} && Deps(g.edges, B).Keys == {T}
    ensures !IsSignal(g, A) && !IsSignal(g, B)
  {
    hide Deps;
    assert Computed(g, T) && Computed(g, A) && Computed(g, B);
  }

  /** Where the table of `A` iterates over `B` first, the two wait for one another. */
  lemma WriteTraps(g: Graph, g': Graph)
    requires Inv(g) && AllRead(g) && WrittenAndMarked(g, g', S, 1) && g.program == Program() && WorldOf(g) == At(0) && IsSignal(g, S)
    requires Order(g.edges, A) != [] && Order(g.edges, A)[0] == B
    ensures Trapped(g', BackAndForth())
  {
    WrittenWorld(g, g');
    WriteFacts(g, g');
    InvParts(g);
    hide Inv, ProgramsScoped, EdgesTyped, CleanClosed, DirtyJustified, Valued, Historic, Acyclic, EdgesBelow, Mirrored, Marked, WrittenAndMarked;
    hide Trapped, Order, WorldOf;
    hide Typed, AllRead;
    CleanStates(g);
    WriteMarks(g.edges, g.state, g'.state);
    WriteTrap(g');
  }

  lemma WriteTrap(g: Graph)
    requires g.program == Program() && WorldOf(g) == At(1) && InState(g, A, Check) && InState(g, B, Check) && !IsSignal(g, A) && !IsSignal(g, B)
    requires Order(g.edges, A) != [] && Order(g.edges, A)[0] == B
    ensures Trapped(g, BackAndForth())
  {
    OneFinds();
    IsSealed();
    hide MayFind, Sealed, WorldOf, Order;
    assert CaughtAt(g, BackAndForth(), A);
    assert FindsTrap(At(1), BackAndForth(), B);
    assert CaughtAt(g, BackAndForth(), B);
  }

  lemma BackAndForthLoops(g: Graph)
    requires g.program == Program() && WorldOf(g) == At(1) && InState(g, A, Check) && InState(g, B, Check) && B in Deps(g.edges, A)
    ensures InLoop(g, NODES, A)
  {
    OneFinds();
    hide MayFind, WorldOf, Deps;
    assert Leads(g, NODES, A, B) && Leads(g, NODES, B, A);
    hide Leads;
    assert B in {A, B} && LeadsInto(g, NODES, A, {A, B}) && LeadsInto(g, NODES, B, {A, B});
    assert A in {A, B} && Loop(g, NODES, {A, B});
  }

  /** In whatever order they iterate, the tables of `A` and `B` now lead back to one another. */
  lemma WriteLoops(g: Graph, g': Graph)
    requires Inv(g) && AllRead(g) && WrittenAndMarked(g, g', S, 1) && g.program == Program() && WorldOf(g) == At(0) && IsSignal(g, S)
    ensures InLoop(g', NODES, A) && g'.program == Program() && WorldOf(g') == At(1)
  {
    WrittenWorld(g, g');
    WriteFacts(g, g');
    InvParts(g);
    hide Inv, ProgramsScoped, EdgesTyped, CleanClosed, DirtyJustified, Valued, Historic, Acyclic, EdgesBelow, Mirrored, Marked, WrittenAndMarked;
    hide Typed, AllRead, WorldOf, InLoop;
    CleanStates(g);
    WriteMarks(g.edges, g.state, g'.state);
    assert B in Deps(g.edges, A);
    BackAndForthLoops(g');
  }

  // ---------------------------------------------------------------------------------- the run

  ghost function Start(): Graph { WithComputed(WithSignal(EmptyGraph(), S, 0), CLOSURES) }

  lemma ClosureKeys()
    ensures CLOSURES.Keys == {T, A, B} && Closures(CLOSURES) == Program()
    ensures forall n :: n in CLOSURES ==> KindOf(CLOSURES[n]).Memo?
  {
  }

  lemma StartKinds(metas: map<NodeId, NodeMeta>)
    requires metas.Keys == {T, A, B} && forall n :: n in metas ==> metas[n].kind.Memo?
    ensures var meta := EmptyGraph().meta[S := NodeMeta(0, Signal)] + metas;
            S in meta && meta[S].kind.Signal? && A in Readable(meta) && forall n :: n in meta && meta[n].kind.Signal? ==> n == S
  {
  }

  lemma StartProgram()
    ensures Start().program == Program() && IsSignal(Start(), S) && A in Readable(Start().meta)
    ensures forall n :: IsSignal(Start(), n) ==> n == S
    ensures S in Start().cache && Start().cache[S] == 0
  {
    ClosureKeys();
    hide Each, Metas, Closures;
    var metas := Metas(CLOSURES);
    assert forall n :: n in metas ==> metas[n].kind.Memo?;
    StartKinds(metas);
    assert EmptyGraph().program + Closures(CLOSURES) == Program();
  }

  lemma Built(g: Graph)
    requires g == Start()
    ensures g.program == Program() && WorldOf(g) == At(0) && IsSignal(g, S) && A in Readable(g.meta) && forall n :: !InState(g, n, Check)
    ensures AllClosuresTracked(g.program)
  {
    StartProgram();
    assert forall n :: !InState(g, n, Check) by {
      hide Metas, Closures;
    }
    hide Start;
    IsSealed();
    assert forall n :: n in Program() ==> n in NODES;
    assert WorldOf(g).sources == map[S := 0];
  }

  lemma ClosuresScoped()
    ensures forall n :: n in CLOSURES ==> Scoped(CLOSURES[n].comp, Readable(WithSignal(EmptyGraph(), S, 0).meta) + CLOSURES.Keys)
  {
    IsSealed();
    var nodes := Readable(WithSignal(EmptyGraph(), S, 0).meta) + CLOSURES.Keys;
    assert NODES == nodes;
    forall n | n in CLOSURES
      ensures Scoped(CLOSURES[n].comp, nodes)
    {
      assert n in Program() && Program()[n] == CLOSURES[n].comp;
    }
  }

  method Build() returns (scheduler: Scheduler)
    ensures fresh(scheduler) && fresh(scheduler.reactor) && scheduler.Valid() && scheduler.flushDepth == 0
    ensures scheduler.reactor.G() == Start()
  {
    hide Inv, LaneInv, Framed, Counted, WithSignal, WithComputed, EmptyGraph, Readable, Scoped, IsSignal;
    scheduler := new Scheduler();
    NothingYet();
    scheduler.CreateSignal(S, 0);
    ClosuresScoped();
    scheduler.CreateComputed(CLOSURES);
  }

  /** The source is 0 and everything has been read once. */
  method ReadAtZero() returns (scheduler: Scheduler, first: Outcome<Value>)
    ensures fresh(scheduler) && fresh(scheduler.reactor) && scheduler.Valid() && scheduler.flushDepth == 0
    ensures first == Done(7) && AllRead(scheduler.reactor.G()) && WorldOf(scheduler.reactor.G()) == At(0)
    ensures scheduler.reactor.program == Program() && IsSignal(scheduler.reactor.G(), S) && A in Readable(scheduler.reactor.meta)
  {
    hide Inv, LaneInv, Framed, Counted, AllRead, Guided, Evaluates, WorldOf, At, Evolves, Readable, AllClosuresTracked, Fresh, IsSignal, Start;
    hide Scheduler.Accounts, TrackedCone, Meant;
    scheduler := Build();
    ghost var g := scheduler.reactor.G();
    Built(g);
    ZeroIsGuided(g);
    first := scheduler.ReadNode(A, AtZero());
    ghost var g' := scheduler.reactor.G();
    KindsStay(g, g');
    IsSeven(first.value);
    FirstReadRecords(g');
  }

  lemma IsSeven(v: Value)
    requires Evaluates(At(0), A, v)
    ensures v == 7
  {
    AllEvaluate(0, A);
    EvaluatesDeterministic(At(0), A, v, 7);
  }

  lemma NothingYet()
    ensures EmptyGraph().meta == map[] && WithSignal(EmptyGraph(), S, 0).meta.Keys == {S}
  {
  }

  lemma KindsStay(g: Graph, g': Graph)
    requires Evolves(g, g', {}, {}, true) && IsSignal(g, S) && A in Readable(g.meta)
    ensures IsSignal(g', S) && A in Readable(g'.meta) && g'.program == g.program
  {
    assert EvolvesAt(g, g', {}, {}, true, S) && EvolvesAt(g, g', {}, {}, true, A);
  }

  lemma KindStays(g: Graph, g': Graph, ok: bool)
    requires Evolves(g, g', {}, {}, ok) && A in Readable(g.meta)
    ensures A in Readable(g'.meta)
  {
    assert EvolvesAt(g, g', {}, {}, ok, A);
  }

  lemma HoldsZero(g: Graph)
    requires WorldOf(g) == At(0) && IsSignal(g, S)
    ensures !InCache(g, S, 1)
  {
    if S in g.cache {
      assert WorldOf(g).sources[S] == g.cache[S];
    }
  }

  /** Read `A`, set the source to 1, and read `A` again, twice. From scratch `A` and `B` are now 5, but
      some iteration order traps them, and if the table of `A` iterates over `B` first both of the later
      reads panic. */
  method SpuriousCycle() returns (first: Outcome<Value>, second: Outcome<Value>, third: Outcome<Value>, ghost written: Graph)
    ensures first == Done(7) && WorldOf(written) == At(1) && Evaluates(At(1), A, 5) && Evaluates(At(1), B, 5)
    ensures TrapsUnderSomeOrder(written, NODES, A) && !HasGuide(written, NODES, A)
    ensures Order(written.edges, A) != [] && Order(written.edges, A)[0] == B ==> second.Panic? && third.Panic?
  {
    var scheduler;
    scheduler, first := ReadAtZero();
    hide Inv, LaneInv, Framed, Counted, AllRead, Evaluates, WorldOf, At, Evolves, Readable, Marked, Trapped, Fresh, Order, WrittenAndMarked;
    hide HasGuide, TrapsUnderSomeOrder, Sealed, IsSignal, InLoop, Scheduler.Orderly, Reactor.Valid;
    scheduler.Parts({});
    ghost var g := scheduler.reactor.G();
    AllEvaluate(1, A);
    AllEvaluate(1, B);
    HoldsZero(g);
    scheduler.WriteSignal(S, 1, false);
    written := scheduler.reactor.G();
    AfterWrite(g, written);
    scheduler.Idle();
    scheduler.Parts({});
    NeverGuided(written);
    second, third := ReadTwice(scheduler);
  }

  /** Reads `A` and retries: a trap catches both reads. */
  method ReadTwice(scheduler: Scheduler) returns (second: Outcome<Value>, third: Outcome<Value>)
    requires scheduler.Valid() && scheduler.flushDepth == 0 && A in Readable(scheduler.reactor.meta)
    modifies scheduler.reactor, scheduler
    ensures Trapped(old(scheduler.reactor.G()), BackAndForth()) ==> second.Panic? && third.Panic?
  {
    hide Evaluates, WorldOf, Evolves, Readable, Trapped, TrackedCone, AllClosuresTracked, Scheduler.Valid;
    ghost var g := scheduler.reactor.G();
    second := scheduler.ReadNode(A, BackAndForth());
    KindStays(g, scheduler.reactor.G(), second.Done?);
    third := scheduler.ReadNode(A, BackAndForth());
  }

  lemma AfterWrite(g: Graph, g': Graph)
    requires Inv(g) && AllRead(g) && WrittenAndMarked(g, g', S, 1) && g.program == Program() && WorldOf(g) == At(0) && IsSignal(g, S)
    requires A in Readable(g.meta)
    ensures InLoop(g', NODES, A) && g'.program == Program() && WorldOf(g') == At(1) && A in Readable(g'.meta)
    ensures Order(g'.edges, A) != [] && Order(g'.edges, A)[0] == B ==> Trapped(g', BackAndForth())
  {
    WriteLoops(g, g');
    WriteKinds(g, g', S, 1);
    if Order(g'.edges, A) != [] && Order(g'.edges, A)[0] == B {
      WriteTraps(g, g');
    }
  }

  lemma NeverGuided(g: Graph)
    requires Inv(g) && g.active == {} && g.program == Program() && InLoop(g, NODES, A)
    ensures TrapsUnderSomeOrder(g, NODES, A) && !HasGuide(g, NODES, A)
  {
    IsSealed();
    LoopTraps(g, NODES, A);
    GuideIffNoLoop(g, NODES, A);
  }
}
