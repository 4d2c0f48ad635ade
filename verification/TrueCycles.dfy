/** A cycle report word for word: two memos that read one another. */
module TrueCycles {

  import opened Computation
  import opened Graphs
  import opened Frames
  import opened Foresight
  import opened Reports
  import opened Growth
  import opened ReactorModule
  import opened Loops
  import opened Scheduling

  const A := NodeId(0)
  const B := NodeId(1)

  ghost const BOTH := {A, B}

  function First(env: seq<Value>): Value { if |env| > 0 then env[0] else 0 }

  const A_READS: Comp := Get(B, Return(First))
  const B_READS: Comp := Get(A, Return(First))

  const CLOSURES := map[A := Closure(true, A_READS), B := Closure(true, B_READS)]

  ghost function Program(): map<NodeId, Comp> { map[A := A_READS, B := B_READS] }

  /** Neither has run. */
  ghost predicate Untouched(g: Graph) {
    && g.program == Program() && InState(g, A, Dirty) && InState(g, B, Dirty) && A in Readable(g.meta) && !IsSignal(g, A) && !IsSignal(g, B)
  }

  lemma BothWays(w: World, exact: set<NodeId>, d: NodeId)
    ensures MayFind(w, exact, A_READS, [], d) <==> d == B
    ensures MayFind(w, exact, B_READS, [], d) <==> d == A
  {
    assert forall v :: !MayFind(w, exact, Return(First), [] + [v], d);
  }

  lemma IsSealed()
    ensures Sealed(Program(), BOTH)
  {
    assert Tracked(A_READS) && Scoped(A_READS, BOTH) && Tracked(B_READS) && Scoped(B_READS, BOTH);
  }

  lemma BothTrapped(g: Graph)
    requires Untouched(g)
    ensures Trapped(g, TrapOf(BOTH, BOTH))
  {
    IsSealed();
    BothWays(WorldOf(g), BOTH, A);
    BothWays(WorldOf(g), BOTH, B);
    hide MayFind, Sealed;
    assert FindsTrap(WorldOf(g), TrapOf(BOTH, BOTH), A) && FindsTrap(WorldOf(g), TrapOf(BOTH, BOTH), B);
    assert CaughtAt(g, TrapOf(BOTH, BOTH), A) && CaughtAt(g, TrapOf(BOTH, BOTH), B);
  }

  /** A trail from `A` runs `A` and `B` by turns. */
  lemma Alternates(g: Graph, t: Trail)
    requires Untouched(g) && Led(g, BOTH, t)
    ensures !t.Asks? && (t.Enters? && t.node in BOTH ==> t.next.node == if t.node == A then B else A)
  {
    if t.Enters? {
      BothWays(WorldOf(g), BOTH, t.next.node);
    }
  }

  lemma OnlyOnce(rest: seq<NodeId>)
    requires Distinct([A, B] + rest)
    ensures |rest| > 0 ==> rest[0] != A
  {
    if |rest| > 0 {
      var all := [A, B] + rest;
      assert all[0] == A && all[2] == rest[0];
    }
  }

  lemma OnlyReport(g: Graph, path: seq<NodeId>)
    requires Untouched(g) && Told(g, [], A, path)
    ensures path == [A, B, A]
  {
    IsSealed();
    assert Closing(g, BOTH, [], A, path);
    var t: Trail :| t.node == A && Closes(g, BOTH, [], t, path);
    assert [] + Running(t) == Running(t);
    Alternates(g, t);
    hide Untouched;
    assert t.Enters?;
    Alternates(g, t.next);
    assert t.next.Enters?;
    Alternates(g, t.next.next);
    var rest := Running(t.next.next);
    assert Running(t) == [A] + ([B] + rest) == [A, B] + rest;
    OnlyOnce(rest);
    assert rest == [];
  }

  lemma Scopes()
    ensures EmptyGraph().meta == map[]
    ensures forall n :: n in CLOSURES ==> Scoped(CLOSURES[n].comp, Readable(EmptyGraph().meta) + CLOSURES.Keys)
  {
    assert CLOSURES.Keys == BOTH;
  }

  lemma Built(g: Graph)
    requires g == WithComputed(EmptyGraph(), CLOSURES)
    ensures Untouched(g)
  {
    assert CLOSURES.Keys == BOTH;
    assert Closures(CLOSURES) == Program() && EmptyGraph().program + Closures(CLOSURES) == Program();
    BuiltCells(g);
    hide WithComputed, Closures;
  }

  lemma BuiltCells(g: Graph)
    requires g == WithComputed(EmptyGraph(), CLOSURES)
    ensures forall n :: n in BOTH ==> InState(g, n, Dirty) && n in Readable(g.meta) && !IsSignal(g, n)
  {
    hide Closures;
    assert CLOSURES.Keys == BOTH;
    assert forall n :: n in BOTH ==> n in Metas(CLOSURES) && Metas(CLOSURES)[n] == NodeMeta(0, Memo);
    assert forall n :: n in BOTH ==> n in Each(CLOSURES.Keys, Dirty) && Each(CLOSURES.Keys, Dirty)[n] == Dirty;
    hide Metas, Each;
  }

  /** Reading either of two memos that read one another reports the two of them, in the order they ran. */
  method Mutual() returns (r: Outcome<Value>)
    ensures r == Panic(Cycle([A, B, A]))
  {
    hide WithComputed, EmptyGraph, Untouched, Trapped, Told, Readable, Scoped, Scheduler.Orderly, Reportable;
    var scheduler := new Scheduler();
    Scopes();
    scheduler.CreateComputed(CLOSURES);
    ghost var g := scheduler.reactor.G();
    Built(g);
    BothTrapped(g);
    assert A in Readable(g.meta) by {
      Asked(g);
    }
    r := scheduler.ReadNode(A, TrapOf(BOTH, BOTH));
    OnlyReport(g, r.cause.path);
  }

  lemma Asked(g: Graph)
    requires Untouched(g)
    ensures A in Readable(g.meta)
  {
  }
}
