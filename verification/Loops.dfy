/** Exactly when reads return whatever order dependency tables iterate in: when no stale nodes lead to
    one another in a loop. And an input where from-scratch evaluation has no cycle but reads report one. */
module Loops {

  import opened Computation
  import opened Graphs
  import opened Steps
  import opened Foresight
  import opened Reports
  import opened ReactorModule

  /** Every node of `nodes` leads to another of them. */
  ghost predicate Loop(g: Graph, exact: set<NodeId>, nodes: set<NodeId>) {
    forall n :: n in nodes ==> LeadsInto(g, exact, n, nodes)
  }

  ghost predicate LeadsInto(g: Graph, exact: set<NodeId>, n: NodeId, nodes: set<NodeId>) {
    exists d :: d in nodes && Leads(g, exact, n, d)
  }

  /** Takes the nodes that lead to none of the rest off, one by one, and ranks them; what remains is a
      loop. */
  lemma {:induction false} PeelLoops(g: Graph, exact: set<NodeId>, nodes: set<NodeId>) returns (rest: set<NodeId>, level: map<NodeId, nat>)
    ensures rest <= nodes && Loop(g, exact, rest) && level.Keys == nodes - rest
    ensures forall n :: n in level ==> level[n] > 0
    ensures forall n, d {:trigger Leads(g, exact, n, d)} :: n in level && Leads(g, exact, n, d) ==>
              d !in rest && (d in nodes ==> d in level && level[d] < level[n])
    decreases |nodes|
  {
    hide Leads;
    if m :| m in nodes && !LeadsInto(g, exact, m, nodes) {
      var level0;
      rest, level0 := PeelLoops(g, exact, nodes - {m});
      level := (map n | n in level0 :: level0[n] + 1)[m := 1];
    } else {
      rest, level := nodes, map[];
    }
  }

  /** A node that a rank reaches is in no loop. */
  lemma {:induction false} GuidedIsNoLoop(g: Graph, guide: Guide, n: NodeId, nodes: set<NodeId>)
    requires Guided(g, guide) && guide.reach(n) && Loop(g, guide.exact, nodes)
    ensures n !in nodes
    decreases guide.level(n)
  {
    if n in nodes {
      assert LeadsInto(g, guide.exact, n, nodes);
      var d :| d in nodes && Leads(g, guide.exact, n, d);
      assert Lower(guide, n, d);
      GuidedIsNoLoop(g, guide, d, nodes);
    }
  }

  ghost predicate HasGuide(g: Graph, exact: set<NodeId>, n: NodeId) {
    exists guide: Guide :: Guided(g, guide) && guide.exact == exact && guide.reach(n)
  }

  ghost predicate InLoop(g: Graph, exact: set<NodeId>, n: NodeId) {
    exists nodes :: n in nodes && Loop(g, exact, nodes)
  }

  /** A rank that descends from `n` on exists exactly when `n` is in no loop. */
  lemma GuideIffNoLoop(g: Graph, exact: set<NodeId>, n: NodeId)
    requires Sealed(g.program, exact)
    ensures HasGuide(g, exact, n) <==> !InLoop(g, exact, n)
  {
    if HasGuide(g, exact, n) {
      var guide: Guide :| Guided(g, guide) && guide.exact == exact && guide.reach(n);
      forall nodes | Loop(g, exact, nodes)
        ensures n !in nodes
      {
        GuidedIsNoLoop(g, guide, n, nodes);
      }
    }
    if !InLoop(g, exact, n) {
      var rest, level := PeelLoops(g, exact, g.program.Keys);
      var guide := Guide((x: NodeId) => if x in level then level[x] else 0, (x: NodeId) => x !in rest, exact, {});
      forall x: NodeId, d: NodeId {:trigger Leads(g, exact, x, d)} | guide.reach(x) && Leads(g, exact, x, d)
        ensures Lower(guide, x, d)
      {
        assert x in level;
      }
      assert Guided(g, guide);
    }
  }

  // ----------------------------------------------------------------------------- reports are of loops

  ghost function Nodes(t: Trail): set<NodeId> { if t.Met? then {t.node} else {t.node} + Nodes(t.next) }

  lemma {:induction false} RunningOnTrail(t: Trail)
    ensures t.node in Nodes(t) && End(t) in Nodes(t) && forall n :: n in Running(t) ==> n in Nodes(t)
  {
    if !t.Met? {
      RunningOnTrail(t.next);
    }
  }

  /** A node on the trail leads to another, unless it is only where the trail ends. */
  lemma {:induction false} TrailLeads(g: Graph, exact: set<NodeId>, t: Trail, n: NodeId, nodes: set<NodeId>)
    requires Led(g, exact, t) && n in Nodes(t) && (n == End(t) ==> n in Running(t)) && Nodes(t) <= nodes
    ensures LeadsInto(g, exact, n, nodes)
  {
    RunningOnTrail(t);
    if t.Met? {
      assert false;
    }
    RunningOnTrail(t.next);
    if n == t.node {
      hide MayFind;
      assert Leads(g, exact, n, t.next.node);
    } else {
      TrailLeads(g, exact, t.next, n, nodes);
    }
  }

  /** No report without a loop: the node read, and every node the report names, is in a loop of what stale
      nodes recorded and what their closures read over the current sources. */
  lemma ReportIsOfLoop(g: Graph, exact: set<NodeId>, n: NodeId, path: seq<NodeId>)
    requires Told(g, [], n, path) && Sealed(g.program, exact)
    ensures InLoop(g, exact, n) && forall m :: m in path ==> InLoop(g, exact, m)
  {
    hide Led, InLoop, Sealed, IsStackCycle;
    assert Closing(g, exact, [], n, path);
    var t: Trail :| t.node == n && Closes(g, exact, [], t, path);
    assert [] + Running(t) == Running(t);
    ReportOnTrail(t, path);
    RunningOnTrail(t);
    TrailLoops(g, exact, t);
  }

  lemma ReportOnTrail(t: Trail, path: seq<NodeId>)
    requires IsStackCycle(Running(t), End(t), path)
    ensures End(t) in Running(t) && forall m :: m in path ==> m in Nodes(t)
  {
    RunningOnTrail(t);
    hide Nodes, Running, End;
    var start :| 0 <= start < |Running(t)| && Running(t)[start] == End(t) && path == Running(t)[start..] + [End(t)];
  }

  lemma TrailLoops(g: Graph, exact: set<NodeId>, t: Trail)
    requires Led(g, exact, t) && End(t) in Running(t)
    ensures forall m :: m in Nodes(t) ==> InLoop(g, exact, m)
  {
    hide Led, LeadsInto, Nodes, Running, End;
    forall m | m in Nodes(t)
      ensures LeadsInto(g, exact, m, Nodes(t))
    {
      TrailLeads(g, exact, t, m, Nodes(t));
    }
    assert Loop(g, exact, Nodes(t));
  }

  // -------------------------------------------------------------------------------- iteration order

  /** The same graph, its dependency tables iterating in another order. */
  ghost predicate Reordered(g: Graph, g': Graph) {
    g' == g.(edges := g.edges.(order := g'.edges.order))
  }

  ghost predicate TrapsUnderSomeOrder(g: Graph, exact: set<NodeId>, n: NodeId) {
    exists g', guide: Guide :: Reordered(g, g') && Inv(g') && Trapped(g', guide) && guide.exact == exact && n in guide.trap
  }

  /** A sealed node leads to sealed nodes only. */
  lemma LeadsSealed(g: Graph, exact: set<NodeId>, n: NodeId, d: NodeId)
    requires Inv(g) && g.active == {} && Sealed(g.program, exact) && n in exact && Leads(g, exact, n, d)
    ensures d in exact
  {
    InvParts(g);
    hide Inv, ProgramsScoped, EdgesTyped, CleanClosed, DirtyJustified, Historic, Acyclic, Mirrored, EdgesBelow;
    if MayFind(WorldOf(g), exact, g.program[n], [], d) {
      MayFindScoped(WorldOf(g), exact, g.program[n], [], d, exact);
    } else {
      assert Explained(g, n);
      var events := g.past.log[n];
      FollowsScoped(g.program[n], [], events, g.cache[n], exact);
      assert TracksNode(events, d);
    }
  }

  /** `s` with `d`, one of its elements, moved to the front. */
  ghost function MovedFirst(s: seq<NodeId>, d: NodeId): (r: seq<NodeId>)
    ensures |r| > 0 && r[0] == d && forall x :: x in r <==> x in s || x == d
  {
    [d] + Without(s, d)
  }

  ghost predicate RecordsInto(e: Edges, n: NodeId, nodes: set<NodeId>) { exists d :: d in nodes && d in Deps(e, n) }

  /** Every table that has an edge into `nodes` iterates over one first. */
  ghost function LoopFirst(e: Edges, nodes: set<NodeId>): map<NodeId, seq<NodeId>> {
    map n | n in e.order :: if RecordsInto(e, n, nodes) then (var d :| d in nodes && d in Deps(e, n); MovedFirst(e.order[n], d)) else e.order[n]
  }

  lemma ReorderedTables(g: Graph, g': Graph)
    requires Reordered(g, g')
    ensures forall n :: Deps(g'.edges, n) == Deps(g.edges, n) && Observers(g'.edges, n) == Observers(g.edges, n)
    ensures forall n, d :: Current(g', n, d) <==> Current(g, n, d)
    ensures forall n, d :: Moved(g', n, d) <==> Moved(g, n, d)
  {
  }

  lemma ReorderedKeepsInv(g: Graph, g': Graph)
    requires Inv(g) && Reordered(g, g')
    requires forall n, x :: x in Order(g'.edges, n) <==> x in Order(g.edges, n)
    ensures Inv(g')
  {
    InvParts(g);
    hide Inv, Typed, ProgramsScoped, EdgesTyped, CleanClosed, DirtyJustified, Valued, Historic, Acyclic, EdgesBelow, Mirrored, Order;
    ReorderedMirrored(g.edges, g'.edges);
    ReorderedCells(g, g');
    ReorderedEdges(g, g');
    ReorderedStates(g, g');
    ReorderedValued(g, g');
    InvWhole(g');
  }

  lemma ReorderedCells(g: Graph, g': Graph)
    requires Typed(g) && ProgramsScoped(g) && Historic(g) && Reordered(g, g')
    ensures Typed(g') && ProgramsScoped(g') && Historic(g') && g'.past == g.past && g'.meta == g.meta
  {
    hide Scoped;
  }

  lemma ReorderedEdges(g: Graph, g': Graph)
    requires EdgesTyped(g) && EdgesBelow(g) && Acyclic(g.edges, g.past.rank) && Reordered(g, g')
    ensures EdgesTyped(g') && EdgesBelow(g') && Acyclic(g'.edges, g'.past.rank)
  {
    hide Layered, Readable;
    forall n, d {:trigger d in Deps(g'.edges, n)} | d in Deps(g'.edges, n)
      ensures d in Deps(g.edges, n)
    {
    }
  }

  lemma ReorderedStates(g: Graph, g': Graph)
    requires CleanClosed(g) && DirtyJustified(g) && Reordered(g, g')
    ensures CleanClosed(g') && DirtyJustified(g')
  {
    ReorderedTables(g, g');
    hide Current, Moved, Deps;
    forall n
      ensures AllCurrent(g, n) ==> AllCurrent(g', n)
      ensures Warranted(g, n) ==> Warranted(g', n)
    {
    }
  }

  lemma ReorderedMirrored(e: Edges, e': Edges)
    requires Mirrored(e) && e' == e.(order := e'.order) && forall n, x :: x in Order(e', n) <==> x in Order(e, n)
    ensures Mirrored(e')
  {
    forall n: NodeId, d: NodeId {:trigger d in Deps(e', n)} {:trigger n in Observers(e', d)} {:trigger d in Order(e', n)}
      ensures d in Deps(e', n) <==> n in Observers(e', d)
      ensures d in Deps(e', n) <==> d in Order(e', n)
    {
      assert d in Deps(e, n) <==> n in Observers(e, d);
      assert d in Deps(e, n) <==> d in Order(e, n);
    }
  }

  lemma ReorderedValued(g: Graph, g': Graph)
    requires Valued(g) && Reordered(g, g')
    ensures Valued(g')
  {
    forall n | Computed(g', n) && n in g'.state && g'.state[n] != Dirty && n !in g'.active
      ensures Explained(g', n)
    {
      assert Explained(g, n);
      RecordedElsewhere(g.edges, g'.edges, g.past.hist, g'.past.hist, n, g.past.log[n]);
    }
  }

  ghost function TrapOf(exact: set<NodeId>, nodes: set<NodeId>): Guide {
    Guide((x: NodeId) => 0, (x: NodeId) => false, exact, nodes)
  }

  /** `g'` iterates over an edge into `nodes` first wherever there is one. */
  ghost predicate LoopComesFirst(g: Graph, g': Graph, nodes: set<NodeId>) {
    forall n :: RecordsInto(g.edges, n, nodes) ==> Order(g'.edges, n) != [] && Order(g'.edges, n)[0] in nodes
  }

  lemma LeadCatches(g: Graph, g': Graph, exact: set<NodeId>, nodes: set<NodeId>, n: NodeId, d: NodeId)
    requires Typed(g) && Reordered(g, g') && LoopComesFirst(g, g', nodes)
    requires Leads(g, exact, n, d) && d in nodes
    ensures CaughtAt(g', TrapOf(exact, nodes), n)
  {
    hide MayFind, Order;
    assert WorldOf(g') == WorldOf(g);
    assert Computed(g, n);
    if !MayFind(WorldOf(g), exact, g.program[n], [], d) {
      assert RecordsInto(g.edges, n, nodes);
    }
  }

  /** Iterating over an edge into the loop first makes the loop a trap. */
  lemma LoopFirstTraps(g: Graph, g': Graph, exact: set<NodeId>, nodes: set<NodeId>)
    requires Inv(g) && Sealed(g.program, exact) && nodes <= exact && Loop(g, exact, nodes)
    requires Reordered(g, g') && LoopComesFirst(g, g', nodes)
    ensures Trapped(g', TrapOf(exact, nodes))
  {
    InvParts(g);
    hide Inv, Typed, ProgramsScoped, EdgesTyped, CleanClosed, DirtyJustified, Valued, Historic, Acyclic, Mirrored, EdgesBelow;
    hide Sealed, Leads, CaughtAt, LoopComesFirst;
    forall n | n in nodes
      ensures CaughtAt(g', TrapOf(exact, nodes), n)
    {
      assert LeadsInto(g, exact, n, nodes);
      var d :| d in nodes && Leads(g, exact, n, d);
      LeadCatches(g, g', exact, nodes, n, d);
    }
  }

  /** The sealed part of a loop is a loop. */
  lemma SealedLoop(g: Graph, exact: set<NodeId>, nodes: set<NodeId>)
    requires Inv(g) && g.active == {} && Sealed(g.program, exact) && Loop(g, exact, nodes)
    ensures Loop(g, exact, nodes * exact)
  {
    hide Inv, Leads, Sealed;
    forall n | n in nodes * exact
      ensures LeadsInto(g, exact, n, nodes * exact)
    {
      assert LeadsInto(g, exact, n, nodes);
      var d :| d in nodes && Leads(g, exact, n, d);
      LeadsSealed(g, exact, n, d);
    }
  }

  lemma LoopIsTrap(g: Graph, exact: set<NodeId>, nodes: set<NodeId>) returns (g': Graph)
    requires Inv(g) && Sealed(g.program, exact) && nodes <= exact && Loop(g, exact, nodes)
    ensures Reordered(g, g') && Inv(g') && Trapped(g', TrapOf(exact, nodes))
  {
    g' := g.(edges := g.edges.(order := LoopFirst(g.edges, nodes)));
    LoopFirstTables(g, nodes);
    hide Inv, Trapped, Sealed, LoopFirst, Order, Loop, LoopComesFirst;
    ReorderedKeepsInv(g, g');
    LoopFirstTraps(g, g', exact, nodes);
  }

  lemma LoopTraps(g: Graph, exact: set<NodeId>, n: NodeId)
    requires Inv(g) && g.active == {} && Sealed(g.program, exact) && n in exact && InLoop(g, exact, n)
    ensures TrapsUnderSomeOrder(g, exact, n)
  {
    var nodes :| n in nodes && Loop(g, exact, nodes);
    hide Inv, Trapped, Sealed, Loop, Reordered;
    SealedLoop(g, exact, nodes);
    var g' := LoopIsTrap(g, exact, nodes * exact);
    assert n in TrapOf(exact, nodes * exact).trap;
  }

  lemma LoopFirstTables(g: Graph, nodes: set<NodeId>)
    requires Inv(g)
    ensures var g' := g.(edges := g.edges.(order := LoopFirst(g.edges, nodes)));
            && (forall n, x :: x in Order(g'.edges, n) <==> x in Order(g.edges, n))
            && LoopComesFirst(g, g', nodes)
  {
    InvParts(g);
    hide Inv, Typed, ProgramsScoped, EdgesTyped, CleanClosed, DirtyJustified, Valued, Historic, Acyclic, EdgesBelow;
    var e' := g.edges.(order := LoopFirst(g.edges, nodes));
    forall n
      ensures forall x :: x in Order(e', n) <==> x in Order(g.edges, n)
      ensures RecordsInto(g.edges, n, nodes) ==> Order(e', n) != [] && Order(e', n)[0] in nodes
    {
      forall d | d in Deps(g.edges, n)
        ensures d in Order(g.edges, n)
      {
      }
    }
  }

  lemma GuidedReordered(g: Graph, g': Graph, guide: Guide)
    requires Guided(g, guide) && Reordered(g, g')
    ensures Guided(g', guide)
  {
    assert WorldOf(g') == WorldOf(g);
    hide MayFind;
    forall n: NodeId, d: NodeId {:trigger Leads(g', guide.exact, n, d)} | guide.reach(n) && Leads(g', guide.exact, n, d)
      ensures Lower(guide, n, d)
    {
      assert Leads(g, guide.exact, n, d);
    }
  }

  /** A trap is a loop. */
  lemma TrapIsLoop(g: Graph, guide: Guide)
    requires Inv(g) && g.active == {} && Trapped(g, guide)
    ensures Loop(g, guide.exact, guide.trap)
  {
    InvParts(g);
    hide Inv, ProgramsScoped, EdgesTyped, CleanClosed, DirtyJustified, Valued, Historic, Acyclic, EdgesBelow, MayFind;
    forall n | n in guide.trap
      ensures LeadsInto(g, guide.exact, n, guide.trap)
    {
      TrappedAt(g, guide, n);
      if AsksTrap(g, guide, n) {
        var d := Order(g.edges, n)[0];
        assert d in Order(g.edges, n);
        assert Leads(g, guide.exact, n, d);
      } else {
        var d :| d in guide.trap && MayFind(WorldOf(g), guide.exact, g.program[n], [], d);
        assert Leads(g, guide.exact, n, d);
      }
    }
  }

  /** The exact condition: a rank descends from `n` if and only if no iteration order of the dependency
      tables puts `n` in a trap. Under the one every read of `n` returns; in the other every one panics. */
  lemma GuideIffNeverTrapped(g: Graph, exact: set<NodeId>, n: NodeId)
    requires Inv(g) && g.active == {} && Sealed(g.program, exact) && n in exact
    ensures HasGuide(g, exact, n) <==> !TrapsUnderSomeOrder(g, exact, n)
  {
    hide Inv;
    GuideIffNoLoop(g, exact, n);
    if HasGuide(g, exact, n) {
      var guide: Guide :| Guided(g, guide) && guide.exact == exact && guide.reach(n);
      forall g', other: Guide | Reordered(g, g') && Inv(g') && Trapped(g', other) && other.exact == exact
        ensures n !in other.trap
      {
        GuidedReordered(g, g', guide);
        TrapIsLoop(g', other);
        GuidedIsNoLoop(g', guide, n, other.trap);
      }
    } else {
      LoopTraps(g, exact, n);
    }
  }
}
