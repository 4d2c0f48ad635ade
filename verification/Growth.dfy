/** Nodes come and go: allocating a node and disposing an effect keep every invariant. */
module Growth {

  import opened Computation
  import opened Graphs
  import opened Frames
  import opened Steps
  import opened Evolution
  import opened EffectSteps
  import opened Lanes
  import opened LaneSteps

  /** `g'` is `g` with the nodes `added` added, each in order on its own. */
  ghost predicate Grows(g: Graph, g': Graph, added: set<NodeId>) {
    GrowsCells(g, g', added) && GrowsHist(g, g', added) && SameElsewhere(g, g', added) && AddedInOrder(g', added)
  }

  ghost predicate GrowsCells(g: Graph, g': Graph, added: set<NodeId>) {
    && added !! g.meta.Keys
    && g'.meta.Keys == g.meta.Keys + added
    && g'.edges == g.edges && g'.active == g.active && g'.past.exempt == g.past.exempt
    && g'.past.rank.Keys == g'.meta.Keys
    && (forall m :: m in g.past.rank && m in g'.past.rank ==> g'.past.rank[m] == g.past.rank[m])
  }

  ghost predicate GrowsHist(g: Graph, g': Graph, added: set<NodeId>) {
    && (forall k: Stamp :: k.node !in added ==> (k in g'.past.hist <==> k in g.past.hist))
    && (forall k :: k in g.past.hist && k in g'.past.hist ==> g'.past.hist[k] == g.past.hist[k])
    && (forall k :: k in g'.past.hist && k.node in added ==> k.node in Readable(g'.meta) && k.version <= Ver(g', k.node))
  }

  ghost predicate SameElsewhere(g: Graph, g': Graph, added: set<NodeId>) {
    forall m :: m !in added ==> SameNode(g, g', m) && SameKind(g, g', m) && SameClosure(g, g', m)
  }

  ghost predicate AddedInOrder(g: Graph, added: set<NodeId>) {
    forall n :: n in added ==> InOrder(g, n) && ClosureOk(g, n)
  }

  ghost predicate SameClosure(g: Graph, g': Graph, m: NodeId) {
    && (m in g.program <==> m in g'.program)
    && (m in g.program && m in g'.program ==> g'.program[m] == g.program[m])
  }

  ghost predicate ClosureOk(g: Graph, n: NodeId) {
    && (n in g.program <==> Computed(g, n))
    && (n in g.program ==> Scoped(g.program[n], Readable(g.meta)))
  }

  lemma NoEdges(g: Graph, n: NodeId)
    requires Inv(g) && n !in g.meta
    ensures Absent(g, n)
  {
    InvParts(g);
    hide Inv, ProgramsScoped, CleanClosed, DirtyJustified, Valued, Acyclic, EdgesBelow;
    forall d
      ensures d !in Deps(g.edges, n)
      ensures d !in Observers(g.edges, n)
    {
      assert d in Deps(g.edges, n) ==> n in g.state;
      assert n in Deps(g.edges, d) <==> d in Observers(g.edges, n);
    }
    NoEdgesNoOrder(g.edges, n);
  }

  lemma ReadableGrows(g: Graph, g': Graph, added: set<NodeId>)
    requires Grows(g, g', added)
    ensures Readable(g.meta) <= Readable(g'.meta) && KeepsSources(g, g')
    ensures forall n :: n in g.meta ==> SameKind(g, g', n) && n !in added
  {
    hide InOrder, ClosureOk;
    forall n | n in g.meta
      ensures n !in added && SameKind(g, g', n)
    {
    }
  }

  lemma GrowKeepsInv(g: Graph, g': Graph, added: set<NodeId>)
    requires Inv(g) && Grows(g, g', added)
    ensures Inv(g') && FreshKept(g, g') && HistKept(g, g')
  {
    forall n | n in added
      ensures Deps(g.edges, n) == map[] && n !in g.past.exempt && n !in g.active
    {
      NoEdges(g, n);
    }
    InvParts(g);
    hide Inv, Mirrored, InOrder;
    ReadableGrows(g, g', added);
    hide ProgramsScoped, EdgesTyped, CleanClosed, DirtyJustified, Valued, Historic, Acyclic, EdgesBelow, Typed, Readable;
    GrownHist(g, g', added);
    GrownTyped(g, g', added);
    GrownEdges(g, g', added);
    GrownFresh(g, g', added);
    GrownClosed(g, g', added);
    GrownValues(g, g', added);
    hide Grows;
    InvWhole(g');
  }

  lemma GrownHist(g: Graph, g': Graph, added: set<NodeId>)
    requires Grows(g, g', added) && Historic(g)
    ensures Historic(g') && HistKept(g, g')
  {
    hide ClosureOk, AllCurrent, Warranted, Explained, Layered;
    forall k | k in g.past.hist
      ensures k in g'.past.hist
    {
      assert k.node !in added;
    }
    forall k | k in g'.past.hist
      ensures k.node in Readable(g'.meta) && k.version <= Ver(g', k.node)
    {
      assert k.node !in added ==> SameNode(g, g', k.node) && SameKind(g, g', k.node);
    }
    hide Readable;
    forall n | n in g'.cache
      ensures Stamp(n, Ver(g', n)) in g'.past.hist && g'.past.hist[Stamp(n, Ver(g', n))] == g'.cache[n]
    {
      if n !in added {
        assert SameNode(g, g', n);
        assert Stamp(n, Ver(g, n)) in g.past.hist;
      } else {
        assert InOrder(g', n);
      }
    }
  }

  lemma GrownTyped(g: Graph, g': Graph, added: set<NodeId>)
    requires Grows(g, g', added) && Typed(g) && ProgramsScoped(g) && Readable(g.meta) <= Readable(g'.meta)
    ensures Typed(g') && ProgramsScoped(g')
  {
    forall n
      ensures n in g'.program <==> Computed(g', n)
      ensures n in g'.state <==> Computed(g', n) || IsEffect(g', n)
      ensures IsSignal(g', n) ==> n in g'.cache
      ensures n in g'.cache ==> n in Readable(g'.meta)
      ensures n in g'.past.exempt ==> IsEffect(g', n)
      ensures n in g'.active ==> n in g'.state
    {
      if n in added {
        assert InOrder(g', n) && ClosureOk(g', n);
      } else {
        assert SameNode(g, g', n) && SameKind(g, g', n) && SameClosure(g, g', n);
      }
    }
    forall n | n in g'.program
      ensures Scoped(g'.program[n], Readable(g'.meta))
    {
      if n in added {
        assert ClosureOk(g', n);
      } else {
        assert SameClosure(g, g', n);
        ScopedMonotone(g.program[n], Readable(g.meta), Readable(g'.meta));
      }
    }
  }

  lemma GrownEdges(g: Graph, g': Graph, added: set<NodeId>)
    requires Grows(g, g', added) && Typed(g) && EdgesTyped(g) && EdgesBelow(g) && Acyclic(g.edges, g.past.rank)
    requires g.past.rank.Keys == g.meta.Keys
    requires Readable(g.meta) <= Readable(g'.meta)
    requires forall n :: n in added ==> Deps(g.edges, n) == map[]
    ensures EdgesTyped(g') && EdgesBelow(g') && Acyclic(g'.edges, g'.past.rank)
  {
    hide InOrder, ClosureOk;
    forall n: NodeId, d: NodeId {:trigger d in Deps(g'.edges, n)} | d in Deps(g'.edges, n)
      ensures n in g'.state && d in Readable(g'.meta) && Deps(g'.edges, n)[d] <= Ver(g', d)
      ensures n in g'.past.rank && d in g'.past.rank && g'.past.rank[d] < g'.past.rank[n]
    {
      assert d in Deps(g.edges, n);
      assert n !in added && d !in added;
      assert SameNode(g, g', n) && SameNode(g, g', d);
    }
    if Layered(g'.program) {
      forall n | n in g.program
        ensures ReadsBelow(g.program[n], n)
      {
        assert n !in added ==> SameClosure(g, g', n);
        assert ReadsBelow(g'.program[n], n);
      }
      assert Layered(g.program);
    }
  }

  lemma GrownFresh(g: Graph, g': Graph, added: set<NodeId>)
    requires Grows(g, g', added)
    ensures FreshKept(g, g')
  {
    hide InOrder, ClosureOk;
    forall d | Fresh(g, d)
      ensures Fresh(g', d) && Ver(g, d) == Ver(g', d)
    {
      assert d !in added;
      assert SameNode(g, g', d) && SameKind(g, g', d);
    }
  }

  lemma GrownClosed(g: Graph, g': Graph, added: set<NodeId>)
    requires Grows(g, g', added) && CleanClosed(g) && FreshKept(g, g')
    ensures CleanClosed(g')
  {
    forall n | InState(g', n, Clean) && n !in g'.past.exempt
      ensures AllCurrent(g', n)
    {
      if n in added {
        assert InOrder(g', n);
      } else {
        assert SameNode(g, g', n);
        assert AllCurrent(g, n);
        forall d | d in Deps(g'.edges, n)
          ensures Current(g', n, d)
        {
          assert Current(g, n, d);
        }
      }
    }
  }

  lemma GrownValues(g: Graph, g': Graph, added: set<NodeId>)
    requires Grows(g, g', added) && Valued(g) && DirtyJustified(g) && HistKept(g, g') && EdgesTyped(g)
    ensures Valued(g') && DirtyJustified(g')
  {
    forall n | Computed(g', n) && n in g'.state
      ensures g'.state[n] == Dirty ==> Warranted(g', n)
      ensures g'.state[n] != Dirty && n !in g'.active ==> Explained(g', n)
    {
      if n in added {
        assert InOrder(g', n);
      } else {
        assert SameNode(g, g', n) && SameKind(g, g', n) && SameClosure(g, g', n);
        if g'.state[n] == Dirty {
          assert Warranted(g, n);
          if d :| Moved(g, n, d) {
            assert d in Deps(g.edges, n);
            assert d !in added;
            assert SameNode(g, g', d);
            assert Moved(g', n, d);
          }
        } else if n !in g'.active {
          assert Explained(g, n);
          RecordedElsewhere(g.edges, g'.edges, g.past.hist, g'.past.hist, n, g.past.log[n]);
        }
      }
    }
  }

  /** Growing leaves the activation records in order: what is under way is not new. */
  lemma GrowKeepsFrames(g: Graph, g': Graph, added: set<NodeId>, fs: Frames)
    requires Inv(g) && Framed(g, fs) && Grows(g, g', added) && FreshKept(g, g')
    ensures Framed(g', fs)
  {
    BusyKnown(g, fs);
    hide Inv, InOrder, ClosureOk, Framed;
    forall n | n in Busy(fs)
      ensures SameNode(g, g', n) && SameKind(g, g', n) && (n in g.past.exempt <==> n in g'.past.exempt)
    {
      assert n !in added;
    }
    FramedPreserved(g, g', fs);
  }

  lemma BusyKnown(g: Graph, fs: Frames)
    requires Inv(g) && Framed(g, fs)
    ensures forall n :: n in Busy(fs) ==> n in g.meta
  {
    InvParts(g);
    hide Inv, ProgramsScoped, EdgesTyped, CleanClosed, DirtyJustified, Valued, Historic, Acyclic, Mirrored, EdgesBelow;
    BusyHasState(g, fs);
  }

  lemma {:induction false} GrowKeepsEffectFrames(g: Graph, g': Graph, fs: Frames, running: set<NodeId>)
    requires EffectFrames(g, fs, running) && forall n :: n in g.meta ==> SameKind(g, g', n)
    ensures EffectFrames(g', fs, running)
  {
    if fs.Push? {
      assert SameKind(g, g', fs.top.node);
      GrowKeepsEffectFrames(g, g', fs.below, running);
    }
  }

  lemma GrowKeepsLane(g: Graph, fs: Frames, l: Lane, g': Graph, added: set<NodeId>)
    requires Inv(g) && LaneInv(g, fs, l, {}) && Grows(g, g', added) && HistKept(g, g')
    requires forall n :: n in added ==> !IsEffect(g', n)
    ensures LaneInv(g', fs, l, {})
  {
    hide Inv, InOrder, ClosureOk;
    ReadableGrows(g, g', added);
    forall n
      ensures EffectOk(g', l, {}, n)
    {
      assert EffectOk(g, l, {}, n);
      if n in added {
        NotAnEffect(g, l, g', n);
      } else {
        assert SameNode(g, g', n) && SameKind(g, g', n);
        assert SameEffect(g, l, g', l, n);
        SameEffectOk(g, l, g', l, {}, {}, n);
      }
    }
    GrownBodies(g, l, g', l, added);
    GrowKeepsEffectFrames(g, g', fs, l.running);
  }

  lemma NotAnEffect(g: Graph, l: Lane, g': Graph, n: NodeId)
    requires EffectOk(g, l, {}, n) && !IsEffect(g, n) && !IsEffect(g', n) && g'.past.exempt == g.past.exempt
    ensures EffectOk(g', l, {}, n)
  {
  }

  lemma GrownBodies(g: Graph, l: Lane, g': Graph, l': Lane, added: set<NodeId>)
    requires BodiesOk(g, l) && KeepsSources(g, g') && l'.cleanups == l.cleanups
    requires forall n :: IsEffect(g', n) ==> n in l'.body && (n in added ==> BodyScoped(l'.body[n], g'))
    requires forall n :: IsEffect(g', n) && n !in added ==> IsEffect(g, n) && n in l.body && l'.body[n] == l.body[n]
    ensures BodiesOk(g', l')
  {
    forall n | IsEffect(g', n)
      ensures n in l'.body && BodyScoped(l'.body[n], g')
    {
      if n !in added {
        BodyScopedStays(l.body[n], g, g');
      }
    }
  }

  // ------------------------------------------------------------------------- what may be added

  /** A closure and how its result is published: a memo's version moves only when the value does. */
  datatype Closure = Closure(memo: bool, comp: Comp)

  ghost function WithSignal(g: Graph, n: NodeId, v: Value): Graph {
    g.(meta := g.meta[n := NodeMeta(0, Signal)],
       cache := g.cache[n := v],
       past := g.past.(hist := g.past.hist[Stamp(n, 0) := v], rank := g.past.rank[n := 0]))
  }

  /** Nothing is known about a node that was never added. */
  ghost predicate Absent(g: Graph, n: NodeId) {
    && n !in g.meta && n !in g.state && n !in g.cache && n !in g.active && n !in g.past.exempt && n !in g.program
    && Deps(g.edges, n) == map[] && Order(g.edges, n) == [] && Observers(g.edges, n) == {}
    && (forall k :: k in g.past.hist ==> k.node != n)
  }

  lemma SignalGrows(g: Graph, n: NodeId, v: Value)
    requires Inv(g) && n !in g.meta
    ensures Grows(g, WithSignal(g, n, v), {n})
  {
    NoEdges(g, n);
    RanksCovered(g);
    hide Inv;
    SignalInOrder(g, n, v);
    SignalElsewhere(g, n, v);
    SignalCells(g, n, v);
    hide InOrder, ClosureOk, SameElsewhere, GrowsCells, GrowsHist, WithSignal;
  }

  lemma SignalCells(g: Graph, n: NodeId, v: Value)
    requires Absent(g, n) && g.past.rank.Keys == g.meta.Keys
    ensures GrowsCells(g, WithSignal(g, n, v), {n}) && GrowsHist(g, WithSignal(g, n, v), {n})
  {
  }

  lemma SignalInOrder(g: Graph, n: NodeId, v: Value)
    requires Absent(g, n)
    ensures InOrder(WithSignal(g, n, v), n) && ClosureOk(WithSignal(g, n, v), n)
  {
  }

  lemma SignalElsewhere(g: Graph, n: NodeId, v: Value)
    ensures SameElsewhere(g, WithSignal(g, n, v), {n})
  {
  }

  function KindOf(c: Closure): NodeKind { if c.memo then Memo else Thunk }

  function Each<T>(keys: set<NodeId>, v: T): (m: map<NodeId, T>)
    ensures m.Keys == keys && forall n :: n in keys ==> m[n] == v
  {
    map n | n in keys :: v
  }

  function Metas(group: map<NodeId, Closure>): (m: map<NodeId, NodeMeta>)
    ensures m.Keys == group.Keys && forall n :: n in group ==> m[n] == NodeMeta(0, KindOf(group[n]))
  {
    map n | n in group :: NodeMeta(0, KindOf(group[n]))
  }

  function Closures(group: map<NodeId, Closure>): (m: map<NodeId, Comp>)
    ensures m.Keys == group.Keys && forall n :: n in group ==> m[n] == group[n].comp
  {
    map n | n in group :: group[n].comp
  }

  /** Closures created together may read each other; each starts Dirty with nothing cached. */
  ghost function WithComputed(g: Graph, group: map<NodeId, Closure>): Graph {
    g.(meta := g.meta + Metas(group),
       program := g.program + Closures(group),
       state := g.state + Each(group.Keys, Dirty),
       past := g.past.(rank := g.past.rank + Each(group.Keys, 0)))
  }

  lemma ComputedReadable(g: Graph, group: map<NodeId, Closure>)
    requires group.Keys !! g.meta.Keys
    ensures Readable(WithComputed(g, group).meta) == Readable(g.meta) + group.Keys
  {
    hide Each, Metas, Closures;
  }

  lemma ComputedGrows(g: Graph, group: map<NodeId, Closure>)
    requires Inv(g) && group.Keys !! g.meta.Keys
    requires forall n :: n in group ==> Scoped(group[n].comp, Readable(g.meta) + group.Keys)
    ensures Grows(g, WithComputed(g, group), group.Keys)
  {
    hide InOrder, ClosureOk, WithComputed, Inv, Absent, GrowsCells, GrowsHist, SameElsewhere, AddedInOrder, Scoped;
    ComputedAdded(g, group);
    ComputedElsewhere(g, group);
    RanksCovered(g);
    ComputedCells(g, group);
  }

  lemma ComputedAdded(g: Graph, group: map<NodeId, Closure>)
    requires Inv(g) && group.Keys !! g.meta.Keys
    requires forall n :: n in group ==> Scoped(group[n].comp, Readable(g.meta) + group.Keys)
    ensures AddedInOrder(WithComputed(g, group), group.Keys) && forall n :: n in group ==> Absent(g, n)
  {
    hide InOrder, ClosureOk, WithComputed, Inv, Readable, Absent, Scoped;
    ComputedReadable(g, group);
    var g' := WithComputed(g, group);
    forall n | n in group
      ensures InOrder(g', n) && ClosureOk(g', n) && Absent(g, n)
    {
      NoEdges(g, n);
      ComputedInOrder(g, group, n);
    }
  }

  lemma RanksCovered(g: Graph)
    requires Inv(g)
    ensures g.past.rank.Keys == g.meta.Keys
  {
  }

  lemma ComputedCells(g: Graph, group: map<NodeId, Closure>)
    requires group.Keys !! g.meta.Keys && g.past.rank.Keys == g.meta.Keys
    requires forall n :: n in group ==> Absent(g, n)
    ensures GrowsCells(g, WithComputed(g, group), group.Keys) && GrowsHist(g, WithComputed(g, group), group.Keys)
  {
    hide Each, Metas, Closures;
    forall k | k in g.past.hist
      ensures k.node !in group
    {
      assert k.node in group ==> Absent(g, k.node);
    }
    hide Absent;
    ComputedTables(g, group);
    assert WithComputed(g, group).past.hist == g.past.hist;
    hide WithComputed, GrowsCells;
  }

  lemma ComputedTables(g: Graph, group: map<NodeId, Closure>)
    requires group.Keys !! g.meta.Keys && g.past.rank.Keys == g.meta.Keys
    ensures GrowsCells(g, WithComputed(g, group), group.Keys)
  {
    hide Each, Metas, Closures;
  }

  lemma ComputedInOrder(g: Graph, group: map<NodeId, Closure>, n: NodeId)
    requires Absent(g, n) && n in group && Readable(WithComputed(g, group).meta) == Readable(g.meta) + group.Keys
    requires Scoped(group[n].comp, Readable(g.meta) + group.Keys)
    ensures InOrder(WithComputed(g, group), n) && ClosureOk(WithComputed(g, group), n)
  {
    hide Each, Metas, Closures;
    hide Readable;
  }

  lemma ComputedElsewhere(g: Graph, group: map<NodeId, Closure>)
    ensures SameElsewhere(g, WithComputed(g, group), group.Keys)
  {
    hide SameNode, SameKind, SameClosure, WithComputed;
    forall m | m !in group
      ensures SameNode(g, WithComputed(g, group), m) && SameKind(g, WithComputed(g, group), m)
      ensures SameClosure(g, WithComputed(g, group), m)
    {
      ComputedAt(g, group, m);
    }
  }

  lemma ComputedAt(g: Graph, group: map<NodeId, Closure>, m: NodeId)
    requires m !in group
    ensures SameNode(g, WithComputed(g, group), m) && SameKind(g, WithComputed(g, group), m)
    ensures SameClosure(g, WithComputed(g, group), m)
  {
    hide Each, Metas, Closures;
  }

  ghost function WithEffect(g: Graph, n: NodeId): Graph {
    g.(meta := g.meta[n := NodeMeta(0, Effect)],
       state := g.state[n := Dirty],
       past := g.past.(log := g.past.log - {n}, rank := g.past.rank[n := 0]))
  }

  lemma EffectGrows(g: Graph, n: NodeId)
    requires Inv(g) && n !in g.meta
    ensures Grows(g, WithEffect(g, n), {n})
  {
    NoEdges(g, n);
    RanksCovered(g);
    hide Inv;
    EffectInOrder(g, n);
    EffectElsewhere(g, n);
    EffectCells(g, n);
    hide InOrder, ClosureOk, SameElsewhere, GrowsCells, GrowsHist, WithEffect;
  }

  lemma EffectCells(g: Graph, n: NodeId)
    requires Absent(g, n) && g.past.rank.Keys == g.meta.Keys
    ensures GrowsCells(g, WithEffect(g, n), {n}) && GrowsHist(g, WithEffect(g, n), {n})
  {
  }

  lemma EffectInOrder(g: Graph, n: NodeId)
    requires Absent(g, n)
    ensures InOrder(WithEffect(g, n), n) && ClosureOk(WithEffect(g, n), n)
  {
  }

  lemma EffectElsewhere(g: Graph, n: NodeId)
    ensures SameElsewhere(g, WithEffect(g, n), {n})
  {
  }

  /** The cells of a new effect: a body and no history. */
  ghost function Enrolled(l: Lane, n: NodeId, b: Body): Lane {
    l.(body := l.body[n := b], rerun := l.rerun - {n}, tainted := l.tainted - {n}, superseded := l.superseded - {n})
  }

  /** A new effect starts latched. */
  ghost function Born(l: Lane, n: NodeId, b: Body): Lane { Latched(Enrolled(l, n, b), n) }

  lemma EffectGrowsLane(g: Graph, fs: Frames, l: Lane, n: NodeId, b: Body)
    requires Inv(g) && LaneInv(g, fs, l, {}) && n !in g.meta && n !in l.disposed && BodyScoped(b, g)
    ensures LaneInv(WithEffect(g, n), fs, Born(l, n, b), {})
  {
    var g', l' := WithEffect(g, n), Born(l, n, b);
    EffectGrows(g, n);
    GrowKeepsInv(g, g', {n});
    ReadableGrows(g, g', {n});
    BodyScopedStays(b, g, g');
    assert EffectOk(g, l, {}, n);
    NoEdges(g, n);
    hide Inv, Grows, EffectOk, BodyScoped;
    BornInOrder(g, l, n, b);
    EffectElsewhere(g, n);
    BornElsewhere(g, l, n, b);
    BornBodies(g, l, n, b);
    hide BodiesOk, SameEffect, SameNode, SameKind, WithEffect, Born;
    GrowKeepsEffectFrames(g, g', fs, l.running);
    LaneStep(g, fs, l, {}, g', fs, l', {}, n);
  }

  lemma BornElsewhere(g: Graph, l: Lane, n: NodeId, b: Body)
    requires SameElsewhere(g, WithEffect(g, n), {n})
    ensures forall m :: m != n ==> SameEffect(g, l, WithEffect(g, n), Born(l, n, b), m) && BodyStays(l, Born(l, n, b), m)
  {
    hide SameEffect, BodyStays;
    forall m | m != n
      ensures SameEffect(g, l, WithEffect(g, n), Born(l, n, b), m) && BodyStays(l, Born(l, n, b), m)
    {
      assert SameNode(g, WithEffect(g, n), m) && SameKind(g, WithEffect(g, n), m);
      BornAt(g, l, n, b, m);
    }
  }

  lemma BornAt(g: Graph, l: Lane, n: NodeId, b: Body, m: NodeId)
    requires m != n && SameNode(g, WithEffect(g, n), m) && SameKind(g, WithEffect(g, n), m)
    ensures SameEffect(g, l, WithEffect(g, n), Born(l, n, b), m) && BodyStays(l, Born(l, n, b), m)
  {
    hide SameNode, SameKind;
  }

  lemma BornBodies(g: Graph, l: Lane, n: NodeId, b: Body)
    requires BodiesOk(g, l) && KeepsSources(g, WithEffect(g, n)) && BodyScoped(b, WithEffect(g, n))
    requires SameElsewhere(g, WithEffect(g, n), {n})
    ensures BodiesOk(WithEffect(g, n), Born(l, n, b))
  {
    hide BodyScoped, KeepsSources;
    forall m | m != n && IsEffect(WithEffect(g, n), m)
      ensures IsEffect(g, m)
    {
      assert SameKind(g, WithEffect(g, n), m);
    }
    GrownBodies(g, l, WithEffect(g, n), Born(l, n, b), {n});
  }

  lemma BornInOrder(g: Graph, l: Lane, n: NodeId, b: Body)
    requires EffectOk(g, l, {}, n) && n !in l.disposed && Absent(g, n)
    ensures EffectOk(WithEffect(g, n), Born(l, n, b), {}, n)
  {
  }

  // --------------------------------------------------------------------------------- disposal

  ghost function WithoutEffect(g: Graph, e': Edges, n: NodeId): Graph {
    g.(meta := g.meta - {n},
       edges := e',
       state := g.state - {n},
       past := g.past.(rank := g.past.rank - {n}, exempt := g.past.exempt - {n}))
  }

  lemma WithoutEdges(g: Graph, e': Edges, n: NodeId)
    ensures WithoutEffect(g.(edges := e'), e', n) == WithoutEffect(g, e', n)
  {
  }

  /** Everything but effect `n` is untouched by its disposal. */
  lemma OthersUntouched(g: Graph, e': Edges, n: NodeId, m: NodeId)
    requires Inv(g) && IsEffect(g, n) && EdgesDropped(g.edges, e', n) && m != n
    ensures SameNode(g, WithoutEffect(g, e', n), m) && SameKind(g, WithoutEffect(g, e', n), m)
    ensures n !in Deps(g.edges, m) && (m in WithoutEffect(g, e', n).past.exempt <==> m in g.past.exempt)
  {
    InvParts(g);
    hide Inv, ProgramsScoped, CleanClosed, DirtyJustified, Valued, Acyclic, EdgesBelow, Historic, Typed, Mirrored;
    assert n !in Readable(g.meta);
    assert n !in Deps(g.edges, m);
    hide EdgesTyped, Readable;
    SameWithout(g, e', n, m);
  }

  lemma SameWithout(g: Graph, e': Edges, n: NodeId, m: NodeId)
    requires EdgesDropped(g.edges, e', n) && m != n && n !in Deps(g.edges, m)
    ensures SameNode(g, WithoutEffect(g, e', n), m) && SameKind(g, WithoutEffect(g, e', n), m)
  {
    assert Deps(e', m) == Deps(g.edges, m) - {n} == Deps(g.edges, m);
    assert Order(e', m) == Order(g.edges, m);
  }

  lemma DisposalKeepsInv(g: Graph, e': Edges, n: NodeId)
    requires Inv(g) && IsEffect(g, n) && EdgesDropped(g.edges, e', n) && n !in g.active
    ensures Inv(WithoutEffect(g, e', n))
  {
    hide SameNode, SameKind, WithoutEffect;
    var g' := WithoutEffect(g, e', n);
    EffectCaches(g, e', n);
    forall m | m != n
      ensures SameNode(g, g', m) && SameKind(g, g', m) && n !in Deps(g.edges, m) && (m in g'.past.exempt <==> m in g.past.exempt)
    {
      OthersUntouched(g, e', n, m);
    }
    assert Untouched(g, g', n);
    hide Untouched;
    InvParts(g);
    hide Inv, Typed, ProgramsScoped, EdgesTyped, CleanClosed, DirtyJustified, Valued, Historic, Acyclic, EdgesBelow, Readable;
    DroppedMirrored(g.edges, e', n);
    assert Deps(e', n) == map[];
    hide EdgesDropped, Mirrored, IsEffect;
    ShrunkTyped(g, e', n);
    ShrunkEdges(g, e', n);
    ShrunkClosed(g, e', n);
    ShrunkValues(g, e', n);
    InvWhole(g');
  }

  ghost predicate Untouched(g: Graph, g': Graph, n: NodeId) {
    forall m :: m != n ==> SameNode(g, g', m) && SameKind(g, g', m) && n !in Deps(g.edges, m) && (m in g'.past.exempt <==> m in g.past.exempt)
  }

  lemma EffectCaches(g: Graph, e': Edges, n: NodeId)
    requires Inv(g) && IsEffect(g, n)
    ensures n !in g.cache && Readable(WithoutEffect(g, e', n).meta) == Readable(g.meta) && WithoutEffect(g, e', n).edges == e'
  {
    InvParts(g);
    hide Inv, ProgramsScoped, EdgesTyped, CleanClosed, DirtyJustified, Valued, Historic, Acyclic, Mirrored, EdgesBelow;
  }

  lemma ShrunkTyped(g: Graph, e': Edges, n: NodeId)
    requires Typed(g) && ProgramsScoped(g) && IsEffect(g, n) && n !in g.active
    requires Untouched(g, WithoutEffect(g, e', n), n) && Readable(WithoutEffect(g, e', n).meta) == Readable(g.meta)
    ensures Typed(WithoutEffect(g, e', n)) && ProgramsScoped(WithoutEffect(g, e', n))
  {
    var g' := WithoutEffect(g, e', n);
    forall m
      ensures m in g'.program <==> Computed(g', m)
      ensures m in g'.state <==> Computed(g', m) || IsEffect(g', m)
      ensures IsSignal(g', m) ==> m in g'.cache
      ensures m in g'.cache ==> m in Readable(g'.meta)
      ensures m in g'.past.exempt ==> IsEffect(g', m)
      ensures m in g'.active ==> m in g'.state
    {
      assert m != n ==> SameNode(g, g', m) && SameKind(g, g', m);
    }
  }

  lemma ShrunkEdges(g: Graph, e': Edges, n: NodeId)
    requires EdgesTyped(g) && EdgesBelow(g) && Acyclic(g.edges, g.past.rank)
    requires g.past.rank.Keys == g.meta.Keys && Deps(e', n) == map[]
    requires Untouched(g, WithoutEffect(g, e', n), n) && Readable(WithoutEffect(g, e', n).meta) == Readable(g.meta)
    ensures var g' := WithoutEffect(g, e', n);
            EdgesTyped(g') && EdgesBelow(g') && Acyclic(g'.edges, g'.past.rank) && g'.past.rank.Keys == g'.meta.Keys
  {
    var g' := WithoutEffect(g, e', n);
    assert g'.program == g.program;
    forall m: NodeId, d: NodeId {:trigger d in Deps(g'.edges, m)} | d in Deps(g'.edges, m)
      ensures m in g'.state && d in Readable(g'.meta) && Deps(g'.edges, m)[d] <= Ver(g', d)
      ensures m in g'.past.rank && d in g'.past.rank && g'.past.rank[d] < g'.past.rank[m]
      ensures d in Deps(g.edges, m)
    {
      assert m != n;
      assert SameNode(g, g', m) && SameKind(g, g', m);
      assert d in Deps(g.edges, m);
      assert d != n;
      assert SameNode(g, g', d) && SameKind(g, g', d);
    }
    hide WithoutEffect, Untouched, EdgesTyped, Layered;
    assert EdgesBelow(g');
  }

  lemma ShrunkClosed(g: Graph, e': Edges, n: NodeId)
    requires CleanClosed(g) && IsEffect(g, n) && Untouched(g, WithoutEffect(g, e', n), n)
    ensures CleanClosed(WithoutEffect(g, e', n))
  {
    var g' := WithoutEffect(g, e', n);
    forall m | InState(g', m, Clean) && m !in g'.past.exempt
      ensures AllCurrent(g', m)
    {
      assert m != n;
      assert SameNode(g, g', m) && SameKind(g, g', m);
      assert AllCurrent(g, m);
      forall d | d in Deps(g'.edges, m)
        ensures Current(g', m, d)
      {
        assert Current(g, m, d);
        assert d != n;
        assert SameNode(g, g', d) && SameKind(g, g', d);
      }
    }
  }

  lemma ShrunkValues(g: Graph, e': Edges, n: NodeId)
    requires Valued(g) && DirtyJustified(g) && Historic(g) && EdgesTyped(g) && IsEffect(g, n) && n !in g.cache
    requires Untouched(g, WithoutEffect(g, e', n), n) && Readable(WithoutEffect(g, e', n).meta) == Readable(g.meta)
    ensures Valued(WithoutEffect(g, e', n)) && DirtyJustified(WithoutEffect(g, e', n)) && Historic(WithoutEffect(g, e', n))
  {
    var g' := WithoutEffect(g, e', n);
    forall m | Computed(g', m) && m in g'.state
      ensures g'.state[m] == Dirty ==> Warranted(g', m)
      ensures g'.state[m] != Dirty && m !in g'.active ==> Explained(g', m)
    {
      assert m != n;
      assert SameNode(g, g', m) && SameKind(g, g', m);
      if g'.state[m] == Dirty {
        assert Warranted(g, m);
        if d :| Moved(g, m, d) {
          assert d in Deps(g.edges, m);
          assert d != n;
          assert SameNode(g, g', d);
          assert Moved(g', m, d);
        }
      } else if m !in g'.active {
        assert Explained(g, m);
        RecordedElsewhere(g.edges, g'.edges, g.past.hist, g'.past.hist, m, g.past.log[m]);
      }
    }
    forall m | m in g'.cache
      ensures Stamp(m, Ver(g', m)) in g'.past.hist && g'.past.hist[Stamp(m, Ver(g', m))] == g'.cache[m]
    {
      assert Stamp(m, Ver(g, m)) in g.past.hist;
      assert m != n ==> SameNode(g, g', m);
    }
    forall k | k in g'.past.hist
      ensures k.node in Readable(g'.meta) && k.version <= Ver(g', k.node)
    {
      assert SameNode(g, g', k.node) && SameKind(g, g', k.node);
    }
  }

  // ----------------------------------------------------------------- disposal, seen by the lane

  /** Disposal begins: the flag is set and a pending run is released. */
  ghost function Flagged(l: Lane, n: NodeId): Lane { Unlatched(l, n).(disposed := l.disposed + {n}) }

  lemma FlagKeeps(g: Graph, fs: Frames, l: Lane, n: NodeId)
    requires LaneInv(g, fs, l, {}) && n !in l.running
    ensures LaneInv(g, fs, Flagged(l, n), {})
  {
    assert EffectOk(g, l, {}, n);
    LaneStep(g, fs, l, {}, g, fs, Flagged(l, n), {}, n);
  }

  lemma UnhookKeeps(g: Graph, e': Edges, fs: Frames, l: Lane, n: NodeId)
    requires Inv(g) && LaneInv(g, fs, l, {}) && IsEffect(g, n) && EdgesDropped(g.edges, e', n)
    requires n in l.disposed && n !in l.running
    ensures LaneInv(WithoutEffect(g, e', n), fs, l.(body := l.body - {n}), {})
  {
    var g', l' := WithoutEffect(g, e', n), l.(body := l.body - {n});
    forall m
      ensures EffectOk(g', l', {}, m)
      ensures m != n ==> SameKind(g, g', m)
    {
      assert EffectOk(g, l, {}, m);
      if m != n {
        OthersUntouched(g, e', n, m);
        hide Inv, EdgesDropped;
        UnhookedElsewhere(g, e', l, n, m);
      }
    }
    hide Inv, EffectOk, EdgesDropped;
    UnhookedSources(g, e', n);
    GrownBodies(g, l, g', l', {});
    ShrinkKeepsEffectFrames(g, e', fs, l.running, n);
  }

  lemma {:induction false} ShrinkKeepsEffectFrames(g: Graph, e': Edges, fs: Frames, running: set<NodeId>, n: NodeId)
    requires EffectFrames(g, fs, running) && n !in running
    ensures EffectFrames(WithoutEffect(g, e', n), fs, running)
  {
    if fs.Push? {
      ShrinkKeepsEffectFrames(g, e', fs.below, running, n);
    }
  }

  /** What disposal does to the graph, whatever else is under way. */
  lemma DisposalKeeps(g: Graph, e': Edges, fs: Frames, n: NodeId)
    requires Inv(g) && Framed(g, fs) && IsEffect(g, n) && EdgesDropped(g.edges, e', n) && n !in Busy(fs) && g.active == OnStack(fs)
    ensures Inv(WithoutEffect(g, e', n)) && Framed(WithoutEffect(g, e', n), fs)
  {
    hide Inv, Framed, EdgesDropped, WithoutEffect, IsEffect;
    StackInBusy(fs);
    DisposalKeepsInv(g, e', n);
    ShrinkKeepsFrames(g, e', fs, n);
  }

  /** Disposal leaves the records of whatever else is under way in order. */
  lemma ShrinkKeepsFrames(g: Graph, e': Edges, fs: Frames, n: NodeId)
    requires Inv(g) && Framed(g, fs) && IsEffect(g, n) && EdgesDropped(g.edges, e', n) && n !in Busy(fs)
    ensures Framed(WithoutEffect(g, e', n), fs)
  {
    hide SameNode, SameKind, WithoutEffect, Inv, Framed, EdgesDropped, IsEffect;
    var g' := WithoutEffect(g, e', n);
    EffectNotFresh(g, e', n);
    forall m | m != n
      ensures SameNode(g, g', m) && SameKind(g, g', m) && (m in g'.past.exempt <==> m in g.past.exempt)
    {
      OthersUntouched(g, e', n, m);
    }
    ShrinkKeepsFresh(g, g', n);
    FramedPreserved(g, g', fs);
  }

  lemma EffectNotFresh(g: Graph, e': Edges, n: NodeId)
    requires IsEffect(g, n)
    ensures !Fresh(g, n) && WithoutEffect(g, e', n).active == g.active
  {
  }

  lemma ShrinkKeepsFresh(g: Graph, g': Graph, n: NodeId)
    requires !Fresh(g, n) && g'.active == g.active && forall m :: m != n ==> SameNode(g, g', m) && SameKind(g, g', m)
    ensures FreshKept(g, g')
  {
    forall d | Fresh(g, d)
      ensures Fresh(g', d) && Ver(g, d) == Ver(g', d)
    {
      assert SameNode(g, g', d) && SameKind(g, g', d);
    }
  }

  lemma UnhookedSources(g: Graph, e': Edges, n: NodeId)
    requires IsEffect(g, n)
    ensures KeepsSources(g, WithoutEffect(g, e', n))
    ensures forall m :: IsEffect(WithoutEffect(g, e', n), m) ==> IsEffect(g, m) && m != n
  {
  }

  lemma UnhookedElsewhere(g: Graph, e': Edges, l: Lane, n: NodeId, m: NodeId)
    requires EffectOk(g, l, {}, m) && m != n && n !in Deps(g.edges, m)
    requires SameNode(g, WithoutEffect(g, e', n), m) && SameKind(g, WithoutEffect(g, e', n), m)
    ensures EffectOk(WithoutEffect(g, e', n), l.(body := l.body - {n}), {}, m)
  {
    var g' := WithoutEffect(g, e', n);
    if IsEffect(g, m) && m in g.past.log {
      EventsElsewhere(g, g', m, g.past.log[m], m in l.superseded);
    }
  }
}
