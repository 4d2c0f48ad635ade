/** The steps a refresh is made of. Each touches the cells of one node, so each keeps the invariant
    as soon as that node is in order afterwards. */
module Steps {

  import opened Computation
  import opened Graphs
  import opened Frames

  // ------------------------------------------------------------------------------ local steps

  /** `g'` differs from `g` only at `n`, and remembers everything `g` does. */
  ghost predicate OnlyAt(g: Graph, g': Graph, n: NodeId) {
    && g'.meta.Keys == g.meta.Keys
    && (forall m :: m in g.meta ==> g'.meta[m].kind == g.meta[m].kind)
    && g'.program == g.program
    && (forall m :: m != n ==> SameNode(g, g', m))
    && g'.active - {n} == g.active - {n}
    && g'.past.exempt - {n} == g.past.exempt - {n}
    && Ver(g, n) <= Ver(g', n)
    && HistGrows(g, g', n)
  }

  ghost predicate HistGrows(g: Graph, g': Graph, n: NodeId) {
    && (forall k :: k in g.past.hist ==> k in g'.past.hist && g'.past.hist[k] == g.past.hist[k])
    && (forall k :: k in g'.past.hist ==> k in g.past.hist || (k.node == n && n in Readable(g'.meta) && k.version <= Ver(g', n)))
  }

  /** Node `n` is in order in `g`. */
  ghost predicate InOrder(g: Graph, n: NodeId) {
    && (n in g.state <==> Computed(g, n) || IsEffect(g, n))
    && (IsSignal(g, n) ==> n in g.cache)
    && (n in g.cache ==> n in Readable(g.meta))
    && (n in g.past.exempt ==> IsEffect(g, n))
    && (n in g.active ==> n in g.state)
    && (InState(g, n, Clean) && n !in g.past.exempt ==> AllCurrent(g, n))
    && (Computed(g, n) && InState(g, n, Dirty) ==> Warranted(g, n))
    && (Computed(g, n) && n in g.state && g.state[n] != Dirty && n !in g.active ==> Explained(g, n))
    && (n in g.cache ==> Stamp(n, Ver(g, n)) in g.past.hist && g.past.hist[Stamp(n, Ver(g, n))] == g.cache[n])
    && (forall d {:trigger d in Deps(g.edges, n)} :: d in Deps(g.edges, n) ==>
          n in g.state && d in Readable(g.meta) && Deps(g.edges, n)[d] <= Ver(g, d)
          && (Layered(g.program) && n in g.program ==> d.raw < n.raw))
  }

  /** All that a step from `g` to `g'` owes: it touches only `n`, leaves `n` in order, unfreshens
      nothing, and keeps the edge tables coherent. */
  ghost predicate Local(g: Graph, g': Graph, n: NodeId) {
    && OnlyAt(g, g', n)
    && InOrder(g', n)
    && (Fresh(g, n) ==> Fresh(g', n) && Ver(g', n) == Ver(g, n))
    && Mirrored(g'.edges)
    && Acyclic(g'.edges, g'.past.rank)
    && g'.past.rank.Keys == g'.meta.Keys
  }

  /** What the invariant says about the edge tables. */
  ghost predicate Coherent(g: Graph) {
    Mirrored(g.edges) && Acyclic(g.edges, g.past.rank) && g.past.rank.Keys == g.meta.Keys
  }

  /** A step that leaves `n` in order, unfreshens nothing and keeps the edge tables coherent keeps
      the invariant. */
  lemma LocalStepKeepsInv(g: Graph, g': Graph, n: NodeId)
    requires Inv(g) && Local(g, g', n)
    ensures Inv(g')
    ensures FreshKept(g, g')
  {
    hide Inv;
    InvParts(g);
    TypedAfter(g, g', n);
    ReadableAfter(g, g', n);
    ScopedAfter(g, g');
    EdgesTypedAfter(g, g', n);
    FreshAfter(g, g', n);
    CleanClosedAfter(g, g', n);
    DirtyJustifiedAfter(g, g', n);
    ValuedAfter(g, g', n);
    HistoricAfter(g, g', n);
    InvWhole(g');
  }

  lemma InvParts(g: Graph)
    requires Inv(g)
    ensures Typed(g) && ProgramsScoped(g) && EdgesTyped(g) && Mirrored(g.edges) && CleanClosed(g)
    ensures DirtyJustified(g) && Valued(g) && Historic(g) && Acyclic(g.edges, g.past.rank) && EdgesBelow(g)
    ensures g.past.rank.Keys == g.meta.Keys
  {
  }

  lemma InvInOrder(g: Graph, n: NodeId)
    requires Inv(g)
    ensures InOrder(g, n)
  {
    hide Mirrored, Acyclic, ProgramsScoped;
  }

  lemma InvWhole(g: Graph)
    requires Typed(g) && ProgramsScoped(g) && EdgesTyped(g) && Mirrored(g.edges) && CleanClosed(g)
    requires DirtyJustified(g) && Valued(g) && Historic(g) && Acyclic(g.edges, g.past.rank) && EdgesBelow(g)
    requires g.past.rank.Keys == g.meta.Keys
    ensures Inv(g)
  {
  }

  lemma TypedAfter(g: Graph, g': Graph, n: NodeId)
    requires Typed(g) && OnlyAt(g, g', n) && InOrder(g', n)
    ensures Typed(g')
  {
    hide HistGrows, AllCurrent, Warranted, Explained, Layered;
    forall m
      ensures m in g'.program <==> Computed(g', m)
      ensures m in g'.state <==> Computed(g', m) || IsEffect(g', m)
      ensures IsSignal(g', m) ==> m in g'.cache
      ensures m in g'.cache ==> m in Readable(g'.meta)
      ensures m in g'.past.exempt ==> IsEffect(g', m)
      ensures m in g'.active ==> m in g'.state
    {
      if m != n {
        assert SameNode(g, g', m);
        assert m in g'.past.exempt ==> m in g'.past.exempt - {n};
        assert m in g'.active ==> m in g'.active - {n};
      }
    }
  }

  lemma ReadableAfter(g: Graph, g': Graph, n: NodeId)
    requires OnlyAt(g, g', n)
    ensures Readable(g'.meta) == Readable(g.meta)
  {
    forall m
      ensures m in Readable(g'.meta) <==> m in Readable(g.meta)
    {
      assert m in g.meta ==> g'.meta[m].kind == g.meta[m].kind;
    }
  }

  lemma ScopedAfter(g: Graph, g': Graph)
    requires ProgramsScoped(g) && g'.program == g.program && Readable(g'.meta) == Readable(g.meta)
    ensures ProgramsScoped(g')
  {
  }

  lemma EdgesTypedAfter(g: Graph, g': Graph, n: NodeId)
    requires EdgesTyped(g) && EdgesBelow(g) && OnlyAt(g, g', n) && InOrder(g', n) && Readable(g'.meta) == Readable(g.meta)
    ensures EdgesTyped(g') && EdgesBelow(g')
  {
    forall m: NodeId, d: NodeId {:trigger d in Deps(g'.edges, m)} | d in Deps(g'.edges, m)
      ensures m in g'.state && d in Readable(g'.meta) && Deps(g'.edges, m)[d] <= Ver(g', d)
      ensures Layered(g'.program) && m in g'.program ==> d.raw < m.raw
    {
      if m != n {
        assert SameNode(g, g', m);
        assert d in Deps(g.edges, m);
        if d != n {
          assert SameNode(g, g', d);
        }
      }
    }
  }

  lemma FreshAfter(g: Graph, g': Graph, n: NodeId)
    requires OnlyAt(g, g', n)
    requires Fresh(g, n) ==> Fresh(g', n) && Ver(g', n) == Ver(g, n)
    ensures FreshKept(g, g')
  {
    forall d | Fresh(g, d)
      ensures Fresh(g', d) && Ver(g', d) == Ver(g, d)
    {
      if d != n {
        assert SameNode(g, g', d);
        assert d in g'.active ==> d in g'.active - {n};
      }
    }
  }

  lemma CleanClosedAfter(g: Graph, g': Graph, n: NodeId)
    requires CleanClosed(g) && OnlyAt(g, g', n) && InOrder(g', n)
    requires FreshKept(g, g')
    ensures CleanClosed(g')
  {
    forall m | InState(g', m, Clean) && m !in g'.past.exempt
      ensures AllCurrent(g', m)
    {
      if m != n {
        assert SameNode(g, g', m);
        assert m !in g'.past.exempt - {n};
        assert AllCurrent(g, m);
        forall d | d in Deps(g'.edges, m)
          ensures Current(g', m, d)
        {
          assert Current(g, m, d);
        }
      }
    }
  }

  lemma DirtyJustifiedAfter(g: Graph, g': Graph, n: NodeId)
    requires DirtyJustified(g) && OnlyAt(g, g', n) && InOrder(g', n)
    ensures DirtyJustified(g')
  {
    forall m | Computed(g', m) && InState(g', m, Dirty)
      ensures Warranted(g', m)
    {
      if m != n {
        assert SameNode(g, g', m);
        assert Warranted(g, m);
        if d :| Moved(g, m, d) {
          assert d != n ==> SameNode(g, g', d);
          assert Moved(g', m, d);
        }
      }
    }
  }

  lemma ValuedAfter(g: Graph, g': Graph, n: NodeId)
    requires Valued(g) && OnlyAt(g, g', n) && InOrder(g', n)
    ensures Valued(g')
  {
    forall m | Computed(g', m) && m in g'.state && g'.state[m] != Dirty && m !in g'.active
      ensures Explained(g', m)
    {
      if m != n {
        assert SameNode(g, g', m);
        assert m !in g'.active - {n};
        assert Explained(g, m);
        ExplainedElsewhere(g, g', m);
      }
    }
  }

  lemma ExplainedElsewhere(g: Graph, g': Graph, m: NodeId)
    requires Explained(g, m) && SameNode(g, g', m) && g'.program == g.program
    requires forall k :: k in g.past.hist ==> k in g'.past.hist && g'.past.hist[k] == g.past.hist[k]
    ensures Explained(g', m)
  {
    RecordedElsewhere(g.edges, g'.edges, g.past.hist, g'.past.hist, m, g.past.log[m]);
  }

  lemma RecordedElsewhere(
    e: Edges, e': Edges, hist: map<Stamp, Value>, hist': map<Stamp, Value>, m: NodeId, events: seq<ReadEvent>)
    requires Recorded(e, hist, m, events) && Deps(e', m) == Deps(e, m)
    requires forall k :: k in hist ==> k in hist' && hist'[k] == hist[k]
    ensures Recorded(e', hist', m, events)
  {
    forall i | 0 <= i < |events|
      ensures EventRecorded(e', hist', m, events[i])
    {
      assert EventRecorded(e, hist, m, events[i]);
    }
  }

  lemma HistoricAfter(g: Graph, g': Graph, n: NodeId)
    requires Historic(g) && OnlyAt(g, g', n) && InOrder(g', n)
    ensures Historic(g')
  {
    forall m | m in g'.cache
      ensures Stamp(m, Ver(g', m)) in g'.past.hist && g'.past.hist[Stamp(m, Ver(g', m))] == g'.cache[m]
    {
      if m != n {
        assert SameNode(g, g', m);
        assert Stamp(m, Ver(g, m)) in g.past.hist;
      }
    }
    forall k | k in g'.past.hist
      ensures k.node in Readable(g'.meta) && k.version <= Ver(g', k.node)
    {
      if k.node != n {
        assert SameNode(g, g', k.node);
      }
    }
  }

  lemma LocalStepKeepsFrames(g: Graph, g': Graph, fs: Frames, n: NodeId)
    requires Framed(g, fs) && OnlyAt(g, g', n) && FreshKept(g, g') && n !in Busy(fs)
    ensures Framed(g', fs)
  {
    forall m | m in Busy(fs)
      ensures SameNode(g, g', m) && SameKind(g, g', m) && (m in g.past.exempt <==> m in g'.past.exempt)
    {
      assert m != n;
      assert m in g.past.exempt <==> m in g.past.exempt - {n};
      assert m in g.meta ==> g'.meta[m].kind == g.meta[m].kind;
    }
    FramedPreserved(g, g', fs);
  }

  lemma LocalStep(g: Graph, g': Graph, fs: Frames, n: NodeId)
    requires Inv(g) && Framed(g, fs) && n !in Busy(fs) && Local(g, g', n)
    ensures Inv(g') && Framed(g', fs) && FreshKept(g, g')
    ensures fs.Push? ==> Order(g'.edges, fs.top.node) == Order(g.edges, fs.top.node)
  {
    LocalStepKeepsInv(g, g', n);
    hide Inv, Framed, InOrder, Mirrored, Acyclic;
    LocalStepKeepsFrames(g, g', fs, n);
    if fs.Push? {
      assert fs.top.node in Busy(fs);
      assert SameNode(g, g', fs.top.node);
    }
  }

  /** What the invariant gives about one node and the tables. */
  lemma InvAt(g: Graph, n: NodeId)
    requires Inv(g)
    ensures InOrder(g, n) && Coherent(g)
  {
    InvInOrder(g, n);
  }

  lemma TopFacts(g: Graph, fs: Frames)
    requires Framed(g, fs) && fs.Push?
    ensures FrameOk(g, fs.top) && fs.top.node !in Busy(fs.below) && fs.top.node in Busy(fs)
    ensures Linked(g.edges, fs.below, fs.top.node) && Framed(g, fs.below)
    ensures fs.top.node !in OnStack(fs.below) && (fs.top.Computing? ==> OnStack(fs) == OnStack(fs.below) + {fs.top.node})
  {
    StackInBusy(fs.below);
  }

  // ------------------------------------------------------------------------------- edge tables

  /** `e'` is `e` with every edge recorded by `n` dropped. */
  ghost predicate EdgesCleared(e: Edges, e': Edges, n: NodeId) {
    && Deps(e', n) == map[]
    && Order(e', n) == []
    && (forall m :: m != n ==> Deps(e', m) == Deps(e, m) && Order(e', m) == Order(e, m))
    && (forall d :: Observers(e', d) == Observers(e, d) - {n})
  }

  /** `e'` is `e` with the edge t -> d recorded at version `v`. */
  ghost predicate EdgeAdded(e: Edges, e': Edges, t: NodeId, d: NodeId, v: int) {
    && Deps(e', t) == Deps(e, t)[d := v]
    && (forall x :: x in Order(e', t) <==> x in Order(e, t) || x == d)
    && (forall m :: m != t ==> Deps(e', m) == Deps(e, m) && Order(e', m) == Order(e, m))
    && (forall x :: Observers(e', x) == if x == d then Observers(e, x) + {t} else Observers(e, x))
  }

  lemma CoherentAfterClear(e: Edges, e': Edges, rank: map<NodeId, nat>, n: NodeId)
    requires Mirrored(e) && Acyclic(e, rank) && EdgesCleared(e, e', n)
    ensures Mirrored(e') && Acyclic(e', rank)
  {
    forall m: NodeId, d: NodeId {:trigger d in Deps(e', m)} {:trigger m in Observers(e', d)} {:trigger d in Order(e', m)}
      ensures d in Deps(e', m) <==> m in Observers(e', d)
      ensures d in Deps(e', m) <==> d in Order(e', m)
    {
      assert d in Deps(e, m) <==> m in Observers(e, d);
      assert d in Deps(e, m) <==> d in Order(e, m);
    }
  }

  lemma MirroredAfterAdd(e: Edges, e': Edges, t: NodeId, d: NodeId, v: int)
    requires Mirrored(e) && EdgeAdded(e, e', t, d, v)
    ensures Mirrored(e')
  {
    hide Deps, Order, Observers, EdgeAdded;
    forall m: NodeId, x: NodeId {:trigger x in Deps(e', m)} {:trigger m in Observers(e', x)} {:trigger x in Order(e', m)}
      ensures x in Deps(e', m) <==> m in Observers(e', x)
      ensures x in Deps(e', m) <==> x in Order(e', m)
    {
      MirroredAt(e, m, x);
      AddedAt(e, e', t, d, v, m, x);
    }
  }

  lemma MirroredAt(e: Edges, m: NodeId, x: NodeId)
    requires Mirrored(e)
    ensures (x in Deps(e, m) <==> m in Observers(e, x)) && (x in Deps(e, m) <==> x in Order(e, m))
  {
  }

  lemma AddedAt(e: Edges, e': Edges, t: NodeId, d: NodeId, v: int, m: NodeId, x: NodeId)
    requires EdgeAdded(e, e', t, d, v)
    ensures x in Deps(e', m) <==> x in Deps(e, m) || (m == t && x == d)
    ensures m in Observers(e', x) <==> m in Observers(e, x) || (m == t && x == d)
    ensures x in Order(e', m) <==> x in Order(e, m) || (m == t && x == d)
  {
    hide Deps, Order, Observers;
  }

  lemma NoEdgesNoOrder(e: Edges, n: NodeId)
    requires Mirrored(e)
    ensures Deps(e, n) == map[] ==> Order(e, n) == []
  {
    if |Order(e, n)| > 0 {
      assert Order(e, n)[0] in Deps(e, n);
    }
  }

  /** `e'` is `e` with every edge from or to `n` dropped. */
  ghost predicate EdgesDropped(e: Edges, e': Edges, n: NodeId) {
    && Deps(e', n) == map[] && Order(e', n) == [] && Observers(e', n) == {}
    && (forall m :: m != n ==> Deps(e', m) == Deps(e, m) - {n})
    && (forall m, d {:trigger d in Order(e', m)} :: m != n ==> (d in Order(e', m) <==> d in Order(e, m) && d != n))
    && (forall m :: m != n && n !in Deps(e, m) ==> Order(e', m) == Order(e, m))
    && (forall d :: d != n ==> Observers(e', d) == Observers(e, d) - {n})
  }

  /** Dropping a node from both indexes leaves them mirroring each other. */
  lemma DroppedMirrored(e: Edges, e': Edges, n: NodeId)
    requires Mirrored(e) && EdgesDropped(e, e', n)
    ensures Mirrored(e')
  {
    forall m: NodeId, d: NodeId {:trigger d in Deps(e', m)} {:trigger m in Observers(e', d)} {:trigger d in Order(e', m)}
      ensures d in Deps(e', m) <==> m in Observers(e', d)
      ensures d in Deps(e', m) <==> d in Order(e', m)
    {
      assert d in Deps(e, m) <==> m in Observers(e, d);
      assert d in Deps(e, m) <==> d in Order(e, m);
    }
  }

  // ------------------------------------------------------------------- verification succeeded

  ghost function VerifiedClean(g: Graph, n: NodeId): Graph {
    g.(state := g.state[n := Clean])
  }

  lemma VerifiedCleanIsLocal(g: Graph, n: NodeId)
    requires InOrder(g, n) && Coherent(g) && Computed(g, n) && InState(g, n, Check) && n !in g.active && AllCurrent(g, n)
    ensures Local(g, VerifiedClean(g, n), n)
  {
    var g' := VerifiedClean(g, n);
    forall d | d in Deps(g'.edges, n)
      ensures Current(g', n, d)
    {
      assert Current(g, n, d);
    }
    hide Mirrored, Acyclic;
    RecordedElsewhere(g.edges, g'.edges, g.past.hist, g'.past.hist, n, g.past.log[n]);
  }

  lemma VerifiedCleanKeeps(g: Graph, fs: Frames, n: NodeId)
    requires Inv(g) && Framed(g, fs) && Computed(g, n) && InState(g, n, Check) && n !in Busy(fs) && n !in g.active
    requires AllCurrent(g, n)
    ensures Inv(VerifiedClean(g, n)) && Framed(VerifiedClean(g, n), fs)
  {
    hide *;
    InvAt(g, n);
    VerifiedCleanIsLocal(g, n);
    LocalStep(g, VerifiedClean(g, n), fs, n);
  }

  // --------------------------------------------------------------------------- a closure starts

  /** Entering the closure of `n`: its mark is cleared, its old edges are dropped, and it goes on
      the stack. */
  ghost function BeginCompute(g: Graph, e': Edges, n: NodeId): Graph {
    g.(state := g.state[n := Clean],
       edges := e',
       active := g.active + {n},
       past := g.past.(runs := g.past.runs[n := Runs(g, n) + 1]))
  }

  ghost predicate MayCompute(g: Graph, fs: Frames, n: NodeId) {
    Computed(g, n) && n in g.state && g.state[n] != Clean && n !in Busy(fs) && Linked(g.edges, fs, n)
  }

  lemma BeginComputeInOrder(g: Graph, e': Edges, fs: Frames, n: NodeId)
    requires InOrder(g, n) && MayCompute(g, fs, n) && EdgesCleared(g.edges, e', n)
    ensures InOrder(BeginCompute(g, e', n), n) && OnlyAt(g, BeginCompute(g, e', n), n)
    ensures FrameOk(BeginCompute(g, e', n), Computing(n)) && !Fresh(g, n)
  {
  }

  lemma BeginComputeIsLocal(g: Graph, e': Edges, fs: Frames, n: NodeId)
    requires InOrder(g, n) && Coherent(g) && MayCompute(g, fs, n) && EdgesCleared(g.edges, e', n)
    ensures Local(g, BeginCompute(g, e', n), n) && BeginCompute(g, e', n).edges == e'
    ensures FrameOk(BeginCompute(g, e', n), Computing(n))
  {
    hide InOrder, OnlyAt, FrameOk, Fresh, EdgesCleared, Mirrored, Acyclic;
    CoherentAfterClear(g.edges, e', g.past.rank, n);
    BeginComputeInOrder(g, e', fs, n);
  }

  lemma BeginComputeKeeps(g: Graph, e': Edges, fs: Frames, n: NodeId)
    requires Inv(g) && Framed(g, fs) && g.active == OnStack(fs) && MayCompute(g, fs, n) && EdgesCleared(g.edges, e', n)
    ensures Inv(BeginCompute(g, e', n))
    ensures Framed(BeginCompute(g, e', n), Push(Computing(n), fs))
    ensures BeginCompute(g, e', n).active == OnStack(Push(Computing(n), fs))
  {
    hide Inv, Framed, InOrder, Coherent, Local, EdgesCleared;
    InvAt(g, n);
    BeginComputeIsLocal(g, e', fs, n);
    hide FrameOk;
    LocalStep(g, BeginCompute(g, e', n), fs, n);
    PushKeepsFrames(BeginCompute(g, e', n), g.edges, fs, Computing(n));
  }

  lemma PushKeepsFrames(g: Graph, e: Edges, fs: Frames, f: Frame)
    requires Framed(g, fs) && FrameOk(g, f) && f.node !in Busy(fs) && Linked(e, fs, f.node)
    requires fs.Push? ==> Order(g.edges, fs.top.node) == Order(e, fs.top.node)
    ensures Framed(g, Push(f, fs))
  {
  }

  // -------------------------------------------------------------------------- a read is recorded

  lemma RankBound(rank: map<NodeId, nat>) returns (bound: nat)
    ensures forall n :: n in rank ==> rank[n] < bound
    decreases |rank|
  {
    if forall n :: n !in rank {
      bound := 0;
    } else {
      var n :| n in rank;
      var rest := rank - {n};
      assert rank.Keys == rest.Keys + {n};
      var b := RankBound(rest);
      bound := if b <= rank[n] then rank[n] + 1 else b;
      forall m | m in rank
        ensures rank[m] < bound
      {
        if m != n {
          assert m in rest;
        }
      }
    }
  }

  /** Ranks after an edge from a running node to a fresh one: everything that is not fresh moves
      above everything that is. */
  ghost function Shifted(g: Graph, bound: nat): map<NodeId, nat> {
    map n | n in g.past.rank :: if Fresh(g, n) then g.past.rank[n] else g.past.rank[n] + bound
  }

  lemma ShiftKeepsAcyclic(g: Graph, e': Edges, t: NodeId, d: NodeId, bound: nat)
    requires Typed(g) && CleanClosed(g) && EdgesTyped(g) && Acyclic(g.edges, g.past.rank) && g.past.rank.Keys == g.meta.Keys
    requires t in g.state && !Fresh(g, t) && Fresh(g, d)
    requires EdgeAdded(g.edges, e', t, d, Ver(g, d))
    requires forall n :: n in g.past.rank ==> g.past.rank[n] < bound
    ensures Acyclic(e', Shifted(g, bound))
  {
    var rank' := Shifted(g, bound);
    forall n: NodeId, x: NodeId {:trigger x in Deps(e', n)} | x in Deps(e', n)
      ensures n in rank' && x in rank' && rank'[x] < rank'[n]
    {
      if !(n == t && x == d) {
        assert x in Deps(g.edges, n);
        assert g.past.rank[x] < g.past.rank[n];
        if Fresh(g, n) {
          assert Current(g, n, x);
        }
      }
    }
  }

  ghost function Observed(g: Graph, e': Edges, bound: nat): Graph {
    g.(edges := e', past := g.past.(rank := Shifted(g, bound)))
  }

  lemma ObserveIsLocal(g: Graph, e': Edges, t: NodeId, d: NodeId, bound: nat)
    requires InOrder(g, t) && t in g.state && t in g.active && t !in g.past.exempt && Fresh(g, d) && t != d
    requires Computed(g, t) ==> g.state[t] == Clean
    requires EdgeAdded(g.edges, e', t, d, Ver(g, d))
    requires Layered(g.program) && t in g.program ==> d.raw < t.raw
    ensures InOrder(Observed(g, e', bound), t) && OnlyAt(g, Observed(g, e', bound), t)
  {
    hide Layered, Deps, Observers, Order, Explained;
    var g' := Observed(g, e', bound);
    if InState(g, t, Clean) {
      forall x | x in Deps(g'.edges, t)
        ensures Current(g', t, x)
      {
        if x != d {
          assert Current(g, t, x);
        }
      }
    }
  }

  lemma ObserveCoherent(g: Graph, e': Edges, t: NodeId, d: NodeId, bound: nat)
    requires Inv(g) && t in g.state && t in g.active && Fresh(g, d)
    requires EdgeAdded(g.edges, e', t, d, Ver(g, d))
    requires forall n :: n in g.past.rank ==> g.past.rank[n] < bound
    ensures Coherent(Observed(g, e', bound)) && Observed(g, e', bound).edges == e'
  {
    hide Inv, EdgeAdded, ProgramsScoped, DirtyJustified, Valued, Historic, EdgesBelow, Typed, EdgesTyped, CleanClosed, Mirrored, Acyclic, Fresh;
    InvParts(g);
    ActiveNotFresh(g, t);
    ShiftKeepsAcyclic(g, e', t, d, bound);
    MirroredAfterAdd(g.edges, e', t, d, Ver(g, d));
  }

  lemma ActiveNotFresh(g: Graph, t: NodeId)
    requires Typed(g) && t in g.active
    ensures !Fresh(g, t) && t in g.state
  {
  }

  /** Recording a fresh node as a dependency of the running node. */
  lemma ObserveKeeps(g: Graph, e': Edges, fs: Frames, t: NodeId, d: NodeId, bound: nat)
    requires Inv(g) && Framed(g, fs) && g.active == OnStack(fs)
    requires fs.Push? && fs.top == Computing(t) && t !in g.past.exempt
    requires Fresh(g, d) && EdgeAdded(g.edges, e', t, d, Ver(g, d))
    requires forall n :: n in g.past.rank ==> g.past.rank[n] < bound
    requires Layered(g.program) && t in g.program ==> d.raw < t.raw
    ensures Inv(Observed(g, e', bound))
    ensures Framed(Observed(g, e', bound), fs)
  {
    hide Inv, Framed, InOrder, OnlyAt, Coherent, EdgeAdded, Layered, Mirrored, Acyclic, Fresh;
    TopFacts(g, fs);
    InvParts(g);
    ActiveNotFresh(g, t);
    hide Typed, ProgramsScoped, EdgesTyped, CleanClosed, DirtyJustified, Valued, Historic, EdgesBelow;
    InvInOrder(g, t);
    ObserveCoherent(g, e', t, d, bound);
    ObserveIsLocal(g, e', t, d, bound);
    var g' := Observed(g, e', bound);
    assert Local(g, g', t) by {
      LocalOf(g, g', t);
    }
    LocalStep(g, g', fs.below, t);
    PushKeepsFrames(g', g.edges, fs.below, Computing(t));
  }

  lemma LocalOf(g: Graph, g': Graph, n: NodeId)
    requires OnlyAt(g, g', n) && InOrder(g', n) && Coherent(g') && !Fresh(g, n)
    ensures Local(g, g', n)
  {
    hide OnlyAt, InOrder, Mirrored, Acyclic, Fresh;
  }

  // --------------------------------------------------------------------------- a closure returns

  /** Storing the result of a run. An unchanged memo keeps its version. */
  ghost function Stored(g: Graph, n: NodeId, v: Value, events: seq<ReadEvent>, bump: bool): Graph
    requires n in g.meta
  {
    var version := if bump then Ver(g, n) + 1 else Ver(g, n);
    g.(meta := g.meta[n := g.meta[n].(version := version)],
       cache := g.cache[n := v],
       active := g.active - {n},
       past := g.past.(hist := g.past.hist[Stamp(n, version) := v],
                       log := g.past.log[n := events],
                       faulted := g.past.faulted - {n}))
  }

  ghost predicate Returned(g: Graph, fs: Frames, n: NodeId, v: Value, events: seq<ReadEvent>) {
    && fs.Push? && fs.top == Computing(n) && Computed(g, n) && n in g.program
    && Follows(g.program[n], [], events, v)
    && Recorded(g.edges, g.past.hist, n, events)
  }

  /** Whether storing `v` counts as a change: always for a thunk, for a memo when the value differs. */
  ghost predicate Changes(g: Graph, n: NodeId, v: Value)
    requires n in g.meta
  {
    g.meta[n].kind.Thunk? || n !in g.cache || g.cache[n] != v
  }

  lemma StoredOnlyAt(g: Graph, n: NodeId, v: Value, events: seq<ReadEvent>, bump: bool)
    requires n in Readable(g.meta) && Historic(g) && (Changes(g, n, v) ==> bump)
    ensures OnlyAt(g, Stored(g, n, v, events, bump), n)
  {
    var g' := Stored(g, n, v, events, bump);
    assert Stamp(n, Ver(g, n) + 1) !in g.past.hist;
    forall m | m != n
      ensures SameNode(g, g', m)
    {
    }
    hide SameNode;
    assert HistGrows(g, g', n);
  }

  /** What storing does to the version. */
  lemma StoredVersion(g: Graph, n: NodeId, v: Value, events: seq<ReadEvent>)
    requires Computed(g, n)
    ensures var g' := Stored(g, n, v, events, Changes(g, n, v));
            Ver(g', n) == Ver(g, n) + if g.meta[n].kind.Memo? && n in g.cache && g.cache[n] == v then 0 else 1
  {
  }

  lemma StoredIsLocal(g: Graph, fs: Frames, n: NodeId, v: Value, events: seq<ReadEvent>, bump: bool)
    requires InOrder(g, n) && Coherent(g) && Typed(g) && Historic(g) && Returned(g, fs, n, v, events)
    requires InState(g, n, Clean) && n in g.active && (Changes(g, n, v) ==> bump)
    ensures Local(g, Stored(g, n, v, events, bump), n) && Fresh(Stored(g, n, v, events, bump), n)
  {
    hide Mirrored, Follows, Acyclic, Recorded, InOrder, OnlyAt, Typed;
    StoredOnlyAt(g, n, v, events, bump);
    assert Stamp(n, Ver(g, n) + 1) !in g.past.hist;
    hide Historic;
    StoredInOrder(g, fs, n, v, events, bump);
  }

  lemma StoredHist(g: Graph, n: NodeId, v: Value, events: seq<ReadEvent>, bump: bool)
    requires n in g.meta && Stamp(n, Ver(g, n) + 1) !in g.past.hist && (Changes(g, n, v) ==> bump)
    requires n in g.cache ==> Stamp(n, Ver(g, n)) in g.past.hist && g.past.hist[Stamp(n, Ver(g, n))] == g.cache[n]
    ensures var g' := Stored(g, n, v, events, bump);
            forall k :: k in g.past.hist ==> k in g'.past.hist && g'.past.hist[k] == g.past.hist[k]
  {
  }

  lemma StoredInOrder(g: Graph, fs: Frames, n: NodeId, v: Value, events: seq<ReadEvent>, bump: bool)
    requires InOrder(g, n) && Acyclic(g.edges, g.past.rank) && Returned(g, fs, n, v, events)
    requires InState(g, n, Clean) && n in g.active && (Changes(g, n, v) ==> bump)
    requires Stamp(n, Ver(g, n) + 1) !in g.past.hist
    ensures InOrder(Stored(g, n, v, events, bump), n)
  {
    hide Follows;
    var g' := Stored(g, n, v, events, bump);
    forall d | d in Deps(g'.edges, n)
      ensures Current(g', n, d)
    {
      assert Current(g, n, d);
      assert d != n;
    }
    StoredHist(g, n, v, events, bump);
    RecordedElsewhere(g.edges, g'.edges, g.past.hist, g'.past.hist, n, events);
  }

  lemma StoredKeeps(g: Graph, fs: Frames, n: NodeId, v: Value, events: seq<ReadEvent>, bump: bool)
    requires Inv(g) && Framed(g, fs) && g.active == OnStack(fs) && Returned(g, fs, n, v, events)
    requires n in g.meta && (Changes(g, n, v) ==> bump)
    ensures Inv(Stored(g, n, v, events, bump)) && Framed(Stored(g, n, v, events, bump), fs.below)
    ensures Stored(g, n, v, events, bump).active == OnStack(fs.below)
    ensures Fresh(Stored(g, n, v, events, bump), n)
  {
    hide Inv, Framed, InOrder, Coherent, Local, Typed, Historic, Fresh, Follows, Recorded, ProgramsScoped, EdgesTyped;
    hide CleanClosed, DirtyJustified, Valued, EdgesBelow, Mirrored, Acyclic;
    TopFacts(g, fs);
    InvAt(g, n);
    InvParts(g);
    StoredIsLocal(g, fs, n, v, events, bump);
    hide Returned;
    LocalStep(g, Stored(g, n, v, events, bump), fs.below, n);
  }

  /** The closure unwound: the mark comes back, so that the next read retries. */
  ghost function Unwound(g: Graph, n: NodeId): Graph {
    g.(state := g.state[n := Dirty], active := g.active - {n}, past := g.past.(faulted := g.past.faulted + {n}))
  }

  lemma UnwoundIsLocal(g: Graph, n: NodeId)
    requires InOrder(g, n) && Coherent(g) && Computed(g, n) && n in g.state && n in g.active
    ensures Local(g, Unwound(g, n), n)
  {
    hide Mirrored, Acyclic;
  }

  lemma UnwoundKeeps(g: Graph, fs: Frames, n: NodeId)
    requires Inv(g) && Framed(g, fs) && g.active == OnStack(fs) && fs.Push? && fs.top == Computing(n) && Computed(g, n)
    ensures Inv(Unwound(g, n)) && Framed(Unwound(g, n), fs.below)
    ensures Unwound(g, n).active == OnStack(fs.below)
  {
    hide Inv, Framed, InOrder, Coherent, Local;
    TopFacts(g, fs);
    InvAt(g, n);
    UnwoundIsLocal(g, n);
    LocalStep(g, Unwound(g, n), fs.below, n);
  }
}
