/** What a refresh may change. Nodes that are fresh, busy or not computed stay as they are; every
    other node is either verified or recomputed, at most once, and recomputed only with cause. */
module Evolution {

  import opened Computation
  import opened Graphs
  import opened Frames
  import opened Steps

  ghost predicate Pinned(g: Graph, n: NodeId, busy: set<NodeId>) {
    n in busy || !Computed(g, n) || InState(g, n, Clean)
  }

  ghost predicate SameButEdges(g: Graph, g': Graph, n: NodeId) {
    && (n in g.state <==> n in g'.state)
    && (n in g.state && n in g'.state ==> g.state[n] == g'.state[n])
    && (n in g.cache <==> n in g'.cache)
    && (n in g.cache && n in g'.cache ==> g.cache[n] == g'.cache[n])
    && (n in g.past.log <==> n in g'.past.log)
    && (n in g.past.log && n in g'.past.log ==> g.past.log[n] == g'.past.log[n])
    && Ver(g, n) == Ver(g', n)
    && (n in g.past.faulted <==> n in g'.past.faulted)
  }

  /** Why `n` was recomputed between `g` and `g'`: nothing was cached, its closure had unwound, or a
      recorded version is no longer the node's version. */
  ghost predicate WarrantedBy(g: Graph, g': Graph, n: NodeId) {
    n !in g.cache || n in g.past.faulted || exists d :: MovedBy(g, g', n, d)
  }

  ghost predicate MovedBy(g: Graph, g': Graph, n: NodeId, d: NodeId) {
    d in Deps(g.edges, n) && Deps(g.edges, n)[d] < Ver(g', d)
  }

  ghost predicate NotRun(g: Graph, g': Graph, n: NodeId) {
    && Runs(g', n) == Runs(g, n)
    && (n in g.state <==> n in g'.state)
    && (n in g.state && n in g'.state ==>
          g'.state[n] == g.state[n] || (g.state[n] == Check && g'.state[n] == Clean))
    && (n in g.cache <==> n in g'.cache)
    && (n in g.cache && n in g'.cache ==> g.cache[n] == g'.cache[n])
    && (n in g.past.log <==> n in g'.past.log)
    && (n in g.past.log && n in g'.past.log ==> g.past.log[n] == g'.past.log[n])
    && Ver(g, n) == Ver(g', n)
    && Deps(g.edges, n) == Deps(g'.edges, n)
    && Order(g.edges, n) == Order(g'.edges, n)
    && (n in g.past.faulted <==> n in g'.past.faulted)
  }

  /** Equality cut-off: a memo's version moves only with its value. */
  ghost predicate CutOff(g: Graph, g': Graph, n: NodeId) {
    n in g.meta && g.meta[n].kind.Memo? && Ver(g', n) != Ver(g, n) ==>
      n !in g.cache || n !in g'.cache || g'.cache[n] != g.cache[n]
  }

  /** A thunk compares nothing: its version moves with every run that completes. */
  ghost predicate ThunkMoves(g: Graph, g': Graph, n: NodeId) {
    n in g.meta && g.meta[n].kind.Thunk? && InState(g', n, Clean) ==> Ver(g, n) < Ver(g', n)
  }

  ghost predicate RunOnce(g: Graph, g': Graph, n: NodeId, ok: bool) {
    && Runs(g', n) == Runs(g, n) + 1
    && WarrantedBy(g, g', n)
    && CutOff(g, g', n)
    && ThunkMoves(g, g', n)
    && (if ok then InState(g', n, Clean) else !InState(g', n, Check))
  }

  ghost predicate VersionsGrow(g: Graph, g': Graph) { forall n :: Ver(g, n) <= Ver(g', n) }

  ghost predicate HistKept(g: Graph, g': Graph) {
    forall k :: k in g.past.hist ==> k in g'.past.hist && g'.past.hist[k] == g.past.hist[k]
  }

  ghost predicate EvolvesAt(g: Graph, g': Graph, busy: set<NodeId>, open: set<NodeId>, ok: bool, n: NodeId) {
    && SameKind(g, g', n)
    && (if Pinned(g, n, busy)
        then Runs(g', n) == Runs(g, n) && SameButEdges(g, g', n) && (n !in open ==> SameNode(g, g', n))
        else NotRun(g, g', n) || RunOnce(g, g', n, ok))
  }

  /** The effect of refreshing while the closures of `open` may record reads. `ok` says nothing
      unwound. */
  ghost predicate Evolves(g: Graph, g': Graph, busy: set<NodeId>, open: set<NodeId>, ok: bool) {
    && g'.meta.Keys == g.meta.Keys
    && g'.program == g.program
    && g'.active == g.active
    && g'.past.exempt == g.past.exempt
    && VersionsGrow(g, g')
    && HistKept(g, g')
    && (forall n :: EvolvesAt(g, g', busy, open, ok, n))
  }

  lemma EvolvesReflexive(g: Graph, busy: set<NodeId>, open: set<NodeId>, ok: bool)
    ensures Evolves(g, g, busy, open, ok)
  {
  }

  lemma EvolvesWeaken(g: Graph, g': Graph, busy: set<NodeId>, open: set<NodeId>, ok: bool, open': set<NodeId>, ok': bool)
    requires Evolves(g, g', busy, open, ok) && open <= open' && (ok' ==> ok)
    ensures Evolves(g, g', busy, open', ok')
  {
    forall n
      ensures EvolvesAt(g, g', busy, open', ok', n)
    {
      assert EvolvesAt(g, g', busy, open, ok, n);
    }
  }

  /** Refreshes compose, and a node recomputed by the first is not recomputed by the second. */
  lemma EvolvesTransitive(g: Graph, g': Graph, g'': Graph, busy: set<NodeId>, open: set<NodeId>, ok: bool)
    requires Evolves(g, g', busy, open, true) && Evolves(g', g'', busy, open, ok) && open <= busy
    ensures Evolves(g, g'', busy, open, ok)
  {
    hide EvolvesAt;
    forall n
      ensures Ver(g, n) <= Ver(g'', n)
    {
      assert Ver(g, n) <= Ver(g', n) <= Ver(g'', n);
    }
    forall n
      ensures EvolvesAt(g, g'', busy, open, ok, n)
    {
      assert EvolvesAt(g, g', busy, open, true, n) && EvolvesAt(g', g'', busy, open, ok, n);
      StepsCompose(g, g', g'', busy, open, ok, n);
    }
  }

  lemma StepsCompose(g: Graph, g': Graph, g'': Graph, busy: set<NodeId>, open: set<NodeId>, ok: bool, n: NodeId)
    requires EvolvesAt(g, g', busy, open, true, n) && EvolvesAt(g', g'', busy, open, ok, n) && VersionsGrow(g', g'')
    requires open <= busy
    ensures EvolvesAt(g, g'', busy, open, ok, n)
  {
    if !Pinned(g, n, busy) {
      if RunOnce(g, g', n, true) {
        if d :| MovedBy(g, g', n, d) {
          assert Ver(g', d) <= Ver(g'', d);
          assert MovedBy(g, g'', n, d);
        }
      } else if RunOnce(g', g'', n, ok) {
        if d :| MovedBy(g', g'', n, d) {
          assert MovedBy(g, g'', n, d);
        }
      }
    }
  }

  // ------------------------------------------------------------------------- minimal recomputation

  /** No source moved its version: nothing was written, or only values already there. */
  ghost predicate SourcesStill(g: Graph, g': Graph) { forall s :: IsSignal(g, s) ==> Ver(g', s) == Ver(g, s) }

  /** Unless a source moved, each computed node was left alone, verified, or recomputed once and with
      cause, however much code ran in between. */
  ghost predicate Spares(g: Graph, g': Graph) {
    && (forall n :: SameKind(g, g', n))
    && VersionsGrow(g, g')
    && (SourcesStill(g, g') ==> forall n :: Computed(g, n) ==> EvolvesAt(g, g', {}, {}, true, n))
  }

  lemma SparesReflexive(g: Graph)
    ensures Spares(g, g)
  {
  }

  lemma SparesTransitive(g: Graph, g': Graph, g'': Graph)
    requires Spares(g, g') && Spares(g', g'')
    ensures Spares(g, g'')
  {
    hide EvolvesAt;
    forall n
      ensures SameKind(g, g'', n) && Ver(g, n) <= Ver(g'', n)
    {
      assert SameKind(g, g', n) && SameKind(g', g'', n);
      assert Ver(g, n) <= Ver(g', n) <= Ver(g'', n);
    }
    if SourcesStill(g, g'') {
      forall s
        ensures IsSignal(g, s) ==> Ver(g', s) == Ver(g, s)
        ensures IsSignal(g', s) ==> Ver(g'', s) == Ver(g', s)
      {
        assert SameKind(g, g', s);
        assert Ver(g, s) <= Ver(g', s) <= Ver(g'', s);
      }
      forall n | Computed(g, n)
        ensures EvolvesAt(g, g'', {}, {}, true, n)
      {
        assert SameKind(g, g', n);
        StepsCompose(g, g', g'', {}, {}, true, n);
      }
    }
  }

  /** No source moved, and each computed node was left alone, verified, or recomputed once and with cause. */
  ghost predicate Sparing(g: Graph, g': Graph) { SourcesStill(g, g') && Spares(g, g') }

  lemma SparingReflexive(g: Graph)
    ensures Sparing(g, g)
  {
  }

  lemma SparingTransitive(g: Graph, g': Graph, g'': Graph)
    requires Sparing(g, g') && Sparing(g', g'')
    ensures Sparing(g, g'') && Spares(g', g'')
  {
    SparesTransitive(g, g', g'');
    forall s | IsSignal(g, s)
      ensures Ver(g'', s) == Ver(g, s)
    {
      assert SameKind(g, g', s);
    }
  }

  /** A refresh made for effects. */
  lemma EvolvesSpares(g: Graph, g': Graph, busy: set<NodeId>, open: set<NodeId>)
    requires Evolves(g, g', busy, open, true) && forall m :: m in busy || m in open ==> !Computed(g, m)
    ensures Spares(g, g') && Sparing(g, g')
  {
    forall n
      ensures SameKind(g, g', n)
      ensures IsSignal(g, n) ==> Ver(g', n) == Ver(g, n)
      ensures Computed(g, n) ==> EvolvesAt(g, g', {}, {}, true, n)
    {
      assert EvolvesAt(g, g', busy, open, true, n);
    }
  }

  /** A step of one effect. */
  lemma ElsewhereSpares(g: Graph, g': Graph, n: NodeId)
    requires !Computed(g, n) && g'.meta == g.meta && g'.past.runs == g.past.runs
    requires forall m :: m != n ==> SameNode(g, g', m)
    ensures Spares(g, g') && Sparing(g, g')
  {
    forall m | Computed(g, m)
      ensures EvolvesAt(g, g', {}, {}, true, m)
    {
      assert SameNode(g, g', m);
    }
  }

  /** The closure of `n` ran at most once, and only with cause: nothing was cached, it had unwound, or a
      recorded version moved. */
  ghost predicate RanAtMostOnce(g: Graph, g': Graph, n: NodeId) {
    Runs(g', n) <= Runs(g, n) + 1 && (Runs(g', n) > Runs(g, n) ==> WarrantedBy(g, g', n))
  }

  lemma SparedRuns(g: Graph, g': Graph, n: NodeId)
    requires Sparing(g, g') && Computed(g, n)
    ensures RanAtMostOnce(g, g', n)
  {
    assert EvolvesAt(g, g', {}, {}, true, n);
  }

  ghost predicate AllSpare(steps: seq<Graph>) {
    forall i :: 0 <= i < |steps| - 1 ==> Spares(steps[i], steps[i + 1])
  }

  /** Between consecutive writes no closure runs twice, however many reads and flushes there are, and it
      runs only with cause. */
  lemma RunsAtMostOnce(steps: seq<Graph>, n: NodeId)
    requires |steps| > 0 && AllSpare(steps) && SourcesStill(steps[0], steps[|steps| - 1]) && Computed(steps[0], n)
    ensures Spares(steps[0], steps[|steps| - 1])
    ensures RanAtMostOnce(steps[0], steps[|steps| - 1], n)
  {
    SparesThroughout(steps);
    SparedRuns(steps[0], steps[|steps| - 1], n);
  }

  lemma {:induction false} SparesThroughout(steps: seq<Graph>)
    requires |steps| > 0 && AllSpare(steps)
    ensures Spares(steps[0], steps[|steps| - 1])
    decreases |steps|
  {
    hide Spares;
    var last := steps[|steps| - 1];
    if |steps| == 1 {
      SparesReflexive(last);
    } else {
      var front := steps[..|steps| - 1];
      forall i | 0 <= i < |front| - 1
        ensures Spares(front[i], front[i + 1])
      {
        assert Spares(steps[i], steps[i + 1]);
      }
      SparesThroughout(front);
      assert Spares(steps[|steps| - 2], steps[|steps| - 2 + 1]);
      SparesTransitive(steps[0], steps[|steps| - 2], last);
    }
  }

  /** A node all of whose inputs came back at the recorded versions does not run. */
  lemma UnmovedDoesNotRun(g: Graph, g': Graph, busy: set<NodeId>, ok: bool, n: NodeId)
    requires Evolves(g, g', busy, {}, ok) && n in g.cache && n !in g.past.faulted
    requires forall d {:trigger d in Deps(g.edges, n)} :: d in Deps(g.edges, n) ==> Deps(g.edges, n)[d] == Ver(g', d)
    ensures Runs(g', n) == Runs(g, n) && Ver(g', n) == Ver(g, n) && n in g'.cache && g'.cache[n] == g.cache[n]
  {
    assert EvolvesAt(g, g', busy, {}, ok, n);
    forall d
      ensures !MovedBy(g, g', n, d)
    {
    }
  }

  /** A recorded edge to a thunk is out of date as soon as the thunk has run again, whatever it returned: whoever
      recorded it will find an input changed. */
  lemma ThunkRunMoves(g: Graph, g': Graph, busy: set<NodeId>, open: set<NodeId>, ok: bool, n: NodeId, t: NodeId)
    requires Evolves(g, g', busy, open, ok) && n in busy && n !in open
    requires t in g.meta && g.meta[t].kind.Thunk? && t in Deps(g.edges, n) && Deps(g.edges, n)[t] <= Ver(g, t)
    ensures Runs(g', t) != Runs(g, t) && InState(g', t, Clean) ==> Moved(g', n, t) && !Current(g', n, t)
  {
    assert EvolvesAt(g, g', busy, open, ok, t) && EvolvesAt(g, g', busy, open, ok, n);
  }

  /** No thunk `n` recorded has run. */
  ghost predicate ThunksRested(g: Graph, g': Graph, n: NodeId) {
    forall t :: t in Deps(g.edges, n) && t in g.meta && g.meta[t].kind.Thunk? ==> Runs(g', t) == Runs(g, t)
  }

  lemma CurrentThunksRested(g: Graph, g': Graph, busy: set<NodeId>, n: NodeId)
    requires Inv(g) && Evolves(g, g', busy, {}, true) && n in busy && AllCurrent(g', n)
    ensures ThunksRested(g, g', n)
  {
    InvParts(g);
    hide Inv, Typed, ProgramsScoped, CleanClosed, DirtyJustified, Valued, Historic, Acyclic, Mirrored, EdgesBelow;
    assert EvolvesAt(g, g', busy, {}, true, n);
    forall t | t in Deps(g.edges, n) && t in g.meta && g.meta[t].kind.Thunk?
      ensures Runs(g', t) == Runs(g, t)
    {
      assert EvolvesAt(g, g', busy, {}, true, t);
      assert Deps(g.edges, n)[t] <= Ver(g, t);
      assert Current(g', n, t);
      ThunkRunMoves(g, g', busy, {}, true, n, t);
    }
  }

  /** A refresh leaves fresh nodes fresh, at the same version. */
  lemma EvolvesKeepsFresh(g: Graph, g': Graph, busy: set<NodeId>, open: set<NodeId>, ok: bool)
    requires Evolves(g, g', busy, open, ok)
    ensures FreshKept(g, g')
  {
    forall d | Fresh(g, d)
      ensures Fresh(g', d) && Ver(g, d) == Ver(g', d)
    {
      assert EvolvesAt(g, g', busy, open, ok, d);
    }
  }

  /** Verification of `n` held it busy; seen from outside it merely did not run. */
  lemma EvolvesRelease(g: Graph, g': Graph, busy: set<NodeId>, open: set<NodeId>, ok: bool, n: NodeId)
    requires Evolves(g, g', busy + {n}, open, ok) && n !in open
    ensures Evolves(g, g', busy, open, ok)
  {
    forall m
      ensures EvolvesAt(g, g', busy, open, ok, m)
    {
      assert EvolvesAt(g, g', busy + {n}, open, ok, m);
    }
  }

  /** Verification ended well: the node became Clean without running. */
  lemma EvolvesVerified(g: Graph, n: NodeId, busy: set<NodeId>, open: set<NodeId>)
    requires n in g.state && g.state[n] == Check && Computed(g, n) && n !in busy
    ensures Evolves(g, VerifiedClean(g, n), busy, open, true)
  {
    forall m
      ensures EvolvesAt(g, VerifiedClean(g, n), busy, open, true, m)
    {
    }
  }

  /** A recorded read of the running node. */
  lemma EvolvesObserved(g: Graph, e': Edges, bound: nat, t: NodeId, d: NodeId, v: int, busy: set<NodeId>)
    requires EdgeAdded(g.edges, e', t, d, v) && t in busy
    ensures Evolves(g, Observed(g, e', bound), busy, {t}, true)
  {
    hide Shifted;
    var g' := Observed(g, e', bound);
    forall m
      ensures EvolvesAt(g, g', busy, {t}, true, m)
    {
    }
  }

  /** A whole run: entering the closure, whatever it refreshed, and storing its result or restoring
      the mark. */
  lemma EvolvesRun(g: Graph, e': Edges, g2: Graph, g3: Graph, n: NodeId, busy: set<NodeId>, ok: bool)
    requires Computed(g, n) && n in g.state && g.state[n] != Clean && n !in busy && EdgesCleared(g.edges, e', n)
    requires n !in g.active && n !in g.past.exempt
    requires WarrantedBy(g, g, n)
    requires Evolves(BeginCompute(g, e', n), g2, busy + {n}, {n}, ok)
    requires OnlyAt(g2, g3, n) && g3.active == g2.active - {n} && g3.past.exempt == g2.past.exempt
    requires g3.past.runs == g2.past.runs && (if ok then InState(g3, n, Clean) else !InState(g3, n, Check)) && CutOff(g2, g3, n) && ThunkMoves(g2, g3, n)
    ensures Evolves(g, g3, busy, {}, ok)
  {
    var g1 := BeginCompute(g, e', n);
    assert VersionsGrow(g2, g3) by {
      hide EvolvesAt;
      forall m
        ensures Ver(g2, m) <= Ver(g3, m)
      {
        assert m != n ==> SameNode(g2, g3, m);
      }
    }
    assert VersionsGrow(g, g3) by {
      hide EvolvesAt, OnlyAt;
      forall m
        ensures Ver(g, m) <= Ver(g3, m)
      {
        assert Ver(g, m) == Ver(g1, m) <= Ver(g2, m) <= Ver(g3, m);
      }
    }
    hide VersionsGrow;
    assert HistKept(g, g3);
    forall m
      ensures EvolvesAt(g, g3, busy, {}, ok, m)
    {
      assert EvolvesAt(g1, g2, busy + {n}, {n}, ok, m);
      if m == n {
        RunAtSelf(g, e', g2, g3, n, busy, ok);
      } else {
        assert SameNode(g2, g3, m);
        assert m in g2.meta ==> g3.meta[m].kind == g2.meta[m].kind;
        RunAtOther(g, e', g2, g3, n, busy, ok, m);
      }
    }
  }

  lemma RunAtSelf(g: Graph, e': Edges, g2: Graph, g3: Graph, n: NodeId, busy: set<NodeId>, ok: bool)
    requires Computed(g, n) && n in g.state && g.state[n] != Clean && n !in busy && WarrantedBy(g, g, n)
    requires EvolvesAt(BeginCompute(g, e', n), g2, busy + {n}, {n}, ok, n)
    requires OnlyAt(g2, g3, n) && g3.past.runs == g2.past.runs && (if ok then InState(g3, n, Clean) else !InState(g3, n, Check)) && VersionsGrow(g, g3)
    requires CutOff(g2, g3, n) && ThunkMoves(g2, g3, n)
    ensures EvolvesAt(g, g3, busy, {}, ok, n)
  {
    assert n in g2.meta ==> g3.meta[n].kind == g2.meta[n].kind;
    if d :| MovedBy(g, g, n, d) {
      assert Ver(g, d) <= Ver(g3, d);
      assert MovedBy(g, g3, n, d);
    }
  }

  lemma RunAtOther(g: Graph, e': Edges, g2: Graph, g3: Graph, n: NodeId, busy: set<NodeId>, ok: bool, m: NodeId)
    requires m != n && Deps(e', m) == Deps(g.edges, m) && Order(e', m) == Order(g.edges, m)
    requires EvolvesAt(BeginCompute(g, e', n), g2, busy + {n}, {n}, ok, m)
    requires SameNode(g2, g3, m) && SameKind(g2, g3, m) && g3.past.runs == g2.past.runs && VersionsGrow(g2, g3)
    ensures EvolvesAt(g, g3, busy, {}, ok, m)
  {
    var g1 := BeginCompute(g, e', n);
    assert SameNode(g, g1, m) && SameKind(g, g1, m) && Runs(g1, m) == Runs(g, m);
    assert Pinned(g, m, busy) <==> Pinned(g1, m, busy + {n});
    assert Runs(g3, m) == Runs(g2, m);
    hide BeginCompute;
    RunInside(g, g1, g2, g3, busy, busy + {n}, n, ok, m);
  }

  lemma RunInside(
    g: Graph, g1: Graph, g2: Graph, g3: Graph, busy: set<NodeId>, inner: set<NodeId>, n: NodeId, ok: bool, m: NodeId)
    requires SameNode(g, g1, m) && SameKind(g, g1, m) && Runs(g1, m) == Runs(g, m) && m != n
    requires Pinned(g, m, busy) <==> Pinned(g1, m, inner)
    requires EvolvesAt(g1, g2, inner, {n}, ok, m)
    requires SameNode(g2, g3, m) && SameKind(g2, g3, m) && Runs(g3, m) == Runs(g2, m) && VersionsGrow(g2, g3)
    ensures EvolvesAt(g, g3, busy, {}, ok, m)
  {
    hide Pinned;
    if RunOnce(g1, g2, m, ok) {
      if d :| MovedBy(g1, g2, m, d) {
        assert Ver(g2, d) <= Ver(g3, d);
        assert MovedBy(g, g3, m, d);
      }
    }
  }
}
