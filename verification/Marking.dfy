/** Propagation of a write: direct observers become Dirty, everything further up at least Check.
    The code stops at nodes that are already stale; this module says why that loses nothing. */
module Marking {

  import opened Computation
  import opened Graphs
  import opened Frames
  import opened Steps

  type States = map<NodeId, State>

  /** `n` depends on `s` through one or more recorded edges. */
  ghost predicate Reaches(e: Edges, n: NodeId, s: NodeId) {
    exists path :: PathTo(e, path, n, s)
  }

  ghost predicate PathTo(e: Edges, path: seq<NodeId>, n: NodeId, s: NodeId) {
    |path| >= 2 && RecordedPath(e, path) && path[0] == n && path[|path| - 1] == s
  }

  lemma ReachesDirectly(e: Edges, n: NodeId, s: NodeId)
    requires s in Deps(e, n)
    ensures Reaches(e, n, s)
  {
    assert PathTo(e, [n, s], n, s);
  }

  // ------------------------------------------------------------------------- the two readings

  /** What marking the whole transitive closure of a write to `s` would make of node `n`. */
  ghost function FullMark(e: Edges, before: States, s: NodeId, n: NodeId): State
    requires n in before
  {
    if s in Deps(e, n) then Dirty
    else if Reaches(e, n, s) then Stalest(before[n], Check)
    else before[n]
  }

  ghost predicate Raised(before: States, after: States) {
    && after.Keys == before.Keys
    && (forall n :: n in before ==> before[n].Level() <= after[n].Level())
  }

  /** A state changes only to the mark delivered, at a direct observer, or to Check further up. */
  ghost predicate ChangeAllowed(e: Edges, before: States, after: States, s: NodeId, mark: State, n: NodeId) {
    n in before && n in after && after[n] != before[n] ==>
      (after[n] == mark && s in Deps(e, n)) || (after[n] == Check && Reaches(e, n, s))
  }

  /** A node that went stale has told every observer. */
  ghost predicate ToldObservers(e: Edges, before: States, after: States, d: NodeId) {
    d in before && d in after && before[d] == Clean && after[d] != Clean ==>
      forall n :: n in Observers(e, d) && n in after ==> after[n] != Clean
  }

  /** What marking the observers of `s`, stopping at nodes already stale, promises. */
  ghost predicate Marked(e: Edges, before: States, after: States, s: NodeId, mark: State) {
    && Raised(before, after)
    && (forall n :: n in Observers(e, s) && n in after ==> mark.Level() <= after[n].Level())
    && (forall n :: ChangeAllowed(e, before, after, s, mark, n))
    && (forall d :: ToldObservers(e, before, after, d))
  }

  /** Stale closure, as far as marks go: a stale dependency has no Clean observer. */
  ghost predicate StaleClosed(e: Edges, st: States, exempt: set<NodeId>) {
    forall n, d {:trigger d in Deps(e, n)} ::
      d in Deps(e, n) && n in st && d in st && n !in exempt && st[d] != Clean ==> st[n] != Clean
  }

  lemma InvStaleClosed(g: Graph)
    requires Inv(g)
    ensures StaleClosed(g.edges, g.state, g.past.exempt)
  {
    InvParts(g);
    hide Inv, ProgramsScoped, EdgesTyped, DirtyJustified, Valued, Historic, Acyclic, Mirrored, EdgesBelow;
    forall n: NodeId, d: NodeId {:trigger d in Deps(g.edges, n)} |
      d in Deps(g.edges, n) && n in g.state && d in g.state && n !in g.past.exempt && g.state[d] != Clean
      ensures g.state[n] != Clean
    {
      assert InState(g, n, Clean) ==> Current(g, n, d);
    }
  }

  /** Every node on a recorded path to the written node ends up stale. */
  lemma {:induction false} PathIsStale(
    e: Edges, before: States, after: States, exempt: set<NodeId>, s: NodeId, mark: State, path: seq<NodeId>, n: NodeId)
    requires Mirrored(e) && Marked(e, before, after, s, mark) && mark != Clean && StaleClosed(e, before, exempt)
    requires PathTo(e, path, n, s) && n in before && n !in exempt
    requires forall i :: 0 < i < |path| - 1 ==> path[i] in before && path[i] !in exempt
    ensures after[n] != Clean
    decreases |path|
  {
    var m := path[0 + 1];
    assert m in Deps(e, n);
    assert n in Observers(e, m);
    if |path| > 2 {
      assert forall i :: 0 <= i < |path[1..]| ==> path[1..][i] == path[i + 1];
      assert path[1..][|path| - 2] == s;
      assert PathTo(e, path[1..], m, s);
      PathIsStale(e, before, after, exempt, s, mark, path[1..], m);
      if before[m] == Clean {
        assert ToldObservers(e, before, after, m);
      }
    }
  }

  lemma {:induction false} PathIsComputed(g: Graph, path: seq<NodeId>, n: NodeId, s: NodeId, i: nat)
    requires Inv(g) && PathTo(g.edges, path, n, s) && 0 < i < |path| - 1
    ensures path[i] in g.state && path[i] !in g.past.exempt
  {
    InvParts(g);
    hide Inv, ProgramsScoped, CleanClosed, DirtyJustified, Valued, Historic, Acyclic, Mirrored, EdgesBelow;
    var m, d, x := path[i - 1], path[i - 1 + 1], path[i + 1];
    assert d in Deps(g.edges, m);
    assert x in Deps(g.edges, d);
  }

  /** Pruned marking is full marking, in whatever order observers are visited. */
  lemma PrunedIsFull(g: Graph, after: States, s: NodeId, n: NodeId)
    requires Inv(g) && Marked(g.edges, g.state, after, s, Dirty) && n in g.state && n !in g.past.exempt
    ensures after[n] == FullMark(g.edges, g.state, s, n)
  {
    InvParts(g);
    InvStaleClosed(g);
    hide Inv, Typed, ProgramsScoped, EdgesTyped, CleanClosed, DirtyJustified, Valued, Historic, Acyclic, EdgesBelow, StaleClosed;
    assert ChangeAllowed(g.edges, g.state, after, s, Dirty, n);
    if s in Deps(g.edges, n) {
      assert n in Observers(g.edges, s);
    } else if Reaches(g.edges, n, s) {
      var path :| PathTo(g.edges, path, n, s);
      forall i | 0 < i < |path| - 1
        ensures path[i] in g.state && path[i] !in g.past.exempt
      {
        PathIsComputed(g, path, n, s, i);
      }
      PathIsStale(g.edges, g.state, after, g.past.exempt, s, Dirty, path, n);
    }
  }

  /** A Clean observer of a Clean observer of the source, and not of the source itself, is told to check. */
  lemma TwoStepsUp(e: Edges, before: States, after: States, s: NodeId, m: NodeId, n: NodeId)
    requires Mirrored(e) && Marked(e, before, after, s, Dirty) && {m, n} <= before.Keys && before[m] == before[n] == Clean
    requires s in Deps(e, m) && m in Deps(e, n) && s !in Deps(e, n)
    ensures n in after && after[n] == Check
  {
    hide Reaches;
    assert m in Observers(e, s) && n in Observers(e, m);
    hide Mirrored;
    assert ToldObservers(e, before, after, m);
    assert ChangeAllowed(e, before, after, s, Dirty, n);
  }

  // ---------------------------------------------------------------------------- composing marks

  lemma RaisedTransitive(a: States, b: States, c: States)
    requires Raised(a, b) && Raised(b, c)
    ensures Raised(a, c)
  {
    forall n | n in a
      ensures a[n].Level() <= c[n].Level()
    {
      assert a[n].Level() <= b[n].Level() <= c[n].Level();
    }
  }

  lemma ToldStays(e: Edges, a: States, b: States, c: States)
    requires Raised(a, b) && Raised(b, c)
    requires forall d :: ToldObservers(e, a, b, d)
    requires forall d :: ToldObservers(e, b, c, d)
    ensures forall d :: ToldObservers(e, a, c, d)
  {
    forall d
      ensures ToldObservers(e, a, c, d)
    {
      assert ToldObservers(e, a, b, d) && ToldObservers(e, b, c, d);
      if d in a && a[d] == Clean && c[d] != Clean {
        forall n | n in Observers(e, d) && n in c
          ensures c[n] != Clean
        {
          assert b[n].Level() <= c[n].Level();
        }
      }
    }
  }

  lemma ReachesOnward(e: Edges, n: NodeId, m: NodeId, s: NodeId)
    requires Reaches(e, n, m) && s in Deps(e, m)
    ensures Reaches(e, n, s)
  {
    var path :| PathTo(e, path, n, m);
    var longer := path + [s];
    forall i | 0 <= i < |longer| - 1
      ensures longer[i + 1] in Deps(e, longer[i])
    {
      if i < |path| - 1 {
        assert path[i + 1] in Deps(e, path[i]);
      }
    }
    assert PathTo(e, longer, n, s);
  }

  /** What delivering `mark` to one observer `n` promises. */
  ghost predicate Delivered(e: Edges, before: States, after: States, n: NodeId, mark: State) {
    && Raised(before, after)
    && (n in after ==> mark.Level() <= after[n].Level())
    && (forall m :: DeliveryAllowed(e, before, after, n, mark, m))
    && (forall d :: ToldObservers(e, before, after, d))
  }

  ghost predicate DeliveryAllowed(e: Edges, before: States, after: States, n: NodeId, mark: State, m: NodeId) {
    m in before && m in after && after[m] != before[m] ==>
      (after[m] == mark && m == n) || (after[m] == Check && Reaches(e, m, n))
  }

  /** An effect, or a computed node that was stale already, passes nothing on. */
  lemma DeliveredAlone(e: Edges, before: States, n: NodeId, mark: State)
    requires n in before && mark != Clean && (before[n] == Clean ==> Observers(e, n) == {})
    ensures Delivered(e, before, before[n := Stalest(before[n], mark)], n, mark)
  {
  }

  /** A computed node leaving the clean state tells its observers to check. */
  lemma DeliveredOnward(e: Edges, before: States, after: States, n: NodeId, mark: State)
    requires n in before && mark != Clean && before[n] == Clean
    requires Marked(e, before[n := mark], after, n, Check)
    ensures Delivered(e, before, after, n, mark)
  {
    var mid := before[n := mark];
    assert Raised(before, mid);
    RaisedTransitive(before, mid, after);
    forall m
      ensures DeliveryAllowed(e, before, after, n, mark, m)
    {
      assert ChangeAllowed(e, mid, after, n, Check, m);
      if m in before && n in Deps(e, m) {
        ReachesDirectly(e, m, n);
      }
    }
    forall d
      ensures ToldObservers(e, before, after, d)
    {
      assert ToldObservers(e, mid, after, d);
    }
  }

  /** Marking so far, then one more delivery. */
  lemma MarkedOneMore(e: Edges, before: States, mid: States, after: States, s: NodeId, mark: State, n: NodeId)
    requires MarkedSoFar(e, before, mid, s, mark) && Delivered(e, mid, after, n, mark) && s in Deps(e, n)
    ensures MarkedSoFar(e, before, after, s, mark)
  {
    RaisedTransitive(before, mid, after);
    ToldStays(e, before, mid, after);
    forall m
      ensures ChangeAllowed(e, before, after, s, mark, m)
    {
      assert ChangeAllowed(e, before, mid, s, mark, m) && DeliveryAllowed(e, mid, after, n, mark, m);
      if m in before && after[m] != mid[m] && Reaches(e, m, n) {
        ReachesOnward(e, m, n, s);
      }
    }
  }

  ghost predicate MarkedSoFar(e: Edges, before: States, after: States, s: NodeId, mark: State) {
    && Raised(before, after)
    && (forall n :: ChangeAllowed(e, before, after, s, mark, n))
    && (forall d :: ToldObservers(e, before, after, d))
  }

  // --------------------------------------------------------------------------------- a write

  /** A source takes a new value: its version moves and, for the record, stands for that value. */
  ghost function Written(g: Graph, s: NodeId, v: Value): Graph
    requires s in g.meta
  {
    g.(meta := g.meta[s := g.meta[s].(version := g.meta[s].version + 1)],
       cache := g.cache[s := v],
       past := g.past.(hist := g.past.hist[Stamp(s, Ver(g, s) + 1) := v]))
  }

  ghost predicate WrittenAndMarked(g: Graph, g': Graph, s: NodeId, v: Value) {
    && IsSignal(g, s)
    && g' == Written(g, s, v).(state := g'.state)
    && Marked(g.edges, g.state, g'.state, s, Dirty)
  }

  /** A write followed by marking keeps the whole invariant. */
  lemma WriteKeepsInv(g: Graph, g': Graph, s: NodeId, v: Value)
    requires Inv(g) && WrittenAndMarked(g, g', s, v)
    ensures Inv(g')
    ensures forall n :: SameKind(g, g', n) && Ver(g, n) <= Ver(g', n)
    ensures forall k :: k in g.past.hist ==> k in g'.past.hist && g'.past.hist[k] == g.past.hist[k]
  {
    hide Inv;
    InvParts(g);
    hide Valued, Historic, CleanClosed, DirtyJustified, Acyclic, EdgesTyped, ProgramsScoped, EdgesBelow, Typed, Mirrored, Marked;
    WriteKinds(g, g', s, v);
    WriteTyped(g, g', s, v);
    WriteHist(g, g', s, v);
    WriteClosed(g, g', s, v);
    WriteJustified(g, g', s, v);
    WriteValued(g, g', s, v);
    InvWhole(g');
  }

  lemma WriteKinds(g: Graph, g': Graph, s: NodeId, v: Value)
    requires WrittenAndMarked(g, g', s, v)
    ensures forall n :: SameKind(g, g', n) && Ver(g, n) <= Ver(g', n)
    ensures forall n :: n != s ==> Ver(g', n) == Ver(g, n)
    ensures Ver(g', s) == Ver(g, s) + 1
    ensures g'.meta.Keys == g.meta.Keys && Readable(g'.meta) == Readable(g.meta)
    ensures g'.edges == g.edges && g'.program == g.program && g'.active == g.active && g'.past.exempt == g.past.exempt
  {
    hide Marked;
    assert g'.meta == g.meta[s := g.meta[s].(version := g.meta[s].version + 1)];
    forall n
      ensures n in Readable(g'.meta) <==> n in Readable(g.meta)
    {
    }
  }

  lemma WriteTyped(g: Graph, g': Graph, s: NodeId, v: Value)
    requires WrittenAndMarked(g, g', s, v) && Typed(g) && ProgramsScoped(g) && EdgesTyped(g) && EdgesBelow(g)
    ensures Typed(g') && ProgramsScoped(g') && EdgesTyped(g') && EdgesBelow(g')
  {
    WriteTyped0(g, g', s, v);
    WriteTyped1(g, g', s, v);
  }

  lemma WriteTyped0(g: Graph, g': Graph, s: NodeId, v: Value)
    requires WrittenAndMarked(g, g', s, v) && Typed(g)
    ensures Typed(g')
  {
    WriteKinds(g, g', s, v);
    assert g'.state.Keys == g.state.Keys;
    hide Marked;
    forall n
      ensures n in g'.program <==> Computed(g', n)
      ensures n in g'.state <==> Computed(g', n) || IsEffect(g', n)
      ensures IsSignal(g', n) ==> n in g'.cache
      ensures n in g'.cache ==> n in Readable(g'.meta)
      ensures n in g'.past.exempt ==> IsEffect(g', n)
      ensures n in g'.active ==> n in g'.state
    {
      assert SameKind(g, g', n);
      assert n in g'.state <==> n in g.state;
    }
  }

  lemma WriteTyped1(g: Graph, g': Graph, s: NodeId, v: Value)
    requires WrittenAndMarked(g, g', s, v) && ProgramsScoped(g) && EdgesTyped(g) && EdgesBelow(g)
    ensures ProgramsScoped(g') && EdgesTyped(g') && EdgesBelow(g')
  {
    WriteKinds(g, g', s, v);
    assert g'.state.Keys == g.state.Keys;
    hide Marked, WrittenAndMarked;
    forall n: NodeId, d: NodeId {:trigger d in Deps(g'.edges, n)} | d in Deps(g'.edges, n)
      ensures n in g'.state && d in Readable(g'.meta) && Deps(g'.edges, n)[d] <= Ver(g', d)
    {
      assert d in Deps(g.edges, n);
      assert Ver(g, d) <= Ver(g', d);
    }
  }

  lemma WriteHist(g: Graph, g': Graph, s: NodeId, v: Value)
    requires WrittenAndMarked(g, g', s, v) && Historic(g)
    ensures Historic(g')
    ensures forall k :: k in g.past.hist ==> k in g'.past.hist && g'.past.hist[k] == g.past.hist[k]
  {
    WriteKinds(g, g', s, v);
    hide Marked;
    assert Stamp(s, Ver(g, s) + 1) !in g.past.hist;
    forall n | n in g'.cache
      ensures Stamp(n, Ver(g', n)) in g'.past.hist && g'.past.hist[Stamp(n, Ver(g', n))] == g'.cache[n]
    {
      if n != s {
        assert Stamp(n, Ver(g, n)) in g.past.hist;
      }
    }
    forall k | k in g'.past.hist
      ensures k.node in Readable(g'.meta) && k.version <= Ver(g', k.node)
    {
      assert Ver(g, k.node) <= Ver(g', k.node);
    }
  }

  lemma WriteClosed(g: Graph, g': Graph, s: NodeId, v: Value)
    requires WrittenAndMarked(g, g', s, v) && CleanClosed(g) && Mirrored(g.edges)
    ensures CleanClosed(g')
  {
    WriteKinds(g, g', s, v);
    forall n | InState(g', n, Clean) && n !in g'.past.exempt
      ensures AllCurrent(g', n)
    {
      assert g.state[n].Level() <= g'.state[n].Level();
      assert AllCurrent(g, n);
      forall d | d in Deps(g'.edges, n)
        ensures Current(g', n, d)
      {
        assert n in Observers(g.edges, d);
        assert Current(g, n, d);
        assert d != s;
        assert SameKind(g, g', d);
        assert ToldObservers(g.edges, g.state, g'.state, d);
      }
    }
  }

  lemma WriteJustified(g: Graph, g': Graph, s: NodeId, v: Value)
    requires WrittenAndMarked(g, g', s, v) && DirtyJustified(g) && EdgesTyped(g)
    ensures DirtyJustified(g')
  {
    WriteKinds(g, g', s, v);
    forall n | Computed(g', n) && InState(g', n, Dirty)
      ensures Warranted(g', n)
    {
      assert SameKind(g, g', n);
      assert ChangeAllowed(g.edges, g.state, g'.state, s, Dirty, n);
      if g.state[n] == Dirty {
        assert Warranted(g, n);
        if d :| Moved(g, n, d) {
          assert Ver(g, d) <= Ver(g', d);
          assert Moved(g', n, d);
        }
      } else {
        assert s in Deps(g.edges, n);
        assert Moved(g', n, s);
      }
    }
  }

  lemma WriteValued(g: Graph, g': Graph, s: NodeId, v: Value)
    requires WrittenAndMarked(g, g', s, v) && Valued(g) && Historic(g)
    ensures Valued(g')
  {
    WriteKinds(g, g', s, v);
    WriteHist(g, g', s, v);
    hide Historic;
    forall n | Computed(g', n) && n in g'.state && g'.state[n] != Dirty && n !in g'.active
      ensures Explained(g', n)
    {
      assert SameKind(g, g', n);
      assert g.state[n].Level() <= g'.state[n].Level();
      assert Explained(g, n);
      RecordedElsewhere(g.edges, g'.edges, g.past.hist, g'.past.hist, n, g.past.log[n]);
    }
  }
}
