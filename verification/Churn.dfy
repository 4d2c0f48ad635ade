/** What code run by effects (bodies, cleanups, nested flushes) may do to the world: anything, except
    to the effects that are in the middle of their own run. */
module Churning {

  import opened Computation
  import opened Graphs
  import opened Frames
  import opened Steps
  import opened Evolution
  import opened Refreshing
  import opened Marking
  import opened EffectSteps
  import opened Lanes
  import opened LaneSteps

  ghost function CleanupsOf(l: Lane, n: NodeId): seq<Cleanup> { if n in l.cleanups then l.cleanups[n] else [] }

  /** All that a run in progress relies on: its recorded edges, its window and its registered
      cleanups. Its mark may be raised, and a run may become owed. */
  ghost predicate HeldStill(g: Graph, l: Lane, g': Graph, l': Lane, n: NodeId) {
    && Deps(g'.edges, n) == Deps(g.edges, n)
    && Order(g'.edges, n) == Order(g.edges, n)
    && (n in g'.past.exempt <==> n in g.past.exempt)
    && (n in g'.past.log <==> n in g.past.log)
    && (n in l'.tainted <==> n in l.tainted)
    && (n in l'.superseded <==> n in l.superseded)
    && CleanupsOf(l', n) == CleanupsOf(l, n)
  }

  ghost predicate Churns(g: Graph, l: Lane, g': Graph, l': Lane, held: set<NodeId>) {
    && g'.program == g.program
    && (forall n :: SameKind(g, g', n))
    && VersionsGrow(g, g')
    && HistKept(g, g')
    && l'.body == l.body
    && l'.disposed == l.disposed
    && (forall n :: n in held ==> HeldStill(g, l, g', l', n))
  }

  lemma ChurnsReflexive(g: Graph, l: Lane, held: set<NodeId>)
    ensures Churns(g, l, g, l, held)
  {
  }

  lemma ChurnsTransitive(g: Graph, l: Lane, g1: Graph, l1: Lane, g2: Graph, l2: Lane, held1: set<NodeId>, held2: set<NodeId>, held: set<NodeId>)
    requires Churns(g, l, g1, l1, held1) && Churns(g1, l1, g2, l2, held2) && held <= held1 && held <= held2
    ensures Churns(g, l, g2, l2, held)
  {
    hide HeldStill;
    forall n
      ensures SameKind(g, g2, n) && Ver(g, n) <= Ver(g2, n)
    {
      assert SameKind(g, g1, n) && SameKind(g1, g2, n);
      assert Ver(g, n) <= Ver(g1, n) <= Ver(g2, n);
    }
    forall n | n in held
      ensures HeldStill(g, l, g2, l2, n)
    {
      assert HeldStill(g, l, g1, l1, n) && HeldStill(g1, l1, g2, l2, n);
      HeldTwice(g, l, g1, l1, g2, l2, n);
    }
  }

  lemma HeldTwice(g: Graph, l: Lane, g1: Graph, l1: Lane, g2: Graph, l2: Lane, n: NodeId)
    requires HeldStill(g, l, g1, l1, n) && HeldStill(g1, l1, g2, l2, n)
    ensures HeldStill(g, l, g2, l2, n)
  {
  }

  /** Refreshing memos, and recording reads for effects outside `held`. */
  lemma EvolvesChurns(g: Graph, l: Lane, g': Graph, l': Lane, busy: set<NodeId>, open: set<NodeId>, ok: bool, held: set<NodeId>)
    requires Evolves(g, g', busy, open, ok) && held !! open && forall n :: n in held ==> !Computed(g, n)
    requires l' == l.(superseded := l'.superseded) && l'.superseded - open == l.superseded - open
    ensures Churns(g, l, g', l', held)
  {
    forall n
      ensures SameKind(g, g', n)
    {
      assert EvolvesAt(g, g', busy, open, ok, n);
    }
    forall n | n in held
      ensures HeldStill(g, l, g', l', n)
    {
      assert EvolvesAt(g, g', busy, open, ok, n);
      assert n in l'.superseded - open <==> n in l.superseded - open;
    }
  }

  lemma WriteChurns(g: Graph, l: Lane, g': Graph, l': Lane, s: NodeId, v: Value, held: set<NodeId>)
    requires WrittenAndMarked(g, g', s, v) && HistKept(g, g') && l' == l.(queue := l'.queue, scheduled := l'.scheduled)
    ensures Churns(g, l, g', l', held) && Spares(g, g')
  {
    WriteKinds(g, g', s, v);
    hide Marked;
    assert !SourcesStill(g, g');
  }

  /** A step of effect `n` alone. */
  ghost predicate StepOf(g: Graph, l: Lane, g': Graph, l': Lane, n: NodeId) {
    && g'.program == g.program && g'.meta == g.meta && g'.past.hist == g.past.hist
    && (forall m :: m != n ==> SameNode(g, g', m))
    && g'.past.exempt - {n} == g.past.exempt - {n} && g'.past.runs == g.past.runs
    && l'.body == l.body && l'.disposed == l.disposed
    && l'.tainted - {n} == l.tainted - {n} && l'.superseded - {n} == l.superseded - {n}
    && (forall m :: m != n ==> CleanupsOf(l', m) == CleanupsOf(l, m))
  }

  lemma StepChurns(g: Graph, l: Lane, g': Graph, l': Lane, n: NodeId, held: set<NodeId>)
    requires StepOf(g, l, g', l', n) && n !in held
    ensures Churns(g, l, g', l', held)
    ensures !Computed(g, n) ==> Spares(g, g') && Sparing(g, g')
  {
    if !Computed(g, n) {
      ElsewhereSpares(g, g', n);
    }
    forall m | m in held
      ensures HeldStill(g, l, g', l', m)
    {
      assert SameNode(g, g', m);
      assert m in g'.past.exempt - {n} <==> m in g.past.exempt - {n};
      assert m in l'.tainted - {n} <==> m in l.tainted - {n};
      assert m in l'.superseded - {n} <==> m in l.superseded - {n};
    }
  }

  lemma TakingIsStep(g: Graph, l: Lane, n: NodeId)
    ensures StepOf(g, l, MarkTaken(g, n), Unlatched(l, n), n) && StepOf(g, l, Settled(g, n), l, n)
  {
  }

  lemma RestoringIsStep(g: Graph, l: Lane, n: NodeId)
    ensures StepOf(g, l, MarkRestored(g, n), Latched(l, n), n)
  {
  }

  lemma LeavingIsStep(g: Graph, l: Lane, n: NodeId, events: seq<ReadEvent>)
    ensures StepOf(g, l, BodyLeft(g, n, events), l.(tainted := l.tainted - {n}), n)
  {
  }

  lemma UnwindingIsStep(g: Graph, l: Lane, n: NodeId)
    ensures StepOf(g, l, BodyUnwound(g, n), l.(running := l.running - {n}, tainted := l.tainted + {n}), n)
  {
  }

  lemma EnteringIsStep(g: Graph, l: Lane, e': Edges, n: NodeId)
    requires EdgesCleared(g.edges, e', n)
    ensures StepOf(g, l, BodyEntered(g, e', n), InBody(l, n), n)
  {
  }

  // ------------------------------------------------------------------------ writes and the stack

  /** A write leaves the activation records in order: only effects are on the stack. */
  lemma {:induction false} WriteKeepsFrames(g: Graph, fs: Frames, running: set<NodeId>, g': Graph, s: NodeId, v: Value)
    requires Framed(g, fs) && EffectFrames(g, fs, running) && WrittenAndMarked(g, g', s, v)
    ensures Framed(g', fs)
  {
    WriteKinds(g, g', s, v);
    if fs.Push? {
      assert SameKind(g, g', fs.top.node);
      assert g'.state.Keys == g.state.Keys;
      hide Marked;
      WriteKeepsFrames(g, fs.below, running, g', s, v);
    }
  }

  // --------------------------------------------------------------------------- a body's reads

  lemma NoEventsKept(e: Edges, hist: map<Stamp, Value>, n: NodeId)
    requires Deps(e, n) == map[]
    ensures EventsKept(e, hist, n, [], false)
  {
  }

  /** Nothing but the body itself moves its recorded reads. */
  lemma ChurnKeepsEvents(g: Graph, l: Lane, g': Graph, l': Lane, held: set<NodeId>, n: NodeId, events: seq<ReadEvent>)
    requires Churns(g, l, g', l', held) && n in held && EventsKept(g.edges, g.past.hist, n, events, n in l.superseded)
    ensures EventsKept(g'.edges, g'.past.hist, n, events, n in l'.superseded)
  {
    assert HeldStill(g, l, g', l', n);
    EventsElsewhere(g, g', n, events, n in l.superseded);
  }

  ghost predicate ReadAdds(g: Graph, g': Graph, n: NodeId, event: ReadEvent) {
    && Stamp(event.node, event.version) in g'.past.hist && g'.past.hist[Stamp(event.node, event.version)] == event.value
    && Deps(g'.edges, n) == (if event.tracked then Deps(g.edges, n)[event.node := event.version] else Deps(g.edges, n))
    && (event.node in Deps(g.edges, n) ==> Deps(g.edges, n)[event.node] <= event.version)
    && HistKept(g, g')
  }

  /** One more read: it supersedes an earlier read of the same node at another version. */
  lemma ReadKeepsEvents(g: Graph, g': Graph, n: NodeId, events: seq<ReadEvent>, event: ReadEvent, before: bool, after: bool)
    requires EventsKept(g.edges, g.past.hist, n, events, before) && ReadAdds(g, g', n, event)
    requires after == (before || (event.tracked && Supersedes(g.edges, n, event.node, event.version)))
    ensures EventsKept(g'.edges, g'.past.hist, n, events + [event], after)
  {
    var all := events + [event];
    forall i | 0 <= i < |all|
      ensures EventKept(g'.edges, g'.past.hist, n, all[i], after)
    {
      if i < |events| {
        assert EventKept(g.edges, g.past.hist, n, events[i], before);
      }
    }
    forall d | d in Deps(g'.edges, n)
      ensures TracksNode(all, d)
    {
      if d in Deps(g.edges, n) {
        var i :| 0 <= i < |events| && events[i].tracked && events[i].node == d;
        assert all[i] == events[i];
      } else {
        assert all[|events|] == event;
      }
    }
    if before {
      var i :| 0 <= i < |events| && Outdated(g.edges, n, events[i]);
      assert Outdated(g'.edges, n, all[i]);
    } else if after {
      var i :| 0 <= i < |events| && events[i].tracked && events[i].node == event.node;
      assert EventKept(g.edges, g.past.hist, n, events[i], before);
      assert Outdated(g'.edges, n, all[i]);
    }
  }
}
