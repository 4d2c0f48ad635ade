/** Flushes that cannot fail: where every read is foreseen to return and no body or cleanup writes, flushes
    or panics, each effect runs a bounded number of times and the queue runs dry. */
module Calm {

  import opened Computation
  import opened Graphs
  import opened Frames
  import opened Steps
  import opened Evolution
  import opened Foresight
  import opened EffectSteps
  import opened Lanes
  import opened LaneSteps
  import opened Churning

  /** A body that reads, and registers cleanups that touch no node. */
  ghost predicate CalmBody(b: Body) {
    match b
    case Finish => true
    case ReadNode(_, _, rest) => CalmBody(rest)
    case Choose(_, yes, no) => CalmBody(yes) && CalmBody(no)
    case Write(_, _, _, _) => false
    case FlushNow(_) => false
    case OnCleanup(c, rest) => c == [] && CalmBody(rest)
    case Throw => false
  }

  ghost predicate CalmList(list: seq<Cleanup>) { forall i :: 0 <= i < |list| ==> list[i] == [] }

  ghost predicate CalmLane(l: Lane) {
    && (forall n :: n in l.body ==> CalmBody(l.body[n]))
    && (forall n :: CalmList(CleanupsOf(l, n)))
  }

  lemma CalmStays(l: Lane, l': Lane)
    requires CalmLane(l) && l'.body == l.body && l'.cleanups == l.cleanups
    ensures CalmLane(l')
  {
    assert forall n :: CleanupsOf(l', n) == CleanupsOf(l, n);
  }

  /** Every read anybody makes is foreseen to return, and effects only read. */
  ghost predicate Peaceful(g: Graph, l: Lane, guide: Guide) {
    && Guided(g, guide) && (forall d :: d in Readable(g.meta) ==> guide.reach(d))
    && CalmLane(l)
  }

  /** How many runs of `n` are still to come: queued, owed, or under consideration. */
  ghost function Owed(l: Lane, opening: set<NodeId>, n: NodeId): nat {
    multiset(l.queue)[n] + (if n in l.rerun then 1 else 0) + (if n in opening then 1 else 0)
  }

  /** Runs made and runs to come are two at most, for each live effect. */
  ghost predicate Unspent(l: Lane, tokens: set<(NodeId, int)>, opening: set<NodeId>) {
    forall n :: n in l.body && n !in l.disposed ==> Owed(l, opening, n) <= 2 && (n, 2 - Owed(l, opening, n)) in tokens
  }

  ghost predicate Serene(g: Graph, l: Lane, tokens: set<(NodeId, int)>, guide: Guide, opening: set<NodeId>) {
    Peaceful(g, l, guide) && Unspent(l, tokens, opening)
  }

  /** With closures that read only older nodes every read is foreseen to return. */
  lemma LayeredIsPeaceful(g: Graph, l: Lane)
    requires Inv(g) && Layered(g.program) && CalmLane(l)
    ensures Peaceful(g, l, OldestFirst())
  {
    LayeredIsGuided(g);
  }

  // ---------------------------------------------------------------------------------- the graph

  lemma SparingKeepsWorld(g: Graph, g': Graph)
    requires Typed(g) && Typed(g') && Historic(g) && Historic(g') && HistKept(g, g') && Sparing(g, g') && g'.program == g.program
    ensures WorldOf(g') == WorldOf(g)
  {
    hide Spares, Readable;
    SameKinds(g, g');
    var w, w' := WorldOf(g), WorldOf(g');
    forall s
      ensures s in w'.sources <==> s in w.sources
      ensures s in w.sources && s in w'.sources ==> w'.sources[s] == w.sources[s]
    {
      if IsSignal(g, s) {
        assert Ver(g', s) == Ver(g, s);
        assert Stamp(s, Ver(g, s)) in g.past.hist;
      }
    }
    assert w'.sources == w.sources;
  }

  lemma SameKinds(g: Graph, g': Graph)
    requires Sparing(g, g')
    ensures forall n :: (IsSignal(g, n) <==> IsSignal(g', n)) && (n in Readable(g.meta) <==> n in Readable(g'.meta))
  {
    forall n
      ensures (IsSignal(g, n) <==> IsSignal(g', n)) && (n in Readable(g.meta) <==> n in Readable(g'.meta))
    {
      assert SameKind(g, g', n);
    }
  }

  /** While no source moves, what is foreseen stays foreseen. */
  lemma SparingKeepsGuided(g: Graph, g': Graph, guide: Guide)
    requires Typed(g) && WorldOf(g') == WorldOf(g) && Sparing(g, g') && g'.program == g.program && Guided(g, guide)
    ensures Guided(g', guide)
  {
    forall n: NodeId, d: NodeId {:trigger Leads(g', guide.exact, n, d)} | guide.reach(n) && Leads(g', guide.exact, n, d)
      ensures Lower(guide, n, d)
    {
      assert Computed(g, n);
      assert EvolvesAt(g, g', {}, {}, true, n);
      LeadsBefore(g, g', guide.exact, n, d);
    }
  }

  lemma SereneOn(g: Graph, g': Graph, l: Lane, l': Lane, held: set<NodeId>, tokens: set<(NodeId, int)>, guide: Guide, opening: set<NodeId>)
    requires Inv(g) && Inv(g') && Churns(g, l, g', l', held) && Sparing(g, g')
    requires l' == l.(superseded := l'.superseded, tainted := l'.tainted)
    ensures Serene(g, l, tokens, guide, opening) ==> Serene(g', l', tokens, guide, opening)
  {
    InvParts(g);
    InvParts(g');
    hide Inv, Typed, ProgramsScoped, EdgesTyped, CleanClosed, DirtyJustified, Valued, Historic, Acyclic, Mirrored, EdgesBelow;
    hide Sparing, Guided, Readable;
    if Serene(g, l, tokens, guide, opening) {
      SparingKeepsWorld(g, g');
      SparingKeepsGuided(g, g', guide);
      SameKinds(g, g');
      forall n
        ensures CleanupsOf(l', n) == CleanupsOf(l, n)
      {
      }
      assert forall n :: n in l'.body && n !in l'.disposed ==> Owed(l', opening, n) == Owed(l, opening, n);
    }
  }

  // ----------------------------------------------------------------------------------- the lane

  lemma SerenePopped(g: Graph, l: Lane, tokens: set<(NodeId, int)>, guide: Guide)
    requires l.queue != []
    ensures Serene(g, l, tokens, guide, {}) ==> Serene(g, Popped(l), tokens, guide, {l.queue[0]})
  {
    assert l.queue == [l.queue[0]] + l.queue[1..];
    assert forall n :: Owed(Popped(l), {l.queue[0]}, n) == Owed(l, {}, n);
    assert forall n :: CleanupsOf(Popped(l), n) == CleanupsOf(l, n);
  }

  /** The job in hand is released, and goes on. */
  lemma SereneReleased(g: Graph, l: Lane, n: NodeId, tokens: set<(NodeId, int)>, guide: Guide, opening: set<NodeId>)
    ensures Serene(g, l, tokens, guide, opening) ==> Serene(g, Unlatched(l, n), tokens, guide, opening)
  {
    assert forall m :: Owed(Unlatched(l, n), opening, m) == Owed(l, opening, m);
    assert forall m :: CleanupsOf(Unlatched(l, n), m) == CleanupsOf(l, m);
  }

  /** The job in hand is over, at most leaving a rerun owed. */
  lemma SereneDropped(g: Graph, l: Lane, l': Lane, n: NodeId, tokens: set<(NodeId, int)>, guide: Guide)
    requires l' == l.(scheduled := l'.scheduled, rerun := l'.rerun) && l'.rerun - {n} == l.rerun - {n}
    requires forall m, j, k :: (m, j) in tokens && j <= k < 3 ==> (m, k) in tokens
    ensures Serene(g, l, tokens, guide, {n}) ==> Serene(g, l', tokens, guide, {})
  {
    if Serene(g, l, tokens, guide, {n}) {
      forall m
        ensures Owed(l', {}, m) <= Owed(l, {n}, m)
      {
        assert m in l'.rerun - {n} <==> m in l.rerun - {n};
      }
      assert forall m :: CleanupsOf(l', m) == CleanupsOf(l, m);
      hide Peaceful;
      forall m | m in l'.body && m !in l'.disposed
        ensures (m, 2 - Owed(l', {}, m)) in tokens
      {
        assert (m, 2 - Owed(l, {n}, m)) in tokens;
      }
      assert Peaceful(g, l', guide) by {
        PeacefulLane(g, l, l', guide);
      }
    }
  }

  lemma PeacefulLane(g: Graph, l: Lane, l': Lane, guide: Guide)
    requires Peaceful(g, l, guide) && l'.body == l.body && forall n :: CalmList(CleanupsOf(l', n))
    ensures Peaceful(g, l', guide)
  {
  }

  /** The guard counts the run in hand, spending its lowest token. */
  lemma SereneCounted(g: Graph, l: Lane, n: NodeId, tokens: set<(NodeId, int)>, used: nat, limit: nat, guide: Guide)
    requires limit > 2 && n in l.body && n !in l.disposed && forall j :: (n, j) in tokens <==> used <= j < limit
    ensures Serene(g, l, tokens, guide, {n}) ==> used < limit && Serene(g, l, tokens - {(n, used)}, guide, {})
  {
    if Serene(g, l, tokens, guide, {n}) {
      assert (n, 2 - Owed(l, {n}, n)) in tokens;
      assert Owed(l, {n}, n) == Owed(l, {}, n) + 1;
      assert (n, 2 - Owed(l, {}, n)) in tokens;
      assert forall m :: m != n ==> Owed(l, {}, m) == Owed(l, {n}, m);
    }
  }

  lemma SereneList(g: Graph, l: Lane, l': Lane, n: NodeId, list: seq<Cleanup>, tokens: set<(NodeId, int)>, guide: Guide)
    requires l' == l.(running := l'.running, cleanups := l.cleanups[n := list])
    requires CalmList(CleanupsOf(l, n)) ==> CalmList(list)
    ensures Serene(g, l, tokens, guide, {}) ==> Serene(g, l', tokens, guide, {}) && CalmList(CleanupsOf(l, n))
  {
    assert forall m :: CleanupsOf(l', m) == if m == n then list else CleanupsOf(l, m);
    assert forall m :: Owed(l', {}, m) == Owed(l, {}, m);
  }

  /** The window closes; a rerun owed is queued, or coalesced with one that is. */
  ghost function Closed(l: Lane, n: NodeId): Lane {
    (if n in l.rerun then Latched(l, n).(rerun := l.rerun - {n}) else l).(running := l.running - {n}, tainted := l.tainted - {n})
  }

  lemma ClosedFacts(l: Lane, n: NodeId)
    ensures Closed(l.(tainted := l.tainted - {n}), n) == Closed(l, n)
    ensures Closed(l, n).running == l.running - {n} && Closed(l, n).tainted == l.tainted - {n} && n !in Closed(l, n).rerun
    ensures Closed(l, n).cleanups == l.cleanups && Closed(l, n).body == l.body && Closed(l, n).disposed == l.disposed
  {
    assert l.tainted - {n} - {n} == l.tainted - {n};
  }

  lemma ClosedOwes(l: Lane, n: NodeId)
    ensures forall m :: Owed(Closed(l, n), {}, m) <= Owed(l, {}, m) && CleanupsOf(Closed(l, n), m) == CleanupsOf(l, m)
    ensures Closed(l, n).body == l.body && Closed(l, n).disposed == l.disposed
  {
    hide CleanupsOf;
    forall m
      ensures Owed(Closed(l, n), {}, m) <= Owed(l, {}, m) && CleanupsOf(Closed(l, n), m) == CleanupsOf(l, m)
    {
      ClosedOwesAt(l, n, m);
    }
  }

  lemma ClosedOwesAt(l: Lane, n: NodeId, m: NodeId)
    ensures Owed(Closed(l, n), {}, m) <= Owed(l, {}, m) && CleanupsOf(Closed(l, n), m) == CleanupsOf(l, m)
  {
    assert multiset(l.queue + [n]) == multiset(l.queue) + multiset{n};
  }

  lemma SereneClosed(g: Graph, l: Lane, n: NodeId, tokens: set<(NodeId, int)>, guide: Guide)
    requires forall m, j, k :: (m, j) in tokens && j <= k < 3 ==> (m, k) in tokens
    ensures Serene(g, l, tokens, guide, {}) ==> Serene(g, Closed(l, n), tokens, guide, {})
  {
    var l' := Closed(l, n);
    if Serene(g, l, tokens, guide, {}) {
      ClosedOwes(l, n);
      PeacefulLane(g, l, l', guide);
      hide Peaceful, Closed, Owed;
      forall m | m in l'.body && m !in l'.disposed
        ensures (m, 2 - Owed(l', {}, m)) in tokens
      {
        assert (m, 2 - Owed(l, {}, m)) in tokens;
      }
    }
  }

  /** A drain begins with the whole budget, and each live effect has at most one job. */
  lemma SereneStarts(g: Graph, fs: Frames, l: Lane, tokens: set<(NodeId, int)>, guide: Guide)
    requires LaneInv(g, fs, l, {}) && forall n, j :: n in l.body && 0 <= j < 3 ==> (n, j) in tokens
    ensures Peaceful(g, l, guide) ==> Serene(g, l, tokens, guide, {})
  {
    hide Peaceful;
    forall n | n !in l.disposed
      ensures multiset(l.queue)[n] <= 1
    {
      assert EffectOk(g, l, {}, n);
    }
  }
}
