/** A snapshot of the reactive graph, the invariant every reachable graph satisfies, and what the
    invariant means for the values a read returns. */
module Graphs {

  import opened Basics
  import opened Computation

  datatype NodeKind = Signal | Thunk | Memo | Effect

  datatype NodeMeta = NodeMeta(version: int, kind: NodeKind)

  /** Staleness of a computed node or effect, from freshest to stalest. */
  datatype State = Clean | Check | Dirty {
    function Level(): nat {
      match this
      case Clean => 0
      case Check => 1
      case Dirty => 2
    }
  }

  function Stalest(a: State, b: State): State {
    if a.Level() < b.Level() then b else a
  }

  /** The edge tables: what each observer recorded, with the versions read; the iteration order of
      each dependency table; and the reverse index. */
  datatype Edges = Edges(
    dependencies: map<NodeId, map<NodeId, int>>,
    order: map<NodeId, seq<NodeId>>,
    dependents: map<NodeId, set<NodeId>>)

  /** A version of a node. */
  datatype Stamp = Stamp(node: NodeId, version: int)

  /** History: nothing here is read by the code. The value each version stood for, the reads of each
      node's last complete run, a rank witnessing that the recorded edges are acyclic, how often
      each closure ran, the computed nodes whose last run unwound, and the effects whose mark is
      cleared while their old edges are still recorded. */
  datatype Past = Past(
    hist: map<Stamp, Value>,
    log: map<NodeId, seq<ReadEvent>>,
    rank: map<NodeId, nat>,
    runs: map<NodeId, nat>,
    faulted: set<NodeId>,
    exempt: set<NodeId>)

  /** The cells of the reactor and its nodes, one table per cell. */
  datatype Graph = Graph(
    meta: map<NodeId, NodeMeta>,
    program: map<NodeId, Comp>,
    edges: Edges,
    state: map<NodeId, State>,
    cache: map<NodeId, Value>,
    active: set<NodeId>,
    past: Past)

  // ------------------------------------------------------------------------------- vocabulary

  ghost predicate IsSignal(g: Graph, n: NodeId) { n in g.meta && g.meta[n].kind.Signal? }

  ghost predicate IsEffect(g: Graph, n: NodeId) { n in g.meta && g.meta[n].kind.Effect? }

  ghost predicate Computed(g: Graph, n: NodeId) {
    n in g.meta && (g.meta[n].kind.Thunk? || g.meta[n].kind.Memo?)
  }

  function Ver(g: Graph, n: NodeId): int { if n in g.meta then g.meta[n].version else 0 }

  function Deps(e: Edges, n: NodeId): map<NodeId, int> {
    if n in e.dependencies then e.dependencies[n] else map[]
  }

  function Order(e: Edges, n: NodeId): seq<NodeId> { if n in e.order then e.order[n] else [] }

  function Observers(e: Edges, d: NodeId): set<NodeId> {
    if d in e.dependents then e.dependents[d] else {}
  }

  function Runs(g: Graph, n: NodeId): nat { if n in g.past.runs then g.past.runs[n] else 0 }

  ghost function Readable(meta: map<NodeId, NodeMeta>): set<NodeId> {
    set n | n in meta && !meta[n].kind.Effect?
  }

  ghost predicate InState(g: Graph, n: NodeId, s: State) { n in g.state && g.state[n] == s }

  /** A node whose value may be used as it stands: a source, or a computed node that is Clean and
      not in the middle of computing. */
  ghost predicate Fresh(g: Graph, d: NodeId) {
    IsSignal(g, d) || (Computed(g, d) && InState(g, d, Clean) && d !in g.active)
  }

  /** The edge n -> d records the version d has now, and d's value may be used as it stands. */
  ghost predicate Current(g: Graph, n: NodeId, d: NodeId) {
    Fresh(g, d) && d in Deps(g.edges, n) && Deps(g.edges, n)[d] == Ver(g, d)
  }

  ghost predicate AllCurrent(g: Graph, n: NodeId) {
    forall d {:trigger d in Deps(g.edges, n)} :: d in Deps(g.edges, n) ==> Current(g, n, d)
  }

  // -------------------------------------------------------------------------------- invariant

  ghost predicate Typed(g: Graph) {
    && (forall n :: n in g.program <==> Computed(g, n))
    && (forall n :: n in g.state <==> Computed(g, n) || IsEffect(g, n))
    && (forall n :: IsSignal(g, n) ==> n in g.cache)
    && (forall n :: n in g.cache ==> n in Readable(g.meta))
    && (forall n :: n in g.past.exempt ==> IsEffect(g, n))
    && (forall n :: n in g.active ==> n in g.state)
  }

  ghost predicate ProgramsScoped(g: Graph) {
    forall n :: n in g.program ==> Scoped(g.program[n], Readable(g.meta))
  }

  /** Only observers record edges, only readable nodes are recorded, and no recorded version is
      newer than the node. */
  ghost predicate EdgesTyped(g: Graph) {
    forall n, d {:trigger d in Deps(g.edges, n)} :: d in Deps(g.edges, n) ==>
      n in g.state && d in Readable(g.meta) && Deps(g.edges, n)[d] <= Ver(g, d)
  }

  /** The two edge indexes mirror each other, and the iteration order of a dependency table lists
      exactly its keys. */
  ghost predicate Mirrored(e: Edges) {
    && (forall n, d {:trigger d in Deps(e, n)} {:trigger n in Observers(e, d)} ::
          d in Deps(e, n) <==> n in Observers(e, d))
    && (forall n, d {:trigger d in Deps(e, n)} {:trigger d in Order(e, n)} ::
          d in Deps(e, n) <==> d in Order(e, n))
  }

  /** Stale closure: the recorded dependencies of a Clean observer are all current, so a stale node
      has no Clean observer. Effects between their mark being cleared and their edges being
      dropped are exempt. */
  ghost predicate CleanClosed(g: Graph) {
    forall n :: InState(g, n, Clean) && n !in g.past.exempt ==> AllCurrent(g, n)
  }

  /** A Dirty computed node has a reason: nothing cached, a closure that unwound, or an input whose
      version moved since it was recorded. */
  ghost predicate DirtyJustified(g: Graph) {
    forall n :: Computed(g, n) && InState(g, n, Dirty) ==> Warranted(g, n)
  }

  ghost predicate Warranted(g: Graph, n: NodeId) {
    n !in g.cache || n in g.past.faulted || exists d :: Moved(g, n, d)
  }

  ghost predicate Moved(g: Graph, n: NodeId, d: NodeId) {
    d in Deps(g.edges, n) && Deps(g.edges, n)[d] < Ver(g, d)
  }

  /** The value read, tracked or not, is the one its version stands for. */
  ghost predicate TrueTo(hist: map<Stamp, Value>, event: ReadEvent) {
    Stamp(event.node, event.version) in hist && hist[Stamp(event.node, event.version)] == event.value
  }

  /** The event's version is the one on the recorded edge if the read was tracked, and stands for the value
      read in any case. */
  ghost predicate EventRecorded(e: Edges, hist: map<Stamp, Value>, n: NodeId, event: ReadEvent) {
    && TrueTo(hist, event)
    && (event.tracked ==> event.node in Deps(e, n) && Deps(e, n)[event.node] == event.version)
  }

  ghost predicate TracksNode(events: seq<ReadEvent>, d: NodeId) {
    exists i :: 0 <= i < |events| && events[i].tracked && events[i].node == d
  }

  /** The recorded edges of `n` are exactly the tracked reads in `events`. */
  ghost predicate Recorded(e: Edges, hist: map<Stamp, Value>, n: NodeId, events: seq<ReadEvent>) {
    && (forall i :: 0 <= i < |events| ==> EventRecorded(e, hist, n, events[i]))
    && (forall d {:trigger d in Deps(e, n)} :: d in Deps(e, n) ==> TracksNode(events, d))
  }

  /** The cached value of a computed node that is not Dirty is the result of a run whose tracked
      reads are the recorded edges. */
  ghost predicate Valued(g: Graph) {
    forall n :: Computed(g, n) && n in g.state && g.state[n] != Dirty && n !in g.active ==> Explained(g, n)
  }

  ghost predicate Explained(g: Graph, n: NodeId) {
    && n in g.cache && n in g.past.log && n in g.program && n !in g.past.faulted
    && Follows(g.program[n], [], g.past.log[n], g.cache[n])
    && Recorded(g.edges, g.past.hist, n, g.past.log[n])
  }

  /** A version stands for one value: equal versions mean equal values. */
  ghost predicate Historic(g: Graph) {
    && (forall n :: n in g.cache ==> Stamp(n, Ver(g, n)) in g.past.hist && g.past.hist[Stamp(n, Ver(g, n))] == g.cache[n])
    && (forall k :: k in g.past.hist ==> k.node in Readable(g.meta) && k.version <= Ver(g, k.node))
  }

  ghost predicate Acyclic(e: Edges, rank: map<NodeId, nat>) {
    forall n, d {:trigger d in Deps(e, n)} :: d in Deps(e, n) ==> n in rank && d in rank && rank[d] < rank[n]
  }

  /** With closures that only read older nodes, recorded edges lead to older nodes. */
  ghost predicate Layered(program: map<NodeId, Comp>) {
    forall n :: n in program ==> ReadsBelow(program[n], n)
  }

  ghost predicate EdgesBelow(g: Graph) {
    Layered(g.program) ==>
      forall n, d {:trigger d in Deps(g.edges, n)} :: d in Deps(g.edges, n) && n in g.program ==> d.raw < n.raw
  }

  ghost predicate Inv(g: Graph) {
    && Typed(g)
    && ProgramsScoped(g)
    && EdgesTyped(g)
    && Mirrored(g.edges)
    && CleanClosed(g)
    && DirtyJustified(g)
    && Valued(g)
    && Historic(g)
    && Acyclic(g.edges, g.past.rank)
    && g.past.rank.Keys == g.meta.Keys
    && EdgesBelow(g)
  }

  // --------------------------------------------------------------- what the invariant means

  ghost function WorldOf(g: Graph): World {
    World(map n | n in g.cache && IsSignal(g, n) :: g.cache[n], g.program)
  }

  /** A set of nodes closed under recorded dependencies whose closures read nothing untracked. */
  ghost predicate TrackedCone(g: Graph, cone: set<NodeId>) {
    && (forall n :: n in cone && n in g.program ==> Tracked(g.program[n]))
    && (forall n, d {:trigger d in Deps(g.edges, n)} :: n in cone && d in Deps(g.edges, n) ==> d in cone)
  }

  /** What the invariant says of a node that may be used as it stands. */
  lemma FreshKnows(g: Graph, n: NodeId)
    requires Inv(g) && Fresh(g, n)
    ensures n in g.cache && n in g.past.rank && Stamp(n, Ver(g, n)) in g.past.hist && g.past.hist[Stamp(n, Ver(g, n))] == g.cache[n]
    ensures Computed(g, n) ==> Explained(g, n) && AllCurrent(g, n) && n !in g.past.exempt && n in g.program
    ensures forall d {:trigger d in Deps(g.edges, n)} :: d in Deps(g.edges, n) ==> d in g.past.rank && g.past.rank[d] < g.past.rank[n]
  {
    hide EdgesBelow, DirtyJustified, Mirrored, ProgramsScoped, Recorded;
  }

  /** From-scratch correctness: the cached value of a node that may be used as it stands is what
      re-evaluating everything from the current sources would give. */
  lemma {:induction false} FreshIsFromScratch(g: Graph, n: NodeId, cone: set<NodeId>)
    requires Inv(g) && Fresh(g, n) && n in cone && TrackedCone(g, cone)
    ensures n in g.cache && n in g.past.rank
    ensures EvalNode(WorldOf(g), n, g.past.rank[n] + 1) == Some(g.cache[n])
    decreases if n in g.past.rank then g.past.rank[n] else 0
  {
    hide Inv;
    FreshKnows(g, n);
    if Computed(g, n) {
      var w := WorldOf(g);
      var events := g.past.log[n];
      TrackedEvents(g.program[n], [], events, g.cache[n]);
      forall i | 0 <= i < |events|
        ensures EvalNode(w, events[i].node, g.past.rank[n]) == Some(events[i].value)
      {
        var d := events[i].node;
        assert EventRecorded(g.edges, g.past.hist, n, events[i]);
        assert Current(g, n, d);
        FreshKnows(g, d);
        FreshIsFromScratch(g, d, cone);
        EvalNodeMonotone(w, d, g.past.rank[d] + 1, g.past.rank[n]);
      }
      FollowsEvaluates(w, g.program[n], [], events, g.cache[n], g.past.rank[n]);
    }
  }

  /** The same without fuel: the cached value is the only one from-scratch evaluation can give. */
  lemma FreshEvaluates(g: Graph, n: NodeId, cone: set<NodeId>)
    requires Inv(g) && Fresh(g, n) && n in cone && TrackedCone(g, cone)
    ensures n in g.cache && Evaluates(WorldOf(g), n, g.cache[n])
    ensures forall v :: Evaluates(WorldOf(g), n, v) ==> v == g.cache[n]
  {
    hide Inv;
    FreshIsFromScratch(g, n, cone);
    assert EvalNode(WorldOf(g), n, g.past.rank[n] + 1) == Some(g.cache[n]);
    forall v | Evaluates(WorldOf(g), n, v)
      ensures v == g.cache[n]
    {
      EvaluatesDeterministic(WorldOf(g), n, v, g.cache[n]);
    }
  }

  /** When no closure reads untracked, every node is in the cone. */
  lemma AllTracked(g: Graph)
    requires Inv(g) && forall n :: n in g.program ==> Tracked(g.program[n])
    ensures TrackedCone(g, g.meta.Keys)
  {
    hide ProgramsScoped, CleanClosed, DirtyJustified, Valued, Historic, Acyclic, Mirrored, EdgesBelow, Typed;
    forall n: NodeId, d: NodeId {:trigger d in Deps(g.edges, n)} | d in Deps(g.edges, n)
      ensures d in g.meta
    {
      assert d in Readable(g.meta);
    }
  }

  ghost predicate RecordedPath(e: Edges, path: seq<NodeId>) {
    forall i :: 0 <= i < |path| - 1 ==> path[i + 1] in Deps(e, path[i])
  }

  /** The recorded dependency graph has no cycle, whatever the closures read. */
  lemma {:induction false} RecordedPathsDescend(e: Edges, rank: map<NodeId, nat>, path: seq<NodeId>)
    requires Acyclic(e, rank) && |path| >= 2 && RecordedPath(e, path)
    ensures path[0] in rank && path[|path| - 1] in rank && rank[path[|path| - 1]] < rank[path[0]]
    ensures path[0] != path[|path| - 1]
    decreases |path|
  {
    var n, d, last := path[0], path[0 + 1], path[|path| - 1];
    assert d in Deps(e, n);
    assert rank[d] < rank[n];
    if |path| > 2 {
      assert forall i :: 0 <= i < |path[1..]| ==> path[1..][i] == path[i + 1];
      assert path[1..][|path| - 2] == last;
      RecordedPathsDescend(e, rank, path[1..]);
    }
    assert last in rank && rank[last] < rank[n];
  }

  /** A stale node has no Clean observer outside the exempt ones, however far up. */
  lemma {:induction false} StaleHasNoCleanObserver(g: Graph, path: seq<NodeId>)
    requires Inv(g) && |path| >= 2 && RecordedPath(g.edges, path)
    requires path[0] !in g.past.exempt && !Fresh(g, path[|path| - 1])
    ensures path[0] in g.state && g.state[path[0]] != Clean
    decreases |path|
  {
    hide EdgesBelow, DirtyJustified, Mirrored, Valued, Historic, Acyclic, ProgramsScoped;
    var n, d := path[0], path[0 + 1];
    assert d in Deps(g.edges, n);
    if |path| > 2 {
      assert forall i :: 0 <= i < |path[1..]| ==> path[1..][i] == path[i + 1];
      assert path[1..][|path| - 2] == path[|path| - 1];
      assert d in Readable(g.meta);
      StaleHasNoCleanObserver(g, path[1..]);
    }
    assert !Fresh(g, d);
    assert Current(g, n, d) ==> Fresh(g, d);
  }
}
