/** Which reads return and which report a cycle. A stale node leads to the nodes its closure may come to
    read over the current sources, and, while it only needs checking, to the dependencies it recorded.
    Where a rank descends along all of these, every read returns, in whatever order dependency tables
    iterate; where it does not, they run in a loop, and some order makes every read of the loop panic. */
module Foresight {

  import opened Basics
  import opened Computation
  import opened Graphs
  import opened Frames
  import opened Steps
  import opened Evolution
  import opened Refreshing

  /** A value that a read of `d` may find. For the nodes in `exact` it is the from-scratch one. */
  ghost predicate MayBe(w: World, exact: set<NodeId>, d: NodeId, v: Value) {
    d in exact ==> Evaluates(w, d, v)
  }

  /** A run of `c` that has read `env` may come to read `d`. */
  ghost predicate MayFind(w: World, exact: set<NodeId>, c: Comp, env: seq<Value>, d: NodeId) {
    match c
    case Return(_) => false
    case Get(x, rest) => d == x || exists v :: MayBe(w, exact, x, v) && MayFind(w, exact, rest, env + [v], d)
    case Peek(x, rest) => d == x || exists v :: MayBe(w, exact, x, v) && MayFind(w, exact, rest, env + [v], d)
    case Branch(test, yes, no) => MayFind(w, exact, if test(env) then yes else no, env, d)
  }

  /** The nodes in `exact` read only one another, and read everything tracked. */
  ghost predicate Sealed(program: map<NodeId, Comp>, exact: set<NodeId>) {
    forall n :: n in exact && n in program ==> Tracked(program[n]) && Scoped(program[n], exact)
  }

  /** Bringing `n` up to date may ask for `d`. */
  ghost predicate Leads(g: Graph, exact: set<NodeId>, n: NodeId, d: NodeId) {
    && n in g.program && !InState(g, n, Clean)
    && (MayFind(WorldOf(g), exact, g.program[n], [], d) || (InState(g, n, Check) && d in Deps(g.edges, n)))
  }

  /** What is foreseen: a rank over the nodes in `reach`, the nodes whose values are exact, and a set
      of nodes that will all report a cycle. */
  datatype Guide = Guide(level: NodeId -> nat, reach: NodeId -> bool, exact: set<NodeId>, trap: set<NodeId>)

  // ------------------------------------------------------------------------------------ descents

  /** The rank descends along everything a stale node in reach leads to. */
  ghost predicate Guided(g: Graph, guide: Guide) {
    && Sealed(g.program, guide.exact)
    && forall n, d {:trigger Leads(g, guide.exact, n, d)} ::
         guide.reach(n) && Leads(g, guide.exact, n, d) ==> Lower(guide, n, d)
  }

  ghost predicate Lower(guide: Guide, n: NodeId, d: NodeId) { guide.reach(d) && guide.level(d) < guide.level(n) }

  /** `n` ranks below every closure and verification under way. */
  ghost predicate Under(guide: Guide, program: map<NodeId, Comp>, busy: set<NodeId>, n: NodeId) {
    guide.reach(n) && forall m :: m in busy && m in program ==> guide.level(n) < guide.level(m)
  }

  ghost predicate DepsUnder(g: Graph, guide: Guide, busy: set<NodeId>, n: NodeId) {
    forall d {:trigger d in Deps(g.edges, n)} :: d in Deps(g.edges, n) ==> Under(guide, g.program, busy, d)
  }

  /** What the rest of the closure of `n` may read ranks below `n`. */
  ghost predicate Descends(w: World, guide: Guide, c: Comp, env: seq<Value>, n: NodeId) {
    forall d :: MayFind(w, guide.exact, c, env, d) ==> Lower(guide, n, d)
  }

  /** The guide that closures reading only older nodes come with. */
  ghost function OldestFirst(): Guide { Guide((n: NodeId) => n.raw, (n: NodeId) => true, {}, {}) }

  lemma {:induction false} ReadsBelowFinds(w: World, exact: set<NodeId>, c: Comp, env: seq<Value>, n: NodeId, d: NodeId)
    requires ReadsBelow(c, n) && MayFind(w, exact, c, env, d)
    ensures d.raw < n.raw
    decreases c
  {
    match c
    case Return(_) =>
    case Get(x, rest) =>
      if d != x {
        var v :| MayBe(w, exact, x, v) && MayFind(w, exact, rest, env + [v], d);
        ReadsBelowFinds(w, exact, rest, env + [v], n, d);
      }
    case Peek(x, rest) =>
      if d != x {
        var v :| MayBe(w, exact, x, v) && MayFind(w, exact, rest, env + [v], d);
        ReadsBelowFinds(w, exact, rest, env + [v], n, d);
      }
    case Branch(test, yes, no) => ReadsBelowFinds(w, exact, if test(env) then yes else no, env, n, d);
  }

  lemma LayeredIsGuided(g: Graph)
    requires Inv(g) && Layered(g.program)
    ensures Guided(g, OldestFirst())
  {
    var guide := OldestFirst();
    InvParts(g);
    hide Inv, Typed, ProgramsScoped, EdgesTyped, CleanClosed, DirtyJustified, Valued, Historic, Acyclic, Mirrored;
    forall n: NodeId, d: NodeId {:trigger Leads(g, guide.exact, n, d)} | Leads(g, guide.exact, n, d)
      ensures Lower(guide, n, d)
    {
      if MayFind(WorldOf(g), {}, g.program[n], [], d) {
        ReadsBelowFinds(WorldOf(g), {}, g.program[n], [], n, d);
      }
    }
  }

  // --------------------------------------------------------------------- values read are exact

  lemma {:induction false} FollowsScoped(c: Comp, env: seq<Value>, events: seq<ReadEvent>, v: Value, nodes: set<NodeId>)
    requires Follows(c, env, events, v) && Scoped(c, nodes)
    ensures forall i :: 0 <= i < |events| ==> events[i].node in nodes
    decreases c
  {
    match c
    case Return(_) =>
    case Get(_, rest) =>
      FollowsScoped(rest, env + [events[0].value], events[1..], v, nodes);
      assert forall i :: 0 < i < |events| ==> events[i] == events[1..][i - 1];
    case Peek(_, rest) =>
      FollowsScoped(rest, env + [events[0].value], events[1..], v, nodes);
      assert forall i :: 0 < i < |events| ==> events[i] == events[1..][i - 1];
    case Branch(test, yes, no) =>
      FollowsScoped(if test(env) then yes else no, env, events, v, nodes);
  }

  /** From-scratch correctness once more, for a node whose closure is sealed in rather than its recorded
      edges. */
  lemma {:induction false} SealedIsFromScratch(g: Graph, n: NodeId, exact: set<NodeId>)
    requires Inv(g) && Fresh(g, n) && n in exact && Sealed(g.program, exact)
    ensures n in g.cache && n in g.past.rank
    ensures EvalNode(WorldOf(g), n, g.past.rank[n] + 1) == Some(g.cache[n])
    decreases if n in g.past.rank then g.past.rank[n] else 0
  {
    hide Inv;
    FreshKnows(g, n);
    if Computed(g, n) {
      var w, events := WorldOf(g), g.past.log[n];
      TrackedEvents(g.program[n], [], events, g.cache[n]);
      FollowsScoped(g.program[n], [], events, g.cache[n], exact);
      forall i | 0 <= i < |events|
        ensures EvalNode(w, events[i].node, g.past.rank[n]) == Some(events[i].value)
      {
        var d := events[i].node;
        assert EventRecorded(g.edges, g.past.hist, n, events[i]);
        assert Current(g, n, d);
        FreshKnows(g, d);
        SealedIsFromScratch(g, d, exact);
        EvalNodeMonotone(w, d, g.past.rank[d] + 1, g.past.rank[n]);
      }
      FollowsEvaluates(w, g.program[n], [], events, g.cache[n], g.past.rank[n]);
    }
  }

  lemma FreshMayBe(g: Graph, exact: set<NodeId>, d: NodeId)
    requires Inv(g) && Fresh(g, d) && Sealed(g.program, exact)
    ensures d in g.cache && MayBe(WorldOf(g), exact, d, g.cache[d])
  {
    hide Inv, Fresh;
    FreshKnows(g, d);
    if d in exact {
      SealedIsFromScratch(g, d, exact);
      assert EvalNode(WorldOf(g), d, g.past.rank[d] + 1) == Some(g.cache[d]);
    }
  }

  // --------------------------------------------------------------- what a refresh may do to them

  lemma LeadsBefore(g: Graph, g': Graph, exact: set<NodeId>, n: NodeId, d: NodeId)
    requires WorldOf(g') == WorldOf(g) && g'.program == g.program && Leads(g', exact, n, d)
    requires InState(g, n, Clean) ==> InState(g', n, Clean)
    requires InState(g', n, Check) ==> InState(g, n, Check) && Deps(g'.edges, n) == Deps(g.edges, n)
    ensures Leads(g, exact, n, d)
  {
    hide MayFind;
  }

  /** Refreshing leads nowhere new. */
  lemma EvolvesKeepsGuided(g: Graph, g': Graph, busy: set<NodeId>, open: set<NodeId>, ok: bool, guide: Guide)
    requires Inv(g') && Evolves(g, g', busy, open, ok) && Guided(g, guide)
    requires forall n :: n in open ==> n in g.program ==> InState(g, n, Clean)
    ensures Guided(g', guide) && WorldOf(g') == WorldOf(g)
  {
    WorldKept(g, g', busy, open, ok);
    InvParts(g');
    hide Inv, ProgramsScoped, EdgesTyped, CleanClosed, DirtyJustified, Valued, Historic, Acyclic, Mirrored, EdgesBelow;
    forall n: NodeId, d: NodeId {:trigger Leads(g', guide.exact, n, d)} | guide.reach(n) && Leads(g', guide.exact, n, d)
      ensures Lower(guide, n, d)
    {
      assert EvolvesAt(g, g', busy, open, ok, n);
      LeadsBefore(g, g', guide.exact, n, d);
    }
  }

  lemma BeginKeepsGuided(g: Graph, e': Edges, n: NodeId, guide: Guide)
    requires Guided(g, guide) && EdgesCleared(g.edges, e', n) && n in g.program && !InState(g, n, Clean)
    ensures Guided(BeginCompute(g, e', n), guide) && WorldOf(BeginCompute(g, e', n)) == WorldOf(g)
    ensures guide.reach(n) ==> Descends(WorldOf(g), guide, g.program[n], [], n)
  {
    var g' := BeginCompute(g, e', n);
    assert WorldOf(g') == WorldOf(g);
    forall m: NodeId, d: NodeId {:trigger Leads(g', guide.exact, m, d)} | guide.reach(m) && Leads(g', guide.exact, m, d)
      ensures Lower(guide, m, d)
    {
      LeadsBefore(g, g', guide.exact, m, d);
    }
    forall d | guide.reach(n) && MayFind(WorldOf(g), guide.exact, g.program[n], [], d)
      ensures Lower(guide, n, d)
    {
      assert Leads(g, guide.exact, n, d);
    }
  }

  lemma GuidedIsSealed(g: Graph, guide: Guide)
    requires Guided(g, guide)
    ensures Sealed(g.program, guide.exact)
  {
  }

  /** One read further into the closure of `n`. */
  lemma DescendsOn(g: Graph, guide: Guide, c: Comp, env: seq<Value>, n: NodeId, v: Value)
    requires (c.Get? || c.Peek?) && Descends(WorldOf(g), guide, c, env, n)
    ensures Lower(guide, n, c.node)
    ensures MayBe(WorldOf(g), guide.exact, c.node, v) ==> Descends(WorldOf(g), guide, c.rest, env + [v], n)
  {
    assert MayFind(WorldOf(g), guide.exact, c, env, c.node);
    if MayBe(WorldOf(g), guide.exact, c.node, v) {
      forall d | MayFind(WorldOf(g), guide.exact, c.rest, env + [v], d)
        ensures Lower(guide, n, d)
      {
        assert MayFind(WorldOf(g), guide.exact, c, env, d);
      }
    }
  }

  lemma DescendsBranch(w: World, guide: Guide, c: Comp, env: seq<Value>, n: NodeId)
    requires c.Branch? && Descends(w, guide, c, env, n)
    ensures Descends(w, guide, if c.test(env) then c.yes else c.no, env, n)
  {
    forall d | MayFind(w, guide.exact, if c.test(env) then c.yes else c.no, env, d)
      ensures Lower(guide, n, d)
    {
      assert MayFind(w, guide.exact, c, env, d);
    }
  }

  lemma UnderMore(guide: Guide, program: map<NodeId, Comp>, busy: set<NodeId>, n: NodeId, d: NodeId)
    requires Under(guide, program, busy, n) && Lower(guide, n, d)
    ensures Under(guide, program, busy + {n}, d)
  {
  }

  lemma NotUnderWay(guide: Guide, program: map<NodeId, Comp>, busy: set<NodeId>, n: NodeId)
    requires Under(guide, program, busy, n) && n in program
    ensures n !in busy
  {
  }

  lemma DepsAreUnder(g: Graph, guide: Guide, busy: set<NodeId>, n: NodeId)
    requires Guided(g, guide) && Under(guide, g.program, busy, n) && n in g.program && InState(g, n, Check)
    ensures DepsUnder(g, guide, busy + {n}, n)
  {
    forall d | d in Deps(g.edges, n)
      ensures Under(guide, g.program, busy + {n}, d)
    {
      assert Leads(g, guide.exact, n, d);
      UnderMore(guide, g.program, busy, n, d);
    }
  }

  lemma DepsStayUnder(g: Graph, g': Graph, guide: Guide, busy: set<NodeId>, n: NodeId, d: NodeId)
    requires Evolves(g, g', busy, {}, true) && n in busy
    ensures DepsUnder(g, guide, busy, n) && d in Deps(g'.edges, n) ==> Under(guide, g'.program, busy, d)
  {
    assert EvolvesAt(g, g', busy, {}, true, n);
  }

  /** A node asked for: what is foreseen of it. */
  lemma AskForesight(g: Graph, fs: Frames, n: NodeId, guide: Guide)
    requires Inv(g) && Framed(g, fs) && g.active == OnStack(fs) && Guided(g, guide) && Under(guide, g.program, Busy(fs), n)
    requires Computed(g, n)
    ensures n !in Busy(fs) && n !in g.active
    ensures InState(g, n, Check) ==> DepsUnder(g, guide, Busy(fs) + {n}, n)
  {
    InvParts(g);
    hide Inv, Framed, ProgramsScoped, EdgesTyped, CleanClosed, DirtyJustified, Valued, Historic, Acyclic, Mirrored, EdgesBelow, Guided, Under, DepsUnder;
    NotUnderWay(guide, g.program, Busy(fs), n);
    StackInBusy(fs);
    if InState(g, n, Check) {
      DepsAreUnder(g, guide, Busy(fs), n);
    }
  }

  lemma ReadUnder(g: Graph, guide: Guide, fs: Frames, n: NodeId, d: NodeId)
    requires fs.Push? && fs.top == Computing(n) && Lower(guide, n, d)
    ensures Under(guide, g.program, Busy(fs.below), n) ==> Under(guide, g.program, Busy(fs), d)
  {
  }

  // --------------------------------------------------------------------------------------- traps

  /** The first dependency verification of `n` asks for is in the trap. */
  ghost predicate AsksTrap(g: Graph, guide: Guide, n: NodeId) {
    InState(g, n, Check) && Order(g.edges, n) != [] && Order(g.edges, n)[0] in guide.trap
  }

  /** From scratch, the closure of `n` reads a node in the trap. */
  ghost predicate FindsTrap(w: World, guide: Guide, n: NodeId) {
    n in w.program && exists d :: d in guide.trap && MayFind(w, guide.exact, w.program[n], [], d)
  }

  ghost predicate CaughtAt(g: Graph, guide: Guide, n: NodeId) {
    n in g.program && !Fresh(g, n) && (AsksTrap(g, guide, n) || FindsTrap(WorldOf(g), guide, n))
  }

  /** Every node in the trap is stale and leads back into it. */
  ghost predicate Trapped(g: Graph, guide: Guide) {
    && Sealed(g.program, guide.exact)
    && guide.trap <= guide.exact
    && forall n :: n in guide.trap ==> CaughtAt(g, guide, n)
  }

  lemma TrappedAt(g: Graph, guide: Guide, n: NodeId)
    requires Trapped(g, guide)
    ensures n in guide.trap ==> CaughtAt(g, guide, n) && n in g.program
  {
  }

  lemma TrappedIsStale(g: Graph, guide: Guide, n: NodeId)
    requires Trapped(g, guide)
    ensures n in guide.trap ==> !Fresh(g, n)
  {
  }

  /** A run over from-scratch values makes the reads the closure makes from scratch. */
  lemma {:induction false} FollowsFinds(
    w: World, exact: set<NodeId>, c: Comp, env: seq<Value>, events: seq<ReadEvent>, v: Value, d: NodeId) returns (i: nat)
    requires Follows(c, env, events, v) && Scoped(c, exact) && MayFind(w, exact, c, env, d)
    requires forall i :: 0 <= i < |events| ==> Evaluates(w, events[i].node, events[i].value)
    ensures i < |events| && events[i].node == d
    decreases c
  {
    match c
    case Get(x, rest) =>
      if d == x {
        return 0;
      }
      var u :| MayBe(w, exact, x, u) && MayFind(w, exact, rest, env + [u], d);
      assert Evaluates(w, events[0].node, events[0].value);
      EvaluatesDeterministic(w, x, u, events[0].value);
      forall j | 0 <= j < |events[1..]|
        ensures Evaluates(w, events[1..][j].node, events[1..][j].value)
      {
        assert events[1..][j] == events[j + 1];
      }
      i := FollowsFinds(w, exact, rest, env + [events[0].value], events[1..], v, d);
      i := i + 1;
    case Peek(x, rest) =>
      if d == x {
        return 0;
      }
      var u :| MayBe(w, exact, x, u) && MayFind(w, exact, rest, env + [u], d);
      assert Evaluates(w, events[0].node, events[0].value);
      EvaluatesDeterministic(w, x, u, events[0].value);
      forall j | 0 <= j < |events[1..]|
        ensures Evaluates(w, events[1..][j].node, events[1..][j].value)
      {
        assert events[1..][j] == events[j + 1];
      }
      i := FollowsFinds(w, exact, rest, env + [events[0].value], events[1..], v, d);
      i := i + 1;
    case Branch(test, yes, no) =>
      i := FollowsFinds(w, exact, if test(env) then yes else no, env, events, v, d);
  }

  /** A trapped node never turns out to be up to date: it would have read a node of the trap that is. */
  lemma NothingEscapes(g: Graph, guide: Guide, n: NodeId, events: seq<ReadEvent>, v: Value)
    requires Inv(g) && Trapped(g, guide) && n in guide.trap && FindsTrap(WorldOf(g), guide, n)
    requires n in g.program && Follows(g.program[n], [], events, v) && Recorded(g.edges, g.past.hist, n, events)
    ensures !AllCurrent(g, n)
  {
    if !AllCurrent(g, n) {
      return;
    }
    hide Inv;
    var w := WorldOf(g);
    TrackedEvents(g.program[n], [], events, v);
    FollowsScoped(g.program[n], [], events, v, guide.exact);
    forall i | 0 <= i < |events|
      ensures Fresh(g, events[i].node) && Evaluates(w, events[i].node, events[i].value)
    {
      var d := events[i].node;
      assert EventRecorded(g.edges, g.past.hist, n, events[i]);
      assert Current(g, n, d);
      FreshKnows(g, d);
      FreshMayBe(g, guide.exact, d);
    }
    var d :| d in guide.trap && MayFind(w, guide.exact, g.program[n], [], d);
    var i := FollowsFinds(w, guide.exact, g.program[n], [], events, v, d);
    TrappedAt(g, guide, d);
  }

  /** A step at one node leaves the other nodes of the trap where they are. */
  lemma TrapElsewhere(g: Graph, g': Graph, n: NodeId, guide: Guide)
    requires Trapped(g, guide) && OnlyAt(g, g', n) && WorldOf(g') == WorldOf(g)
    requires n in guide.trap ==> CaughtAt(g', guide, n)
    ensures Trapped(g', guide)
  {
    hide FindsTrap, Sealed;
    forall m | m in guide.trap
      ensures CaughtAt(g', guide, m)
    {
      assert CaughtAt(g, guide, m);
      if m != n {
        assert SameNode(g, g', m);
        assert m in g.active ==> m in g'.active - {n};
        assert m in g'.active ==> m in g.active - {n};
        assert m in g.meta ==> g'.meta[m].kind == g.meta[m].kind;
      }
    }
  }

  /** A running or unwound closure of the trap is caught by its own reads. */
  lemma CaughtByReads(g: Graph, g': Graph, guide: Guide, n: NodeId)
    requires CaughtAt(g, guide, n) && !InState(g, n, Check) && !Fresh(g', n)
    requires WorldOf(g') == WorldOf(g) && g'.program == g.program
    ensures CaughtAt(g', guide, n)
  {
    hide FindsTrap;
  }

  lemma SourcesOnlyAt(g: Graph, g': Graph, n: NodeId)
    requires OnlyAt(g, g', n) && !IsSignal(g, n)
    ensures WorldOf(g') == WorldOf(g)
  {
    var w, w' := WorldOf(g), WorldOf(g');
    forall m
      ensures m in w'.sources <==> m in w.sources
      ensures m in w.sources && m in w'.sources ==> w'.sources[m] == w.sources[m]
    {
      assert m in g.meta ==> g'.meta[m].kind == g.meta[m].kind;
      if m != n {
        assert SameNode(g, g', m);
      }
    }
    assert w'.sources == w.sources;
  }

  lemma BeginStaysTrapped(g: Graph, e': Edges, n: NodeId, guide: Guide)
    requires Trapped(g, guide) && EdgesCleared(g.edges, e', n) && Computed(g, n) && n in g.state
    requires n in guide.trap ==> FindsTrap(WorldOf(g), guide, n)
    ensures Trapped(BeginCompute(g, e', n), guide)
  {
    var g' := BeginCompute(g, e', n);
    assert OnlyAt(g, g', n) && !Fresh(g', n) && g'.program == g.program;
    hide FindsTrap, OnlyAt;
    SourcesOnlyAt(g, g', n);
    if n in guide.trap {
      TrappedAt(g, guide, n);
    }
    TrapElsewhere(g, g', n, guide);
  }

  lemma AsksStale(g: Graph, guide: Guide, n: NodeId)
    requires Mirrored(g.edges) && Trapped(g, guide) && AsksTrap(g, guide, n)
    ensures !AllCurrent(g, n)
  {
    var d := Order(g.edges, n)[0];
    assert d in Order(g.edges, n);
    TrappedAt(g, guide, d);
    assert !Current(g, n, d);
  }

  lemma VerifiedStaysTrapped(g: Graph, n: NodeId, guide: Guide)
    requires Inv(g) && Trapped(g, guide) && Computed(g, n) && InState(g, n, Check) && n !in g.active && AllCurrent(g, n)
    ensures Trapped(VerifiedClean(g, n), guide) && n !in guide.trap
  {
    InvParts(g);
    hide Inv, Typed, ProgramsScoped, EdgesTyped, CleanClosed, DirtyJustified, Historic, Acyclic, EdgesBelow, Follows;
    if n in guide.trap {
      TrappedAt(g, guide, n);
      if AsksTrap(g, guide, n) {
        AsksStale(g, guide, n);
      } else {
        assert Explained(g, n);
        NothingEscapes(g, guide, n, g.past.log[n], g.cache[n]);
      }
      assert false;
    }
    SourcesOnlyAt(g, VerifiedClean(g, n), n);
    TrapElsewhere(g, VerifiedClean(g, n), n, guide);
  }

  lemma StoredStaysTrapped(g: Graph, fs: Frames, n: NodeId, v: Value, events: seq<ReadEvent>, bump: bool, guide: Guide)
    requires Inv(g) && Framed(g, fs) && Trapped(g, guide) && Returned(g, fs, n, v, events)
    requires n in g.meta && n in g.active && (Changes(g, n, v) ==> bump)
    ensures Trapped(Stored(g, n, v, events, bump), guide) && n !in guide.trap
  {
    RunningIsCurrent(g, fs, n);
    InvParts(g);
    hide Inv, Framed, Typed, ProgramsScoped, EdgesTyped, CleanClosed, DirtyJustified, Valued, Acyclic, EdgesBelow, Mirrored;
    hide Follows, Recorded, AllCurrent, FindsTrap, Sealed;
    if n in guide.trap {
      TrappedAt(g, guide, n);
      NothingEscapes(g, guide, n, events, v);
      assert false;
    }
    StoredOnlyAt(g, n, v, events, bump);
    SourcesOnlyAt(g, Stored(g, n, v, events, bump), n);
    TrapElsewhere(g, Stored(g, n, v, events, bump), n, guide);
  }

  lemma UnwoundStaysTrapped(g: Graph, n: NodeId, guide: Guide)
    requires Trapped(g, guide) && Computed(g, n) && InState(g, n, Clean)
    ensures Trapped(Unwound(g, n), guide)
  {
    var g' := Unwound(g, n);
    assert OnlyAt(g, g', n) && !Fresh(g', n) && g'.program == g.program;
    hide FindsTrap, OnlyAt;
    SourcesOnlyAt(g, g', n);
    if n in guide.trap {
      TrappedAt(g, guide, n);
      CaughtByReads(g, g', guide, n);
    }
    TrapElsewhere(g, g', n, guide);
  }

  /** A read recorded by a running closure or body. */
  lemma ObservedStaysTrapped(g: Graph, e': Edges, bound: nat, t: NodeId, d: NodeId, v: int, guide: Guide)
    requires Trapped(g, guide) && EdgeAdded(g.edges, e', t, d, v) && t in g.active && t in g.state
    requires Typed(g) && (Computed(g, t) ==> InState(g, t, Clean))
    ensures Trapped(Observed(g, e', bound), guide)
  {
    var g' := Observed(g, e', bound);
    ObservedOnlyAt(g, e', bound, t, d, v);
    hide FindsTrap, OnlyAt, Observed, EdgeAdded, Sealed;
    SourcesOnlyAt(g, g', t);
    if t in guide.trap {
      TrappedAt(g, guide, t);
      CaughtByReads(g, g', guide, t);
    }
    TrapElsewhere(g, g', t, guide);
  }

  lemma ObservedOnlyAt(g: Graph, e': Edges, bound: nat, t: NodeId, d: NodeId, v: int)
    requires EdgeAdded(g.edges, e', t, d, v)
    ensures var g' := Observed(g, e', bound);
            OnlyAt(g, g', t) && g'.program == g.program && g'.meta == g.meta && g'.state == g.state && g'.active == g.active
  {
    hide Shifted;
  }

  // ------------------------------------------------------------- closures that read only older nodes

  /** With closures that read only older nodes there is a guide to everything; otherwise the one at hand. */
  ghost function Best(program: map<NodeId, Comp>, guide: Guide): Guide {
    if Layered(program) then OldestFirst() else guide
  }

  lemma {:induction false} LayeredHasNoTrap(g: Graph, guide: Guide, n: NodeId)
    requires Inv(g) && Layered(g.program) && Trapped(g, guide)
    ensures n !in guide.trap
    decreases n.raw
  {
    if n in guide.trap {
      TrappedAt(g, guide, n);
      InvParts(g);
      hide Inv, Typed, ProgramsScoped, EdgesTyped, CleanClosed, DirtyJustified, Valued, Historic, Acyclic, Trapped;
      var d: NodeId;
      if AsksTrap(g, guide, n) {
        d := Order(g.edges, n)[0];
        assert d in Order(g.edges, n);
        assert d in Deps(g.edges, n);
      } else {
        d :| d in guide.trap && MayFind(WorldOf(g), guide.exact, g.program[n], [], d);
        ReadsBelowFinds(WorldOf(g), guide.exact, g.program[n], [], n, d);
      }
      LayeredHasNoTrap(g, guide, d);
    }
  }

  lemma NoTrapKept(g: Graph, g': Graph, guide: Guide)
    requires Inv(g) && Layered(g.program) && Trapped(g, guide) && g'.program == g.program
    ensures Trapped(g', guide) && guide.trap == {}
  {
    forall n
      ensures n !in guide.trap
    {
      LayeredHasNoTrap(g, guide, n);
    }
  }
}
