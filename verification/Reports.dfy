/** What a cycle report says. A read that unwinds was led, from node to node, back to a closure already
    running: each closure on the way was running inside the one before, because that one came to read it or
    to read a node that was checking it. The report names exactly the running ones, from the node met
    again on. */
module Reports {

  import opened Computation
  import opened Graphs
  import opened Frames
  import opened Steps
  import opened Evolution
  import opened Refreshing
  import opened Foresight

  /** The way from a node asked for to the running one met again: nodes whose recorded dependencies are being
      checked, and nodes whose closure is run. */
  datatype Trail = Met(node: NodeId) | Asks(node: NodeId, next: Trail) | Enters(node: NodeId, next: Trail)

  ghost function End(t: Trail): NodeId { if t.Met? then t.node else End(t.next) }

  /** The closures the trail runs, outermost first. */
  ghost function Running(t: Trail): seq<NodeId> {
    match t
    case Met(_) => []
    case Asks(_, next) => Running(next)
    case Enters(n, next) => [n] + Running(next)
  }

  /** Each step of the trail is one the nodes of `g` can take: a node in Check asks for what it recorded, a
      stale one reads what its closure reads over the current sources. */
  ghost predicate Led(g: Graph, exact: set<NodeId>, t: Trail) {
    match t
    case Met(_) => true
    case Asks(n, next) => n in g.program && InState(g, n, Check) && next.node in Deps(g.edges, n) && Led(g, exact, next)
    case Enters(n, next) =>
      n in g.program && !InState(g, n, Clean) && MayFind(WorldOf(g), exact, g.program[n], [], next.node) && Led(g, exact, next)
  }

  /** The part of a stack from `n` on, and `n` again. */
  ghost predicate IsStackCycle(stack: seq<NodeId>, n: NodeId, cycle: seq<NodeId>) {
    Distinct(stack) && exists start :: 0 <= start < |stack| && stack[start] == n && cycle == stack[start..] + [n]
  }

  /** Asking for `n` on top of `stack` ends in the report `path`. */
  ghost predicate Closing(g: Graph, exact: set<NodeId>, stack: seq<NodeId>, n: NodeId, path: seq<NodeId>) {
    exists t: Trail :: t.node == n && Closes(g, exact, stack, t, path)
  }

  ghost predicate Closes(g: Graph, exact: set<NodeId>, stack: seq<NodeId>, t: Trail, path: seq<NodeId>) {
    Led(g, exact, t) && IsStackCycle(stack + Running(t), End(t), path)
  }

  /** The same for a closure that has read `env` and has `c` left to run. */
  ghost predicate ClosingIn(g: Graph, exact: set<NodeId>, stack: seq<NodeId>, c: Comp, env: seq<Value>, path: seq<NodeId>) {
    exists t: Trail :: MayFind(WorldOf(g), exact, c, env, t.node) && Closes(g, exact, stack, t, path)
  }

  /** A report of what reading `n` ran into, whichever sealed set of nodes is taken to have exact values. */
  ghost predicate Told(g: Graph, stack: seq<NodeId>, n: NodeId, path: seq<NodeId>) {
    forall exact :: Sealed(g.program, exact) ==> Closing(g, exact, stack, n, path)
  }

  /** A report of what checking the recorded dependencies of `n` ran into. */
  ghost predicate ToldBelow(g: Graph, stack: seq<NodeId>, n: NodeId, path: seq<NodeId>) {
    exists d :: d in Deps(g.edges, n) && Told(g, stack, d, path)
  }

  ghost predicate ToldInside(g: Graph, stack: seq<NodeId>, c: Comp, env: seq<Value>, path: seq<NodeId>) {
    forall exact :: Sealed(g.program, exact) ==> ClosingIn(g, exact, stack, c, env, path)
  }

  // ----------------------------------------------------------------------------- how trails grow

  /** The node asked for is running. */
  lemma MetAgain(g: Graph, stack: seq<NodeId>, n: NodeId, path: seq<NodeId>)
    requires IsStackCycle(stack, n, path)
    ensures Told(g, stack, n, path)
  {
    forall exact | Sealed(g.program, exact)
      ensures Closing(g, exact, stack, n, path)
    {
      assert stack + Running(Met(n)) == stack;
      assert Closes(g, exact, stack, Met(n), path);
    }
  }

  /** A node in Check passes on what a recorded dependency ran into. */
  lemma ToldByCheck(g: Graph, stack: seq<NodeId>, n: NodeId, path: seq<NodeId>)
    requires ToldBelow(g, stack, n, path) && n in g.program && InState(g, n, Check)
    ensures Told(g, stack, n, path)
  {
    var d :| d in Deps(g.edges, n) && Told(g, stack, d, path);
    forall exact | Sealed(g.program, exact)
      ensures Closing(g, exact, stack, n, path)
    {
      var t: Trail :| t.node == d && Closes(g, exact, stack, t, path);
      assert Closes(g, exact, stack, Asks(n, t), path);
    }
  }

  /** A node that runs its closure passes on what the closure ran into. */
  lemma ToldByRun(g: Graph, g1: Graph, stack: seq<NodeId>, n: NodeId, path: seq<NodeId>)
    requires n in g.program && !InState(g, n, Clean) && ToldInside(g1, stack + [n], g.program[n], [], path) && NoStaler(g, g1)
    ensures Told(g, stack, n, path)
  {
    forall exact | Sealed(g.program, exact)
      ensures Closing(g, exact, stack, n, path)
    {
      var t: Trail :| MayFind(WorldOf(g1), exact, g.program[n], [], t.node) && Closes(g1, exact, stack + [n], t, path);
      LedBefore(g, g1, exact, t);
      assert stack + [n] + Running(t) == stack + ([n] + Running(t));
      assert Closes(g, exact, stack, Enters(n, t), path);
    }
  }

  /** The read a closure makes next. */
  lemma ToldByRead(g: Graph, stack: seq<NodeId>, c: Comp, env: seq<Value>, path: seq<NodeId>)
    requires (c.Get? || c.Peek?) && Told(g, stack, c.node, path)
    ensures ToldInside(g, stack, c, env, path)
  {
    forall exact | Sealed(g.program, exact)
      ensures ClosingIn(g, exact, stack, c, env, path)
    {
      var t: Trail :| t.node == c.node && Closes(g, exact, stack, t, path);
      assert MayFind(WorldOf(g), exact, c, env, t.node);
    }
  }

  /** And a later one. */
  lemma ToldLater(g: Graph, g1: Graph, stack: seq<NodeId>, c: Comp, env: seq<Value>, v: Value, path: seq<NodeId>)
    requires (c.Get? || c.Peek?) && Inv(g1) && Fresh(g1, c.node) && c.node in g1.cache && v == g1.cache[c.node]
    requires NoStaler(g, g1) && ToldInside(g1, stack, c.rest, env + [v], path)
    ensures ToldInside(g, stack, c, env, path)
  {
    hide Inv, Fresh, Closes;
    forall exact | Sealed(g.program, exact)
      ensures ClosingIn(g, exact, stack, c, env, path)
    {
      FreshMayBe(g1, exact, c.node);
      var t: Trail :| MayFind(WorldOf(g1), exact, c.rest, env + [v], t.node) && Closes(g1, exact, stack, t, path);
      assert MayFind(WorldOf(g), exact, c, env, t.node);
      ClosesBefore(g, g1, exact, stack, t, path);
    }
  }

  lemma ToldInBranch(g: Graph, stack: seq<NodeId>, c: Comp, env: seq<Value>, path: seq<NodeId>)
    requires c.Branch? && ToldInside(g, stack, if c.test(env) then c.yes else c.no, env, path)
    ensures ToldInside(g, stack, c, env, path)
  {
    hide Closes;
    forall exact | Sealed(g.program, exact)
      ensures ClosingIn(g, exact, stack, c, env, path)
    {
      var t: Trail :|
        MayFind(WorldOf(g), exact, if c.test(env) then c.yes else c.no, env, t.node) && Closes(g, exact, stack, t, path);
      assert MayFind(WorldOf(g), exact, c, env, t.node);
    }
  }

  // ------------------------------------------------------------------------- reports look back

  /** What a node of `g1` leads to it already led to in `g`. */
  ghost predicate NoStaler(g: Graph, g1: Graph) {
    && WorldOf(g1) == WorldOf(g) && g1.program == g.program
    && (forall n :: n in g.program && InState(g, n, Clean) ==> InState(g1, n, Clean))
    && (forall n :: n in g.program && InState(g1, n, Check) ==> InState(g, n, Check) && Deps(g1.edges, n) == Deps(g.edges, n))
  }

  lemma {:induction false} LedBefore(g: Graph, g1: Graph, exact: set<NodeId>, t: Trail)
    requires NoStaler(g, g1) && Led(g1, exact, t)
    ensures Led(g, exact, t)
  {
    if !t.Met? {
      LedBefore(g, g1, exact, t.next);
    }
  }

  lemma ClosesBefore(g: Graph, g1: Graph, exact: set<NodeId>, stack: seq<NodeId>, t: Trail, path: seq<NodeId>)
    requires NoStaler(g, g1) && Closes(g1, exact, stack, t, path)
    ensures Closes(g, exact, stack, t, path)
  {
    LedBefore(g, g1, exact, t);
  }

  lemma ToldBefore(g: Graph, g1: Graph, stack: seq<NodeId>, n: NodeId, path: seq<NodeId>)
    requires NoStaler(g, g1) && Told(g1, stack, n, path)
    ensures Told(g, stack, n, path)
  {
    hide Closes, NoStaler;
    assert g1.program == g.program by {
      SameProgram(g, g1);
    }
    forall exact | Sealed(g.program, exact)
      ensures Closing(g, exact, stack, n, path)
    {
      var t: Trail :| t.node == n && Closes(g1, exact, stack, t, path);
      ClosesBefore(g, g1, exact, stack, t, path);
    }
  }

  lemma SameProgram(g: Graph, g1: Graph)
    requires NoStaler(g, g1)
    ensures g1.program == g.program
  {
  }

  lemma NoStalerReflexive(g: Graph)
    ensures NoStaler(g, g)
  {
  }

  /** Refreshing leads nowhere new. */
  lemma EvolvesNoStaler(g: Graph, g': Graph, busy: set<NodeId>, open: set<NodeId>, ok: bool)
    requires Evolves(g, g', busy, open, ok)
    requires forall n :: n in open && n in g.program ==> InState(g, n, Clean)
    ensures NoStaler(g, g')
  {
    WorldKept(g, g', busy, open, ok);
    hide WorldOf;
    forall n | n in g.program
      ensures InState(g, n, Clean) ==> InState(g', n, Clean)
      ensures InState(g', n, Check) ==> InState(g, n, Check) && Deps(g'.edges, n) == Deps(g.edges, n)
    {
      assert EvolvesAt(g, g', busy, open, ok, n);
    }
  }

  lemma BeginNoStaler(g: Graph, e': Edges, n: NodeId)
    requires EdgesCleared(g.edges, e', n) && n in g.program && !InState(g, n, Clean)
    ensures NoStaler(g, BeginCompute(g, e', n))
  {
    var g' := BeginCompute(g, e', n);
    assert WorldOf(g') == WorldOf(g);
  }

  // --------------------------------------------------------------------------- reports are real

  lemma {:induction false} TrailReadable(g: Graph, exact: set<NodeId>, t: Trail)
    requires Inv(g) && Led(g, exact, t) && t.node in Readable(g.meta)
    ensures End(t) in Readable(g.meta)
  {
    hide Inv;
    match t
    case Met(_) =>
    case Asks(n, next) =>
      DepReadable(g, n, next.node);
      TrailReadable(g, exact, next);
    case Enters(n, next) =>
      InvParts(g);
      MayFindScoped(WorldOf(g), exact, g.program[n], [], next.node, Readable(g.meta));
      TrailReadable(g, exact, next);
  }

  lemma DepReadable(g: Graph, n: NodeId, d: NodeId)
    requires Inv(g) && d in Deps(g.edges, n)
    ensures d in Readable(g.meta)
  {
    InvParts(g);
  }

  lemma {:induction false} MayFindScoped(w: World, exact: set<NodeId>, c: Comp, env: seq<Value>, d: NodeId, nodes: set<NodeId>)
    requires MayFind(w, exact, c, env, d) && Scoped(c, nodes)
    ensures d in nodes
    decreases c
  {
    match c
    case Return(_) =>
    case Get(x, rest) =>
      if d != x {
        var v :| MayBe(w, exact, x, v) && MayFind(w, exact, rest, env + [v], d);
        MayFindScoped(w, exact, rest, env + [v], d, nodes);
      }
    case Peek(x, rest) =>
      if d != x {
        var v :| MayBe(w, exact, x, v) && MayFind(w, exact, rest, env + [v], d);
        MayFindScoped(w, exact, rest, env + [v], d, nodes);
      }
    case Branch(test, yes, no) => MayFindScoped(w, exact, if test(env) then yes else no, env, d, nodes);
  }

  /** A report runs from a node back to the same node. */
  lemma ToldCloses(g: Graph, stack: seq<NodeId>, n: NodeId, path: seq<NodeId>)
    requires Told(g, stack, n, path)
    ensures |path| >= 2 && path[0] == path[|path| - 1]
  {
    assert Sealed(g.program, {});
    assert Closing(g, {}, stack, n, path);
  }

  /** What runs below, and is not itself readable, is on no report. */
  lemma ToldOutside(g: Graph, stack: seq<NodeId>, n: NodeId, path: seq<NodeId>)
    requires Inv(g) && n in Readable(g.meta) && Told(g, stack, n, path) && forall m :: m in stack ==> m !in Readable(g.meta)
    ensures Told(g, [], n, path)
  {
    hide Inv, Readable;
    forall exact | Sealed(g.program, exact)
      ensures Closing(g, exact, [], n, path)
    {
      var t: Trail :| t.node == n && Closes(g, exact, stack, t, path);
      TrailReadable(g, exact, t);
      CycleAbove(stack, Running(t), End(t), path);
      assert [] + Running(t) == Running(t);
      assert Closes(g, exact, [], t, path);
    }
  }

  lemma CycleAbove(below: seq<NodeId>, above: seq<NodeId>, n: NodeId, path: seq<NodeId>)
    requires IsStackCycle(below + above, n, path) && n !in below
    ensures IsStackCycle(above, n, path)
  {
    var start :| 0 <= start < |below + above| && (below + above)[start] == n && path == (below + above)[start..] + [n];
    DistinctAbove(below, above);
    hide Distinct;
    assert forall i :: 0 <= i < |below| ==> below[i] != n;
    var k := start - |below|;
    assert above[k] == n;
    assert (below + above)[start..] == above[k..];
  }

  lemma DistinctAbove(below: seq<NodeId>, above: seq<NodeId>)
    requires Distinct(below + above)
    ensures Distinct(above)
  {
    forall i, j | 0 <= i < j < |above|
      ensures above[i] != above[j]
    {
      assert (below + above)[|below| + i] == above[i] && (below + above)[|below| + j] == above[j];
    }
  }
}
