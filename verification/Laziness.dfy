/** Laziness: a read brings up to date only what it leads to. A node in Check leads to what it recorded, a
    stale one to what its closure reads over the current sources; whatever set of nodes is closed under
    that, everything outside it is left as it was. */
module Laziness {

  import opened Computation
  import opened Graphs
  import opened Steps
  import opened Refreshing
  import opened Foresight
  import opened Reports
  import opened EffectSteps

  /** No node of `s` leads out of it. */
  ghost predicate Shut(g: Graph, exact: set<NodeId>, s: set<NodeId>) {
    Sealed(g.program, exact) && forall n, d {:trigger Leads(g, exact, n, d)} :: n in s && Leads(g, exact, n, d) ==> d in s
  }

  /** `m` did not run, and its mark, value and version are as they were. */
  ghost predicate Rested(g: Graph, g': Graph, m: NodeId) {
    && Runs(g', m) == Runs(g, m) && Ver(g', m) == Ver(g, m)
    && (m in g'.state <==> m in g.state) && (m in g.state ==> g'.state[m] == g.state[m])
    && (m in g'.cache <==> m in g.cache) && (m in g.cache ==> g'.cache[m] == g.cache[m])
  }

  ghost predicate Spared(g: Graph, g': Graph, s: set<NodeId>) {
    forall m :: m !in s ==> Rested(g, g', m)
  }

  /** From `g` to `g'` nothing was touched but what reading `n` leads to. */
  ghost predicate Lazily(g: Graph, g': Graph, n: NodeId) {
    forall exact, s :: Shut(g, exact, s) && n in s ==> Spared(g, g', s)
  }

  /** Nothing but what asking for the recorded dependencies of `n` leads to. */
  ghost predicate LazilyBelow(g: Graph, g': Graph, n: NodeId) {
    forall exact, s :: Shut(g, exact, s) && RecordedIn(g, n, s) ==> Spared(g, g', s)
  }

  /** Nothing but what a closure that has read `env` and has `c` left to run leads to; `n` runs it. */
  ghost predicate LazilyInside(g: Graph, g': Graph, n: NodeId, c: Comp, env: seq<Value>) {
    forall exact, s :: Shut(g, exact, s) && n in s && FindsWithin(g, exact, c, env, s) ==> Spared(g, g', s)
  }

  ghost predicate RecordedIn(g: Graph, n: NodeId, s: set<NodeId>) { Deps(g.edges, n).Keys <= s }

  ghost predicate FindsWithin(g: Graph, exact: set<NodeId>, c: Comp, env: seq<Value>, s: set<NodeId>) {
    forall d :: MayFind(WorldOf(g), exact, c, env, d) ==> d in s
  }

  // ----------------------------------------------------------------------------------- in general

  lemma NothingTouched(g: Graph, n: NodeId, c: Comp, env: seq<Value>)
    ensures Lazily(g, g, n) && LazilyBelow(g, g, n) && LazilyInside(g, g, n, c, env)
  {
    assert forall s :: Spared(g, g, s);
  }

  lemma SparedTwice(g: Graph, g1: Graph, g2: Graph, s: set<NodeId>)
    requires Spared(g, g1, s) && Spared(g1, g2, s)
    ensures Spared(g, g2, s)
  {
    forall m | m !in s
      ensures Rested(g, g2, m)
    {
      assert Rested(g, g1, m) && Rested(g1, g2, m);
    }
  }

  /** Where no node has become stale or taken on dependencies, nothing leads anywhere new. */
  lemma StaysShut(g: Graph, g1: Graph, exact: set<NodeId>, s: set<NodeId>)
    requires NoStaler(g, g1) && Shut(g, exact, s)
    ensures Shut(g1, exact, s)
  {
    hide MayFind, WorldOf, Sealed;
    forall n, d {:trigger Leads(g1, exact, n, d)} | n in s && Leads(g1, exact, n, d)
      ensures d in s
    {
      assert Leads(g, exact, n, d);
    }
  }

  lemma LazilyTwice(g: Graph, g1: Graph, g2: Graph, n: NodeId)
    requires Lazily(g, g1, n) && Lazily(g1, g2, n) && NoStaler(g, g1)
    ensures Lazily(g, g2, n)
  {
    hide Shut, NoStaler, Spared;
    forall exact, s | Shut(g, exact, s) && n in s
      ensures Spared(g, g2, s)
    {
      StaysShut(g, g1, exact, s);
      SparedTwice(g, g1, g2, s);
    }
  }

  lemma LazilyThen(g: Graph, g1: Graph, g2: Graph, n: NodeId)
    requires Lazily(g, g1, n) && Spared(g1, g2, {n})
    ensures Lazily(g, g2, n)
  {
    hide Shut, Rested;
    forall exact, s | Shut(g, exact, s) && n in s
      ensures Spared(g, g2, s)
    {
      assert Spared(g1, g2, s);
      SparedTwice(g, g1, g2, s);
    }
  }

  // -------------------------------------------------------------------------------------- checking

  /** Nothing but what asking for the first `k` recorded dependencies of `n` leads to. */
  ghost predicate LazilyUpTo(g: Graph, g': Graph, n: NodeId, k: nat) {
    forall exact, s :: Shut(g, exact, s) && FirstIn(g, n, k, s) ==> Spared(g, g', s)
  }

  ghost predicate FirstIn(g: Graph, n: NodeId, k: nat, s: set<NodeId>) {
    forall j :: 0 <= j < k && j < |Order(g.edges, n)| ==> Order(g.edges, n)[j] in s
  }

  lemma NothingAsked(g: Graph, n: NodeId)
    ensures LazilyUpTo(g, g, n, 0)
  {
    assert forall s :: Spared(g, g, s);
  }

  /** The next dependency was asked for. */
  lemma LazilyNext(g: Graph, g1: Graph, g2: Graph, n: NodeId, i: nat)
    requires LazilyUpTo(g, g1, n, i) && i < |Order(g.edges, n)| && Lazily(g1, g2, Order(g.edges, n)[i]) && NoStaler(g, g1)
    ensures LazilyUpTo(g, g2, n, i + 1)
  {
    hide Shut, NoStaler, Spared;
    forall exact, s | Shut(g, exact, s) && FirstIn(g, n, i + 1, s)
      ensures Spared(g, g2, s)
    {
      StaysShut(g, g1, exact, s);
      assert FirstIn(g, n, i, s);
      SparedTwice(g, g1, g2, s);
    }
  }

  lemma UpToIsBelow(g: Graph, g': Graph, n: NodeId, k: nat)
    requires Inv(g) && LazilyUpTo(g, g', n, k)
    ensures LazilyBelow(g, g', n)
  {
    hide Inv, Shut, Spared;
    forall exact, s | Shut(g, exact, s) && RecordedIn(g, n, s)
      ensures Spared(g, g', s)
    {
      forall j | 0 <= j < k && j < |Order(g.edges, n)|
        ensures Order(g.edges, n)[j] in s
      {
        OrderedIsDep(g, n, j);
      }
    }
  }

  /** Checking `n` ended at its `i`-th recorded dependency, because it moved or asking for it unwound: the ones
      before are up to date at the recorded versions, and none after it was asked for. */
  ghost predicate EndedAt(g: Graph, g': Graph, n: NodeId, i: nat, moved: bool) {
    && i < |Order(g.edges, n)|
    && (moved ==> Moved(g', n, Order(g.edges, n)[i]))
    && (forall j :: 0 <= j < i ==> Current(g', n, Order(g.edges, n)[j]))
    && LazilyUpTo(g, g', n, i + 1)
  }

  /** A node in Check leads to what it recorded. */
  lemma LazilyByCheck(g: Graph, g': Graph, n: NodeId)
    requires LazilyBelow(g, g', n) && n in g.program && InState(g, n, Check)
    ensures Lazily(g, g', n)
  {
    hide Spared;
    forall exact, s | Shut(g, exact, s) && n in s
      ensures Spared(g, g', s)
    {
      RecordedWithin(g, exact, n, s);
    }
  }

  lemma RecordedWithin(g: Graph, exact: set<NodeId>, n: NodeId, s: set<NodeId>)
    requires Shut(g, exact, s) && n in s && n in g.program && InState(g, n, Check)
    ensures RecordedIn(g, n, s)
  {
    forall d | d in Deps(g.edges, n)
      ensures d in s
    {
      assert Leads(g, exact, n, d);
    }
  }

  /** Verifying an effect touched, besides the effect, nothing but what its recorded dependencies lead to. */
  ghost predicate LazilyVerified(g: Graph, g': Graph, n: NodeId) {
    forall exact, s :: Shut(g, exact, s) && RecordedIn(g, n, s) ==> Spared(g, g', s + {n})
  }

  lemma NotVerified(g: Graph, g': Graph, n: NodeId)
    requires Spared(g, g', {n})
    ensures LazilyVerified(g, g', n)
  {
    hide Rested;
  }

  lemma VerifiedThen(g: Graph, g1: Graph, g2: Graph, n: NodeId)
    requires LazilyBelow(g, g1, n) && Spared(g1, g2, {n})
    ensures LazilyVerified(g, g2, n)
  {
    hide Shut, Rested;
    forall exact, s | Shut(g, exact, s) && RecordedIn(g, n, s)
      ensures Spared(g, g2, s + {n})
    {
      assert Spared(g, g1, s + {n}) && Spared(g1, g2, s + {n});
      SparedTwice(g, g1, g2, s + {n});
    }
  }

  lemma TakenSpared(g: Graph, n: NodeId)
    ensures Spared(g, MarkTaken(g, n), {n}) && Spared(g, Settled(g, n), {n}) && Spared(g, MarkRestored(g, n), {n})
  {
  }

  /** The mark was taken first. */
  lemma TakenVerified(g: Graph, g': Graph, n: NodeId)
    requires Inv(g) && IsEffect(g, n) && LazilyVerified(MarkTaken(g, n), g', n)
    ensures LazilyVerified(g, g', n)
  {
    var g1 := MarkTaken(g, n);
    TakenSpared(g, n);
    EffectLeadsNowhere(g, n);
    hide Inv, Leads, Sealed, Rested, IsEffect;
    forall exact, s | Shut(g, exact, s) && RecordedIn(g, n, s)
      ensures Spared(g, g', s + {n})
    {
      assert Shut(g1, exact, s) && RecordedIn(g1, n, s);
      assert Spared(g, g1, s + {n});
      SparedTwice(g, g1, g', s + {n});
    }
  }

  lemma EffectLeadsNowhere(g: Graph, n: NodeId)
    requires Inv(g) && IsEffect(g, n)
    ensures MarkTaken(g, n).program == g.program && MarkTaken(g, n).edges == g.edges
    ensures forall exact, m, d {:trigger Leads(MarkTaken(g, n), exact, m, d)} :: Leads(MarkTaken(g, n), exact, m, d) ==> Leads(g, exact, m, d)
  {
    InvParts(g);
    hide MayFind;
    assert WorldOf(MarkTaken(g, n)) == WorldOf(g);
  }

  // --------------------------------------------------------------------------------------- running

  /** A stale node leads to what its closure reads; `g1` is where the closure starts and `g2` where it ends. */
  lemma LazilyByRun(g: Graph, g1: Graph, g2: Graph, g3: Graph, n: NodeId)
    requires n in g.program && !InState(g, n, Clean) && NoStaler(g, g1) && LazilyInside(g1, g2, n, g.program[n], [])
    requires Spared(g, g1, {n}) && Spared(g2, g3, {n})
    ensures Lazily(g, g3, n)
  {
    hide MayFind, NoStaler, Rested;
    SameWorld(g, g1);
    forall exact, s | Shut(g, exact, s) && n in s
      ensures Spared(g, g3, s)
    {
      StaysShut(g, g1, exact, s);
      forall d | MayFind(WorldOf(g1), exact, g.program[n], [], d)
        ensures d in s
      {
        assert Leads(g, exact, n, d);
      }
      assert Spared(g, g1, s) && Spared(g2, g3, s);
      SparedTwice(g, g1, g2, s);
      SparedTwice(g, g2, g3, s);
    }
  }

  lemma SameWorld(g: Graph, g1: Graph)
    requires NoStaler(g, g1)
    ensures WorldOf(g1) == WorldOf(g)
  {
  }

  /** The read a closure makes next. */
  lemma LazilyByRead(g: Graph, g': Graph, n: NodeId, c: Comp, env: seq<Value>)
    requires (c.Get? || c.Peek?) && Lazily(g, g', c.node)
    ensures LazilyInside(g, g', n, c, env)
  {
    hide Shut, Spared;
    forall exact, s | Shut(g, exact, s) && n in s && FindsWithin(g, exact, c, env, s)
      ensures Spared(g, g', s)
    {
      assert MayFind(WorldOf(g), exact, c, env, c.node);
    }
  }

  /** And what it does afterwards. */
  lemma LazilyLater(g: Graph, g1: Graph, g2: Graph, n: NodeId, c: Comp, env: seq<Value>, v: Value)
    requires (c.Get? || c.Peek?) && Lazily(g, g1, c.node) && NoStaler(g, g1) && LazilyInside(g1, g2, n, c.rest, env + [v])
    requires Inv(g1) && Fresh(g1, c.node) && c.node in g1.cache && v == g1.cache[c.node]
    ensures LazilyInside(g, g2, n, c, env)
  {
    hide Inv, Fresh, NoStaler, Spared, Shut;
    LazilyByRead(g, g1, n, c, env);
    SameWorld(g, g1);
    forall exact, s | Shut(g, exact, s) && n in s && FindsWithin(g, exact, c, env, s)
      ensures Spared(g, g2, s)
    {
      StaysShut(g, g1, exact, s);
      ShutSealed(g1, exact, s);
      FreshMayBe(g1, exact, c.node);
      forall d | MayFind(WorldOf(g1), exact, c.rest, env + [v], d)
        ensures d in s
      {
        assert MayFind(WorldOf(g), exact, c, env, d);
      }
      SparedTwice(g, g1, g2, s);
    }
  }

  lemma ShutSealed(g: Graph, exact: set<NodeId>, s: set<NodeId>)
    requires Shut(g, exact, s)
    ensures Sealed(g.program, exact)
  {
  }

  lemma LazilyInBranch(g: Graph, g': Graph, n: NodeId, c: Comp, env: seq<Value>)
    requires c.Branch? && LazilyInside(g, g', n, if c.test(env) then c.yes else c.no, env)
    ensures LazilyInside(g, g', n, c, env)
  {
    hide Shut, Spared;
    var next := if c.test(env) then c.yes else c.no;
    forall exact, s | Shut(g, exact, s) && n in s && FindsWithin(g, exact, c, env, s)
      ensures Spared(g, g', s)
    {
      assert forall d :: MayFind(WorldOf(g), exact, next, env, d) ==> MayFind(WorldOf(g), exact, c, env, d);
    }
  }

  // ---------------------------------------------------------------------------------------- chains

  ghost predicate Chain(g: Graph, exact: set<NodeId>, path: seq<NodeId>) {
    |path| > 0 && forall i {:trigger path[i]} :: 0 <= i < |path| - 1 ==> Leads(g, exact, path[i], path[i + 1])
  }

  /** `n` leads to `m` in some number of steps. */
  ghost predicate LedTo(g: Graph, exact: set<NodeId>, n: NodeId, m: NodeId) {
    exists path :: Chain(g, exact, path) && path[0] == n && path[|path| - 1] == m
  }

  lemma LedFurther(g: Graph, exact: set<NodeId>, n: NodeId, m: NodeId, d: NodeId)
    requires LedTo(g, exact, n, m) && Leads(g, exact, m, d)
    ensures LedTo(g, exact, n, d)
  {
    hide Leads;
    var path :| Chain(g, exact, path) && path[0] == n && path[|path| - 1] == m;
    assert Chain(g, exact, path + [d]) && (path + [d])[0] == n && (path + [d])[|path|] == d;
  }

  lemma LeadsReadable(g: Graph, exact: set<NodeId>, n: NodeId, d: NodeId)
    requires Inv(g) && n in Readable(g.meta) && Leads(g, exact, n, d)
    ensures d in Readable(g.meta)
  {
    hide Inv, MayFind;
    if MayFind(WorldOf(g), exact, g.program[n], [], d) {
      InvParts(g);
      MayFindScoped(WorldOf(g), exact, g.program[n], [], d, Readable(g.meta));
    } else {
      DepReadable(g, n, d);
    }
  }

  /** Whatever a read of `n` touched, a chain of stale nodes led from `n` to it. */
  lemma TouchedIsLedTo(g: Graph, g': Graph, exact: set<NodeId>, n: NodeId, m: NodeId)
    requires Inv(g) && n in Readable(g.meta) && Sealed(g.program, exact) && Lazily(g, g', n) && !Rested(g, g', m)
    ensures LedTo(g, exact, n, m)
  {
    hide Inv, Leads, Readable, LedTo, Sealed, Rested;
    var s := set x | x in Readable(g.meta) && LedTo(g, exact, n, x);
    StartsAt(g, exact, n);
    forall x, d {:trigger Leads(g, exact, x, d)} | x in s && Leads(g, exact, x, d)
      ensures d in s
    {
      LedFurther(g, exact, n, x, d);
      LeadsReadable(g, exact, x, d);
    }
    assert Shut(g, exact, s) && n in s;
    assert Spared(g, g', s);
  }

  lemma StartsAt(g: Graph, exact: set<NodeId>, n: NodeId)
    ensures LedTo(g, exact, n, n)
  {
    assert Chain(g, exact, [n]) && [n][0] == n;
  }
}
