/** The maintained edge counters and the walks of the two indexes they must equal. */
module EdgeCounts {

  import opened Computation
  import opened Graphs

  /** The cells of the graph counters that follow the edge tables. */
  datatype Tally = Tally(liveEdges: nat, edgesAdded: nat, edgesRemoved: nat, observedNodes: nat)

  /** Every edge found by walking the dependency tables. */
  ghost function Outgoing(dependencies: map<NodeId, map<NodeId, int>>): set<(NodeId, NodeId)> {
    set n, d | n in dependencies && d in dependencies[n] :: (n, d)
  }

  /** Every edge found by walking the reverse index. */
  ghost function Incoming(dependents: map<NodeId, set<NodeId>>): set<(NodeId, NodeId)> {
    set d, n | d in dependents && n in dependents[d] :: (n, d)
  }

  /** Nodes with at least one observer. Emptied entries stay in the table, so this is not its size. */
  ghost function ObservedSet(dependents: map<NodeId, set<NodeId>>): set<NodeId> {
    set d | d in dependents && dependents[d] != {}
  }

  ghost predicate Counted(e: Edges, t: Tally) {
    && t.liveEdges == |Outgoing(e.dependencies)|
    && t.edgesAdded == t.edgesRemoved + t.liveEdges
    && t.observedNodes == |ObservedSet(e.dependents)|
  }

  /** Both walks find the same edges. */
  lemma WalksAgree(e: Edges)
    requires Mirrored(e)
    ensures Outgoing(e.dependencies) == Incoming(e.dependents)
  {
    forall n: NodeId, d: NodeId
      ensures (n, d) in Outgoing(e.dependencies) <==> (n, d) in Incoming(e.dependents)
    {
      assert d in Deps(e, n) <==> n in Observers(e, d);
      assert (n, d) in Outgoing(e.dependencies) <==> d in Deps(e, n);
      assert (n, d) in Incoming(e.dependents) <==> n in Observers(e, d);
    }
    forall p: (NodeId, NodeId)
      ensures p in Outgoing(e.dependencies) <==> p in Incoming(e.dependents)
    {
      var (n, d) := p;
      assert (n, d) in Outgoing(e.dependencies) <==> (n, d) in Incoming(e.dependents);
    }
  }

  ghost function From(n: NodeId, ds: set<NodeId>): set<(NodeId, NodeId)> {
    set d | d in ds :: (n, d)
  }

  lemma {:induction false} FromSize(n: NodeId, ds: set<NodeId>)
    ensures |From(n, ds)| == |ds|
    decreases ds
  {
    if d :| d in ds {
      FromSize(n, ds - {d});
      assert From(n, ds) == From(n, ds - {d}) + {(n, d)};
      assert |ds| == |ds - {d}| + 1;
    } else {
      assert ds == {};
      assert From(n, ds) == {};
    }
  }

  lemma Removal<T>(all: set<T>, mine: set<T>, rest: set<T>)
    requires mine <= all && rest == all - mine
    ensures |rest| == |all| - |mine|
  {
    assert all == rest + mine;
  }

  lemma OutgoingAfterClear(e: Edges, e': Edges, n: NodeId)
    requires forall m :: Deps(e', m) == if m == n then map[] else Deps(e, m)
    ensures Outgoing(e'.dependencies) == Outgoing(e.dependencies) - From(n, Deps(e, n).Keys)
    ensures |Outgoing(e'.dependencies)| == |Outgoing(e.dependencies)| - |Deps(e, n).Keys|
  {
    var all, mine, rest := Outgoing(e.dependencies), From(n, Deps(e, n).Keys), Outgoing(e'.dependencies);
    forall p: (NodeId, NodeId)
      ensures p in rest <==> p in all && p !in mine
      ensures p in mine ==> p in all
    {
      var (m, d) := p;
      assert p in rest <==> d in Deps(e', m);
      assert p in all <==> d in Deps(e, m);
      assert p in mine <==> m == n && d in Deps(e, n);
    }
    FromSize(n, Deps(e, n).Keys);
    Removal(all, mine, rest);
  }

  lemma OutgoingAfterAdd(e: Edges, e': Edges, t: NodeId, d: NodeId, v: int)
    requires forall m :: Deps(e', m) == if m == t then Deps(e, t)[d := v] else Deps(e, m)
    ensures Outgoing(e'.dependencies) == Outgoing(e.dependencies) + {(t, d)}
    ensures |Outgoing(e'.dependencies)| == |Outgoing(e.dependencies)| + if d in Deps(e, t) then 0 else 1
  {
    var all, more := Outgoing(e.dependencies), Outgoing(e'.dependencies);
    forall p: (NodeId, NodeId)
      ensures p in more <==> p in all || p == (t, d)
    {
      var (m, x) := p;
      assert p in more <==> x in Deps(e', m);
      assert p in all <==> x in Deps(e, m);
    }
    assert (t, d) in all <==> d in Deps(e, t);
  }

  ghost function Into(ns: set<NodeId>, d: NodeId): set<(NodeId, NodeId)> {
    set n | n in ns :: (n, d)
  }

  lemma {:induction false} IntoSize(ns: set<NodeId>, d: NodeId)
    ensures |Into(ns, d)| == |ns|
    decreases ns
  {
    if n :| n in ns {
      IntoSize(ns - {n}, d);
      assert Into(ns, d) == Into(ns - {n}, d) + {(n, d)};
      assert |ns| == |ns - {n}| + 1;
    } else {
      assert ns == {};
      assert Into(ns, d) == {};
    }
  }

  lemma OutgoingAfterForget(e: Edges, e': Edges, d: NodeId, observers: set<NodeId>)
    requires forall m :: Deps(e', m) == if m in observers then Deps(e, m) - {d} else Deps(e, m)
    requires forall m :: m in observers <==> d in Deps(e, m)
    ensures |Outgoing(e'.dependencies)| == |Outgoing(e.dependencies)| - |observers|
  {
    var all, gone, rest := Outgoing(e.dependencies), Into(observers, d), Outgoing(e'.dependencies);
    forall p: (NodeId, NodeId)
      ensures p in rest <==> p in all && p !in gone
      ensures p in gone ==> p in all
    {
      var (m, x) := p;
      assert p in rest <==> x in Deps(e', m);
      assert p in all <==> x in Deps(e, m);
      assert p in gone <==> x == d && m in observers;
    }
    IntoSize(observers, d);
    Removal(all, gone, rest);
  }

  lemma ObservedAfterForget(dependents: map<NodeId, set<NodeId>>, d: NodeId)
    ensures |ObservedSet(dependents - {d})| == |ObservedSet(dependents)| - if d in dependents && dependents[d] != {} then 1 else 0
  {
    assert ObservedSet(dependents - {d}) == ObservedSet(dependents) - {d};
  }

  /** Taking one observer off a node takes the node off the count exactly when it was the last. */
  lemma ObservedAfterRemove(dependents: map<NodeId, set<NodeId>>, d: NodeId, n: NodeId)
    requires d in dependents && n in dependents[d]
    ensures |ObservedSet(dependents[d := dependents[d] - {n}])|
         == |ObservedSet(dependents)| - if dependents[d] - {n} == {} then 1 else 0
    ensures |ObservedSet(dependents)| > 0
  {
    var after := dependents[d := dependents[d] - {n}];
    assert d in ObservedSet(dependents);
    if dependents[d] - {n} == {} {
      assert ObservedSet(after) == ObservedSet(dependents) - {d};
    } else {
      assert ObservedSet(after) == ObservedSet(dependents);
    }
  }

  lemma ObservedAfterAdd(dependents: map<NodeId, set<NodeId>>, d: NodeId, n: NodeId)
    ensures var before := if d in dependents then dependents[d] else {};
            |ObservedSet(dependents[d := before + {n}])| == |ObservedSet(dependents)| + if before == {} then 1 else 0
  {
    var before := if d in dependents then dependents[d] else {};
    ObservedWith(dependents, d, before + {n});
    assert n in before + {n};
    var all := ObservedSet(dependents);
    assert d in all <==> before != {};
    hide ObservedSet;
    if d in all {
      assert all + {d} == all;
    } else {
      assert |all + {d}| == |all| + 1;
    }
  }

  lemma ObservedWith(dependents: map<NodeId, set<NodeId>>, d: NodeId, observers: set<NodeId>)
    ensures observers != {} ==> ObservedSet(dependents[d := observers]) == ObservedSet(dependents) + {d}
  {
    var after := dependents[d := observers];
    forall x
      ensures x in ObservedSet(after) <==> if x == d then observers != {} else x in ObservedSet(dependents)
    {
      assert x != d ==> (x in after <==> x in dependents) && (x in dependents ==> after[x] == dependents[x]);
    }
  }
}
