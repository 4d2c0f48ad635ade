/** The reactor: edge tables, observer stack, refresh. One table per cell of a node, keyed by node. */
module ReactorModule {

  import opened Basics
  import opened Computation
  import opened Graphs
  import opened Frames
  import opened Steps
  import opened Evolution
  import opened EdgeCounts
  import opened Refreshing
  import opened Foresight
  import opened Reports
  import opened Laziness
  import opened Marking
  import opened EffectSteps
  import opened Growth

  datatype PanicCause =
    | Cycle(path: seq<NodeId>)
    | Divergence(effect: NodeId)
      /** Raised by a body or a cleanup of its own accord. */
    | Thrown

  datatype Outcome<+T> = Done(value: T) | Panic(cause: PanicCause)

  class Reactor {
    var meta: map<NodeId, NodeMeta>
    var program: map<NodeId, Comp>
    var dependencies: map<NodeId, map<NodeId, int>>
    /** The order in which a dependency table iterates: arbitrary, but fixed until it changes. */
    var order: map<NodeId, seq<NodeId>>
    var dependents: map<NodeId, set<NodeId>>
    var state: map<NodeId, State>
    var cache: map<NodeId, Value>
    var stack: seq<NodeId>
    var active: set<NodeId>
    var untracked: nat
    var liveEdges: nat
    var edgesAdded: nat
    var edgesRemoved: nat
    var observedNodes: nat

    ghost var frames: Frames
    ghost var past: Past
    ghost var superseded: set<NodeId>

    function E(): Edges
      reads `dependencies, `order, `dependents
    {
      Edges(dependencies, order, dependents)
    }

    ghost function G(): Graph
      reads `meta, `program, `dependencies, `order, `dependents, `state, `cache, `active, `past
    {
      Graph(meta, program, E(), state, cache, active, past)
    }

    ghost function T(): Tally
      reads `liveEdges, `edgesAdded, `edgesRemoved, `observedNodes
    {
      Tally(liveEdges, edgesAdded, edgesRemoved, observedNodes)
    }

    ghost predicate Valid()
      reads this
    {
      && Inv(G())
      && Framed(G(), frames)
      && active == OnStack(frames)
      && stack == Stack(frames)
      && Counted(E(), T())
    }

    lemma Cells()
      ensures G().meta == meta && G().program == program && G().edges == E() && G().active == active
      ensures G().state == state && G().cache == cache && G().past == past
      ensures forall n :: Version(n) == Ver(G(), n)
    {
    }

    /** What being valid comes to. */
    lemma Parts()
      requires Valid()
      ensures Inv(G()) && Framed(G(), frames) && active == OnStack(frames) && G().active == active && stack == Stack(frames)
    {
      hide Inv, Framed, OnStack, Stack, Counted;
    }

    /** A reactor with no nodes. */
    constructor ()
      ensures Valid() && G() == EmptyGraph() && frames == Bottom && untracked == 0 && superseded == {}
    {
      meta, program := map[], map[];
      dependencies, order, dependents := map[], map[], map[];
      state, cache := map[], map[];
      stack, active, untracked := [], {}, 0;
      liveEdges, edgesAdded, edgesRemoved, observedNodes := 0, 0, 0, 0;
      frames, past, superseded := Bottom, EmptyGraph().past, {};
      new;
      EmptyInv();
      assert Outgoing(dependencies) == {} && ObservedSet(dependents) == {};
    }

    // ---------------------------------------------------------------------------- edge tables

    function Version(n: NodeId): int
      reads `meta
    {
      if n in meta then meta[n].version else 0
    }

    /** Takes `observer` out of the reverse index of each node in `observed`. */
    method Unobserve(observer: NodeId, observed: set<NodeId>)
      requires forall d :: d in observed ==> d in dependents && observer in dependents[d]
      requires observedNodes == |ObservedSet(dependents)|
      modifies `dependents, `observedNodes
      ensures dependents.Keys == old(dependents.Keys)
      ensures forall d :: d in dependents ==>
                dependents[d] == if d in observed then old(dependents)[d] - {observer} else old(dependents)[d]
      ensures observedNodes == |ObservedSet(dependents)|
    {
      var todo := observed;
      while todo != {}
        invariant todo <= observed
        invariant dependents.Keys == old(dependents.Keys)
        invariant forall d :: d in dependents ==>
                    dependents[d] == if d in observed - todo then old(dependents)[d] - {observer} else old(dependents)[d]
        invariant observedNodes == |ObservedSet(dependents)|
      {
        var d :| d in todo;
        ObservedAfterRemove(dependents, d, observer);
        var rest := dependents[d] - {observer};
        dependents := dependents[d := rest];
        if rest == {} {
          observedNodes := Saturating(observedNodes, 1);
        }
        todo := todo - {d};
      }
    }

    /** Empties the dependency table of `observer`, which had edges to `observed`. */
    method EmptyTable(observer: NodeId, observed: set<NodeId>, retainTable: bool)
      requires observer in dependencies && observed == dependencies[observer].Keys
      requires liveEdges == |Outgoing(dependencies)| && edgesAdded == edgesRemoved + liveEdges
      modifies `dependencies, `order, `liveEdges, `edgesRemoved
      ensures Deps(E(), observer) == map[] && Order(E(), observer) == []
      ensures forall m :: m != observer ==> Deps(E(), m) == Deps(old(E()), m) && Order(E(), m) == Order(old(E()), m)
      ensures liveEdges == |Outgoing(dependencies)| && edgesAdded == edgesRemoved + liveEdges
      ensures edgesRemoved == old(edgesRemoved) + |observed|
    {
      hide Outgoing, Deps, Order;
      ghost var e := E();
      Truncate(observer, retainTable);
      TableEmptied(e, E(), observer);
      DepsOf(e, observer);
      liveEdges := Saturating(liveEdges, |observed|);
      edgesRemoved := edgesRemoved + |observed|;
    }

    method Truncate(observer: NodeId, retainTable: bool)
      modifies `dependencies, `order
      ensures if retainTable then dependencies == old(dependencies)[observer := map[]] && order == old(order)[observer := []]
              else dependencies == old(dependencies) - {observer} && order == old(order) - {observer}
    {
      if retainTable {
        dependencies, order := dependencies[observer := map[]], order[observer := []];
      } else {
        dependencies, order := dependencies - {observer}, order - {observer};
      }
    }

    /** Drops every edge `observer` recorded. A rerunning observer keeps its emptied table. */
    method ClearObserverDependencies(observer: NodeId, retainTable: bool)
      requires Mirrored(E()) && Counted(E(), T())
      modifies `dependencies, `order, `dependents, `liveEdges, `edgesRemoved, `observedNodes
      ensures EdgesCleared(old(E()), E(), observer)
      ensures Counted(E(), T()) && edgesRemoved == old(edgesRemoved) + |Deps(old(E()), observer).Keys|
    {
      hide Outgoing, ObservedSet, Mirrored, EdgesCleared;
      ghost var e := E();
      NoEdgesNoOrder(e, observer);
      if observer !in dependencies {
        NothingToClear(e, e, observer);
        return;
      }
      var observed := dependencies[observer].Keys;
      if observed == {} && retainTable {
        NothingToClear(e, e, observer);
        return;
      }
      EmptyTable(observer, observed, retainTable);
      EdgesAreObserved(e, observer);
      Unobserve(observer, observed);
      ClearedByUnobserving(e, E(), observer);
    }

    /** A fresh key may grow the table, and then every key may move. */
    method Rearrange(observer: NodeId, keys: set<NodeId>)
      modifies `order
      ensures forall m :: m != observer ==> Order(E(), m) == Order(old(E()), m)
      ensures forall x :: x in Order(E(), observer) <==> x in keys
      ensures |Order(E(), observer)| == |keys|
    {
      var positions, rest := [], keys;
      while rest != {}
        invariant rest <= keys && |positions| + |rest| == |keys|
        invariant forall x :: x in positions <==> x in keys - rest
      {
        var x :| x in rest;
        positions := positions + [x];
        rest := rest - {x};
      }
      order := order[observer := positions];
    }

    /** The forward half of an edge. */
    method InsertEdge(observer: NodeId, observable: NodeId)
      requires Mirrored(E()) && liveEdges == |Outgoing(dependencies)|
      modifies `dependencies, `order, `liveEdges, `edgesAdded
      ensures EdgesAdd(old(dependencies), dependencies, observer, observable, Version(observable))
      ensures liveEdges == |Outgoing(dependencies)| && edgesAdded - liveEdges == old(edgesAdded - liveEdges)
      ensures edgesAdded == old(edgesAdded) + if observable in Deps(old(E()), observer) then 0 else 1
      ensures forall m :: m != observer ==> Order(E(), m) == Order(old(E()), m)
      ensures forall x :: x in Order(E(), observer) <==> x in Order(old(E()), observer) || x == observable
    {
      ghost var e := E();
      OrderedKeys(e, observer);
      hide Outgoing, Mirrored;
      var edges := if observer in dependencies then dependencies[observer] else map[];
      dependencies := dependencies[observer := edges[observable := Version(observable)]];
      AddedEdges(e, E(), observer, observable, Version(observable));
      if observable !in edges {
        Rearrange(observer, edges.Keys + {observable});
        liveEdges := liveEdges + 1;
        edgesAdded := edgesAdded + 1;
      }
    }

    /** Records the edge observer -> observable at the observable's current version. */
    method RecordEdge(observer: NodeId, observable: NodeId)
      requires Mirrored(E()) && Counted(E(), T())
      modifies `dependencies, `order, `dependents, `liveEdges, `edgesAdded, `observedNodes
      ensures EdgeAdded(old(E()), E(), observer, observable, Version(observable))
      ensures Counted(E(), T())
      ensures edgesAdded == old(edgesAdded) + if observable in Deps(old(E()), observer) then 0 else 1
    {
      hide Outgoing, ObservedSet, Mirrored, EdgeAdded;
      InsertEdge(observer, observable);
      ghost var e := E();
      AddObserver(observable, observer);
      assert Order(E(), observer) == Order(e, observer);
      AddedEdge(old(E()), E(), observer, observable, Version(observable));
    }

    method AddObserver(observable: NodeId, observer: NodeId)
      requires observedNodes == |ObservedSet(dependents)|
      modifies `dependents, `observedNodes
      ensures observedNodes == |ObservedSet(dependents)|
      ensures dependents == old(dependents)[observable := Observers(old(E()), observable) + {observer}]
    {
      var observers := if observable in dependents then dependents[observable] else {};
      ObservedAfterAdd(dependents, observable, observer);
      dependents := dependents[observable := observers + {observer}];
      if observers == {} {
        observedNodes := observedNodes + 1;
      }
    }

    /** Takes `n` out of the dependency table of `m`. An emptied table is freed. */
    method ForgetIn(m: NodeId, n: NodeId)
      modifies `dependencies, `order
      ensures Deps(E(), m) == Deps(old(E()), m) - {n} && Order(E(), m) == Without(Order(old(E()), m), n)
      ensures forall x :: x != m ==> Deps(E(), x) == Deps(old(E()), x) && Order(E(), x) == Order(old(E()), x)
    {
      if m in dependencies {
        var rest := dependencies[m] - {n};
        dependencies := if rest == map[] then dependencies - {m} else dependencies[m := rest];
      }
      if m in order {
        order := order[m := Without(order[m], n)];
      }
    }

    method Forget(n: NodeId, observers: set<NodeId>)
      modifies `dependencies, `order
      ensures forall m :: Deps(E(), m) == if m in observers then Deps(old(E()), m) - {n} else Deps(old(E()), m)
      ensures forall m :: Order(E(), m) == if m in observers then Without(Order(old(E()), m), n) else Order(old(E()), m)
    {
      hide Deps, Order, Without;
      ghost var e := E();
      var todo := observers;
      while todo != {}
        invariant todo <= observers
        invariant forall m :: Deps(E(), m) == if m in observers - todo then Deps(e, m) - {n} else Deps(e, m)
        invariant forall m :: Order(E(), m) == if m in observers - todo then Without(Order(e, m), n) else Order(e, m)
      {
        var m :| m in todo;
        ForgetIn(m, n);
        todo := todo - {m};
      }
    }

    /** Drops every edge others recorded to `n`. */
    method Detach(n: NodeId)
      requires Mirrored(E()) && Counted(E(), T())
      modifies `dependencies, `order, `dependents, `liveEdges, `edgesRemoved, `observedNodes
      ensures Counted(E(), T()) && dependents == old(dependents) - {n}
      ensures edgesRemoved == old(edgesRemoved) + |Observers(old(E()), n)|
      ensures forall m :: Deps(E(), m) == if m in Observers(old(E()), n) then Deps(old(E()), m) - {n} else Deps(old(E()), m)
      ensures forall m :: Order(E(), m) == if m in Observers(old(E()), n) then Without(Order(old(E()), m), n) else Order(old(E()), m)
    {
      hide Outgoing, ObservedSet, Mirrored;
      ghost var e := E();
      var incoming := if n in dependents then dependents[n] else {};
      ObservedAfterForget(dependents, n);
      MirroredObservers(e, n);
      observedNodes := if incoming != {} then Saturating(observedNodes, 1) else observedNodes;
      dependents := dependents - {n};
      ghost var e' := E();
      SameTables(e, e');
      hide Deps, Order;
      Forget(n, incoming);
      OutgoingAfterForget(e, E(), n, incoming);
      liveEdges := Saturating(liveEdges, |incoming|);
      edgesRemoved := edgesRemoved + |incoming|;
    }

    /** Disposal of `n`: its own edges, then every edge others recorded to it. */
    method DropEdges(n: NodeId)
      requires Mirrored(E()) && Counted(E(), T())
      modifies `dependencies, `order, `dependents, `liveEdges, `edgesRemoved, `observedNodes
      ensures EdgesDropped(old(E()), E(), n) && Mirrored(E()) && Counted(E(), T())
      ensures edgesRemoved == old(edgesRemoved) + |Deps(old(E()), n).Keys| + |Observers(old(E()), n) - {n}|
    {
      hide Outgoing, ObservedSet, Mirrored, EdgesCleared, EdgesDropped, Counted, Deps, Order;
      ghost var e := E();
      ClearObserverDependencies(n, false);
      ghost var e' := E();
      ClearedMirrored(e, e', n);
      Detach(n);
      DroppedAfterClearing(e, e', E(), n, Observers(e', n));
      DroppedMirrored(e, E(), n);
    }

    // ------------------------------------------------------------------------ tracking scopes

    /** The node whose closure records reads made now, if any. */
    ghost function Reader(): set<NodeId>
      reads `untracked, `stack
    {
      if untracked == 0 && stack != [] then {stack[|stack| - 1]} else {}
    }

    /** Whether reading `n` now would close a cycle; if so, the stack from `n` on, and `n` again. */
    method CycleCheck(n: NodeId) returns (cycle: Option<seq<NodeId>>)
      requires Valid()
      ensures cycle.Some? <==> n in active
      ensures cycle.Some? ==> IsStackCycle(stack, n, cycle.value)
    {
      hide Inv, Framed, Counted, Stack, OnStack, Distinct;
      StackInBusy(frames);
      StackDistinct(G(), frames);
      if n !in active {
        return None;
      }
      var start := 0;
      while start < |stack| && stack[start] != n
        invariant 0 <= start <= |stack|
        invariant n !in stack[..start]
      {
        assert stack[..start + 1] == stack[..start] + [stack[start]];
        start := start + 1;
      }
      assert n in stack && stack[..|stack|] == stack;
      cycle := Some(stack[start..] + [n]);
    }

    method RecordRead(t: NodeId, n: NodeId) returns (ghost bound: nat)
      requires Mirrored(E()) && Counted(E(), T())
      modifies `dependencies, `order, `dependents, `liveEdges, `edgesAdded, `observedNodes, `past, `superseded
      ensures G() == Observed(old(G()), E(), bound) && forall m :: m in old(past).rank ==> old(past).rank[m] < bound
      ensures EdgeAdded(old(E()), E(), t, n, Version(n)) && Counted(E(), T())
      ensures superseded == old(superseded) + (if Supersedes(old(E()), t, n, Version(n)) then {t} else {})
    {
      hide Counted, EdgeAdded, Mirrored, Supersedes, Fresh;
      ghost var g := G();
      bound := RankBound(past.rank);
      if Supersedes(E(), t, n, Version(n)) {
        superseded := superseded + {t};
      }
      RecordEdge(t, n);
      past := past.(rank := Shifted(g, bound));
    }

    /** Records a read of `n` for the innermost running closure. */
    method Observe(n: NodeId, ghost guide: Guide)
      requires Valid() && MayObserve(G(), frames, n)
      modifies `dependencies, `order, `dependents, `liveEdges, `edgesAdded, `observedNodes, `past, `superseded
      ensures Valid()
      ensures Reader() == {} ==> G() == old(G()) && superseded == old(superseded)
      ensures forall t :: t in Reader() ==>
                && EdgeAdded(old(E()), E(), t, n, Version(n))
                && superseded == old(superseded) + (if Supersedes(old(E()), t, n, Version(n)) then {t} else {})
      ensures Trapped(old(G()), guide) ==> Trapped(G(), guide)
      ensures Evolves(old(G()), G(), Busy(frames), Reader(), true) && Spared(old(G()), G(), {n})
    {
      hide Inv, Framed, Evolves, EdgeAdded, Counted, MayObserve, Supersedes, Busy, OnStack, Stack, Mirrored, Observed, Trapped, Spared;
      EvolvesReflexive(G(), Busy(frames), Reader(), true);
      AllSpared(G(), {n});
      if untracked > 0 || stack == [] {
        return;
      }
      ghost var g := G();
      ReaderFacts(g, frames);
      ghost var bound := RecordRead(stack[|stack| - 1], n);
      ObservedSpared(g, E(), bound, {n});
      ObserveGlue(g, E(), frames, stack[|stack| - 1], n, bound, guide);
    }

    /** Enters the tracking scope of `observer`: its edges are dropped, it goes on the stack, and
        tracking starts afresh whatever untracked region the caller is in. */
    method EnterContext(observer: NodeId) returns (saved: nat)
      requires Mirrored(E()) && Counted(E(), T()) && observer !in active
      modifies `dependencies, `order, `dependents, `liveEdges, `edgesRemoved, `observedNodes, `stack, `active, `untracked
      ensures EdgesCleared(old(E()), E(), observer) && Counted(E(), T())
      ensures stack == old(stack) + [observer] && active == old(active) + {observer}
      ensures untracked == 0 && saved == old(untracked)
    {
      hide EdgesCleared, Counted, Mirrored;
      active := active + {observer};
      ClearObserverDependencies(observer, true);
      stack := stack + [observer];
      saved := untracked;
      untracked := 0;
    }

    method LeaveContext(saved: nat)
      requires stack != []
      modifies `stack, `active, `untracked
      ensures stack == old(stack)[..|old(stack)| - 1] && active == old(active) - {old(stack)[|old(stack)| - 1]}
      ensures untracked == saved
    {
      var popped := stack[|stack| - 1];
      stack := stack[..|stack| - 1];
      active := active - {popped};
      untracked := saved;
    }

    // --------------------------------------------------------------------- running a closure

    /** The first half of a recomputation: clear the mark, then enter the closure's scope. */
    method ClearMarkAndEnter(n: NodeId) returns (saved: nat)
      requires Mirrored(E()) && Counted(E(), T()) && n !in active
      modifies `dependencies, `order, `dependents, `liveEdges, `edgesRemoved, `observedNodes, `stack, `active, `untracked
      modifies `state, `past
      ensures G() == BeginCompute(old(G()), E(), n) && EdgesCleared(old(E()), E(), n) && Counted(E(), T())
      ensures stack == old(stack) + [n] && untracked == 0 && saved == old(untracked)
    {
      hide EdgesCleared, Counted, Mirrored;
      past := past.(runs := past.runs[n := Runs(G(), n) + 1]);
      state := state[n := Clean];
      saved := EnterContext(n);
    }

    method BeginRun(n: NodeId) returns (saved: nat)
      requires Valid() && MayCompute(G(), frames, n)
      modifies `dependencies, `order, `dependents, `liveEdges, `edgesRemoved, `observedNodes, `stack, `active, `untracked
      modifies `state, `past, `frames
      ensures Valid() && G() == BeginCompute(old(G()), E(), n) && EdgesCleared(old(E()), E(), n)
      ensures frames == Push(Computing(n), old(frames)) && untracked == 0 && saved == old(untracked) && stack == old(stack) + [n]
    {
      hide Inv, Framed, EdgesCleared, Counted, Mirrored, Busy, OnStack, Stack, BeginCompute, MayCompute;
      ghost var g := G();
      BeginRunFacts(g, frames, n);
      saved := ClearMarkAndEnter(n);
      BeginComputeKeeps(g, E(), frames, n);
      frames := Push(Computing(n), frames);
    }

    /** Storing a result: a thunk's version always moves, a memo's only when the value changed. */
    method LeaveAndStore(n: NodeId, v: Value, ghost events: seq<ReadEvent>, saved: nat)
      requires stack != [] && stack[|stack| - 1] == n && n in meta
      modifies `meta, `cache, `stack, `active, `untracked, `past
      ensures G() == Stored(old(G()), n, v, events, Changes(old(G()), n, v))
      ensures stack == old(stack)[..|old(stack)| - 1] && untracked == saved
    {
      LeaveContext(saved);
      var changed := meta[n].kind.Thunk? || n !in cache || cache[n] != v;
      cache := cache[n := v];
      if changed {
        meta := meta[n := meta[n].(version := meta[n].version + 1)];
      }
      past := past.(hist := past.hist[Stamp(n, Version(n)) := v], log := past.log[n := events], faulted := past.faulted - {n});
    }

    method StoreResult(n: NodeId, v: Value, ghost events: seq<ReadEvent>, saved: nat)
      requires Valid() && Returned(G(), frames, n, v, events)
      modifies `meta, `cache, `stack, `active, `untracked, `past, `frames
      ensures Valid() && Fresh(G(), n)
      ensures n in old(meta) && G() == Stored(old(G()), n, v, events, Changes(old(G()), n, v))
      ensures old(meta)[n].kind.Thunk? ==> Version(n) == old(Version(n)) + 1
      ensures old(meta)[n].kind.Memo? ==> Version(n) == old(Version(n)) + if n in old(cache) && old(cache)[n] == v then 0 else 1
      ensures frames == old(frames).below && untracked == saved
    {
      hide Inv, Framed, Counted, Mirrored, Busy, OnStack, Stack, Fresh, Follows, Recorded, Stored, Changes;
      ghost var g := G();
      ghost var fs := frames;
      StackPop(fs);
      LeaveAndStore(n, v, events, saved);
      frames := fs.below;
      StoredKeeps(g, fs, n, v, events, Changes(g, n, v));
      StoredVersion(g, n, v, events);
    }

    /** The closure unwound: leave its scope and restore the mark. */
    method LeaveAndRestore(n: NodeId, saved: nat)
      requires stack != [] && stack[|stack| - 1] == n
      modifies `state, `stack, `active, `untracked, `past
      ensures G() == Unwound(old(G()), n)
      ensures stack == old(stack)[..|old(stack)| - 1] && untracked == saved
    {
      LeaveContext(saved);
      state := state[n := Dirty];
      past := past.(faulted := past.faulted + {n});
    }

    method RestoreMark(n: NodeId, saved: nat)
      requires Valid() && frames.Push? && frames.top == Computing(n) && Computed(G(), n)
      modifies `state, `stack, `active, `untracked, `past, `frames
      ensures Valid() && G() == Unwound(old(G()), n) && frames == old(frames).below && untracked == saved
    {
      hide Inv, Framed, Counted, Mirrored, Busy, OnStack, Stack, Unwound;
      ghost var g := G();
      StackPop(frames);
      LeaveAndRestore(n, saved);
      UnwoundKeeps(g, frames, n);
      frames := frames.below;
    }

    // ---------------------------------------------------------------------------- refreshing

    /** Brings `n` up to date, reporting a cycle if it is in the middle of computing. */
    method RefreshNode(n: NodeId, ghost guide: Guide := OldestFirst()) returns (r: Outcome<()>)
      requires Valid() && n in Readable(meta) && MayAsk(G(), frames, n)
      modifies `meta, `dependencies, `order, `dependents, `state, `cache, `stack, `active, `untracked, `past, `frames
      modifies `liveEdges, `edgesAdded, `edgesRemoved, `observedNodes, `superseded
      ensures Valid() && frames == old(frames) && untracked == old(untracked) && stack == old(stack) && superseded == old(superseded)
      ensures Evolves(old(G()), G(), Busy(frames), {}, r.Done?)
      ensures r.Done? ==> Fresh(G(), n)
      ensures r.Panic? ==> Tells(old(G()), old(stack), n, r.cause)
      ensures n in old(active) ==> r.Panic? && r.cause.Cycle? && IsStackCycle(old(stack), n, r.cause.path)
      ensures Lazily(old(G()), G(), n)
      ensures Fresh(old(G()), n) ==> r.Done? && G() == old(G())
      ensures n in Busy(frames) ==> r.Panic? && G() == old(G())
      ensures Guided(old(G()), guide) && Under(guide, program, Busy(frames), n) ==> r.Done?
      ensures Trapped(old(G()), guide) ==> Trapped(G(), guide) && (n in guide.trap ==> r.Panic?)
      decreases meta.Keys - Busy(frames), if n in Busy(frames) then Above(frames, n) + 1 else 0, 5
    {
      hide Inv, Framed, Evolves, Counted, Layered, MayAsk, OnStack, Stack, Busy, IsStackCycle, Guided, Under, Trapped, Fresh, Told, Lazily;
      EvolvesReflexive(G(), Busy(frames), {}, true);
      EvolvesReflexive(G(), Busy(frames), {}, false);
      AllRested(G(), n);
      AskedFacts(G(), frames, n);
      ghost var g := G();
      if Guided(g, guide) && Under(guide, program, Busy(frames), n) && Computed(g, n) {
        AskForesight(g, frames, n, guide);
      }
      var cycle := CycleCheck(n);
      if cycle.Some? {
        MetAgain(g, stack, n, cycle.value);
        return Panic(Cycle(cycle.value));
      }
      if n in state {
        r := Refresh(n, guide);
      } else {
        r := Done(());
      }
      if Trapped(G(), guide) {
        TrappedIsStale(G(), guide, n);
      }
    }

    /** Settles the staleness of a computed node: a Clean one stands, a Check one is recomputed only
        if an input changed, a Dirty one is recomputed. */
    method Refresh(n: NodeId, ghost guide: Guide := OldestFirst()) returns (r: Outcome<()>)
      requires Valid() && Computed(G(), n) && n in state && n !in active && MayAsk(G(), frames, n)
      modifies `meta, `dependencies, `order, `dependents, `state, `cache, `stack, `active, `untracked, `past, `frames
      modifies `liveEdges, `edgesAdded, `edgesRemoved, `observedNodes, `superseded
      ensures Valid() && frames == old(frames) && untracked == old(untracked) && stack == old(stack) && superseded == old(superseded)
      ensures Evolves(old(G()), G(), Busy(frames), {}, r.Done?)
      ensures r.Done? ==> Fresh(G(), n)
      ensures r.Panic? ==> Tells(old(G()), old(stack), n, r.cause)
      ensures Lazily(old(G()), G(), n)
      ensures Fresh(old(G()), n) ==> r.Done? && G() == old(G())
      ensures n in Busy(frames) ==> r.Panic? && G() == old(G())
      ensures Guided(old(G()), guide) && Under(guide, program, Busy(frames), n) ==> r.Done?
      ensures Trapped(old(G()), guide) ==> Trapped(G(), guide)
      decreases meta.Keys - Busy(frames), if n in Busy(frames) then Above(frames, n) + 1 else 0, 4
    {
      hide Inv, Framed, Evolves, Counted, Layered, MayAsk, MayVerify, MayCompute, OnStack, Stack, Busy, AllCurrent, Moved;
      hide WarrantedBy, Told, ToldBelow, Guided, Under, DepsUnder, Trapped, AsksTrap, FindsTrap, Fresh, Lazily, LazilyBelow, Spared, NoStaler;
      ghost var g := G();
      ghost var fs := frames;
      EvolvesReflexive(g, Busy(fs), {}, true);
      EvolvesReflexive(g, Busy(fs), {}, false);
      AllRested(g, n);
      RefreshFacts(g, fs, n);
      ForeseeRefresh(g, fs, n, guide);
      if state[n] == Check {
        var changed;
        ghost var asked;
        changed, asked := DependenciesChanged(n, guide);
        LazilyByCheck(g, G(), n);
        if changed.Panic? {
          ToldByCheck(g, stack, n, changed.cause.path);
          if n !in Busy(fs) {
            EvolvesRelease(g, G(), Busy(fs), {}, false, n);
          }
          return Panic(changed.cause);
        }
        ghost var g1 := G();
        AfterVerify(g, g1, fs, n);
        ForeseeVerified(g, g1, fs, n, guide);
        if changed.value {
          MovedWarrants(g1, n);
          r := Recompute(n, guide);
          LazilyOn(g, g1, G(), Busy(fs) + {n}, {}, true, n);
          EvolvesTransitive(g, g1, G(), Busy(fs), {}, r.Done?);
          if r.Panic? {
            ToldAfter(g, g1, Busy(fs) + {n}, {}, true, stack, n, r.cause.path);
          }
        } else {
          state := state[n := Clean];
          if Trapped(g1, guide) {
            VerifiedStaysTrapped(g1, n, guide);
          }
          CheckedSpared(g1, n);
          LazilyThen(g, g1, G(), n);
          FinishVerify(g, g1, G(), fs, n);
          r := Done(());
        }
      } else if state[n] == Dirty {
        r := Recompute(n, guide);
      } else {
        r := Done(());
      }
    }

    /** The verification of `n`, begun in `g` under the records `fs`, has found its first `i`
        dependencies current. If `n` was already under verification then, nothing has changed
        since, and asking stops for good at dependency `pos`. */
    ghost predicate Asking(g: Graph, fs: Frames, n: NodeId, i: nat, pos: nat)
      reads this
    {
      && Valid()
      && Order(E(), n) == Order(g.edges, n) && Deps(E(), n) == Deps(g.edges, n)
      && meta.Keys == g.meta.Keys && program == g.program
      && (if n in Busy(fs) then G() == g && frames == fs && i <= pos && Reentrant(g, fs, n, pos)
          else frames == Push(Verifying(n, i), fs) && Evolves(g, G(), Busy(fs) + {n}, {}, true))
    }

    /** Brings one recorded dependency up to date and compares versions. */
    method DependencyChanged(n: NodeId, d: NodeId, version: int, ghost g: Graph, ghost fs: Frames, ghost i: nat, ghost pos: nat, ghost guide: Guide)
      returns (r: Outcome<bool>)
      requires Asking(g, fs, n, i, pos)
      requires i < |Order(E(), n)| && d == Order(E(), n)[i] && d in Deps(E(), n) && version == Deps(E(), n)[d]
      modifies `meta, `dependencies, `order, `dependents, `state, `cache, `stack, `active, `untracked, `past, `frames
      modifies `liveEdges, `edgesAdded, `edgesRemoved, `observedNodes, `superseded
      ensures untracked == old(untracked) && stack == old(stack) && superseded == old(superseded)
      ensures r == Done(false) ==> Asking(g, fs, n, i + 1, pos)
      ensures r != Done(false) ==> Valid() && frames == fs
      ensures r != Done(false) && n !in Busy(fs) ==> Evolves(g, G(), Busy(fs) + {n}, {}, r.Done?)
      ensures n in Busy(fs) ==> r == Done(false) || (r.Panic? && G() == g)
      ensures r == Done(true) ==> Moved(G(), n, d)
      ensures r != Done(false) ==> FoundCurrent(g, G(), n, i)
      ensures Current(old(G()), n, d) ==> r == Done(false) && G() == old(G())
      ensures Lazily(old(G()), G(), d)
      ensures r.Panic? ==> Tells(g, old(stack), d, r.cause)
      ensures Guided(g, guide) && DepsUnder(g, guide, Busy(fs) + {n}, n) ==> r.Done? || n in Busy(fs)
      ensures Trapped(old(G()), guide) ==> Trapped(G(), guide) && (d in guide.trap ==> r.Panic?)
      decreases meta.Keys - Busy(fs) - {n}, if n in Busy(fs) then Above(fs, n) + 1 else Height(fs) + 3, 0
    {
      hide Inv, Framed, Evolves, Counted, Layered, MayAsk, MayVerify, OnStack, Stack, Busy, AllCurrent, Moved, Fresh;
      hide PrefixCurrent, Reentrant, Told, Current, Height, Above, Readable, Computed, Linked, FrameOk;
      hide G, Guided, Under, DepsUnder, Trapped, Valid, E, Version, Order, Deps, Lazily, FoundCurrent;
      Cells();
      Parts();
      ghost var g1 := G();
      if n in Busy(fs) {
        ReentryAsks(g, fs, n, pos, i);
        ReentryFound(g, fs, n, pos, i);
      } else {
        VerifyingRecord(fs, n, i);
        NextIsLinked(g1, fs, n, i);
        ForeseeAsk(g, g1, Busy(fs) + {n}, n, d, guide);
      }
      OrderedIsDep(g1, n, i);
      CurrentIsFresh(g1, n, d);
      AskDescends(meta.Keys, fs, frames, n, d);
      var refreshed := RefreshNode(d, guide);
      Cells();
      if n !in Busy(fs) {
        AfterAsk(g, g1, G(), Busy(fs) + {n}, n, refreshed.Done?);
      }
      if refreshed.Panic? {
        if n !in Busy(fs) {
          ToldAfter(g, g1, Busy(fs) + {n}, {}, true, stack, d, refreshed.cause.path);
        }
        Retreat(n, g, fs, i);
        return Panic(refreshed.cause);
      }
      if Version(d) != version {
        Parts();
        VersionNow(G(), n, d);
        Retreat(n, g, fs, i);
        return Done(true);
      }
      NowCurrent(G(), n, d);
      Proceed(n, g, fs, i, pos);
      r := Done(false);
    }

    /** The verification of `n` is over. */
    ghost method Retreat(n: NodeId, g: Graph, fs: Frames, i: nat)
      requires n in Busy(fs) ==> FoundCurrent(g, G(), n, i)
      requires n !in Busy(fs) ==> Order(E(), n) == Order(g.edges, n)
      requires Valid() && frames == if n in Busy(fs) then fs else Push(Verifying(n, i), fs)
      modifies `frames
      ensures Valid() && frames == fs && FoundCurrent(g, G(), n, i)
    {
      hide Inv, Framed, Counted, OnStack, Stack, Busy, PrefixCurrent;
      if n !in Busy(fs) {
        VerifyingRecord(fs, n, i);
        Dismiss(G(), fs, n, i);
      }
      frames := fs;
    }

    /** The dependency just asked for is current: on to the next. */
    ghost method Proceed(n: NodeId, g: Graph, fs: Frames, i: nat, pos: nat)
      requires Valid() && frames == if n in Busy(fs) then fs else Push(Verifying(n, i), fs)
      requires Order(E(), n) == Order(g.edges, n) && Deps(E(), n) == Deps(g.edges, n) && meta.Keys == g.meta.Keys && program == g.program
      requires i < |Order(E(), n)| && Current(G(), n, Order(E(), n)[i])
      requires if n in Busy(fs) then G() == g && i < pos && Reentrant(g, fs, n, pos) else Evolves(g, G(), Busy(fs) + {n}, {}, true)
      modifies `frames
      ensures Asking(g, fs, n, i + 1, pos)
    {
      hide Inv, Framed, Evolves, Counted, OnStack, Stack, Busy, Reentrant, Current;
      if n !in Busy(fs) {
        Advance(G(), fs, n, i);
        VerifyingRecord(fs, n, i);
        VerifyingRecord(fs, n, i + 1);
        frames := Push(Verifying(n, i + 1), fs);
      }
    }

    ghost method BeginAsking(n: NodeId) returns (pos: nat)
      requires Valid() && MayVerify(G(), frames, n)
      modifies `frames
      ensures Asking(G(), old(frames), n, 0, pos)
    {
      hide Inv, Framed, Evolves, Counted, MayVerify, OnStack, Stack, Busy, Reentrant;
      pos := 0;
      if n in Busy(frames) {
        pos := ReentryReplays(G(), frames, n);
        ReentryBound(G(), frames, n, pos);
      } else {
        BeginVerify(G(), frames, n);
        VerifyingRecord(frames, n, 0);
        EvolvesReflexive(G(), Busy(frames) + {n}, {}, true);
        frames := Push(Verifying(n, 0), frames);
      }
    }

    ghost method EndAsking(n: NodeId, g: Graph, fs: Frames, pos: nat)
      requires Asking(g, fs, n, |Order(E(), n)|, pos)
      modifies `frames
      ensures Valid() && frames == fs && n !in Busy(fs) && AllCurrent(G(), n)
    {
      hide Inv, Framed, Evolves, Counted, OnStack, Stack, Busy, Reentrant, AllCurrent, PrefixCurrent;
      var i := |Order(E(), n)|;
      if n in Busy(fs) {
        ReentryBound(g, fs, n, pos);
      } else {
        VerifyingRecord(fs, n, i);
        Dismiss(G(), fs, n, i);
        AllAskedNow(G(), n);
      }
      frames := fs;
    }

    /** Tables are as they were when the asking began. */
    lemma AskingHere(g: Graph, fs: Frames, n: NodeId, i: nat, pos: nat)
      requires Asking(g, fs, n, i, pos)
      ensures Order(E(), n) == Order(g.edges, n) && Deps(E(), n) == Deps(g.edges, n) && meta.Keys == g.meta.Keys
      ensures n !in Busy(fs) ==> Evolves(g, G(), Busy(fs) + {n}, {}, true)
      ensures i < |Order(g.edges, n)| ==> Order(g.edges, n)[i] in Deps(g.edges, n)
    {
      hide Inv, Framed, Counted, OnStack, Stack, Evolves, Reentrant;
      if i < |Order(g.edges, n)| {
        OrderedIsDep(G(), n, i);
      }
    }

    /** The next recorded dependency in order. */
    method AskNext(n: NodeId, d: NodeId, version: int, ghost g: Graph, ghost fs: Frames, ghost i: nat, ghost pos: nat, ghost guide: Guide)
      returns (r: Outcome<bool>)
      requires Asking(g, fs, n, i, pos) && LazilyUpTo(g, G(), n, i) && (AllCurrent(g, n) ==> G() == g)
      requires i < |Order(E(), n)| && d == Order(E(), n)[i] && d in Deps(E(), n) && version == Deps(E(), n)[d]
      modifies `meta, `dependencies, `order, `dependents, `state, `cache, `stack, `active, `untracked, `past, `frames
      modifies `liveEdges, `edgesAdded, `edgesRemoved, `observedNodes, `superseded
      ensures untracked == old(untracked) && stack == old(stack) && superseded == old(superseded)
      ensures r == Done(false) ==> Asking(g, fs, n, i + 1, pos)
      ensures r != Done(false) ==> Valid() && frames == fs
      ensures r != Done(false) && n !in Busy(fs) ==> Evolves(g, G(), Busy(fs) + {n}, {}, r.Done?)
      ensures n in Busy(fs) ==> r == Done(false) || (r.Panic? && G() == g)
      ensures r == Done(true) ==> exists x :: Moved(G(), n, x)
      ensures r != Done(false) ==> EndedAt(g, G(), n, i, r.Done?)
      ensures LazilyUpTo(g, G(), n, i + 1)
      ensures AllCurrent(g, n) ==> r == Done(false) && G() == g
      ensures r.Panic? ==> TellsBelow(g, old(stack), n, r.cause)
      ensures Guided(g, guide) && DepsUnder(g, guide, Busy(fs) + {n}, n) ==> r.Done? || n in Busy(fs)
      ensures Trapped(old(G()), guide) ==> Trapped(G(), guide) && (d in guide.trap ==> r.Panic?)
      decreases meta.Keys - Busy(fs) - {n}, if n in Busy(fs) then Above(fs, n) + 1 else Height(fs) + 3, 1
    {
      hide Inv, Framed, Evolves, Counted, Layered, OnStack, Stack, Busy, AllCurrent, Moved, Reentrant, FoundCurrent, NoStaler;
      hide Told, Height, Above, Readable, Computed, Linked, Fresh, Guided, DepsUnder, Trapped, Current, Valid, Lazily, LazilyUpTo, EndedAt;
      ghost var g1 := G();
      CurrentAt(g1, n, d);
      r := DependencyChanged(n, d, version, g, fs, i, pos, guide);
      LazilyAsked(g, g1, G(), Busy(fs) + {n}, n in Busy(fs), n, i);
      FoundEnds(g, G(), n, i, r.Done? && r.value);
    }

    /** Asks for the recorded dependencies in order, until one moved or asking for it unwound. */
    method AskInOrder(n: NodeId, recorded: seq<NodeId>, edges: map<NodeId, int>, ghost g: Graph, ghost fs: Frames, ghost pos: nat, ghost guide: Guide)
      returns (r: Outcome<bool>, ghost asked: nat)
      requires Asking(g, fs, n, 0, pos) && G() == g && Inv(g) && recorded == Order(g.edges, n) && edges == Deps(g.edges, n)
      modifies `meta, `dependencies, `order, `dependents, `state, `cache, `stack, `active, `untracked, `past, `frames
      modifies `liveEdges, `edgesAdded, `edgesRemoved, `observedNodes, `superseded
      ensures untracked == old(untracked) && stack == old(stack) && superseded == old(superseded)
      ensures r == Done(false) ==> asked == |recorded| && Asking(g, fs, n, asked, pos)
      ensures r != Done(false) ==> Valid() && frames == fs && EndedAt(g, G(), n, asked, r.Done?)
      ensures r != Done(false) && n !in Busy(fs) ==> Evolves(g, G(), Busy(fs) + {n}, {}, r.Done?)
      ensures n in Busy(fs) ==> r == Done(false) || (r.Panic? && G() == g)
      ensures r == Done(true) ==> exists d :: Moved(G(), n, d)
      ensures LazilyBelow(g, G(), n)
      ensures AllCurrent(g, n) ==> r == Done(false) && G() == g
      ensures r.Panic? ==> TellsBelow(g, old(stack), n, r.cause)
      ensures Guided(g, guide) && DepsUnder(g, guide, Busy(fs) + {n}, n) ==> r.Done? || n in Busy(fs)
      ensures Trapped(g, guide) ==> Trapped(G(), guide) && (AsksTrap(g, guide, n) ==> r.Panic? || recorded == [])
      decreases meta.Keys - Busy(fs) - {n}, if n in Busy(fs) then Above(fs, n) + 1 else Height(fs) + 3, 2
    {
      hide Inv, Framed, Evolves, Counted, Layered, MayVerify, OnStack, Stack, Busy, AllCurrent, Moved, Reentrant, Asking, Order, Deps, G, E;
      hide Told, Height, Above, Readable, Computed, Linked, Fresh, Guided, DepsUnder, Trapped, Current, Valid, Lazily, LazilyBelow, LazilyUpTo, EndedAt;
      NothingAsked(g, n);
      AskingHere(g, fs, n, 0, pos);
      var i := 0;
      while i < |recorded|
        invariant Asking(g, fs, n, i, pos) && untracked == old(untracked) && stack == old(stack) && superseded == old(superseded)
        invariant 0 <= i <= |recorded|
        invariant AllCurrent(g, n) ==> G() == g
        invariant LazilyUpTo(g, G(), n, i)
        invariant Trapped(g, guide) ==> Trapped(G(), guide) && (AsksTrap(g, guide, n) ==> i == 0)
      {
        AskingHere(g, fs, n, i, pos);
        var changed := AskNext(n, recorded[i], edges[recorded[i]], g, fs, i, pos, guide);
        if changed != Done(false) {
          UpToIsBelow(g, G(), n, i + 1);
          return changed, i;
        }
        i := i + 1;
      }
      UpToIsBelow(g, G(), n, i);
      r, asked := Done(false), i;
    }

    /** Whether some recorded dependency of `n`, once brought up to date, has another version than
        the one recorded. */
    method DependenciesChanged(n: NodeId, ghost guide: Guide := OldestFirst()) returns (r: Outcome<bool>, ghost asked: nat)
      requires Valid() && MayVerify(G(), frames, n)
      modifies `meta, `dependencies, `order, `dependents, `state, `cache, `stack, `active, `untracked, `past, `frames
      modifies `liveEdges, `edgesAdded, `edgesRemoved, `observedNodes, `superseded
      ensures Valid() && frames == old(frames) && untracked == old(untracked) && stack == old(stack) && superseded == old(superseded)
      ensures n !in Busy(frames) ==> Evolves(old(G()), G(), Busy(frames) + {n}, {}, r.Done?)
      ensures n in Busy(frames) ==> r.Panic? && G() == old(G())
      ensures r == Done(false) ==> AllCurrent(G(), n)
      ensures r == Done(true) ==> exists d :: Moved(G(), n, d)
      ensures r != Done(false) ==> EndedAt(old(G()), G(), n, asked, r.Done?)
      ensures AllCurrent(old(G()), n) ==> r == Done(false) && G() == old(G())
      ensures LazilyBelow(old(G()), G(), n)
      ensures r.Panic? ==> TellsBelow(old(G()), old(stack), n, r.cause)
      ensures Guided(old(G()), guide) && DepsUnder(old(G()), guide, Busy(frames) + {n}, n) ==> r.Done? || n in Busy(frames)
      ensures Trapped(old(G()), guide) ==> Trapped(G(), guide) && (AsksTrap(old(G()), guide, n) ==> r.Panic?)
      decreases meta.Keys - Busy(frames) - {n}, if n in Busy(frames) then Above(frames, n) + 1 else Height(frames) + 3, 3
    {
      hide Inv, Framed, Evolves, Counted, Layered, MayVerify, OnStack, Stack, Busy, AllCurrent, Moved, Reentrant, Asking;
      hide Told, Height, Above, Readable, Computed, Linked, Fresh, Guided, DepsUnder, Trapped, Current, Valid, LazilyBelow, LazilyUpTo, EndedAt;
      Parts();
      ghost var g := G();
      ghost var fs := frames;
      var recorded := if n in order then order[n] else [];
      var edges := if n in dependencies then dependencies[n] else map[];
      assert recorded == Order(g.edges, n) && edges == Deps(g.edges, n);
      ghost var pos := BeginAsking(n);
      r, asked := AskInOrder(n, recorded, edges, g, fs, pos, guide);
      if r == Done(false) {
        AskingHere(g, fs, n, asked, pos);
        EndAsking(n, g, fs, pos);
      }
    }

    /** Runs the closure of `n` and publishes what it returned. */
    method Recompute(n: NodeId, ghost guide: Guide := OldestFirst()) returns (r: Outcome<()>)
      requires Valid() && MayCompute(G(), frames, n) && WarrantedBy(G(), G(), n)
      modifies `meta, `dependencies, `order, `dependents, `state, `cache, `stack, `active, `untracked, `past, `frames
      modifies `liveEdges, `edgesAdded, `edgesRemoved, `observedNodes, `superseded
      ensures Valid() && frames == old(frames) && untracked == old(untracked) && stack == old(stack) && superseded == old(superseded)
      ensures Evolves(old(G()), G(), Busy(frames), {}, r.Done?)
      ensures r.Done? ==> Fresh(G(), n)
      ensures Lazily(old(G()), G(), n)
      ensures r.Panic? ==> Tells(old(G()), old(stack), n, r.cause)
      ensures Guided(old(G()), guide) && Under(guide, program, Busy(frames), n) ==> r.Done?
      ensures Trapped(old(G()), guide) && (n in guide.trap ==> FindsTrap(WorldOf(old(G())), guide, n)) ==> Trapped(G(), guide)
      decreases meta.Keys - Busy(frames) - {n}, Height(frames) + 6, 0
    {
      hide Inv, Framed, Evolves, Counted, Layered, MayCompute, OnStack, Stack, Busy, Fresh, EdgesCleared, Returned, Told, ToldInside, Lazily, LazilyInside, E, T;
      hide Follows, Recorded, WarrantedBy, BeginCompute, Unwound, Stored, Changes, Ran, Guided, Under, Trapped, FindsTrap, Descends;
      ghost var g := G();
      ghost var fs := frames;
      RunFacts(g, fs, n);
      var saved := BeginRun(n);
      ghost var e1, g1 := E(), G();
      RunStarts(g, e1, fs, n);
      ForeseeRun(g, e1, fs, n, guide);
      var result, events := RunClosure(n, program[n], [], guide);
      ghost var g2 := G();
      RunStateAfter(g, e1, g2, fs, n, result.Done?);
      if result.Panic? {
        RunUnwinds(g, e1, g2, fs, n);
        RunTells(g, e1, n, old(stack), result.cause.path);
        RestoreMark(n, saved);
        LazilyUnwound(g, e1, g2, n);
        if Trapped(g2, guide) {
          UnwoundStaysTrapped(g2, n, guide);
        }
        return Panic(result.cause);
      }
      RunReturns(g, e1, g2, fs, n, result.value, events);
      if Trapped(g2, guide) {
        StoredStaysTrapped(g2, frames, n, result.value, events, Changes(g2, n, result.value), guide);
      }
      StoreResult(n, result.value, events, saved);
      LazilyStored(g, e1, g2, n, result.value, events, Changes(g2, n, result.value));
      r := Done(());
    }

    /** Runs the rest `c` of the closure of `n`, having read `env` so far. */
    method RunClosure(n: NodeId, c: Comp, env: seq<Value>, ghost guide: Guide := OldestFirst()) returns (r: Outcome<Value>, ghost events: seq<ReadEvent>)
      requires Valid() && frames.Push? && frames.top == Computing(n) && Computed(G(), n) && untracked == 0
      requires Scoped(c, Readable(meta)) && (Layered(program) ==> ReadsBelow(c, n))
      modifies `meta, `dependencies, `order, `dependents, `state, `cache, `stack, `active, `untracked, `past, `frames
      modifies `liveEdges, `edgesAdded, `edgesRemoved, `observedNodes, `superseded
      ensures Valid() && frames == old(frames) && untracked == 0 && stack == old(stack) && superseded == old(superseded)
      ensures Evolves(old(G()), G(), Busy(frames), {n}, r.Done?)
      ensures r.Done? ==> Follows(c, env, events, r.value) && Ran(old(E()), E(), past.hist, n, events)
      ensures LazilyInside(old(G()), G(), n, c, env)
      ensures r.Panic? ==> TellsInside(old(G()), old(stack), c, env, r.cause)
      ensures Guided(old(G()), guide) && Descends(WorldOf(old(G())), guide, c, env, n) && Under(guide, program, Busy(frames.below), n) ==> r.Done?
      ensures Trapped(old(G()), guide) ==> Trapped(G(), guide)
      decreases meta.Keys - Busy(frames), Height(frames) + 4, 2, c
    {
      hide Inv, Framed, Evolves, Counted, Layered, OnStack, Stack, Busy, Fresh, Told, ToldInside, Ran, EdgeAdded, G, Computed;
      hide Readable, Supersedes, Height, MayRead, Guided, Under, Trapped, Descends, Lower, MayBe, Lazily, LazilyInside;
      Cells();
      ghost var g := G();
      EvolvesReflexive(g, Busy(frames), {n}, true);
      if c.Return? {
        NothingRead(g, n);
        NothingTouched(g, n, c, env);
        return Done(c.result(env)), [];
      } else if c.Branch? {
        if Descends(WorldOf(g), guide, c, env, n) {
          DescendsBranch(WorldOf(g), guide, c, env, n);
        }
        if c.test(env) {
          r, events := RunClosure(n, c.yes, env, guide);
        } else {
          r, events := RunClosure(n, c.no, env, guide);
        }
        LazilyInBranch(g, G(), n, c, env);
        if r.Panic? {
          ToldInBranch(g, stack, c, env, r.cause.path);
        }
      } else {
        var d, tracked := c.node, c.Get?;
        ghost var reader := if tracked then {n} else {};
        ReadsNext(g, frames, n, d);
        ForeseeRead(g, frames, c, env, n, guide);
        var read := ReadInside(n, d, tracked, guide);
        Cells();
        if read.Panic? {
          EvolvesWeaken(g, G(), Busy(frames), reader, false, {n}, false);
          LazilyByRead(g, G(), n, c, env);
          ToldByRead(g, stack, c, env, read.cause.path);
          return Panic(read.cause), [];
        }
        ghost var g1 := G();
        ForeseeRest(g, g1, frames, c, env, n, read.value, reader, guide);
        ghost var event := ReadEvent(d, Version(d), read.value, tracked);
        ClosureReads(g, g1, frames, n, d, reader);
        var result, later := RunClosure(n, c.rest, env + [read.value], guide);
        Cells();
        ReadThenRan(g, g1, G(), frames, n, event, later, result.Done?);
        LazilyRest(g, g1, G(), frames, n, c, env, read.value);
        if result.Panic? {
          RestTells(g, g1, frames, n, c, env, read.value, stack, result.cause.path);
        }
        r, events := result, [event] + later;
        assert events[1..] == later;
      }
    }

    /** A read made inside the running closure or body of `n`; an untracked one records nothing. */
    method ReadInside(n: NodeId, d: NodeId, tracked: bool, ghost guide: Guide := OldestFirst()) returns (r: Outcome<Value>)
      requires Valid() && frames.Push? && frames.top == Computing(n) && untracked == 0
      requires d in Readable(meta) && MayRead(program, frames, d)
      modifies `meta, `dependencies, `order, `dependents, `state, `cache, `stack, `active, `untracked, `past, `frames
      modifies `liveEdges, `edgesAdded, `edgesRemoved, `observedNodes, `superseded
      ensures Valid() && frames == old(frames) && untracked == 0 && stack == old(stack)
      ensures Evolves(old(G()), G(), Busy(frames), if tracked then {n} else {}, r.Done?)
      ensures r.Done? ==> Fresh(G(), d) && d in cache && r.value == cache[d]
      ensures r.Done? && tracked ==> ReadRecorded(old(E()), E(), n, d, Version(d))
      ensures superseded == old(superseded) + Overwritten(old(E()), if tracked then {n} else {}, r.Done?, d, Version(d))
      ensures Lazily(old(G()), G(), d)
      ensures r.Panic? ==> Tells(old(G()), old(stack), d, r.cause)
      ensures Guided(old(G()), guide) && Under(guide, program, Busy(frames), d) ==> r.Done?
      ensures Trapped(old(G()), guide) ==> Trapped(G(), guide) && (d in guide.trap ==> r.Panic?)
      decreases meta.Keys - Busy(frames), Height(frames) + 3, 2
    {
      hide Inv, Framed, Evolves, Counted, Layered, OnStack, Busy, Fresh, Told, MayRead, ReadRecorded, Supersedes;
      hide Readable, Height, G, E, Overwritten, Guided, Under, Trapped, Lazily;
      StackTop(frames);
      if tracked {
        r := Read(d, guide);
      } else {
        untracked := untracked + 1;
        r := Read(d, guide);
        untracked := untracked - 1;
      }
    }

    /** Reads `n`: brings it up to date, records the read for the innermost closure, returns the
        value. */
    method Read(n: NodeId, ghost guide: Guide := OldestFirst()) returns (r: Outcome<Value>)
      requires Valid() && n in Readable(meta) && MayRead(program, frames, n)
      modifies `meta, `dependencies, `order, `dependents, `state, `cache, `stack, `active, `untracked, `past, `frames
      modifies `liveEdges, `edgesAdded, `edgesRemoved, `observedNodes, `superseded
      ensures Valid() && frames == old(frames) && untracked == old(untracked) && stack == old(stack)
      ensures Evolves(old(G()), G(), Busy(frames), Reader(), r.Done?)
      ensures r.Done? ==> Fresh(G(), n) && n in cache && r.value == cache[n]
      ensures r.Done? ==> forall t :: t in Reader() ==> ReadRecorded(old(E()), E(), t, n, Version(n))
      ensures superseded == old(superseded) + Overwritten(old(E()), Reader(), r.Done?, n, Version(n))
      ensures Lazily(old(G()), G(), n)
      ensures r.Panic? ==> Tells(old(G()), old(stack), n, r.cause)
      ensures Guided(old(G()), guide) && Under(guide, program, Busy(frames), n) ==> r.Done?
      ensures Trapped(old(G()), guide) ==> Trapped(G(), guide) && (n in guide.trap ==> r.Panic?)
      decreases meta.Keys - Busy(frames), Height(frames) + 3, 1
    {
      hide Inv, Framed, Evolves, Counted, Layered, OnStack, Stack, Busy, Fresh, Told, EdgeAdded, MayAsk;
      hide MayRead, MayObserve, ReadRecorded, Supersedes, Guided, Under, Trapped, Lazily, Spared;
      ghost var g := G();
      ReadFacts(g, frames, n);
      var refreshed := RefreshNode(n, guide);
      ghost var g1 := G();
      EvolvesWeaken(g, g1, Busy(frames), {}, refreshed.Done?, Reader(), refreshed.Done?);
      if refreshed.Panic? {
        return Panic(refreshed.cause);
      }
      ReadObserves(g, g1, frames, n);
      Observe(n, guide);
      LazilyThen(g, g1, G(), n);
      ReadDone(g, g1, G(), Busy(frames), Reader(), n);
      r := Done(cache[n]);
    }

    // ---------------------------------------------------------------- steps of an effect's run

    /** A source takes a new value and version; nobody has been told yet. */
    method WriteSource(s: NodeId, v: Value)
      requires s in meta
      modifies `meta, `cache, `past
      ensures G() == Written(old(G()), s, v)
    {
      cache := cache[s := v];
      meta := meta[s := meta[s].(version := meta[s].version + 1)];
      past := past.(hist := past.hist[Stamp(s, Version(s)) := v]);
    }

    /** A run begins: the mark is cleared before the inputs are verified. */
    method TakeMark(n: NodeId)
      requires Valid() && IsEffect(G(), n) && n in state && n !in Busy(frames)
      modifies `state, `past
      ensures Valid() && G() == MarkTaken(old(G()), n)
    {
      hide Inv, Framed, Counted, Busy, OnStack, Stack, IsEffect;
      MarkTakenKeeps(G(), frames, n);
      state := state[n := Clean];
      past := past.(exempt := past.exempt + {n});
    }

    /** Verification found nothing changed: the cleared mark stands. */
    ghost method Settle(n: NodeId)
      requires Valid() && IsEffect(G(), n) && AllCurrent(G(), n) && n !in Busy(frames)
      modifies `past
      ensures Valid() && G() == Settled(old(G()), n)
    {
      hide Inv, Framed, Counted, Busy, OnStack, Stack, IsEffect, AllCurrent;
      SettledKeeps(G(), frames, n);
      past := past.(exempt := past.exempt - {n});
    }

    /** Verification unwound: the mark comes back. */
    method RestoreEffectMark(n: NodeId)
      requires Valid() && IsEffect(G(), n) && n in state && n !in Busy(frames)
      modifies `state, `past
      ensures Valid() && G() == MarkRestored(old(G()), n)
    {
      hide Inv, Framed, Counted, Busy, OnStack, Stack, IsEffect;
      MarkRestoredKeeps(G(), frames, n);
      state := state[n := Dirty];
      past := past.(exempt := past.exempt - {n});
    }

    method EnterBodyScope(n: NodeId) returns (saved: nat)
      requires Mirrored(E()) && Counted(E(), T()) && n !in active
      modifies `dependencies, `order, `dependents, `liveEdges, `edgesRemoved, `observedNodes, `stack, `active, `untracked, `past
      ensures G() == BodyEntered(old(G()), E(), n) && EdgesCleared(old(E()), E(), n) && Counted(E(), T())
      ensures stack == old(stack) + [n] && untracked == 0 && saved == old(untracked)
    {
      hide EdgesCleared, Counted, Mirrored;
      saved := EnterContext(n);
      past := past.(exempt := past.exempt - {n}, log := past.log - {n});
    }

    /** Enters the body of effect `n`: last run's edges are dropped and the effect goes on the stack. */
    method EnterBody(n: NodeId) returns (saved: nat)
      requires Valid() && IsEffect(G(), n) && n in state && n !in Busy(frames) && (frames.Push? ==> frames.top.Computing?)
      modifies `dependencies, `order, `dependents, `liveEdges, `edgesRemoved, `observedNodes, `stack, `active, `untracked
      modifies `past, `frames
      ensures Valid() && G() == BodyEntered(old(G()), E(), n) && EdgesCleared(old(E()), E(), n)
      ensures frames == Push(Computing(n), old(frames)) && untracked == 0 && saved == old(untracked)
    {
      hide Inv, Framed, Counted, Mirrored, Busy, OnStack, Stack, IsEffect, BodyEntered, EdgesCleared;
      ghost var g := G();
      BodyFacts(g, frames, n);
      saved := EnterBodyScope(n);
      BodyEnteredKeeps(g, E(), frames, n);
      frames := Push(Computing(n), frames);
    }

    /** The body returned, having made the reads `events`. */
    method LeaveBody(n: NodeId, ghost events: seq<ReadEvent>, saved: nat)
      requires Valid() && frames.Push? && frames.top == Computing(n) && IsEffect(G(), n)
      modifies `stack, `active, `untracked, `past, `frames
      ensures Valid() && G() == BodyLeft(old(G()), n, events) && frames == old(frames).below && untracked == saved
    {
      hide Inv, Framed, Counted, Mirrored, Busy, OnStack, Stack, IsEffect;
      BodyLeftKeeps(G(), frames, n, events);
      StackPop(frames);
      LeaveContext(saved);
      past := past.(log := past.log[n := events]);
      frames := frames.below;
    }

    /** The body unwound. */
    method UnwindBody(n: NodeId, saved: nat)
      requires Valid() && frames.Push? && frames.top == Computing(n) && IsEffect(G(), n)
      modifies `stack, `active, `untracked, `past, `frames
      ensures Valid() && G() == BodyUnwound(old(G()), n) && frames == old(frames).below && untracked == saved
    {
      hide Inv, Framed, Counted, Mirrored, Busy, OnStack, Stack, IsEffect;
      BodyUnwoundKeeps(G(), frames, n);
      StackPop(frames);
      LeaveContext(saved);
      frames := frames.below;
    }

    // ------------------------------------------------------------------------ nodes come and go

    /** Registers a source holding `v`. */
    method AddSignal(n: NodeId, v: Value)
      requires Valid() && n !in meta
      modifies `meta, `cache, `past
      ensures Valid() && G() == WithSignal(old(G()), n, v)
    {
      hide Inv, Counted, Grows, Framed, FreshKept, HistKept;
      SignalGrows(G(), n, v);
      GrowKeepsInv(G(), WithSignal(G(), n, v), {n});
      GrowKeepsFrames(G(), WithSignal(G(), n, v), {n}, frames);
      meta := meta[n := NodeMeta(0, Signal)];
      cache := cache[n := v];
      past := past.(hist := past.hist[Stamp(n, 0) := v], rank := past.rank[n := 0]);
    }

    method AddClosures(group: map<NodeId, Closure>)
      modifies `meta, `program, `state, `past
      ensures G() == WithComputed(old(G()), group)
    {
      hide Each, Metas, Closures;
      meta := meta + Metas(group);
      program := program + Closures(group);
      state := state + Each(group.Keys, Dirty);
      past := past.(rank := past.rank + Each(group.Keys, 0));
    }

    /** Registers computed nodes, whose closures may read one another; nothing runs yet. */
    method AddComputed(group: map<NodeId, Closure>)
      requires Valid() && group.Keys !! meta.Keys
      requires forall n :: n in group ==> Scoped(group[n].comp, Readable(meta) + group.Keys)
      modifies `meta, `program, `state, `past
      ensures Valid() && G() == WithComputed(old(G()), group)
    {
      hide Inv, Counted, Grows, Scoped, Readable, FreshKept, HistKept, WithComputed, Framed;
      ghost var g := G();
      ComputedGrows(g, group);
      GrowKeepsInv(g, WithComputed(g, group), group.Keys);
      GrowKeepsFrames(g, WithComputed(g, group), group.Keys, frames);
      AddClosures(group);
    }

    /** Registers an effect, Dirty until its first run. */
    method AddEffect(n: NodeId)
      requires Valid() && n !in meta
      modifies `meta, `state, `past
      ensures Valid() && G() == WithEffect(old(G()), n)
    {
      hide Inv, Counted, Grows, Framed, FreshKept, HistKept;
      EffectGrows(G(), n);
      GrowKeepsInv(G(), WithEffect(G(), n), {n});
      GrowKeepsFrames(G(), WithEffect(G(), n), {n}, frames);
      meta := meta[n := NodeMeta(0, Effect)];
      state := state[n := Dirty];
      past := past.(log := past.log - {n}, rank := past.rank[n := 0]);
    }

    /** Unhooks an effect from the graph. */
    method RemoveEffect(n: NodeId)
      requires Valid() && IsEffect(G(), n) && n !in Busy(frames)
      modifies `meta, `state, `past, `dependencies, `order, `dependents, `liveEdges, `edgesRemoved, `observedNodes
      ensures Valid() && G() == WithoutEffect(old(G()), E(), n) && EdgesDropped(old(E()), E(), n)
    {
      hide Inv, Counted, EdgesDropped, IsEffect, Framed, Busy, OnStack, Stack, WithoutEffect;
      ghost var g := G();
      Erase(n);
      DisposalKeeps(g, E(), frames, n);
      EffectCaches(g, E(), n);
    }

    /** The edges and the cells of an effect go. */
    method Erase(n: NodeId)
      requires Inv(G()) && Counted(E(), T()) && IsEffect(G(), n)
      modifies `meta, `state, `past, `dependencies, `order, `dependents, `liveEdges, `edgesRemoved, `observedNodes
      ensures G() == WithoutEffect(old(G()), E(), n) && EdgesDropped(old(E()), E(), n) && Counted(E(), T())
    {
      hide Inv, Counted, EdgesDropped, IsEffect, Mirrored, WithoutEffect;
      ghost var g := G();
      InvMirrored(g);
      DropEdges(n);
      assert G() == g.(edges := E());
      WithoutEdges(g, E(), n);
      ForgetCells(n);
    }

    method ForgetCells(n: NodeId)
      modifies `meta, `state, `past
      ensures G() == WithoutEffect(old(G()), E(), n) && G().active == active
    {
      meta := meta - {n};
      state := state - {n};
      past := past.(rank := past.rank - {n}, exempt := past.exempt - {n});
    }
  }

  lemma InvMirrored(g: Graph)
    requires Inv(g)
    ensures Mirrored(g.edges)
  {
  }

  lemma BodyFacts(g: Graph, fs: Frames, n: NodeId)
    requires Inv(g) && g.active == OnStack(fs) && n !in Busy(fs)
    ensures n !in g.active && Mirrored(g.edges) && Stack(Push(Computing(n), fs)) == Stack(fs) + [n]
    ensures forall e' :: BodyEntered(g, e', n).edges == e' && BodyEntered(g, e', n).active == g.active + {n}
  {
    StackInBusy(fs);
  }

  ghost function EmptyGraph(): Graph {
    Graph(map[], map[], Edges(map[], map[], map[]), map[], map[], {}, Past(map[], map[], map[], map[], {}, {}))
  }

  lemma EmptyInv()
    ensures Inv(EmptyGraph())
  {
  }

  lemma BeginRunFacts(g: Graph, fs: Frames, n: NodeId)
    requires Inv(g) && g.active == OnStack(fs) && MayCompute(g, fs, n)
    ensures n !in g.active && Mirrored(g.edges)
    ensures Stack(Push(Computing(n), fs)) == Stack(fs) + [n]
    ensures forall e' :: BeginCompute(g, e', n).edges == e' && BeginCompute(g, e', n).active == g.active + {n}
  {
    StackInBusy(fs);
  }

  lemma StackPop(fs: Frames)
    requires fs.Push? && fs.top.Computing?
    ensures Stack(fs) != [] && Stack(fs)[|Stack(fs)| - 1] == fs.top.node
    ensures Stack(fs)[..|Stack(fs)| - 1] == Stack(fs.below)
  {
  }

  lemma ReaderFacts(g: Graph, fs: Frames)
    requires Inv(g)
    ensures Mirrored(g.edges)
    ensures fs.Push? && fs.top.Computing? ==>
              |Stack(fs)| > 0 && Stack(fs)[|Stack(fs)| - 1] == fs.top.node && fs.top.node in Busy(fs)
    ensures fs == Bottom ==> Stack(fs) == []
  {
  }

  lemma ObserveGlue(g: Graph, e': Edges, fs: Frames, t: NodeId, n: NodeId, bound: nat, guide: Guide)
    requires Inv(g) && Framed(g, fs) && g.active == OnStack(fs) && MayObserve(g, fs, n)
    requires Stack(fs) != [] && t == Stack(fs)[|Stack(fs)| - 1]
    requires EdgeAdded(g.edges, e', t, n, Ver(g, n)) && forall m :: m in g.past.rank ==> g.past.rank[m] < bound
    ensures Inv(Observed(g, e', bound)) && Framed(Observed(g, e', bound), fs)
    ensures Evolves(g, Observed(g, e', bound), Busy(fs), {t}, true)
    ensures Trapped(g, guide) ==> Trapped(Observed(g, e', bound), guide)
  {
    TopFacts(g, fs);
    StackTop(fs);
    hide Inv, EdgeAdded, Evolves, Layered, Observed, Framed, Trapped, Typed, ProgramsScoped, EdgesTyped, CleanClosed, DirtyJustified, Valued, Historic, EdgesBelow, Mirrored, Acyclic;
    ObserveKeeps(g, e', fs, t, n, bound);
    if Trapped(g, guide) {
      InvParts(g);
      ObservedStaysTrapped(g, e', bound, t, n, Ver(g, n), guide);
    }
    EvolvesObserved(g, e', bound, t, n, Ver(g, n), Busy(fs));
  }

  // ------------------------------------------------------------------------------ what is reported

  /** A report made after some refreshing could have been foreseen before it. */
  lemma ToldAfter(g: Graph, g1: Graph, busy: set<NodeId>, open: set<NodeId>, ok: bool, stack: seq<NodeId>, n: NodeId, path: seq<NodeId>)
    requires Evolves(g, g1, busy, open, ok) && Told(g1, stack, n, path)
    requires forall m :: m in open && m in g.program ==> InState(g, m, Clean)
    ensures Told(g, stack, n, path)
  {
    hide Evolves, Told, NoStaler;
    EvolvesNoStaler(g, g1, busy, open, ok);
    ToldBefore(g, g1, stack, n, path);
  }

  lemma RunTells(g: Graph, e1: Edges, n: NodeId, stack: seq<NodeId>, path: seq<NodeId>)
    requires Computed(g, n) && n in g.program && n in g.state && g.state[n] != Clean && EdgesCleared(g.edges, e1, n)
    requires ToldInside(BeginCompute(g, e1, n), stack + [n], g.program[n], [], path)
    ensures Told(g, stack, n, path)
  {
    hide Told, ToldInside, EdgesCleared, NoStaler, BeginCompute;
    BeginNoStaler(g, e1, n);
    ToldByRun(g, BeginCompute(g, e1, n), stack, n, path);
  }

  lemma RestTells(
    g: Graph, g1: Graph, fs: Frames, n: NodeId, c: Comp, env: seq<Value>, v: Value, stack: seq<NodeId>, path: seq<NodeId>)
    requires (c.Get? || c.Peek?) && Inv(g) && Framed(g, fs) && fs.Push? && fs.top == Computing(n) && Computed(g, n)
    requires Evolves(g, g1, Busy(fs), {n}, true) && Inv(g1) && Fresh(g1, c.node) && c.node in g1.cache && v == g1.cache[c.node]
    requires ToldInside(g1, stack, c.rest, env + [v], path)
    ensures ToldInside(g, stack, c, env, path)
  {
    hide Inv, Framed, Evolves, ToldInside, NoStaler, Fresh;
    RunningIsCurrent(g, fs, n);
    EvolvesNoStaler(g, g1, Busy(fs), {n}, true);
    ToldLater(g, g1, stack, c, env, v, path);
  }

  // ------------------------------------------------------------------------------- what is left alone

  lemma AllRested(g: Graph, n: NodeId)
    ensures Lazily(g, g, n) && LazilyBelow(g, g, n)
  {
    NothingTouched(g, n, Return(_ => 0), []);
  }

  lemma AllSpared(g: Graph, s: set<NodeId>)
    ensures Spared(g, g, s)
  {
  }

  lemma ObservedSpared(g: Graph, e': Edges, bound: nat, s: set<NodeId>)
    ensures Spared(g, Observed(g, e', bound), s)
  {
  }

  lemma CheckedSpared(g: Graph, n: NodeId)
    ensures Spared(g, g.(state := g.state[n := Clean]), {n})
  {
  }

  lemma LazilyOn(g: Graph, g1: Graph, g2: Graph, busy: set<NodeId>, open: set<NodeId>, ok: bool, n: NodeId)
    requires Evolves(g, g1, busy, open, ok) && forall m :: m in open && m in g.program ==> InState(g, m, Clean)
    requires Lazily(g, g1, n) && Lazily(g1, g2, n)
    ensures Lazily(g, g2, n)
  {
    hide Evolves, NoStaler, Lazily;
    EvolvesNoStaler(g, g1, busy, open, ok);
    LazilyTwice(g, g1, g2, n);
  }

  lemma LazilyAsked(g: Graph, g1: Graph, g2: Graph, busy: set<NodeId>, still: bool, n: NodeId, i: nat)
    requires if still then g1 == g else Evolves(g, g1, busy, {}, true)
    requires LazilyUpTo(g, g1, n, i) && i < |Order(g.edges, n)| && Lazily(g1, g2, Order(g.edges, n)[i])
    ensures LazilyUpTo(g, g2, n, i + 1)
  {
    if still {
      NoStalerReflexive(g);
    } else {
      EvolvesNoStaler(g, g1, busy, {}, true);
    }
    hide Evolves, NoStaler, Lazily, LazilyUpTo;
    LazilyNext(g, g1, g2, n, i);
  }

  /** The first `i` recorded dependencies of `n` in `g` are up to date in `g'`. */
  ghost predicate FoundCurrent(g: Graph, g': Graph, n: NodeId, i: nat) {
    forall j :: 0 <= j < i && j < |Order(g.edges, n)| ==> Current(g', n, Order(g.edges, n)[j])
  }

  lemma ReentryFound(g: Graph, fs: Frames, n: NodeId, pos: nat, i: nat)
    requires Reentrant(g, fs, n, pos) && i <= pos
    ensures FoundCurrent(g, g, n, i)
  {
  }

  lemma FoundEnds(g: Graph, g': Graph, n: NodeId, i: nat, moved: bool)
    requires i < |Order(g.edges, n)| && LazilyUpTo(g, g', n, i + 1) && (moved ==> Moved(g', n, Order(g.edges, n)[i]))
    ensures FoundCurrent(g, g', n, i) ==> EndedAt(g, g', n, i, moved)
  {
  }

  lemma RunSpared(g: Graph, e1: Edges, n: NodeId)
    ensures Spared(g, BeginCompute(g, e1, n), {n}) && Spared(g, Unwound(g, n), {n})
  {
  }

  lemma StoredSpared(g: Graph, n: NodeId, v: Value, events: seq<ReadEvent>, bump: bool)
    requires n in g.meta
    ensures Spared(g, Stored(g, n, v, events, bump), {n})
  {
  }

  lemma LazilyUnwound(g: Graph, e1: Edges, g2: Graph, n: NodeId)
    requires Computed(g, n) && n in g.program && n in g.state && g.state[n] != Clean && EdgesCleared(g.edges, e1, n)
    requires LazilyInside(BeginCompute(g, e1, n), g2, n, g.program[n], [])
    ensures Lazily(g, Unwound(g2, n), n)
  {
    hide Spared, Lazily, LazilyInside, EdgesCleared, NoStaler, BeginCompute, Unwound;
    BeginNoStaler(g, e1, n);
    RunSpared(g, e1, n);
    RunSpared(g2, e1, n);
    LazilyByRun(g, BeginCompute(g, e1, n), g2, Unwound(g2, n), n);
  }

  lemma LazilyStored(g: Graph, e1: Edges, g2: Graph, n: NodeId, v: Value, events: seq<ReadEvent>, bump: bool)
    requires Computed(g, n) && n in g.program && n in g.state && g.state[n] != Clean && EdgesCleared(g.edges, e1, n)
    requires LazilyInside(BeginCompute(g, e1, n), g2, n, g.program[n], []) && n in g2.meta
    ensures Lazily(g, Stored(g2, n, v, events, bump), n)
  {
    hide Spared, Lazily, LazilyInside, EdgesCleared, NoStaler, BeginCompute, Stored;
    BeginNoStaler(g, e1, n);
    RunSpared(g, e1, n);
    StoredSpared(g2, n, v, events, bump);
    LazilyByRun(g, BeginCompute(g, e1, n), g2, Stored(g2, n, v, events, bump), n);
  }

  lemma LazilyRest(g: Graph, g1: Graph, g2: Graph, fs: Frames, n: NodeId, c: Comp, env: seq<Value>, v: Value)
    requires (c.Get? || c.Peek?) && Inv(g) && Framed(g, fs) && fs.Push? && fs.top == Computing(n) && Computed(g, n)
    requires Evolves(g, g1, Busy(fs), {n}, true) && Inv(g1) && Fresh(g1, c.node) && c.node in g1.cache && v == g1.cache[c.node]
    requires Lazily(g, g1, c.node) && LazilyInside(g1, g2, n, c.rest, env + [v])
    ensures LazilyInside(g, g2, n, c, env)
  {
    hide Inv, Framed, Evolves, Lazily, LazilyInside, NoStaler, Fresh;
    RunningIsCurrent(g, fs, n);
    EvolvesNoStaler(g, g1, Busy(fs), {n}, true);
    LazilyLater(g, g1, g2, n, c, env, v);
  }

  // ------------------------------------------------------------------------------ what is foreseen

  lemma ForeseeRefresh(g: Graph, fs: Frames, n: NodeId, guide: Guide)
    requires Inv(g) && Framed(g, fs) && g.active == OnStack(fs) && Computed(g, n) && n in g.state
    ensures Guided(g, guide) && Under(guide, g.program, Busy(fs), n) ==>
              n !in Busy(fs) && (g.state[n] == Check ==> DepsUnder(g, guide, Busy(fs) + {n}, n))
    ensures Trapped(g, guide) && n in guide.trap ==>
              FindsTrap(WorldOf(g), guide, n) || (g.state[n] == Check && AsksTrap(g, guide, n))
  {
    hide Inv, Framed, Guided, Under, DepsUnder, Trapped, FindsTrap, Fresh, Computed;
    if Guided(g, guide) && Under(guide, g.program, Busy(fs), n) {
      AskForesight(g, fs, n, guide);
    }
    if Trapped(g, guide) {
      TrappedAt(g, guide, n);
    }
  }

  lemma CurrentIsFresh(g: Graph, n: NodeId, d: NodeId)
    ensures Current(g, n, d) ==> Fresh(g, d) && d in Deps(g.edges, n) && Deps(g.edges, n)[d] == Ver(g, d)
  {
  }

  lemma CurrentAt(g: Graph, n: NodeId, d: NodeId)
    requires d in Deps(g.edges, n)
    ensures AllCurrent(g, n) ==> Current(g, n, d)
  {
  }

  lemma ForeseeAsk(g: Graph, g1: Graph, busy: set<NodeId>, n: NodeId, d: NodeId, guide: Guide)
    requires Inv(g1) && Evolves(g, g1, busy, {}, true) && n in busy && d in Deps(g1.edges, n)
    ensures Guided(g, guide) && DepsUnder(g, guide, busy, n) ==> Guided(g1, guide) && Under(guide, g1.program, busy, d)
  {
    hide Inv, Evolves, Guided, DepsUnder, Under;
    if Guided(g, guide) && DepsUnder(g, guide, busy, n) {
      EvolvesKeepsGuided(g, g1, busy, {}, true, guide);
      DepsStayUnder(g, g1, guide, busy, n, d);
    }
  }

  lemma ForeseeVerified(g: Graph, g1: Graph, fs: Frames, n: NodeId, guide: Guide)
    requires Inv(g1) && Evolves(g, g1, Busy(fs) + {n}, {}, true)
    ensures Guided(g, guide) ==> Guided(g1, guide)
    ensures WorldOf(g1) == WorldOf(g)
  {
    hide Inv, Evolves, Guided;
    WorldKept(g, g1, Busy(fs) + {n}, {}, true);
    if Guided(g, guide) {
      EvolvesKeepsGuided(g, g1, Busy(fs) + {n}, {}, true, guide);
    }
  }

  lemma ForeseeRun(g: Graph, e1: Edges, fs: Frames, n: NodeId, guide: Guide)
    requires Inv(g) && Computed(g, n) && n in g.state && g.state[n] != Clean && EdgesCleared(g.edges, e1, n)
    ensures var g1 := BeginCompute(g, e1, n);
            && (Guided(g, guide) ==> Guided(g1, guide))
            && (Guided(g, guide) && Under(guide, g.program, Busy(fs), n) && n in g.program ==> Descends(WorldOf(g1), guide, g.program[n], [], n))
            && (Trapped(g, guide) && (n in guide.trap ==> FindsTrap(WorldOf(g), guide, n)) ==> Trapped(g1, guide))
  {
    InvParts(g);
    hide Inv, ProgramsScoped, EdgesTyped, CleanClosed, DirtyJustified, Valued, Historic, Acyclic, Mirrored, EdgesBelow;
    hide Guided, Trapped, Descends, FindsTrap, EdgesCleared, BeginCompute;
    if Guided(g, guide) {
      BeginKeepsGuided(g, e1, n, guide);
    }
    if Trapped(g, guide) && (n in guide.trap ==> FindsTrap(WorldOf(g), guide, n)) {
      BeginStaysTrapped(g, e1, n, guide);
    }
  }

  lemma ForeseeRead(g: Graph, fs: Frames, c: Comp, env: seq<Value>, n: NodeId, guide: Guide)
    requires (c.Get? || c.Peek?) && fs.Push? && fs.top == Computing(n)
    ensures Descends(WorldOf(g), guide, c, env, n) && Under(guide, g.program, Busy(fs.below), n) ==>
              Under(guide, g.program, Busy(fs), c.node)
  {
    hide Descends, Under, Lower;
    if Descends(WorldOf(g), guide, c, env, n) {
      DescendsOn(g, guide, c, env, n, 0);
      ReadUnder(g, guide, fs, n, c.node);
    }
  }

  lemma ForeseeRest(
    g: Graph, g1: Graph, fs: Frames, c: Comp, env: seq<Value>, n: NodeId, v: Value, reader: set<NodeId>, guide: Guide)
    requires (c.Get? || c.Peek?) && Inv(g) && Framed(g, fs) && fs.Push? && fs.top == Computing(n) && Computed(g, n)
    requires reader <= {n} && Evolves(g, g1, Busy(fs), reader, true) && Inv(g1)
    requires Fresh(g1, c.node) && c.node in g1.cache && v == g1.cache[c.node]
    ensures Guided(g, guide) ==> Guided(g1, guide)
    ensures Guided(g, guide) && Descends(WorldOf(g), guide, c, env, n) ==> Descends(WorldOf(g1), guide, c.rest, env + [v], n)
  {
    hide Inv, Framed, Evolves, Guided, Descends, Lower, MayBe, Fresh, AllCurrent;
    if Guided(g, guide) {
      RunningIsCurrent(g, fs, n);
      EvolvesKeepsGuided(g, g1, Busy(fs), reader, true, guide);
      GuidedIsSealed(g1, guide);
      FreshMayBe(g1, guide.exact, c.node);
      if Descends(WorldOf(g), guide, c, env, n) {
        DescendsOn(g1, guide, c, env, n, v);
      }
    }
  }

  lemma StackTop(fs: Frames)
    requires fs.Push? && fs.top.Computing?
    ensures |Stack(fs)| > 0 && Stack(fs)[|Stack(fs)| - 1] == fs.top.node && fs.top.node in Busy(fs)
  {
  }

  /** A cycle report runs from a node back to the same node. */
  ghost predicate IsCycleReport(cause: PanicCause) {
    cause.Cycle? && |cause.path| >= 2 && cause.path[0] == cause.path[|cause.path| - 1]
  }

  /** A report of the closures reading `n` was led through, back to one of them or of those on the stack. */
  ghost predicate Tells(g: Graph, stack: seq<NodeId>, n: NodeId, cause: PanicCause) {
    cause.Cycle? && Told(g, stack, n, cause.path)
  }

  ghost predicate TellsBelow(g: Graph, stack: seq<NodeId>, n: NodeId, cause: PanicCause) {
    cause.Cycle? && ToldBelow(g, stack, n, cause.path)
  }

  ghost predicate TellsInside(g: Graph, stack: seq<NodeId>, c: Comp, env: seq<Value>, cause: PanicCause) {
    cause.Cycle? && ToldInside(g, stack, c, env, cause.path)
  }

  ghost predicate EdgesAdd(
    deps: map<NodeId, map<NodeId, int>>, deps': map<NodeId, map<NodeId, int>>, t: NodeId, d: NodeId, v: int)
  {
    deps' == deps[t := (if t in deps then deps[t] else map[])[d := v]]
  }

  lemma AddedEdges(e: Edges, e': Edges, t: NodeId, d: NodeId, v: int)
    requires EdgesAdd(e.dependencies, e'.dependencies, t, d, v)
    ensures |Outgoing(e'.dependencies)| == |Outgoing(e.dependencies)| + if d in Deps(e, t) then 0 else 1
  {
    OutgoingAfterAdd(e, e', t, d, v);
  }

  lemma OrderedKeys(e: Edges, n: NodeId)
    requires Mirrored(e)
    ensures forall d :: d in Deps(e, n).Keys <==> d in Order(e, n)
  {
  }

  lemma AddedEdge(e: Edges, e': Edges, t: NodeId, d: NodeId, v: int)
    requires EdgesAdd(e.dependencies, e'.dependencies, t, d, v)
    requires e'.dependents == e.dependents[d := Observers(e, d) + {t}]
    requires forall m :: m != t ==> Order(e', m) == Order(e, m)
    requires forall x :: x in Order(e', t) <==> x in Order(e, t) || x == d
    ensures EdgeAdded(e, e', t, d, v)
  {
  }

  lemma EdgesAreObserved(e: Edges, n: NodeId)
    requires Mirrored(e)
    ensures forall d :: d in Deps(e, n) ==> d in e.dependents && n in e.dependents[d]
  {
    forall d | d in Deps(e, n)
      ensures d in e.dependents && n in e.dependents[d]
    {
      assert n in Observers(e, d);
    }
  }

  function Without(s: seq<NodeId>, x: NodeId): (r: seq<NodeId>)
    ensures forall y :: y in r <==> y in s && y != x
    ensures x !in s ==> r == s
  {
    if s == [] then [] else if s[0] == x then Without(s[1..], x) else [s[0]] + Without(s[1..], x)
  }

  lemma ClearedMirrored(e: Edges, e': Edges, n: NodeId)
    requires Mirrored(e) && EdgesCleared(e, e', n)
    ensures Mirrored(e') && Observers(e', n) == Observers(e, n) - {n}
  {
    forall m: NodeId, d: NodeId {:trigger d in Deps(e', m)} {:trigger m in Observers(e', d)} {:trigger d in Order(e', m)}
      ensures d in Deps(e', m) <==> m in Observers(e', d)
      ensures d in Deps(e', m) <==> d in Order(e', m)
    {
      assert d in Deps(e, m) <==> m in Observers(e, d);
      assert d in Deps(e, m) <==> d in Order(e, m);
    }
  }

  lemma SameTables(e: Edges, e': Edges)
    requires e'.dependencies == e.dependencies && e'.order == e.order
    ensures forall m :: Deps(e', m) == Deps(e, m) && Order(e', m) == Order(e, m)
  {
  }

  lemma MirroredObservers(e: Edges, n: NodeId)
    requires Mirrored(e)
    ensures forall m :: m in Observers(e, n) <==> n in Deps(e, m)
  {
  }

  lemma DroppedAfterClearing(e: Edges, e1: Edges, e2: Edges, n: NodeId, incoming: set<NodeId>)
    requires Mirrored(e) && EdgesCleared(e, e1, n) && incoming == Observers(e1, n)
    requires forall m :: Deps(e2, m) == if m in incoming then Deps(e1, m) - {n} else Deps(e1, m)
    requires forall m :: Order(e2, m) == if m in incoming then Without(Order(e1, m), n) else Order(e1, m)
    requires e2.dependents == e1.dependents - {n}
    ensures EdgesDropped(e, e2, n)
  {
    assert n !in incoming && Deps(e2, n) == map[] && Order(e2, n) == [];
    hide Mirrored;
    forall m | m != n
      ensures Deps(e2, m) == Deps(e, m) - {n}
      ensures n !in Deps(e, m) ==> Order(e2, m) == Order(e, m)
      ensures forall d :: d in Order(e2, m) <==> d in Order(e, m) && d != n
    {
      DroppedAt(e, e1, e2, n, incoming, m);
    }
    hide Deps, Order;
    ForgottenObservers(e, e1, e2, n);
  }

  lemma ForgottenObservers(e: Edges, e1: Edges, e2: Edges, n: NodeId)
    requires EdgesCleared(e, e1, n) && e2.dependents == e1.dependents - {n}
    ensures Observers(e2, n) == {} && forall d :: d != n ==> Observers(e2, d) == Observers(e, d) - {n}
  {
    forall d | d != n
      ensures Observers(e2, d) == Observers(e, d) - {n}
    {
      assert Observers(e1, d) == Observers(e, d) - {n};
    }
  }

  lemma DroppedAt(e: Edges, e1: Edges, e2: Edges, n: NodeId, incoming: set<NodeId>, m: NodeId)
    requires Mirrored(e) && EdgesCleared(e, e1, n) && incoming == Observers(e1, n) && m != n
    requires Deps(e2, m) == if m in incoming then Deps(e1, m) - {n} else Deps(e1, m)
    requires Order(e2, m) == if m in incoming then Without(Order(e1, m), n) else Order(e1, m)
    ensures Deps(e2, m) == Deps(e, m) - {n}
    ensures n !in Deps(e, m) ==> Order(e2, m) == Order(e, m)
    ensures forall d :: d in Order(e2, m) <==> d in Order(e, m) && d != n
  {
    assert n in Deps(e, m) <==> m in Observers(e, n);
    assert n in Deps(e, m) <==> n in Order(e, m);
    assert m in incoming <==> m in Observers(e, n);
    hide Mirrored, EdgesCleared;
    if m !in incoming {
      assert Deps(e, m) - {n} == Deps(e, m);
    }
  }

  lemma DepsOf(e: Edges, n: NodeId)
    requires n in e.dependencies
    ensures Deps(e, n) == e.dependencies[n]
  {
  }

  lemma TableEmptied(e: Edges, e': Edges, n: NodeId)
    requires (e'.dependencies == e.dependencies[n := map[]] && e'.order == e.order[n := []])
             || (e'.dependencies == e.dependencies - {n} && e'.order == e.order - {n})
    ensures Deps(e', n) == map[] && Order(e', n) == []
    ensures forall m :: m != n ==> Deps(e', m) == Deps(e, m) && Order(e', m) == Order(e, m)
    ensures |Outgoing(e'.dependencies)| == |Outgoing(e.dependencies)| - |Deps(e, n).Keys|
  {
    hide Outgoing;
    forall m
      ensures Deps(e', m) == if m == n then map[] else Deps(e, m)
    {
    }
    OutgoingAfterClear(e, e', n);
  }

  lemma NothingToClear(e: Edges, e': Edges, n: NodeId)
    requires Mirrored(e) && Deps(e, n) == map[] && Deps(e', n) == map[] && Order(e', n) == []
    requires e'.dependents == e.dependents
    requires forall m :: m != n ==> Deps(e', m) == Deps(e, m) && Order(e', m) == Order(e, m)
    ensures EdgesCleared(e, e', n)
  {
    forall d
      ensures Observers(e', d) == Observers(e, d) - {n}
    {
      assert d !in Deps(e, n);
      assert n !in Observers(e, d);
    }
  }

  lemma ClearedByUnobserving(e: Edges, e': Edges, n: NodeId)
    requires Mirrored(e) && Deps(e', n) == map[] && Order(e', n) == []
    requires forall m :: m != n ==> Deps(e', m) == Deps(e, m) && Order(e', m) == Order(e, m)
    requires e'.dependents.Keys == e.dependents.Keys
    requires forall d :: d in e.dependents ==>
               e'.dependents[d] == if d in Deps(e, n) then e.dependents[d] - {n} else e.dependents[d]
    ensures EdgesCleared(e, e', n)
  {
    forall d
      ensures Observers(e', d) == Observers(e, d) - {n}
    {
      if d !in Deps(e, n) {
        assert n !in Observers(e, d);
      }
    }
  }
}
