/** Observation hooks: a node tells its consumer when it gains its first observer and when it loses its
    last, coalesced to the drain of the job queue. */
module Hooks {

  import opened Computation
  import opened Graphs
  import opened EdgeCounts
  import Steps
  import opened ReactorModule

  datatype Call = Watch | Unwatch

  /** Callbacks strictly alternate, beginning with a watch. */
  ghost predicate Alternates(calls: seq<Call>) {
    forall i :: 0 <= i < |calls| ==> calls[i] == if i % 2 == 0 then Watch else Unwatch
  }

  /** The state a consumer has been told about. */
  ghost predicate Told(calls: seq<Call>) { |calls| % 2 == 1 }

  /** The callbacks a history of delivered states owes: one for each change, beginning unobserved. */
  ghost function Changes(states: seq<bool>): seq<Call> {
    if states == [] then []
    else
      var front, last := states[..|states| - 1], states[|states| - 1];
      if last == (front != [] && front[|front| - 1]) then Changes(front)
      else Changes(front) + [if last then Watch else Unwatch]
  }

  /** Whatever the history, those callbacks alternate and end in the last state. */
  lemma {:induction false} ChangesAlternate(states: seq<bool>)
    ensures Alternates(Changes(states))
    ensures Told(Changes(states)) == (states != [] && states[|states| - 1])
    decreases |states|
  {
    if states != [] {
      var front, last := states[..|states| - 1], states[|states| - 1];
      ChangesAlternate(front);
      var calls, more := Changes(front), Changes(states);
      hide Changes;
      assert more == calls || more == calls + [if last then Watch else Unwatch];
    }
  }

  class ObservationHooks {
    const node: NodeId
    var observed: bool
    var delivered: bool
    var queued: bool
    var cancelled: bool
    var jobs: nat

    /** Callbacks made, and the state found by each job that ran before disposal. */
    ghost var calls: seq<Call>
    ghost var found: seq<bool>

    /** The hooks agree with the edge tables `e`. */
    ghost predicate Valid(e: Edges)
      reads this
    {
      && (!cancelled ==> observed == (Observers(e, node) != {}))
      && Delivering()
    }

    ghost predicate Delivering()
      reads this
    {
      && jobs == (if queued then 1 else 0)
      && (!queued && !cancelled ==> delivered == observed)
      && calls == Changes(found)
      && delivered == (found != [] && found[|found| - 1])
    }

    constructor (node: NodeId, ghost e: Edges)
      requires Observers(e, node) == {}
      ensures Valid(e) && calls == [] && found == [] && this.node == node && !cancelled
    {
      this.node := node;
      observed, delivered, queued, cancelled, jobs := false, false, false, false, 0;
      calls, found := [], [];
    }

    /** An edge was recorded, turning the tables `e` into `e'`: a first observer is a transition. */
    method Recorded(observer: NodeId, observable: NodeId, e: Edges, ghost e': Edges, ghost version: int)
      requires Valid(e) && Steps.EdgeAdded(e, e', observer, observable, version)
      modifies `observed, `queued, `jobs
      ensures Valid(e') && (queued <== old(queued))
      ensures !cancelled && Observers(e, node) == {} && Observers(e', node) != {} ==> queued
      ensures (Observers(e, node) == {} <==> Observers(e', node) == {}) ==> observed == old(observed) && queued == old(queued)
    {
      if observable == node && Observers(e, observable) == {} {
        assert observer in Observers(e', node);
        NoteChange(true);
      }
    }

    /** The edges `observer` had recorded were dropped: losing the last observer is a transition. */
    method Cleared(observer: NodeId, e: Edges, e': Edges)
      requires Valid(e) && Mirrored(e) && Steps.EdgesCleared(e, e', observer)
      modifies `observed, `queued, `jobs
      ensures Valid(e') && (queued <== old(queued))
      ensures !cancelled && Observers(e, node) != {} && Observers(e', node) == {} ==> queued
      ensures (Observers(e, node) == {} <==> Observers(e', node) == {}) ==> observed == old(observed) && queued == old(queued)
    {
      if node in Deps(e, observer) && Observers(e', node) == {} {
        NoteChange(false);
      }
    }

    /** A node was disposed. Its own hooks go with it: a delivery already queued will do nothing. */
    method Disposed(n: NodeId, e: Edges, e': Edges)
      requires Valid(e) && Mirrored(e) && Steps.EdgesDropped(e, e', n)
      modifies `observed, `queued, `jobs, `cancelled
      ensures Valid(e') && (queued <== old(queued)) && cancelled == (old(cancelled) || n == node)
      ensures !cancelled && Observers(e, node) != {} && Observers(e', node) == {} ==> queued
      ensures n != node && (Observers(e, node) == {} <==> Observers(e', node) == {}) ==> observed == old(observed) && queued == old(queued)
    {
      if node in Deps(e, n) && Observers(e, node) == {n} {
        NoteChange(false);
      }
      if n == node {
        cancelled := true;
      }
    }

    /** Notes a transition and queues one delivery; a disposed node has no hooks to find. */
    method NoteChange(now: bool)
      requires Delivering()
      modifies `observed, `queued, `jobs
      ensures Delivering() && (if cancelled then observed == old(observed) && queued == old(queued) else observed == now && queued)
    {
      if cancelled {
        return;
      }
      observed := now;
      if !queued {
        queued := true;
        jobs := jobs + 1;
      }
    }

    /** The queued delivery runs: a callback only if the state changed since the last one delivered. */
    method Deliver(ghost e: Edges)
      requires Valid(e) && jobs > 0
      modifies `delivered, `queued, `jobs, `calls, `found
      ensures Valid(e) && jobs == 0 && !queued
      ensures cancelled ==> calls == old(calls)
      ensures !cancelled ==>
                var watched := Observers(e, node) != {};
                && delivered == watched
                && calls == old(calls) + if watched == old(delivered) then [] else [if watched then Watch else Unwatch]
    {
      jobs := jobs - 1;
      queued := false;
      if cancelled {
        return;
      }
      assert (found + [observed])[..|found|] == found;
      found := found + [observed];
      if delivered == observed {
        return;
      }
      delivered := observed;
      calls := calls + [if observed then Watch else Unwatch];
    }

    /** At any time the callbacks alternate; with the queue drained the consumer has been told exactly
        whether the node is one of those the reactor counts as observed. */
    lemma Consistent(e: Edges)
      requires Valid(e)
      ensures Alternates(calls)
      ensures !cancelled && jobs == 0 ==> (Told(calls) <==> node in ObservedSet(e.dependents))
    {
      ChangesAlternate(found);
    }
  }

  /** The reactor's tables and the hooks of one node change together. */
  method RecordWatched(r: Reactor, hooks: ObservationHooks, observer: NodeId, observable: NodeId)
    requires Mirrored(r.E()) && Counted(r.E(), r.T()) && hooks.Valid(r.E())
    modifies r`dependencies, r`order, r`dependents, r`liveEdges, r`edgesAdded, r`observedNodes, hooks`observed, hooks`queued, hooks`jobs
    ensures hooks.Valid(r.E()) && Counted(r.E(), r.T()) && Steps.EdgeAdded(old(r.E()), r.E(), observer, observable, r.Version(observable))
    ensures !hooks.cancelled && old(Observers(r.E(), hooks.node)) == {} && observable == hooks.node ==> hooks.queued
  {
    hide Counted, Mirrored;
    var e := r.E();
    r.RecordEdge(observer, observable);
    hooks.Recorded(observer, observable, e, r.E(), r.Version(observable));
  }

  method ClearWatched(r: Reactor, hooks: ObservationHooks, observer: NodeId, retainTable: bool)
    requires Mirrored(r.E()) && Counted(r.E(), r.T()) && hooks.Valid(r.E())
    modifies r`dependencies, r`order, r`dependents, r`liveEdges, r`edgesRemoved, r`observedNodes, hooks`observed, hooks`queued, hooks`jobs
    ensures hooks.Valid(r.E()) && Counted(r.E(), r.T()) && Steps.EdgesCleared(old(r.E()), r.E(), observer)
    ensures !hooks.cancelled && old(Observers(r.E(), hooks.node)) == {observer} ==> hooks.queued
  {
    hide Counted;
    var e := r.E();
    r.ClearObserverDependencies(observer, retainTable);
    hooks.Cleared(observer, e, r.E());
  }

  method DisposeWatched(r: Reactor, hooks: ObservationHooks, n: NodeId)
    requires Mirrored(r.E()) && Counted(r.E(), r.T()) && hooks.Valid(r.E())
    modifies r`dependencies, r`order, r`dependents, r`liveEdges, r`edgesRemoved, r`observedNodes
    modifies hooks`observed, hooks`queued, hooks`jobs, hooks`cancelled
    ensures hooks.Valid(r.E()) && Counted(r.E(), r.T()) && Steps.EdgesDropped(old(r.E()), r.E(), n)
    ensures n != hooks.node && !hooks.cancelled && old(Observers(r.E(), hooks.node)) == {n} ==> hooks.queued
    ensures hooks.cancelled == (old(hooks.cancelled) || n == hooks.node)
  {
    hide Counted;
    var e := r.E();
    r.DropEdges(n);
    hooks.Disposed(n, e, r.E());
  }
}
