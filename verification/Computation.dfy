/** Node identities, computations and their from-scratch meaning.

    A compute closure is modelled as a decision tree over the values it has read so far, so the
    set of nodes a run reads may change from one run to the next. */
module Computation {

  import opened Basics

  /** Identifiers are allocated in increasing order. */
  datatype NodeId = NodeId(raw: nat)

  type Value = int

  /** The closure of a thunk or memo. `Get` is a tracked read, `Peek` an untracked one; the
      functions receive the values read so far, in order. */
  datatype Comp =
    | Return(result: seq<Value> -> Value)
    | Get(node: NodeId, rest: Comp)
    | Peek(node: NodeId, rest: Comp)
    | Branch(test: seq<Value> -> bool, yes: Comp, no: Comp)

  /** Every node the tree can read is one of `nodes`. */
  ghost predicate Scoped(c: Comp, nodes: set<NodeId>) {
    match c
    case Return(_) => true
    case Get(n, rest) => n in nodes && Scoped(rest, nodes)
    case Peek(n, rest) => n in nodes && Scoped(rest, nodes)
    case Branch(_, yes, no) => Scoped(yes, nodes) && Scoped(no, nodes)
  }

  lemma ScopedMonotone(c: Comp, small: set<NodeId>, large: set<NodeId>)
    requires Scoped(c, small) && small <= large
    ensures Scoped(c, large)
  {
  }

  /** Every read in the tree is tracked. */
  ghost predicate Tracked(c: Comp) {
    match c
    case Return(_) => true
    case Get(_, rest) => Tracked(rest)
    case Peek(_, _) => false
    case Branch(_, yes, no) => Tracked(yes) && Tracked(no)
  }

  /** Every node the tree can read was created before `id`. */
  ghost predicate ReadsBelow(c: Comp, id: NodeId) {
    match c
    case Return(_) => true
    case Get(n, rest) => n.raw < id.raw && ReadsBelow(rest, id)
    case Peek(n, rest) => n.raw < id.raw && ReadsBelow(rest, id)
    case Branch(_, yes, no) => ReadsBelow(yes, id) && ReadsBelow(no, id)
  }

  /** One read made by a run: which node, the version and value found, and whether it was
      recorded as a dependency. */
  datatype ReadEvent = ReadEvent(node: NodeId, version: int, value: Value, tracked: bool)

  /** A run of `c` that reads exactly `events` produces `v`. */
  ghost predicate Follows(c: Comp, env: seq<Value>, events: seq<ReadEvent>, v: Value) {
    match c
    case Return(f) => events == [] && v == f(env)
    case Get(n, rest) =>
      events != [] && events[0].node == n && events[0].tracked
      && Follows(rest, env + [events[0].value], events[1..], v)
    case Peek(n, rest) =>
      events != [] && events[0].node == n && !events[0].tracked
      && Follows(rest, env + [events[0].value], events[1..], v)
    case Branch(test, yes, no) => Follows(if test(env) then yes else no, env, events, v)
  }

  // ------------------------------------------------------------------ from-scratch evaluation

  /** Source values and closures: all that a from-scratch evaluation may look at. */
  datatype World = World(sources: map<NodeId, Value>, program: map<NodeId, Comp>)

  /** Evaluates `c` with no cache at all, descending at most `fuel` computed nodes deep. */
  ghost function Eval(w: World, c: Comp, env: seq<Value>, fuel: nat): Option<Value>
    decreases fuel, 1, c
  {
    match c
    case Return(f) => Some(f(env))
    case Get(n, rest) =>
      (match EvalNode(w, n, fuel)
       case Some(v) => Eval(w, rest, env + [v], fuel)
       case None => None)
    case Peek(n, rest) =>
      (match EvalNode(w, n, fuel)
       case Some(v) => Eval(w, rest, env + [v], fuel)
       case None => None)
    case Branch(test, yes, no) => if test(env) then Eval(w, yes, env, fuel) else Eval(w, no, env, fuel)
  }

  ghost function EvalNode(w: World, n: NodeId, fuel: nat): Option<Value>
    decreases fuel, 0
  {
    if n in w.sources then Some(w.sources[n])
    else if n in w.program && fuel > 0 then Eval(w, w.program[n], [], fuel - 1)
    else None
  }

  /** From scratch, node `n` evaluates to `v`. A node whose evaluation never ends, because its
      reads are cyclic, evaluates to nothing. */
  ghost predicate Evaluates(w: World, n: NodeId, v: Value) {
    exists fuel: nat :: EvalNode(w, n, fuel) == Some(v)
  }

  lemma {:induction false} EvalMonotone(w: World, c: Comp, env: seq<Value>, fuel: nat, more: nat)
    requires fuel <= more && Eval(w, c, env, fuel).Some?
    ensures Eval(w, c, env, more) == Eval(w, c, env, fuel)
    decreases fuel, 1, c
  {
    match c
    case Return(_) =>
    case Get(n, rest) =>
      EvalNodeMonotone(w, n, fuel, more);
      EvalMonotone(w, rest, env + [EvalNode(w, n, fuel).value], fuel, more);
    case Peek(n, rest) =>
      EvalNodeMonotone(w, n, fuel, more);
      EvalMonotone(w, rest, env + [EvalNode(w, n, fuel).value], fuel, more);
    case Branch(test, yes, no) =>
      EvalMonotone(w, if test(env) then yes else no, env, fuel, more);
  }

  lemma {:induction false} EvalNodeMonotone(w: World, n: NodeId, fuel: nat, more: nat)
    requires fuel <= more && EvalNode(w, n, fuel).Some?
    ensures EvalNode(w, n, more) == EvalNode(w, n, fuel)
    decreases fuel, 0
  {
    if n !in w.sources {
      EvalMonotone(w, w.program[n], [], fuel - 1, more - 1);
    }
  }

  /** From-scratch evaluation has at most one result. */
  lemma EvaluatesDeterministic(w: World, n: NodeId, v: Value, v': Value)
    requires Evaluates(w, n, v) && Evaluates(w, n, v')
    ensures v == v'
  {
    var f: nat :| EvalNode(w, n, f) == Some(v);
    var f': nat :| EvalNode(w, n, f') == Some(v');
    if f <= f' {
      EvalNodeMonotone(w, n, f, f');
    } else {
      EvalNodeMonotone(w, n, f', f);
    }
  }

  /** A run whose reads all found from-scratch values is itself a from-scratch evaluation. */
  lemma {:induction false} FollowsEvaluates(
    w: World, c: Comp, env: seq<Value>, events: seq<ReadEvent>, v: Value, fuel: nat)
    requires Follows(c, env, events, v)
    requires forall i :: 0 <= i < |events| ==> EvalNode(w, events[i].node, fuel) == Some(events[i].value)
    ensures Eval(w, c, env, fuel) == Some(v)
    decreases c
  {
    match c
    case Return(_) =>
    case Get(_, rest) =>
      assert EvalNode(w, events[0].node, fuel) == Some(events[0].value);
      FollowsEvaluates(w, rest, env + [events[0].value], events[1..], v, fuel);
    case Peek(_, rest) =>
      assert EvalNode(w, events[0].node, fuel) == Some(events[0].value);
      FollowsEvaluates(w, rest, env + [events[0].value], events[1..], v, fuel);
    case Branch(test, yes, no) =>
      FollowsEvaluates(w, if test(env) then yes else no, env, events, v, fuel);
  }

  /** A tree without untracked reads leaves only tracked events. */
  lemma {:induction false} TrackedEvents(c: Comp, env: seq<Value>, events: seq<ReadEvent>, v: Value)
    requires Tracked(c) && Follows(c, env, events, v)
    ensures forall i :: 0 <= i < |events| ==> events[i].tracked
    decreases c
  {
    match c
    case Return(_) =>
    case Get(_, rest) =>
      TrackedEvents(rest, env + [events[0].value], events[1..], v);
      assert forall i :: 0 < i < |events| ==> events[i] == events[1..][i - 1];
    case Peek(_, _) =>
    case Branch(test, yes, no) =>
      TrackedEvents(if test(env) then yes else no, env, events, v);
  }
}
