/** Activation records. The reactor's observer stack holds the nodes whose closure is running; a
    node that is only verifying its recorded dependencies is not on it. These records hold both,
    innermost first, and carry the argument that a refresh ends. */
module Frames {

  import opened Computation
  import opened Graphs

  datatype Frame =
    | Computing(node: NodeId)
      /** The first `pos` recorded dependencies were found current; the next one is being asked. */
    | Verifying(node: NodeId, pos: nat)

  datatype Frames = Bottom | Push(top: Frame, below: Frames)

  ghost function Busy(fs: Frames): set<NodeId> {
    match fs
    case Bottom => {}
    case Push(f, below) => Busy(below) + {f.node}
  }

  ghost function OnStack(fs: Frames): set<NodeId> {
    match fs
    case Bottom => {}
    case Push(Computing(n), below) => OnStack(below) + {n}
    case Push(Verifying(_, _), below) => OnStack(below)
  }

  /** The detector's stack, outermost first. */
  ghost function Stack(fs: Frames): seq<NodeId> {
    match fs
    case Bottom => []
    case Push(Computing(n), below) => Stack(below) + [n]
    case Push(Verifying(_, _), below) => Stack(below)
  }

  /** How many records lie above the one of `n`. */
  ghost function Above(fs: Frames, n: NodeId): nat {
    match fs
    case Bottom => 0
    case Push(f, below) => if f.node == n then 0 else 1 + Above(below, n)
  }

  ghost function Height(fs: Frames): nat {
    match fs
    case Bottom => 0
    case Push(_, below) => 1 + Height(below)
  }

  lemma AboveIsWithin(fs: Frames, n: NodeId)
    requires n in Busy(fs)
    ensures Above(fs, n) < Height(fs)
  {
  }

  /** The record on top may ask for `n`: its closure is running, or `n` is the dependency it is
      verifying. */
  ghost predicate Linked(e: Edges, fs: Frames, n: NodeId) {
    fs.Push? && fs.top.Verifying? ==>
      fs.top.pos < |Order(e, fs.top.node)| && Order(e, fs.top.node)[fs.top.pos] == n
  }

  ghost predicate PrefixCurrent(g: Graph, n: NodeId, pos: nat) {
    pos <= |Order(g.edges, n)| && forall j :: 0 <= j < pos ==> Current(g, n, Order(g.edges, n)[j])
  }

  ghost predicate FrameOk(g: Graph, f: Frame) {
    f.node in g.state &&
    match f
    case Computing(n) => n !in g.past.exempt && (Computed(g, n) ==> g.state[n] == Clean)
    case Verifying(n, pos) =>
      (if IsEffect(g, n) then n in g.past.exempt else g.state[n] == Check) && PrefixCurrent(g, n, pos)
  }

  ghost predicate Framed(g: Graph, fs: Frames) {
    match fs
    case Bottom => true
    case Push(f, below) => f.node !in Busy(below) && FrameOk(g, f) && Linked(g.edges, below, f.node) && Framed(g, below)
  }

  /** The record directly above the one of `n`, or what is being asked now. */
  ghost function Asked(fs: Frames, n: NodeId, asking: NodeId): NodeId {
    match fs
    case Bottom => asking
    case Push(f, below) => if f.node == n then asking else Asked(below, n, f.node)
  }

  lemma StackInBusy(fs: Frames)
    ensures OnStack(fs) <= Busy(fs)
    ensures forall n :: n in Stack(fs) <==> n in OnStack(fs)
  {
  }

  lemma BusyHasState(g: Graph, fs: Frames)
    requires Framed(g, fs)
    ensures forall n :: n in Busy(fs) ==> n in g.state
  {
  }

  ghost predicate Distinct(stack: seq<NodeId>) { forall i, j :: 0 <= i < j < |stack| ==> stack[i] != stack[j] }

  /** The stack holds no node twice. */
  lemma {:induction false} StackDistinct(g: Graph, fs: Frames)
    requires Framed(g, fs)
    ensures Distinct(Stack(fs))
  {
    if fs.Push? {
      StackDistinct(g, fs.below);
      StackInBusy(fs.below);
      if fs.top.Computing? {
        var s := Stack(fs.below);
        forall i | 0 <= i < |s|
          ensures s[i] != fs.top.node
        {
          assert s[i] in s;
        }
      }
    }
  }

  // ----------------------------------------------------------------------- what steps preserve

  ghost predicate SameNode(g: Graph, g': Graph, n: NodeId) {
    && (n in g.state <==> n in g'.state)
    && (n in g.state && n in g'.state ==> g.state[n] == g'.state[n])
    && (n in g.cache <==> n in g'.cache)
    && (n in g.cache && n in g'.cache ==> g.cache[n] == g'.cache[n])
    && (n in g.past.log <==> n in g'.past.log)
    && (n in g.past.log && n in g'.past.log ==> g.past.log[n] == g'.past.log[n])
    && Ver(g, n) == Ver(g', n)
    && Deps(g.edges, n) == Deps(g'.edges, n)
    && Order(g.edges, n) == Order(g'.edges, n)
    && (n in g.past.faulted <==> n in g'.past.faulted)
  }

  ghost predicate SameKind(g: Graph, g': Graph, n: NodeId) {
    && (n in g.meta <==> n in g'.meta)
    && (n in g.meta && n in g'.meta ==> g'.meta[n].kind == g.meta[n].kind)
  }

  ghost predicate FreshKept(g: Graph, g': Graph) {
    forall d :: Fresh(g, d) ==> Fresh(g', d) && Ver(g, d) == Ver(g', d)
  }

  /** Whatever keeps the busy nodes and everything fresh as they are keeps the records in order. */
  lemma {:induction false} FramedPreserved(g: Graph, g': Graph, fs: Frames)
    requires Framed(g, fs)
    requires forall n :: n in Busy(fs) ==> SameNode(g, g', n) && SameKind(g, g', n) && (n in g.past.exempt <==> n in g'.past.exempt)
    requires FreshKept(g, g')
    ensures Framed(g', fs)
  {
    match fs
    case Bottom =>
    case Push(f, below) =>
      FramedPreserved(g, g', below);
      assert SameNode(g, g', f.node) && SameKind(g, g', f.node);
      if f.Verifying? {
        forall j | 0 <= j < f.pos
          ensures Current(g', f.node, Order(g'.edges, f.node)[j])
        {
          assert Current(g, f.node, Order(g.edges, f.node)[j]);
        }
      }
      if below.Push? {
        assert below.top.node in Busy(below);
        assert SameNode(g, g', below.top.node);
      }
  }

  // -------------------------------------------------------------------------- re-entered nodes

  ghost predicate ComputingAbove(fs: Frames, n: NodeId) {
    match fs
    case Bottom => false
    case Push(f, below) => f.node != n && (f.Computing? || ComputingAbove(below, n))
  }

  /** Asking for a node that is already being verified: because the recorded graph is acyclic, some
      closure is running further in, so verification cannot go round in a circle. */
  lemma {:induction false} ReentryMeetsStack(g: Graph, fs: Frames, n: NodeId, asking: NodeId)
    requires Framed(g, fs) && n in Busy(fs) && n !in OnStack(fs) && Linked(g.edges, fs, asking)
    requires Acyclic(g.edges, g.past.rank) && Mirrored(g.edges)
    requires asking == n || (asking in g.past.rank && n in g.past.rank && g.past.rank[n] <= g.past.rank[asking])
    ensures ComputingAbove(fs, n)
  {
    match fs
    case Push(f, below) =>
      if f.Verifying? {
        var m := f.node;
        assert asking in Order(g.edges, m);
        assert asking in Deps(g.edges, m);
        assert g.past.rank[asking] < g.past.rank[m];
        if m != n {
          ReentryMeetsStack(g, below, n, m);
        }
      } else {
        assert f.node in OnStack(fs);
      }
  }

  /** The record above the one of `n` is one record nearer the top. */
  lemma {:induction false} AskedIsAbove(g: Graph, fs: Frames, n: NodeId, asking: NodeId)
    requires Framed(g, fs) && n in Busy(fs) && fs.top.node != n
    ensures Asked(fs, n, asking) in Busy(fs)
    ensures Above(fs, Asked(fs, n, asking)) == Above(fs, n) - 1
  {
    var below := fs.below;
    if below.top.node != n {
      AskedIsAbove(g, below, n, fs.top.node);
    }
  }

  lemma {:induction false} ComputingStillAbove(g: Graph, fs: Frames, n: NodeId, asking: NodeId)
    requires Framed(g, fs) && n in Busy(fs) && ComputingAbove(fs, n)
    requires Asked(fs, n, asking) !in OnStack(fs)
    ensures ComputingAbove(fs, Asked(fs, n, asking))
  {
    var below := fs.below;
    AskedIsAbove(g, fs, n, asking);
    if below.top.node != n && !fs.top.Computing? {
      ComputingStillAbove(g, below, n, fs.top.node);
    } else if below.top.node != n {
      AskedIsAbove(g, below, n, fs.top.node);
    }
  }

  ghost predicate Pending(g: Graph, n: NodeId, asked: NodeId, pos: nat) {
    pos < |Order(g.edges, n)| && Order(g.edges, n)[pos] == asked && InState(g, n, Check) && PrefixCurrent(g, n, pos)
  }

  /** A node under verification found a prefix of its dependencies current and waits for the node
      of the record above. */
  lemma {:induction false} VerifyingIsPending(g: Graph, fs: Frames, n: NodeId, asking: NodeId) returns (pos: nat)
    requires Framed(g, fs) && n in Busy(fs) && n !in OnStack(fs) && !IsEffect(g, n)
    requires fs.top.node == n ==> Linked(g.edges, fs, asking)
    ensures Pending(g, n, Asked(fs, n, asking), pos)
  {
    if fs.top.node == n {
      pos := fs.top.pos;
    } else {
      pos := VerifyingIsPending(g, fs.below, n, fs.top.node);
    }
  }
}
