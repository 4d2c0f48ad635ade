/** What an effect's run does to the graph: clearing its mark, settling it after verification,
    running its body. */
module EffectSteps {

  import opened Computation
  import opened Graphs
  import opened Frames
  import opened Steps

  /** The closure of an effect: a decision tree over the values read, which may also write sources,
      flush, register a cleanup, and panic. `forced` writes (replace, update) always count as changes. */
  datatype Body =
    | Finish
    | ReadNode(node: NodeId, tracked: bool, rest: Body)
    | Choose(test: seq<Value> -> bool, yes: Body, no: Body)
    | Write(node: NodeId, value: seq<Value> -> Value, forced: bool, rest: Body)
    | FlushNow(rest: Body)
    | OnCleanup(cleanup: Cleanup, rest: Body)
    | Throw

  /** A cleanup closure: writes, flushes and panics, in order. */
  datatype CleanupStep = CleanupWrite(node: NodeId, value: Value, forced: bool) | CleanupFlush | CleanupThrow

  type Cleanup = seq<CleanupStep>

  /** Reads find readable nodes and writes hit sources. */
  ghost predicate BodyScoped(b: Body, g: Graph) {
    match b
    case Finish => true
    case ReadNode(n, _, rest) => n in Readable(g.meta) && BodyScoped(rest, g)
    case Choose(_, yes, no) => BodyScoped(yes, g) && BodyScoped(no, g)
    case Write(n, _, _, rest) => IsSignal(g, n) && BodyScoped(rest, g)
    case FlushNow(rest) => BodyScoped(rest, g)
    case OnCleanup(c, rest) => CleanupScoped(c, g) && BodyScoped(rest, g)
    case Throw => true
  }

  ghost predicate CleanupScoped(c: Cleanup, g: Graph) {
    forall i :: 0 <= i < |c| && c[i].CleanupWrite? ==> IsSignal(g, c[i].node)
  }

  /** What can be read stays readable, what can be written stays writable. */
  ghost predicate KeepsSources(g: Graph, g': Graph) {
    forall n :: (n in Readable(g.meta) ==> n in Readable(g'.meta)) && (IsSignal(g, n) ==> IsSignal(g', n))
  }

  lemma {:induction false} BodyScopedStays(b: Body, g: Graph, g': Graph)
    requires BodyScoped(b, g) && KeepsSources(g, g')
    ensures BodyScoped(b, g')
  {
    match b
    case Finish =>
    case ReadNode(n, _, rest) => BodyScopedStays(rest, g, g');
    case Choose(_, yes, no) =>
      BodyScopedStays(yes, g, g');
      BodyScopedStays(no, g, g');
    case Write(n, _, _, rest) => BodyScopedStays(rest, g, g');
    case FlushNow(rest) => BodyScopedStays(rest, g, g');
    case OnCleanup(c, rest) => BodyScopedStays(rest, g, g');
    case Throw =>
  }

  lemma SameKindsKeep(g: Graph, g': Graph)
    requires forall n :: SameKind(g, g', n)
    ensures KeepsSources(g, g')
  {
    forall n
      ensures (n in Readable(g.meta) ==> n in Readable(g'.meta)) && (IsSignal(g, n) ==> IsSignal(g', n))
    {
      assert SameKind(g, g', n);
    }
  }

  /** A run of the body that makes exactly the reads `events`. */
  ghost predicate BodyFollows(b: Body, env: seq<Value>, events: seq<ReadEvent>) {
    match b
    case Finish => events == []
    case ReadNode(n, tracked, rest) =>
      events != [] && events[0].node == n && events[0].tracked == tracked
      && BodyFollows(rest, env + [events[0].value], events[1..])
    case Choose(test, yes, no) => BodyFollows(if test(env) then yes else no, env, events)
    case Write(_, _, _, rest) => BodyFollows(rest, env, events)
    case FlushNow(rest) => BodyFollows(rest, env, events)
    case OnCleanup(_, rest) => BodyFollows(rest, env, events)
    case Throw => false
  }

  /** Something a run does to the world: a cleanup begins, the body is entered, a source is written, a
      flush is asked for, or a panic is raised. And what a flush does: the job of an effect is taken off the
      queue, `depth` flushes deep. */
  datatype Step =
    | Began(cleanup: Cleanup)
    | Entered
    | Wrote(node: NodeId, value: Value, forced: bool)
    | Flushed
    | Threw
    | Took(effect: NodeId, depth: nat)

  /** What the first step of a body does by itself. */
  ghost function OwnSteps(b: Body, env: seq<Value>): seq<Step> {
    match b
    case Write(n, value, forced, _) => [Wrote(n, value(env), forced)]
    case FlushNow(_) => [Flushed]
    case _ => []
  }

  /** What a run of the body does, in order. */
  ghost function BodySteps(b: Body, env: seq<Value>, events: seq<ReadEvent>): seq<Step>
    requires BodyFollows(b, env, events)
  {
    match b
    case Finish => []
    case ReadNode(_, _, rest) => BodySteps(rest, env + [events[0].value], events[1..])
    case Choose(test, yes, no) => BodySteps(if test(env) then yes else no, env, events)
    case Write(_, _, _, rest) => OwnSteps(b, env) + BodySteps(rest, env, events)
    case FlushNow(rest) => OwnSteps(b, env) + BodySteps(rest, env, events)
    case OnCleanup(_, rest) => OwnSteps(b, env) + BodySteps(rest, env, events)
    case Throw => []
  }

  ghost function Doing(c: CleanupStep): Step {
    match c
    case CleanupWrite(n, v, forced) => Wrote(n, v, forced)
    case CleanupFlush => Flushed
    case CleanupThrow => Threw
  }

  /** What a cleanup does once it has begun. */
  ghost function CleanupSteps(c: Cleanup): seq<Step> { seq(|c|, i requires 0 <= i < |c| => Doing(c[i])) }

  ghost predicate Throws(c: Cleanup) { CleanupThrow in c }

  /** Does nothing but perhaps panic. */
  ghost predicate Effectless(c: Cleanup) { c == [] || c[0].CleanupThrow? }

  /** What tearing down `list` does: its cleanups, latest first. */
  ghost function TeardownSteps(list: seq<Cleanup>): seq<Step> {
    if list == [] then []
    else [Began(list[|list| - 1])] + CleanupSteps(list[|list| - 1]) + TeardownSteps(list[..|list| - 1])
  }

  /** The cleanups that began, in order. */
  ghost function Begun(steps: seq<Step>): seq<Cleanup> {
    if steps == [] then []
    else Begun(steps[..|steps| - 1]) + if steps[|steps| - 1].Began? then [steps[|steps| - 1].cleanup] else []
  }

  ghost function LatestFirst(list: seq<Cleanup>): seq<Cleanup> {
    if list == [] then [] else [list[|list| - 1]] + LatestFirst(list[..|list| - 1])
  }

  /** The cleanups a run registers, in order. */
  ghost function Registers(b: Body, env: seq<Value>, events: seq<ReadEvent>): seq<Cleanup>
    requires BodyFollows(b, env, events)
  {
    match b
    case Finish => []
    case ReadNode(_, _, rest) => Registers(rest, env + [events[0].value], events[1..])
    case Choose(test, yes, no) => Registers(if test(env) then yes else no, env, events)
    case Write(_, _, _, rest) => Registers(rest, env, events)
    case FlushNow(rest) => Registers(rest, env, events)
    case OnCleanup(c, rest) => [c] + Registers(rest, env, events)
    case Throw => []
  }

  /** The nodes a run has read, tracked: before its last write or flush, and since. */
  datatype Seen = Seen(early: set<NodeId>, recent: set<NodeId>)

  ghost function AfterRead(seen: Seen, n: NodeId, tracked: bool): Seen {
    if tracked then seen.(recent := seen.recent + {n}) else seen
  }

  ghost function AfterStep(seen: Seen, b: Body): Seen {
    if b.Write? || b.FlushNow? then Seen(seen.early + seen.recent, {}) else seen
  }

  /** On no path does the rest `b` of a body read, tracked, a node it also read before a write or flush in
      between. */
  ghost predicate ReadsApart(b: Body, seen: Seen) {
    match b
    case Finish => true
    case ReadNode(n, tracked, rest) => (tracked ==> n !in seen.early) && ReadsApart(rest, AfterRead(seen, n, tracked))
    case Choose(_, yes, no) => ReadsApart(yes, seen) && ReadsApart(no, seen)
    case Write(_, _, _, rest) => ReadsApart(rest, AfterStep(seen, b))
    case FlushNow(rest) => ReadsApart(rest, AfterStep(seen, b))
    case OnCleanup(_, rest) => ReadsApart(rest, AfterStep(seen, b))
    case Throw => true
  }

  ghost predicate NeverSplit(b: Body) { ReadsApart(b, Seen({}, {})) }

  // ---------------------------------------------------------------------------------- the steps

  /** A run begins: the mark is cleared while the old edges are still recorded. */
  ghost function MarkTaken(g: Graph, n: NodeId): Graph {
    g.(state := g.state[n := Clean], past := g.past.(exempt := g.past.exempt + {n}))
  }

  /** Verification found every dependency current: the run is skipped. */
  ghost function Settled(g: Graph, n: NodeId): Graph {
    g.(past := g.past.(exempt := g.past.exempt - {n}))
  }

  /** Verification unwound: the mark comes back. */
  ghost function MarkRestored(g: Graph, n: NodeId): Graph {
    g.(state := g.state[n := Dirty], past := g.past.(exempt := g.past.exempt - {n}))
  }

  /** The body is entered. */
  ghost function BodyEntered(g: Graph, e': Edges, n: NodeId): Graph {
    g.(edges := e',
       active := g.active + {n},
       past := g.past.(exempt := g.past.exempt - {n}, log := g.past.log - {n}))
  }

  /** The body returned, having made the reads `events`. */
  ghost function BodyLeft(g: Graph, n: NodeId, events: seq<ReadEvent>): Graph {
    g.(active := g.active - {n}, past := g.past.(log := g.past.log[n := events]))
  }

  /** The body unwound. */
  ghost function BodyUnwound(g: Graph, n: NodeId): Graph {
    g.(active := g.active - {n})
  }

  lemma MarkTakenKeeps(g: Graph, fs: Frames, n: NodeId)
    requires Inv(g) && Framed(g, fs) && IsEffect(g, n) && n in g.state && n !in Busy(fs)
    ensures Inv(MarkTaken(g, n)) && Framed(MarkTaken(g, n), fs)
  {
    hide Inv, Framed, InOrder, Coherent, Local;
    InvAt(g, n);
    MarkTakenIsLocal(g, n);
    LocalStep(g, MarkTaken(g, n), fs, n);
  }

  lemma MarkTakenIsLocal(g: Graph, n: NodeId)
    requires InOrder(g, n) && Coherent(g) && IsEffect(g, n) && n in g.state
    ensures Local(g, MarkTaken(g, n), n)
  {
    hide Mirrored, Acyclic;
  }

  lemma SettledKeeps(g: Graph, fs: Frames, n: NodeId)
    requires Inv(g) && Framed(g, fs) && IsEffect(g, n) && AllCurrent(g, n) && n !in Busy(fs)
    ensures Inv(Settled(g, n)) && Framed(Settled(g, n), fs)
  {
    hide Inv, Framed, InOrder, Coherent, Local, AllCurrent;
    InvAt(g, n);
    SettledIsLocal(g, n);
    LocalStep(g, Settled(g, n), fs, n);
  }

  lemma SettledIsLocal(g: Graph, n: NodeId)
    requires InOrder(g, n) && Coherent(g) && IsEffect(g, n) && AllCurrent(g, n)
    ensures Local(g, Settled(g, n), n)
  {
    hide Mirrored, Acyclic;
    var g' := Settled(g, n);
    forall d | d in Deps(g'.edges, n)
      ensures Current(g', n, d)
    {
      assert Current(g, n, d);
    }
  }

  lemma MarkRestoredKeeps(g: Graph, fs: Frames, n: NodeId)
    requires Inv(g) && Framed(g, fs) && IsEffect(g, n) && n in g.state && n !in Busy(fs)
    ensures Inv(MarkRestored(g, n)) && Framed(MarkRestored(g, n), fs)
  {
    hide Inv, Framed, InOrder, Coherent, Local;
    InvAt(g, n);
    MarkRestoredIsLocal(g, n);
    LocalStep(g, MarkRestored(g, n), fs, n);
  }

  lemma MarkRestoredIsLocal(g: Graph, n: NodeId)
    requires InOrder(g, n) && Coherent(g) && IsEffect(g, n) && n in g.state
    ensures Local(g, MarkRestored(g, n), n)
  {
    hide Mirrored, Acyclic;
  }

  lemma BodyEnteredKeeps(g: Graph, e': Edges, fs: Frames, n: NodeId)
    requires Inv(g) && Framed(g, fs) && g.active == OnStack(fs) && IsEffect(g, n) && n in g.state && n !in Busy(fs)
    requires fs.Push? ==> fs.top.Computing?
    requires EdgesCleared(g.edges, e', n)
    ensures Inv(BodyEntered(g, e', n)) && Framed(BodyEntered(g, e', n), Push(Computing(n), fs))
    ensures BodyEntered(g, e', n).active == OnStack(Push(Computing(n), fs))
  {
    hide Inv, Framed, InOrder, Coherent, Local, EdgesCleared;
    InvAt(g, n);
    BodyEnteredIsLocal(g, e', n);
    hide FrameOk;
    LocalStep(g, BodyEntered(g, e', n), fs, n);
    PushKeepsFrames(BodyEntered(g, e', n), g.edges, fs, Computing(n));
  }

  lemma BodyEnteredInOrder(g: Graph, e': Edges, n: NodeId)
    requires InOrder(g, n) && IsEffect(g, n) && n in g.state && EdgesCleared(g.edges, e', n)
    ensures InOrder(BodyEntered(g, e', n), n) && FrameOk(BodyEntered(g, e', n), Computing(n))
  {
  }

  lemma BodyEnteredOnlyAt(g: Graph, e': Edges, n: NodeId)
    requires EdgesCleared(g.edges, e', n)
    ensures OnlyAt(g, BodyEntered(g, e', n), n)
  {
  }

  lemma BodyEnteredIsLocal(g: Graph, e': Edges, n: NodeId)
    requires InOrder(g, n) && Coherent(g) && IsEffect(g, n) && n in g.state && EdgesCleared(g.edges, e', n)
    ensures Local(g, BodyEntered(g, e', n), n) && BodyEntered(g, e', n).edges == e'
    ensures FrameOk(BodyEntered(g, e', n), Computing(n))
  {
    hide Mirrored, Acyclic, InOrder, OnlyAt, FrameOk, EdgesCleared;
    CoherentAfterClear(g.edges, e', g.past.rank, n);
    BodyEnteredInOrder(g, e', n);
    BodyEnteredOnlyAt(g, e', n);
  }

  lemma BodyLeftKeeps(g: Graph, fs: Frames, n: NodeId, events: seq<ReadEvent>)
    requires Inv(g) && Framed(g, fs) && g.active == OnStack(fs) && fs.Push? && fs.top == Computing(n) && IsEffect(g, n)
    ensures Inv(BodyLeft(g, n, events)) && Framed(BodyLeft(g, n, events), fs.below)
    ensures BodyLeft(g, n, events).active == OnStack(fs.below)
  {
    hide Inv, Framed, InOrder, Coherent, Local;
    TopFacts(g, fs);
    InvAt(g, n);
    BodyLeftIsLocal(g, n, events);
    LocalStep(g, BodyLeft(g, n, events), fs.below, n);
  }

  lemma BodyLeftIsLocal(g: Graph, n: NodeId, events: seq<ReadEvent>)
    requires InOrder(g, n) && Coherent(g) && IsEffect(g, n)
    ensures Local(g, BodyLeft(g, n, events), n)
  {
    hide Mirrored, Acyclic;
    var g' := BodyLeft(g, n, events);
    if InState(g', n, Clean) && n !in g'.past.exempt {
      forall d | d in Deps(g'.edges, n)
        ensures Current(g', n, d)
      {
        assert Current(g, n, d);
      }
    }
  }

  lemma BodyUnwoundKeeps(g: Graph, fs: Frames, n: NodeId)
    requires Inv(g) && Framed(g, fs) && g.active == OnStack(fs) && fs.Push? && fs.top == Computing(n) && IsEffect(g, n)
    ensures Inv(BodyUnwound(g, n)) && Framed(BodyUnwound(g, n), fs.below)
    ensures BodyUnwound(g, n).active == OnStack(fs.below)
  {
    hide Inv, Framed, InOrder, Coherent, Local;
    TopFacts(g, fs);
    InvAt(g, n);
    BodyUnwoundIsLocal(g, n);
    LocalStep(g, BodyUnwound(g, n), fs.below, n);
  }

  lemma BodyUnwoundIsLocal(g: Graph, n: NodeId)
    requires InOrder(g, n) && Coherent(g) && IsEffect(g, n)
    ensures Local(g, BodyUnwound(g, n), n)
  {
    hide Mirrored, Acyclic;
    var g' := BodyUnwound(g, n);
    if InState(g', n, Clean) && n !in g'.past.exempt {
      forall d | d in Deps(g'.edges, n)
        ensures Current(g', n, d)
      {
        assert Current(g, n, d);
      }
    }
  }
}
