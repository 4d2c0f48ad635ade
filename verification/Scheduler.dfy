/** The effect scheduler: marking, the job queue, and the runs of effects. */
module Scheduling {

  import opened Basics
  import opened Computation
  import opened Graphs
  import opened Frames
  import opened Steps
  import opened Evolution
  import opened Refreshing
  import opened Foresight
  import opened Reports
  import opened Laziness
  import opened Marking
  import opened EffectSteps
  import opened EdgeCounts
  import opened Growth
  import opened Lanes
  import opened LaneSteps
  import opened Churning
  import opened Deeds
  import opened Calm
  import opened ReactorModule

  const MAX_RUNS_PER_DRAIN := 100

  /** Everything a run in progress leaves for its caller to compare. */
  datatype Moment = Moment(
    graph: Graph, frames: Frames, lane: Lane, untracked: nat, flushDepth: nat, tokens: set<(NodeId, int)>,
    doneBefore: seq<Deed>, jobs: seq<NodeId>)

  /** From `a` to `b`, code run by effects may have passed: the runs in `held` were not disturbed,
      the call stack is as it was, and the run budget only shrank. Jobs were taken from the front of the
      queue and added at its end: those taken, followed by those waiting, only ever grow. If nothing unwound,
      no closure ran more than once since sources last moved. */
  ghost predicate Continued(a: Moment, b: Moment, held: set<NodeId>, done: bool) {
    && Churns(a.graph, a.lane, b.graph, b.lane, held)
    && b.frames == a.frames && b.untracked == a.untracked && b.flushDepth == a.flushDepth
    && b.tokens <= a.tokens && (a.flushDepth > 0 ==> b.doneBefore == a.doneBefore) && a.jobs <= b.jobs
    && (done ==> b.lane.tainted <= a.lane.tainted && Spares(a.graph, b.graph))
  }

  lemma ContinuedReflexive(a: Moment, held: set<NodeId>, done: bool)
    ensures Continued(a, a, held, done)
  {
    ChurnsReflexive(a.graph, a.lane, held);
    SparesReflexive(a.graph);
  }

  lemma ContinuedTransitive(a: Moment, b: Moment, c: Moment, held: set<NodeId>, first: bool, second: bool)
    requires Continued(a, b, held, first) && Continued(b, c, held, second)
    ensures Continued(a, c, held, first && second)
  {
    hide Churns, Spares;
    if first && second {
      SparesTransitive(a.graph, b.graph, c.graph);
    }
    ChurnsTransitive(a.graph, a.lane, b.graph, b.lane, c.graph, c.lane, held, held, held);
  }

  /** The same for code bracketed by an entry and an exit, as a window or a scope is. */
  lemma ContinuedAround(a: Moment, a': Moment, b': Moment, b: Moment, inner: set<NodeId>, held: set<NodeId>, done: bool)
    requires Churns(a.graph, a.lane, a'.graph, a'.lane, held) && Churns(b'.graph, b'.lane, b.graph, b.lane, held)
    requires Spares(a.graph, a'.graph) && (done ==> Spares(b'.graph, b.graph))
    requires Continued(a', b', inner, done) && held <= inner
    requires b.frames == a.frames && b.untracked == a.untracked
    requires a'.flushDepth == a.flushDepth && a'.tokens <= a.tokens
    requires b.flushDepth == b'.flushDepth && b.tokens <= b'.tokens && a'.doneBefore == a.doneBefore && b.doneBefore == b'.doneBefore
    requires a.jobs <= a'.jobs && b'.jobs <= b.jobs
    requires a'.lane.tainted <= a.lane.tainted && (done ==> b.lane.tainted <= b'.lane.tainted)
    ensures Continued(a, b, held, done)
  {
    hide Churns, Spares;
    if done {
      SparesTransitive(a.graph, a'.graph, b'.graph);
      SparesTransitive(a.graph, b'.graph, b.graph);
    }
    ChurnsTransitive(a.graph, a.lane, a'.graph, a'.lane, b'.graph, b'.lane, held, inner, held);
    ChurnsTransitive(a.graph, a.lane, b'.graph, b'.lane, b.graph, b.lane, held, held, held);
  }

  /** In some graph with these closures, whose cells are in order, a read from outside ends in the report
      `path`. */
  ghost predicate Reportable(program: map<NodeId, Comp>, path: seq<NodeId>) {
    exists g: Graph, n: NodeId :: Inv(g) && g.program == program && n in Readable(g.meta) && Told(g, [], n, path)
  }

  /** A report of a cycle that reads of these closures can run into. Closures that read only older nodes never
      cause one. */
  ghost predicate Circular(cause: PanicCause, program: map<NodeId, Comp>) {
    IsCycleReport(cause) && !Layered(program) && Reportable(program, cause.path)
  }

  /** Only effects are below: a report is about the closures above them. */
  lemma Circulates(g: Graph, fs: Frames, l: Lane, opening: set<NodeId>, n: NodeId, cause: PanicCause)
    requires Inv(g) && LaneInv(g, fs, l, opening) && n in Readable(g.meta) && Tells(g, Stack(fs), n, cause)
    ensures IsCycleReport(cause) && Reportable(g.program, cause.path) && Told(g, [], n, cause.path)
  {
    StackInBusy(fs);
    EffectFramesOnStack(g, fs, l.running);
    hide Inv, Told;
    ToldOutside(g, Stack(fs), n, cause.path);
    ToldCloses(g, [], n, cause.path);
  }

  lemma CirculatesBelow(g: Graph, fs: Frames, l: Lane, opening: set<NodeId>, n: NodeId, cause: PanicCause)
    requires Inv(g) && LaneInv(g, fs, l, opening) && TellsBelow(g, Stack(fs), n, cause)
    ensures IsCycleReport(cause) && Reportable(g.program, cause.path)
  {
    hide Inv, LaneInv, Told;
    var d :| d in Deps(g.edges, n) && Told(g, Stack(fs), d, cause.path);
    DepReadable(g, n, d);
    Circulates(g, fs, l, opening, d, cause);
  }

  /** Why something unwound: a body or cleanup panicked meanwhile, an effect has used up its runs of this
      drain, or a cycle was reported. */
  ghost predicate Reported(cause: PanicCause, since: seq<Deed>, now: seq<Deed>, m: Moment) {
    match cause
    case Thrown => exists i :: |since| <= i < |now| && now[i].step.Threw?
    case Divergence(n) => n in m.lane.body && n !in m.lane.disposed && (m.flushDepth > 0 ==> forall j :: (n, j) !in m.tokens)
    case Cycle(_) => Circular(cause, m.graph.program)
  }

  lemma ReportedLater(cause: PanicCause, since: seq<Deed>, since': seq<Deed>, now: seq<Deed>, now': seq<Deed>, m: Moment, m': Moment)
    requires Reported(cause, since, now, m) && since' <= since && now <= now'
    requires m'.graph.program == m.graph.program && m'.tokens <= m.tokens
    requires forall n :: n in m.lane.body && n !in m.lane.disposed ==> n in m'.lane.body && n !in m'.lane.disposed
    requires m'.flushDepth > 0 ==> m.flushDepth > 0
    ensures Reported(cause, since', now', m')
  {
    if cause.Thrown? {
      var i :| |since| <= i < |now| && now[i].step.Threw?;
      assert now'[i] == now[i];
    }
  }

  /** Where marks may be delivered: every observer is registered, and effects have no observers. */
  ghost predicate Wired(e: Edges, states: set<NodeId>, meta: map<NodeId, NodeMeta>, effects: set<NodeId>) {
    && Mirrored(e)
    && (forall n, d {:trigger d in Deps(e, n)} :: d in Deps(e, n) ==> n in states && n in meta && d !in effects)
    && (forall n :: n in meta ==> (meta[n].kind.Effect? <==> n in effects))
  }

  /** The run budget of a drain that has not begun. */
  ghost function AllTokens(effects: set<NodeId>): set<(NodeId, int)> {
    set n, j | n in effects && 0 <= j < MAX_RUNS_PER_DRAIN :: (n, j)
  }

  /** The effects are exactly the nodes registered as effects. */
  ghost predicate EffectKinds(meta: map<NodeId, NodeMeta>, effects: set<NodeId>) {
    forall n :: n in effects <==> n in meta && meta[n].kind.Effect?
  }

  class Scheduler {
    const reactor: Reactor
    var body: map<NodeId, Body>
    var cleanups: map<NodeId, seq<Cleanup>>
    var pendingJobs: seq<NodeId>
    var scheduled: set<NodeId>
    var rerunAfterCurrent: set<NodeId>
    var running: set<NodeId>
    var disposed: set<NodeId>
    var queuedEffects: nat
    var flushScheduled: bool
    var flushDepth: nat
    var drainEpoch: nat
    var lastDrainEpoch: map<NodeId, int>
    var runsThisDrain: map<NodeId, nat>

    ghost var tainted: set<NodeId>
    /** What runs of effects did, in order. */
    ghost var deeds: seq<Deed>
    /** What had been done when the current drain began. */
    ghost var doneBefore: seq<Deed>
    /** The graph when a source last moved, a refresh last unwound, or a node last came or went. */
    ghost var settled: Graph

    ghost function L(): Lane
      reads `pendingJobs, `scheduled, `rerunAfterCurrent, `running, `disposed, `body, `cleanups, `tainted, reactor`superseded
    {
      Lane(pendingJobs, scheduled, rerunAfterCurrent, running, disposed, body, cleanups, tainted, reactor.superseded)
    }

    /** Runs of `n` the divergence guard has counted in the current drain. */
    function Used(n: NodeId): nat
      reads `lastDrainEpoch, `runsThisDrain, `drainEpoch
    {
      if n in lastDrainEpoch && n in runsThisDrain && lastDrainEpoch[n] == drainEpoch then runsThisDrain[n] else 0
    }

    /** The runs the guard would still allow, one token each. A flush that is not nested starts a new
        drain and so has them all. */
    ghost function Tokens(): set<(NodeId, int)>
      reads `body, `lastDrainEpoch, `runsThisDrain, `drainEpoch, `flushDepth
    {
      set n, j | n in body && 0 <= j < MAX_RUNS_PER_DRAIN && (flushDepth > 0 ==> Used(n) <= j) :: (n, j)
    }

    ghost function Now(): Moment
      reads this, reactor
    {
      Moment(reactor.G(), reactor.frames, L(), reactor.untracked, flushDepth, Tokens(), doneBefore, Taken(deeds) + pendingJobs)
    }

    /** The queued-effect gauge is the latch, pending jobs have a flush coming, and nothing runs
        outside a flush. */
    ghost predicate Gauged()
      reads `queuedEffects, `scheduled, `pendingJobs, `flushScheduled, `flushDepth, `running
    {
      && queuedEffects == |scheduled|
      && (pendingJobs != [] ==> flushScheduled || flushDepth > 0)
      && (flushDepth == 0 ==> running == {})
    }

    /** In the current drain no body was entered more often than the guard counted, nor more than the
        limit. */
    ghost predicate Budgeted()
      reads `lastDrainEpoch, `runsThisDrain, `drainEpoch, `body, `disposed, `flushDepth, `deeds, `doneBefore
    {
      && (forall n :: n in lastDrainEpoch ==> lastDrainEpoch[n] <= drainEpoch)
      && body.Keys == lastDrainEpoch.Keys == runsThisDrain.Keys
      && (flushDepth > 0 ==> forall n :: n in body || n !in disposed ==> WithinBudget(n))
    }

    ghost predicate WithinBudget(n: NodeId)
      reads `lastDrainEpoch, `runsThisDrain, `drainEpoch, `deeds, `doneBefore
    {
      EnteredSince(doneBefore, deeds, n) <= Used(n) && EnteredSince(doneBefore, deeds, n) <= MAX_RUNS_PER_DRAIN
    }

    /** The guard has counted a run of `n` that has not entered its body yet. */
    ghost predicate Admitted(n: NodeId)
      reads `lastDrainEpoch, `runsThisDrain, `drainEpoch, `body, `flushDepth, `deeds, `doneBefore
    {
      && n in body && flushDepth > 0
      && EnteredSince(doneBefore, deeds, n) < MAX_RUNS_PER_DRAIN && (n, EnteredSince(doneBefore, deeds, n)) !in Tokens()
    }

    ghost predicate Kinds()
      reads `body, reactor`meta
    {
      EffectKinds(reactor.meta, body.Keys)
    }

    ghost predicate Orderly(opening: set<NodeId>)
      reads this, reactor
    {
      && reactor.Valid()
      && LaneInv(reactor.G(), reactor.frames, L(), opening)
      && Accounts()
    }

    /** The books are in order: gauges, run budget, kinds, and how often closures ran. */
    ghost predicate Accounts()
      reads this, reactor
    {
      Gauged() && Budgeted() && Kinds() && Sparing(settled, reactor.G())
    }

    /** What being in order comes to. */
    lemma Parts(opening: set<NodeId>)
      requires Orderly(opening)
      ensures reactor.Valid() && Inv(reactor.G()) && Framed(reactor.G(), reactor.frames) && reactor.active == OnStack(reactor.frames)
      ensures LaneInv(reactor.G(), reactor.frames, L(), opening) && Accounts() && reactor.G().active == reactor.active
    {
      hide Inv, Framed, LaneInv, Counted, Accounts, OnStack, Stack;
    }

    /** The lane is the scheduler's own fields. */
    lemma LaneCells()
      ensures L().queue == pendingJobs && L().scheduled == scheduled && L().rerun == rerunAfterCurrent && L().running == running
      ensures L().disposed == disposed && L().body == body && L().cleanups == cleanups && L().tainted == tainted
      ensures L().superseded == reactor.superseded && reactor.G().program == reactor.program
    {
    }

    lemma Whole(opening: set<NodeId>)
      requires reactor.Valid() && LaneInv(reactor.G(), reactor.frames, L(), opening) && Accounts()
      ensures Orderly(opening)
    {
      hide Accounts, LaneInv, Reactor.Valid;
    }

    /** After a step from `g`: unless it was `still`, the count of closure runs starts over. */
    ghost method Resettle(g: Graph, still: bool)
      requires Gauged() && Budgeted() && Kinds() && (still ==> Sparing(settled, g) && Sparing(g, reactor.G()))
      modifies `settled
      ensures Accounts() && settled == if still then old(settled) else reactor.G()
    {
      hide Gauged, Budgeted, Kinds, Sparing, Reactor.G;
      if still {
        SparingTransitive(settled, g, reactor.G());
      } else {
        settled := reactor.G();
        SparingReflexive(settled);
      }
    }

    /** Nothing that is going on can fail, and the run of `opening` is still to be counted. */
    ghost predicate Serenely(guide: Guide, opening: set<NodeId>)
      reads this, reactor
    {
      Serene(reactor.G(), L(), Tokens(), guide, opening)
    }

    /** The runs the guard would still allow `n`. */
    lemma TokensOf(n: NodeId)
      requires flushDepth > 0 && n in body
      ensures forall j :: (n, j) in Tokens() <==> Used(n) <= j < MAX_RUNS_PER_DRAIN
    {
    }

    lemma TokensUp()
      ensures forall m, j, k :: (m, j) in Tokens() && j <= k < 3 ==> (m, k) in Tokens()
    {
    }

    /** In every reachable state, flushes under way included: since a source last moved, a read last unwound or
        a node was last created or disposed, each closure ran at most once, and only with cause. */
    lemma RanOnceSince(n: NodeId)
      requires Valid() && Computed(settled, n)
      ensures RanAtMostOnce(settled, reactor.G(), n)
    {
      hide Inv, Framed, LaneInv, Counted, Gauged, Budgeted;
      SparedRuns(settled, reactor.G(), n);
    }

    /** The effects are the nodes with a body. */
    lemma KnownEffects()
      requires Valid()
      ensures forall n :: IsEffect(reactor.G(), n) <==> n in body
    {
      hide Inv, Framed, LaneInv, Counted, Gauged, Budgeted, Sparing;
    }

    ghost predicate Valid()
      reads this, reactor
    {
      Orderly({})
    }

    /** A scheduler over a reactor with no nodes. */
    constructor ()
      ensures Valid() && fresh(reactor) && reactor.G() == EmptyGraph() && L() == EmptyLane() && flushDepth == 0 && deeds == []
    {
      hide Inv, Framed, Counted, OnStack, Stack;
      reactor := new Reactor();
      body, cleanups, pendingJobs := map[], map[], [];
      scheduled, rerunAfterCurrent, running, disposed := {}, {}, {}, {};
      queuedEffects, flushScheduled, flushDepth, drainEpoch := 0, false, 0, 0;
      lastDrainEpoch, runsThisDrain := map[], map[];
      tainted, deeds, doneBefore, settled := {}, [], [], EmptyGraph();
      new;
      EmptyLaneInv();
      SparingReflexive(settled);
      hide LaneInv;
    }

    // ---------------------------------------------------------------------------- the latch

    method Unlatch(n: NodeId)
      requires queuedEffects == |scheduled|
      modifies `scheduled, `queuedEffects
      ensures L() == Unlatched(old(L()), n) && queuedEffects == |scheduled|
    {
      if n in scheduled {
        scheduled := scheduled - {n};
        queuedEffects := Saturating(queuedEffects, 1);
      } else {
        assert scheduled - {n} == scheduled;
      }
    }

    /** Queues a run of `n`, unless one is pending already or the effect is disposed. */
    method Schedule(n: NodeId)
      requires queuedEffects == |scheduled|
      modifies `scheduled, `queuedEffects, `pendingJobs, `flushScheduled
      ensures L() == Latched(old(L()), n) && queuedEffects == |scheduled|
      ensures pendingJobs == old(pendingJobs) + if n in disposed || n in old(scheduled) then [] else [n]
      ensures flushScheduled == (old(flushScheduled) || pendingJobs != old(pendingJobs))
    {
      if n in disposed || n in scheduled {
        return;
      }
      scheduled := scheduled + {n};
      queuedEffects := queuedEffects + 1;
      pendingJobs := pendingJobs + [n];
      flushScheduled := true;
    }

    // ------------------------------------------------------------------------------ marking

    ghost function CleanNodes(): set<NodeId>
      reads reactor`state
    {
      set n | n in reactor.state && reactor.state[n] == Clean
    }

    ghost predicate Connected()
      reads `body, reactor
    {
      Wired(reactor.E(), reactor.state.Keys, reactor.meta, body.Keys)
    }

    /** Delivers `mark` to every observer of `s`. */
    method MarkDependents(s: NodeId, mark: State)
      requires Connected() && mark != Clean && queuedEffects == |scheduled|
      modifies reactor`state, `scheduled, `queuedEffects, `pendingJobs, `flushScheduled
      ensures Marked(reactor.E(), old(reactor.state), reactor.state, s, mark)
      ensures LaneMarked(old(reactor.state), reactor.state, old(L()), L())
      ensures queuedEffects == |scheduled| && (old(flushScheduled) ==> flushScheduled)
      ensures pendingJobs != old(pendingJobs) ==> flushScheduled
      ensures old(pendingJobs) <= pendingJobs
      ensures Observers(reactor.E(), s) == {} ==> reactor.state == old(reactor.state) && L() == old(L())
      decreases CleanNodes(), 1
    {
      hide Delivered, ChangeAllowed, ToldObservers, LatchedIfChanged, LaneMarked, Raised, MarkedSoFar, Marked, Wired, Mirrored, MarkedAll;
      ghost var e, before, l := reactor.E(), reactor.state, L();
      var todo := if s in reactor.dependents then reactor.dependents[s] else {};
      MarkingStarts(e, before, s, mark, l);
      while todo != {}
        invariant Connected() && todo <= Observers(e, s) && queuedEffects == |scheduled|
        invariant MarkedSoFar(e, before, reactor.state, s, mark) && reactor.state.Keys == before.Keys
        invariant MarkedAll(Observers(e, s) - todo, reactor.state, mark)
        invariant LaneMarked(before, reactor.state, l, L())
        invariant CleanNodes() <= old(CleanNodes())
        invariant (old(flushScheduled) ==> flushScheduled) && (pendingJobs != old(pendingJobs) ==> flushScheduled)
        invariant old(pendingJobs) <= pendingJobs
        invariant Observers(e, s) == {} ==> reactor.state == before && L() == l
      {
        var n :| n in todo;
        ghost var mid, l1 := reactor.state, L();
        WiredObserver(e, reactor.state.Keys, reactor.meta, body.Keys, s, n);
        DeliverMark(n, mark);
        MarkingGoesOn(e, before, mid, reactor.state, s, mark, n, todo);
        LaneMarkedTransitive(before, mid, reactor.state, l, l1, L());
        todo := todo - {n};
      }
      MarkingEnds(e, before, reactor.state, s, mark);
    }

    /** An effect takes the mark and schedules itself; a computed node takes it and, when it leaves the
        clean state, tells its own observers to check. */
    method DeliverMark(n: NodeId, mark: State)
      requires Connected() && mark != Clean && n in reactor.state && n in reactor.meta && queuedEffects == |scheduled|
      modifies reactor`state, `scheduled, `queuedEffects, `pendingJobs, `flushScheduled
      ensures Delivered(reactor.E(), old(reactor.state), reactor.state, n, mark)
      ensures LaneMarked(old(reactor.state), reactor.state, old(L()), L())
      ensures queuedEffects == |scheduled| && (old(flushScheduled) ==> flushScheduled)
      ensures pendingJobs != old(pendingJobs) ==> flushScheduled
      ensures old(pendingJobs) <= pendingJobs
      decreases CleanNodes(), 0
    {
      hide Delivered, Marked, LaneMarked, Latched, Mirrored;
      ghost var e, before, l := reactor.E(), reactor.state, L();
      var previous := reactor.state[n];
      if reactor.meta[n].kind.Effect? {
        if previous.Level() < mark.Level() {
          reactor.state := reactor.state[n := mark];
        }
        EffectUnobserved(e, before.Keys, reactor.meta, body.Keys, n);
        DeliveredAlone(e, before, n, mark);
        LanedMark(before, Stalest(previous, mark), l, n);
        assert reactor.state == before[n := Stalest(previous, mark)];
        assert L() == l;
        Schedule(n);
      } else {
        UnlanedMark(before, Stalest(previous, mark), l, n);
        if previous.Level() < mark.Level() {
          reactor.state := reactor.state[n := mark];
          if previous == Clean {
            assert n in old(CleanNodes()) && n !in CleanNodes();
            MarkDependents(n, Check);
            DeliveredOnward(e, before, reactor.state, n, mark);
            MarkedKeys(e, before[n := mark], reactor.state, n, Check);
            LaneMarkedTransitive(before, before[n := mark], reactor.state, l, l, L());
          } else {
            DeliveredAlone(e, before, n, mark);
          }
        } else {
          DeliveredAlone(e, before, n, mark);
          assert reactor.state == before[n := Stalest(previous, mark)];
        }
      }
    }

    // ------------------------------------------------------------------------------- writing

    /** Stores a value in a source and marks whatever depends on it. */
    method StoreAndTrigger(s: NodeId, v: Value)
      requires Connected() && IsSignal(reactor.G(), s) && Gauged() && Kinds()
      modifies reactor`meta, reactor`cache, reactor`past, reactor`state
      modifies `scheduled, `queuedEffects, `pendingJobs, `flushScheduled
      ensures WrittenAndMarked(old(reactor.G()), reactor.G(), s, v)
      ensures LaneMarked(old(reactor.state), reactor.state, old(L()), L())
      ensures LatchedForCause(old(scheduled), scheduled, reactor.state)
      ensures Gauged() && Kinds() && old(pendingJobs) <= pendingJobs
      ensures Observers(reactor.E(), s) == {} ==> reactor.state == old(reactor.state) && L() == old(L())
    {
      hide Mirrored, Marked, LaneMarked;
      ghost var g := reactor.G();
      reactor.WriteSource(s, v);
      WrittenCells(g, s, v);
      assert Connected();
      hide Wired;
      ghost var l := L();
      MarkDependents(s, Dirty);
      MarkingLatchesStale(g.state, reactor.state, l, L());
    }

    /** A write that counts: the value is stored and whatever depends on the source is marked. */
    method MoveSignal(s: NodeId, v: Value)
      requires Valid() && IsSignal(reactor.G(), s)
      modifies reactor`meta, reactor`cache, reactor`past, reactor`state
      modifies `scheduled, `queuedEffects, `pendingJobs, `flushScheduled, `settled
      ensures Valid() && InCache(reactor.G(), s, v) && WrittenAndMarked(old(reactor.G()), reactor.G(), s, v)
      ensures LatchedForCause(old(scheduled), scheduled, reactor.state)
      ensures Continued(old(Now()), Now(), running, true) && settled == reactor.G()
      ensures Observers(reactor.E(), s) == {} ==> reactor.state == old(reactor.state) && L() == old(L())
    {
      hide Inv, Framed, LaneInv, Churns, Spares, Sparing, Marked, LaneMarked, Mirrored, Wired, OnStack, Stack, IsSignal, Counted, WrittenAndMarked;
      hide Gauged, Budgeted, Tokens, Continued, LatchedForCause;
      ghost var g, l, before := reactor.G(), L(), Now();
      InvConnects(g, l);
      StoreAndTrigger(s, v);
      settled := reactor.G();
      SparingReflexive(settled);
      WriteSettles(g, reactor.frames, l, reactor.G(), L(), s, v, running);
      hide InCache;
      JobsGrow(Taken(deeds), old(pendingJobs), pendingJobs);
      WriteContinues(before, Now(), running);
    }

    /** Writes a source. `set` suppresses an equal value; `replace` and `update` are forced. */
    method WriteSignal(s: NodeId, v: Value, forced: bool, ghost doer: Option<NodeId> := None)
      requires Valid() && IsSignal(reactor.G(), s)
      modifies reactor`meta, reactor`cache, reactor`past, reactor`state
      modifies `scheduled, `queuedEffects, `pendingJobs, `flushScheduled, `deeds, `settled
      ensures Valid() && InCache(reactor.G(), s, v)
      ensures if !forced && InCache(old(reactor.G()), s, v) then Now() == old(Now())
              else WrittenAndMarked(old(reactor.G()), reactor.G(), s, v)
      ensures Continued(old(Now()), Now(), running, true)
      ensures Observers(reactor.E(), s) == {} ==> reactor.state == old(reactor.state) && L() == old(L())
      ensures LatchedForCause(old(scheduled), scheduled, reactor.state)
      ensures settled == if !forced && InCache(old(reactor.G()), s, v) then old(settled) else reactor.G()
      ensures deeds == old(deeds) + [Deed(doer, Wrote(s, v, forced))]
    {
      hide Inv, Framed, LaneInv, OnStack, Stack, IsSignal, Counted, WrittenAndMarked, Tokens, Accounts, Continued;
      Record(doer, Wrote(s, v, forced));
      SignalFacts(reactor.G(), s);
      ContinuedReflexive(Now(), running, true);
      if !forced && reactor.cache[s] == v {
        return;
      }
      MoveSignal(s, v);
    }

    // ---------------------------------------------------------------------- one effect's run

    /** The divergence guard: counts one more run of `n` in this drain, and says whether it may go
        ahead. */
    method CheckDivergence(n: NodeId) returns (ok: bool)
      requires Budgeted() && n in body && flushDepth > 0
      modifies `lastDrainEpoch, `runsThisDrain
      ensures Budgeted() && Used(n) == old(Used(n)) + 1 && ok == (old(Used(n)) < MAX_RUNS_PER_DRAIN)
      ensures forall m :: m != n ==> Used(m) == old(Used(m))
      ensures Tokens() == old(Tokens()) - {(n, old(Used(n)))}
      ensures Tokens() <= old(Tokens()) && (ok ==> Tokens() < old(Tokens()) && Admitted(n))
    {
      ghost var used, tokens := Used(n), Tokens();
      hide EnteredSince;
      assert WithinBudget(n);
      ok := CountRun(n);
      TokensSpent(tokens, n, used);
    }

    /** One more run of `n` in this drain; the first one opens the count. */
    method CountRun(n: NodeId) returns (ok: bool)
      requires Budgeted() && n in body
      modifies `lastDrainEpoch, `runsThisDrain
      ensures body.Keys == lastDrainEpoch.Keys == runsThisDrain.Keys && forall m :: m in lastDrainEpoch ==> lastDrainEpoch[m] <= drainEpoch
      ensures Used(n) == old(Used(n)) + 1 && forall m :: m != n ==> Used(m) == old(Used(m))
      ensures ok == (old(Used(n)) < MAX_RUNS_PER_DRAIN)
    {
      if lastDrainEpoch[n] != drainEpoch {
        lastDrainEpoch, runsThisDrain := lastDrainEpoch[n := drainEpoch], runsThisDrain[n := 1];
        ok := true;
      } else {
        runsThisDrain := runsThisDrain[n := runsThisDrain[n] + 1];
        ok := runsThisDrain[n] <= MAX_RUNS_PER_DRAIN;
      }
    }

    /** Counting a run of `n` spends its lowest token, if it had one left. */
    lemma TokensSpent(before: set<(NodeId, int)>, n: NodeId, used: nat)
      requires flushDepth > 0 && n in body && Used(n) == used + 1
      requires forall m, j :: (m, j) in before <==> m in body && 0 <= j < MAX_RUNS_PER_DRAIN && (if m == n then used else Used(m)) <= j
      ensures Tokens() == before - {(n, used)}
      ensures Tokens() <= before && (used < MAX_RUNS_PER_DRAIN ==> Tokens() < before)
    {
      forall t
        ensures t in Tokens() <==> t in before - {(n, used)}
      {
        var (m, j) := t;
      }
      if used < MAX_RUNS_PER_DRAIN {
        assert (n, used) in before && (n, used) !in Tokens();
      }
    }

    /** Asks the reactor whether an input of effect `n` changed. */
    method VerifyInputs(n: NodeId, ghost guide: Guide := OldestFirst()) returns (r: Outcome<bool>)
      requires Orderly({n}) && IsEffect(reactor.G(), n) && n in reactor.past.exempt && n !in running
      modifies reactor, `settled
      ensures Orderly({n}) && SameNode(old(reactor.G()), reactor.G(), n)
      ensures r == Done(false) ==> AllCurrent(reactor.G(), n) && ThunksRested(old(reactor.G()), reactor.G(), n)
      ensures AllCurrent(old(reactor.G()), n) ==> r == Done(false) && reactor.G() == old(reactor.G())
      ensures r == Done(true) ==> exists d :: Moved(reactor.G(), n, d)
      ensures LazilyBelow(old(reactor.G()), reactor.G(), n)
      ensures r.Panic? ==> Circular(r.cause, reactor.program)
      ensures r.Done? ==> Sparing(old(reactor.G()), reactor.G())
      ensures Guided(old(reactor.G()), guide) && Reached(old(reactor.G()), guide, n) ==> r.Done?
      ensures Trapped(old(reactor.G()), guide) ==> Trapped(reactor.G(), guide) && (AsksTrap(old(reactor.G()), guide, n) ==> r.Panic?)
      ensures Continued(old(Now()), Now(), running, r.Done?)
      ensures reactor.superseded == old(reactor.superseded)
      ensures settled == if r.Done? then old(settled) else reactor.G()
    {
      hide Inv, Framed, LaneInv, Churns, Spares, Sparing, Counted, OnStack, Stack, Busy, Gauged, Budgeted, Tokens, Evolves, Layered, SameNode;
      hide IsEffect, MayVerify, DepsUnder, ToldBelow, Reportable, Guided, Trapped, AsksTrap, Reached, AllCurrent, Moved, Orderly, Reactor.Valid, EffectKinds, ThunksRested, LazilyBelow;
      Parts({n});
      reactor.Parts();
      ghost var g, fs, l := reactor.G(), reactor.frames, L();
      VerifyFacts(g, fs, l, n);
      ghost var asked;
      r, asked := reactor.DependenciesChanged(n, Best(reactor.program, guide));
      ghost var g' := reactor.G();
      if r.Panic? {
        CirculatesBelow(g, fs, l, {n}, n, r.cause);
      }
      VerifyForesight(g, g', fs, n, guide);
      RefreshKeepsLane(g, fs, l, {n}, g', l, Busy(fs) + {n}, {}, r.Done?, n);
      if r == Done(false) {
        CurrentThunksRested(g, g', Busy(fs) + {n}, n);
      }
      if r.Done? {
        EvolvesSpares(g, g', Busy(fs) + {n}, {});
      }
      EvolvesChurns(g, l, g', l, Busy(fs) + {n}, {}, r.Done?, running);
      SameAfter(g, g', Busy(fs) + {n}, {}, r.Done?, n);
      KindsAfter(g, g', body.Keys);
      Resettle(g, r.Done?);
      Whole({n});
    }

    /** A run begins: the mark is cleared. */
    method TakeMark(n: NodeId, ghost l: Lane)
      requires reactor.Valid() && LaneInv(reactor.G(), reactor.frames, l, {n}) && L() == Unlatched(l, n)
      requires Accounts()
      requires IsEffect(reactor.G(), n) && n !in disposed && n !in running
      modifies reactor`state, reactor`past
      ensures Orderly({n}) && reactor.G() == MarkTaken(old(reactor.G()), n) && n !in scheduled && L() == old(L())
      ensures Continued(old(Now()), Now(), running, true) && Sparing(old(reactor.G()), reactor.G())
    {
      hide Inv, Framed, LaneInv, Churns, Spares, Sparing, Counted, OnStack, Stack, Busy, Gauged, Budgeted, Tokens, IsEffect;
      ghost var g, fs := reactor.G(), reactor.frames;
      TakeFacts(g, fs, l, n);
      reactor.TakeMark(n);
      TakeMarkKeeps(g, fs, l, n);
      EffectNotComputed(g, n);
      TakingIsStep(g, L(), n);
      UnlatchedTwice(l, n);
      StepChurns(g, L(), reactor.G(), L(), n, running);
      SparingTransitive(settled, g, reactor.G());
    }

    /** Verification unwound: the effect is Dirty and queued again. */
    method Recover(n: NodeId)
      requires Orderly({n}) && IsEffect(reactor.G(), n) && n !in disposed && n !in running && n !in scheduled && n in reactor.state
      modifies reactor`state, reactor`past, `scheduled, `queuedEffects, `pendingJobs, `flushScheduled
      ensures Valid() && n in scheduled && InState(reactor.G(), n, Dirty)
      ensures reactor.G() == MarkRestored(old(reactor.G()), n)
      ensures Continued(old(Now()), Now(), running, true)
    {
      hide Inv, Framed, LaneInv, Churns, Spares, Sparing, Counted, OnStack, Stack, Busy, Budgeted, Tokens, IsEffect;
      ghost var g, fs, l := reactor.G(), reactor.frames, L();
      EffectNotBusy(g, fs, l, n);
      reactor.RestoreEffectMark(n);
      Schedule(n);
      RecoverKeeps(g, fs, l, n);
      EffectNotComputed(g, n);
      RestoringIsStep(g, l, n);
      StepChurns(g, l, reactor.G(), L(), n, running);
      SparingTransitive(settled, g, reactor.G());
    }

    /** Verification found nothing changed. */
    ghost method Skip(n: NodeId)
      requires Orderly({n}) && IsEffect(reactor.G(), n) && n !in running && n !in scheduled && InState(reactor.G(), n, Clean)
      requires AllCurrent(reactor.G(), n) && (n in reactor.past.log || n in tainted)
      modifies reactor`past
      ensures reactor.G() == Settled(old(reactor.G()), n) && L() == old(L())
      ensures Valid() && Continued(old(Now()), Now(), running, true) && Sparing(old(reactor.G()), reactor.G())
    {
      hide Inv, Framed, LaneInv, Churns, Spares, Sparing, Counted, OnStack, Stack, Busy, Budgeted, Tokens, Gauged, IsEffect, AllCurrent;
      ghost var g, fs, l := reactor.G(), reactor.frames, L();
      EffectNotBusy(g, fs, l, n);
      reactor.Settle(n);
      SkipKeeps(g, fs, l, n);
      EffectNotComputed(g, n);
      TakingIsStep(g, l, n);
      StepChurns(g, l, reactor.G(), L(), n, running);
      SparingTransitive(settled, g, reactor.G());
    }

    /** Whether the run just taken off the queue has anything to do. A Dirty effect runs; a Check one
        runs only if an input really changed; one whose verification unwinds is queued again. */
    method ShouldRun(n: NodeId, ghost l: Lane, ghost guide: Guide := OldestFirst()) returns (r: Outcome<bool>)
      requires reactor.Valid() && LaneInv(reactor.G(), reactor.frames, l, {n}) && L() == Unlatched(l, n)
      requires Accounts() && WindowedAt(reactor.G(), l, {}, n)
      requires IsEffect(reactor.G(), n) && n !in disposed && n !in running
      modifies reactor, `settled, `scheduled, `queuedEffects, `pendingJobs, `flushScheduled
      ensures r == Done(true) ==> Orderly({n}) && InState(reactor.G(), n, Clean) && n !in scheduled
      ensures r == Done(true) ==> InState(old(reactor.G()), n, Dirty) || exists d :: Moved(reactor.G(), n, d)
      ensures r != Done(true) ==> Valid()
      ensures r == Done(false) ==> ThunksRested(old(reactor.G()), reactor.G(), n)
      ensures InState(old(reactor.G()), n, Dirty) ==> r == Done(true) && reactor.G() == MarkTaken(old(reactor.G()), n) && L() == old(L())
      ensures InState(old(reactor.G()), n, Check) && AllCurrent(old(reactor.G()), n) ==>
                r == Done(false) && reactor.G() == Settled(MarkTaken(old(reactor.G()), n), n) && L() == old(L())
      ensures r.Panic? ==> n in scheduled && InState(reactor.G(), n, Dirty) && Circular(r.cause, reactor.program)
      ensures LazilyVerified(old(reactor.G()), reactor.G(), n)
      ensures r.Done? ==> pendingJobs == old(pendingJobs)
      ensures Continued(old(Now()), Now(), running, r.Done?)
      ensures old(Serenely(guide, {n})) ==> r.Done? && Serenely(guide, {n}) && settled == old(settled)
    {
      hide Inv, Framed, LaneInv, Churns, Spares, Sparing, Counted, OnStack, Stack, Busy, Tokens, IsEffect, AllCurrent, Moved, WindowedAt;
      hide Circular, SameNode, Continued, Accounts, Orderly, Serene, Settled, MarkTaken, ThunksRested, LazilyVerified, Spared;
      ContinuedReflexive(Now(), running, true);
      TakeFacts(reactor.G(), reactor.frames, l, n);
      TakenSpared(reactor.G(), n);
      AllSpared(reactor.G(), {n});
      var mark := reactor.state[n];
      if mark == Clean {
        IdleKeeps(reactor.G(), reactor.frames, l, n);
        NoneRan(reactor.G(), n);
        NotVerified(reactor.G(), reactor.G(), n);
        Whole({});
        return Done(false);
      }
      if mark == Check {
        LoggedOrTainted(reactor.G(), reactor.frames, l, n);
      }
      ghost var start := Now();
      ClearMark(n, l, guide);
      TakenKeepsLog(start.graph, n);
      if mark == Dirty {
        NotVerified(start.graph, reactor.G(), n);
        return Done(true);
      }
      ghost var taken := Now();
      TakenKeepsCurrent(start.graph, n);
      r := Verify(n, guide);
      ContinuedTransitive(start, taken, Now(), running, true, r.Done?);
      TakenVerified(start.graph, reactor.G(), n);
      TakenRested(start.graph, reactor.G(), n);
    }

    /** The mark is cleared, and what is foreseen stays so. */
    method ClearMark(n: NodeId, ghost l: Lane, ghost guide: Guide)
      requires reactor.Valid() && LaneInv(reactor.G(), reactor.frames, l, {n}) && L() == Unlatched(l, n)
      requires Accounts() && IsEffect(reactor.G(), n) && n !in disposed && n !in running
      modifies reactor`state, reactor`past
      ensures Orderly({n}) && reactor.G() == MarkTaken(old(reactor.G()), n) && n !in scheduled && L() == old(L())
      ensures Continued(old(Now()), Now(), running, true)
      ensures old(Serenely(guide, {n})) ==> Serenely(guide, {n})
    {
      hide Inv, Framed, LaneInv, Churns, Spares, Sparing, Counted, OnStack, Stack, Busy, Tokens, IsEffect, Continued, Accounts, Orderly, Serene, MarkTaken;
      ghost var before := Now();
      TakeMark(n, l);
      Parts({n});
      SereneSpan(before, Now(), running, guide, {n});
    }

    /** Verification of an effect whose mark has been taken, and what follows if there is nothing to run. */
    method Verify(n: NodeId, ghost guide: Guide) returns (r: Outcome<bool>)
      requires Orderly({n}) && IsEffect(reactor.G(), n) && n in reactor.past.exempt && n !in running && n !in disposed
      requires n !in scheduled && InState(reactor.G(), n, Clean) && (n in reactor.past.log || n in tainted)
      modifies reactor, `settled, `scheduled, `queuedEffects, `pendingJobs, `flushScheduled
      ensures r == Done(true) ==> Orderly({n}) && InState(reactor.G(), n, Clean) && n !in scheduled && exists d :: Moved(reactor.G(), n, d)
      ensures r != Done(true) ==> Valid()
      ensures r == Done(false) ==> ThunksRested(old(reactor.G()), reactor.G(), n)
      ensures AllCurrent(old(reactor.G()), n) ==> r == Done(false) && reactor.G() == Settled(old(reactor.G()), n) && L() == old(L())
      ensures r.Panic? ==> n in scheduled && InState(reactor.G(), n, Dirty) && Circular(r.cause, reactor.program)
      ensures LazilyVerified(old(reactor.G()), reactor.G(), n)
      ensures r.Done? ==> pendingJobs == old(pendingJobs)
      ensures Continued(old(Now()), Now(), running, r.Done?)
      ensures old(Serenely(guide, {n})) ==> r.Done? && Serenely(guide, {n}) && settled == old(settled)
    {
      hide Inv, Framed, LaneInv, Churns, Spares, Sparing, Counted, OnStack, Stack, Busy, Tokens, IsEffect, AllCurrent, Moved;
      hide Circular, SameNode, Continued, Accounts, Orderly, Serene, Settled, MarkRestored, ThunksRested, LazilyBelow, LazilyVerified, Spared;
      ghost var start := Now();
      Parts({n});
      SereneForesees(reactor.G(), L(), Tokens(), guide, n);
      r := VerifyInputs(n, guide);
      ghost var verified := Now();
      TakenSpared(verified.graph, n);
      AllSpared(verified.graph, {n});
      SameNodeState(start.graph, reactor.G(), n);
      ContinuedKind(start, verified, running, r.Done?, n);
      if r.Panic? {
        Recover(n);
        VerifiedThen(start.graph, verified.graph, reactor.G(), n);
        ContinuedTransitive(start, verified, Now(), running, false, true);
        return;
      }
      Parts({n});
      SereneSpan(start, verified, running, guide, {n});
      VerifiedThen(start.graph, verified.graph, verified.graph, n);
      if !r.value {
        Skip(n);
        VerifiedThen(start.graph, verified.graph, reactor.G(), n);
        SettledRested(start.graph, verified.graph, n);
        Parts({});
        SereneSpan(verified, Now(), running, guide, {n});
        ContinuedTransitive(start, verified, Now(), running, true, true);
      }
    }

    /** Drains the job queue. The outermost flush opens a new drain; a nested one continues it. Jobs are taken
        first in, first out. If a job unwinds, the rest of the queue is left to a fresh flush. */
    method FlushJobs(ghost doer: Option<NodeId> := None, ghost guide: Guide := OldestFirst()) returns (r: Outcome<()>)
      requires Valid()
      modifies this, reactor
      ensures Valid() && running == old(running) && disposed == old(disposed) && flushDepth == old(flushDepth) && Continued(old(Now()), Now(), running, r.Done?)
      ensures r.Done? ==> pendingJobs == []
      ensures Taken(old(deeds)) + old(pendingJobs) <= Taken(deeds) + pendingJobs
      ensures r.Panic? ==> Reported(r.cause, old(deeds), deeds, Now())
      ensures r.Panic? ==> exists n :: LastTaken(old(deeds), deeds, n, flushDepth + 1) && CutShort(n)
      ensures flushScheduled == (pendingJobs != [])
      ensures old(pendingJobs) == [] ==> r.Done? && Now() == old(Now()) && settled == old(settled) && deeds == old(deeds) + [Deed(doer, Flushed)]
      ensures r.Panic? && r.cause.Divergence? ==> Spent(r.cause.effect)
      ensures Quiet(old(deeds) + [Deed(doer, Flushed)], deeds, running + disposed, flushDepth)
      ensures old(flushDepth) == 0 ==> forall n :: n in body ==> EnteredSince(old(deeds), deeds, n) <= MAX_RUNS_PER_DRAIN
      ensures old(flushDepth) == 0 && Peaceful(old(reactor.G()), old(L()), guide) ==> r.Done? && Peaceful(reactor.G(), L(), guide) && settled == old(settled)
      decreases Tokens(), 1, 0
    {
      hide Inv, Framed, LaneInv, Churns, Spares, Sparing, Counted, OnStack, Stack, Busy, Continued, Reported, Accounts, Orderly, Tokens, Quiet, EnteredSince, Peaceful, Serene, Spent, Taken, CutShort, LastTaken;
      ghost var before := Now();
      Record(doer, Flushed);
      QuietReflexive(deeds, running + disposed, flushDepth);
      ghost var asked := deeds;
      FlushEntersNothing(old(deeds), doer);
      ContinuedReflexive(before, running, true);
      JobsOn(before, Now(), running, true);
      if pendingJobs == [] {
        Unschedule();
        return Done(());
      }
      r := FlushQueue(guide);
      JobsOn(before, Now(), running, r.Done?);
      SinceFlush(old(deeds), asked, deeds, doer);
      if r.Panic? {
        ghost var n :| LastTaken(asked, deeds, n, flushDepth + 1) && CutShort(n);
        LastTakenSince(old(deeds), asked, deeds, n, flushDepth + 1);
        ReportedLater(r.cause, asked, old(deeds), deeds, deeds, Now(), Now());
      }
    }

    /** The same once there is something to run. */
    method FlushQueue(ghost guide: Guide) returns (r: Outcome<()>)
      requires Valid() && pendingJobs != []
      modifies this, reactor
      ensures Valid() && running == old(running) && disposed == old(disposed) && flushDepth == old(flushDepth) && Continued(old(Now()), Now(), running, r.Done?)
      ensures r.Done? ==> pendingJobs == []
      ensures r.Panic? ==> Reported(r.cause, old(deeds), deeds, Now())
      ensures r.Panic? ==> exists n :: LastTaken(old(deeds), deeds, n, flushDepth + 1) && CutShort(n)
      ensures flushScheduled == (pendingJobs != [])
      ensures r.Panic? && r.cause.Divergence? ==> Spent(r.cause.effect)
      ensures Quiet(old(deeds), deeds, running + disposed, flushDepth)
      ensures old(flushDepth) == 0 ==> forall n :: n in body ==> EnteredSince(old(deeds), deeds, n) <= MAX_RUNS_PER_DRAIN
      ensures old(flushDepth) == 0 && Peaceful(old(reactor.G()), old(L()), guide) ==> r.Done? && Peaceful(reactor.G(), L(), guide) && settled == old(settled)
      decreases Tokens(), 0, |pendingJobs| + 1
    {
      hide Inv, Framed, LaneInv, Churns, Spares, Sparing, Counted, OnStack, Stack, Busy, Continued, Reported, Accounts, Orderly, Tokens, Quiet, EnteredSince, Peaceful, Serene, Spent, Taken, CutShort, LastTaken;
      ghost var before := Now();
      EnterFlush(guide);
      ghost var start := Now();
      r := Drain(guide);
      ghost var end := Now();
      ContinuedFacts(start, end, running, r.Done?);
      BudgetKept();
      SereneEnds(guide);
      ghost var last := NodeId(0);
      if r.Panic? {
        SpentNow(r.cause, old(deeds));
        last :| LastTaken(old(deeds), deeds, last, flushDepth) && CutShort(last);
      }
      LeaveFlush(before, start, r.Done?, last);
      if r.Panic? {
        assert LastTaken(old(deeds), deeds, last, flushDepth + 1) && CutShort(last);
        FlushReported(r.cause, old(deeds), deeds, end, Now());
      }
    }

    /** The run of `n` ended before its time: the effect counts as unwound or, if it was its verification that
        unwound, is Dirty and queued again. */
    ghost predicate CutShort(n: NodeId)
      reads `tainted, `scheduled, reactor
    {
      n in tainted || (n in scheduled && InState(reactor.G(), n, Dirty))
    }

    /** `n` has used up its runs of the current drain. */
    ghost predicate Spent(n: NodeId)
      reads `body, `lastDrainEpoch, `runsThisDrain, `drainEpoch
    {
      n in body && Used(n) >= MAX_RUNS_PER_DRAIN
    }

    lemma SpentNow(cause: PanicCause, since: seq<Deed>)
      requires Reported(cause, since, deeds, Now()) && flushDepth > 0
      ensures cause.Divergence? ==> Spent(cause.effect)
    {
      if cause.Divergence? {
        TokensOf(cause.effect);
        assert (cause.effect, MAX_RUNS_PER_DRAIN - 1) !in Tokens();
      }
    }

    /** With an empty queue no flush need be coming. */
    method Unschedule()
      requires Valid() && pendingJobs == []
      modifies `flushScheduled
      ensures !flushScheduled && Valid() && Now() == old(Now())
    {
      hide Inv, Framed, LaneInv, Counted, OnStack, Stack, Tokens, Budgeted, Kinds, Sparing;
      flushScheduled := false;
    }

    /** An outermost flush has opened: nothing is spent. */
    lemma Opened(guide: Guide)
      requires Valid() && flushDepth > 0
      ensures (forall n :: Used(n) == 0) && Peaceful(reactor.G(), L(), guide) ==> Serenely(guide, {})
    {
      hide Inv, Framed, LaneInv, Counted, Accounts, Peaceful, OnStack, Stack, Serene;
      if forall n :: Used(n) == 0 {
        SereneStarts(reactor.G(), reactor.frames, L(), Tokens(), guide);
      }
    }

    lemma SereneEnds(guide: Guide)
      ensures Serenely(guide, {}) ==> Peaceful(reactor.G(), L(), guide)
    {
      hide Peaceful;
    }

    lemma BudgetKept()
      requires Valid() && flushDepth > 0
      ensures forall n :: n in body ==> EnteredSince(doneBefore, deeds, n) <= MAX_RUNS_PER_DRAIN
    {
      hide Inv, Framed, LaneInv, Counted, EnteredSince, Sparing;
      forall n | n in body
        ensures EnteredSince(doneBefore, deeds, n) <= MAX_RUNS_PER_DRAIN
      {
        assert WithinBudget(n);
      }
    }

    lemma OutermostTokens()
      ensures flushDepth == 0 ==> Tokens() == AllTokens(body.Keys)
    {
    }

    /** Opening a flush: the outermost one starts a new drain, with a fresh run budget. */
    method OpenFlush()
      requires Valid()
      modifies `drainEpoch, `flushDepth, `doneBefore
      ensures Valid() && flushDepth == old(flushDepth) + 1
      ensures drainEpoch == old(drainEpoch) + if old(flushDepth) == 0 then 1 else 0
      ensures Now() == old(Now()).(flushDepth := flushDepth, doneBefore := doneBefore)
      ensures old(flushDepth) == 0 ==> forall n :: Used(n) == 0
      ensures doneBefore == if old(flushDepth) == 0 then deeds else old(doneBefore)
    {
      hide Inv, Framed, LaneInv, Counted, OnStack, Stack, Busy, Entries, Sparing;
      if flushDepth == 0 {
        drainEpoch := drainEpoch + 1;
        doneBefore := deeds;
      }
      flushDepth := flushDepth + 1;
    }

    method CloseFlush()
      requires Valid() && flushDepth > 0 && (flushDepth == 1 ==> running == {})
      modifies `flushDepth, `flushScheduled
      ensures Valid() && flushDepth == old(flushDepth) - 1
      ensures flushScheduled == (pendingJobs != [])
      ensures Now() == old(Now()).(flushDepth := flushDepth, tokens := Tokens())
      ensures flushDepth > 0 ==> Tokens() == old(Tokens())
    {
      hide Inv, Framed, LaneInv, Counted, OnStack, Stack, Busy, WithinBudget, Sparing;
      flushDepth := Saturating(flushDepth, 1);
      flushScheduled := pendingJobs != [];
    }

    /** Opening a flush: where nothing can fail an outermost one begins with a whole budget. */
    method EnterFlush(ghost guide: Guide)
      requires Valid()
      modifies `drainEpoch, `flushDepth, `doneBefore
      ensures Valid() && flushDepth == old(flushDepth) + 1
      ensures Now() == old(Now()).(flushDepth := flushDepth, doneBefore := doneBefore)
      ensures doneBefore == if old(flushDepth) == 0 then deeds else old(doneBefore)
      ensures old(flushDepth) == 0 ==> running == {} && old(Tokens()) == AllTokens(body.Keys)
      ensures old(flushDepth) == 0 && old(Peaceful(reactor.G(), L(), guide)) ==> Serenely(guide, {})
    {
      hide Inv, Framed, LaneInv, Counted, OnStack, Stack, Busy, Accounts, Orderly, Tokens, Peaceful, Serene;
      if flushDepth == 0 {
        Idle();
      }
      OutermostTokens();
      OpenFlush();
      Opened(guide);
    }

    /** Closing the flush that opened at `before`. */
    method LeaveFlush(ghost before: Moment, ghost start: Moment, ghost done: bool, ghost last: NodeId)
      requires Valid() && flushDepth > 0 && flushDepth == before.flushDepth + 1 && (before.flushDepth == 0 ==> running == {} && before.tokens == AllTokens(body.Keys))
      requires Continued(start, Now(), running, done) && start == before.(flushDepth := flushDepth, doneBefore := start.doneBefore)
      requires before.flushDepth > 0 ==> start.doneBefore == before.doneBefore
      modifies `flushDepth, `flushScheduled
      ensures Valid() && flushDepth == old(flushDepth) - 1 && flushScheduled == (pendingJobs != [])
      ensures Continued(before, Now(), running, done) && CutShort(last) == old(CutShort(last))
      ensures Now() == old(Now()).(flushDepth := flushDepth, tokens := Tokens()) && (flushDepth > 0 ==> Tokens() == old(Tokens()))
    {
      hide Inv, Framed, LaneInv, Churns, Spares, Counted, OnStack, Stack, Busy, Continued, Accounts, Orderly, Tokens;
      ghost var end := Now();
      CloseFlush();
      OutermostTokens();
      NestedContinues(before, start, end, Now(), running, done);
    }

    /** Runs jobs until the queue is empty or one unwinds. */
    method Drain(ghost guide: Guide) returns (r: Outcome<()>)
      requires Valid() && flushDepth > 0
      modifies this, reactor
      ensures Valid() && running == old(running) && disposed == old(disposed) && flushDepth == old(flushDepth) && Continued(old(Now()), Now(), running, r.Done?)
      ensures r.Done? ==> pendingJobs == []
      ensures r.Panic? ==> Reported(r.cause, old(deeds), deeds, Now())
      ensures r.Panic? ==> exists n :: LastTaken(old(deeds), deeds, n, flushDepth) && CutShort(n)
      ensures Quiet(old(deeds), deeds, running + disposed, flushDepth - 1)
      ensures old(Serenely(guide, {})) ==> r.Done? && Serenely(guide, {}) && settled == old(settled)
      decreases Tokens(), 0, |pendingJobs|
    {
      hide Inv, Framed, LaneInv, Churns, Spares, Sparing, Counted, OnStack, Stack, Busy, Continued, Reported, Tokens, Accounts, Orderly, WindowedAt, IsEffect, Quiet, Serene, CutShort, LastTaken;
      ghost var start := Now();
      ContinuedReflexive(start, running, true);
      QuietReflexive(deeds, running + disposed, flushDepth - 1);
      while pendingJobs != []
        invariant Valid() && running == old(running) && Continued(start, Now(), running, true) && flushDepth == old(flushDepth)
        invariant Tokens() < old(Tokens()) || (Tokens() == old(Tokens()) && |pendingJobs| <= old(|pendingJobs|))
        invariant old(deeds) <= deeds && Quiet(old(deeds), deeds, running + disposed, flushDepth - 1) && disposed == old(disposed)
        invariant old(Serenely(guide, {})) ==> Serenely(guide, {}) && settled == old(settled)
        decreases Tokens(), |pendingJobs|
      {
        ghost var mid, done := Now(), deeds;
        r := RunNext(guide);
        ContinuedTransitive(start, mid, Now(), running, true, r.Done?);
        ContinuedFacts(mid, Now(), running, r.Done?);
        QuietTransitive(old(deeds), done, deeds, running + disposed, flushDepth - 1);
        if r.Panic? {
          LastTakenSince(old(deeds), done, deeds, mid.lane.queue[0], flushDepth);
          ReportedSince(r.cause, old(deeds), done, deeds, running + disposed, Now(), flushDepth - 1);
          return;
        }
      }
      r := Done(());
    }

    /** Takes one job and runs it. */
    method RunNext(ghost guide: Guide) returns (r: Outcome<()>)
      requires Valid() && flushDepth > 0 && pendingJobs != []
      modifies this, reactor
      ensures Valid() && running == old(running) && disposed == old(disposed) && flushDepth == old(flushDepth) && Continued(old(Now()), Now(), running, r.Done?)
      ensures r.Done? ==> Tokens() < old(Tokens()) || |pendingJobs| < old(|pendingJobs|)
      ensures r.Panic? ==> Reported(r.cause, old(deeds), deeds, Now())
      ensures r.Panic? ==> LastTaken(old(deeds), deeds, old(pendingJobs)[0], flushDepth) && CutShort(old(pendingJobs)[0])
      ensures old(deeds) <= deeds
      ensures Quiet(old(deeds), deeds, running + disposed, flushDepth - 1)
      ensures old(deeds) + [Deed(None, Took(old(pendingJobs)[0], flushDepth))] <= deeds
      ensures old(Serenely(guide, {})) ==> r.Done? && Serenely(guide, {}) && settled == old(settled)
      decreases Tokens(), 0, |pendingJobs| - 1, 2
    {
      hide Inv, Framed, LaneInv, Churns, Spares, Sparing, Counted, OnStack, Stack, Busy, Continued, Reported, Tokens, Accounts, Orderly, WindowedAt, IsEffect, By, Serene, Taken, CutShort, LastTaken, Quiet;
      ghost var start, done := Now(), deeds;
      var n := Pop(guide);
      ghost var popped, begun := Now(), deeds;
      PoppedContinues(start, popped, running);
      HostDeed(done, Took(n, flushDepth), running + disposed, flushDepth - 1);
      r := RunScheduled(n, guide);
      ContinuedTransitive(start, popped, Now(), running, true, r.Done?);
      ContinuedFacts(popped, Now(), running, r.Done?);
      QuietShallower(begun, deeds, running + disposed, flushDepth, flushDepth - 1);
      QuietTransitive(done, begun, deeds, running + disposed, flushDepth - 1);
      if r.Panic? {
        StillLast(done, done, deeds, n, running + disposed, flushDepth);
        ReportedSince(r.cause, done, begun, deeds, running + disposed, Now(), flushDepth - 1);
      }
    }

    /** Takes the oldest job off the queue. */
    method Pop(ghost guide: Guide := OldestFirst()) returns (n: NodeId)
      requires Valid() && pendingJobs != []
      modifies `pendingJobs, `deeds
      ensures n == old(pendingJobs)[0] && L() == Popped(old(L())) && Now() == old(Now()).(lane := Popped(old(L())))
      ensures deeds == old(deeds) + [Deed(None, Took(n, flushDepth))]
      ensures Orderly({n}) && WindowedAt(reactor.G(), L(), {}, n) && (n !in disposed ==> IsEffect(reactor.G(), n))
      ensures old(Serenely(guide, {})) ==> Serenely(guide, {n})
    {
      hide Inv, Framed, LaneInv, Counted, OnStack, Stack, Busy, Tokens, Budgeted, Kinds, Serene, WindowedAt, IsEffect, Sparing;
      n := pendingJobs[0];
      PopKeeps(reactor.G(), reactor.frames, L());
      SerenePopped(reactor.G(), L(), Tokens(), guide);
      Record(None, Took(n, flushDepth));
      TakenMore(old(deeds), Deed(None, Took(n, flushDepth)));
      assert Taken(old(deeds)) + [n] + pendingJobs[1..] == Taken(old(deeds)) + pendingJobs;
      pendingJobs := pendingJobs[1..];
    }

    /** Runs one job: nothing if the effect is disposed, an owed rerun if it is already running, and
        otherwise a run if its inputs call for one. */
    method RunScheduled(n: NodeId, ghost guide: Guide) returns (r: Outcome<()>)
      requires Orderly({n}) && WindowedAt(reactor.G(), L(), {}, n) && (n !in disposed ==> IsEffect(reactor.G(), n)) && flushDepth > 0 && InHand(n)
      modifies this, reactor
      ensures Valid() && running == old(running) && disposed == old(disposed) && flushDepth == old(flushDepth) && Continued(old(Now()), Now(), running, r.Done?)
      ensures r.Done? ==> Tokens() < old(Tokens()) || |pendingJobs| <= old(|pendingJobs|)
      ensures r.Panic? ==> Reported(r.cause, old(deeds), deeds, Now()) && CutShort(n)
      ensures Quiet(old(deeds), deeds, running + disposed, flushDepth)
      ensures old(Serenely(guide, {n})) ==> r.Done? && Serenely(guide, {}) && settled == old(settled)
      decreases Tokens(), 0, |pendingJobs|, 1
    {
      hide Inv, Framed, LaneInv, Churns, Spares, Sparing, Counted, OnStack, Stack, Busy, Tokens, WindowedAt, IsEffect, Reported, Continued, Moved, Accounts, Orderly;
      hide Quiet, Serene, Circular, Reactor.G, L;
      ghost var start, l := Now(), L();
      QuietReflexive(deeds, running + disposed, flushDepth);
      var live := TakeJob(n, guide);
      if !live {
        return Done(());
      }
      ghost var released := Now();
      var needed := ShouldRun(n, l, guide);
      ghost var asked := Now();
      LaneCells();
      ContinuedTransitive(start, released, asked, running, true, needed.Done?);
      ContinuedKind(start, asked, running, needed.Done?, n);
      if needed.Panic? {
        CycleReported(needed.cause, deeds, Now());
        return Panic(needed.cause);
      }
      if !needed.value {
        TokensUp();
        SereneDropped(reactor.G(), L(), L(), n, Tokens(), guide);
        return Done(());
      }
      r := GuardedRun(n, guide);
      ContinuedTransitive(start, asked, Now(), running, true, r.Done?);
      ContinuedFacts(start, asked, running, true);
    }

    /** Releases the latch; a disposed effect's job ends there, and one that is running is owed a
        rerun. */
    method TakeJob(n: NodeId, ghost guide: Guide := OldestFirst()) returns (live: bool)
      requires Orderly({n}) && WindowedAt(reactor.G(), L(), {}, n)
      modifies `scheduled, `queuedEffects, `rerunAfterCurrent
      ensures live == (n !in old(disposed) && n !in old(running))
      ensures !live ==> Valid()
      ensures n in old(running) && n !in old(disposed) ==> L() == Unlatched(old(L()), n).(rerun := old(rerunAfterCurrent) + {n})
      ensures live ==> n !in running && n !in disposed && LaneInv(reactor.G(), reactor.frames, old(L()), {n})
      ensures live ==> L() == Unlatched(old(L()), n) && Accounts() && reactor.Valid()
      ensures Continued(old(Now()), Now(), running, true)
      ensures old(Serenely(guide, {n})) ==> if live then Serenely(guide, {n}) else Serenely(guide, {})
    {
      hide Inv, Framed, LaneInv, Churns, Spares, Sparing, Counted, OnStack, Stack, Busy, Tokens, WindowedAt, Continued, Accounts, Orderly, Serene, Reactor.Valid, Reactor.G;
      ghost var start, l := Now(), L();
      Parts({n});
      ReleaseLatch(n);
      UnlatchedContinues(start, Now(), running, n);
      SereneReleased(reactor.G(), l, n, Tokens(), guide, {n});
      TokensUp();
      if n in disposed {
        DisposedJobKeeps(reactor.G(), reactor.frames, l, n);
        Whole({});
        SereneDropped(reactor.G(), l, L(), n, Tokens(), guide);
        return false;
      }
      ActiveIsRunning(reactor.G(), reactor.frames, l, n);
      if n in running || n in reactor.active {
        ghost var released := Now();
        Defer(n, l);
        DeferredContinues(start, released, Now(), running, n);
        SereneDropped(reactor.G(), l, L(), n, Tokens(), guide);
        return false;
      }
      live := true;
    }

    method ReleaseLatch(n: NodeId)
      requires Accounts()
      modifies `scheduled, `queuedEffects
      ensures Accounts() && L() == Unlatched(old(L()), n) && Now() == old(Now()).(lane := L())
    {
      hide Budgeted, Kinds, Sparing, Tokens;
      Unlatch(n);
    }

    /** A run arrived while the effect is running: remember that one is owed. */
    method Defer(n: NodeId, ghost l: Lane)
      requires reactor.Valid() && LaneInv(reactor.G(), reactor.frames, l, {n}) && n in running && L() == Unlatched(l, n)
      requires Accounts()
      modifies `rerunAfterCurrent
      ensures Valid() && Now() == old(Now()).(lane := old(L()).(rerun := old(rerunAfterCurrent) + {n}))
    {
      hide Inv, Framed, LaneInv, Counted, OnStack, Stack, Busy, Tokens, Budgeted, Sparing;
      DeferKeeps(reactor.G(), reactor.frames, l, n);
      rerunAfterCurrent := rerunAfterCurrent + {n};
    }

    /** Counts the run against the divergence guard, then runs. */
    method GuardedRun(n: NodeId, ghost guide: Guide) returns (r: Outcome<()>)
      requires Orderly({n}) && ReadyToRun(n) && InHand(n)
      modifies this, reactor
      ensures Valid() && running == old(running) && disposed == old(disposed) && flushDepth == old(flushDepth) && Continued(old(Now()), Now(), running, r.Done?)
      ensures r.Done? ==> Tokens() < old(Tokens())
      ensures r.Panic? ==> Reported(r.cause, old(deeds), deeds, Now()) && n in tainted
      ensures Quiet(old(deeds), deeds, running + disposed, flushDepth)
      ensures old(Serenely(guide, {n})) ==> r.Done? && Serenely(guide, {}) && settled == old(settled)
      decreases Tokens(), 0, |pendingJobs|, 0
    {
      hide Inv, Framed, LaneInv, Churns, Spares, Sparing, Counted, OnStack, Stack, Busy, Tokens, IsEffect, Reported, Continued, Accounts, Orderly, Quiet, Did, TeardownSteps, CleanupsOf, CompletedRun, Serene;
      ghost var start := Now();
      QuietReflexive(deeds, running + disposed, flushDepth);
      var admitted := Admit(n, guide);
      if !admitted {
        return Panic(Divergence(n));
      }
      ghost var counted := Now();
      r := RunWindow(n, guide);
      ContinuedTransitive(start, counted, Now(), running, true, r.Done?);
      ContinuedFacts(counted, Now(), running, r.Done?);
    }

    method Admit(n: NodeId, ghost guide: Guide := OldestFirst()) returns (ok: bool)
      requires Orderly({n}) && ReadyToRun(n)
      modifies `lastDrainEpoch, `runsThisDrain, `tainted
      ensures ok == (old(Used(n)) < MAX_RUNS_PER_DRAIN)
      ensures ok ==> Orderly({n}) && ReadyToRun(n) && Tokens() < old(Tokens()) && Admitted(n)
      ensures ok ==> L() == old(L())
      ensures forall m :: m != n ==> Used(m) == old(Used(m))
      ensures !ok ==> Valid() && n in tainted && Reported(Divergence(n), old(deeds), deeds, Now())
      ensures Continued(old(Now()), Now(), running, ok)
      ensures old(Serenely(guide, {n})) ==> ok && Serenely(guide, {})
    {
      hide Inv, Framed, LaneInv, Churns, Spares, Sparing, Counted, OnStack, Stack, Busy, Tokens, Continued, Budgeted, Admitted, Serene;
      ghost var start := Now();
      assert n in body;
      TokensOf(n);
      SereneCounted(reactor.G(), L(), n, Tokens(), Used(n), MAX_RUNS_PER_DRAIN, guide);
      ok := CheckDivergence(n);
      hide Gauged, Kinds;
      if ok {
        CountedContinues(start, Now(), running);
      } else {
        ghost var counted := Now();
        TokensOf(n);
        Diverge(n);
        DivergedContinues(start, counted, Now(), running, n);
      }
    }

    /** The guard's panic leaves the effect Clean with whatever edges it has. */
    ghost method Diverge(n: NodeId)
      requires Orderly({n}) && ReadyToRun(n)
      modifies `tainted
      ensures Valid() && Now() == old(Now()).(lane := old(L()).(tainted := old(tainted) + {n}))
    {
      hide Inv, Framed, LaneInv, Counted, OnStack, Stack, Busy, Tokens, Budgeted, IsEffect, Sparing;
      DivergeKeeps(reactor.G(), reactor.frames, L(), n);
      tainted := tainted + {n};
    }

    /** Teardown unwound: the window closes without a body. */
    method Abandon(n: NodeId)
      requires Valid() && n in running && n !in Busy(reactor.frames) && flushDepth > 0
      modifies `running, `tainted
      ensures Valid() && running == old(running) - {n}
      ensures Now() == old(Now()).(lane := old(L()).(running := running, tainted := old(tainted) + {n}))
    {
      hide Inv, Framed, LaneInv, Counted, OnStack, Stack, Busy, Tokens, Budgeted, IsEffect, Sparing;
      AbandonKeeps(reactor.G(), reactor.frames, L(), n);
      running, tainted := running - {n}, tainted + {n};
    }

    /** The job of `n` is the last thing put on record: it was just taken off the queue. */
    ghost predicate InHand(n: NodeId)
      reads `deeds, `flushDepth
    {
      deeds != [] && deeds[|deeds| - 1] == Deed(None, Took(n, flushDepth))
    }

    /** Verification said yes: the mark is cleared, the latch released and nothing of `n` is running. */
    ghost predicate ReadyToRun(n: NodeId)
      reads this, reactor
    {
      && IsEffect(reactor.G(), n) && InState(reactor.G(), n, Clean) && flushDepth > 0
      && n !in scheduled && n !in running && n !in disposed
    }

    /** The run window: teardown of the last run, then the body. Runs of `n` arriving meanwhile are
        owed, and queued when the window closes. */
    method RunWindow(n: NodeId, ghost guide: Guide := OldestFirst()) returns (r: Outcome<()>)
      requires Orderly({n}) && ReadyToRun(n) && Admitted(n) && InHand(n)
      modifies this, reactor
      ensures Valid() && running == old(running) && disposed == old(disposed) && flushDepth == old(flushDepth) && Continued(old(Now()), Now(), running, r.Done?)
      ensures r.Panic? ==> Reported(r.cause, old(deeds), deeds, Now())
      ensures r.Panic? <==> n in tainted
      ensures (exists i :: 0 <= i < |CleanupsOf(old(L()), n)| && Throws(CleanupsOf(old(L()), n)[i])) ==> r.Panic?
      ensures EnteredSince(old(deeds), deeds, n) > 0 ==> n !in reactor.past.exempt
      ensures Quiet(old(deeds), deeds, running + disposed, flushDepth)
      ensures r.Done? ==> CompletedRun(n) && Did(old(deeds), deeds, n, TeardownSteps(CleanupsOf(old(L()), n)) + RunSteps(n))
      ensures old(Serenely(guide, {})) ==> r.Done? && Serenely(guide, {}) && settled == old(settled)
      decreases Tokens(), 5, 1
    {
      hide Inv, Framed, LaneInv, Churns, Spares, Sparing, Counted, OnStack, Stack, Busy, Tokens, IsEffect, Reported, Continued, Accounts, Orderly, Quiet, Did, Beginning, TeardownSteps, EnteredSince, Throws, Serene;
      hide Reactor.G, L, Windowed;
      ghost var start := Now();
      r := ClearWindow(n, guide);
      if r.Panic? {
        return;
      }
      ghost var cleared, tidied, list := Now(), deeds, CleanupsOf(start.lane, n);
      ContinuedFacts(start, cleared, old(running), true);
      assert running + disposed - {n} == old(running) + disposed;
      r := RunAfresh(n, guide);
      ContinuedFacts(cleared, Now(), running, r.Done?);
      QuietTransitive(old(deeds), tidied, deeds, running + disposed, flushDepth);
      if r.Done? {
        DidThen(old(deeds), tidied, deeds, n, TeardownSteps(list), RunSteps(n));
      } else {
        ReportedSince(r.cause, old(deeds), tidied, deeds, running + disposed, Now(), flushDepth);
      }
      ContinuedTransitive(start, cleared, Now(), running, true, r.Done?);
    }

    /** The window of `n` opens and its last run is torn down. If that unwinds, the window closes again. */
    method ClearWindow(n: NodeId, ghost guide: Guide) returns (r: Outcome<()>)
      requires Orderly({n}) && ReadyToRun(n) && Admitted(n)
      modifies this, reactor
      ensures Valid() && running == (if r.Done? then old(running) + {n} else old(running)) && disposed == old(disposed) && flushDepth == old(flushDepth)
      ensures Continued(old(Now()), Now(), old(running), r.Done?) && n !in Busy(reactor.frames)
      ensures r.Panic? ==> Reported(r.cause, old(deeds), deeds, Now()) && n in tainted
      ensures (exists i :: 0 <= i < |CleanupsOf(old(L()), n)| && Throws(CleanupsOf(old(L()), n)[i])) ==> r.Panic?
      ensures EnteredSince(old(deeds), deeds, n) == 0 && Quiet(old(deeds), deeds, old(running) + disposed, flushDepth)
      ensures r.Done? ==> Did(old(deeds), deeds, n, TeardownSteps(CleanupsOf(old(L()), n))) && CleanupsOf(L(), n) == [] && Admitted(n)
      ensures old(Serenely(guide, {})) ==> r.Done? && Serenely(guide, {}) && settled == old(settled)
      decreases Tokens(), 5, 0
    {
      hide Inv, Framed, LaneInv, Churns, Spares, Sparing, Counted, OnStack, Stack, Busy, Tokens, IsEffect, Reported, Continued, Accounts, Orderly, Quiet, Did, Beginning, TeardownSteps, EnteredSince, Throws, Serene;
      ghost var start := Now();
      Parts({n});
      EffectNotBusy(reactor.G(), reactor.frames, L(), n);
      SereneList(reactor.G(), L(), Windowed(L(), n), n, [], Tokens(), guide);
      var list := OpenWindow(n);
      ghost var unlocked := Now();
      ghost var ends;
      r, ends := TearDown(list, n);
      ghost var cleared := Now();
      ContinuedFacts(unlocked, cleared, running, r.Done?);
      assert running + disposed - {n} == old(running) + disposed;
      BeginningEntersNothing(old(deeds), deeds, n, LatestFirst(list));
      if r.Panic? {
        Abandon(n);
        AbandonedWindow(start, unlocked, cleared, Now(), n);
        ReportedLater(r.cause, old(deeds), old(deeds), deeds, deeds, cleared, Now());
        return;
      }
      TornDown(doneBefore, old(deeds), deeds, n, list);
      HeldCleanups(unlocked, cleared, running, n);
      WindowContinues(start, unlocked, cleared, n);
    }

    /** The last run of `n` ended well: its log is that of its body, and the cleanups waiting are the
        ones that run registered. */
    ghost predicate CompletedRun(n: NodeId)
      reads this, reactor
    {
      && n !in tainted && n !in running && n !in rerunAfterCurrent
      && n in body && n in reactor.past.log && BodyFollows(body[n], [], reactor.past.log[n])
      && CleanupsOf(L(), n) == Registers(body[n], [], reactor.past.log[n])
    }

    /** What the last run of `n` did once torn down: it entered its body, which did what its log says. */
    ghost function RunSteps(n: NodeId): seq<Step>
      requires CompletedRun(n)
      reads this, reactor
    {
      [Entered] + BodySteps(body[n], [], reactor.past.log[n])
    }

    /** Opens the window and takes the cleanups of the last run. */
    method OpenWindow(n: NodeId) returns (list: seq<Cleanup>)
      requires Orderly({n}) && ReadyToRun(n)
      modifies `running, `cleanups
      ensures Valid() && L() == Windowed(old(L()), n) && list == CleanupsOf(old(L()), n)
      ensures forall i :: 0 <= i < |list| ==> CleanupScoped(list[i], reactor.G())
    {
      hide Inv, Framed, LaneInv, Counted, OnStack, Stack, Busy, Tokens, IsEffect, CleanupScoped, Budgeted, Sparing;
      OpenWindowKeeps(reactor.G(), reactor.frames, L(), n);
      running := running + {n};
      list := TakeCleanups(n);
    }

    /** Takes the registered cleanups off the effect before any of them runs. */
    method TakeCleanups(n: NodeId) returns (list: seq<Cleanup>)
      requires Valid()
      modifies `cleanups
      ensures Valid() && L() == old(L()).(cleanups := old(cleanups)[n := []]) && list == CleanupsOf(old(L()), n)
      ensures forall i :: 0 <= i < |list| ==> CleanupScoped(list[i], reactor.G())
    {
      hide Inv, Framed, LaneInv, Counted, OnStack, Stack, Busy, Tokens, CleanupScoped, Budgeted, Gauged, Sparing;
      ListScoped(reactor.G(), reactor.frames, L(), n);
      list := if n in cleanups then cleanups[n] else [];
      assert list == CleanupsOf(L(), n);
      CleanupsKeep(reactor.G(), reactor.frames, L(), n, []);
      cleanups := cleanups[n := []];
    }

    /** Puts a step on record. */
    ghost method Record(doer: Option<NodeId>, step: Step)
      requires Valid() && (step.Entered? ==> doer.Some? && Admitted(doer.value))
      modifies `deeds
      ensures Valid() && deeds == old(deeds) + [Deed(doer, step)]
      ensures Now() == old(Now()).(jobs := Taken(deeds) + pendingJobs) && (!step.Took? ==> Now() == old(Now()))
    {
      hide Inv, Framed, LaneInv, Counted, OnStack, Stack, Busy, Gauged, Kinds, EnteredSince, Sparing;
      ghost var before := deeds;
      forall n
        ensures EnteredSince(doneBefore, before + [Deed(doer, step)], n) ==
                EnteredSince(doneBefore, before, n) + if doer == Some(n) && step.Entered? then 1 else 0
      {
        EnteredMore(doneBefore, before, Deed(doer, step), n);
      }
      TakenMore(before, Deed(doer, step));
      forall n | flushDepth > 0 && n in body
        ensures WithinBudget(n)
      {
      }
      deeds := deeds + [Deed(doer, step)];
    }

    /** Records a step of the run of `n`. */
    ghost method Note(n: NodeId, step: Step, held: set<NodeId>)
      requires Valid() && (step.Entered? ==> Admitted(n)) && !step.Took?
      modifies `deeds
      ensures Valid() && Now() == old(Now()) && (InBodyOf(n) <==> old(InBodyOf(n)))
      ensures deeds == old(deeds) + [Deed(Some(n), step)]
      ensures Did(old(deeds), deeds, n, [step]) && Quiet(old(deeds), deeds, held - {n}, flushDepth)
    {
      hide Inv, Framed, LaneInv, Counted, OnStack, Stack, Busy, Gauged, Budgeted, Tokens, Kinds, Did, Quiet, Admitted, Sparing;
      OneDeed(deeds, n, step, held, flushDepth);
      Record(Some(n), step);
    }

    /** Runs the body of an effect that has been torn down. */
    method RunAfresh(n: NodeId, ghost guide: Guide) returns (r: Outcome<()>)
      requires Valid() && n in running && n !in Busy(reactor.frames) && flushDepth > 0 && CleanupsOf(L(), n) == [] && Admitted(n)
      modifies this, reactor
      ensures Valid() && running == old(running) - {n} && disposed == old(disposed) && flushDepth == old(flushDepth) && Continued(old(Now()), Now(), running, r.Done?)
      ensures r.Panic? ==> Reported(r.cause, old(deeds), deeds, Now()) && n in tainted
      ensures Quiet(old(deeds), deeds, old(running) + disposed - {n}, flushDepth)
      ensures n !in reactor.past.exempt
      ensures r.Done? ==> CompletedRun(n) && Did(old(deeds), deeds, n, RunSteps(n))
      ensures old(Serenely(guide, {})) ==> r.Done? && Serenely(guide, {}) && settled == old(settled)
      decreases Tokens(), 4, 1
    {
      hide Inv, Framed, LaneInv, Churns, Spares, Sparing, Counted, OnStack, Stack, Busy, Tokens, Reported, Continued, Accounts, Orderly;
      hide Quiet, Did, BodyRan, Admitted, Serene;
      ghost var held := running + disposed - {n};
      Note(n, Entered, running + disposed);
      ghost var entered := deeds;
      r := RunTracked(n, guide);
      QuietTransitive(old(deeds), entered, deeds, held, flushDepth);
      if r.Done? {
        RanWhole(n, body[n], reactor.past.log[n], CleanupsOf(L(), n), old(deeds), entered, deeds, [Entered]);
      } else {
        ReportedSince(r.cause, old(deeds), entered, deeds, held, Now(), flushDepth);
      }
    }

    /** Runs the body inside its tracking scope and closes the window. */
    method RunTracked(n: NodeId, ghost guide: Guide) returns (r: Outcome<()>)
      requires Valid() && n in running && n !in Busy(reactor.frames) && flushDepth > 0
      modifies this, reactor
      ensures Valid() && running == old(running) - {n} && disposed == old(disposed) && flushDepth == old(flushDepth) && Continued(old(Now()), Now(), running, r.Done?)
      ensures r.Panic? ==> Reported(r.cause, old(deeds), deeds, Now()) && n in tainted
      ensures Quiet(old(deeds), deeds, old(running) + disposed - {n}, flushDepth)
      ensures n !in reactor.past.exempt
      ensures r.Done? ==> n !in tainted && n !in rerunAfterCurrent && n in body && n in reactor.past.log
      ensures r.Done? ==> BodyRan(n, body[n], [], reactor.past.log[n], CleanupsOf(old(L()), n), CleanupsOf(L(), n), old(deeds), deeds)
      ensures old(Serenely(guide, {})) ==> r.Done? && Serenely(guide, {}) && settled == old(settled)
      decreases Tokens(), 4, 0
    {
      hide Inv, Framed, LaneInv, Churns, Spares, Sparing, Counted, OnStack, Stack, Busy, Tokens, Reported, Continued, Accounts, Orderly;
      hide EventsKept, BodyFollows, NeverSplit, Quiet, BodyRan, Serene, Reactor.G, L;
      ghost var start := Now();
      var saved;
      ghost var events;
      r, events, saved := RunInside(n, guide);
      ghost var end, waiting := Now(), pendingJobs;
      LaneCells();
      if r.Done? {
        BodyRanFollows(n, body[n], events, CleanupsOf(start.lane, n), CleanupsOf(end.lane, n), old(deeds), deeds);
      }
      EndTracked(n, events, saved, r.Done?, guide);
      LaneCells();
      JobsGrow(Taken(deeds), waiting, pendingJobs);
      EndedContinues(start, end, Now(), running, r.Done?);
      if r.Panic? {
        ReportedLater(r.cause, old(deeds), old(deeds), deeds, deeds, end, Now());
      }
    }

    /** Enters the tracking scope of the body and runs the body. */
    method RunInside(n: NodeId, ghost guide: Guide) returns (r: Outcome<()>, ghost events: seq<ReadEvent>, saved: nat)
      requires Valid() && n in running && n !in Busy(reactor.frames) && flushDepth > 0
      modifies this, reactor
      ensures Valid() && running == old(running) && disposed == old(disposed) && flushDepth == old(flushDepth) && InBodyOf(n) && n in body
      ensures reactor.frames == Push(Computing(n), old(reactor.frames)) && saved == old(reactor.untracked)
      ensures Continued(old(Now()).(frames := reactor.frames, untracked := 0), Now(), running - {n}, r.Done?)
      ensures r.Panic? ==> Reported(r.cause, old(deeds), deeds, Now())
      ensures Quiet(old(deeds), deeds, running + disposed - {n}, flushDepth)
      ensures r.Done? ==> EventsKept(reactor.E(), reactor.past.hist, n, events, n in reactor.superseded)
      ensures r.Done? && NeverSplit(body[n]) ==> n !in reactor.superseded
      ensures r.Done? ==> BodyRan(n, body[n], [], events, CleanupsOf(old(L()), n), CleanupsOf(L(), n), old(deeds), deeds)
      ensures old(Serenely(guide, {})) ==> r.Done? && Serenely(guide, {}) && settled == old(settled)
      decreases Tokens(), 3, 0
    {
      hide Inv, Framed, LaneInv, Churns, Spares, Sparing, Counted, OnStack, Stack, Busy, Tokens, Reported, Continued, Accounts, Orderly;
      hide EventsKept, BodyScoped, UpToDate, Quiet, BodyRan, BodyEntered, InBody, EdgesCleared, Serene, CalmBody, Reactor.G, L;
      ghost var start := Now();
      saved := EnterTracked(n, guide);
      LaneCells();
      ghost var inside := Now();
      EnteredContinues(start, inside, n, running - {n});
      SereneBody(reactor.G(), L(), Tokens(), guide, n);
      r, events := RunBody(n, body[n], [], [], Seen({}, {}), guide);
      ContinuedTransitive(start.(frames := inside.frames, untracked := 0), inside, Now(), running - {n}, true, r.Done?);
      ContinuedFacts(inside, Now(), running - {n}, r.Done?);
      LaneCells();
      assert [] + events == events;
    }

    /** The tracking scope and the window close, whether the body ran to its end or unwound. */
    method EndTracked(n: NodeId, ghost events: seq<ReadEvent>, saved: nat, done: bool, ghost guide: Guide)
      requires Valid() && reactor.frames.Push? && reactor.frames.top == Computing(n) && flushDepth > 0 && n in body
      requires done ==> BodyFollows(body[n], [], events) && EventsKept(reactor.E(), reactor.past.hist, n, events, n in reactor.superseded)
      requires done && NeverSplit(body[n]) ==> n !in reactor.superseded
      modifies `running, `tainted, `rerunAfterCurrent, `scheduled, `queuedEffects, `pendingJobs, `flushScheduled, reactor
      ensures Valid() && running == old(running) - {n} && n !in reactor.past.exempt
      ensures reactor.frames == old(reactor.frames).below && reactor.untracked == saved && reactor.program == old(reactor.program)
      ensures if done then tainted == old(tainted) - {n} && n !in rerunAfterCurrent else n in tainted
      ensures done ==> n in reactor.past.log && reactor.past.log[n] == events
      ensures Spares(old(reactor.G()), reactor.G()) && Churns(old(reactor.G()), old(L()), reactor.G(), L(), running)
      ensures CleanupsOf(L(), n) == CleanupsOf(old(L()), n)
      ensures done && old(Serenely(guide, {})) ==> Serenely(guide, {})
      ensures old(pendingJobs) <= pendingJobs
    {
      hide Inv, Framed, LaneInv, Churns, Spares, Counted, OnStack, Stack, Busy, Accounts, Orderly, EventsKept, BodyFollows, NeverSplit, Serene, BodyLeft, BodyUnwound, Closed;
      if done {
        ClosedFacts(L(), n);
        LeaveTracked(n, events, saved, guide);
      } else {
        UnwindTracked(n, saved);
      }
    }

    method EnterTracked(n: NodeId, ghost guide: Guide := OldestFirst()) returns (saved: nat)
      requires Valid() && n in running && n !in Busy(reactor.frames) && flushDepth > 0
      modifies reactor
      ensures Valid() && InBodyOf(n) && n in body && BodyScoped(body[n], reactor.G())
      ensures EventsKept(reactor.E(), reactor.past.hist, n, [], n in reactor.superseded) && UpToDate(reactor.G(), L(), n, Seen({}, {}))
      ensures reactor.frames == Push(Computing(n), old(reactor.frames)) && saved == old(reactor.untracked)
      ensures reactor.G() == BodyEntered(old(reactor.G()), reactor.E(), n) && EdgesCleared(old(reactor.E()), reactor.E(), n)
      ensures L() == InBody(old(L()), n)
      ensures Spares(old(reactor.G()), reactor.G())
      ensures Churns(old(reactor.G()), old(L()), reactor.G(), L(), running - {n}) && CleanupsOf(L(), n) == CleanupsOf(old(L()), n)
      ensures reactor.program == old(reactor.program)
      ensures old(Serenely(guide, {})) ==> Serenely(guide, {})
    {
      hide Inv, Framed, LaneInv, Churns, Spares, Sparing, Counted, OnStack, Stack, Busy, Budgeted, Gauged, EventsKept, BodyScoped, EdgesCleared, IsEffect, Serene, Tokens;
      ghost var g, fs, l := reactor.G(), reactor.frames, L();
      RunningFacts(g, fs, l, n);
      saved := reactor.EnterBody(n);
      reactor.superseded := reactor.superseded - {n};
      EnterBodyKeeps(g, reactor.E(), fs, l, n);
      EffectNotComputed(g, n);
      BodyIsFresh(g, reactor.E(), l, n, running - {n});
      SparingTransitive(settled, g, reactor.G());
      hide BodyEntered, Kinds;
      SereneOn(g, reactor.G(), l, L(), running - {n}, Tokens(), guide, {});
      BodyOf(reactor.G(), reactor.frames, L(), n);
    }

    /** The body ran to its end. A run owed meanwhile is queued before the window closes. */
    method LeaveTracked(n: NodeId, ghost events: seq<ReadEvent>, saved: nat, ghost guide: Guide := OldestFirst())
      requires Valid() && reactor.frames.Push? && reactor.frames.top == Computing(n) && flushDepth > 0 && n in body
      requires BodyFollows(body[n], [], events) && EventsKept(reactor.E(), reactor.past.hist, n, events, n in reactor.superseded)
      requires NeverSplit(body[n]) ==> n !in reactor.superseded
      modifies `running, `tainted, `rerunAfterCurrent, `scheduled, `queuedEffects, `pendingJobs, `flushScheduled, reactor
      ensures Valid() && L() == Closed(old(L()), n) && n !in rerunAfterCurrent && running == old(running) - {n} && tainted == old(tainted) - {n}
      ensures reactor.frames == old(reactor.frames).below && reactor.untracked == saved && reactor.program == old(reactor.program)
      ensures reactor.G() == BodyLeft(old(reactor.G()), n, events)
      ensures n !in reactor.past.exempt && n in reactor.past.log && reactor.past.log[n] == events
      ensures Spares(old(reactor.G()), reactor.G()) && old(pendingJobs) <= pendingJobs
      ensures Churns(old(reactor.G()), old(L()), reactor.G(), L(), running)
      ensures old(Serenely(guide, {})) ==> Serenely(guide, {})
    {
      hide Inv, Framed, LaneInv, Churns, Spares, Sparing, Counted, OnStack, Stack, Busy, Accounts, Orderly, EventsKept, BodyFollows, IsEffect, NeverSplit, Serene, Tokens, Closed, BodyLeft;
      ghost var g, l := reactor.G(), L();
      Parts({});
      LeaveBody(n, events, saved);
      ghost var left := L();
      Parts({});
      SereneOn(g, reactor.G(), l, left, running - {n}, Tokens(), guide, {});
      TokensUp();
      CloseWindow(n);
      SereneClosed(reactor.G(), left, n, Tokens(), guide);
      ClosedFacts(left, n);
      ClosedFacts(l, n);
      ClosedChurns(reactor.G(), left, n, running);
      ChurnsTransitive(g, l, reactor.G(), left, reactor.G(), L(), running, running, running);
    }

    /** The tracking scope of the body closes. */
    method LeaveBody(n: NodeId, ghost events: seq<ReadEvent>, saved: nat)
      requires Valid() && reactor.frames.Push? && reactor.frames.top == Computing(n) && flushDepth > 0 && n in body
      requires BodyFollows(body[n], [], events) && EventsKept(reactor.E(), reactor.past.hist, n, events, n in reactor.superseded)
      requires NeverSplit(body[n]) ==> n !in reactor.superseded
      modifies `tainted, reactor
      ensures Valid() && L() == old(L()).(tainted := old(tainted) - {n}) && n in running && n !in Busy(reactor.frames)
      ensures reactor.frames == old(reactor.frames).below && reactor.untracked == saved && reactor.program == old(reactor.program)
      ensures reactor.G() == BodyLeft(old(reactor.G()), n, events)
      ensures n !in reactor.past.exempt && n in reactor.past.log && reactor.past.log[n] == events
      ensures Sparing(old(reactor.G()), reactor.G()) && Spares(old(reactor.G()), reactor.G())
      ensures Churns(old(reactor.G()), old(L()), reactor.G(), L(), running - {n})
    {
      hide Inv, Framed, LaneInv, Churns, Spares, Sparing, Counted, OnStack, Stack, Busy, Budgeted, Gauged, EventsKept, BodyFollows, IsEffect, NeverSplit;
      ghost var g, fs, l := reactor.G(), reactor.frames, L();
      RunningBodyFacts(g, fs, l, n);
      reactor.LeaveBody(n, events, saved);
      tainted := tainted - {n};
      LeaveBodyKeeps(g, fs, l, n, events);
      EffectNotComputed(g, n);
      LeavingIsStep(g, l, n, events);
      LeftCells(g, n, events);
      StepChurns(g, l, reactor.G(), L(), n, running - {n});
      SparingTransitive(settled, g, reactor.G());
    }

    method CloseWindow(n: NodeId)
      requires Valid() && n in running && n !in Busy(reactor.frames) && n !in reactor.past.exempt && flushDepth > 0 && n !in tainted
      modifies `running, `rerunAfterCurrent, `scheduled, `queuedEffects, `pendingJobs, `flushScheduled
      ensures Valid() && n !in rerunAfterCurrent && L() == Closed(old(L()), n) && old(pendingJobs) <= pendingJobs
    {
      hide Inv, Framed, LaneInv, Counted, OnStack, Stack, Busy, Accounts, Orderly;
      ghost var l := L();
      Parts({});
      NotDisposed(reactor.G(), reactor.frames, L(), n);
      if n in rerunAfterCurrent {
        QueueRerun(n);
      }
      Parts({});
      CloseWindowKeeps(reactor.G(), reactor.frames, L(), n);
      assert tainted - {n} == tainted;
      CloseRun(n);
      Whole({});
    }

    /** The run owed is queued. */
    method QueueRerun(n: NodeId)
      requires Valid() && n in running && flushDepth > 0
      modifies `rerunAfterCurrent, `scheduled, `queuedEffects, `pendingJobs, `flushScheduled
      ensures Valid() && L() == Latched(old(L()), n).(rerun := old(rerunAfterCurrent) - {n}) && old(pendingJobs) <= pendingJobs
    {
      hide Inv, Framed, LaneInv, Counted, OnStack, Stack, Busy, Budgeted, Kinds, Sparing;
      RerunKeeps(reactor.G(), reactor.frames, L(), n);
      rerunAfterCurrent := rerunAfterCurrent - {n};
      Schedule(n);
    }

    method CloseRun(n: NodeId)
      requires Accounts() && flushDepth > 0
      modifies `running
      ensures Accounts() && running == old(running) - {n}
    {
      hide Budgeted, Kinds, Sparing;
      running := running - {n};
    }

    /** The body unwound: the window closes, and what the run had begun stays as it is. */
    method UnwindTracked(n: NodeId, saved: nat)
      requires Valid() && reactor.frames.Push? && reactor.frames.top == Computing(n) && flushDepth > 0
      modifies `running, `tainted, reactor
      ensures Valid() && running == old(running) - {n}
      ensures reactor.frames == old(reactor.frames).below && reactor.untracked == saved && reactor.program == old(reactor.program)
      ensures reactor.G() == BodyUnwound(old(reactor.G()), n) && L() == old(L()).(running := running, tainted := old(tainted) + {n})
      ensures n !in reactor.past.exempt
      ensures Spares(old(reactor.G()), reactor.G())
      ensures Churns(old(reactor.G()), old(L()), reactor.G(), L(), running)
    {
      hide Inv, Framed, LaneInv, Churns, Spares, Sparing, Counted, OnStack, Stack, Busy, Budgeted, IsEffect;
      ghost var g, fs, l := reactor.G(), reactor.frames, L();
      RunningBodyFacts(g, fs, l, n);
      reactor.UnwindBody(n, saved);
      running, tainted := running - {n}, tainted + {n};
      UnwindBodyKeeps(g, fs, l, n);
      EffectNotComputed(g, n);
      UnwindingIsStep(g, l, n);
      StepChurns(g, l, reactor.G(), L(), n, running);
      SparingTransitive(settled, g, reactor.G());
    }

    /** Runs one cleanup: it may write sources, flush and panic. */
    method RunCleanup(c: Cleanup, ghost n: NodeId) returns (r: Outcome<()>)
      requires Valid() && CleanupScoped(c, reactor.G()) && n in running + disposed
      modifies this, reactor
      ensures Valid() && running == old(running) && disposed == old(disposed) && flushDepth == old(flushDepth) && Continued(old(Now()), Now(), running, r.Done?)
      ensures r.Panic? ==> Reported(r.cause, old(deeds), deeds, Now())
      ensures Quiet(old(deeds), deeds, running + disposed - {n}, flushDepth) && Beginning(old(deeds), deeds, n, [c])
      ensures r.Done? ==> Did(old(deeds), deeds, n, [Began(c)] + CleanupSteps(c))
      ensures Throws(c) ==> r.Panic?
      ensures Effectless(c) ==> Now() == old(Now())
      ensures c == [] ==> r.Done? && settled == old(settled)
      decreases Tokens(), 2
    {
      hide Inv, Framed, LaneInv, Churns, Spares, Sparing, Counted, OnStack, Stack, Busy, Tokens, Accounts, Orderly, Continued, Reported, Quiet, Did, Beginning, CleaningUp, CleanupSteps;
      hide Reactor.G, L;
      ghost var start := Now();
      ContinuedReflexive(start, running, true);
      ghost var held := running + disposed;
      CleanupStarts(deeds, n, c, held, flushDepth);
      Note(n, Began(c), held);
      var i := 0;
      while i < |c|
        invariant 0 <= i <= |c| && Valid() && running == old(running) && Continued(start, Now(), running, true)
        invariant flushDepth == old(flushDepth) && disposed == old(disposed) && CleaningUp(old(deeds), deeds, n, c, i) && Quiet(old(deeds), deeds, held - {n}, flushDepth)
        invariant CleanupThrow !in c[..i] && (i == 0 ==> Now() == start && settled == old(settled))
      {
        ghost var mid, done := Now(), deeds;
        ContinuedFacts(start, mid, running, true);
        CleanupStillScoped(start, mid, running, c, i);
        r := DoCleanupStep(c[i], n);
        CleanupGoesOn(old(deeds), done, deeds, n, c, i, held, flushDepth);
        ContinuedTransitive(start, mid, Now(), running, true, r.Done?);
        if r.Panic? {
          CleanupBegan(old(deeds), deeds, n, c, i + 1);
          ReportedSince(r.cause, old(deeds), done, deeds, held - {n}, Now(), flushDepth);
          return;
        }
        i := i + 1;
      }
      CleanupBegan(old(deeds), deeds, n, c, |c|);
      r := Done(());
    }

    /** One step of a cleanup. */
    method DoCleanupStep(step: CleanupStep, ghost n: NodeId) returns (r: Outcome<()>)
      requires Valid() && (step.CleanupWrite? ==> IsSignal(reactor.G(), step.node)) && n in running + disposed
      modifies this, reactor
      ensures Valid() && running == old(running) && disposed == old(disposed) && flushDepth == old(flushDepth) && Continued(old(Now()), Now(), running, r.Done?)
      ensures Did(old(deeds), deeds, n, [Doing(step)]) && Quiet(old(deeds), deeds, running + disposed - {n}, flushDepth)
      ensures r.Panic? ==> Reported(r.cause, old(deeds), deeds, Now())
      ensures step.CleanupThrow? ==> r.Panic? && Now() == old(Now())
      decreases Tokens(), 1, 2
    {
      hide Inv, Framed, LaneInv, Churns, Spares, Sparing, Counted, OnStack, Stack, Busy, Tokens, Accounts, Orderly, Continued, Reported, Quiet, Did, IsSignal;
      hide Reactor.G, L;
      ghost var start, held := Now(), running + disposed;
      if step.CleanupWrite? {
        OneDeed(deeds, n, Doing(step), held, flushDepth);
        WriteSignal(step.node, step.value, step.forced, Some(n));
        r := Done(());
      } else if step.CleanupThrow? {
        Note(n, Threw, held);
        ContinuedReflexive(start, running, false);
        ThrownReported(old(deeds), old(deeds), deeds, Now());
        r := Panic(Thrown);
      } else {
        r := FlushJobs(Some(n));
        ContinuedFacts(start, Now(), running, r.Done?);
        FlushDeed(old(deeds), deeds, n, held, flushDepth);
      }
    }

    /** Teardown before a run: every cleanup runs, latest first, untracked; the first panic is kept and
        raised at the end. */
    method TearDown(list: seq<Cleanup>, ghost n: NodeId) returns (r: Outcome<()>, ghost ends: seq<Outcome<()>>)
      requires Valid() && forall i :: 0 <= i < |list| ==> CleanupScoped(list[i], reactor.G())
      requires n in running + disposed
      modifies this, reactor
      ensures Valid() && running == old(running) && disposed == old(disposed) && flushDepth == old(flushDepth) && Continued(old(Now()), Now(), running, r.Done?)
      ensures r.Panic? ==> Reported(r.cause, old(deeds), deeds, Now())
      ensures Quiet(old(deeds), deeds, running + disposed - {n}, flushDepth) && Beginning(old(deeds), deeds, n, LatestFirst(list))
      ensures r.Done? ==> Did(old(deeds), deeds, n, TeardownSteps(list))
      ensures Ended(list, ends) && FirstOf(ends) == if r.Panic? then Some(r.cause) else None
      ensures list == [] ==> r.Done? && deeds == old(deeds) && unchanged(`lastDrainEpoch, `runsThisDrain, `drainEpoch)
      ensures (forall i :: 0 <= i < |list| ==> Effectless(list[i])) ==> Now() == old(Now())
      ensures CalmList(list) ==> r.Done? && Now() == old(Now()) && settled == old(settled)
      ensures (exists i :: 0 <= i < |list| && Throws(list[i])) ==> r.Panic?
      decreases Tokens(), 4
    {
      hide Inv, Framed, LaneInv, Churns, Spares, Sparing, Counted, OnStack, Stack, Busy, Tokens, Accounts, Orderly, Continued, Reported, Quiet, Did, Beginning, TeardownSteps, LatestFirst, Throws, Ended, FirstOf, Effectless, CleanupScoped;
      hide Reactor.G, L;
      ghost var before := Now();
      EnterUntracked();
      ghost var start := Now();
      var first;
      first, ends := RunCleanups(list, n);
      ghost var end := Now();
      ContinuedFacts(start, end, running, first.None?);
      CalmIsEffectless(list);
      LeaveUntracked();
      UntrackedContinues(before, start, end, Now(), running, first.None?);
      if first.Some? {
        ReportedLater(first.value, old(deeds), old(deeds), deeds, deeds, end, Now());
      }
      r := if first.Some? then Panic(first.value) else Done(());
    }

    /** Runs cleanups, latest first, each whatever became of the others. */
    method RunCleanups(list: seq<Cleanup>, ghost n: NodeId) returns (first: Option<PanicCause>, ghost ends: seq<Outcome<()>>)
      requires Valid() && forall i :: 0 <= i < |list| ==> CleanupScoped(list[i], reactor.G())
      requires n in running + disposed
      modifies this, reactor
      ensures Valid() && running == old(running) && disposed == old(disposed) && flushDepth == old(flushDepth) && Continued(old(Now()), Now(), running, first.None?)
      ensures first.Some? ==> Reported(first.value, old(deeds), deeds, Now())
      ensures Quiet(old(deeds), deeds, running + disposed - {n}, flushDepth) && Beginning(old(deeds), deeds, n, LatestFirst(list))
      ensures first.None? ==> Did(old(deeds), deeds, n, TeardownSteps(list))
      ensures Ended(list, ends) && first == FirstOf(ends)
      ensures list == [] ==> first.None? && deeds == old(deeds) && unchanged(`lastDrainEpoch, `runsThisDrain, `drainEpoch)
      ensures (forall i :: 0 <= i < |list| ==> Effectless(list[i])) ==> Now() == old(Now())
      ensures CalmList(list) ==> first.None? && settled == old(settled)
      ensures (exists i :: 0 <= i < |list| && Throws(list[i])) ==> first.Some?
      decreases Tokens(), 3
    {
      hide Inv, Framed, LaneInv, Churns, Spares, Sparing, Counted, OnStack, Stack, Busy, Tokens, Accounts, Orderly, Continued, Reported, Quiet, Did, Beginning, TearingDown, CleanupSteps, Throws, EndedFrom, FirstOf, Effectless, CleanupScoped;
      hide Reactor.G, L;
      ghost var start := Now();
      ContinuedReflexive(start, running, true);
      ghost var held, steps: seq<Step>, begun: seq<Cleanup> := running + disposed, [], [];
      TeardownStarts(deeds, n, list);
      QuietReflexive(deeds, held - {n}, flushDepth);
      var i := |list|;
      first, ends := None, [];
      NoneEnded(list);
      while i > 0
        invariant 0 <= i <= |list| && Valid() && running == old(running) && Continued(start, Now(), running, first.None?)
        invariant flushDepth == old(flushDepth) && disposed == old(disposed) && Quiet(old(deeds), deeds, held - {n}, flushDepth)
        invariant TearingDown(list, i, steps, begun) && Beginning(old(deeds), deeds, n, begun)
        invariant first.None? ==> Did(old(deeds), deeds, n, steps)
        invariant i == |list| ==> deeds == old(deeds) && first.None?
        invariant i == |list| ==> lastDrainEpoch == old(lastDrainEpoch) && runsThisDrain == old(runsThisDrain) && drainEpoch == old(drainEpoch)
        invariant EndedFrom(list, i, ends) && first == FirstOf(ends)
        invariant (forall j :: i <= j < |list| ==> Effectless(list[j])) ==> Now() == start
        invariant CalmList(list) ==> first.None? && settled == old(settled)
        invariant first.None? ==> forall j :: i <= j < |list| ==> !Throws(list[j])
        invariant first.Some? ==> Reported(first.value, old(deeds), deeds, Now())
      {
        i := i - 1;
        ghost var mid, done := Now(), deeds;
        ContinuedFacts(start, mid, running, first.None?);
        CleanupScopedLater(start, mid, running, first.None?, list[i]);
        var one := RunCleanup(list[i], n);
        TeardownGoesOn(old(deeds), done, deeds, n, list, i, steps, begun);
        QuietTransitive(old(deeds), done, deeds, held - {n}, flushDepth);
        steps, begun := steps + ([Began(list[i])] + CleanupSteps(list[i])), begun + [list[i]];
        ContinuedTransitive(start, mid, Now(), running, first.None?, one.Done?);
        FirstReported(first, one, old(deeds), done, deeds, held - {n}, mid, Now(), running, flushDepth);
        OneEnded(list, i, ends, one);
        first, ends := FirstPanic(first, one), ends + [one];
      }
      TeardownEnds(list, steps, begun);
    }

    method EnterUntracked()
      requires Valid()
      modifies reactor`untracked
      ensures Valid() && Now() == old(Now()).(untracked := old(reactor.untracked) + 1)
    {
      hide Inv, Framed, LaneInv, Counted, Gauged, Budgeted, Kinds, Sparing, OnStack, Stack, Tokens;
      reactor.untracked := reactor.untracked + 1;
    }

    method LeaveUntracked()
      requires Valid()
      modifies reactor`untracked
      ensures Valid() && Now() == old(Now()).(untracked := Saturating(old(reactor.untracked), 1))
    {
      hide Inv, Framed, LaneInv, Counted, Gauged, Budgeted, Kinds, Sparing, OnStack, Stack, Tokens;
      reactor.untracked := Saturating(reactor.untracked, 1);
    }

    /** One read made by the body of `n`. */
    method ReadInBody(n: NodeId, d: NodeId, tracked: bool, ghost prior: seq<ReadEvent>, ghost guide: Guide := OldestFirst(), ghost seen: Seen := Seen({}, {})) returns (r: Outcome<Value>, ghost event: ReadEvent)
      requires Valid() && InBodyOf(n) && d in Readable(reactor.meta)
      requires EventsKept(reactor.E(), reactor.past.hist, n, prior, n in reactor.superseded)
      modifies reactor, `settled
      ensures Valid() && Continued(old(Now()), Now(), running - {n}, r.Done?)
      ensures CleanupsOf(L(), n) == CleanupsOf(old(L()), n)
      ensures r.Panic? ==> Circular(r.cause, reactor.program)
      ensures r.Done? ==> Sparing(old(reactor.G()), reactor.G())
      ensures r.Done? ==> event.node == d && event.tracked == tracked && event.value == r.value
      ensures r.Done? ==> EventsKept(reactor.E(), reactor.past.hist, n, prior + [event], n in reactor.superseded)
      ensures r.Done? && (tracked ==> d !in seen.early) && UpToDate(old(reactor.G()), old(L()), n, seen) ==>
                UpToDate(reactor.G(), L(), n, AfterRead(seen, d, tracked))
      ensures r.Done? && tracked ==> ReadRecorded(old(reactor.E()), reactor.E(), n, d, Ver(reactor.G(), d))
      ensures forall st :: InState(old(reactor.G()), n, st) ==> InState(reactor.G(), n, st)
      ensures r.Done? ==> Fresh(reactor.G(), d) && InCache(reactor.G(), d, r.value) && event.version == Ver(reactor.G(), d)
      ensures Lazily(old(reactor.G()), reactor.G(), d)
      ensures Guided(old(reactor.G()), guide) && guide.reach(d) ==> r.Done?
      ensures Trapped(old(reactor.G()), guide) ==> Trapped(reactor.G(), guide) && (d in guide.trap ==> r.Panic?)
      ensures settled == if r.Done? then old(settled) else reactor.G()
      ensures WorldOf(reactor.G()) == WorldOf(old(reactor.G())) && running == old(running) && InBodyOf(n)
    {
      hide Inv, Framed, LaneInv, Churns, Spares, Sparing, Counted, OnStack, Stack, Gauged, Budgeted, Tokens, Evolves, Layered, Fresh, EventsKept;
      hide ReadRecorded, Supersedes, Told, Reportable, MayRead, Guided, Trapped, Under, Readable, Busy, UpToDate, Orderly, Reactor.Valid, EffectKinds, WorldOf, Lazily;
      Parts({});
      reactor.Parts();
      ghost var g, fs, l, open := reactor.G(), reactor.frames, L(), if tracked then {n} else {};
      BodyReadFacts(g, fs, l, n, d);
      r := reactor.ReadInside(n, d, tracked, Best(reactor.program, guide));
      reactor.Parts();
      if r.Panic? {
        Circulates(g, fs, l, {}, d, r.cause);
      }
      ReadForesight(g, reactor.G(), fs, d, guide);
      event := ReadEvent(d, reactor.Version(d), if r.Done? then r.value else 0, tracked);
      BodyRead(g, fs, l, reactor.G(), L(), open, r.Done?, n, event, prior, seen);
      ReaderKeepsState(g, reactor.G(), Busy(fs), open, r.Done?, n);
      WorldKept(g, reactor.G(), Busy(fs), open, r.Done?);
      Resettle(g, r.Done?);
      Whole({});
    }

    /** The body of `n` is what is running now. */
    ghost predicate InBodyOf(n: NodeId)
      reads this, reactor
    {
      reactor.frames.Push? && reactor.frames.top == Computing(n) && reactor.untracked == 0 && flushDepth > 0
    }

    /** Runs the rest `b` of the body of `n`, having read `env`; `prior` are the reads made before. */
    method RunBody(n: NodeId, b: Body, env: seq<Value>, ghost prior: seq<ReadEvent>, ghost seen: Seen, ghost guide: Guide)
      returns (r: Outcome<()>, ghost events: seq<ReadEvent>)
      requires Valid() && InBodyOf(n) && BodyScoped(b, reactor.G())
      requires EventsKept(reactor.E(), reactor.past.hist, n, prior, n in reactor.superseded)
      modifies this, reactor
      ensures Valid() && running == old(running) && disposed == old(disposed) && flushDepth == old(flushDepth) && Continued(old(Now()), Now(), running - {n}, r.Done?)
      ensures r.Panic? ==> Reported(r.cause, old(deeds), deeds, Now())
      ensures r.Done? ==> EventsKept(reactor.E(), reactor.past.hist, n, prior + events, n in reactor.superseded)
      ensures r.Done? ==> BodyRan(n, b, env, events, CleanupsOf(old(L()), n), CleanupsOf(L(), n), old(deeds), deeds)
      ensures Quiet(old(deeds), deeds, running + disposed - {n}, flushDepth)
      ensures r.Done? && ReadsApart(b, seen) && UpToDate(old(reactor.G()), old(L()), n, seen) ==> n !in reactor.superseded
      ensures CalmBody(b) && old(Serenely(guide, {})) ==> r.Done? && Serenely(guide, {}) && settled == old(settled)
      decreases Tokens(), 2, b
    {
      hide Inv, Framed, LaneInv, Churns, Spares, Sparing, Counted, OnStack, Stack, Tokens, EventsKept, Busy, Readable, Reported, Circular;
      hide IsSignal, CleanupScoped, Continued, Accounts, Orderly, CleanupsOf, UpToDate, InCache, Fresh, WorldOf, Quiet, Did, BodyRan, AfterRead, AfterStep, Serene;
      ghost var start, held, others := Now(), running - {n}, running + disposed - {n};
      QuietReflexive(deeds, others, flushDepth);
      ContinuedReflexive(start, held, true);
      UpToDateReads(start.graph, start.lane, n, seen);
      events := [];
      if b.Finish? {
        assert prior + [] == prior;
        RanToEnd(n, b, env, CleanupsOf(L(), n), deeds);
        r := Done(());
      } else if b.Choose? {
        if b.test(env) {
          r, events := RunBody(n, b.yes, env, prior, seen, guide);
        } else {
          r, events := RunBody(n, b.no, env, prior, seen, guide);
        }
        if r.Done? {
          RanChoice(n, b, env, events, CleanupsOf(start.lane, n), CleanupsOf(L(), n), old(deeds), deeds);
        }
      } else if b.ReadNode? {
        var read, event := ReadForBody(n, b.node, b.tracked, prior, seen, guide);
        ghost var mid := Now();
        if read.Panic? {
          CycleReported(read.cause, deeds, Now());
          return Panic(read.cause), [];
        }
        ContinuedFacts(start, mid, held, true);
        BodyStillScoped(start, mid, held, b.rest);
        ghost var later;
        r, later := RunBody(n, b.rest, env + [read.value], prior + [event], AfterRead(seen, b.node, b.tracked), guide);
        ContinuedTransitive(start, mid, Now(), held, true, r.Done?);
        events := [event] + later;
        assert prior + [event] + later == prior + events;
        if r.Done? {
          RanRead(n, b, env, event, later, CleanupsOf(start.lane, n), CleanupsOf(L(), n), old(deeds), deeds);
        }
      } else if b.Throw? {
        Note(n, Threw, running + disposed);
        ContinuedFewer(start, Now(), held, held, true, false);
        ThrownReported(old(deeds), old(deeds), deeds, Now());
        return Panic(Thrown), [];
      } else {
        var step := BodyStep(n, b, env, prior, seen, guide);
        ghost var mid, done := Now(), deeds;
        if step.Panic? {
          return Panic(step.cause), [];
        }
        ContinuedFacts(start, mid, held, true);
        BodyStillScoped(start, mid, held, b.rest);
        r, events := RunBody(n, b.rest, env, prior, AfterStep(seen, b), guide);
        QuietTransitive(old(deeds), done, deeds, others, flushDepth);
        if r.Done? {
          RanStep(n, b, env, events, CleanupsOf(start.lane, n), CleanupsOf(mid.lane, n), CleanupsOf(L(), n), old(deeds), done, deeds);
        } else {
          ReportedSince(r.cause, old(deeds), done, deeds, others, Now(), flushDepth);
        }
        ContinuedTransitive(start, mid, Now(), held, true, r.Done?);
      }
    }

    /** A read by the body of `n`: where every read is foreseen to return it does, and they stay foreseen. */
    method ReadForBody(n: NodeId, d: NodeId, tracked: bool, ghost prior: seq<ReadEvent>, ghost seen: Seen, ghost guide: Guide)
      returns (r: Outcome<Value>, ghost event: ReadEvent)
      requires Valid() && InBodyOf(n) && d in Readable(reactor.meta)
      requires EventsKept(reactor.E(), reactor.past.hist, n, prior, n in reactor.superseded)
      modifies reactor, `settled
      ensures Valid() && Continued(old(Now()), Now(), running - {n}, r.Done?) && InBodyOf(n)
      ensures CleanupsOf(L(), n) == CleanupsOf(old(L()), n)
      ensures r.Panic? ==> Circular(r.cause, reactor.program)
      ensures r.Done? ==> event.node == d && event.tracked == tracked && event.value == r.value
      ensures r.Done? ==> InCache(reactor.G(), d, r.value) && event.version == Ver(reactor.G(), d)
      ensures r.Done? ==> EventsKept(reactor.E(), reactor.past.hist, n, prior + [event], n in reactor.superseded)
      ensures r.Done? && (tracked ==> d !in seen.early) && UpToDate(old(reactor.G()), old(L()), n, seen) ==>
                UpToDate(reactor.G(), L(), n, AfterRead(seen, d, tracked))
      ensures Lazily(old(reactor.G()), reactor.G(), d)
      ensures old(Serenely(guide, {})) ==> r.Done? && Serenely(guide, {}) && settled == old(settled)
    {
      hide Inv, Framed, LaneInv, Churns, Spares, Sparing, Counted, OnStack, Stack, Tokens, EventsKept, Busy, Readable, Circular;
      hide Continued, Accounts, Orderly, CleanupsOf, UpToDate, InCache, Fresh, WorldOf, AfterRead, Serene, Guided, Trapped, ReadRecorded, Lazily;
      ghost var start := Now();
      Parts({});
      SereneReads(reactor.G(), L(), Tokens(), guide, d);
      r, event := ReadInBody(n, d, tracked, prior, guide, seen);
      Parts({});
      if r.Done? {
        SereneSpan(start, Now(), running - {n}, guide, {});
      }
    }

    /** A step of the body of `n` that reads nothing: a write, a nested flush, or registering a
        cleanup. */
    method BodyStep(n: NodeId, b: Body, env: seq<Value>, ghost prior: seq<ReadEvent>, ghost seen: Seen, ghost guide: Guide) returns (r: Outcome<()>)
      requires Valid() && InBodyOf(n) && BodyScoped(b, reactor.G()) && (b.Write? || b.FlushNow? || b.OnCleanup?)
      requires EventsKept(reactor.E(), reactor.past.hist, n, prior, n in reactor.superseded)
      modifies this, reactor
      ensures Valid() && running == old(running) && disposed == old(disposed) && flushDepth == old(flushDepth) && Continued(old(Now()), Now(), running - {n}, r.Done?)
      ensures r.Panic? ==> Reported(r.cause, old(deeds), deeds, Now())
      ensures r.Done? ==> EventsKept(reactor.E(), reactor.past.hist, n, prior, n in reactor.superseded)
      ensures r.Done? ==> CleanupsOf(L(), n) == CleanupsOf(old(L()), n) + if b.OnCleanup? then [b.cleanup] else []
      ensures r.Done? && UpToDate(old(reactor.G()), old(L()), n, seen) ==> UpToDate(reactor.G(), L(), n, AfterStep(seen, b))
      ensures Quiet(old(deeds), deeds, running + disposed - {n}, flushDepth) && (r.Done? ==> Did(old(deeds), deeds, n, OwnSteps(b, env)))
      ensures CalmBody(b) && old(Serenely(guide, {})) ==> r.Done? && Serenely(guide, {}) && settled == old(settled)
      decreases Tokens(), 1, 1
    {
      hide Inv, Framed, LaneInv, Churns, Spares, Sparing, Counted, OnStack, Stack, Tokens, EventsKept, Busy, Reported;
      hide IsSignal, CleanupScoped, Continued, Accounts, Orderly, CleanupsOf, Quiet, Did, UpToDate, Serene;
      ghost var start := Now();
      Parts({});
      BodyReadFacts(reactor.G(), reactor.frames, L(), n, n);
      if b.OnCleanup? {
        QuietReflexive(deeds, running + disposed - {n}, flushDepth);
        DidNothing(deeds, n);
        SereneRegistered(reactor.G(), L(), n, b.cleanup, Tokens(), guide);
        AddCleanup(n, b.cleanup);
        UpToDateElsewhere(start.graph, start.lane, L(), n, seen);
        return Done(());
      }
      if b.Write? {
        OneDeed(deeds, n, OwnSteps(b, env)[0], running + disposed, flushDepth);
        WriteSignal(b.node, b.value(env), b.forced, Some(n));
        r := Done(());
      } else {
        r := FlushJobs(Some(n));
        ContinuedFacts(start, Now(), running, r.Done?);
        FlushDeed(old(deeds), deeds, n, running + disposed, flushDepth);
        if r.Panic? {
          ContinuedFewer(start, Now(), running, running - {n}, false, false);
          return;
        }
      }
      AfterInterruption(start, Now(), n, prior);
      InterruptedUpToDate(start, Now(), n, seen);
    }

    method AddCleanup(n: NodeId, c: Cleanup)
      requires Valid() && CleanupScoped(c, reactor.G())
      modifies `cleanups
      ensures Valid() && CleanupsOf(L(), n) == CleanupsOf(old(L()), n) + [c]
      ensures cleanups == old(cleanups)[n := CleanupsOf(old(L()), n) + [c]]
      ensures reactor.G() == old(reactor.G()) && Continued(old(Now()), Now(), running - {n}, true)
    {
      hide Inv, Framed, LaneInv, Counted, OnStack, Stack, Gauged, Budgeted, Tokens, CleanupScoped, Sparing;
      ghost var g, l := reactor.G(), L();
      RegisteredScoped(g, reactor.frames, l, n, c);
      var list := if n in cleanups then cleanups[n] else [];
      assert list == CleanupsOf(l, n);
      CleanupsKeep(g, reactor.frames, l, n, list + [c]);
      cleanups := cleanups[n := list + [c]];
      StepChurns(g, l, g, L(), n, running - {n});
    }

    // ------------------------------------------------------------------- the host's operations

    /** Outside any flush nothing is running. */
    lemma Idle()
      requires Valid() && flushDepth == 0
      ensures reactor.frames == Bottom && running == {} && reactor.active == {}
    {
      hide Inv, Framed, Counted, Sparing;
      EffectFramesOnStack(reactor.G(), reactor.frames, running);
    }

    /** Reads a node from outside any computation: the value is the one from-scratch evaluation gives
        over the current sources, and closures ran only as far as `Evolves` allows. */
    method ReadNode(n: NodeId, ghost guide: Guide := OldestFirst()) returns (r: Outcome<Value>)
      requires Valid() && flushDepth == 0 && n in Readable(reactor.meta)
      modifies reactor, `settled
      ensures Valid() && L() == old(L()) && WorldOf(reactor.G()) == WorldOf(old(reactor.G()))
      ensures r.Done? ==> Fresh(reactor.G(), n) && InCache(reactor.G(), n, r.value)
      ensures r.Done? ==> forall cone :: n in cone && TrackedCone(reactor.G(), cone) ==> Evaluates(WorldOf(old(reactor.G())), n, r.value)
      ensures r.Done? && AllClosuresTracked(reactor.program) ==> Evaluates(WorldOf(old(reactor.G())), n, r.value)
      ensures r.Panic? ==> Circular(r.cause, reactor.program) && Told(old(reactor.G()), [], n, r.cause.path)
      ensures Lazily(old(reactor.G()), reactor.G(), n)
      ensures Guided(old(reactor.G()), guide) && guide.reach(n) ==> r.Done?
      ensures Trapped(old(reactor.G()), guide) ==> Trapped(reactor.G(), guide) && (n in guide.trap ==> r.Panic?)
      ensures r.Done? ==> Spares(old(reactor.G()), reactor.G())
      ensures settled == if r.Done? then old(settled) else reactor.G()
      ensures Evolves(old(reactor.G()), reactor.G(), {}, {}, r.Done?)
    {
      hide Spares, Sparing, Inv, Framed, LaneInv, Counted, Gauged, Budgeted, Fresh, Evolves, Layered, Readable, TrackedCone, Evaluates, Guided, Trapped, Under, Orderly, Reactor.Valid, EffectKinds, WorldOf, Told, Reportable, Lazily;
      Idle();
      Parts({});
      reactor.Parts();
      ghost var g, l := reactor.G(), L();
      assert reactor.Reader() == {};
      r := reactor.Read(n, Best(reactor.program, guide));
      reactor.Parts();
      ghost var g' := reactor.G();
      if r.Panic? {
        Circulates(g, Bottom, l, {}, n, r.cause);
      }
      ReadForesight(g, g', Bottom, n, guide);
      assert Overwritten(g.edges, {}, r.Done?, n, reactor.Version(n)) == {};
      assert reactor.superseded == l.superseded;
      assert L() == l;
      RefreshKeepsLane(g, Bottom, l, {}, g', l, {}, {}, r.Done?, n);
      EvolvesKinds(g, g', {}, {}, r.Done?);
      KindsAfter(g, g', body.Keys);
      WorldKept(g, g', {}, {}, r.Done?);
      if r.Done? {
        ReadIsFromScratch(g', n);
        EvolvesSpares(g, g', {}, {});
      }
      Resettle(g, r.Done?);
      Whole({});
    }

    /** The outermost flush: when it returns normally, every live effect that has lost nothing is Clean and
        reads only current versions; if its last run did not unwind, its log is that of a complete body. */
    method FlushNow(ghost guide: Guide := OldestFirst()) returns (r: Outcome<()>)
      requires Valid() && flushDepth == 0
      modifies this, reactor
      ensures Valid() && flushDepth == 0 && body == old(body) && reactor.program == old(reactor.program) && (r.Done? ==> tainted <= old(tainted) && Spares(old(reactor.G()), reactor.G()))
      ensures r.Done? && SourcesStill(old(reactor.G()), reactor.G()) ==> forall m :: Computed(old(reactor.G()), m) ==> RanAtMostOnce(old(reactor.G()), reactor.G(), m)
      ensures forall n :: SameKind(old(reactor.G()), reactor.G(), n)
      ensures r.Done? ==> AtRest(reactor.frames, L())
      ensures Taken(old(deeds)) + old(pendingJobs) <= Taken(deeds) + if r.Done? then [] else pendingJobs
      ensures r.Done? ==> forall n :: n in body && n !in disposed && NothingLost(reactor.G(), L(), n) ==>
                InState(reactor.G(), n, Clean) && AllCurrent(reactor.G(), n)
      ensures r.Done? ==> forall n :: n in body && n !in disposed && n !in tainted ==>
                NothingLost(reactor.G(), L(), n) && LoggedAt(reactor.G(), L(), n)
      ensures r.Panic? ==> Reported(r.cause, old(deeds), deeds, Now())
      ensures r.Panic? ==> exists n :: LastTaken(old(deeds), deeds, n, 1) && CutShort(n)
      ensures flushScheduled == (pendingJobs != [])
      ensures r.Panic? && r.cause.Divergence? ==> Spent(r.cause.effect)
      ensures Peaceful(old(reactor.G()), old(L()), guide) ==>
                r.Done? && Peaceful(reactor.G(), L(), guide) && Sparing(old(reactor.G()), reactor.G()) && WorldOf(reactor.G()) == WorldOf(old(reactor.G()))
      ensures Quiet(old(deeds) + [Deed(None, Flushed)], deeds, disposed, flushDepth) && disposed == old(disposed)
      ensures forall n :: n in body ==> EnteredSince(old(deeds), deeds, n) <= MAX_RUNS_PER_DRAIN
    {
      hide Inv, Framed, LaneInv, Counted, Gauged, Budgeted, Kinds, Orderly, Reported, WorldOf, AllCurrent, LoggedAt, Churns, Spares, Tokens, Quiet, EnteredSince, NothingLost, Peaceful, Sparing, Taken, CutShort, LastTaken;
      ghost var before := Now();
      Parts({});
      r := FlushJobs(None, guide);
      Parts({});
      ContinuedFacts(before, Now(), running, r.Done?);
      ContinuedKinds(before, Now(), running, r.Done?);
      ContinuedSpares(before, Now(), running, r.Done?);
      if settled == old(settled) && r.Done? {
        NothingMoved(settled, before, Now(), running);
      }
      Idle();
      assert running + disposed == disposed;
      KnownEffects();
      if r.Done? {
        forall n | n in body && n !in disposed
          ensures NothingLost(reactor.G(), L(), n) ==> InState(reactor.G(), n, Clean) && AllCurrent(reactor.G(), n)
          ensures n !in tainted ==> NothingLost(reactor.G(), L(), n) && LoggedAt(reactor.G(), L(), n)
        {
          QuiescentIsConsistent(reactor.G(), reactor.frames, L(), n);
        }
      }
    }

    method CreateSignal(n: NodeId, v: Value)
      requires Valid() && n !in reactor.meta && n !in disposed
      modifies reactor`meta, reactor`cache, reactor`past, `settled
      ensures Valid() && reactor.G() == WithSignal(old(reactor.G()), n, v) && L() == old(L())
    {
      hide Inv, Framed, LaneInv, Counted, Gauged, Budgeted, Grows, Sparing, Orderly, Reactor.Valid;
      Parts({});
      ghost var g := reactor.G();
      reactor.AddSignal(n, v);
      SignalGrows(g, n, v);
      GrowKeepsInv(g, reactor.G(), {n});
      GrowKeepsLane(g, reactor.frames, L(), reactor.G(), {n});
      Resettle(g, false);
      Whole({});
    }

    /** Creates thunks and memos. */
    method CreateComputed(group: map<NodeId, Closure>)
      requires Valid() && group.Keys !! reactor.meta.Keys && group.Keys !! disposed
      requires forall n :: n in group ==> Scoped(group[n].comp, Readable(reactor.meta) + group.Keys)
      modifies reactor`meta, reactor`program, reactor`state, reactor`past, `settled
      ensures Valid() && reactor.G() == WithComputed(old(reactor.G()), group) && L() == old(L())
    {
      hide Inv, Framed, LaneInv, Counted, Gauged, Budgeted, Grows, Scoped, Readable, WithComputed, EffectKinds, Sparing, Orderly, Reactor.Valid;
      Parts({});
      ghost var g := reactor.G();
      ComputedKinds(g, body.Keys, group);
      reactor.AddComputed(group);
      ComputedGrows(g, group);
      GrowKeepsInv(g, reactor.G(), group.Keys);
      GrowKeepsLane(g, reactor.frames, L(), reactor.G(), group.Keys);
      Resettle(g, false);
      Whole({});
    }

    /** Creates an effect; its first run is queued, not inline. */
    method CreateEffect(n: NodeId, b: Body)
      requires Valid() && n !in reactor.meta && n !in disposed && BodyScoped(b, reactor.G())
      modifies `body, `lastDrainEpoch, `runsThisDrain, `rerunAfterCurrent, `tainted, `scheduled, `queuedEffects, `pendingJobs, `flushScheduled
      modifies reactor`meta, reactor`state, reactor`past, reactor`superseded, `settled
      ensures Valid() && reactor.G() == WithEffect(old(reactor.G()), n) && L() == Born(old(L()), n, b)
    {
      hide Inv, Framed, LaneInv, Counted, BodyScoped, Budgeted, WithEffect, EffectKinds, Gauged, Born, Sparing, Orderly, OnStack, Stack;
      Parts({});
      ghost var g, l := reactor.G(), L();
      EffectGrowsLane(g, reactor.frames, l, n, b);
      KindsBorn(g, body.Keys, n);
      reactor.AddEffect(n);
      Enlist(n, b);
      Resettle(g, false);
      Whole({});
    }

    method Enlist(n: NodeId, b: Body)
      requires Budgeted() && Gauged() && n !in body && n !in disposed
      modifies `body, `lastDrainEpoch, `runsThisDrain, `rerunAfterCurrent, `tainted, reactor`superseded
      modifies `scheduled, `queuedEffects, `pendingJobs, `flushScheduled
      ensures Budgeted() && Gauged() && L() == Born(old(L()), n, b) && body.Keys == old(body.Keys) + {n}
    {
      hide Budgeted, Enrolled, Latched;
      OpenAccount(n, b);
      assert body.Keys == old(body.Keys) + {n};
      Schedule(n);
    }

    /** The cells of a new effect. */
    method OpenAccount(n: NodeId, b: Body)
      requires Budgeted() && n !in body && n !in disposed
      modifies `body, `lastDrainEpoch, `runsThisDrain, `rerunAfterCurrent, `tainted, reactor`superseded
      ensures Budgeted() && body == old(body)[n := b] && L() == Enrolled(old(L()), n, b)
    {
      hide Budgeted;
      reactor.superseded := reactor.superseded - {n};
      OpenLedger(n, b);
      rerunAfterCurrent, tainted := rerunAfterCurrent - {n}, tainted - {n};
    }

    /** A run budget nothing was spent of. */
    method OpenLedger(n: NodeId, b: Body)
      requires Budgeted() && n !in body && n !in disposed
      modifies `body, `lastDrainEpoch, `runsThisDrain
      ensures Budgeted() && body == old(body)[n := b]
    {
      hide EnteredSince;
      assert flushDepth > 0 ==> WithinBudget(n);
      body := body[n := b];
      lastDrainEpoch, runsThisDrain := lastDrainEpoch[n := -1], runsThisDrain[n := 0];
    }

    method CloseAccount(n: NodeId)
      requires Budgeted() && n in body && n in disposed
      modifies `body, `lastDrainEpoch, `runsThisDrain
      ensures Budgeted() && body == old(body) - {n} && Tokens() <= old(Tokens())
    {
      body := body - {n};
      lastDrainEpoch, runsThisDrain := lastDrainEpoch - {n}, runsThisDrain - {n};
    }

    /** Disposes an effect: its pending run is released, its cleanups run, and it is unhooked from the
        graph even if a cleanup unwinds. Runs in progress are not disturbed. */
    method DisposeEffect(n: NodeId) returns (r: Outcome<()>, ghost ends: seq<Outcome<()>>)
      requires Valid() && (n in body || n in disposed) && n !in running
      modifies this, reactor
      ensures Valid() && flushDepth == old(flushDepth) && running == old(running) && reactor.frames == old(reactor.frames)
      ensures disposed == old(disposed) + {n} && Quiet(old(deeds), deeds, running + old(disposed), flushDepth)
      ensures n in old(disposed) ==> r == Done(()) && Now() == old(Now())
      ensures n !in old(disposed) ==> n !in reactor.meta && n !in body && n !in scheduled
      ensures r.Panic? ==> Reported(r.cause, old(deeds), deeds, Now())
      ensures forall m :: m in running ==> HeldStill(old(reactor.G()), old(L()), reactor.G(), L(), m)
      ensures n !in old(disposed) ==> Ended(CleanupsOf(old(L()), n), ends) && FirstOf(ends) == if r.Panic? then Some(r.cause) else None
      ensures n !in old(disposed) ==> Beginning(old(deeds), deeds, n, LatestFirst(CleanupsOf(old(L()), n)))
      ensures n !in old(disposed) && r.Done? ==> Did(old(deeds), deeds, n, TeardownSteps(CleanupsOf(old(L()), n)))
    {
      hide Inv, Framed, LaneInv, Counted, Reported, Tokens, Accounts, Orderly, Quiet, Did, Beginning, TeardownSteps, LatestFirst, CleanupsOf, HeldStill, Ended, FirstOf;
      if n in disposed {
        QuietReflexive(deeds, running + disposed, flushDepth);
        assert disposed + {n} == disposed;
        HeldReflexive(reactor.G(), L());
        return Done(()), [];
      }
      ghost var start := Now();
      r, ends := LastTeardown(n);
      ghost var torn := Now();
      Unhook(n);
      if r.Panic? {
        ReportedLater(r.cause, old(deeds), old(deeds), deeds, deeds, torn, Now());
      }
      HeldOn(start, torn, Now(), running);
    }

    /** Flags a live effect as disposed, then runs its cleanups. */
    method LastTeardown(n: NodeId) returns (r: Outcome<()>, ghost ends: seq<Outcome<()>>)
      requires Valid() && n in body && n !in disposed && n !in running
      modifies this, reactor
      ensures Valid() && flushDepth == old(flushDepth) && running == old(running) && reactor.frames == old(reactor.frames)
      ensures disposed == old(disposed) + {n} && body == old(body) && Quiet(old(deeds), deeds, running + old(disposed), flushDepth)
      ensures r.Panic? ==> Reported(r.cause, old(deeds), deeds, Now())
      ensures forall m :: m in running ==> HeldStill(old(reactor.G()), old(L()), reactor.G(), L(), m)
      ensures Ended(CleanupsOf(old(L()), n), ends) && FirstOf(ends) == if r.Panic? then Some(r.cause) else None
      ensures Beginning(old(deeds), deeds, n, LatestFirst(CleanupsOf(old(L()), n)))
      ensures r.Done? ==> Did(old(deeds), deeds, n, TeardownSteps(CleanupsOf(old(L()), n)))
    {
      hide Inv, Framed, LaneInv, Counted, Reported, Continued, Tokens, Accounts, Orderly, Quiet, Did, Beginning, TeardownSteps, LatestFirst, CleanupsOf, HeldStill, Ended, FirstOf;
      ghost var start := Now();
      var list := BeginDisposal(n);
      ghost var flagged := Now();
      r, ends := TearDown(list, n);
      ContinuedFacts(flagged, Now(), running, r.Done?);
      assert running + disposed - {n} == running + old(disposed);
      HeldThrough(flagged, Now(), running, r.Done?);
      HeldOn(start, flagged, Now(), running);
    }

    /** From here on nothing of `n` starts. */
    method Flag(n: NodeId)
      requires Valid() && n !in running
      modifies `disposed, `scheduled, `queuedEffects
      ensures Valid() && L() == Flagged(old(L()), n)
    {
      hide Inv, Framed, LaneInv, Counted, Tokens, Budgeted, Sparing;
      FlagKeeps(reactor.G(), reactor.frames, L(), n);
      Retire(n);
      Unlatch(n);
    }

    method Retire(n: NodeId)
      requires Budgeted()
      modifies `disposed
      ensures Budgeted() && disposed == old(disposed) + {n}
    {
      hide WithinBudget;
      disposed := disposed + {n};
    }

    method BeginDisposal(n: NodeId) returns (list: seq<Cleanup>)
      requires Valid() && n in body && n !in disposed && n !in running
      modifies `disposed, `scheduled, `queuedEffects, `cleanups
      ensures forall m :: m != n ==> HeldStill(reactor.G(), old(L()), reactor.G(), L(), m)
      ensures Valid() && disposed == old(disposed) + {n} && list == CleanupsOf(old(L()), n)
      ensures forall i :: 0 <= i < |list| ==> CleanupScoped(list[i], reactor.G())
    {
      hide Inv, Framed, LaneInv, Counted, Tokens, Accounts, Orderly, CleanupScoped;
      Flag(n);
      hide Unlatched;
      list := TakeCleanups(n);
    }

    method Unhook(n: NodeId)
      requires Valid() && n in body && n in disposed && n !in running
      modifies `body, `lastDrainEpoch, `runsThisDrain, `settled, reactor
      ensures Valid() && n !in reactor.meta && body == old(body) - {n} && n !in scheduled
      ensures reactor.frames == old(reactor.frames) && reactor.program == old(reactor.program) && Tokens() <= old(Tokens())
      ensures forall m :: m in running ==> HeldStill(old(reactor.G()), old(L()), reactor.G(), L(), m)
    {
      hide Inv, Framed, LaneInv, Counted, EdgesDropped, Gauged, Budgeted, Sparing, Orderly, HeldStill, WithoutEffect, Tokens, EffectKinds, IsEffect;
      ghost var g, l, effects := reactor.G(), L(), body.Keys;
      Parts({});
      KnownEffects();
      NotBusy(g, reactor.frames, l, n);
      DisposedUnscheduled(g, reactor.frames, l, n);
      reactor.RemoveEffect(n);
      UnhookKeeps(g, reactor.E(), reactor.frames, l, n);
      UnhookHolds(g, reactor.E(), l, n);
      UnhookCells(g, reactor.E(), n);
      CloseBooks(n, g.meta);
      Whole({});
    }

    /** The books after `n` has left the reactor, whose nodes were `metas`. */
    method CloseBooks(n: NodeId, ghost metas: map<NodeId, NodeMeta>)
      requires Gauged() && Budgeted() && EffectKinds(metas, body.Keys) && reactor.meta == metas - {n} && n in body && n in disposed
      modifies `body, `lastDrainEpoch, `runsThisDrain, `settled
      ensures Accounts() && body == old(body) - {n} && Tokens() <= old(Tokens())
    {
      hide Budgeted, Gauged, Sparing, Tokens;
      CloseAccount(n);
      settled := reactor.G();
      SparingReflexive(settled);
    }
  }

  lemma UnhookCells(g: Graph, e': Edges, n: NodeId)
    ensures WithoutEffect(g, e', n).meta == g.meta - {n} && WithoutEffect(g, e', n).program == g.program
    ensures WithoutEffect(g, e', n).edges == e'
  {
  }

  lemma UnhookHolds(g: Graph, e': Edges, l: Lane, n: NodeId)
    requires Inv(g) && IsEffect(g, n) && EdgesDropped(g.edges, e', n)
    ensures forall m :: m != n ==> HeldStill(g, l, WithoutEffect(g, e', n), l.(body := l.body - {n}), m)
  {
    hide Inv, WithoutEffect, EdgesDropped, IsEffect;
    forall m | m != n
      ensures HeldStill(g, l, WithoutEffect(g, e', n), l.(body := l.body - {n}), m)
    {
      OthersUntouched(g, e', n, m);
    }
  }

  lemma HeldReflexive(g: Graph, l: Lane)
    ensures forall m :: HeldStill(g, l, g, l, m)
  {
  }

  lemma HeldThrough(a: Moment, b: Moment, held: set<NodeId>, done: bool)
    requires Continued(a, b, held, done)
    ensures forall m :: m in held ==> HeldStill(a.graph, a.lane, b.graph, b.lane, m)
  {
  }

  lemma HeldOn(a: Moment, b: Moment, c: Moment, held: set<NodeId>)
    requires forall m :: m in held ==> HeldStill(a.graph, a.lane, b.graph, b.lane, m)
    requires forall m :: m in held ==> HeldStill(b.graph, b.lane, c.graph, c.lane, m)
    ensures forall m :: m in held ==> HeldStill(a.graph, a.lane, c.graph, c.lane, m)
  {
    hide HeldStill;
    forall m | m in held
      ensures HeldStill(a.graph, a.lane, c.graph, c.lane, m)
    {
      HeldTwice(a.graph, a.lane, b.graph, b.lane, c.graph, c.lane, m);
    }
  }

  /** Only effects in their own run are under way. */
  lemma NotBusy(g: Graph, fs: Frames, l: Lane, n: NodeId)
    requires LaneInv(g, fs, l, {}) && n !in l.running
    ensures n !in Busy(fs)
  {
    EffectFramesOnStack(g, fs, l.running);
  }

  lemma WriteContinues(a: Moment, b: Moment, held: set<NodeId>)
    requires Churns(a.graph, a.lane, b.graph, b.lane, held)
    requires Spares(a.graph, b.graph)
    requires b == a.(graph := b.graph, lane := b.lane, jobs := b.jobs) && b.lane == a.lane.(queue := b.lane.queue, scheduled := b.lane.scheduled)
    requires a.jobs <= b.jobs
    ensures Continued(a, b, held, true)
  {
    hide Churns, Spares;
  }

  lemma JobsGrow(taken: seq<NodeId>, waiting: seq<NodeId>, waiting': seq<NodeId>)
    requires waiting <= waiting'
    ensures taken + waiting <= taken + waiting'
  {
  }

  ghost function EmptyLane(): Lane { Lane([], {}, {}, {}, {}, map[], map[], {}, {}) }

  lemma EmptyLaneInv()
    ensures LaneInv(EmptyGraph(), Bottom, EmptyLane(), {})
  {
  }

  /** Verifying an effect that is not running: nothing under way depends on it, and with layered
      closures no cycle can be met. */
  lemma VerifyFacts(g: Graph, fs: Frames, l: Lane, n: NodeId)
    requires Inv(g) && Framed(g, fs) && g.active == OnStack(fs) && LaneInv(g, fs, l, {n})
    requires IsEffect(g, n) && n in g.past.exempt && n !in l.running
    ensures MayVerify(g, fs, n) && n !in Busy(fs)
    ensures forall m :: m in Busy(fs) + {n} ==> m !in g.program && !Computed(g, m)
    ensures forall m :: m in l.running ==> !Computed(g, m)
  {
    InvParts(g);
    hide Inv, ProgramsScoped, EdgesTyped, CleanClosed, DirtyJustified, Valued, Historic, Acyclic, Mirrored, EdgesBelow, Layered;
    EffectFramesOnStack(g, fs, l.running);
    forall m | m in l.running
      ensures !Computed(g, m)
    {
      assert EffectOk(g, l, {n}, m);
    }
  }

  lemma NoneRan(g: Graph, n: NodeId)
    ensures ThunksRested(g, g, n)
  {
  }

  lemma TakenRested(g: Graph, g': Graph, n: NodeId)
    ensures ThunksRested(MarkTaken(g, n), g', n) ==> ThunksRested(g, g', n)
  {
    assert forall t :: Runs(MarkTaken(g, n), t) == Runs(g, t);
  }

  lemma SettledRested(g: Graph, g1: Graph, n: NodeId)
    requires ThunksRested(g, g1, n)
    ensures ThunksRested(g, Settled(g1, n), n)
  {
    assert forall t :: Runs(Settled(g1, n), t) == Runs(g1, t);
  }

  /** The guide reaches everything `n` recorded. */
  ghost predicate Reached(g: Graph, guide: Guide, n: NodeId) {
    forall d {:trigger d in Deps(g.edges, n)} :: d in Deps(g.edges, n) ==> guide.reach(d)
  }

  /** Only effects are under way: what the guide says of verifying effect `n`. */
  lemma VerifyForesight(g: Graph, g': Graph, fs: Frames, n: NodeId, guide: Guide)
    requires Inv(g) && g'.program == g.program && forall m :: m in Busy(fs) + {n} ==> m !in g.program
    ensures Layered(g.program) ==> Guided(g, OldestFirst()) && DepsUnder(g, OldestFirst(), Busy(fs) + {n}, n)
    ensures Reached(g, guide, n) ==> DepsUnder(g, guide, Busy(fs) + {n}, n)
    ensures Layered(g.program) && Trapped(g, guide) ==> Trapped(g', guide) && !AsksTrap(g, guide, n)
  {
    hide Inv, Layered, Guided, Trapped;
    if Layered(g.program) {
      LayeredIsGuided(g);
      if Trapped(g, guide) {
        NoTrapKept(g, g', guide);
      }
    }
  }

  lemma ReadForesight(g: Graph, g': Graph, fs: Frames, d: NodeId, guide: Guide)
    requires Inv(g) && g'.program == g.program && forall m :: m in Busy(fs) ==> m !in g.program
    ensures Layered(g.program) ==> Guided(g, OldestFirst()) && Under(OldestFirst(), g.program, Busy(fs), d)
    ensures guide.reach(d) ==> Under(guide, g.program, Busy(fs), d)
    ensures Layered(g.program) && Trapped(g, guide) ==> Trapped(g', guide) && guide.trap == {}
  {
    hide Inv, Layered, Guided, Trapped;
    if Layered(g.program) {
      LayeredIsGuided(g);
      if Trapped(g, guide) {
        NoTrapKept(g, g', guide);
      }
    }
  }

  lemma KindsAfter(g: Graph, g': Graph, effects: set<NodeId>)
    requires forall m :: SameKind(g, g', m)
    requires EffectKinds(g.meta, effects)
    ensures EffectKinds(g'.meta, effects)
  {
    forall m
      ensures m in effects <==> m in g'.meta && g'.meta[m].kind.Effect?
    {
      assert SameKind(g, g', m);
    }
  }

  lemma TakeFacts(g: Graph, fs: Frames, l: Lane, n: NodeId)
    requires Inv(g) && LaneInv(g, fs, l, {n}) && IsEffect(g, n) && n !in l.running
    ensures n in g.state && n !in Busy(fs) && n in g.meta
  {
    InvParts(g);
    hide Inv, ProgramsScoped, EdgesTyped, CleanClosed, DirtyJustified, Valued, Historic, Acyclic, Mirrored, EdgesBelow;
    EffectFramesOnStack(g, fs, l.running);
  }

  lemma EffectNotBusy(g: Graph, fs: Frames, l: Lane, n: NodeId)
    requires LaneInv(g, fs, l, {n}) && n !in l.running
    ensures n !in Busy(fs)
  {
    EffectFramesOnStack(g, fs, l.running);
  }

  lemma EffectNotComputed(g: Graph, n: NodeId)
    requires IsEffect(g, n)
    ensures !Computed(g, n)
  {
  }

  lemma UnlatchedTwice(l: Lane, n: NodeId)
    ensures Unlatched(Unlatched(l, n), n) == Unlatched(l, n)
  {
    assert l.scheduled - {n} - {n} == l.scheduled - {n};
  }

  lemma TakenKeepsLog(g: Graph, n: NodeId)
    ensures var g' := MarkTaken(g, n);
            g'.past.log == g.past.log && n in g'.past.exempt && InState(g', n, Clean) && (IsEffect(g', n) <==> IsEffect(g, n))
  {
  }

  lemma TakenKeepsCurrent(g: Graph, n: NodeId)
    requires IsEffect(g, n)
    ensures AllCurrent(g, n) ==> AllCurrent(MarkTaken(g, n), n)
  {
    if AllCurrent(g, n) {
      forall d | d in Deps(MarkTaken(g, n).edges, n)
        ensures Current(MarkTaken(g, n), n, d)
      {
        assert Current(g, n, d);
      }
    }
  }

  lemma SameNodeState(g: Graph, g': Graph, n: NodeId)
    requires SameNode(g, g', n) && InState(g, n, Clean)
    ensures InState(g', n, Clean) && (n in g'.past.log <==> n in g.past.log)
  {
  }

  lemma ContinuedKind(a: Moment, b: Moment, held: set<NodeId>, done: bool, n: NodeId)
    requires Continued(a, b, held, done)
    ensures IsEffect(b.graph, n) <==> IsEffect(a.graph, n)
    ensures b.graph.program == a.graph.program && b.lane.body == a.lane.body && b.lane.disposed == a.lane.disposed
    ensures b.frames == a.frames && b.untracked == a.untracked && b.flushDepth == a.flushDepth
  {
    assert SameKind(a.graph, b.graph, n);
  }

  lemma ContinuedFacts(a: Moment, b: Moment, held: set<NodeId>, done: bool)
    requires Continued(a, b, held, done)
    ensures b.graph.program == a.graph.program && b.lane.body == a.lane.body && b.lane.disposed == a.lane.disposed
    ensures b.frames == a.frames && b.untracked == a.untracked && b.flushDepth == a.flushDepth
    ensures a.flushDepth > 0 ==> b.doneBefore == a.doneBefore
    ensures b.tokens <= a.tokens && (done ==> b.lane.tainted <= a.lane.tainted)
  {
  }

  lemma FlushEntersNothing(a: seq<Deed>, doer: Option<NodeId>)
    ensures forall n :: EnteredSince(a, a + [Deed(doer, Flushed)], n) == 0
  {
    hide Entries;
    forall n
      ensures EnteredSince(a, a + [Deed(doer, Flushed)], n) == 0
    {
      EnteredMore(a, a, Deed(doer, Flushed), n);
    }
  }

  lemma SinceFlush(a: seq<Deed>, asked: seq<Deed>, b: seq<Deed>, doer: Option<NodeId>)
    requires asked == a + [Deed(doer, Flushed)]
    ensures forall n :: EnteredSince(a, b, n) == EnteredSince(asked, b, n)
  {
    FlushEntersNothing(a, doer);
    hide Entries;
    forall n
      ensures EnteredSince(a, b, n) == EnteredSince(asked, b, n)
    {
      assert EnteredSince(a, a + [Deed(doer, Flushed)], n) == 0;
    }
  }

  lemma ContinuedKinds(a: Moment, b: Moment, held: set<NodeId>, done: bool)
    requires Continued(a, b, held, done)
    ensures forall n :: SameKind(a.graph, b.graph, n)
  {
  }

  lemma ContinuedSpares(a: Moment, b: Moment, held: set<NodeId>, done: bool)
    requires Continued(a, b, held, done)
    ensures done ==> Spares(a.graph, b.graph)
    ensures done && SourcesStill(a.graph, b.graph) ==> forall m :: Computed(a.graph, m) ==> RanAtMostOnce(a.graph, b.graph, m)
  {
    if done && SourcesStill(a.graph, b.graph) {
      forall m | Computed(a.graph, m)
        ensures RanAtMostOnce(a.graph, b.graph, m)
      {
        SparedRuns(a.graph, b.graph, m);
      }
    }
  }

  /** Both moments come after the same last write. */
  lemma NothingMoved(settled: Graph, a: Moment, b: Moment, held: set<NodeId>)
    requires Inv(a.graph) && Inv(b.graph) && Continued(a, b, held, true) && Sparing(settled, a.graph) && Sparing(settled, b.graph)
    ensures Sparing(a.graph, b.graph) && WorldOf(b.graph) == WorldOf(a.graph)
  {
    InvParts(a.graph);
    InvParts(b.graph);
    hide Inv, Typed, ProgramsScoped, EdgesTyped, CleanClosed, DirtyJustified, Valued, Historic, Acyclic, Mirrored, EdgesBelow, WorldOf;
    forall s | IsSignal(a.graph, s)
      ensures Ver(b.graph, s) == Ver(a.graph, s)
    {
      assert SameKind(settled, a.graph, s);
    }
    SparingKeepsWorld(a.graph, b.graph);
  }

  lemma CleanupScopedLater(a: Moment, b: Moment, held: set<NodeId>, done: bool, c: Cleanup)
    requires Continued(a, b, held, done) && CleanupScoped(c, a.graph)
    ensures CleanupScoped(c, b.graph)
  {
    SameKindsKeep(a.graph, b.graph);
  }

  lemma CleanupStillScoped(a: Moment, b: Moment, held: set<NodeId>, c: Cleanup, i: nat)
    requires Continued(a, b, held, true) && CleanupScoped(c, a.graph) && i < |c|
    ensures c[i].CleanupWrite? ==> IsSignal(b.graph, c[i].node)
  {
    SameKindsKeep(a.graph, b.graph);
  }

  lemma NestedContinues(a: Moment, a': Moment, b': Moment, b: Moment, held: set<NodeId>, done: bool)
    requires Continued(a', b', held, done) && a' == a.(flushDepth := a'.flushDepth, doneBefore := a'.doneBefore)
    requires a'.flushDepth > 0 && (a.flushDepth > 0 ==> a'.doneBefore == a.doneBefore)
    requires b == b'.(flushDepth := a.flushDepth, tokens := b.tokens) && (b.tokens == b'.tokens || b.tokens == a.tokens)
    ensures Continued(a, b, held, done)
  {
    hide Churns, Spares;
  }

  lemma PoppedContinues(a: Moment, b: Moment, held: set<NodeId>)
    requires b == a.(lane := a.lane.(queue := b.lane.queue))
    ensures Continued(a, b, held, true)
  {
  }

  /** A body may read anything; with layered closures it meets no cycle. */
  lemma BodyReadFacts(g: Graph, fs: Frames, l: Lane, n: NodeId, d: NodeId)
    requires Inv(g) && Framed(g, fs) && LaneInv(g, fs, l, {}) && g.active == OnStack(fs)
    requires fs.Push? && fs.top == Computing(n)
    ensures MayRead(g.program, fs, d) && n in Busy(fs)
    ensures IsEffect(g, n) && n in g.active && n in l.running && n !in Busy(fs.below) && n !in g.past.exempt
    ensures forall m :: m in Busy(fs) ==> m !in g.program && !Computed(g, m)
    ensures forall m :: m in l.running ==> !Computed(g, m)
  {
    InvParts(g);
    hide Inv, ProgramsScoped, EdgesTyped, CleanClosed, DirtyJustified, Valued, Historic, Acyclic, Mirrored, EdgesBelow, Layered;
    EffectFramesOnStack(g, fs, l.running);
    forall m | m in l.running
      ensures !Computed(g, m)
    {
      assert EffectOk(g, l, {}, m);
    }
  }

  lemma OverwrittenOnly(s: set<NodeId>, e: Edges, open: set<NodeId>, done: bool, d: NodeId, version: int, n: NodeId)
    requires open <= {n}
    ensures var s' := s + Overwritten(e, open, done, d, version);
            && s' - open == s - open
            && (done ==> (n in s' <==> n in s || (n in open && Supersedes(e, n, d, version))))
  {
  }

  /** What a read by the body of `n` leaves in place, and what it adds to the body's log. */
  lemma BodyRead(
    g: Graph, fs: Frames, l: Lane, g': Graph, l': Lane, open: set<NodeId>, done: bool, n: NodeId, event: ReadEvent, prior: seq<ReadEvent>, seen: Seen)
    requires Inv(g) && Framed(g, fs) && LaneInv(g, fs, l, {}) && g.active == OnStack(fs) && fs.Push? && fs.top == Computing(n)
    requires EffectKinds(g.meta, l.body.Keys) && Inv(g') && Evolves(g, g', Busy(fs), open, done) && open == if event.tracked then {n} else {}
    requires l' == l.(superseded := l.superseded + Overwritten(g.edges, open, done, event.node, event.version))
    requires done ==> Fresh(g', event.node) && event.node in g'.cache && event.value == g'.cache[event.node]
    requires done ==> event.version == Ver(g', event.node)
    requires done && event.tracked ==> ReadRecorded(g.edges, g'.edges, n, event.node, event.version)
    requires EventsKept(g.edges, g.past.hist, n, prior, n in l.superseded)
    ensures LaneInv(g', fs, l', {}) && Churns(g, l, g', l', l.running - {n}) && EffectKinds(g'.meta, l'.body.Keys)
    ensures done ==> Spares(g, g') && Sparing(g, g')
    ensures done ==> EventsKept(g'.edges, g'.past.hist, n, prior + [event], n in l'.superseded)
    ensures done && (event.tracked ==> event.node !in seen.early) && UpToDate(g, l, n, seen) ==>
              UpToDate(g', l', n, AfterRead(seen, event.node, event.tracked))
  {
    hide Inv, Framed, LaneInv, Churns, Spares, Sparing, OnStack, Evolves, Fresh, EventsKept, ReadRecorded, Supersedes, Overwritten, Busy, UpToDate;
    BodyReadFacts(g, fs, l, n, event.node);
    OverwrittenOnly(l.superseded, g.edges, open, done, event.node, event.version, n);
    RefreshKeepsLane(g, fs, l, {}, g', l', Busy(fs), open, done, n);
    EvolvesChurns(g, l, g', l', Busy(fs), open, done, l.running - {n});
    assert forall m :: SameKind(g, g', m) by {
      EvolvesKinds(g, g', Busy(fs), open, done);
    }
    KindsAfter(g, g', l.body.Keys);
    if done {
      assert forall m :: m in Busy(fs) || m in open ==> !Computed(g, m);
      EvolvesSpares(g, g', Busy(fs), open);
      BodyReadAdds(g, g', Busy(fs), open, n, event);
      ReadKeepsEvents(g, g', n, prior, event, n in l.superseded, n in l'.superseded);
      if UpToDate(g, l, n, seen) && (event.tracked ==> event.node !in seen.early) {
        ReadStaysUpToDate(g, g', l, l', Busy(fs), open, n, event, seen);
      }
    }
  }

  /** No read of `n` superseded another so far, and every edge recorded since its last write or flush is
      current. */
  ghost predicate UpToDate(g: Graph, l: Lane, n: NodeId, seen: Seen) {
    && n !in l.superseded
    && forall d {:trigger d in Deps(g.edges, n)} :: d in Deps(g.edges, n) ==> d in seen.early || (d in seen.recent && Current(g, n, d))
  }

  lemma UpToDateReads(g: Graph, l: Lane, n: NodeId, seen: Seen)
    ensures UpToDate(g, l, n, seen) ==> n !in l.superseded
  {
  }

  lemma ReadStaysUpToDate(g: Graph, g': Graph, l: Lane, l': Lane, busy: set<NodeId>, open: set<NodeId>, n: NodeId, event: ReadEvent, seen: Seen)
    requires UpToDate(g, l, n, seen) && (event.tracked ==> event.node !in seen.early)
    requires Evolves(g, g', busy, open, true) && Fresh(g', event.node) && event.version == Ver(g', event.node)
    requires ReadAdds(g, g', n, event)
    requires n in l'.superseded ==> n in l.superseded || (event.tracked && Supersedes(g.edges, n, event.node, event.version))
    ensures UpToDate(g', l', n, AfterRead(seen, event.node, event.tracked))
  {
    EvolvesKeepsFresh(g, g', busy, open, true);
    hide Evolves, Fresh;
    forall d | d in Deps(g'.edges, n) && d !in seen.early
      ensures d in AfterRead(seen, event.node, event.tracked).recent && Current(g', n, d)
    {
      if d != event.node || !event.tracked {
        assert d in Deps(g.edges, n) && Current(g, n, d);
      }
    }
    if event.tracked && event.node in Deps(g.edges, n) {
      assert Current(g, n, event.node);
    }
  }

  lemma ReaderKeepsState(g: Graph, g': Graph, busy: set<NodeId>, open: set<NodeId>, ok: bool, n: NodeId)
    requires Evolves(g, g', busy, open, ok) && n in busy
    ensures forall st :: InState(g, n, st) ==> InState(g', n, st)
  {
    assert EvolvesAt(g, g', busy, open, ok, n);
  }

  lemma EvolvesKinds(g: Graph, g': Graph, busy: set<NodeId>, open: set<NodeId>, ok: bool)
    requires Evolves(g, g', busy, open, ok)
    ensures forall m :: SameKind(g, g', m)
  {
    forall m
      ensures SameKind(g, g', m)
    {
      SameAfter(g, g', busy, open, ok, m);
    }
  }

  lemma BodyReadAdds(g: Graph, g': Graph, busy: set<NodeId>, open: set<NodeId>, n: NodeId, event: ReadEvent)
    requires Inv(g) && Inv(g') && Evolves(g, g', busy, open, true) && Fresh(g', event.node) && n in busy
    requires open == if event.tracked then {n} else {}
    requires event.node in g'.cache && event.value == g'.cache[event.node] && event.version == Ver(g', event.node)
    requires event.tracked ==> ReadRecorded(g.edges, g'.edges, n, event.node, event.version)
    ensures ReadAdds(g, g', n, event)
  {
    FreshKnows(g', event.node);
    assert EvolvesAt(g, g', busy, open, true, n);
    InvParts(g);
    hide Inv, Typed, ProgramsScoped, CleanClosed, DirtyJustified, Valued, Historic, Acyclic, Mirrored, EdgesBelow, Fresh;
    assert Ver(g, event.node) <= Ver(g', event.node);
  }

  lemma ContinuedFewer(a: Moment, b: Moment, held: set<NodeId>, fewer: set<NodeId>, done: bool, less: bool)
    requires Continued(a, b, held, done) && fewer <= held && (less ==> done)
    ensures Continued(a, b, fewer, less)
  {
  }

  lemma BodyStillScoped(a: Moment, b: Moment, held: set<NodeId>, rest: Body)
    requires Continued(a, b, held, true) && BodyScoped(rest, a.graph)
    ensures BodyScoped(rest, b.graph)
  {
    SameKindsKeep(a.graph, b.graph);
    BodyScopedStays(rest, a.graph, b.graph);
  }

  /** The body of `n` was interrupted by a write or a nested flush: its reads so far and its cleanups
      are untouched. */
  lemma AfterInterruption(a: Moment, b: Moment, n: NodeId, prior: seq<ReadEvent>)
    requires Continued(a, b, a.lane.running, true) && n in a.lane.running
    requires EventsKept(a.graph.edges, a.graph.past.hist, n, prior, n in a.lane.superseded)
    ensures Continued(a, b, a.lane.running - {n}, true)
    ensures EventsKept(b.graph.edges, b.graph.past.hist, n, prior, n in b.lane.superseded)
    ensures CleanupsOf(b.lane, n) == CleanupsOf(a.lane, n) + [] && (n in b.lane.superseded <==> n in a.lane.superseded)
  {
    hide EventsKept;
    assert HeldStill(a.graph, a.lane, b.graph, b.lane, n);
    ChurnKeepsEvents(a.graph, a.lane, b.graph, b.lane, a.lane.running, n, prior);
  }

  lemma InterruptedUpToDate(a: Moment, b: Moment, n: NodeId, seen: Seen)
    requires Continued(a, b, a.lane.running, true) && n in a.lane.running
    ensures UpToDate(a.graph, a.lane, n, seen) ==> UpToDate(b.graph, b.lane, n, Seen(seen.early + seen.recent, {}))
  {
    assert HeldStill(a.graph, a.lane, b.graph, b.lane, n);
  }

  lemma UpToDateElsewhere(g: Graph, l: Lane, l': Lane, n: NodeId, seen: Seen)
    requires l'.superseded == l.superseded
    ensures UpToDate(g, l, n, seen) ==> UpToDate(g, l', n, seen)
  {
  }

  lemma RegisteredScoped(g: Graph, fs: Frames, l: Lane, n: NodeId, c: Cleanup)
    requires LaneInv(g, fs, l, {}) && CleanupScoped(c, g)
    ensures forall i :: 0 <= i < |CleanupsOf(l, n) + [c]| ==> CleanupScoped((CleanupsOf(l, n) + [c])[i], g)
  {
    hide EffectOk, EffectFrames, CleanupScoped;
  }

  lemma UnlatchedContinues(a: Moment, b: Moment, held: set<NodeId>, n: NodeId)
    requires b == a.(lane := Unlatched(a.lane, n))
    ensures Continued(a, b, held, true)
  {
  }

  lemma DeferredContinues(a: Moment, b: Moment, c: Moment, held: set<NodeId>, n: NodeId)
    requires b == a.(lane := Unlatched(a.lane, n)) && c == b.(lane := b.lane.(rerun := b.lane.rerun + {n}))
    ensures Continued(a, c, held, true)
  {
  }

  lemma DivergedContinues(a: Moment, b: Moment, c: Moment, held: set<NodeId>, n: NodeId)
    requires b == a.(tokens := b.tokens) && b.tokens <= a.tokens && n !in held
    requires c == b.(lane := b.lane.(tainted := b.lane.tainted + {n}))
    ensures Continued(a, c, held, false)
  {
  }

  lemma CountedContinues(a: Moment, b: Moment, held: set<NodeId>)
    requires b == a.(tokens := b.tokens) && b.tokens <= a.tokens
    ensures Continued(a, b, held, true)
  {
  }

  lemma ThrownReported(since: seq<Deed>, done: seq<Deed>, now: seq<Deed>, m: Moment)
    requires since <= done && |now| == |done| + 1 && now[|done|].step.Threw?
    ensures Reported(Thrown, since, now, m)
  {
  }

  lemma CycleReported(cause: PanicCause, since: seq<Deed>, m: Moment)
    requires Circular(cause, m.graph.program)
    ensures Reported(cause, since, since, m)
  {
  }

  lemma ReportedSince(cause: PanicCause, since: seq<Deed>, done: seq<Deed>, now: seq<Deed>, held: set<NodeId>, m: Moment, depth: int)
    requires Reported(cause, done, now, m) && Quiet(since, done, held, depth)
    ensures Reported(cause, since, now, m)
  {
    ReportedLater(cause, done, since, now, now, m, m);
  }

  /** Between two moments of one kind, jobs were only taken from the front and added at the end. */
  lemma JobsOn(a: Moment, b: Moment, held: set<NodeId>, done: bool)
    requires Continued(a, b, held, done)
    ensures a.jobs <= b.jobs
  {
  }

  lemma FlushReported(cause: PanicCause, since: seq<Deed>, now: seq<Deed>, m: Moment, m': Moment)
    requires Reported(cause, since, now, m)
    requires m' == m.(flushDepth := m'.flushDepth, tokens := m'.tokens) && m.flushDepth > 0 && (m'.flushDepth > 0 ==> m'.tokens == m.tokens)
    ensures Reported(cause, since, now, m')
  {
    ReportedLater(cause, since, since, now, now, m, m.(flushDepth := m'.flushDepth));
  }

  /** Teardown keeps the first panic. */
  function FirstPanic(first: Option<PanicCause>, one: Outcome<()>): Option<PanicCause> {
    if first.None? && one.Panic? then Some(one.cause) else first
  }

  /** The first panic among the ends of what ran one after another. */
  ghost function FirstOf(ends: seq<Outcome<()>>): Option<PanicCause> {
    if ends == [] then None else if ends[0].Panic? then Some(ends[0].cause) else FirstOf(ends[1..])
  }

  /** How the cleanups `list[i..]` ended, latest first: one that throws with a panic. */
  ghost predicate EndedFrom(list: seq<Cleanup>, i: nat, ends: seq<Outcome<()>>) {
    i <= |list| && |ends| == |list| - i && forall j :: i <= j < |list| && Throws(list[j]) ==> ends[|list| - 1 - j].Panic?
  }

  ghost predicate Ended(list: seq<Cleanup>, ends: seq<Outcome<()>>) { EndedFrom(list, 0, ends) }

  lemma NoneEnded(list: seq<Cleanup>)
    ensures EndedFrom(list, |list|, []) && FirstOf([]) == None
  {
  }

  lemma OneEnded(list: seq<Cleanup>, i: nat, ends: seq<Outcome<()>>, one: Outcome<()>)
    requires i < |list| && EndedFrom(list, i + 1, ends) && (Throws(list[i]) ==> one.Panic?)
    ensures EndedFrom(list, i, ends + [one]) && FirstOf(ends + [one]) == FirstPanic(FirstOf(ends), one)
  {
    hide Throws;
    FirstOfMore(ends, one);
  }

  lemma {:induction false} FirstOfMore(ends: seq<Outcome<()>>, one: Outcome<()>)
    ensures FirstOf(ends + [one]) == FirstPanic(FirstOf(ends), one)
  {
    if ends != [] {
      assert (ends + [one])[1..] == ends[1..] + [one];
      FirstOfMore(ends[1..], one);
    }
  }

  lemma FirstReported(
    first: Option<PanicCause>, one: Outcome<()>, since: seq<Deed>, done: seq<Deed>, now: seq<Deed>, held: set<NodeId>, m: Moment, m': Moment, running: set<NodeId>, depth: int)
    requires first.Some? ==> Reported(first.value, since, done, m)
    requires one.Panic? ==> Reported(one.cause, done, now, m')
    requires Quiet(since, done, held, depth) && Quiet(done, now, held, depth) && Continued(m, m', running, one.Done?)
    ensures FirstPanic(first, one).Some? ==> Reported(FirstPanic(first, one).value, since, now, m')
  {
    hide Churns, Reported;
    if first.Some? {
      assert m'.graph.program == m.graph.program && m'.lane.body == m.lane.body && m'.lane.disposed == m.lane.disposed by {
        ContinuedFacts(m, m', running, one.Done?);
      }
      ReportedLater(first.value, since, since, done, now, m, m');
    } else if one.Panic? {
      ReportedSince(one.cause, since, done, now, held, m', depth);
    }
  }

  lemma EnteredContinues(a: Moment, b: Moment, n: NodeId, held: set<NodeId>)
    requires Churns(a.graph, a.lane, b.graph, b.lane, held) && Spares(a.graph, b.graph) && b.lane == InBody(a.lane, n)
    requires b == a.(graph := b.graph, frames := b.frames, lane := b.lane, untracked := 0)
    ensures Continued(a.(frames := b.frames, untracked := 0), b, held, true)
  {
    hide Churns, Spares;
  }

  lemma EndedContinues(a: Moment, b: Moment, c: Moment, held: set<NodeId>, done: bool)
    requires Continued(a.(frames := b.frames, untracked := 0), b, held, done)
    requires Churns(b.graph, b.lane, c.graph, c.lane, held) && Spares(b.graph, c.graph) && (done ==> c.lane.tainted <= b.lane.tainted)
    requires c == b.(graph := c.graph, frames := a.frames, lane := c.lane, untracked := a.untracked, jobs := c.jobs) && b.jobs <= c.jobs
    ensures Continued(a, c, held, done)
  {
    hide Spares;
    if done {
      SparesTransitive(a.graph, b.graph, c.graph);
    }
    ChurnsTransitive(a.graph, a.lane, b.graph, b.lane, c.graph, c.lane, held, held, held);
    hide Churns;
  }

  /** The untracked region a teardown is, entered and left again. */
  lemma UntrackedContinues(a: Moment, a': Moment, b': Moment, b: Moment, held: set<NodeId>, done: bool)
    requires a' == a.(untracked := a'.untracked) && Continued(a', b', held, done) && b == b'.(untracked := a.untracked)
    ensures Continued(a, b, held, done)
  {
    hide Churns, Spares;
  }

  lemma CalmIsEffectless(list: seq<Cleanup>)
    ensures CalmList(list) ==> forall i :: 0 <= i < |list| ==> Effectless(list[i])
  {
  }

  // ------------------------------------------------------------------------------ calm moments

  lemma SereneSpan(a: Moment, b: Moment, held: set<NodeId>, guide: Guide, opening: set<NodeId>)
    requires Inv(a.graph) && Inv(b.graph) && Continued(a, b, held, true) && Sparing(a.graph, b.graph)
    requires b.lane == a.lane.(superseded := b.lane.superseded) && b.tokens == a.tokens
    ensures Serene(a.graph, a.lane, a.tokens, guide, opening) ==> Serene(b.graph, b.lane, b.tokens, guide, opening)
  {
    SereneOn(a.graph, b.graph, a.lane, b.lane, held, a.tokens, guide, opening);
  }

  lemma SereneReads(g: Graph, l: Lane, tokens: set<(NodeId, int)>, guide: Guide, d: NodeId)
    requires d in Readable(g.meta)
    ensures Serene(g, l, tokens, guide, {}) ==> Guided(g, guide) && guide.reach(d)
  {
  }

  lemma SereneForesees(g: Graph, l: Lane, tokens: set<(NodeId, int)>, guide: Guide, n: NodeId)
    requires Inv(g)
    ensures Serene(g, l, tokens, guide, {n}) ==> Guided(g, guide) && Reached(g, guide, n)
  {
    InvParts(g);
    hide Inv, ProgramsScoped, CleanClosed, DirtyJustified, Valued, Historic, Acyclic, Mirrored, EdgesBelow, Typed, Guided, Readable;
  }

  lemma SereneBody(g: Graph, l: Lane, tokens: set<(NodeId, int)>, guide: Guide, n: NodeId)
    requires n in l.body
    ensures Serene(g, l, tokens, guide, {}) ==> CalmBody(l.body[n])
  {
  }

  lemma SereneRegistered(g: Graph, l: Lane, n: NodeId, c: Cleanup, tokens: set<(NodeId, int)>, guide: Guide)
    ensures c == [] && Serene(g, l, tokens, guide, {}) ==> Serene(g, l.(cleanups := l.cleanups[n := CleanupsOf(l, n) + [c]]), tokens, guide, {})
  {
    if c == [] {
      SereneList(g, l, l.(cleanups := l.cleanups[n := CleanupsOf(l, n) + [c]]), n, CleanupsOf(l, n) + [c], tokens, guide);
    }
  }

  lemma ActiveIsRunning(g: Graph, fs: Frames, l: Lane, n: NodeId)
    requires LaneInv(g, fs, l, {n}) && g.active == OnStack(fs)
    ensures n in g.active ==> n in l.running
  {
    EffectFramesOnStack(g, fs, l.running);
  }

  lemma HeldCleanups(a: Moment, b: Moment, held: set<NodeId>, n: NodeId)
    requires Continued(a, b, held, true) && n in held
    ensures CleanupsOf(b.lane, n) == CleanupsOf(a.lane, n)
  {
    assert HeldStill(a.graph, a.lane, b.graph, b.lane, n);
  }

  /** The window of `n` is open and its registered cleanups have been taken. */
  ghost function Windowed(l: Lane, n: NodeId): Lane {
    l.(running := l.running + {n}, cleanups := l.cleanups[n := []])
  }

  lemma ListScoped(g: Graph, fs: Frames, l: Lane, n: NodeId)
    requires LaneInv(g, fs, l, {})
    ensures forall i :: 0 <= i < |CleanupsOf(l, n)| ==> CleanupScoped(CleanupsOf(l, n)[i], g)
  {
    hide EffectOk, EffectFrames, CleanupScoped;
  }

  lemma AbandonedWindow(a: Moment, a': Moment, b': Moment, b: Moment, n: NodeId)
    requires n !in a.lane.running && a' == a.(lane := Windowed(a.lane, n)) && Continued(a', b', a'.lane.running, false)
    requires b == b'.(lane := b'.lane.(running := b'.lane.running - {n}, tainted := b'.lane.tainted + {n}))
    ensures Continued(a, b, a.lane.running, false)
  {
    StepChurns(a.graph, a.lane, a'.graph, a'.lane, n, a.lane.running);
    StepChurns(b'.graph, b'.lane, b.graph, b.lane, n, a.lane.running);
    hide Churns, Spares;
    ContinuedAround(a, a', b', b, a'.lane.running, a.lane.running, false);
  }

  lemma WindowContinues(a: Moment, a': Moment, b: Moment, n: NodeId)
    requires n !in a.lane.running && a' == a.(lane := Windowed(a.lane, n)) && Continued(a', b, a'.lane.running, true)
    ensures Continued(a, b, a.lane.running, true)
  {
    StepChurns(a.graph, a.lane, a'.graph, a'.lane, n, a.lane.running);
    assert Continued(a, a', a.lane.running, true) by {
      hide Churns, Spares;
    }
    ContinuedFewer(a', b, a'.lane.running, a.lane.running, true, true);
    ContinuedTransitive(a, a', b, a.lane.running, true, true);
  }

  lemma RunningFacts(g: Graph, fs: Frames, l: Lane, n: NodeId)
    requires Inv(g) && LaneInv(g, fs, l, {}) && n in l.running
    ensures IsEffect(g, n) && n in g.state && n !in l.disposed && (fs.Push? ==> fs.top.Computing?)
  {
    InvParts(g);
    hide Inv, ProgramsScoped, EdgesTyped, CleanClosed, DirtyJustified, Valued, Historic, Acyclic, Mirrored, EdgesBelow;
    assert EffectOk(g, l, {}, n);
    EffectFramesOnStack(g, fs, l.running);
  }

  lemma NotDisposed(g: Graph, fs: Frames, l: Lane, n: NodeId)
    requires LaneInv(g, fs, l, {}) && n in l.running
    ensures n !in l.disposed && IsEffect(g, n)
  {
    assert EffectOk(g, l, {}, n);
  }

  lemma BodyOf(g: Graph, fs: Frames, l: Lane, n: NodeId)
    requires LaneInv(g, fs, l, {}) && n in l.running
    ensures n in l.body && BodyScoped(l.body[n], g)
  {
    hide BodyScoped;
    NotDisposed(g, fs, l, n);
  }

  lemma BodyIsFresh(g: Graph, e': Edges, l: Lane, n: NodeId, held: set<NodeId>)
    requires EdgesCleared(g.edges, e', n) && n !in held
    ensures !Computed(g, n) ==> Spares(g, BodyEntered(g, e', n)) && Sparing(g, BodyEntered(g, e', n))
    ensures Churns(g, l, BodyEntered(g, e', n), InBody(l, n), held)
    ensures EventsKept(e', BodyEntered(g, e', n).past.hist, n, [], false)
    ensures BodyEntered(g, e', n).edges == e' && BodyEntered(g, e', n).meta == g.meta && BodyEntered(g, e', n).program == g.program
    ensures UpToDate(BodyEntered(g, e', n), InBody(l, n), n, Seen({}, {}))
  {
    hide Churns, Spares, Sparing;
    EnteringIsStep(g, l, e', n);
    StepChurns(g, l, BodyEntered(g, e', n), InBody(l, n), n, held);
    NoEventsKept(e', g.past.hist, n);
  }

  lemma RunningBodyFacts(g: Graph, fs: Frames, l: Lane, n: NodeId)
    requires Inv(g) && Framed(g, fs) && LaneInv(g, fs, l, {}) && g.active == OnStack(fs) && fs.Push? && fs.top == Computing(n)
    ensures IsEffect(g, n) && n in l.running && n !in Busy(fs.below) && n !in g.past.exempt
  {
    hide Inv, LaneInv;
    BodyReadFacts(g, fs, l, n, n);
  }

  lemma BodyRanFollows(n: NodeId, b: Body, events: seq<ReadEvent>, waiting: seq<Cleanup>, waiting': seq<Cleanup>, a: seq<Deed>, a': seq<Deed>)
    requires BodyRan(n, b, [], events, waiting, waiting', a, a')
    ensures BodyFollows(b, [], events)
  {
  }

  lemma LeftCells(g: Graph, n: NodeId, events: seq<ReadEvent>)
    ensures var g' := BodyLeft(g, n, events);
            && n in g'.past.log && g'.past.log[n] == events && g'.past.exempt == g.past.exempt
            && g'.program == g.program && g'.meta == g.meta
  {
  }

  lemma ClosedChurns(g: Graph, l: Lane, n: NodeId, held: set<NodeId>)
    requires n !in l.tainted
    ensures Churns(g, l, g, Closed(l, n), held)
  {
    assert l.tainted - {n} == l.tainted;
  }

  lemma DisposedUnscheduled(g: Graph, fs: Frames, l: Lane, n: NodeId)
    requires LaneInv(g, fs, l, {}) && n in l.disposed
    ensures n !in l.scheduled
  {
    assert EffectOk(g, l, {}, n);
  }

  lemma ComputedKinds(g: Graph, effects: set<NodeId>, group: map<NodeId, Closure>)
    requires EffectKinds(g.meta, effects) && group.Keys !! g.meta.Keys
    ensures EffectKinds(WithComputed(g, group).meta, effects)
    ensures forall n :: n in group ==> !IsEffect(WithComputed(g, group), n)
  {
    hide Each, Metas, Closures;
  }

  lemma KindsBorn(g: Graph, effects: set<NodeId>, n: NodeId)
    requires EffectKinds(g.meta, effects) && n !in g.meta
    ensures EffectKinds(WithEffect(g, n).meta, effects + {n}) && n !in effects
  {
  }

  ghost predicate AllClosuresTracked(program: map<NodeId, Comp>) {
    forall n :: n in program ==> Tracked(program[n])
  }

  lemma ReadIsFromScratch(g: Graph, n: NodeId)
    requires Inv(g) && Fresh(g, n)
    ensures n in g.cache && n in g.meta
    ensures forall cone :: n in cone && TrackedCone(g, cone) ==> Evaluates(WorldOf(g), n, g.cache[n])
    ensures AllClosuresTracked(g.program) ==> Evaluates(WorldOf(g), n, g.cache[n])
  {
    FreshKnows(g, n);
    forall cone | n in cone && TrackedCone(g, cone)
      ensures Evaluates(WorldOf(g), n, g.cache[n])
    {
      FreshEvaluates(g, n, cone);
    }
    if AllClosuresTracked(g.program) {
      AllTracked(g);
      FreshEvaluates(g, n, g.meta.Keys);
    }
  }

  ghost predicate InCache(g: Graph, s: NodeId, v: Value) { s in g.cache && g.cache[s] == v }

  lemma SignalFacts(g: Graph, s: NodeId)
    requires Inv(g) && IsSignal(g, s)
    ensures s in g.cache && s in g.meta
  {
    InvParts(g);
    hide Inv, ProgramsScoped, EdgesTyped, CleanClosed, DirtyJustified, Valued, Historic, Acyclic, Mirrored, EdgesBelow;
  }

  lemma InvConnects(g: Graph, l: Lane)
    requires Inv(g) && EffectKinds(g.meta, l.body.Keys)
    ensures Wired(g.edges, g.state.Keys, g.meta, l.body.Keys)
  {
    InvParts(g);
    hide Inv, ProgramsScoped, CleanClosed, DirtyJustified, Valued, Historic, Acyclic, Mirrored, EdgesBelow;
  }

  lemma WrittenCells(g: Graph, s: NodeId, v: Value)
    requires IsSignal(g, s)
    ensures var g' := Written(g, s, v);
            && g'.edges == g.edges && g'.state == g.state && g'.active == g.active
            && (forall n :: n in g'.meta <==> n in g.meta)
            && (forall n :: n in g.meta ==> g'.meta[n].kind == g.meta[n].kind)
            && s in g'.cache && g'.cache[s] == v
  {
  }

  lemma WriteSettles(g: Graph, fs: Frames, l: Lane, g': Graph, l': Lane, s: NodeId, v: Value, held: set<NodeId>)
    requires Inv(g) && Framed(g, fs) && LaneInv(g, fs, l, {}) && WrittenAndMarked(g, g', s, v)
    requires LaneMarked(g.state, g'.state, l, l')
    requires EffectKinds(g.meta, l.body.Keys)
    ensures Inv(g') && Framed(g', fs) && LaneInv(g', fs, l', {}) && Churns(g, l, g', l', held)
    ensures Spares(g, g')
    ensures g'.active == g.active && g'.edges == g.edges && InCache(g', s, v)
    ensures l' == l.(queue := l'.queue, scheduled := l'.scheduled)
    ensures EffectKinds(g'.meta, l'.body.Keys)
  {
    hide Inv, Framed, EffectOk, BodiesOk, EffectFrames, Marked, LatchedIfChanged;
    assert InCache(g', s, v);
    assert l' == l.(queue := l'.queue, scheduled := l'.scheduled);
    hide WrittenAndMarked, LaneMarked;
    WriteKeepsInv(g, g', s, v);
    WriteKeepsFrames(g, fs, l.running, g', s, v);
    WriteKeepsLane(g, fs, l, g', l', s, v);
    WriteKinds(g, g', s, v);
    LaneMarkedSame(g.state, g'.state, l, l');
    WriteChurns(g, l, g', l', s, v, held);
  }

  ghost predicate MarkedAll(nodes: set<NodeId>, states: States, mark: State) {
    forall n :: n in nodes && n in states ==> mark.Level() <= states[n].Level()
  }

  lemma MarkingStarts(e: Edges, before: States, s: NodeId, mark: State, l: Lane)
    ensures MarkedSoFar(e, before, before, s, mark) && LaneMarked(before, before, l, l)
    ensures MarkedAll(Observers(e, s) - Observers(e, s), before, mark)
  {
  }

  lemma MarkingGoesOn(e: Edges, before: States, mid: States, after: States, s: NodeId, mark: State, n: NodeId, todo: set<NodeId>)
    requires MarkedSoFar(e, before, mid, s, mark) && MarkedAll(Observers(e, s) - todo, mid, mark)
    requires Delivered(e, mid, after, n, mark) && s in Deps(e, n)
    ensures MarkedSoFar(e, before, after, s, mark) && MarkedAll(Observers(e, s) - (todo - {n}), after, mark)
    ensures Raised(mid, after) && after.Keys == mid.Keys
    ensures forall m :: m in mid && after[m] == Clean ==> mid[m] == Clean
  {
    MarkedOneMore(e, before, mid, after, s, mark, n);
    assert forall m :: m in Observers(e, s) - (todo - {n}) ==> m in Observers(e, s) - todo || m == n;
  }

  lemma MarkingEnds(e: Edges, before: States, after: States, s: NodeId, mark: State)
    requires MarkedSoFar(e, before, after, s, mark) && MarkedAll(Observers(e, s) - {}, after, mark)
    ensures Marked(e, before, after, s, mark)
  {
    assert Observers(e, s) - {} == Observers(e, s);
  }

  lemma MarkedKeys(e: Edges, before: States, after: States, s: NodeId, mark: State)
    requires Marked(e, before, after, s, mark)
    ensures Raised(before, after) && after.Keys == before.Keys
  {
  }

  lemma WiredObserver(e: Edges, states: set<NodeId>, meta: map<NodeId, NodeMeta>, effects: set<NodeId>, s: NodeId, n: NodeId)
    requires Wired(e, states, meta, effects) && n in Observers(e, s)
    ensures s in Deps(e, n) && n in states && n in meta
  {
  }

  lemma EffectUnobserved(e: Edges, states: set<NodeId>, meta: map<NodeId, NodeMeta>, effects: set<NodeId>, n: NodeId)
    requires Wired(e, states, meta, effects) && n in effects
    ensures Observers(e, n) == {}
  {
    forall m
      ensures m !in Observers(e, n)
    {
      assert n in Deps(e, m) <==> m in Observers(e, n);
    }
  }
}
