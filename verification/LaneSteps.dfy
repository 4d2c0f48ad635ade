/** The steps of an effect run, and the proof that each keeps every effect accounted for. */
module LaneSteps {

  import opened Computation
  import opened Graphs
  import opened Frames
  import opened Steps
  import opened Evolution
  import opened Marking
  import opened EffectSteps
  import opened Lanes

  // ------------------------------------------------------------------------------ the latch

  ghost function Unlatched(l: Lane, n: NodeId): Lane { l.(scheduled := l.scheduled - {n}) }

  /** Scheduling coalesces with a pending run and skips a disposed effect. */
  ghost function Latched(l: Lane, n: NodeId): Lane {
    if n in l.disposed || n in l.scheduled then l
    else l.(scheduled := l.scheduled + {n}, queue := l.queue + [n])
  }

  ghost function Popped(l: Lane): Lane
    requires l.queue != []
  {
    l.(queue := l.queue[1..])
  }

  lemma PopKeeps(g: Graph, fs: Frames, l: Lane)
    requires LaneInv(g, fs, l, {}) && l.queue != []
    ensures LaneInv(g, fs, Popped(l), {l.queue[0]}) && WindowedAt(g, Popped(l), {}, l.queue[0])
    ensures l.queue[0] !in l.disposed ==> IsEffect(g, l.queue[0])
  {
    var n := l.queue[0];
    assert l.queue == [n] + l.queue[1..];
    assert EffectOk(g, l, {}, n);
    LaneStep(g, fs, l, {}, g, fs, Popped(l), {n}, n);
  }

  /** The job of a disposed effect does nothing. */
  lemma DisposedJobKeeps(g: Graph, fs: Frames, l: Lane, n: NodeId)
    requires LaneInv(g, fs, l, {n}) && WindowedAt(g, l, {}, n) && n in l.disposed
    ensures LaneInv(g, fs, l, {}) && Unlatched(l, n) == l
  {
    assert EffectOk(g, l, {n}, n);
    LaneStep(g, fs, l, {n}, g, fs, l, {}, n);
  }

  /** A run that arrives while the effect is running is owed, not started. */
  lemma DeferKeeps(g: Graph, fs: Frames, l: Lane, n: NodeId)
    requires LaneInv(g, fs, l, {n}) && n in l.running
    ensures LaneInv(g, fs, Unlatched(l, n).(rerun := l.rerun + {n}), {})
  {
    assert EffectOk(g, l, {n}, n);
    LaneStep(g, fs, l, {n}, g, fs, Unlatched(l, n).(rerun := l.rerun + {n}), {}, n);
  }

  // ------------------------------------------------------------------- verification and window

  lemma TakeMarkKeeps(g: Graph, fs: Frames, l: Lane, n: NodeId)
    requires LaneInv(g, fs, l, {n}) && IsEffect(g, n) && n !in l.disposed && n !in l.running && n in g.state
    ensures LaneInv(MarkTaken(g, n), fs, Unlatched(l, n), {n})
  {
    TakenEffect(g, l, n);
    hide EffectOk;
    MarkStep(g, fs, l, MarkTaken(g, n), Unlatched(l, n), {n}, n);
  }

  lemma TakenEffect(g: Graph, l: Lane, n: NodeId)
    requires EffectOk(g, l, {n}, n) && IsEffect(g, n) && n !in l.disposed && n !in l.running && n in g.state
    ensures EffectOk(MarkTaken(g, n), Unlatched(l, n), {n}, n)
  {
    if n in g.past.log {
      EventsElsewhere(g, MarkTaken(g, n), n, g.past.log[n], n in l.superseded);
    }
  }

  /** A run whose effect needs nothing: the latch is released and that is all. */
  lemma IdleKeeps(g: Graph, fs: Frames, l: Lane, n: NodeId)
    requires LaneInv(g, fs, l, {n}) && WindowedAt(g, l, {}, n) && InState(g, n, Clean)
    ensures LaneInv(g, fs, Unlatched(l, n), {})
  {
    assert EffectOk(g, l, {n}, n);
    LaneStep(g, fs, l, {n}, g, fs, Unlatched(l, n), {}, n);
  }

  /** A live effect that is not Dirty has a log, or its last run unwound. */
  lemma LoggedOrTainted(g: Graph, fs: Frames, l: Lane, n: NodeId)
    requires LaneInv(g, fs, l, {n}) && WindowedAt(g, l, {}, n) && g.active == OnStack(fs)
    requires IsEffect(g, n) && n in g.state && g.state[n] != Dirty && n !in l.disposed && n !in l.running
    ensures n in g.past.log || n in l.tainted
  {
    assert EffectOk(g, l, {n}, n);
    EffectFramesOnStack(g, fs, l.running);
  }

  lemma SkipKeeps(g: Graph, fs: Frames, l: Lane, n: NodeId)
    requires LaneInv(g, fs, l, {n}) && IsEffect(g, n) && InState(g, n, Clean) && n !in l.scheduled
    requires n in g.past.log || n in l.tainted
    ensures LaneInv(Settled(g, n), fs, l, {})
  {
    SkippedEffect(g, l, n);
    hide EffectOk;
    MarkStep(g, fs, l, Settled(g, n), l, {}, n);
  }

  lemma SkippedEffect(g: Graph, l: Lane, n: NodeId)
    requires EffectOk(g, l, {n}, n) && IsEffect(g, n) && InState(g, n, Clean) && n !in l.scheduled
    requires n in g.past.log || n in l.tainted
    ensures EffectOk(Settled(g, n), l, {}, n)
  {
    if n in g.past.log {
      EventsElsewhere(g, Settled(g, n), n, g.past.log[n], n in l.superseded);
    }
  }

  /** Verification unwound: the effect is Dirty and queued again. */
  lemma RecoverKeeps(g: Graph, fs: Frames, l: Lane, n: NodeId)
    requires LaneInv(g, fs, l, {n}) && IsEffect(g, n) && n in g.state && n !in l.scheduled && n !in l.disposed
    ensures LaneInv(MarkRestored(g, n), fs, Latched(l, n), {})
    ensures n in Latched(l, n).scheduled
  {
    RecoveredEffect(g, l, n);
    hide EffectOk;
    MarkStep(g, fs, l, MarkRestored(g, n), Latched(l, n), {}, n);
  }

  lemma RecoveredEffect(g: Graph, l: Lane, n: NodeId)
    requires EffectOk(g, l, {n}, n) && IsEffect(g, n) && n in g.state && n !in l.scheduled && n !in l.disposed
    ensures EffectOk(MarkRestored(g, n), Latched(l, n), {}, n)
  {
    if n in g.past.log {
      EventsElsewhere(g, MarkRestored(g, n), n, g.past.log[n], n in l.superseded);
    }
  }

  /** A step that changes only the mark of effect `n`, its exemption and its latch. */
  lemma MarkStep(g: Graph, fs: Frames, l: Lane, g': Graph, l': Lane, opening': set<NodeId>, n: NodeId)
    requires LaneInv(g, fs, l, {n}) && opening' <= {n} && n in g'.state
    requires g' == g.(state := g.state[n := g'.state[n]], past := g.past.(exempt := g'.past.exempt))
    requires g'.past.exempt - {n} == g.past.exempt - {n}
    requires l' == l.(queue := l'.queue, scheduled := l'.scheduled) && l'.scheduled - {n} == l.scheduled - {n}
    requires forall m :: m != n ==> multiset(l'.queue)[m] == multiset(l.queue)[m]
    requires EffectOk(g', l', opening', n)
    ensures LaneInv(g', fs, l', opening')
  {
    hide EffectOk;
    forall m | m != n
      ensures SameEffect(g, l, g', l', m)
    {
      assert m in l'.scheduled - {n} <==> m in l.scheduled - {n};
      assert m in g'.past.exempt - {n} <==> m in g.past.exempt - {n};
    }
    BodiesKept(g, l, g', l');
    EffectFramesKept(g, g', fs, l.running, l.running);
    hide BodiesOk, EffectFrames, SameEffect;
    LaneStep(g, fs, l, {n}, g', fs, l', opening', n);
  }

  /** The divergence guard fired: the effect's mark is gone and its edges may be stale. */
  lemma DivergeKeeps(g: Graph, fs: Frames, l: Lane, n: NodeId)
    requires LaneInv(g, fs, l, {n}) && IsEffect(g, n) && InState(g, n, Clean) && n !in l.scheduled
    ensures LaneInv(g, fs, l.(tainted := l.tainted + {n}), {})
  {
    assert EffectOk(g, l, {n}, n);
    LaneStep(g, fs, l, {n}, g, fs, l.(tainted := l.tainted + {n}), {}, n);
  }

  lemma OpenWindowKeeps(g: Graph, fs: Frames, l: Lane, n: NodeId)
    requires LaneInv(g, fs, l, {n}) && IsEffect(g, n) && InState(g, n, Clean) && n !in l.scheduled && n !in l.disposed
    ensures LaneInv(g, fs, l.(running := l.running + {n}), {})
  {
    assert EffectOk(g, l, {n}, n);
    EffectFramesKept(g, g, fs, l.running, l.running + {n});
    LaneStep(g, fs, l, {n}, g, fs, l.(running := l.running + {n}), {}, n);
  }

  // ----------------------------------------------------------------------------- running a body

  ghost function InBody(l: Lane, n: NodeId): Lane { l.(superseded := l.superseded - {n}) }

  lemma EnterBodyKeeps(g: Graph, e': Edges, fs: Frames, l: Lane, n: NodeId)
    requires LaneInv(g, fs, l, {}) && n in l.running && n !in Busy(fs) && EdgesCleared(g.edges, e', n)
    ensures LaneInv(BodyEntered(g, e', n), Push(Computing(n), fs), InBody(l, n), {})
  {
    var g' := BodyEntered(g, e', n);
    assert EffectOk(g, l, {}, n);
    BodiesKept(g, l, g', InBody(l, n));
    EffectFramesKept(g, g', fs, l.running, l.running);
    assert EffectOk(g', InBody(l, n), {}, n);
    forall m | m != n
      ensures SameEffect(g, l, g', InBody(l, n), m)
    {
    }
    LaneStep(g, fs, l, {}, g', Push(Computing(n), fs), InBody(l, n), {}, n);
  }

  /** The body ran to its end: its reads are on record and an earlier unwinding is forgotten. */
  lemma LeaveBodyKeeps(g: Graph, fs: Frames, l: Lane, n: NodeId, events: seq<ReadEvent>)
    requires LaneInv(g, fs, l, {}) && fs.Push? && fs.top == Computing(n) && n !in Busy(fs.below) && n in l.body
    requires BodyFollows(l.body[n], [], events) && EventsKept(g.edges, g.past.hist, n, events, n in l.superseded)
    requires n !in g.past.exempt && (NeverSplit(l.body[n]) ==> n !in l.superseded)
    ensures LaneInv(BodyLeft(g, n, events), fs.below, l.(tainted := l.tainted - {n}), {})
  {
    var g', l' := BodyLeft(g, n, events), l.(tainted := l.tainted - {n});
    assert EffectOk(g, l, {}, n);
    assert n in l.running;
    EventsElsewhere(g, g', n, events, n in l.superseded);
    BodiesKept(g, l, g', l');
    EffectFramesKept(g, g', fs.below, l.running, l.running);
    assert EffectOk(g', l', {}, n);
    LaneStep(g, fs, l, {}, g', fs.below, l', {}, n);
  }

  /** The run owed is queued. */
  lemma RerunKeeps(g: Graph, fs: Frames, l: Lane, n: NodeId)
    requires LaneInv(g, fs, l, {}) && n in l.running
    ensures LaneInv(g, fs, Latched(l, n).(rerun := l.rerun - {n}), {})
  {
    assert EffectOk(g, l, {}, n);
    LaneStep(g, fs, l, {}, g, fs, Latched(l, n).(rerun := l.rerun - {n}), {}, n);
  }

  /** The window closes after a complete run, with no run owed and no mark cleared early. */
  lemma CloseWindowKeeps(g: Graph, fs: Frames, l: Lane, n: NodeId)
    requires LaneInv(g, fs, l, {}) && n in l.running && n !in l.rerun && n !in g.past.exempt && n !in Busy(fs)
    ensures LaneInv(g, fs, l.(running := l.running - {n}), {})
  {
    assert EffectOk(g, l, {}, n);
    EffectFramesKept(g, g, fs, l.running, l.running - {n});
    LaneStep(g, fs, l, {}, g, fs, l.(running := l.running - {n}), {}, n);
  }

  /** The window closes because teardown or the body unwound. */
  lemma AbandonKeeps(g: Graph, fs: Frames, l: Lane, n: NodeId)
    requires LaneInv(g, fs, l, {}) && n in l.running && n !in Busy(fs)
    ensures LaneInv(g, fs, l.(running := l.running - {n}, tainted := l.tainted + {n}), {})
  {
    assert EffectOk(g, l, {}, n);
    EffectFramesKept(g, g, fs, l.running, l.running - {n});
    LaneStep(g, fs, l, {}, g, fs, l.(running := l.running - {n}, tainted := l.tainted + {n}), {}, n);
  }

  lemma UnwindBodyKeeps(g: Graph, fs: Frames, l: Lane, n: NodeId)
    requires LaneInv(g, fs, l, {}) && fs.Push? && fs.top == Computing(n) && n !in Busy(fs.below)
    ensures LaneInv(BodyUnwound(g, n), fs.below, l.(running := l.running - {n}, tainted := l.tainted + {n}), {})
  {
    var g', l' := BodyUnwound(g, n), l.(running := l.running - {n}, tainted := l.tainted + {n});
    assert EffectOk(g, l, {}, n);
    BodiesKept(g, l, g', l');
    EffectFramesKept(g, g', fs.below, l.running, l'.running);
    assert EffectOk(g', l', {}, n);
    LaneStep(g, fs, l, {}, g', fs.below, l', {}, n);
  }

  /** Registering cleanups, or taking them off the list, is no concern of the lane. */
  lemma CleanupsKeep(g: Graph, fs: Frames, l: Lane, n: NodeId, list: seq<Cleanup>)
    requires LaneInv(g, fs, l, {}) && forall i :: 0 <= i < |list| ==> CleanupScoped(list[i], g)
    ensures LaneInv(g, fs, l.(cleanups := l.cleanups[n := list]), {})
  {
    var l' := l.(cleanups := l.cleanups[n := list]);
    assert EffectOk(g, l, {}, n);
    hide CleanupScoped, BodyScoped;
    LaneStep(g, fs, l, {}, g, fs, l', {}, n);
  }

  // -------------------------------------------------------------------------- reads and writes

  /** Refreshing, and recording reads for at most the running effect `n`, leaves the lane in order. */
  lemma RefreshKeepsLane(
    g: Graph, fs: Frames, l: Lane, opening: set<NodeId>, g': Graph, l': Lane, busy: set<NodeId>, open: set<NodeId>, ok: bool, n: NodeId)
    requires LaneInv(g, fs, l, opening) && opening <= {n} && Evolves(g, g', busy, open, ok) && open <= {n}
    requires l' == l.(superseded := l'.superseded) && l'.superseded - open == l.superseded - open
    requires open != {} ==> IsEffect(g, n) && n in g.active
    ensures LaneInv(g', fs, l', opening)
  {
    forall m
      ensures SameKind(g, g', m)
      ensures m !in open ==> SameEffect(g, l, g', l', m)
    {
      assert EvolvesAt(g, g', busy, open, ok, m);
      assert m !in open ==> (m in l.superseded <==> m in l'.superseded - open);
    }
    BodiesKept(g, l, g', l');
    EffectFramesKept(g, g', fs, l.running, l.running);
    assert EffectOk(g, l, opening, n);
    if n in open {
      assert EvolvesAt(g, g', busy, open, ok, n);
      assert EffectOk(g', l', opening, n);
    } else {
      SameEffectOk(g, l, g', l', opening, opening, n);
    }
    LaneStep(g, fs, l, opening, g', fs, l', opening, n);
  }

  /** What marking does to the lane: every effect whose mark changed is latched, and none that is Clean. */
  ghost predicate LaneMarked(before: States, after: States, l: Lane, l': Lane) {
    && l' == l.(queue := l'.queue, scheduled := l'.scheduled)
    && (forall n :: LatchedIfChanged(before, after, l, l', n))
  }

  ghost predicate LatchedIfChanged(before: States, after: States, l: Lane, l': Lane, n: NodeId) {
    && (n in l.scheduled ==> n in l'.scheduled)
    && (n in before && n in after && after[n] != before[n] && n !in l.disposed ==> n in l'.scheduled || n !in Effects(l))
    && (n in l'.scheduled && n !in l.scheduled ==> n in Effects(l) && n !in l.disposed && n in after && after[n] != Clean)
    && multiset(l'.queue)[n] == multiset(l.queue)[n] + if n in l'.scheduled && n !in l.scheduled then 1 else 0
  }

  lemma LaneMarkedTransitive(a: States, b: States, c: States, l: Lane, l1: Lane, l2: Lane)
    requires LaneMarked(a, b, l, l1) && LaneMarked(b, c, l1, l2) && a.Keys == b.Keys && Raised(b, c)
    ensures LaneMarked(a, c, l, l2)
  {
    forall n
      ensures LatchedIfChanged(a, c, l, l2, n)
    {
      assert LatchedIfChanged(a, b, l, l1, n) && LatchedIfChanged(b, c, l1, l2, n);
    }
  }

  /** A mark delivered to a computed node leaves the lane alone. */
  lemma UnlanedMark(before: States, mark: State, l: Lane, n: NodeId)
    requires n !in Effects(l)
    ensures LaneMarked(before, before[n := mark], l, l)
  {
  }

  lemma LanedMark(before: States, mark: State, l: Lane, n: NodeId)
    requires n in Effects(l) && mark != Clean
    ensures LaneMarked(before, before[n := mark], l, Latched(l, n))
  {
  }

  /** Every effect in `after` that was not in `before` has work to do. */
  ghost predicate LatchedForCause(before: set<NodeId>, after: set<NodeId>, states: States) {
    forall n :: n in after && n !in before ==> n in states && states[n] != Clean
  }

  lemma MarkingLatchesStale(before: States, after: States, l: Lane, l': Lane)
    requires LaneMarked(before, after, l, l')
    ensures LatchedForCause(l.scheduled, l'.scheduled, after)
  {
    forall n | n in l'.scheduled && n !in l.scheduled
      ensures n in after && after[n] != Clean
    {
      assert LatchedIfChanged(before, after, l, l', n);
    }
  }

  /** The effects, as the lane knows them. */
  ghost function Effects(l: Lane): set<NodeId> { l.body.Keys }

  lemma WriteKeepsLane(g: Graph, fs: Frames, l: Lane, g': Graph, l': Lane, s: NodeId, v: Value)
    requires LaneInv(g, fs, l, {}) && WrittenAndMarked(g, g', s, v) && LaneMarked(g.state, g'.state, l, l')
    requires forall n :: IsEffect(g, n) <==> n in Effects(l)
    requires HistKept(g, g')
    ensures LaneInv(g', fs, l', {})
  {
    WriteKinds(g, g', s, v);
    forall n
      ensures EffectOk(g', l', {}, n)
    {
      assert EffectOk(g, l, {}, n);
      assert LatchedIfChanged(g.state, g'.state, l, l', n);
      WriteKeepsEffect(g, l, g', l', s, v, n);
    }
    hide WrittenAndMarked, LaneMarked, EffectOk;
    LaneMarkedSame(g.state, g'.state, l, l');
    BodiesKept(g, l, g', l');
    EffectFramesKept(g, g', fs, l.running, l.running);
  }

  lemma LaneMarkedSame(before: States, after: States, l: Lane, l': Lane)
    requires LaneMarked(before, after, l, l')
    ensures l'.running == l.running && l'.body == l.body && l'.cleanups == l.cleanups
  {
  }

  lemma WriteKeepsEffect(g: Graph, l: Lane, g': Graph, l': Lane, s: NodeId, v: Value, n: NodeId)
    requires EffectOk(g, l, {}, n) && WrittenAndMarked(g, g', s, v) && LatchedIfChanged(g.state, g'.state, l, l', n)
    requires l' == l.(queue := l'.queue, scheduled := l'.scheduled) && (IsEffect(g, n) <==> n in Effects(l))
    requires SameKind(g, g', n) && HistKept(g, g')
    ensures EffectOk(g', l', {}, n)
  {
    assert multiset(l'.queue)[n] > 0 <==> n in l'.queue;
    assert multiset(l.queue)[n] > 0 <==> n in l.queue;
    assert n in g.state ==> g.state[n].Level() <= g'.state[n].Level();
    if IsEffect(g, n) && n in g.past.log {
      EventsElsewhere(g, g', n, g.past.log[n], n in l.superseded);
    }
  }
}
