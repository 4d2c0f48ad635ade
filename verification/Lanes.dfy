/** The effect lane: which effects hold a pending run, and why none is ever forgotten. */
module Lanes {

  import opened Computation
  import opened Graphs
  import opened Frames
  import opened Steps
  import opened Evolution
  import opened EffectSteps

  /** The cells of every effect, and the reactor's job queue. `tainted` and `superseded` are history:
      effects whose last run unwound, and effects whose last body re-read a node at another
      version than it had first read. */
  datatype Lane = Lane(
    queue: seq<NodeId>,
    scheduled: set<NodeId>,
    rerun: set<NodeId>,
    running: set<NodeId>,
    disposed: set<NodeId>,
    body: map<NodeId, Body>,
    cleanups: map<NodeId, seq<Cleanup>>,
    tainted: set<NodeId>,
    superseded: set<NodeId>)

  // -------------------------------------------------------------------------------- invariant

  /** The latch and the queue are the same fact: a live effect has one job when it is latched and
      none otherwise. `opening` holds the effect whose job was just taken off the queue. */
  ghost predicate QueuedAt(g: Graph, l: Lane, opening: set<NodeId>, n: NodeId) {
    && (n in l.scheduled ==> IsEffect(g, n) && n !in l.disposed)
    && (n !in l.disposed ==> multiset(l.queue)[n] == if n in l.scheduled && n !in opening then 1 else 0)
    && (n in l.queue ==> n in l.disposed || IsEffect(g, n))
  }

  /** No lost wake-up: a stale live effect holds a pending run, or is owed one. */
  ghost predicate WokenAt(g: Graph, l: Lane, opening: set<NodeId>, n: NodeId) {
    IsEffect(g, n) && n !in l.disposed && n in g.state && g.state[n] != Clean && n !in opening ==>
      n in l.scheduled || n in l.rerun
  }

  /** Runs are owed, and marks cleared early, only within a run (or after one that unwound). */
  ghost predicate WindowedAt(g: Graph, l: Lane, opening: set<NodeId>, n: NodeId) {
    && (n in l.rerun ==> n in l.running || n in l.tainted)
    && (n in g.past.exempt ==> n in l.running || n in l.tainted || n in opening)
    && (n in l.running ==> IsEffect(g, n) && n !in l.disposed)
  }

  ghost predicate EventKept(e: Edges, hist: map<Stamp, Value>, n: NodeId, event: ReadEvent, superseded: bool) {
    && TrueTo(hist, event)
    && (event.tracked ==>
          && event.node in Deps(e, n)
          && event.version <= Deps(e, n)[event.node]
          && (!superseded ==> event.version == Deps(e, n)[event.node]))
  }

  ghost predicate Outdated(e: Edges, n: NodeId, event: ReadEvent) {
    event.tracked && event.node in Deps(e, n) && event.version < Deps(e, n)[event.node]
  }

  /** The recorded edges of an effect are its last body's tracked reads, each at the version of the
      last read of that node. */
  ghost predicate EventsKept(e: Edges, hist: map<Stamp, Value>, n: NodeId, events: seq<ReadEvent>, superseded: bool) {
    && (forall i :: 0 <= i < |events| ==> EventKept(e, hist, n, events[i], superseded))
    && (forall d {:trigger d in Deps(e, n)} :: d in Deps(e, n) ==> TracksNode(events, d))
    && (superseded ==> exists i :: 0 <= i < |events| && Outdated(e, n, events[i]))
  }

  ghost predicate LoggedAt(g: Graph, l: Lane, n: NodeId) {
    && n in l.body && n in g.past.log
    && BodyFollows(l.body[n], [], g.past.log[n])
    && EventsKept(g.edges, g.past.hist, n, g.past.log[n], n in l.superseded)
    && (NeverSplit(l.body[n]) ==> n !in l.superseded)
  }

  /** Logs exist exactly for completed bodies: a live effect that is not Dirty has one unless it is
      under way or its last run unwound. */
  ghost predicate LogOk(g: Graph, l: Lane, n: NodeId) {
    && (IsEffect(g, n) && n in g.past.log ==> LoggedAt(g, l, n) && n !in g.active)
    && (IsEffect(g, n) && n in g.state && g.state[n] != Dirty && !UnderWay(g, l, n) ==> n in g.past.log)
  }

  ghost predicate UnderWay(g: Graph, l: Lane, n: NodeId) {
    n in g.past.exempt || n in g.active || n in l.tainted || n in l.disposed
  }

  ghost predicate BodiesOk(g: Graph, l: Lane) {
    && (forall n :: IsEffect(g, n) ==> n in l.body && BodyScoped(l.body[n], g))
    && (forall n, i :: n in l.cleanups && 0 <= i < |l.cleanups[n]| ==> CleanupScoped(l.cleanups[n][i], g))
  }

  /** Only effects are on the stack, all of them inside their own run. */
  ghost predicate EffectFrames(g: Graph, fs: Frames, running: set<NodeId>) {
    match fs
    case Bottom => true
    case Push(f, below) => f.Computing? && IsEffect(g, f.node) && f.node in running && EffectFrames(g, below, running)
  }

  ghost predicate EffectOk(g: Graph, l: Lane, opening: set<NodeId>, n: NodeId) {
    QueuedAt(g, l, opening, n) && WokenAt(g, l, opening, n) && WindowedAt(g, l, opening, n) && LogOk(g, l, n)
  }

  ghost predicate LaneInv(g: Graph, fs: Frames, l: Lane, opening: set<NodeId>) {
    && (forall n :: EffectOk(g, l, opening, n))
    && BodiesOk(g, l)
    && EffectFrames(g, fs, l.running)
  }

  // ------------------------------------------------------------------------------- what it means

  /** At rest: nothing running, nothing queued. */
  ghost predicate AtRest(fs: Frames, l: Lane) {
    fs == Bottom && l.running == {} && l.queue == []
  }

  /** No run of `n` is owed that nothing queued, and no run cleared its mark and then ended before its body:
      nothing `n` was told has been lost. */
  ghost predicate NothingLost(g: Graph, l: Lane, n: NodeId) { n !in l.rerun && n !in g.past.exempt }

  /** Quiescence implies consistency: every live effect that has lost nothing is Clean and its recorded
      versions are current. If its last run did not unwind it has lost nothing, and its last body ran to the
      end making the recorded reads. */
  lemma QuiescentIsConsistent(g: Graph, fs: Frames, l: Lane, n: NodeId)
    requires Inv(g) && LaneInv(g, fs, l, {}) && AtRest(fs, l) && g.active == {}
    requires IsEffect(g, n) && n !in l.disposed
    ensures n !in l.rerun ==> InState(g, n, Clean)
    ensures NothingLost(g, l, n) ==> InState(g, n, Clean) && AllCurrent(g, n)
    ensures n !in l.tainted ==> NothingLost(g, l, n) && LoggedAt(g, l, n)
  {
    InvParts(g);
    hide Inv, ProgramsScoped, EdgesTyped, DirtyJustified, Valued, Historic, Acyclic, Mirrored, EdgesBelow, LoggedAt, BodiesOk;
    assert EffectOk(g, l, {}, n);
    assert multiset(l.queue)[n] == 0;
    assert n in g.state;
  }

  /** The tracked reads of an effect's last complete body all found the values from-scratch evaluation gives
      now, unless the body re-read a node it had itself made change. */
  lemma LastBodySawFromScratch(g: Graph, fs: Frames, l: Lane, n: NodeId, cone: set<NodeId>, i: nat)
    requires Inv(g) && LaneInv(g, fs, l, {}) && AtRest(fs, l) && g.active == {}
    requires IsEffect(g, n) && n !in l.disposed && NothingLost(g, l, n) && n !in l.superseded
    requires TrackedCone(g, cone) && (forall d {:trigger d in Deps(g.edges, n)} :: d in Deps(g.edges, n) ==> d in cone)
    requires n in g.past.log && i < |g.past.log[n]| && g.past.log[n][i].tracked
    ensures var event := g.past.log[n][i];
            event.version == Ver(g, event.node) && Evaluates(WorldOf(g), event.node, event.value)
  {
    QuiescentIsConsistent(g, fs, l, n);
    LoggedWhole(g, fs, l, n);
    hide Inv, LaneInv;
    var event := g.past.log[n][i];
    assert EventKept(g.edges, g.past.hist, n, event, false);
    assert Current(g, n, event.node);
    FreshKnows(g, event.node);
    FreshEvaluates(g, event.node, cone);
  }

  /** A log is that of a complete body. */
  lemma LoggedWhole(g: Graph, fs: Frames, l: Lane, n: NodeId)
    requires LaneInv(g, fs, l, {}) && IsEffect(g, n) && n in g.past.log
    ensures LoggedAt(g, l, n)
  {
    assert EffectOk(g, l, {}, n);
  }

  /** In particular, a body that never reads one node both before and after a write or flush of its own
      saw exactly what from-scratch evaluation gives now. */
  lemma NeverSplitSawFromScratch(g: Graph, fs: Frames, l: Lane, n: NodeId, cone: set<NodeId>, i: nat)
    requires Inv(g) && LaneInv(g, fs, l, {}) && AtRest(fs, l) && g.active == {}
    requires IsEffect(g, n) && n !in l.disposed && n !in l.tainted && n in l.body && NeverSplit(l.body[n])
    requires TrackedCone(g, cone) && (forall d {:trigger d in Deps(g.edges, n)} :: d in Deps(g.edges, n) ==> d in cone)
    ensures n in g.past.log && BodyFollows(l.body[n], [], g.past.log[n])
    ensures i < |g.past.log[n]| && g.past.log[n][i].tracked ==>
              Evaluates(WorldOf(g), g.past.log[n][i].node, g.past.log[n][i].value)
  {
    QuiescentIsConsistent(g, fs, l, n);
    hide Inv, LaneInv;
    if i < |g.past.log[n]| && g.past.log[n][i].tracked {
      LastBodySawFromScratch(g, fs, l, n, cone, i);
    }
  }

  /** Exactly when the reads of the last complete body are all current: when it re-read no node at another
      version. */
  lemma ReadsCurrentIffNotSuperseded(g: Graph, fs: Frames, l: Lane, n: NodeId)
    requires Inv(g) && LaneInv(g, fs, l, {}) && AtRest(fs, l) && g.active == {}
    requires IsEffect(g, n) && n !in l.disposed && NothingLost(g, l, n) && n in g.past.log
    ensures (forall i :: 0 <= i < |g.past.log[n]| && g.past.log[n][i].tracked ==>
               g.past.log[n][i].version == Ver(g, g.past.log[n][i].node))
            <==> n !in l.superseded
  {
    QuiescentIsConsistent(g, fs, l, n);
    LoggedWhole(g, fs, l, n);
    hide Inv, LaneInv;
    var events := g.past.log[n];
    forall i | 0 <= i < |events| && events[i].tracked
      ensures events[i].node in Deps(g.edges, n) && Deps(g.edges, n)[events[i].node] == Ver(g, events[i].node)
      ensures n !in l.superseded ==> events[i].version == Ver(g, events[i].node)
    {
      assert EventKept(g.edges, g.past.hist, n, events[i], n in l.superseded);
      assert Current(g, n, events[i].node);
    }
    if n in l.superseded {
      var i :| 0 <= i < |events| && Outdated(g.edges, n, events[i]);
    }
  }

  // ----------------------------------------------------------------------------------- steps

  /** Everything about effect `m` is the same. */
  ghost predicate SameEffect(g: Graph, l: Lane, g': Graph, l': Lane, m: NodeId) {
    && SameKind(g, g', m)
    && (IsEffect(g, m) ==> SameNode(g, g', m) && (m in g.active <==> m in g'.active))
    && (m in g.past.exempt <==> m in g'.past.exempt)
    && multiset(l.queue)[m] == multiset(l'.queue)[m]
    && (m in l.scheduled <==> m in l'.scheduled)
    && (m in l.rerun <==> m in l'.rerun)
    && (m in l.running <==> m in l'.running)
    && (m in l.disposed <==> m in l'.disposed)
    && (m in l.tainted <==> m in l'.tainted)
    && (m in l.superseded <==> m in l'.superseded)
  }

  ghost predicate BodyStays(l: Lane, l': Lane, m: NodeId) {
    m in l.body ==> m in l'.body && l'.body[m] == l.body[m]
  }

  /** Effect `m` stays in order when nothing about it changes and history only grows. */
  lemma SameEffectOk(g: Graph, l: Lane, g': Graph, l': Lane, opening: set<NodeId>, opening': set<NodeId>, m: NodeId)
    requires EffectOk(g, l, opening, m) && SameEffect(g, l, g', l', m) && (m in opening <==> m in opening')
    requires HistKept(g, g') && BodyStays(l, l', m)
    ensures EffectOk(g', l', opening', m)
  {
    assert m in l.queue <==> multiset(l.queue)[m] > 0;
    assert m in l'.queue <==> multiset(l'.queue)[m] > 0;
    if IsEffect(g, m) && m in g.past.log {
      EventsElsewhere(g, g', m, g.past.log[m], m in l.superseded);
    }
  }

  lemma EventsElsewhere(g: Graph, g': Graph, m: NodeId, events: seq<ReadEvent>, superseded: bool)
    requires EventsKept(g.edges, g.past.hist, m, events, superseded) && Deps(g'.edges, m) == Deps(g.edges, m) && HistKept(g, g')
    ensures EventsKept(g'.edges, g'.past.hist, m, events, superseded)
  {
    forall i | 0 <= i < |events|
      ensures EventKept(g'.edges, g'.past.hist, m, events[i], superseded)
    {
      assert EventKept(g.edges, g.past.hist, m, events[i], superseded);
    }
    if superseded {
      var i :| 0 <= i < |events| && Outdated(g.edges, m, events[i]);
      assert Outdated(g'.edges, m, events[i]);
    }
  }

  /** A step that touches one effect keeps the lane in order as soon as that effect is in order. */
  lemma LaneStep(g: Graph, fs: Frames, l: Lane, opening: set<NodeId>, g': Graph, fs': Frames, l': Lane, opening': set<NodeId>, n: NodeId)
    requires LaneInv(g, fs, l, opening) && opening <= {n} && opening' <= {n}
    requires forall m :: m != n ==> SameEffect(g, l, g', l', m)
    requires HistKept(g, g') && forall m :: m != n ==> BodyStays(l, l', m)
    requires EffectOk(g', l', opening', n) && BodiesOk(g', l') && EffectFrames(g', fs', l'.running)
    ensures LaneInv(g', fs', l', opening')
  {
    forall m
      ensures EffectOk(g', l', opening', m)
    {
      if m != n {
        assert EffectOk(g, l, opening, m);
        SameEffectOk(g, l, g', l', opening, opening', m);
      }
    }
  }

  lemma BodiesKept(g: Graph, l: Lane, g': Graph, l': Lane)
    requires BodiesOk(g, l) && (forall m :: SameKind(g, g', m)) && l'.body == l.body && l'.cleanups == l.cleanups
    ensures BodiesOk(g', l')
  {
    SameKindsKeep(g, g');
    forall n | IsEffect(g', n)
      ensures n in l'.body && BodyScoped(l'.body[n], g')
    {
      assert SameKind(g, g', n);
      BodyScopedStays(l.body[n], g, g');
    }
  }

  lemma {:induction false} EffectFramesKept(g: Graph, g': Graph, fs: Frames, running: set<NodeId>, running': set<NodeId>)
    requires EffectFrames(g, fs, running) && (forall m :: SameKind(g, g', m))
    requires forall m :: m in Busy(fs) && m in running ==> m in running'
    ensures EffectFrames(g', fs, running')
  {
    if fs.Push? {
      assert SameKind(g, g', fs.top.node);
      assert fs.top.node in Busy(fs);
      EffectFramesKept(g, g', fs.below, running, running');
    }
  }

  lemma {:induction false} EffectFramesOnStack(g: Graph, fs: Frames, running: set<NodeId>)
    requires EffectFrames(g, fs, running)
    ensures OnStack(fs) == Busy(fs) <= running
    ensures forall m :: m in Busy(fs) ==> IsEffect(g, m)
    ensures fs.Push? ==> fs.top.Computing?
  {
    if fs.Push? {
      EffectFramesOnStack(g, fs.below, running);
    }
  }
}
