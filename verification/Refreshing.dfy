/** Why a refresh may ask for a node, and why asking again for a node under verification comes to an
    end: it replays the same prefix and runs into a closure already on the stack. */
module Refreshing {

  import opened Computation
  import opened Graphs
  import opened Frames
  import opened Steps
  import opened Evolution

  /** A node may be asked for when asking is immediate (it is fresh, or on the stack), when it is
      what the record on top is waiting for, or when it is already under verification with some
      closure running further in. */
  ghost predicate MayAsk(g: Graph, fs: Frames, n: NodeId) {
    Fresh(g, n) || n in g.active || if n in Busy(fs) then ComputingAbove(fs, n) else Linked(g.edges, fs, n)
  }

  lemma LinkedMayAsk(g: Graph, fs: Frames, n: NodeId)
    requires Inv(g) && Framed(g, fs) && g.active == OnStack(fs) && Linked(g.edges, fs, n)
    ensures MayAsk(g, fs, n)
  {
    hide EdgesBelow, DirtyJustified, Valued, Historic, CleanClosed, ProgramsScoped, EdgesTyped, Typed;
    if n in Busy(fs) && n !in g.active {
      ReentryMeetsStack(g, fs, n, n);
    }
  }

  ghost predicate MayVerify(g: Graph, fs: Frames, n: NodeId) {
    && n in g.state && n !in g.active
    && (if n in Busy(fs) then Computed(g, n) && ComputingAbove(fs, n)
        else Linked(g.edges, fs, n) && if IsEffect(g, n) then n in g.past.exempt else g.state[n] == Check)
  }

  lemma BeginVerify(g: Graph, fs: Frames, n: NodeId)
    requires Framed(g, fs) && MayVerify(g, fs, n) && n !in Busy(fs)
    ensures Framed(g, Push(Verifying(n, 0), fs))
  {
  }

  lemma VerifyingRecord(fs: Frames, n: NodeId, pos: nat)
    ensures var up := Push(Verifying(n, pos), fs);
            OnStack(up) == OnStack(fs) && Stack(up) == Stack(fs) && Busy(up) == Busy(fs) + {n} && Height(up) == Height(fs) + 1
  {
  }

  /** The dependency just asked for is current: the record moves on. */
  lemma Advance(g: Graph, fs: Frames, n: NodeId, pos: nat)
    requires Framed(g, Push(Verifying(n, pos), fs)) && pos < |Order(g.edges, n)| && Current(g, n, Order(g.edges, n)[pos])
    ensures Framed(g, Push(Verifying(n, pos + 1), fs))
  {
  }

  lemma Dismiss(g: Graph, fs: Frames, n: NodeId, pos: nat)
    requires Framed(g, Push(Verifying(n, pos), fs))
    ensures Framed(g, fs) && PrefixCurrent(g, n, pos)
  {
  }

  lemma NextIsLinked(g: Graph, fs: Frames, n: NodeId, pos: nat)
    requires Inv(g) && Framed(g, Push(Verifying(n, pos), fs)) && g.active == OnStack(fs) && pos < |Order(g.edges, n)|
    ensures MayAsk(g, Push(Verifying(n, pos), fs), Order(g.edges, n)[pos])
    ensures Order(g.edges, n)[pos] in Deps(g.edges, n) && Order(g.edges, n)[pos] in Readable(g.meta)
  {
    var d := Order(g.edges, n)[pos];
    VerifyingRecord(fs, n, pos);
    LinkedMayAsk(g, Push(Verifying(n, pos), fs), d);
    OrderedIsDep(g, n, pos);
  }

  lemma OrderedIsDep(g: Graph, n: NodeId, pos: nat)
    requires Inv(g) && pos < |Order(g.edges, n)|
    ensures Order(g.edges, n)[pos] in Deps(g.edges, n) && Order(g.edges, n)[pos] in Readable(g.meta)
  {
    hide EdgesBelow, DirtyJustified, Valued, Historic, CleanClosed, ProgramsScoped, Typed, Acyclic;
    var d := Order(g.edges, n)[pos];
    assert d in Order(g.edges, n);
    assert d in Deps(g.edges, n);
  }

  /** A node asked for again while under verification: every dependency before `pos` is fresh and
      unchanged, and the one at `pos` is itself on the stack or under verification further in. */
  ghost predicate Reentrant(g: Graph, fs: Frames, n: NodeId, pos: nat) {
    && pos < |Order(g.edges, n)|
    && PrefixCurrent(g, n, pos)
    && Order(g.edges, n)[pos] in Busy(fs)
    && MayAsk(g, fs, Order(g.edges, n)[pos])
    && Above(fs, Order(g.edges, n)[pos]) < Above(fs, n)
  }

  lemma ReentryReplays(g: Graph, fs: Frames, n: NodeId) returns (pos: nat)
    requires Framed(g, fs) && g.active == OnStack(fs) && MayVerify(g, fs, n) && n in Busy(fs)
    ensures Reentrant(g, fs, n, pos) && InState(g, n, Check)
  {
    pos := VerifyingIsPending(g, fs, n, n);
    AskedIsAbove(g, fs, n, n);
    if Asked(fs, n, n) !in OnStack(fs) {
      ComputingStillAbove(g, fs, n, n);
    }
  }

  lemma AllAsked(g: Graph, n: NodeId)
    requires Mirrored(g.edges) && PrefixCurrent(g, n, |Order(g.edges, n)|)
    ensures AllCurrent(g, n)
  {
    forall d | d in Deps(g.edges, n)
      ensures Current(g, n, d)
    {
      assert d in Order(g.edges, n);
    }
  }

  lemma VersionMoved(g: Graph, n: NodeId, d: NodeId)
    requires EdgesTyped(g) && d in Deps(g.edges, n) && Ver(g, d) != Deps(g.edges, n)[d]
    ensures Moved(g, n, d)
  {
  }

  /** One more dependency was brought up to date while `n` is under verification. */
  lemma AfterAsk(g: Graph, g1: Graph, g2: Graph, busy: set<NodeId>, n: NodeId, ok: bool)
    requires n in busy && Evolves(g, g1, busy, {}, true) && Evolves(g1, g2, busy, {}, ok)
    ensures Evolves(g, g2, busy, {}, ok)
    ensures Order(g2.edges, n) == Order(g1.edges, n) && Deps(g2.edges, n) == Deps(g1.edges, n)
    ensures g2.meta.Keys == g.meta.Keys && g2.program == g.program
  {
    EvolvesTransitive(g, g1, g2, busy, {}, ok);
    assert EvolvesAt(g1, g2, busy, {}, ok, n);
  }

  /** What is below the stack and the records stays below after a refresh. */
  lemma SameAfter(g: Graph, g': Graph, busy: set<NodeId>, open: set<NodeId>, ok: bool, n: NodeId)
    requires Evolves(g, g', busy, open, ok)
    ensures g'.meta.Keys == g.meta.Keys && g'.program == g.program && g'.active == g.active && g'.past.exempt == g.past.exempt
    ensures SameKind(g, g', n)
    ensures n in busy && n !in open ==> SameNode(g, g', n)
  {
    assert EvolvesAt(g, g', busy, open, ok, n);
  }

  ghost predicate MayObserve(g: Graph, fs: Frames, n: NodeId) {
    && Fresh(g, n)
    && (fs.Push? ==> fs.top.Computing?)
    && (Layered(g.program) && fs.Push? && fs.top.node in g.program ==> n.raw < fs.top.node.raw)
  }

  /** A read of `n` by `t` overwrites an edge recorded at another version. */
  ghost predicate Supersedes(e: Edges, t: NodeId, n: NodeId, version: int) {
    n in Deps(e, t) && Deps(e, t)[n] != version
  }

  /** The readers whose earlier read of `n` a completed read overwrites. */
  ghost function Overwritten(e: Edges, readers: set<NodeId>, done: bool, n: NodeId, version: int): set<NodeId> {
    if done then set t | t in readers && Supersedes(e, t, n, version) else {}
  }

  ghost predicate ReadRecorded(e: Edges, e': Edges, t: NodeId, n: NodeId, version: int) {
    Deps(e', t) == Deps(e, t)[n := version]
  }

  /** The reading code is a running closure or stands outside the graph. */
  ghost predicate MayRead(program: map<NodeId, Comp>, fs: Frames, n: NodeId) {
    && (fs.Push? ==> fs.top.Computing?)
    && (Layered(program) && fs.Push? && fs.top.node in program ==> n.raw < fs.top.node.raw)
  }

  // ----------------------------------------------------------------------- asking and settling

  lemma FreshNotBusy(g: Graph, fs: Frames, n: NodeId)
    requires Framed(g, fs) && g.active == OnStack(fs) && Fresh(g, n) && Typed(g)
    ensures n !in Busy(fs)
  {
    if n in Busy(fs) {
      BusyKind(g, fs, n);
    }
  }

  lemma {:induction false} BusyKind(g: Graph, fs: Frames, n: NodeId)
    requires Framed(g, fs) && n in Busy(fs)
    ensures n in g.state && (n in OnStack(fs) || IsEffect(g, n) || g.state[n] == Check)
  {
    if fs.top.node != n {
      BusyKind(g, fs.below, n);
    }
  }

  lemma AskedFacts(g: Graph, fs: Frames, n: NodeId)
    requires Inv(g) && Framed(g, fs) && g.active == OnStack(fs) && n in Readable(g.meta)
    ensures n in g.state ==> Computed(g, n)
    ensures n !in g.state ==> Fresh(g, n) && n !in Busy(fs)
    ensures n in g.active ==> n in Busy(fs) && !Fresh(g, n)
  {
    InvParts(g);
    hide Inv, ProgramsScoped, EdgesTyped, CleanClosed, DirtyJustified, Valued, Historic, Acyclic, Mirrored, EdgesBelow, Layered;
    StackInBusy(fs);
    BusyHasState(g, fs);
  }

  lemma RefreshFacts(g: Graph, fs: Frames, n: NodeId)
    requires Inv(g) && Framed(g, fs) && g.active == OnStack(fs) && Computed(g, n) && n in g.state && n !in g.active
    requires MayAsk(g, fs, n)
    ensures n in g.program && (g.state[n] == Clean <==> Fresh(g, n))
    ensures n in Busy(fs) ==> g.state[n] == Check
    ensures g.state[n] == Check ==> MayVerify(g, fs, n)
    ensures g.state[n] == Dirty ==> MayCompute(g, fs, n) && WarrantedBy(g, g, n)
  {
    InvParts(g);
    hide Inv, ProgramsScoped, EdgesTyped, CleanClosed, Valued, Historic, Acyclic, Mirrored, Layered;
    if n in Busy(fs) {
      BusyKind(g, fs, n);
    }
    assert g.state[n] == Dirty ==> WarrantedBy(g, g, n) by {
      WarrantedNow(g, n);
    }
  }

  lemma WarrantedNow(g: Graph, n: NodeId)
    requires DirtyJustified(g) && Computed(g, n)
    ensures InState(g, n, Dirty) ==> WarrantedBy(g, g, n)
  {
    if InState(g, n, Dirty) {
      assert Warranted(g, n);
      if d :| Moved(g, n, d) {
        assert MovedBy(g, g, n, d);
      }
    }
  }

  lemma AfterVerify(g: Graph, g1: Graph, fs: Frames, n: NodeId)
    requires MayVerify(g, fs, n) && n !in Busy(fs) && Computed(g, n) && Evolves(g, g1, Busy(fs) + {n}, {}, true)
    ensures Evolves(g, g1, Busy(fs), {}, true)
    ensures MayCompute(g1, fs, n) && InState(g1, n, Check) && n !in g1.active && g1.program == g.program && g1.meta.Keys == g.meta.Keys
  {
    EvolvesRelease(g, g1, Busy(fs), {}, true, n);
    SameAfter(g, g1, Busy(fs) + {n}, {}, true, n);
    if fs.Push? {
      assert fs.top.node in Busy(fs);
      SameAfter(g, g1, Busy(fs) + {n}, {}, true, fs.top.node);
    }
  }

  lemma MovedWarrants(g: Graph, n: NodeId)
    requires exists d :: Moved(g, n, d)
    ensures WarrantedBy(g, g, n)
  {
    var d :| Moved(g, n, d);
    assert MovedBy(g, g, n, d);
  }

  lemma FinishVerify(g: Graph, g1: Graph, g2: Graph, fs: Frames, n: NodeId)
    requires Inv(g1) && Framed(g1, fs) && Computed(g1, n) && InState(g1, n, Check) && n !in Busy(fs) && n !in g1.active
    requires AllCurrent(g1, n) && g2 == VerifiedClean(g1, n) && Evolves(g, g1, Busy(fs), {}, true)
    ensures Inv(g2) && Framed(g2, fs) && Evolves(g, g2, Busy(fs), {}, true) && Fresh(g2, n)
  {
    hide Inv, Framed, AllCurrent, Evolves;
    VerifiedCleanKeeps(g1, fs, n);
    EvolvesVerified(g1, n, Busy(fs), {});
    EvolvesTransitive(g, g1, g2, Busy(fs), {}, true);
  }

  lemma ReentryAsks(g: Graph, fs: Frames, n: NodeId, pos: nat, i: nat)
    requires Inv(g) && Framed(g, fs) && g.active == OnStack(fs) && Reentrant(g, fs, n, pos) && i <= pos
    ensures var d := Order(g.edges, n)[i];
            && MayAsk(g, fs, d)
            && (i < pos ==> Fresh(g, d) && d !in Busy(fs) && d in Deps(g.edges, n) && Deps(g.edges, n)[d] == Ver(g, d))
            && (i == pos ==> d in Busy(fs) && Above(fs, d) < Above(fs, n))
  {
    var d := Order(g.edges, n)[i];
    InvParts(g);
    hide Inv, ProgramsScoped, EdgesTyped, CleanClosed, DirtyJustified, Valued, Historic, Acyclic, Mirrored, EdgesBelow, Framed;
    if i < pos {
      assert Current(g, n, d);
      FreshNotBusy(g, fs, d);
    }
  }

  lemma ReentryBound(g: Graph, fs: Frames, n: NodeId, pos: nat)
    requires Reentrant(g, fs, n, pos)
    ensures pos < |Order(g.edges, n)|
  {
  }

  /** The termination measure of asking for `d` on behalf of `n`. */
  lemma AskDescends(nodes: set<NodeId>, fs: Frames, frames: Frames, n: NodeId, d: NodeId)
    requires if n in Busy(fs) then frames == fs else Busy(frames) == Busy(fs) + {n}
    ensures nodes - Busy(frames) == nodes - Busy(fs) - {n}
    ensures d in Busy(frames) ==> Above(frames, d) < Height(frames)
  {
    if d in Busy(frames) {
      AboveIsWithin(frames, d);
    }
  }

  lemma VersionNow(g: Graph, n: NodeId, d: NodeId)
    requires Inv(g) && d in Deps(g.edges, n) && Ver(g, d) != Deps(g.edges, n)[d]
    ensures Moved(g, n, d)
  {
    InvParts(g);
    VersionMoved(g, n, d);
  }

  lemma NowCurrent(g: Graph, n: NodeId, d: NodeId)
    requires Fresh(g, d) && d in Deps(g.edges, n) && Ver(g, d) == Deps(g.edges, n)[d]
    ensures Current(g, n, d)
  {
  }

  lemma AllAskedNow(g: Graph, n: NodeId)
    requires Inv(g) && PrefixCurrent(g, n, |Order(g.edges, n)|)
    ensures AllCurrent(g, n)
  {
    AllAsked(g, n);
  }

  // --------------------------------------------------------------------------------- running

  /** The run that turned the tables of `e` into those of `e'` read exactly the tracked `events`. */
  ghost predicate Ran(e: Edges, e': Edges, hist: map<Stamp, Value>, n: NodeId, events: seq<ReadEvent>) {
    && (forall i :: 0 <= i < |events| ==> EventRecorded(e', hist, n, events[i]))
    && (forall d {:trigger d in Deps(e', n)} :: d in Deps(e', n) ==> d in Deps(e, n) || TracksNode(events, d))
    && (forall d {:trigger d in Deps(e, n)} :: d in Deps(e, n) ==> d in Deps(e', n))
  }

  lemma RunFacts(g: Graph, fs: Frames, n: NodeId)
    requires Inv(g) && MayCompute(g, fs, n)
    ensures Computed(g, n) && n in g.program && n in g.meta && n !in Busy(fs) && n in g.state && g.state[n] != Clean
    ensures Scoped(g.program[n], Readable(g.meta)) && (Layered(g.program) ==> ReadsBelow(g.program[n], n))
  {
    hide CleanClosed, DirtyJustified, Valued, Historic, Acyclic, Mirrored, EdgesBelow, EdgesTyped;
  }

  lemma RunStarts(g: Graph, e1: Edges, fs: Frames, n: NodeId)
    ensures var up := Push(Computing(n), fs); Busy(up) == Busy(fs) + {n} && Height(up) == Height(fs) + 1
    ensures g.meta.Keys - Busy(Push(Computing(n), fs)) == g.meta.Keys - Busy(fs) - {n}
    ensures var g1 := BeginCompute(g, e1, n);
            g1.meta == g.meta && g1.program == g.program && g1.edges == e1 && (Computed(g1, n) <==> Computed(g, n))
  {
  }

  lemma RunInputs(g: Graph, e1: Edges, g2: Graph, fs: Frames, n: NodeId, ok: bool)
    requires Inv(g) && g.active == OnStack(fs) && MayCompute(g, fs, n)
    requires Evolves(BeginCompute(g, e1, n), g2, Busy(fs) + {n}, {n}, ok)
    ensures n !in g.active && n !in g.past.exempt && Computed(g2, n) && n in g2.meta && n in g2.state && n in g2.program
    ensures g2.program == g.program && g2.meta.Keys == g.meta.Keys
  {
    InvParts(g);
    hide Inv, ProgramsScoped, EdgesTyped, CleanClosed, DirtyJustified, Valued, Historic, Acyclic, Mirrored, EdgesBelow;
    StackInBusy(fs);
    SameAfter(BeginCompute(g, e1, n), g2, Busy(fs) + {n}, {n}, ok, n);
    assert EvolvesAt(BeginCompute(g, e1, n), g2, Busy(fs) + {n}, {n}, ok, n);
  }

  lemma RunUnwinds(g: Graph, e1: Edges, g2: Graph, fs: Frames, n: NodeId)
    requires Inv(g) && g.active == OnStack(fs) && MayCompute(g, fs, n) && WarrantedBy(g, g, n) && EdgesCleared(g.edges, e1, n)
    requires Evolves(BeginCompute(g, e1, n), g2, Busy(fs) + {n}, {n}, false) && Inv(g2)
    ensures Computed(g2, n) && Evolves(g, Unwound(g2, n), Busy(fs), {}, false)
    ensures g2.program == g.program && g2.meta.Keys == g.meta.Keys
  {
    hide Evolves, EdgesCleared, WarrantedBy;
    RunInputs(g, e1, g2, fs, n, false);
    InvInOrder(g2, n);
    hide Inv;
    UnwoundIsLocal0(g2, n);
    EvolvesRun(g, e1, g2, Unwound(g2, n), n, Busy(fs), false);
  }

  lemma UnwoundIsLocal0(g: Graph, n: NodeId)
    requires n in g.state
    ensures OnlyAt(g, Unwound(g, n), n)
  {
  }

  lemma RunReturns(g: Graph, e1: Edges, g2: Graph, fs: Frames, n: NodeId, v: Value, events: seq<ReadEvent>)
    requires Inv(g) && g.active == OnStack(fs) && MayCompute(g, fs, n) && WarrantedBy(g, g, n) && EdgesCleared(g.edges, e1, n)
    requires Evolves(BeginCompute(g, e1, n), g2, Busy(fs) + {n}, {n}, true) && Inv(g2)
    requires n in g2.program && Follows(g2.program[n], [], events, v) && Ran(e1, g2.edges, g2.past.hist, n, events)
    ensures Computed(g2, n) && n in g2.meta && Returned(g2, Push(Computing(n), fs), n, v, events)
    ensures Evolves(g, Stored(g2, n, v, events, Changes(g2, n, v)), Busy(fs), {}, true)
    ensures g2.program == g.program && g2.meta.Keys == g.meta.Keys
  {
    hide Evolves, EdgesCleared, WarrantedBy, Follows, Inv, MayCompute, BeginCompute, Stored, Ran, Recorded, Changes;
    RunInputs(g, e1, g2, fs, n, true);
    RunRecorded(g, e1, g2, n, events);
    StoredEvolves(g, e1, g2, fs, n, v, events);
  }

  lemma RunRecorded(g: Graph, e1: Edges, g2: Graph, n: NodeId, events: seq<ReadEvent>)
    requires EdgesCleared(g.edges, e1, n) && Ran(e1, g2.edges, g2.past.hist, n, events)
    ensures Recorded(g2.edges, g2.past.hist, n, events)
  {
    assert Deps(e1, n) == map[] by {
      ClearedAt(g.edges, e1, n);
    }
  }

  lemma StoredEvolves(g: Graph, e1: Edges, g2: Graph, fs: Frames, n: NodeId, v: Value, events: seq<ReadEvent>)
    requires Inv(g) && g.active == OnStack(fs) && MayCompute(g, fs, n) && WarrantedBy(g, g, n) && EdgesCleared(g.edges, e1, n)
    requires Evolves(BeginCompute(g, e1, n), g2, Busy(fs) + {n}, {n}, true) && Inv(g2) && n in g2.meta
    ensures Evolves(g, Stored(g2, n, v, events, Changes(g2, n, v)), Busy(fs), {}, true)
  {
    hide Evolves, EdgesCleared, WarrantedBy;
    RunInputs(g, e1, g2, fs, n, true);
    InvParts(g2);
    hide Inv, Typed, ProgramsScoped, EdgesTyped, CleanClosed, DirtyJustified, Valued, Acyclic, Mirrored, EdgesBelow, Historic;
    RunStateAfter(g, e1, g2, fs, n, true);
    StoredOnlyAt(g2, n, v, events, Changes(g2, n, v));
    assert CutOff(g2, Stored(g2, n, v, events, Changes(g2, n, v)), n);
    assert ThunkMoves(g2, Stored(g2, n, v, events, Changes(g2, n, v)), n);
    hide OnlyAt, Changes, CutOff, ThunkMoves;
    EvolvesRun(g, e1, g2, Stored(g2, n, v, events, Changes(g2, n, v)), n, Busy(fs), true);
  }

  lemma ClearedAt(e: Edges, e': Edges, n: NodeId)
    requires EdgesCleared(e, e', n)
    ensures Deps(e', n) == map[]
  {
  }

  lemma RunStateAfter(g: Graph, e1: Edges, g2: Graph, fs: Frames, n: NodeId, ok: bool)
    requires MayCompute(g, fs, n) && Evolves(BeginCompute(g, e1, n), g2, Busy(fs) + {n}, {n}, ok)
    ensures InState(g2, n, Clean) && n in g2.active
  {
    assert EvolvesAt(BeginCompute(g, e1, n), g2, Busy(fs) + {n}, {n}, ok, n);
  }

  // --------------------------------------------------------------------------------- reading

  lemma ReadsNext(g: Graph, fs: Frames, n: NodeId, d: NodeId)
    requires fs.Push? && fs.top == Computing(n) && (Layered(g.program) ==> d.raw < n.raw)
    ensures MayRead(g.program, fs, d) && n in Busy(fs)
  {
    hide Layered;
  }

  lemma ReadFacts(g: Graph, fs: Frames, n: NodeId)
    requires Inv(g) && Framed(g, fs) && g.active == OnStack(fs) && MayRead(g.program, fs, n)
    ensures MayAsk(g, fs, n)
    ensures n in Busy(fs) ==> Above(fs, n) < Height(fs)
    ensures forall t :: t in Stack(fs) ==> t in Busy(fs)
  {
    LinkedMayAsk(g, fs, n);
    StackInBusy(fs);
    if n in Busy(fs) {
      AboveIsWithin(fs, n);
    }
  }

  lemma ReadObserves(g: Graph, g1: Graph, fs: Frames, n: NodeId)
    requires Evolves(g, g1, Busy(fs), {}, true) && Fresh(g1, n) && MayRead(g.program, fs, n)
    ensures MayObserve(g1, fs, n) && g1.program == g.program && g1.meta.Keys == g.meta.Keys
  {
  }

  lemma ReadDone(g: Graph, g1: Graph, g2: Graph, busy: set<NodeId>, reader: set<NodeId>, n: NodeId)
    requires Evolves(g, g1, busy, {}, true) && Evolves(g1, g2, busy, reader, true) && reader <= busy
    requires Inv(g1) && Inv(g2) && Fresh(g1, n)
    requires forall t :: t in reader ==> EdgeAdded(g1.edges, g2.edges, t, n, Ver(g2, n))
    ensures Evolves(g, g2, busy, reader, true) && Fresh(g2, n) && n in g2.cache
    ensures forall t :: t in reader ==> ReadRecorded(g.edges, g2.edges, t, n, Ver(g2, n))
    ensures forall t, v :: t in reader ==> (Supersedes(g.edges, t, n, v) <==> Supersedes(g1.edges, t, n, v))
    ensures g2.program == g.program && g2.meta.Keys == g.meta.Keys
  {
    hide Inv, EvolvesAt;
    EvolvesWeaken(g, g1, busy, {}, true, reader, true);
    EvolvesTransitive(g, g1, g2, busy, reader, true);
    EvolvesKeepsFresh(g1, g2, busy, reader, true);
    FreshKnows(g2, n);
    forall t | t in reader
      ensures Deps(g1.edges, t) == Deps(g.edges, t)
    {
      SameAfter(g, g1, busy, {}, true, t);
    }
  }

  lemma RestInScope(g: Graph, g1: Graph, busy: set<NodeId>, n: NodeId)
    requires Evolves(g, g1, busy, {n}, true)
    ensures Readable(g1.meta) == Readable(g.meta) && g1.program == g.program && g1.meta.Keys == g.meta.Keys
    ensures Computed(g1, n) <==> Computed(g, n)
  {
    forall m
      ensures m in Readable(g1.meta) <==> m in Readable(g.meta)
    {
      SameAfter(g, g1, busy, {n}, true, m);
    }
    SameAfter(g, g1, busy, {n}, true, n);
  }

  lemma NothingRead(g: Graph, n: NodeId)
    ensures Ran(g.edges, g.edges, g.past.hist, n, [])
  {
  }

  /** A running computed node has recorded current versions only, so no read overwrites another. */
  lemma RunningIsCurrent(g: Graph, fs: Frames, n: NodeId)
    requires Inv(g) && Framed(g, fs) && fs.Push? && fs.top == Computing(n) && Computed(g, n)
    ensures AllCurrent(g, n) && InState(g, n, Clean)
  {
    InvParts(g);
    hide Inv, ProgramsScoped, EdgesTyped, DirtyJustified, Valued, Historic, Acyclic, Mirrored, EdgesBelow;
  }

  lemma NothingOverwritten(g: Graph, g1: Graph, fs: Frames, n: NodeId, d: NodeId)
    requires Inv(g) && Framed(g, fs) && fs.Push? && fs.top == Computing(n) && Computed(g, n)
    requires Evolves(g, g1, Busy(fs), {n}, true)
    ensures !Supersedes(g.edges, n, d, Ver(g1, d))
  {
    hide Inv, Framed, Evolves;
    RunningIsCurrent(g, fs, n);
    EvolvesKeepsFresh(g, g1, Busy(fs), {n}, true);
    if d in Deps(g.edges, n) {
      assert Current(g, n, d);
    }
  }

  /** After a read inside the closure of `n`: the rest of the closure is still well placed, and no
      earlier read was overwritten. */
  lemma ClosureReads(g: Graph, g1: Graph, fs: Frames, n: NodeId, d: NodeId, reader: set<NodeId>)
    requires Inv(g) && Framed(g, fs) && fs.Push? && fs.top == Computing(n) && Computed(g, n) && reader <= {n}
    requires Evolves(g, g1, Busy(fs), reader, true) && Fresh(g1, d)
    ensures Evolves(g, g1, Busy(fs), {n}, true) && Overwritten(g.edges, reader, true, d, Ver(g1, d)) == {}
    ensures reader == {} ==> Deps(g1.edges, n) == Deps(g.edges, n)
    ensures Readable(g1.meta) == Readable(g.meta) && g1.program == g.program && g1.meta.Keys == g.meta.Keys && Computed(g1, n)
  {
    EvolvesWeaken(g, g1, Busy(fs), reader, true, {n}, true);
    SameAfter(g, g1, Busy(fs), reader, true, n);
    hide Inv, Framed, Evolves, Fresh, Supersedes;
    NothingOverwritten(g, g1, fs, n, d);
    RestInScope(g, g1, Busy(fs), n);
    assert n in Busy(fs);
  }

  lemma ReadThenRan(
    g: Graph, g1: Graph, g2: Graph, fs: Frames, n: NodeId, event: ReadEvent, later: seq<ReadEvent>, ok: bool)
    requires fs.Push? && fs.top == Computing(n) && Computed(g, n) && Inv(g1) && Inv(g2) && Framed(g2, fs)
    requires Evolves(g, g1, Busy(fs), {n}, true) && Evolves(g1, g2, Busy(fs), {n}, ok)
    requires Fresh(g1, event.node) && event.node in g1.cache && event.value == g1.cache[event.node]
    requires event.version == Ver(g1, event.node)
    requires event.tracked ==> ReadRecorded(g.edges, g1.edges, n, event.node, event.version)
    requires !event.tracked ==> Deps(g1.edges, n) == Deps(g.edges, n)
    requires ok ==> Ran(g1.edges, g2.edges, g2.past.hist, n, later)
    ensures Evolves(g, g2, Busy(fs), {n}, ok)
    ensures ok ==> Ran(g.edges, g2.edges, g2.past.hist, n, [event] + later)
  {
    hide Inv, Framed, EvolvesAt;
    EvolvesTransitive(g, g1, g2, Busy(fs), {n}, ok);
    SameAfter(g, g2, Busy(fs), {n}, ok, n);
    if ok {
      RunningIsCurrent(g2, fs, n);
      EvolvesKeepsFresh(g1, g2, Busy(fs), {n}, ok);
      FreshKnows(g1, event.node);
      hide Fresh;
      RanSnoc(g, g1, g2, n, event, later);
    }
  }

  lemma RanSnoc(g: Graph, g1: Graph, g2: Graph, n: NodeId, event: ReadEvent, later: seq<ReadEvent>)
    requires Ran(g1.edges, g2.edges, g2.past.hist, n, later) && AllCurrent(g2, n) && HistKept(g1, g2)
    requires Stamp(event.node, event.version) in g1.past.hist && g1.past.hist[Stamp(event.node, event.version)] == event.value
    requires event.version == Ver(g2, event.node)
    requires event.tracked ==> ReadRecorded(g.edges, g1.edges, n, event.node, event.version)
    requires !event.tracked ==> Deps(g1.edges, n) == Deps(g.edges, n)
    ensures Ran(g.edges, g2.edges, g2.past.hist, n, [event] + later)
  {
    var events := [event] + later;
    assert forall i :: 0 < i < |events| ==> events[i] == later[i - 1];
    forall i | 0 <= i < |events|
      ensures EventRecorded(g2.edges, g2.past.hist, n, events[i])
    {
      if i == 0 {
        if event.tracked {
          assert event.node in Deps(g1.edges, n);
          assert Current(g2, n, event.node);
        }
      } else {
        assert EventRecorded(g2.edges, g2.past.hist, n, later[i - 1]);
      }
    }
    forall d | d in Deps(g2.edges, n)
      ensures d in Deps(g.edges, n) || TracksNode(events, d)
    {
      if d in Deps(g1.edges, n) {
        assert d !in Deps(g.edges, n) ==> events[0].tracked && events[0].node == d;
      } else {
        var i :| 0 <= i < |later| && later[i].tracked && later[i].node == d;
        assert events[i + 1].tracked && events[i + 1].node == d;
      }
    }
    forall d | d in Deps(g.edges, n)
      ensures d in Deps(g2.edges, n)
    {
      assert d in Deps(g1.edges, n);
    }
  }

  /** Refreshing touches no source and no closure. */
  lemma WorldKept(g: Graph, g': Graph, busy: set<NodeId>, open: set<NodeId>, ok: bool)
    requires Evolves(g, g', busy, open, ok)
    ensures WorldOf(g') == WorldOf(g)
  {
    var w, w' := WorldOf(g), WorldOf(g');
    forall n
      ensures n in w'.sources <==> n in w.sources
      ensures n in w.sources && n in w'.sources ==> w'.sources[n] == w.sources[n]
    {
      assert EvolvesAt(g, g', busy, open, ok, n);
    }
    assert w'.sources == w.sources;
  }
}
