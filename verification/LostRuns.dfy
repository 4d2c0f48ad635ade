/** What a panicking cleanup leaves behind. Its effect's run is over before the body, the job is spent and
    the old edges are still recorded: the effect is Clean on an outdated input, or stale with a rerun owed
    that nobody will queue. */
module LostRuns {

  import opened Basics
  import opened Computation
  import opened Graphs
  import opened Frames
  import opened Steps
  import opened Refreshing
  import opened Marking
  import opened EdgeCounts
  import opened EffectSteps
  import opened Growth
  import opened Lanes
  import opened Churning
  import opened Deeds
  import opened ReactorModule
  import opened Scheduling
  import opened Unfolding

  const S := NodeId(0)
  const N := NodeId(1)

  /** Reads the source and registers a cleanup. */
  function BodyOf(c: Cleanup): Body { ReadNode(S, true, OnCleanup(c, Finish)) }

  /** The lane while the effect is idle, with `list` registered. */
  ghost function Idling(c: Cleanup, list: seq<Cleanup>, superseded: set<NodeId>): Lane {
    Lane([], {}, {}, {}, {}, map[N := BodyOf(c)], map[N := list], {}, superseded)
  }

  ghost predicate SourceAndEffect(g: Graph) { IsSignal(g, S) && IsEffect(g, N) && g.program == map[] && g.active == {} }

  lemma SetUp(g: Graph, c: Cleanup)
    requires g == WithSignal(EmptyGraph(), S, 0) && OnlySource(c)
    ensures SourceAndEffect(WithEffect(g, N)) && InState(WithEffect(g, N), N, Dirty) && N !in g.meta && BodyScoped(BodyOf(c), g)
    ensures Enrolled(EmptyLane(), N, BodyOf(c)).body == map[N := BodyOf(c)]
  {
    assert S in Readable(g.meta) && CleanupScoped(c, g);
    assert BodyScoped(OnCleanup(c, Finish), g);
  }

  lemma NothingYet()
    ensures EmptyGraph().meta == map[]
  {
  }

  method SetUpEffect(c: Cleanup) returns (scheduler: Scheduler)
    requires OnlySource(c)
    ensures fresh(scheduler) && fresh(scheduler.reactor) && scheduler.Valid() && scheduler.flushDepth == 0
    ensures scheduler.L() == Lane([N], {N}, {}, {}, {}, map[N := BodyOf(c)], map[], {}, {})
    ensures SourceAndEffect(scheduler.reactor.G()) && InState(scheduler.reactor.G(), N, Dirty) && scheduler.reactor.frames == Bottom
  {
    hide Inv, LaneInv, Framed, Counted, WithSignal, WithEffect, EmptyGraph, BodyScoped, InState, SourceAndEffect, Scheduler.Orderly;
    hide Scheduler.Accounts;
    scheduler := new Scheduler();
    NothingYet();
    scheduler.CreateSignal(S, 0);
    SetUp(scheduler.reactor.G(), c);
    scheduler.CreateEffect(N, BodyOf(c));
    scheduler.Idle();
  }

  lemma EffectThere(g: Graph)
    requires SourceAndEffect(g)
    ensures IsEffect(g, N) && IsSignal(g, S) && S in Readable(g.meta)
  {
  }

  /** The effect's first run, up to its body. */
  method EnterBody(scheduler: Scheduler, c: Cleanup) returns (saved: nat)
    requires scheduler.Valid() && scheduler.flushDepth == 0 && scheduler.reactor.frames == Bottom
    requires scheduler.L() == Lane([N], {N}, {}, {}, {}, map[N := BodyOf(c)], map[], {}, {})
    requires SourceAndEffect(scheduler.reactor.G()) && InState(scheduler.reactor.G(), N, Dirty)
    modifies scheduler, scheduler.reactor
    ensures scheduler.Valid() && scheduler.InBodyOf(N) && scheduler.flushDepth == 1
    ensures scheduler.L() == Idling(c, [], {}).(running := {N})
    ensures scheduler.reactor.frames == Push(Computing(N), Bottom) && InState(scheduler.reactor.G(), N, Clean)
    ensures EventsKept(scheduler.reactor.E(), scheduler.reactor.past.hist, N, [], false)
    ensures UpToDate(scheduler.reactor.G(), scheduler.L(), N, Seen({}, {}))
    ensures SourceAndEffect(scheduler.reactor.G().(active := {}))
  {
    hide Inv, LaneInv, Framed, Counted, InState, EventsKept, SourceAndEffect, UpToDate, BodyEntered, MarkTaken;
    hide Scheduler.Accounts;
    ghost var g := scheduler.reactor.G();
    EffectThere(g);
    saved := EnterFirst(scheduler, N);
    EnteredFacts(g, scheduler.reactor.E());
  }

  lemma EnteredFacts(g: Graph, e': Edges)
    requires SourceAndEffect(g)
    ensures var g' := BodyEntered(MarkTaken(g, N), e', N); SourceAndEffect(g'.(active := {})) && InState(g', N, Clean)
  {
  }

  lemma StillThere(a: Moment, b: Moment, held: set<NodeId>, done: bool)
    requires SourceAndEffect(a.graph.(active := {})) && Continued(a, b, held, done)
    ensures SourceAndEffect(b.graph.(active := {}))
  {
    assert SameKind(a.graph, b.graph, S) && SameKind(a.graph, b.graph, N);
  }

  /** With no closures a read cannot fail. */
  lemma ReadReturns(r: Outcome<Value>, g: Graph)
    requires g.program == map[] && (r.Panic? ==> Circular(r.cause, g.program))
    ensures r.Done?
  {
  }

  lemma OneRead(e: Edges, e': Edges, hist: map<Stamp, Value>, v: int)
    requires ReadRecorded(e, e', N, S, v) && EventsKept(e, hist, N, [], false)
    ensures Deps(e', N) == map[S := v]
  {
    forall d
      ensures d !in Deps(e, N)
    {
      assert d in Deps(e, N) ==> TracksNode([], d);
    }
  }

  lemma BodyFollowed(c: Cleanup, event: ReadEvent)
    requires event.node == S && event.tracked
    ensures BodyFollows(BodyOf(c), [], [event])
  {
    assert BodyFollows(OnCleanup(c, Finish), [] + [event.value], [event][1..]);
  }

  /** The body reads the source. */
  method ReadSource(scheduler: Scheduler, c: Cleanup) returns (ghost event: ReadEvent)
    requires scheduler.Valid() && scheduler.InBodyOf(N) && scheduler.flushDepth == 1
    requires scheduler.L() == Idling(c, [], {}).(running := {N})
    requires EventsKept(scheduler.reactor.E(), scheduler.reactor.past.hist, N, [], false)
    requires UpToDate(scheduler.reactor.G(), scheduler.L(), N, Seen({}, {})) && InState(scheduler.reactor.G(), N, Clean)
    requires SourceAndEffect(scheduler.reactor.G().(active := {}))
    modifies scheduler.reactor, scheduler`settled
    ensures scheduler.Valid() && scheduler.InBodyOf(N) && N !in scheduler.reactor.superseded
    ensures scheduler.reactor.frames == old(scheduler.reactor.frames)
    ensures EventsKept(scheduler.reactor.E(), scheduler.reactor.past.hist, N, [event], false) && event.node == S && event.tracked
    ensures SourceAndEffect(scheduler.reactor.G().(active := {})) && InState(scheduler.reactor.G(), N, Clean)
    ensures Deps(scheduler.reactor.E(), N) == map[S := Ver(scheduler.reactor.G(), S)]
  {
    hide Inv, LaneInv, Framed, Counted, InState, EventsKept, Continued, Circular, UpToDate, SourceAndEffect, ReadRecorded;
    hide Scheduler.Accounts, Scheduler.Tokens, Readable, WorldOf;
    ghost var start, held := scheduler.Now(), scheduler.running - {N};
    EffectThere(start.graph.(active := {}));
    var r, read := scheduler.ReadInBody(N, S, true, []);
    event := read;
    assert [] + [event] == [event];
    StillThere(start, scheduler.Now(), held, r.Done?);
    ThereProgram(scheduler.reactor.G());
    ReadReturns(r, scheduler.reactor.G());
    ContinuedFacts(start, scheduler.Now(), held, true);
    UpToDateReads(scheduler.reactor.G(), scheduler.L(), N, AfterRead(Seen({}, {}), S, true));
    OneRead(start.graph.edges, scheduler.reactor.E(), start.graph.past.hist, Ver(scheduler.reactor.G(), S));
  }

  method Register(scheduler: Scheduler, c: Cleanup)
    requires scheduler.Valid() && OnlySource(c) && SourceAndEffect(scheduler.reactor.G().(active := {}))
    requires scheduler.cleanups == map[N := []]
    modifies scheduler`cleanups
    ensures scheduler.Valid() && scheduler.cleanups == map[N := [c]] && scheduler.L() == old(scheduler.L()).(cleanups := scheduler.cleanups)
  {
    hide Inv, LaneInv, Framed, Counted, SourceAndEffect, CleanupScoped, Continued, OnlySource;
    hide Scheduler.Accounts, Scheduler.Tokens;
    SourceScoped(scheduler.reactor.G(), c);
    assert CleanupsOf(scheduler.L(), N) == [] && [] + [c] == [c];
    scheduler.AddCleanup(N, c);
  }

  /** The first run from its body on: the source is read, the cleanup registered, and the flush ends. */
  method FinishFirst(scheduler: Scheduler, c: Cleanup, saved: nat) returns (ghost event: ReadEvent)
    requires scheduler.Valid() && scheduler.InBodyOf(N) && scheduler.flushDepth == 1 && scheduler.reactor.frames == Push(Computing(N), Bottom)
    requires scheduler.L() == Idling(c, [], {}).(running := {N}) && OnlySource(c)
    requires EventsKept(scheduler.reactor.E(), scheduler.reactor.past.hist, N, [], false)
    requires UpToDate(scheduler.reactor.G(), scheduler.L(), N, Seen({}, {})) && InState(scheduler.reactor.G(), N, Clean)
    requires SourceAndEffect(scheduler.reactor.G().(active := {}))
    modifies scheduler, scheduler.reactor
    ensures scheduler.Valid() && scheduler.flushDepth == 0 && scheduler.reactor.frames == Bottom
    ensures scheduler.L() == Idling(c, [c], scheduler.reactor.superseded)
    ensures SourceAndEffect(scheduler.reactor.G()) && InState(scheduler.reactor.G(), N, Clean)
    ensures Deps(scheduler.reactor.E(), N) == map[S := Ver(scheduler.reactor.G(), S)]
  {
    hide Inv, LaneInv, Framed, Counted, InState, EventsKept, UpToDate, SourceAndEffect, CleanupScoped, BodyLeft, Continued, BodyFollows;
    hide Scheduler.Accounts, Scheduler.Tokens, OnlySource;
    event := ReadSource(scheduler, c);
    Register(scheduler, c);
    BodyFollowed(c, event);
    ghost var g := scheduler.reactor.G();
    CloseFirst(scheduler, N, [event], saved);
    LeftFacts(g, [event]);
  }

  ghost predicate OnlySource(c: Cleanup) { forall i :: 0 <= i < |c| && c[i].CleanupWrite? ==> c[i].node == S }

  lemma SourceScoped(g: Graph, c: Cleanup)
    requires SourceAndEffect(g.(active := {})) && OnlySource(c)
    ensures CleanupScoped(c, g)
  {
  }

  lemma LeftFacts(g: Graph, events: seq<ReadEvent>)
    requires SourceAndEffect(g.(active := {}))
    ensures var g' := BodyLeft(g, N, events);
            && (g'.active == {} ==> SourceAndEffect(g')) && (InState(g, N, Clean) ==> InState(g', N, Clean))
            && g'.edges == g.edges && Ver(g', S) == Ver(g, S)
  {
  }

  lemma ThereProgram(g: Graph)
    requires SourceAndEffect(g.(active := {}))
    ensures g.program == map[]
  {
  }

  /** The source changes: the effect is Dirty and queued. */
  method Disturb(scheduler: Scheduler, c: Cleanup)
    requires scheduler.Valid() && scheduler.flushDepth == 0 && scheduler.reactor.frames == Bottom
    requires scheduler.L() == Idling(c, [c], scheduler.reactor.superseded)
    requires SourceAndEffect(scheduler.reactor.G()) && InState(scheduler.reactor.G(), N, Clean)
    requires Deps(scheduler.reactor.E(), N) == map[S := Ver(scheduler.reactor.G(), S)]
    modifies scheduler, scheduler.reactor
    ensures scheduler.Valid() && scheduler.flushDepth == 0 && scheduler.reactor.frames == Bottom
    ensures scheduler.L() == Idling(c, [c], scheduler.reactor.superseded).(queue := [N], scheduled := {N})
    ensures SourceAndEffect(scheduler.reactor.G()) && InState(scheduler.reactor.G(), N, Dirty) && Moved(scheduler.reactor.G(), N, S)
  {
    hide Inv, LaneInv, Framed, Counted, InState, SourceAndEffect, Continued, WrittenAndMarked, Moved;
    hide Scheduler.Accounts, Scheduler.Tokens;
    ghost var g := scheduler.reactor.G();
    EffectThere(g);
    scheduler.WriteSignal(S, 1, true);
    DisturbedFacts(g, scheduler.reactor.G());
    scheduler.KnownEffects();
    assert scheduler.body.Keys == {N};
    OneJob(scheduler.reactor.G(), scheduler.reactor.frames, scheduler.L(), N);
  }

  lemma DisturbedFacts(g: Graph, g': Graph)
    requires Inv(g) && SourceAndEffect(g) && WrittenAndMarked(g, g', S, 1) && Deps(g.edges, N) == map[S := Ver(g, S)] && InState(g, N, Clean)
    ensures SourceAndEffect(g') && InState(g', N, Dirty) && Moved(g', N, S) && N in g'.state && g'.state[N] != Clean
  {
    WriteKinds(g, g', S, 1);
    InvParts(g);
    hide Inv, Typed, ProgramsScoped, EdgesTyped, CleanClosed, DirtyJustified, Valued, Historic, Acyclic, EdgesBelow, Reaches;
    assert S in Deps(g.edges, N);
    assert N in Observers(g.edges, S);
    assert SameKind(g, g', N) && SameKind(g, g', S);
  }

  /** An effect that has read the source and registered the cleanup `c`; since then the source changed. */
  method Disturbed(c: Cleanup) returns (scheduler: Scheduler)
    requires OnlySource(c)
    ensures fresh(scheduler) && fresh(scheduler.reactor)
    ensures scheduler.Valid() && scheduler.flushDepth == 0 && scheduler.reactor.frames == Bottom
    ensures scheduler.L() == Idling(c, [c], scheduler.reactor.superseded).(queue := [N], scheduled := {N})
    ensures SourceAndEffect(scheduler.reactor.G()) && InState(scheduler.reactor.G(), N, Dirty) && Moved(scheduler.reactor.G(), N, S)
  {
    hide Inv, LaneInv, Framed, Counted, InState, EventsKept, UpToDate, SourceAndEffect, OnlySource, Moved;
    hide Scheduler.Accounts, Scheduler.Tokens;
    scheduler := SetUpEffect(c);
    var saved := EnterBody(scheduler, c);
    ghost var event := FinishFirst(scheduler, c, saved);
    Disturb(scheduler, c);
  }

  // -------------------------------------------------------------------- Clean on an outdated input

  /** The window of the effect opens on its one cleanup. */
  method OpenSecond(scheduler: Scheduler, c: Cleanup) returns (list: seq<Cleanup>)
    requires scheduler.Valid() && scheduler.flushDepth == 0 && scheduler.reactor.frames == Bottom
    requires scheduler.L() == Idling(c, [c], scheduler.reactor.superseded).(queue := [N], scheduled := {N})
    requires SourceAndEffect(scheduler.reactor.G()) && InState(scheduler.reactor.G(), N, Dirty) && Moved(scheduler.reactor.G(), N, S)
    modifies scheduler, scheduler.reactor
    ensures scheduler.Valid() && scheduler.flushDepth == 1 && scheduler.reactor.frames == Bottom && list == [c]
    ensures scheduler.L() == Idling(c, [], scheduler.reactor.superseded).(running := {N})
    ensures SourceAndEffect(scheduler.reactor.G()) && InState(scheduler.reactor.G(), N, Clean) && Moved(scheduler.reactor.G(), N, S)
    ensures forall i :: 0 <= i < |list| ==> CleanupScoped(list[i], scheduler.reactor.G())
  {
    hide Inv, LaneInv, Framed, Counted, InState, SourceAndEffect, Moved, MarkTaken, CleanupScoped, Scheduler.Orderly;
    hide Scheduler.Accounts, Scheduler.Tokens, Scheduler.Admitted;
    ghost var g := scheduler.reactor.G();
    EffectThere(g);
    Open(scheduler);
    AdmitNext(scheduler, N, N);
    TakenFacts(g);
    list := scheduler.OpenWindow(N);
    assert map[N := [c]][N := []] == map[N := []];
  }

  /** The cleanup panics: the run is over before the body. The effect is Clean, the edge it is Clean by is
      outdated, its job is spent, and the panic reaches whoever flushed. */
  method LostRun() returns (scheduler: Scheduler, r: Outcome<()>)
    ensures r.Panic? && scheduler.Valid() && scheduler.flushDepth == 0 && AtRest(scheduler.reactor.frames, scheduler.L())
    ensures InState(scheduler.reactor.G(), N, Clean) && Moved(scheduler.reactor.G(), N, S)
    ensures N in scheduler.body && N !in scheduler.scheduled && N !in scheduler.rerunAfterCurrent && scheduler.tainted == {N}
  {
    hide Inv, LaneInv, Framed, Counted, InState, SourceAndEffect, Moved, CleanupScoped, Continued, Throws, Effectless, OnlySource, Scheduler.Orderly;
    hide Scheduler.Accounts, Scheduler.Tokens;
    var c := [CleanupThrow];
    ThrowsNow(c);
    scheduler := Disturbed(c);
    var list := OpenSecond(scheduler, c);
    ghost var before := scheduler.Now();
    ghost var ends;
    r, ends := scheduler.TearDown(list, N);
    assert Throws(list[0]) && scheduler.Now() == before;
    scheduler.Abandon(N);
    scheduler.CloseFlush();
  }

  lemma ThrowsNow(c: Cleanup)
    requires c == [CleanupThrow]
    ensures OnlySource(c) && Effectless(c) && Throws(c)
  {
  }

  lemma TakenFacts(g: Graph)
    ensures InState(MarkTaken(g, N), N, Clean) && (Moved(g, N, S) ==> Moved(MarkTaken(g, N), N, S))
    ensures SourceAndEffect(g) ==> SourceAndEffect(MarkTaken(g, N))
  {
  }

  // ------------------------------------------------------------------------ a rerun nobody queues

  /** A write by the cleanup while its effect is running: the effect is Dirty and queued once more. */
  method WriteWhileRunning(scheduler: Scheduler, c: Cleanup)
    requires scheduler.Valid() && scheduler.flushDepth == 1 && scheduler.reactor.frames == Bottom
    requires scheduler.L() == Idling(c, [], scheduler.reactor.superseded).(running := {N})
    requires SourceAndEffect(scheduler.reactor.G()) && InState(scheduler.reactor.G(), N, Clean) && Moved(scheduler.reactor.G(), N, S)
    modifies scheduler, scheduler.reactor
    ensures scheduler.Valid() && scheduler.flushDepth == 1 && scheduler.reactor.frames == Bottom
    ensures scheduler.L() == Idling(c, [], scheduler.reactor.superseded).(running := {N}, queue := [N], scheduled := {N})
    ensures InState(scheduler.reactor.G(), N, Dirty) && Moved(scheduler.reactor.G(), N, S)
  {
    hide Inv, LaneInv, Framed, Counted, InState, SourceAndEffect, Continued, WrittenAndMarked, Moved;
    hide Scheduler.Accounts, Scheduler.Tokens;
    ghost var g := scheduler.reactor.G();
    EffectThere(g);
    scheduler.WriteSignal(S, 2, true, Some(N));
    RewrittenFacts(g, scheduler.reactor.G());
    scheduler.KnownEffects();
    assert scheduler.body.Keys == {N};
    OneJob(scheduler.reactor.G(), scheduler.reactor.frames, scheduler.L(), N);
  }

  lemma RewrittenFacts(g: Graph, g': Graph)
    requires Inv(g) && WrittenAndMarked(g, g', S, 2) && Moved(g, N, S) && InState(g, N, Clean)
    ensures InState(g', N, Dirty) && Moved(g', N, S) && N in g'.state && g'.state[N] != Clean
  {
    WriteKinds(g, g', S, 2);
    InvParts(g);
    hide Inv, Typed, ProgramsScoped, EdgesTyped, CleanClosed, DirtyJustified, Valued, Historic, Acyclic, EdgesBelow, Reaches;
    assert S in Deps(g.edges, N);
    assert N in Observers(g.edges, S);
  }

  /** The nested flush finds the effect running: it owes it a rerun and is over. */
  method FlushWhileRunning(scheduler: Scheduler, c: Cleanup)
    requires scheduler.Valid() && scheduler.flushDepth == 1 && scheduler.reactor.frames == Bottom
    requires scheduler.L() == Idling(c, [], scheduler.reactor.superseded).(running := {N}, queue := [N], scheduled := {N})
    modifies scheduler, scheduler.reactor
    ensures scheduler.Valid() && scheduler.flushDepth == 1 && scheduler.reactor.frames == Bottom
    ensures scheduler.L() == Idling(c, [], scheduler.reactor.superseded).(running := {N}, rerun := {N})
    ensures scheduler.reactor.G() == old(scheduler.reactor.G())
  {
    hide Inv, LaneInv, Framed, Counted, Continued, WindowedAt, IsEffect, Taken;
    hide Scheduler.Accounts, Scheduler.Tokens, Scheduler.Orderly;
    scheduler.Record(Some(N), Flushed);
    scheduler.OpenFlush();
    var n := scheduler.Pop();
    var live := scheduler.TakeJob(n);
    scheduler.CloseFlush();
  }

  /** The panic ends the run, and with it the flush. */
  method ThrowWhileRunning(scheduler: Scheduler, c: Cleanup)
    requires scheduler.Valid() && scheduler.flushDepth == 1 && scheduler.reactor.frames == Bottom
    requires scheduler.L() == Idling(c, [], scheduler.reactor.superseded).(running := {N}, rerun := {N})
    modifies scheduler, scheduler.reactor
    ensures scheduler.Valid() && scheduler.flushDepth == 0 && scheduler.reactor.G() == old(scheduler.reactor.G())
    ensures scheduler.reactor.frames == Bottom
    ensures scheduler.L() == Idling(c, [], scheduler.reactor.superseded).(rerun := {N}, tainted := {N})
  {
    hide Inv, LaneInv, Framed, Counted;
    hide Scheduler.Accounts, Scheduler.Tokens;
    scheduler.Record(Some(N), Threw);
    scheduler.Abandon(N);
    scheduler.CloseFlush();
  }

  lemma WritesSource(c: Cleanup)
    requires c == [CleanupWrite(S, 2, true), CleanupFlush, CleanupThrow]
    ensures OnlySource(c)
  {
  }

  /** The cleanup writes the source, flushes and panics. The flush could only owe the running effect a
      rerun, and the panic ends the run before the window would have queued it: at rest the effect is
      Dirty, a rerun is owed, and no job is left. */
  method OwedRun() returns (scheduler: Scheduler)
    ensures scheduler.Valid() && scheduler.flushDepth == 0 && AtRest(scheduler.reactor.frames, scheduler.L())
    ensures InState(scheduler.reactor.G(), N, Dirty) && Moved(scheduler.reactor.G(), N, S)
    ensures N in scheduler.body && N !in scheduler.scheduled && scheduler.rerunAfterCurrent == {N} && scheduler.tainted == {N}
  {
    hide Inv, LaneInv, Framed, Counted, InState, SourceAndEffect, Moved, CleanupScoped, OnlySource, Scheduler.Orderly;
    hide Scheduler.Accounts, Scheduler.Tokens;
    var c := [CleanupWrite(S, 2, true), CleanupFlush, CleanupThrow];
    WritesSource(c);
    scheduler := Disturbed(c);
    var list := OpenSecond(scheduler, c);
    scheduler.Record(Some(N), Began(c));
    WriteWhileRunning(scheduler, c);
    FlushWhileRunning(scheduler, c);
    ThrowWhileRunning(scheduler, c);
  }
}
