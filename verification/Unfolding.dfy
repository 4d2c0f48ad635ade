/** The first run of a flush, taken apart: the steps `FlushQueue`, `RunNext`, `RunScheduled` and `GuardedRun`
    take before a run's window opens. Concrete runs are followed through these. */
module Unfolding {

  import opened Computation
  import opened Graphs
  import opened Frames
  import opened EdgeCounts
  import opened EffectSteps
  import opened Steps
  import opened Churning
  import opened Deeds
  import opened Lanes
  import opened LaneSteps
  import opened Scheduling

  /** An outermost flush opens. */
  method Open(scheduler: Scheduler)
    requires scheduler.Valid() && scheduler.flushDepth == 0
    modifies scheduler, scheduler.reactor
    ensures scheduler.Valid() && Between(scheduler) && scheduler.L() == old(scheduler.L())
    ensures scheduler.reactor.G() == old(scheduler.reactor.G()) && scheduler.reactor.frames == old(scheduler.reactor.frames)
    ensures forall m :: scheduler.Used(m) == 0
  {
    hide Inv, LaneInv, Framed, Counted;
    hide Scheduler.Accounts, Scheduler.Tokens;
    scheduler.Idle();
    scheduler.OpenFlush();
  }

  /** In an outermost flush, with no job in hand. */
  ghost predicate Between(scheduler: Scheduler)
    reads scheduler, scheduler.reactor
  {
    scheduler.flushDepth == 1 && scheduler.running == {} && scheduler.reactor.frames == Bottom
  }

  /** The flush takes the next job off the queue. */
  method TakeNext(scheduler: Scheduler, n: NodeId, ghost other: NodeId) returns (ghost l: Lane)
    requires scheduler.Valid() && Between(scheduler) && scheduler.pendingJobs != [] && scheduler.pendingJobs[0] == n
    requires IsEffect(scheduler.reactor.G(), n) && n !in scheduler.disposed
    modifies scheduler, scheduler.reactor
    ensures scheduler.reactor.Valid() && LaneInv(scheduler.reactor.G(), scheduler.reactor.frames, l, {n}) && scheduler.L() == Unlatched(l, n)
    ensures scheduler.Accounts() && WindowedAt(scheduler.reactor.G(), l, {}, n)
    ensures l == Popped(old(scheduler.L())) && Between(scheduler)
    ensures scheduler.Used(n) == old(scheduler.Used(n)) && scheduler.Used(other) == old(scheduler.Used(other))
    ensures scheduler.reactor.G() == old(scheduler.reactor.G()) && scheduler.reactor.frames == old(scheduler.reactor.frames)
  {
    hide Inv, LaneInv, Framed, Counted, WindowedAt, Continued, IsEffect, Taken;
    hide Scheduler.Accounts, Scheduler.Tokens;
    var job := scheduler.Pop();
    l := scheduler.L();
    var live := scheduler.TakeJob(job);
  }

  /** The run of a Dirty effect that heads the queue is admitted. */
  method AdmitNext(scheduler: Scheduler, n: NodeId, ghost other: NodeId)
    requires scheduler.Valid() && Between(scheduler) && scheduler.pendingJobs != [] && scheduler.pendingJobs[0] == n
    requires IsEffect(scheduler.reactor.G(), n) && n !in scheduler.disposed && InState(scheduler.reactor.G(), n, Dirty)
    requires scheduler.Used(n) == 0
    modifies scheduler, scheduler.reactor
    ensures scheduler.Orderly({n}) && scheduler.ReadyToRun(n) && scheduler.Admitted(n) && Between(scheduler)
    ensures scheduler.reactor.G() == MarkTaken(old(scheduler.reactor.G()), n)
    ensures scheduler.L() == Unlatched(Popped(old(scheduler.L())), n) && scheduler.reactor.frames == old(scheduler.reactor.frames)
    ensures other != n ==> scheduler.Used(other) == old(scheduler.Used(other))
  {
    hide Inv, LaneInv, Framed, Counted, InState, WindowedAt, Continued, Moved, AllCurrent, Reported, IsEffect, Scheduler.Orderly, Taken;
    hide Scheduler.Accounts, Scheduler.Tokens, Scheduler.Admitted;
    ghost var g := scheduler.reactor.G();
    ghost var l := TakeNext(scheduler, n, other);
    ghost var taken := scheduler.Now();
    var needed := scheduler.ShouldRun(n, l);
    ContinuedFacts(taken, scheduler.Now(), scheduler.running, true);
    TakenIsReady(g, n);
    var admitted := scheduler.Admit(n);
  }

  lemma TakenIsReady(g: Graph, n: NodeId)
    requires IsEffect(g, n)
    ensures IsEffect(MarkTaken(g, n), n) && InState(MarkTaken(g, n), n, Clean) && MarkTaken(g, n).edges == g.edges
  {
  }

  /** The window of an effect without cleanups opens. */
  method OpenNext(scheduler: Scheduler, n: NodeId, ghost other: NodeId)
    requires scheduler.Orderly({n}) && scheduler.ReadyToRun(n) && scheduler.Admitted(n) && CleanupsOf(scheduler.L(), n) == []
    modifies scheduler, scheduler.reactor
    ensures scheduler.Valid() && scheduler.Admitted(n) && scheduler.flushDepth == old(scheduler.flushDepth)
    ensures scheduler.L() == Windowed(old(scheduler.L()), n)
    ensures scheduler.reactor.G() == old(scheduler.reactor.G()) && scheduler.reactor.frames == old(scheduler.reactor.frames)
    ensures scheduler.Used(other) == old(scheduler.Used(other))
  {
    hide Inv, LaneInv, Framed, Counted, IsEffect, InState, CleanupScoped, Continued, Reported;
    hide Scheduler.Accounts, Scheduler.Tokens, EnteredSince;
    var list := scheduler.OpenWindow(n);
    ghost var before := scheduler.Now();
    var torn, ends := scheduler.TearDown(list, n);
    assert scheduler.Now() == before;
  }

  /** The run of an effect without cleanups that heads the queue, up to entering its body. */
  method StartNext(scheduler: Scheduler, n: NodeId, ghost other: NodeId)
    requires scheduler.Valid() && Between(scheduler) && scheduler.pendingJobs != [] && scheduler.pendingJobs[0] == n
    requires IsEffect(scheduler.reactor.G(), n) && n !in scheduler.disposed && InState(scheduler.reactor.G(), n, Dirty)
    requires CleanupsOf(scheduler.L(), n) == [] && scheduler.Used(n) == 0
    modifies scheduler, scheduler.reactor
    ensures scheduler.Valid() && scheduler.Admitted(n) && scheduler.flushDepth == 1
    ensures scheduler.reactor.G() == MarkTaken(old(scheduler.reactor.G()), n) && scheduler.reactor.frames == Bottom
    ensures scheduler.L() == Windowed(Unlatched(Popped(old(scheduler.L())), n), n) && scheduler.reactor.E() == old(scheduler.reactor.E())
    ensures other != n ==> scheduler.Used(other) == old(scheduler.Used(other))
  {
    hide Inv, LaneInv, Framed, Counted, InState, MarkTaken, IsEffect, Taken, Scheduler.Orderly;
    hide Scheduler.Accounts, Scheduler.Tokens, Scheduler.Admitted;
    TakenIsReady(scheduler.reactor.G(), n);
    AdmitNext(scheduler, n, other);
    OpenNext(scheduler, n, other);
    assert scheduler.reactor.E() == scheduler.reactor.G().edges;
  }

  /** The same, with the body entered. */
  method EnterNext(scheduler: Scheduler, n: NodeId, ghost other: NodeId) returns (saved: nat)
    requires scheduler.Valid() && Between(scheduler) && scheduler.pendingJobs != [] && scheduler.pendingJobs[0] == n
    requires IsEffect(scheduler.reactor.G(), n) && n !in scheduler.disposed && InState(scheduler.reactor.G(), n, Dirty)
    requires CleanupsOf(scheduler.L(), n) == [] && scheduler.Used(n) == 0
    modifies scheduler, scheduler.reactor
    ensures scheduler.Valid() && scheduler.InBodyOf(n) && scheduler.flushDepth == 1
    ensures scheduler.reactor.G() == BodyEntered(MarkTaken(old(scheduler.reactor.G()), n), scheduler.reactor.E(), n)
    ensures EdgesCleared(old(scheduler.reactor.E()), scheduler.reactor.E(), n)
    ensures scheduler.L() == InBody(Windowed(Unlatched(Popped(old(scheduler.L())), n), n), n)
    ensures scheduler.reactor.frames == Push(Computing(n), Bottom)
    ensures EventsKept(scheduler.reactor.E(), scheduler.reactor.past.hist, n, [], n in scheduler.reactor.superseded)
    ensures UpToDate(scheduler.reactor.G(), scheduler.L(), n, Seen({}, {}))
    ensures other != n ==> scheduler.Used(other) == old(scheduler.Used(other))
  {
    hide Inv, LaneInv, Framed, Counted, InState, EventsKept, BodyScoped, UpToDate, BodyEntered, MarkTaken, EdgesCleared, Churns, Taken;
    hide Scheduler.Accounts, Scheduler.Tokens, Scheduler.Admitted, Scheduler.Orderly;
    StartNext(scheduler, n, other);
    scheduler.Note(n, Entered, {});
    saved := scheduler.EnterTracked(n);
  }

  /** The first run of a flush. */
  method EnterFirst(scheduler: Scheduler, n: NodeId) returns (saved: nat)
    requires scheduler.Valid() && scheduler.flushDepth == 0 && scheduler.pendingJobs != [] && scheduler.pendingJobs[0] == n
    requires IsEffect(scheduler.reactor.G(), n) && n !in scheduler.disposed && InState(scheduler.reactor.G(), n, Dirty)
    requires CleanupsOf(scheduler.L(), n) == []
    modifies scheduler, scheduler.reactor
    ensures scheduler.Valid() && scheduler.InBodyOf(n) && scheduler.flushDepth == 1
    ensures scheduler.reactor.G() == BodyEntered(MarkTaken(old(scheduler.reactor.G()), n), scheduler.reactor.E(), n)
    ensures scheduler.L() == InBody(Windowed(Unlatched(Popped(old(scheduler.L())), n), n), n)
    ensures scheduler.reactor.frames == Push(Computing(n), Bottom)
    ensures EventsKept(scheduler.reactor.E(), scheduler.reactor.past.hist, n, [], n in scheduler.reactor.superseded)
    ensures UpToDate(scheduler.reactor.G(), scheduler.L(), n, Seen({}, {}))
  {
    hide Inv, LaneInv, Framed, Counted, InState, EventsKept, UpToDate, BodyEntered, MarkTaken, EdgesCleared;
    hide Scheduler.Accounts, Scheduler.Tokens;
    Open(scheduler);
    saved := EnterNext(scheduler, n, n);
  }

  /** The body has returned and the flush it ran in is over. */
  method CloseFirst(scheduler: Scheduler, n: NodeId, ghost events: seq<ReadEvent>, saved: nat)
    requires scheduler.Valid() && scheduler.reactor.frames == Push(Computing(n), Bottom) && scheduler.flushDepth == 1 && n in scheduler.body
    requires BodyFollows(scheduler.body[n], [], events) && n !in scheduler.reactor.superseded
    requires EventsKept(scheduler.reactor.E(), scheduler.reactor.past.hist, n, events, false)
    requires scheduler.running == {n} && n !in scheduler.rerunAfterCurrent
    modifies scheduler, scheduler.reactor
    ensures scheduler.Valid() && scheduler.flushDepth == 0 && scheduler.reactor.frames == Bottom
    ensures scheduler.reactor.G() == BodyLeft(old(scheduler.reactor.G()), n, events) && scheduler.reactor.active == {}
    ensures scheduler.L() == old(scheduler.L()).(running := {}, tainted := old(scheduler.tainted) - {n})
  {
    hide Inv, LaneInv, Framed, Counted, EventsKept, BodyFollows, BodyLeft, NeverSplit, Churns;
    hide Scheduler.Accounts, Scheduler.Tokens;
    scheduler.LeaveTracked(n, events, saved);
    scheduler.CloseFlush();
    scheduler.Idle();
  }

  /** The job queue when the only effect is stale and no rerun is owed. */
  lemma OneJob(g: Graph, fs: Frames, l: Lane, n: NodeId)
    requires LaneInv(g, fs, l, {}) && EffectKinds(g.meta, {n}) && l.disposed == {} && n !in l.rerun
    requires n in g.state && g.state[n] != Clean
    ensures l.queue == [n] && l.scheduled == {n} && IsEffect(g, n)
  {
    assert n in {n} && EffectOk(g, l, {}, n);
    assert multiset(l.queue)[n] == 1;
    forall i | 0 <= i < |l.queue|
      ensures l.queue[i] == n
    {
      var m := l.queue[i];
      assert m in l.queue && EffectOk(g, l, {}, m);
      assert m in {n};
    }
    forall m | m in l.scheduled
      ensures m in {n}
    {
      assert EffectOk(g, l, {}, m);
    }
    CountSame(l.queue, n);
  }

  lemma {:induction false} CountSame(queue: seq<NodeId>, n: NodeId)
    requires forall i :: 0 <= i < |queue| ==> queue[i] == n
    ensures multiset(queue)[n] == |queue|
  {
    if queue != [] {
      assert queue == [queue[0]] + queue[1..];
      CountSame(queue[1..], n);
    }
  }
}
