/** Flush accounting: which flush each unit of work belongs to, and the events a subscriber sees. */
module Flushes {

  import opened Basics

  datatype Counter =
    | RootWrites | WritesSuppressed | NodesMarkedCheck | NodesMarkedDirty
    | EffectsQueued | EffectsCoalesced | EffectsRun | EffectsSkipped | EffectsDisposed
    | ComputedVerified | ComputedRecomputed | ComputedChanged | ComputedSuppressed
    | EdgesAdded | EdgesRemoved

  /** The additive counters are the multiplicities in `work`; the depth is a maximum, the rest are
      readings taken when the flush opened or closed. */
  datatype FlushStats = FlushStats(
    work: multiset<Counter>, maxDepth: nat, jobsAtStart: nat, jobsAtFinish: nat, effectsPending: nat)

  const NOTHING := FlushStats(multiset{}, 0, 0, 0, 0)

  ghost function WorkOf(open: seq<FlushStats>): multiset<Counter> {
    if open == [] then multiset{} else WorkOf(open[..|open| - 1]) + open[|open| - 1].work
  }

  ghost predicate Conserved(
    closed: multiset<Counter>, open: multiset<Counter>, pending: multiset<Counter>, recorded: multiset<Counter>)
  {
    closed + open + pending == recorded
  }

  lemma ConservedMore(
    closed: multiset<Counter>, open: multiset<Counter>, pending: multiset<Counter>, recorded: multiset<Counter>, more: multiset<Counter>)
    requires Conserved(closed, open, pending, recorded)
    ensures Conserved(closed, open + more, pending, recorded + more)
    ensures Conserved(closed, open, pending + more, recorded + more)
  {
  }

  lemma TopReplaced(open: seq<FlushStats>, top: FlushStats, more: multiset<Counter>)
    requires open != [] && top.work == open[|open| - 1].work + more
    ensures WorkOf(open[..|open| - 1] + [top]) == WorkOf(open) + more
    ensures (open[..|open| - 1] + [top])[..|open| - 1] == open[..|open| - 1]
  {
    assert (open[..|open| - 1] + [top])[..|open| - 1] == open[..|open| - 1];
  }

  class FlushAccounting {
    var pending: FlushStats
    var open: seq<FlushStats>

    /** Work reported by closed flushes, and all work recorded, since the last reset. */
    ghost var closed: multiset<Counter>
    ghost var recorded: multiset<Counter>

    /** Every unit of work is counted exactly once; inside an open flush nothing is pending. */
    ghost predicate Valid()
      reads this
    {
      && Conserved(closed, WorkOf(open), pending.work, recorded)
      && (open != [] ==> pending.work == multiset{})
    }

    constructor ()
      ensures Valid() && open == [] && recorded == multiset{} && closed == multiset{}
    {
      pending, open, closed, recorded := NOTHING, [], multiset{}, multiset{};
    }

    /** Work lands on the innermost open flush, or waits for the next one. */
    method Record(c: Counter, count: nat, depth: nat)
      requires Valid()
      modifies this
      ensures Valid() && |open| == |old(open)| && closed == old(closed)
      ensures recorded == old(recorded) + multiset{}[c := count]
      ensures open == [] ==> pending.work == old(pending).work + multiset{}[c := count]
      ensures open != [] ==>
                && open[..|open| - 1] == old(open)[..|open| - 1] && pending == old(pending)
                && open[|open| - 1].work == old(open)[|open| - 1].work + multiset{}[c := count]
    {
      hide Conserved, WorkOf;
      ghost var more := multiset{}[c := count];
      ConservedMore(closed, WorkOf(open), pending.work, recorded, more);
      recorded := recorded + more;
      if open == [] {
        pending := Added(pending, c, count, depth);
      } else {
        Replace(Added(open[|open| - 1], c, count, depth), more);
      }
    }

    /** More work on the innermost open flush. */
    method Replace(top: FlushStats, ghost more: multiset<Counter>)
      requires open != [] && top.work == open[|open| - 1].work + more
      modifies `open
      ensures open == old(open)[..|old(open)| - 1] + [top] && WorkOf(open) == WorkOf(old(open)) + more
      ensures |open| == |old(open)| && open[..|open| - 1] == old(open)[..|open| - 1] && open[|open| - 1] == top
    {
      hide WorkOf;
      TopReplaced(open, top, more);
      open := open[..|open| - 1] + [top];
    }

    /** A flush takes over whatever was pending: the writes that scheduled it are counted in it. */
    method OpenFlush(jobs: nat)
      requires Valid()
      modifies this
      ensures Valid() && pending == NOTHING && closed == old(closed) && recorded == old(recorded)
      ensures open == old(open) + [old(pending).(jobsAtStart := jobs)]
    {
      var stats := pending.(jobsAtStart := jobs);
      pending := NOTHING;
      assert (open + [stats])[..|open|] == open;
      open := open + [stats];
    }

    /** The innermost flush is reported; none if the subscription arrived after it opened. */
    method CloseFlush(jobs: nat, effects: nat) returns (stats: Option<FlushStats>)
      requires Valid()
      modifies this
      ensures Valid() && pending == old(pending) && recorded == old(recorded)
      ensures old(open) == [] ==> stats == None && open == [] && closed == old(closed)
      ensures old(open) != [] ==>
                && open == old(open)[..|old(open)| - 1]
                && stats == Some(ClosedStats(old(open), jobs, effects))
                && closed == old(closed) + old(open)[|old(open)| - 1].work
    {
      if open == [] {
        return None;
      }
      var top := open[|open| - 1];
      open := open[..|open| - 1];
      closed := closed + top.work;
      stats := Some(top.(jobsAtFinish := jobs, effectsPending := effects));
    }

    /** The last subscription went away: a later one starts from nothing. */
    method Reset()
      modifies this
      ensures Valid() && open == [] && pending == NOTHING && closed == multiset{} && recorded == multiset{}
    {
      pending, open, closed, recorded := NOTHING, [], multiset{}, multiset{};
    }
  }

  function Added(s: FlushStats, c: Counter, count: nat, depth: nat): (r: FlushStats)
    ensures r.work == s.work + multiset{}[c := count] && r.maxDepth >= depth && r.maxDepth >= s.maxDepth
    ensures r.maxDepth == depth || r.maxDepth == s.maxDepth
  {
    s.(work := s.work + multiset{}[c := count], maxDepth := if s.maxDepth < depth then depth else s.maxDepth)
  }

  // ---------------------------------------------------------------------- nesting of flushes

  datatype FlushEvent = Started(epoch: nat, jobs: nat) | Finished(epoch: nat, jobs: nat, stats: FlushStats)

  /** What is reported of the innermost open flush when it closes. */
  function ClosedStats(open: seq<FlushStats>, jobs: nat, effects: nat): FlushStats {
    if open == [] then NOTHING else open[|open| - 1].(jobsAtFinish := jobs, effectsPending := effects)
  }

  /** Reads a word of events as brackets labelled with epochs: the epochs still open at the end, or
      nothing if some bracket closes that is not the innermost open one. */
  ghost function StillOpen(events: seq<FlushEvent>): Option<seq<nat>> {
    if events == [] then Some([])
    else
      var before, event := StillOpen(events[..|events| - 1]), events[|events| - 1];
      if before == None then None
      else if event.Started? then Some(before.value + [event.epoch])
      else if before.value != [] && before.value[|before.value| - 1] == event.epoch then Some(before.value[..|before.value| - 1])
      else None
  }

  /** A call that brackets a flush. A declared boundary inside a flush joins it silently. */
  datatype Call =
    | Jobs(epoch: nat, reported: bool)
    | Boundary(epoch: nat, reported: bool)
    | Joined

  ghost predicate Reports(c: Call) { !c.Joined? && c.reported }

  /** Epochs of the flushes the current subscriber saw open, outermost first. */
  ghost function Seen(calls: seq<Call>): seq<nat> {
    if calls == [] then []
    else Seen(calls[..|calls| - 1]) + if Reports(calls[|calls| - 1]) then [calls[|calls| - 1].epoch] else []
  }

  class FlushCells {
    const accounting: FlushAccounting
    var flushDepth: nat
    var drainEpoch: nat
    var flushEpoch: nat
    var openFlushEpoch: nat
    var subscribed: bool

    /** The brackets now open, innermost last, and what the current subscription was told. */
    ghost var calls: seq<Call>
    ghost var events: seq<FlushEvent>

    ghost predicate Valid()
      reads this, accounting
    {
      && flushDepth == |calls|
      && Nested(calls, subscribed, flushEpoch, openFlushEpoch)
      && Slotted(calls)
    }

    /** One accounting slot, and one open event, for each flush the subscriber saw open. */
    ghost predicate Slotted(brackets: seq<Call>)
      reads `events, accounting
    {
      && accounting.Valid()
      && |accounting.open| == |Seen(brackets)|
      && StillOpen(events) == Some(Seen(brackets))
    }

    constructor ()
      ensures Valid() && fresh(accounting) && flushDepth == 0 && !subscribed && events == [] && calls == []
      ensures accounting.recorded == multiset{} && accounting.closed == multiset{}
    {
      accounting := new FlushAccounting();
      flushDepth, drainEpoch, flushEpoch, openFlushEpoch := 0, 0, 0, 0;
      subscribed := false;
      calls, events := [], [];
    }

    method Subscribe()
      requires Valid() && !subscribed
      modifies `subscribed, `events
      ensures Valid() && subscribed && events == [] && calls == old(calls)
    {
      NothingSeen(calls);
      subscribed, events := true, [];
    }

    /** The last subscription goes away, perhaps in the middle of a flush. */
    method Unsubscribe()
      requires Valid() && subscribed
      modifies `calls, `subscribed, `events, accounting
      ensures Valid() && !subscribed && calls == Muted(old(calls)) && accounting.recorded == multiset{}
    {
      accounting.Reset();
      MutedSeesNothing(calls, flushEpoch, openFlushEpoch);
      hide Muted, Nested;
      calls := Muted(calls);
      subscribed, events := false, [];
    }

    /** The accounting slot and the event of a flush that opens. */
    method Announce(call: Call, jobs: nat)
      requires Slotted(calls) && !call.Joined? && call.reported == subscribed
      modifies accounting, `events
      ensures Slotted(calls + [call])
      ensures events == old(events) + if subscribed then [Started(call.epoch, jobs)] else []
      ensures accounting.open == old(accounting.open) + if subscribed then [old(accounting.pending).(jobsAtStart := jobs)] else []
      ensures accounting.recorded == old(accounting.recorded) && accounting.closed == old(accounting.closed)
    {
      SeenOneMore(calls, call);
      hide Seen;
      if subscribed {
        accounting.OpenFlush(jobs);
        OpenedOneMore(events, Started(call.epoch, jobs));
        hide StillOpen;
        events := events + [Started(call.epoch, jobs)];
      }
    }

    /** Work done while somebody listens. Inside a flush it lands on the innermost flush the subscriber saw
        open; if it saw none, because it arrived since, the work waits for the next flush. */
    method RecordWork(c: Counter, count: nat, depth: nat)
      requires Valid()
      modifies accounting
      ensures Valid()
      ensures accounting.recorded == old(accounting.recorded) + if subscribed then multiset{}[c := count] else multiset{}
      ensures subscribed && Seen(calls) == [] ==> accounting.pending.work == old(accounting.pending.work) + multiset{}[c := count]
      ensures Seen(calls) != [] ==> accounting.pending.work == old(accounting.pending.work)
    {
      hide Nested, StillOpen;
      if subscribed {
        accounting.Record(c, count, depth);
      }
    }

    /** With a subscriber, work is pending inside a flush only if that subscriber saw none of the open flushes
        open. */
    lemma PendingIsUnseen()
      requires Valid() && accounting.pending.work != multiset{}
      ensures Seen(calls) == []
    {
    }

    /** Opens a drain of the job queue: always a flush of its own, and a new drain if outermost. */
    method OpenJobs(jobs: nat)
      requires Valid()
      modifies this, accounting
      ensures Valid() && flushDepth == old(flushDepth) + 1 && flushEpoch == old(flushEpoch) + 1
      ensures calls == old(calls) + [Jobs(flushEpoch, subscribed)] && subscribed == old(subscribed)
      ensures drainEpoch == old(drainEpoch) + if old(flushDepth) == 0 then 1 else 0
      ensures events == old(events) + if subscribed then [Started(flushEpoch, jobs)] else []
      ensures accounting.recorded == old(accounting.recorded) && accounting.closed == old(accounting.closed)
    {
      hide Nested;
      if flushDepth == 0 {
        drainEpoch := drainEpoch + 1;
      }
      NestedJobs(calls, subscribed, flushEpoch, openFlushEpoch);
      flushEpoch := flushEpoch + 1;
      Announce(Jobs(flushEpoch, subscribed), jobs);
      flushDepth := flushDepth + 1;
      hide Slotted;
      calls := calls + [Jobs(flushEpoch, subscribed)];
    }

    /** Closes the innermost drain, with the epoch pinned when it opened. */
    method CloseJobs(epoch: nat, jobs: nat, effects: nat)
      requires Valid() && calls != [] && Last(calls).Jobs? && Last(calls).epoch == epoch
      modifies this, accounting
      ensures Valid() && calls == old(calls)[..|old(calls)| - 1] && drainEpoch == old(drainEpoch)
      ensures events == old(events) + if Last(old(calls)).reported then [Finished(epoch, jobs, ClosedStats(old(accounting.open), jobs, effects))] else []
      ensures accounting.recorded == old(accounting.recorded)
    {
      NestedPop(calls, subscribed, flushEpoch, openFlushEpoch);
      flushDepth := Saturating(flushDepth, 1);
      Report(epoch, jobs, effects);
      hide Nested;
      calls := calls[..|calls| - 1];
    }

    /** A boundary declared by the host: a flush of its own only when outermost. */
    method BeginFlush(jobs: nat)
      requires Valid()
      modifies this, accounting
      ensures Valid() && flushDepth == old(flushDepth) + 1 && subscribed == old(subscribed)
      ensures old(flushDepth) > 0 ==> calls == old(calls) + [Joined] && events == old(events) && drainEpoch == old(drainEpoch)
      ensures old(flushDepth) == 0 ==>
                && drainEpoch == old(drainEpoch) + 1 && flushEpoch == old(flushEpoch) + 1
                && calls == [Boundary(flushEpoch, subscribed)]
                && events == old(events) + if subscribed then [Started(flushEpoch, jobs)] else []
    {
      hide Nested;
      flushDepth := flushDepth + 1;
      if flushDepth > 1 {
        SeenOneMore(calls, Joined);
        NestedJoined(calls, subscribed, flushEpoch, openFlushEpoch);
        assert Slotted(calls + [Joined]);
        hide Slotted, Seen, StillOpen;
        calls := calls + [Joined];
        return;
      }
      drainEpoch, flushEpoch := drainEpoch + 1, flushEpoch + 1;
      openFlushEpoch := flushEpoch;
      NestedBoundary(subscribed, flushEpoch);
      assert calls == [] && calls + [Boundary(flushEpoch, subscribed)] == [Boundary(flushEpoch, subscribed)];
      Announce(Boundary(flushEpoch, subscribed), jobs);
      hide Slotted;
      calls := [Boundary(flushEpoch, subscribed)];
    }

    /** The end of a declared boundary: reported under the epoch it opened with, whatever flushes ran
        inside it since. */
    method EndFlush(jobs: nat, effects: nat)
      requires Valid() && calls != [] && !Last(calls).Jobs?
      modifies this, accounting
      ensures Valid() && calls == old(calls)[..|old(calls)| - 1] && drainEpoch == old(drainEpoch)
      ensures events == old(events) + if Reports(Last(old(calls))) then
                [Finished(Last(old(calls)).epoch, jobs, ClosedStats(old(accounting.open), jobs, effects))] else []
    {
      NestedPop(calls, subscribed, flushEpoch, openFlushEpoch);
      OnlyOutermostReports(calls, subscribed, flushEpoch, openFlushEpoch);
      hide Nested, Seen, StillOpen;
      flushDepth := Saturating(flushDepth, 1);
      if flushDepth == 0 {
        Report(openFlushEpoch, jobs, effects);
      } else {
        assert Slotted(calls[..|calls| - 1]);
      }
      hide Slotted;
      calls := calls[..|calls| - 1];
    }

    /** Closes the accounting slot of the innermost flush and tells the subscriber, if it saw that
        flush open. */
    method Report(epoch: nat, jobs: nat, effects: nat)
      requires Nested(calls, subscribed, flushEpoch, openFlushEpoch) && Slotted(calls)
      requires calls != [] && !Last(calls).Joined? && Last(calls).epoch == epoch
      modifies accounting, `events
      ensures Slotted(calls[..|calls| - 1])
      ensures events == old(events) + if Last(calls).reported then [Finished(epoch, jobs, ClosedStats(old(accounting.open), jobs, effects))] else []
      ensures accounting.recorded == old(accounting.recorded)
    {
      SlotIsTop(calls, subscribed, flushEpoch, openFlushEpoch);
      hide Nested, Seen;
      if !subscribed {
        return;
      }
      var stats := accounting.CloseFlush(jobs, effects);
      if stats.Some? {
        OpenedOneMore(events, Finished(epoch, jobs, stats.value));
        hide StillOpen;
        events := events + [Finished(epoch, jobs, stats.value)];
      }
    }
  }

  /** A subscriber that arrives inside a flush: the work done from then on is pending although a flush is
      open. */
  method SubscribeInside() returns (cells: FlushCells)
    ensures cells.Valid() && cells.flushDepth == 1 && cells.accounting.pending.work == multiset{EffectsRun}
  {
    cells := new FlushCells();
    cells.OpenJobs(0);
    cells.Subscribe();
    NothingSeen(cells.calls);
    assert cells.accounting.recorded == multiset{} && cells.accounting.closed == multiset{};
    cells.RecordWork(EffectsRun, 1, 0);
  }

  /** How brackets nest: a boundary is outermost; no epoch is from the future; once the subscriber saw
      a flush open, it sees every flush opening inside it. */
  ghost predicate Nested(calls: seq<Call>, subscribed: bool, flushEpoch: nat, openFlushEpoch: nat) {
    && (forall i :: 0 <= i < |calls| && calls[i].Boundary? ==> i == 0 && calls[i].epoch == openFlushEpoch)
    && (calls != [] ==> !calls[0].Joined?)
    && (forall i :: 0 <= i < |calls| && !calls[i].Joined? ==> calls[i].epoch <= flushEpoch)
    && (!subscribed ==> forall i :: 0 <= i < |calls| ==> !Reports(calls[i]))
    && (forall i, j :: 0 <= i < j < |calls| && Reports(calls[i]) && !calls[j].Joined? ==> calls[j].reported)
  }

  lemma NestedJobs(calls: seq<Call>, subscribed: bool, flushEpoch: nat, openFlushEpoch: nat)
    requires Nested(calls, subscribed, flushEpoch, openFlushEpoch)
    ensures Nested(calls + [Jobs(flushEpoch + 1, subscribed)], subscribed, flushEpoch + 1, openFlushEpoch)
  {
  }

  lemma NestedJoined(calls: seq<Call>, subscribed: bool, flushEpoch: nat, openFlushEpoch: nat)
    requires Nested(calls, subscribed, flushEpoch, openFlushEpoch) && calls != []
    ensures Nested(calls + [Joined], subscribed, flushEpoch, openFlushEpoch)
  {
  }

  lemma NestedBoundary(subscribed: bool, flushEpoch: nat)
    ensures Nested([Boundary(flushEpoch, subscribed)], subscribed, flushEpoch, flushEpoch)
  {
  }

  lemma NestedPop(calls: seq<Call>, subscribed: bool, flushEpoch: nat, openFlushEpoch: nat)
    requires Nested(calls, subscribed, flushEpoch, openFlushEpoch) && calls != []
    ensures Nested(calls[..|calls| - 1], subscribed, flushEpoch, openFlushEpoch)
  {
  }

  /** A boundary bracket is the outermost one; any other was joined and reports nothing. */
  lemma OnlyOutermostReports(calls: seq<Call>, subscribed: bool, flushEpoch: nat, openFlushEpoch: nat)
    requires Nested(calls, subscribed, flushEpoch, openFlushEpoch) && calls != [] && !Last(calls).Jobs?
    ensures |calls| == 1 ==> Last(calls).Boundary? && Last(calls).epoch == openFlushEpoch
    ensures |calls| > 1 ==> Last(calls).Joined? && Seen(calls) == Seen(calls[..|calls| - 1])
  {
    assert Last(calls).Boundary? ==> |calls| - 1 == 0;
  }

  ghost function Last<T>(s: seq<T>): T
    requires s != []
  {
    s[|s| - 1]
  }

  ghost function Muted(calls: seq<Call>): (r: seq<Call>)
    ensures |r| == |calls| && forall i :: 0 <= i < |calls| ==> r[i] == Mute(calls[i])
  {
    seq(|calls|, i requires 0 <= i < |calls| => Mute(calls[i]))
  }

  ghost function Mute(c: Call): Call {
    match c
    case Jobs(e, _) => Jobs(e, false)
    case Boundary(e, _) => Boundary(e, false)
    case Joined => Joined
  }

  lemma {:induction false} NothingSeen(calls: seq<Call>)
    requires forall i :: 0 <= i < |calls| ==> !Reports(calls[i])
    ensures Seen(calls) == []
    decreases |calls|
  {
    if calls != [] {
      NothingSeen(calls[..|calls| - 1]);
    }
  }

  lemma MutedSeesNothing(calls: seq<Call>, flushEpoch: nat, openFlushEpoch: nat)
    requires Nested(calls, true, flushEpoch, openFlushEpoch)
    ensures Seen(Muted(calls)) == [] && Nested(Muted(calls), false, flushEpoch, openFlushEpoch)
  {
    forall i | 0 <= i < |calls|
      ensures !Reports(Muted(calls)[i])
    {
      assert Muted(calls)[i] == Mute(calls[i]);
    }
    NothingSeen(Muted(calls));
  }

  lemma SeenOneMore(calls: seq<Call>, call: Call)
    ensures Reports(call) ==> Seen(calls + [call]) == Seen(calls) + [call.epoch]
    ensures !Reports(call) ==> Seen(calls + [call]) == Seen(calls)
  {
    assert (calls + [call])[..|calls|] == calls;
  }

  lemma OpenedOneMore(events: seq<FlushEvent>, event: FlushEvent)
    requires StillOpen(events).Some?
    requires event.Finished? ==> StillOpen(events).value != [] && Last(StillOpen(events).value) == event.epoch
    ensures StillOpen(events + [event]) ==
              Some(if event.Started? then StillOpen(events).value + [event.epoch]
                   else StillOpen(events).value[..|StillOpen(events).value| - 1])
  {
    assert (events + [event])[..|events|] == events;
  }

  /** If any flush was seen opening, the innermost one was: slots belong to the innermost brackets. */
  lemma SlotIsTop(calls: seq<Call>, subscribed: bool, flushEpoch: nat, openFlushEpoch: nat)
    requires calls != [] && !Last(calls).Joined? && Nested(calls, subscribed, flushEpoch, openFlushEpoch)
    ensures Seen(calls) != [] <==> Last(calls).reported
    ensures Last(calls).reported ==> Last(Seen(calls)) == Last(calls).epoch && Seen(calls)[..|Seen(calls)| - 1] == Seen(calls[..|calls| - 1])
    ensures Last(calls).reported ==> |Seen(calls[..|calls| - 1])| == |Seen(calls)| - 1 && subscribed
    ensures !Last(calls).reported ==> Seen(calls[..|calls| - 1]) == []
  {
    if !Last(calls).reported {
      forall i | 0 <= i < |calls|
        ensures !Reports(calls[i])
      {
      }
      NothingSeen(calls);
      NothingSeen(calls[..|calls| - 1]);
    }
  }
}
