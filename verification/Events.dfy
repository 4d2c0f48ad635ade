/** Events: immediate subscribers called in registration order, and a draining subscription, which queues
    values and hands them over when its effect runs. */
module Events {

  /** One emission and everything it will set off: what the immediate subscriber at each position emits
      while handling it, and what the draining handler emits when the value reaches it. */
  datatype Emission = Emission(id: nat, reactions: seq<Reaction>, onDelivery: seq<Emission>)

  datatype Reaction = Reaction(emits: seq<Emission>)

  function Min(a: nat, b: nat): nat { if a < b then a else b }

  // --------------------------------------------------------------------- emission and reception

  /** The order in which `emit` is called, the draining subscriber standing at position `p`. */
  ghost function Emitted(p: nat, e: Emission): seq<nat>
    decreases e, 2, 0
  {
    [e.id] + EmittedBy(p, e, 0, Min(p, |e.reactions|)) + EmittedBy(p, e, p + 1, |e.reactions|)
  }

  /** What the subscribers at positions `lo` to `hi` emit. */
  ghost function EmittedBy(p: nat, e: Emission, lo: nat, hi: nat): seq<nat>
    requires hi <= |e.reactions|
    decreases e, 1, hi
  {
    if hi <= lo then [] else EmittedBy(p, e, lo, hi - 1) + EmittedAll(p, e, hi - 1, |e.reactions[hi - 1].emits|)
  }

  ghost function EmittedAll(p: nat, e: Emission, i: nat, j: nat): seq<nat>
    requires i < |e.reactions| && j <= |e.reactions[i].emits|
    decreases e, 0, j
  {
    if j == 0 then [] else EmittedAll(p, e, i, j - 1) + Emitted(p, e.reactions[i].emits[j - 1])
  }

  /** The order in which values reach the draining subscriber: whatever the subscribers before it emit
      arrives ahead of the value they are handling. */
  ghost function Received(p: nat, e: Emission): seq<nat>
    decreases e, 2, 0
  {
    ReceivedBy(p, e, 0, Min(p, |e.reactions|)) + [e.id] + ReceivedBy(p, e, p + 1, |e.reactions|)
  }

  ghost function ReceivedBy(p: nat, e: Emission, lo: nat, hi: nat): seq<nat>
    requires hi <= |e.reactions|
    decreases e, 1, hi
  {
    if hi <= lo then [] else ReceivedBy(p, e, lo, hi - 1) + ReceivedAll(p, e, hi - 1, |e.reactions[hi - 1].emits|)
  }

  ghost function ReceivedAll(p: nat, e: Emission, i: nat, j: nat): seq<nat>
    requires i < |e.reactions| && j <= |e.reactions[i].emits|
    decreases e, 0, j
  {
    if j == 0 then [] else ReceivedAll(p, e, i, j - 1) + Received(p, e.reactions[i].emits[j - 1])
  }

  /** However deep, no subscriber registered before the draining one emits while handling a value. */
  ghost predicate NoneEarlier(p: nat, e: Emission)
    decreases e, 2, 0
  {
    && (forall i :: 0 <= i < Min(p, |e.reactions|) ==> e.reactions[i].emits == [])
    && NoneEarlierBy(p, e, p + 1, |e.reactions|)
  }

  ghost predicate NoneEarlierBy(p: nat, e: Emission, lo: nat, hi: nat)
    requires hi <= |e.reactions|
    decreases e, 1, hi
  {
    hi <= lo || (NoneEarlierBy(p, e, lo, hi - 1) && NoneEarlierAll(p, e, hi - 1, |e.reactions[hi - 1].emits|))
  }

  ghost predicate NoneEarlierAll(p: nat, e: Emission, i: nat, j: nat)
    requires i < |e.reactions| && j <= |e.reactions[i].emits|
    decreases e, 0, j
  {
    j == 0 || (NoneEarlierAll(p, e, i, j - 1) && NoneEarlier(p, e.reactions[i].emits[j - 1]))
  }

  ghost predicate NoRepeats(s: seq<nat>) { forall i, j :: 0 <= i < j < |s| ==> s[i] != s[j] }

  // ------------------------------------------------------------- every value, exactly once

  lemma {:induction false} SameValues(p: nat, e: Emission)
    ensures multiset(Received(p, e)) == multiset(Emitted(p, e)) && |Received(p, e)| == |Emitted(p, e)|
    decreases e, 2, 0
  {
    SameValuesBy(p, e, 0, Min(p, |e.reactions|));
    SameValuesBy(p, e, p + 1, |e.reactions|);
  }

  lemma {:induction false} SameValuesBy(p: nat, e: Emission, lo: nat, hi: nat)
    requires hi <= |e.reactions|
    ensures multiset(ReceivedBy(p, e, lo, hi)) == multiset(EmittedBy(p, e, lo, hi))
    ensures |ReceivedBy(p, e, lo, hi)| == |EmittedBy(p, e, lo, hi)|
    decreases e, 1, hi
  {
    if hi > lo {
      SameValuesBy(p, e, lo, hi - 1);
      SameValuesAll(p, e, hi - 1, |e.reactions[hi - 1].emits|);
    }
  }

  lemma {:induction false} SameValuesAll(p: nat, e: Emission, i: nat, j: nat)
    requires i < |e.reactions| && j <= |e.reactions[i].emits|
    ensures multiset(ReceivedAll(p, e, i, j)) == multiset(EmittedAll(p, e, i, j))
    ensures |ReceivedAll(p, e, i, j)| == |EmittedAll(p, e, i, j)|
    decreases e, 0, j
  {
    if j > 0 {
      SameValuesAll(p, e, i, j - 1);
      SameValues(p, e.reactions[i].emits[j - 1]);
    }
  }

  // ------------------------------------------------------------------ in order, exactly when

  lemma {:induction false} NothingEmitted(p: nat, e: Emission, hi: nat)
    requires hi <= |e.reactions| && forall i :: 0 <= i < hi ==> e.reactions[i].emits == []
    ensures EmittedBy(p, e, 0, hi) == [] && ReceivedBy(p, e, 0, hi) == []
    decreases hi
  {
    if hi > 0 {
      NothingEmitted(p, e, hi - 1);
    }
  }

  lemma {:induction false} SomethingEmitted(p: nat, e: Emission, i: nat, hi: nat)
    requires i < hi <= |e.reactions| && e.reactions[i].emits != []
    ensures EmittedBy(p, e, 0, hi) != []
    decreases hi
  {
    if i < hi - 1 {
      SomethingEmitted(p, e, i, hi - 1);
    } else {
      var j := |e.reactions[i].emits|;
      assert Emitted(p, e.reactions[i].emits[j - 1]) != [];
    }
  }

  /** With distinguishable values, a draining subscription receives in emission order exactly when no
      subscriber registered before it emits while handling a value. */
  lemma {:induction false} InOrderIff(p: nat, e: Emission)
    requires NoRepeats(Emitted(p, e))
    ensures Received(p, e) == Emitted(p, e) <==> NoneEarlier(p, e)
    decreases e, 2, 0
  {
    hide NoRepeats;
    var cut, n := Min(p, |e.reactions|), |e.reactions|;
    if i :| 0 <= i < cut && e.reactions[i].emits != [] {
      EarlierOvertakes(p, e, i);
    } else {
      NothingEmitted(p, e, cut);
      var b, b' := EmittedBy(p, e, p + 1, n), ReceivedBy(p, e, p + 1, n);
      assert Emitted(p, e) == [e.id] + b && Received(p, e) == [e.id] + b';
      PartRepeatsNot([e.id], b);
      InOrderBy(p, e, p + 1, n);
      SplitEqual([e.id], b', [e.id], b);
    }
  }

  /** What an earlier subscriber emits arrives before the value it was handling. */
  lemma EarlierOvertakes(p: nat, e: Emission, i: nat)
    requires NoRepeats(Emitted(p, e)) && i < Min(p, |e.reactions|) && e.reactions[i].emits != []
    ensures Received(p, e) != Emitted(p, e)
  {
    var cut, n := Min(p, |e.reactions|), |e.reactions|;
    var a, a' := EmittedBy(p, e, 0, cut), ReceivedBy(p, e, 0, cut);
    SameValuesBy(p, e, 0, cut);
    SomethingEmitted(p, e, i, cut);
    assert a'[0] in multiset(a');
    assert a'[0] in a;
    var k :| 0 <= k < |a| && a[k] == a'[0];
    assert Emitted(p, e) == [e.id] + a + EmittedBy(p, e, p + 1, n);
    assert Received(p, e) == a' + [e.id] + ReceivedBy(p, e, p + 1, n);
    hide EmittedBy, ReceivedBy, Emitted, Received;
    assert Emitted(p, e)[0] == e.id && Emitted(p, e)[1 + k] == a[k];
    assert Received(p, e)[0] == a'[0];
  }

  lemma {:induction false} InOrderBy(p: nat, e: Emission, lo: nat, hi: nat)
    requires hi <= |e.reactions| && NoRepeats(EmittedBy(p, e, lo, hi))
    ensures ReceivedBy(p, e, lo, hi) == EmittedBy(p, e, lo, hi) <==> NoneEarlierBy(p, e, lo, hi)
    decreases e, 1, hi
  {
    if hi > lo {
      var front, last := EmittedBy(p, e, lo, hi - 1), EmittedAll(p, e, hi - 1, |e.reactions[hi - 1].emits|);
      PartRepeatsNot(front, last);
      InOrderBy(p, e, lo, hi - 1);
      InOrderAll(p, e, hi - 1, |e.reactions[hi - 1].emits|);
      SameValuesBy(p, e, lo, hi - 1);
      SplitEqual(ReceivedBy(p, e, lo, hi - 1), ReceivedAll(p, e, hi - 1, |e.reactions[hi - 1].emits|), front, last);
    }
  }

  lemma {:induction false} InOrderAll(p: nat, e: Emission, i: nat, j: nat)
    requires i < |e.reactions| && j <= |e.reactions[i].emits| && NoRepeats(EmittedAll(p, e, i, j))
    ensures ReceivedAll(p, e, i, j) == EmittedAll(p, e, i, j) <==> NoneEarlierAll(p, e, i, j)
    decreases e, 0, j
  {
    if j > 0 {
      var front, last := EmittedAll(p, e, i, j - 1), e.reactions[i].emits[j - 1];
      PartRepeatsNot(front, Emitted(p, last));
      InOrderAll(p, e, i, j - 1);
      InOrderIff(p, last);
      SameValuesAll(p, e, i, j - 1);
      SplitEqual(ReceivedAll(p, e, i, j - 1), Received(p, last), front, Emitted(p, last));
    }
  }

  lemma PartRepeatsNot(a: seq<nat>, b: seq<nat>)
    requires NoRepeats(a + b)
    ensures NoRepeats(a) && NoRepeats(b)
  {
    forall i, j | 0 <= i < j < |b|
      ensures b[i] != b[j]
    {
      assert (a + b)[|a| + i] == b[i] && (a + b)[|a| + j] == b[j];
    }
    forall i, j | 0 <= i < j < |a|
      ensures a[i] != a[j]
    {
      assert (a + b)[i] == a[i] && (a + b)[j] == a[j];
    }
  }

  lemma SplitEqual(a: seq<nat>, b: seq<nat>, c: seq<nat>, d: seq<nat>)
    requires |a| == |c|
    ensures a + b == c + d <==> a == c && b == d
  {
    if a + b == c + d {
      assert (a + b)[..|a|] == a && (c + d)[..|a|] == c;
      assert (a + b)[|a|..] == b && (c + d)[|a|..] == d;
    }
  }

  // ------------------------------------------------------------------- the event and its queue

  const MAX_RUNS_PER_DRAIN := 100

  /** A call of `emit` by the host or by the draining handler, and where the draining subscriber stood. */
  datatype Sent = Sent(position: nat, emission: Emission)

  ghost function AllReceived(history: seq<Sent>): seq<nat> {
    if history == [] then []
    else AllReceived(history[..|history| - 1]) + Received(history[|history| - 1].position, history[|history| - 1].emission)
  }

  ghost function AllEmitted(history: seq<Sent>): seq<nat> {
    if history == [] then []
    else AllEmitted(history[..|history| - 1]) + Emitted(history[|history| - 1].position, history[|history| - 1].emission)
  }

  /** If none of the calls has an earlier subscriber emitting, reception is emission order throughout. */
  lemma {:induction false} AllInOrder(history: seq<Sent>)
    requires NoRepeats(AllEmitted(history))
    requires forall i :: 0 <= i < |history| ==> NoneEarlier(history[i].position, history[i].emission)
    ensures AllReceived(history) == AllEmitted(history)
    decreases |history|
  {
    if history != [] {
      var front, last := history[..|history| - 1], history[|history| - 1];
      PartRepeatsNot(AllEmitted(front), Emitted(last.position, last.emission));
      AllInOrder(front);
      InOrderIff(last.position, last.emission);
    }
  }

  /** Calls of `emit` one after another. */
  ghost function SentAll(position: nat, es: seq<Emission>): seq<Sent> {
    seq(|es|, i requires 0 <= i < |es| => Sent(position, es[i]))
  }

  /** What the handler emits while these are delivered. */
  ghost function Answers(position: nat, es: seq<Emission>): seq<Sent> {
    if es == [] then [] else Answers(position, es[..|es| - 1]) + SentAll(position, es[|es| - 1].onDelivery)
  }

  lemma SentMore(position: nat, es: seq<Emission>, i: nat, start: seq<Sent>)
    requires i < |es|
    ensures start + SentAll(position, es[..i + 1]) == start + SentAll(position, es[..i]) + [Sent(position, es[i])]
  {
    assert SentAll(position, es[..i + 1]) == SentAll(position, es[..i]) + [Sent(position, es[i])];
  }

  lemma AnswersMore(position: nat, es: seq<Emission>, i: nat, start: seq<Sent>)
    requires i < |es|
    ensures start + Answers(position, es[..i + 1]) == start + Answers(position, es[..i]) + SentAll(position, es[i].onDelivery)
  {
    assert es[..i + 1][..i] == es[..i];
    assert Answers(position, es[..i + 1]) == Answers(position, es[..i]) + SentAll(position, es[i].onDelivery);
  }

  lemma NothingSent(position: nat, es: seq<Emission>, start: seq<Sent>)
    ensures start + SentAll(position, es[..0]) == start && start + Answers(position, es[..0]) == start && es[..|es|] == es
  {
    assert SentAll(position, es[..0]) == [];
  }

  ghost function Ids(es: seq<Emission>): seq<nat> { seq(|es|, i requires 0 <= i < |es| => es[i].id) }

  class Event {
    /** Immediate subscribers before and after the draining one, in registration order. */
    var before: nat
    var after: nat
    var active: bool
    var queue: seq<Emission>
    /** The draining effect is marked and queued. */
    var pending: bool

    ghost var history: seq<Sent>
    ghost var delivered: seq<nat>
    /** Taken off the queue by the run in progress, not yet handed over. */
    ghost var inHand: seq<nat>

    /** Everything received while subscribed was delivered, is in hand, or is queued, in order. */
    ghost predicate Valid()
      reads this
    {
      active ==> delivered + inHand + Ids(queue) == AllReceived(history) && (queue != [] ==> pending)
    }

    constructor (before: nat)
      ensures Valid() && active && this.before == before && history == [] && delivered == [] && inHand == [] && !pending
    {
      this.before, after, active, queue, pending := before, 0, true, [], false;
      history, delivered, inHand := [], [], [];
    }

    method Subscribe()
      requires Valid()
      modifies `after
      ensures Valid() && after == old(after) + 1
    {
      after := after + 1;
    }

    /** Calls every subscriber in order, then triggers. Values reach the queue in the order `Received`
        gives. */
    method Dispatch(e: Emission)
      requires active
      modifies `queue, `pending
      ensures Ids(queue) == Ids(old(queue)) + Received(before, e) && old(queue) <= queue && pending
      decreases e, 2, 0
    {
      ghost var start := queue;
      DispatchTo(e, 0, Min(before, |e.reactions|));
      IdsMore(queue, e);
      queue := queue + [e];
      DispatchTo(e, before + 1, |e.reactions|);
      pending := true;
      assert Ids(queue) == Ids(start) + (ReceivedBy(before, e, 0, Min(before, |e.reactions|)) + [e.id]) + ReceivedBy(before, e, before + 1, |e.reactions|);
    }

    /** Calls the immediate subscribers at positions `lo` to `hi`. */
    method DispatchTo(e: Emission, lo: nat, hi: nat)
      requires active && hi <= |e.reactions|
      modifies `queue, `pending
      ensures Ids(queue) == Ids(old(queue)) + ReceivedBy(before, e, lo, hi) && old(queue) <= queue
      decreases e, 1, 0
    {
      var i := lo;
      assert Ids(queue) + [] == Ids(queue);
      while i < hi
        invariant lo <= i && (i <= hi || hi < lo)
        invariant Ids(queue) == Ids(old(queue)) + ReceivedBy(before, e, lo, Min(i, hi)) && old(queue) <= queue
      {
        var j := 0;
        ghost var sofar := Ids(queue);
        assert sofar + [] == sofar;
        while j < |e.reactions[i].emits|
          invariant 0 <= j <= |e.reactions[i].emits|
          invariant Ids(queue) == sofar + ReceivedAll(before, e, i, j) && old(queue) <= queue
        {
          Dispatch(e.reactions[i].emits[j]);
          j := j + 1;
        }
        i := i + 1;
      }
    }

    /** `emit`, called by the host or by the draining handler. */
    method Emit(e: Emission)
      requires Valid()
      modifies `queue, `pending, `history
      ensures Valid() && delivered == old(delivered)
      ensures active ==> history == old(history) + [Sent(before, e)] && pending
      ensures !active ==> history == old(history) && queue == old(queue)
    {
      if !active {
        return;
      }
      Dispatch(e);
      assert (history + [Sent(before, e)])[..|history|] == history;
      history := history + [Sent(before, e)];
    }

    /** One run of the draining effect: takes the whole queue and hands over each value; what the handler
        emits meanwhile is queued for the next run. */
    method RunDrain()
      requires Valid() && inHand == [] && active
      modifies `queue, `pending, `history, `delivered, `inHand
      ensures Valid() && inHand == [] && history == old(history) + Answers(before, old(queue))
      ensures old(delivered) + Ids(old(queue)) == delivered
    {
      hide Answers;
      var drained := TakeQueue();
      NothingSent(before, drained, history);
      assert drained[0..] == drained;
      var i := 0;
      while i < |drained|
        invariant 0 <= i <= |drained| && Valid() && inHand == Ids(drained[i..])
        invariant history == old(history) + Answers(before, drained[..i])
        invariant delivered + inHand == old(delivered) + Ids(drained)
      {
        Deliver(drained, i);
        AnswersMore(before, drained, i, old(history));
        i := i + 1;
      }
      assert drained[..i] == drained;
    }

    /** The run takes the whole queue. */
    method TakeQueue() returns (drained: seq<Emission>)
      requires Valid() && inHand == [] && active
      modifies `queue, `pending, `inHand
      ensures Valid() && drained == old(queue) && inHand == Ids(drained) && queue == [] && !pending
    {
      hide AllReceived;
      pending := false;
      drained := queue;
      queue, inHand := [], Ids(queue);
      assert delivered + inHand + Ids(queue) == delivered + [] + Ids(drained);
    }

    /** One value is handed over and handled. */
    method Deliver(drained: seq<Emission>, i: nat)
      requires Valid() && active && i < |drained| && inHand == Ids(drained[i..])
      modifies `queue, `pending, `history, `delivered, `inHand
      ensures Valid() && inHand == Ids(drained[i + 1..]) && delivered + inHand == old(delivered + inHand)
      ensures history == old(history) + SentAll(before, drained[i].onDelivery)
    {
      hide AllReceived, SentAll;
      assert Ids(drained[i..]) == [drained[i].id] + Ids(drained[i + 1..]);
      HandOver(drained[i].id, Ids(drained[i + 1..]));
      hide Ids;
      Handle(drained[i].onDelivery);
    }

    /** The next value in hand goes to the handler. */
    ghost method HandOver(id: nat, rest: seq<nat>)
      requires Valid() && inHand == [id] + rest
      modifies `delivered, `inHand
      ensures Valid() && inHand == rest && delivered + inHand == old(delivered + inHand)
    {
      assert delivered + ([id] + rest) == delivered + [id] + rest;
      delivered, inHand := delivered + [id], rest;
    }

    /** What the handler emits on a delivery. */
    method Handle(emissions: seq<Emission>)
      requires Valid() && active
      modifies `queue, `pending, `history
      ensures Valid() && history == old(history) + SentAll(before, emissions)
    {
      hide AllReceived, SentAll, Ids;
      var i := 0;
      NothingSent(before, emissions, history);
      while i < |emissions|
        invariant 0 <= i <= |emissions| && Valid() && history == old(history) + SentAll(before, emissions[..i])
      {
        Emit(emissions[i]);
        SentMore(before, emissions, i, old(history));
        i := i + 1;
      }
      assert emissions[..i] == emissions;
    }

    /** Cancels the subscription, once: the direct subscriber goes and the draining effect is disposed,
        so nothing more is queued or delivered. */
    method Unsubscribe()
      requires Valid()
      modifies `active
      ensures Valid() && !active
    {
      active := false;
    }

    /** A flush: reruns the draining effect while it is pending, up to the divergence limit. */
    method Flush() returns (settled: bool)
      requires Valid() && inHand == []
      modifies `queue, `pending, `history, `delivered, `inHand
      ensures Valid() && inHand == [] && old(history) <= history && old(delivered) <= delivered
      ensures settled && active ==> queue == [] && delivered == AllReceived(history)
      ensures !active ==> delivered == old(delivered)
    {
      var runs := 0;
      while active && pending && runs < MAX_RUNS_PER_DRAIN
        invariant 0 <= runs <= MAX_RUNS_PER_DRAIN && Valid() && inHand == []
        invariant old(history) <= history && old(delivered) <= delivered && (!active ==> delivered == old(delivered))
      {
        RunDrain();
        runs := runs + 1;
      }
      settled := !active || !pending;
      if settled && active {
        assert delivered + [] + [] == delivered;
      }
    }
  }

  lemma IdsMore(es: seq<Emission>, e: Emission)
    ensures Ids(es + [e]) == Ids(es) + [e.id]
  {
  }

  /** An earlier subscriber that re-emits: the draining subscription receives the answer first. */
  lemma AnswerOvertakes()
    ensures var answer, question := Emission(2, [], []), Emission(1, [Reaction([Emission(2, [], [])])], []);
            Emitted(1, question) == [1, 2] && Received(1, question) == [2, 1] && !NoneEarlier(1, question)
  {
    var answer := Emission(2, [], []);
    var question := Emission(1, [Reaction([answer])], []);
    assert Emitted(1, answer) == [2] && Received(1, answer) == [2];
    assert EmittedAll(1, question, 0, 1) == [2] && ReceivedAll(1, question, 0, 1) == [2];
    assert EmittedBy(1, question, 0, 0) == [] && ReceivedBy(1, question, 0, 0) == [];
    assert EmittedBy(1, question, 0, 1) == [2] && ReceivedBy(1, question, 0, 1) == [2];
    assert question.reactions[0].emits != [];
  }
}
