/** The record of who did what: which run entered its body, wrote, flushed, or began a cleanup. No code
    reads it. */
module Deeds {

  import opened Basics
  import opened Computation
  import opened EffectSteps

  /** A step and the effect whose run took it; none for the host. */
  datatype Deed = Deed(doer: Option<NodeId>, step: Step)

  /** The steps the runs of `n` took. */
  ghost function By(deeds: seq<Deed>, n: NodeId): seq<Step> {
    if deeds == [] then []
    else By(deeds[..|deeds| - 1], n) + if deeds[|deeds| - 1].doer == Some(n) then [deeds[|deeds| - 1].step] else []
  }

  lemma ByMore(deeds: seq<Deed>, deed: Deed, n: NodeId)
    ensures By(deeds + [deed], n) == By(deeds, n) + if deed.doer == Some(n) then [deed.step] else []
  {
    assert (deeds + [deed])[..|deeds|] == deeds;
  }

  /** The jobs taken off the queue, in order. */
  ghost function Taken(deeds: seq<Deed>): seq<NodeId> {
    if deeds == [] then []
    else Taken(deeds[..|deeds| - 1]) + if deeds[|deeds| - 1].step.Took? then [deeds[|deeds| - 1].step.effect] else []
  }

  lemma TakenMore(deeds: seq<Deed>, deed: Deed)
    ensures Taken(deeds + [deed]) == Taken(deeds) + if deed.step.Took? then [deed.step.effect] else []
  {
    assert (deeds + [deed])[..|deeds|] == deeds;
  }

  ghost predicate TakesJob(deed: Deed, n: NodeId) { deed.step.Took? && deed.step.effect == n }

  /** Every job taken has its place on record, and a later one a later place. */
  lemma {:induction false} TakenAt(deeds: seq<Deed>) returns (places: seq<nat>)
    ensures |places| == |Taken(deeds)|
    ensures forall i :: 0 <= i < |places| ==> places[i] < |deeds| && TakesJob(deeds[places[i]], Taken(deeds)[i])
    ensures forall i, j :: 0 <= i < j < |places| ==> places[i] < places[j]
  {
    if deeds == [] {
      places := [];
    } else {
      var rest, last := deeds[..|deeds| - 1], deeds[|deeds| - 1];
      places := TakenAt(rest);
      assert rest + [last] == deeds;
      TakenMore(rest, last);
      hide Taken;
      if last.step.Took? {
        places := places + [|rest|];
      }
      forall i | 0 <= i < |places|
        ensures places[i] < |deeds| && TakesJob(deeds[places[i]], Taken(deeds)[i])
      {
        assert places[i] < |rest| ==> rest[places[i]] == deeds[places[i]];
      }
    }
  }

  /** First in, first out: what was taken by `b` begins with what had been taken by `a` followed by what was
      waiting then. So of two jobs that waited the one in front was taken first. */
  lemma FirstInFirstOut(a: seq<Deed>, waiting: seq<NodeId>, b: seq<Deed>, i: nat, j: nat) returns (p: nat, q: nat)
    requires Taken(a) + waiting <= Taken(b) && a <= b && i < j < |waiting|
    ensures p < q < |b| && TakesJob(b[p], waiting[i]) && TakesJob(b[q], waiting[j])
  {
    var places := TakenAt(b);
    p, q := places[|Taken(a)| + i], places[|Taken(a)| + j];
    assert (Taken(a) + waiting)[|Taken(a)| + i] == waiting[i] && (Taken(a) + waiting)[|Taken(a)| + j] == waiting[j];
  }

  /** More was done, but not by the runs of the effects in `held`, and jobs were taken only more than `depth`
      flushes deep. */
  ghost predicate Quiet(a: seq<Deed>, b: seq<Deed>, held: set<NodeId>, depth: int) {
    && a <= b
    && (forall m :: m in held ==> By(b, m) == By(a, m))
    && (forall i :: |a| <= i < |b| && b[i].step.Took? ==> depth < b[i].step.depth)
  }

  lemma QuietShallower(a: seq<Deed>, b: seq<Deed>, held: set<NodeId>, depth: int, depth': int)
    requires Quiet(a, b, held, depth) && depth' <= depth
    ensures Quiet(a, b, held, depth') && a <= b
  {
  }

  /** Of the jobs taken since `a`, at most `depth` flushes deep, that of `n` was the last. */
  ghost predicate LastTaken(a: seq<Deed>, b: seq<Deed>, n: NodeId, depth: nat) {
    exists i :: |a| <= i < |b| && b[i].step == Took(n, depth) && forall j :: i < j < |b| && b[j].step.Took? ==> depth < b[j].step.depth
  }

  /** Nothing at that depth was taken after the job of `n`. */
  lemma StillLast(a: seq<Deed>, b: seq<Deed>, c: seq<Deed>, n: NodeId, held: set<NodeId>, depth: nat)
    requires a <= b && Quiet(b + [Deed(None, Took(n, depth))], c, held, depth)
    ensures LastTaken(a, c, n, depth)
  {
    var taken := b + [Deed(None, Took(n, depth))];
    assert taken[|b|].step == c[|b|].step == Took(n, depth);
  }

  lemma LastTakenSince(a: seq<Deed>, b: seq<Deed>, c: seq<Deed>, n: NodeId, depth: nat)
    requires a <= b && LastTaken(b, c, n, depth)
    ensures LastTaken(a, c, n, depth)
  {
  }

  lemma QuietReflexive(a: seq<Deed>, held: set<NodeId>, depth: int)
    ensures Quiet(a, a, held, depth)
  {
  }

  lemma QuietTransitive(a: seq<Deed>, b: seq<Deed>, c: seq<Deed>, held: set<NodeId>, depth: int)
    requires Quiet(a, b, held, depth) && Quiet(b, c, held, depth)
    ensures Quiet(a, c, held, depth)
  {
    forall m | m in held
      ensures By(c, m) == By(a, m)
    {
      assert By(b, m) == By(a, m);
    }
  }

  /** Between `a` and `b` the runs of `n` took exactly `steps`. */
  ghost predicate Did(a: seq<Deed>, b: seq<Deed>, n: NodeId, steps: seq<Step>) {
    By(b, n) == By(a, n) + steps
  }

  lemma DidThen(a: seq<Deed>, b: seq<Deed>, c: seq<Deed>, n: NodeId, first: seq<Step>, second: seq<Step>)
    requires Did(a, b, n, first) && Did(b, c, n, second)
    ensures Did(a, c, n, first + second)
  {
    assert By(a, n) + first + second == By(a, n) + (first + second);
  }

  lemma DidNothing(a: seq<Deed>, n: NodeId)
    ensures Did(a, a, n, [])
  {
    assert By(a, n) + [] == By(a, n);
  }

  /** One deed of `n`: nobody else did anything. */
  lemma OneDeed(a: seq<Deed>, n: NodeId, step: Step, held: set<NodeId>, depth: int)
    requires !step.Took?
    ensures Did(a, a + [Deed(Some(n), step)], n, [step])
    ensures Quiet(a, a + [Deed(Some(n), step)], held - {n}, depth)
  {
    ByMore(a, Deed(Some(n), step), n);
    forall m | m in held - {n}
      ensures By(a + [Deed(Some(n), step)], m) == By(a, m)
    {
      ByMore(a, Deed(Some(n), step), m);
      assert By(a, m) + [] == By(a, m);
    }
  }

  /** A deed of nobody's run. */
  lemma HostDeed(a: seq<Deed>, step: Step, held: set<NodeId>, depth: int)
    requires step.Took? ==> depth < step.depth
    ensures Quiet(a, a + [Deed(None, step)], held, depth)
  {
    forall m | m in held
      ensures By(a + [Deed(None, step)], m) == By(a, m)
    {
      ByMore(a, Deed(None, step), m);
      assert By(a, m) + [] == By(a, m);
    }
  }

  /** A flush asked for by a run of `n`, itself not disturbed by what the flush ran. */
  lemma FlushDeed(a: seq<Deed>, b: seq<Deed>, n: NodeId, held: set<NodeId>, depth: int)
    requires Quiet(a + [Deed(Some(n), Flushed)], b, held, depth) && n in held
    ensures Did(a, b, n, [Flushed]) && Quiet(a, b, held - {n}, depth)
  {
    var asked := a + [Deed(Some(n), Flushed)];
    OneDeed(a, n, Flushed, held, depth);
    assert By(b, n) == By(asked, n);
    forall m | m in held - {n}
      ensures By(b, m) == By(a, m)
    {
      assert By(b, m) == By(asked, m) == By(a, m);
    }
  }

  /** How often the body was entered. */
  ghost function Entries(steps: seq<Step>): nat {
    if steps == [] then 0 else Entries(steps[..|steps| - 1]) + if steps[|steps| - 1].Entered? then 1 else 0
  }

  /** How often runs of `n` entered its body between `a` and `b`. */
  ghost function EnteredSince(a: seq<Deed>, b: seq<Deed>, n: NodeId): int { Entries(By(b, n)) - Entries(By(a, n)) }

  lemma EnteredMore(a: seq<Deed>, b: seq<Deed>, deed: Deed, n: NodeId)
    ensures EnteredSince(a, b + [deed], n) == EnteredSince(a, b, n) + if deed.doer == Some(n) && deed.step.Entered? then 1 else 0
  {
    ByMore(b, deed, n);
    assert By(b, n) + [] == By(b, n);
    assert (By(b, n) + [deed.step])[..|By(b, n)|] == By(b, n);
  }

  lemma {:induction false} EntriesConcat(a: seq<Step>, b: seq<Step>)
    ensures Entries(a + b) == Entries(a) + Entries(b)
    decreases |b|
  {
    if b == [] {
      assert a + b == a;
    } else {
      assert (a + b)[..|a + b| - 1] == a + b[..|b| - 1];
      EntriesConcat(a, b[..|b| - 1]);
    }
  }

  lemma {:induction false} StepsEnterNothing(steps: seq<Step>)
    requires forall i :: 0 <= i < |steps| ==> !steps[i].Entered?
    ensures Entries(steps) == 0
  {
    if steps != [] {
      StepsEnterNothing(steps[..|steps| - 1]);
    }
  }

  /** Tearing down enters no body. */
  lemma {:induction false} TeardownEntersNothing(list: seq<Cleanup>)
    ensures Entries(TeardownSteps(list)) == 0
  {
    if list != [] {
      var c := list[|list| - 1];
      TeardownEntersNothing(list[..|list| - 1]);
      StepsEnterNothing([Began(c)] + CleanupSteps(c));
      EntriesConcat([Began(c)] + CleanupSteps(c), TeardownSteps(list[..|list| - 1]));
    }
  }

  lemma TornDown(a: seq<Deed>, b: seq<Deed>, b': seq<Deed>, n: NodeId, list: seq<Cleanup>)
    requires Did(b, b', n, TeardownSteps(list))
    ensures EnteredSince(a, b', n) == EnteredSince(a, b, n)
  {
    TeardownEntersNothing(list);
    EntriesConcat(By(b, n), TeardownSteps(list));
  }

  // ------------------------------------------------------------------------------------- bodies

  /** A run of the rest `b` of the body of `n` made the reads `events`: it followed the body, registered
      what the body registers and did what the body does, each in the body's order. */
  ghost predicate BodyRan(n: NodeId, b: Body, env: seq<Value>, events: seq<ReadEvent>,
    waiting: seq<Cleanup>, waiting': seq<Cleanup>, a: seq<Deed>, a': seq<Deed>)
  {
    && BodyFollows(b, env, events)
    && waiting' == waiting + Registers(b, env, events)
    && Did(a, a', n, BodySteps(b, env, events))
  }

  lemma RanToEnd(n: NodeId, b: Body, env: seq<Value>, waiting: seq<Cleanup>, a: seq<Deed>)
    requires b.Finish?
    ensures BodyRan(n, b, env, [], waiting, waiting, a, a)
  {
    DidNothing(a, n);
    assert waiting + [] == waiting;
  }

  lemma RanChoice(n: NodeId, b: Body, env: seq<Value>, events: seq<ReadEvent>,
    waiting: seq<Cleanup>, waiting': seq<Cleanup>, a: seq<Deed>, a': seq<Deed>)
    requires b.Choose? && BodyRan(n, if b.test(env) then b.yes else b.no, env, events, waiting, waiting', a, a')
    ensures BodyRan(n, b, env, events, waiting, waiting', a, a')
  {
  }

  lemma RanRead(n: NodeId, b: Body, env: seq<Value>, event: ReadEvent, later: seq<ReadEvent>,
    waiting: seq<Cleanup>, waiting': seq<Cleanup>, a: seq<Deed>, a': seq<Deed>)
    requires b.ReadNode? && event.node == b.node && event.tracked == b.tracked
    requires BodyRan(n, b.rest, env + [event.value], later, waiting, waiting', a, a')
    ensures BodyRan(n, b, env, [event] + later, waiting, waiting', a, a')
  {
    assert ([event] + later)[1..] == later;
  }

  lemma RanStep(n: NodeId, b: Body, env: seq<Value>, events: seq<ReadEvent>,
    waiting: seq<Cleanup>, between: seq<Cleanup>, waiting': seq<Cleanup>, a: seq<Deed>, mid: seq<Deed>, a': seq<Deed>)
    requires (b.Write? || b.FlushNow? || b.OnCleanup?) && Did(a, mid, n, OwnSteps(b, env))
    requires between == waiting + if b.OnCleanup? then [b.cleanup] else []
    requires BodyRan(n, b.rest, env, events, between, waiting', mid, a')
    ensures BodyRan(n, b, env, events, waiting, waiting', a, a')
  {
    DidThen(a, mid, a', n, OwnSteps(b, env), BodySteps(b.rest, env, events));
    var own := if b.OnCleanup? then [b.cleanup] else [];
    assert waiting + own + Registers(b.rest, env, events) == waiting + (own + Registers(b.rest, env, events));
    assert [] + Registers(b.rest, env, events) == Registers(b.rest, env, events);
  }

  lemma RanWhole(n: NodeId, b: Body, events: seq<ReadEvent>, waiting': seq<Cleanup>, a: seq<Deed>, a': seq<Deed>, a'': seq<Deed>, before: seq<Step>)
    requires BodyRan(n, b, [], events, [], waiting', a', a'') && Did(a, a', n, before)
    ensures BodyFollows(b, [], events) && waiting' == Registers(b, [], events)
    ensures Did(a, a'', n, before + BodySteps(b, [], events))
  {
    assert [] + Registers(b, [], events) == Registers(b, [], events);
    DidThen(a, a', a'', n, before, BodySteps(b, [], events));
  }

  // ------------------------------------------------------------------------------------ cleanups

  lemma {:induction false} BegunConcat(a: seq<Step>, b: seq<Step>)
    ensures Begun(a + b) == Begun(a) + Begun(b)
    decreases |b|
  {
    if b == [] {
      assert a + b == a && Begun(a) + [] == Begun(a);
    } else {
      assert (a + b)[..|a + b| - 1] == a + b[..|b| - 1];
      BegunConcat(a, b[..|b| - 1]);
    }
  }

  lemma {:induction false} StepsBeginNothing(steps: seq<Step>)
    requires forall i :: 0 <= i < |steps| ==> !steps[i].Began?
    ensures Begun(steps) == []
  {
    if steps != [] {
      StepsBeginNothing(steps[..|steps| - 1]);
    }
  }

  /** Between `a` and `b` the runs of `n` began exactly the cleanups `list`, and entered no body. */
  ghost predicate Beginning(a: seq<Deed>, b: seq<Deed>, n: NodeId, list: seq<Cleanup>) {
    Begun(By(b, n)) == Begun(By(a, n)) + list && EnteredSince(a, b, n) == 0
  }

  lemma BeginningEntersNothing(a: seq<Deed>, b: seq<Deed>, n: NodeId, list: seq<Cleanup>)
    requires Beginning(a, b, n, list)
    ensures EnteredSince(a, b, n) == 0
  {
  }

  /** Between `a` and `b` the run of `n` got through `i` steps of the cleanup `c`. */
  ghost predicate CleaningUp(a: seq<Deed>, b: seq<Deed>, n: NodeId, c: Cleanup, i: nat)
    requires i <= |c|
  {
    Did(a, b, n, [Began(c)] + CleanupSteps(c)[..i])
  }

  lemma CleanupStarts(a: seq<Deed>, n: NodeId, c: Cleanup, held: set<NodeId>, depth: int)
    ensures CleaningUp(a, a + [Deed(Some(n), Began(c))], n, c, 0) && Quiet(a, a + [Deed(Some(n), Began(c))], held - {n}, depth)
  {
    OneDeed(a, n, Began(c), held, depth);
    assert [Began(c)] + CleanupSteps(c)[..0] == [Began(c)];
  }

  lemma CleanupGoesOn(a: seq<Deed>, b: seq<Deed>, b': seq<Deed>, n: NodeId, c: Cleanup, i: nat, held: set<NodeId>, depth: int)
    requires i < |c| && CleaningUp(a, b, n, c, i) && Did(b, b', n, [Doing(c[i])])
    requires Quiet(a, b, held - {n}, depth) && Quiet(b, b', held - {n}, depth)
    ensures CleaningUp(a, b', n, c, i + 1) && Quiet(a, b', held - {n}, depth)
  {
    DidThen(a, b, b', n, [Began(c)] + CleanupSteps(c)[..i], [Doing(c[i])]);
    assert [Began(c)] + CleanupSteps(c)[..i] + [Doing(c[i])] == [Began(c)] + CleanupSteps(c)[..i + 1];
    QuietTransitive(a, b, b', held - {n}, depth);
  }

  /** However far a cleanup got, it began, and no other did. */
  lemma CleanupBegan(a: seq<Deed>, b: seq<Deed>, n: NodeId, c: Cleanup, i: nat)
    requires i <= |c| && CleaningUp(a, b, n, c, i)
    ensures Beginning(a, b, n, [c])
    ensures i == |c| ==> Did(a, b, n, [Began(c)] + CleanupSteps(c))
  {
    var steps := CleanupSteps(c)[..i];
    StepsBeginNothing(steps);
    BegunConcat([Began(c)], steps);
    assert [Began(c)][..0] == [];
    assert Begun([Began(c)]) == [c];
    BegunConcat(By(a, n), [Began(c)] + steps);
    StepsEnterNothing([Began(c)] + steps);
    EntriesConcat(By(a, n), [Began(c)] + steps);
    if i == |c| {
      assert steps == CleanupSteps(c);
    }
  }

  /** What is left to do of tearing down `list` once the cleanups from `i` on have run. */
  ghost predicate TearingDown(list: seq<Cleanup>, i: nat, steps: seq<Step>, begun: seq<Cleanup>)
    requires i <= |list|
  {
    steps + TeardownSteps(list[..i]) == TeardownSteps(list) && begun + LatestFirst(list[..i]) == LatestFirst(list)
  }

  lemma TeardownStarts(a: seq<Deed>, n: NodeId, list: seq<Cleanup>)
    ensures TearingDown(list, |list|, [], []) && Did(a, a, n, []) && Beginning(a, a, n, [])
  {
    assert list[..|list|] == list;
    DidNothing(a, n);
  }

  lemma TeardownGoesOn(
    a: seq<Deed>, b: seq<Deed>, b': seq<Deed>, n: NodeId, list: seq<Cleanup>, i: nat, steps: seq<Step>, begun: seq<Cleanup>)
    requires i < |list| && TearingDown(list, i + 1, steps, begun)
    requires Beginning(a, b, n, begun) && Beginning(b, b', n, [list[i]])
    ensures TearingDown(list, i, steps + ([Began(list[i])] + CleanupSteps(list[i])), begun + [list[i]])
    ensures Beginning(a, b', n, begun + [list[i]])
    ensures Did(a, b, n, steps) && Did(b, b', n, [Began(list[i])] + CleanupSteps(list[i])) ==>
              Did(a, b', n, steps + ([Began(list[i])] + CleanupSteps(list[i])))
  {
    var one := [Began(list[i])] + CleanupSteps(list[i]);
    assert list[..i + 1][..i] == list[..i];
    assert steps + one + TeardownSteps(list[..i]) == steps + TeardownSteps(list[..i + 1]);
    assert begun + [list[i]] + LatestFirst(list[..i]) == begun + LatestFirst(list[..i + 1]);
    assert Begun(By(a, n)) + begun + [list[i]] == Begun(By(a, n)) + (begun + [list[i]]);
    if Did(a, b, n, steps) && Did(b, b', n, one) {
      DidThen(a, b, b', n, steps, one);
    }
  }

  lemma TeardownEnds(list: seq<Cleanup>, steps: seq<Step>, begun: seq<Cleanup>)
    requires TearingDown(list, 0, steps, begun)
    ensures steps == TeardownSteps(list) && begun == LatestFirst(list)
  {
    assert list[..0] == [];
    assert steps + [] == steps && begun + [] == begun;
  }
}
