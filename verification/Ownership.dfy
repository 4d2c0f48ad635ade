/** Owner frames: adoption, the sweep of disposed children, cleanups and their total teardown, and the
    gauges maintained along the way. One table per cell of a frame. */
module Ownership {

  import opened Basics

  datatype FrameId = FrameId(raw: nat)

  /** A cleanup closure. It may register further cleanups and dispose owners before it returns or
      panics. */
  datatype Callback = Callback(id: nat, actions: seq<Action>, panics: bool)

  datatype Action = Register(owner: FrameId, callback: Callback) | Dispose(owner: FrameId)

  /** Every owner a callback names exists. */
  ghost predicate Known(c: Callback, frames: set<FrameId>) {
    forall i :: 0 <= i < |c.actions| ==> KnownAction(c.actions[i], frames)
  }

  ghost predicate KnownAction(a: Action, frames: set<FrameId>) {
    match a
    case Register(f, c) => f in frames && Known(c, frames)
    case Dispose(f) => f in frames
  }

  // ---------------------------------------------------------------------- walks over all frames

  /** The sum a walk over all live frames finds. */
  ghost function Total<T>(m: map<FrameId, seq<T>>): nat
    decreases |m|
  {
    if m == map[] then 0
    else
      var f :| f in m;
      |m[f]| + Total(m - {f})
  }

  lemma {:induction false} TotalWithout<T>(m: map<FrameId, seq<T>>, f: FrameId)
    requires f in m
    ensures Total(m) == |m[f]| + Total(m - {f})
    decreases |m|
  {
    var g :| g in m && Total(m) == |m[g]| + Total(m - {g});
    if g != f {
      TotalWithout(m - {g}, f);
      TotalWithout(m - {f}, g);
      assert m - {g} - {f} == m - {f} - {g};
    }
  }

  lemma TotalUpdate<T>(m: map<FrameId, seq<T>>, f: FrameId, s: seq<T>)
    requires f in m
    ensures Total(m[f := s]) == Total(m) - |m[f]| + |s| && Total(m) >= |m[f]|
  {
    TotalWithout(m, f);
    TotalWithout(m[f := s], f);
    assert m[f := s] - {f} == m - {f};
  }

  lemma TotalAdd<T>(m: map<FrameId, seq<T>>, f: FrameId)
    requires f !in m
    ensures Total(m[f := []]) == Total(m)
  {
    TotalWithout(m[f := []], f);
    assert m[f := []] - {f} == m;
  }

  ghost function Ids(cs: seq<Callback>): seq<nat> { seq(|cs|, i requires 0 <= i < |cs| => cs[i].id) }

  /** The ids of every cleanup waiting on some frame. */
  ghost function Pending(m: map<FrameId, seq<Callback>>): multiset<nat>
    decreases |m|
  {
    if m == map[] then multiset{}
    else
      var f :| f in m;
      multiset(Ids(m[f])) + Pending(m - {f})
  }

  lemma {:induction false} PendingWithout(m: map<FrameId, seq<Callback>>, f: FrameId)
    requires f in m
    ensures Pending(m) == multiset(Ids(m[f])) + Pending(m - {f})
    decreases |m|
  {
    var g :| g in m && Pending(m) == multiset(Ids(m[g])) + Pending(m - {g});
    if g != f {
      PendingWithout(m - {g}, f);
      PendingWithout(m - {f}, g);
      assert m - {g} - {f} == m - {f} - {g};
      assert (m - {g})[f] == m[f] && (m - {f})[g] == m[g];
      hide Pending, Ids;
      Shuffle(multiset(Ids(m[g])), multiset(Ids(m[f])), Pending(m - {g} - {f}));
    }
  }

  lemma Shuffle(a: multiset<nat>, b: multiset<nat>, c: multiset<nat>)
    ensures a + (b + c) == b + (a + c)
  {
  }

  lemma PendingUpdate(m: map<FrameId, seq<Callback>>, f: FrameId, s: seq<Callback>)
    requires f in m
    ensures Pending(m[f := s]) + multiset(Ids(m[f])) == Pending(m) + multiset(Ids(s))
  {
    PendingWithout(m, f);
    PendingWithout(m[f := s], f);
    assert m[f := s] - {f} == m - {f};
  }

  lemma PendingAdd(m: map<FrameId, seq<Callback>>, f: FrameId)
    requires f !in m
    ensures Pending(m[f := []]) == Pending(m)
  {
    PendingWithout(m[f := []], f);
    assert m[f := []] - {f} == m;
  }

  // ------------------------------------------------------------------------- the tree of owners

  /** A frame, what it owns, and so on down. */
  datatype Tree = Tree(frame: FrameId, cleanups: seq<Callback>, children: seq<Tree>)

  ghost function Init<T>(s: seq<T>): seq<T>
    requires s != []
  {
    s[..|s| - 1]
  }

  ghost function Last<T>(s: seq<T>): T
    requires s != []
  {
    s[|s| - 1]
  }

  ghost function Reverse<T>(s: seq<T>): seq<T> { if s == [] then [] else [Last(s)] + Reverse(Init(s)) }

  /** The order teardown promises: a frame's cleanups, latest first, then its children, latest first. */
  ghost function Calls(t: Tree): seq<Callback> { Reverse(t.cleanups) + CallsAll(t.children) }

  ghost function CallsAll(ts: seq<Tree>): seq<Callback> {
    if ts == [] then [] else Calls(Last(ts)) + CallsAll(Init(ts))
  }

  /** The first panic met in that order. */
  ghost function FirstPanic(cs: seq<Callback>): Option<nat> {
    if cs == [] then None else if cs[0].panics then Some(cs[0].id) else FirstPanic(cs[1..])
  }

  ghost function Earliest(a: Option<nat>, b: Option<nat>): Option<nat> { if a.Some? then a else b }

  ghost function Frames(t: Tree): set<FrameId> { {t.frame} + FramesAll(t.children) }

  ghost function FramesAll(ts: seq<Tree>): set<FrameId> {
    if ts == [] then {} else Frames(Last(ts)) + FramesAll(Init(ts))
  }

  /** No frame has two owners. */
  ghost predicate Distinct(t: Tree) { t.frame !in FramesAll(t.children) && DistinctAll(t.children) }

  ghost predicate DistinctAll(ts: seq<Tree>) {
    ts == [] || (Distinct(Last(ts)) && DistinctAll(Init(ts)) && Frames(Last(ts)) !! FramesAll(Init(ts)))
  }

  /** Cleanups that only run, and perhaps panic. */
  ghost predicate Inert(t: Tree) {
    (forall i :: 0 <= i < |t.cleanups| ==> t.cleanups[i].actions == []) && InertAll(t.children)
  }

  ghost predicate InertAll(ts: seq<Tree>) { ts == [] || (Inert(Last(ts)) && InertAll(Init(ts))) }

  ghost function Roots(ts: seq<Tree>): seq<FrameId> { seq(|ts|, i requires 0 <= i < |ts| => ts[i].frame) }

  /** The tables hold the tree `t`. */
  ghost predicate Holds(children: map<FrameId, seq<FrameId>>, cleanups: map<FrameId, seq<Callback>>, t: Tree) {
    && t.frame in children && children[t.frame] == Roots(t.children)
    && t.frame in cleanups && cleanups[t.frame] == t.cleanups
    && HoldsAll(children, cleanups, t.children)
  }

  ghost predicate HoldsAll(children: map<FrameId, seq<FrameId>>, cleanups: map<FrameId, seq<Callback>>, ts: seq<Tree>) {
    ts == [] || (Holds(children, cleanups, Last(ts)) && HoldsAll(children, cleanups, Init(ts)))
  }

  /** A tree looks the same in tables that agree on its frames. */
  lemma {:induction false} HoldsElsewhere(
    children: map<FrameId, seq<FrameId>>, cleanups: map<FrameId, seq<Callback>>,
    children': map<FrameId, seq<FrameId>>, cleanups': map<FrameId, seq<Callback>>, ts: seq<Tree>)
    requires HoldsAll(children, cleanups, ts)
    requires forall f :: f in FramesAll(ts) && f in children ==> f in children' && children'[f] == children[f]
    requires forall f :: f in FramesAll(ts) && f in cleanups ==> f in cleanups' && cleanups'[f] == cleanups[f]
    ensures HoldsAll(children', cleanups', ts)
    decreases ts
  {
    if ts != [] {
      var t := Last(ts);
      assert t.frame in FramesAll(ts);
      HoldsElsewhere(children, cleanups, children', cleanups', t.children);
      HoldsElsewhere(children, cleanups, children', cleanups', Init(ts));
    }
  }

  lemma {:induction false} FirstPanicConcat(a: seq<Callback>, b: seq<Callback>)
    ensures FirstPanic(a + b) == Earliest(FirstPanic(a), FirstPanic(b))
    decreases |a|
  {
    if a == [] {
      assert a + b == b;
    } else {
      assert (a + b)[1..] == a[1..] + b;
      FirstPanicConcat(a[1..], b);
    }
  }

  lemma IdsConcat(a: seq<Callback>, b: seq<Callback>)
    ensures Ids(a + b) == Ids(a) + Ids(b)
  {
  }

  // --------------------------------------------------------------------------- the owner frames

  /** A disposed frame holds nothing, but for those in `closing`. */
  ghost predicate Shaped(
    children: map<FrameId, seq<FrameId>>, cleanups: map<FrameId, seq<Callback>>, sweptAt: map<FrameId, nat>,
    disposed: set<FrameId>, closing: set<FrameId>)
  {
    && children.Keys == cleanups.Keys == sweptAt.Keys
    && disposed <= children.Keys
    && (forall f :: f in disposed && f !in closing ==> children[f] == [] && cleanups[f] == [])
  }

  ghost predicate AllOwned(children: map<FrameId, seq<FrameId>>) {
    forall f, i :: f in children && 0 <= i < |children[f]| ==> children[f][i] in children
  }

  ghost predicate AllKnown(cleanups: map<FrameId, seq<Callback>>, frames: set<FrameId>) {
    forall f, i :: f in cleanups && 0 <= i < |cleanups[f]| ==> Known(cleanups[f][i], frames)
  }

  /** Every cleanup registered has run, is about to run, or is waiting: each exactly once. */
  ghost predicate Accounted(ran: seq<nat>, inFlight: multiset<nat>, pending: multiset<nat>, registered: multiset<nat>) {
    multiset(ran) + inFlight + pending == registered
  }

  lemma AccountStarted(ran: seq<nat>, inFlight: multiset<nat>, pending: multiset<nat>, registered: multiset<nat>, id: nat)
    requires Accounted(ran, inFlight, pending, registered) && id in inFlight
    ensures Accounted(ran + [id], inFlight - multiset{id}, pending, registered)
  {
  }

  lemma AccountTaken(ran: seq<nat>, inFlight: multiset<nat>, pending: multiset<nat>, pending': multiset<nat>, registered: multiset<nat>, taken: multiset<nat>)
    requires Accounted(ran, inFlight, pending, registered) && pending' + taken == pending
    ensures Accounted(ran, inFlight + taken, pending', registered)
  {
  }

  lemma AccountRegistered(ran: seq<nat>, inFlight: multiset<nat>, pending: multiset<nat>, registered: multiset<nat>, id: nat)
    requires Accounted(ran, inFlight, pending, registered)
    ensures Accounted(ran, inFlight + multiset{id}, pending, registered + multiset{id})
    ensures Accounted(ran, inFlight, pending + multiset{id}, registered + multiset{id})
  {
  }

  lemma SameKeys(
    children: map<FrameId, seq<FrameId>>, cleanups: map<FrameId, seq<Callback>>, sweptAt: map<FrameId, nat>,
    disposed: set<FrameId>, closing: set<FrameId>)
    requires Shaped(children, cleanups, sweptAt, disposed, closing)
    ensures children.Keys == cleanups.Keys == sweptAt.Keys
  {
  }

  // -------------------------------------------------------------------------- nothing is stranded

  /** Every child a frame was ever given is still on its list, or disposed, or taken by a teardown that is
      still under way. */
  ghost predicate Kept(
    children: map<FrameId, seq<FrameId>>, owned: map<FrameId, set<FrameId>>, disposed: set<FrameId>, taken: multiset<FrameId>)
  {
    && children.Keys == owned.Keys
    && (forall f, k :: f in owned && k in owned[f] ==> k in children[f] || k in disposed || k in taken)
    && (forall f, k :: f in children && k in children[f] ==> k in owned[f])
  }

  /** Every child listed in `before` is among those its owner was ever given. */
  ghost predicate Remembered(before: map<FrameId, seq<FrameId>>, owned: map<FrameId, set<FrameId>>) {
    forall x, k :: x in before && k in before[x] ==> x in owned && k in owned[x]
  }

  /** `path` leads from owner to child, from `f` down to `g`. */
  ghost predicate Descent(children: map<FrameId, seq<FrameId>>, path: seq<FrameId>, f: FrameId, g: FrameId) {
    && path != [] && path[0] == f && path[|path| - 1] == g
    && (forall i :: 0 <= i < |path| - 1 ==> path[i] in children && path[i + 1] in children[path[i]])
  }

  /** `g` is `f` or below it. */
  ghost predicate Within(children: map<FrameId, seq<FrameId>>, f: FrameId, g: FrameId) {
    exists path :: Descent(children, path, f, g)
  }

  /** `g` is below one of the children in `taken`. */
  ghost predicate StillDue(children: map<FrameId, seq<FrameId>>, taken: multiset<FrameId>, g: FrameId) {
    exists k :: k in taken && Within(children, k, g)
  }

  /** The frames below `f` are disposed and empty, but for those a teardown under way still has to reach. */
  ghost predicate AllTorn(
    before: map<FrameId, seq<FrameId>>, children: map<FrameId, seq<FrameId>>, cleanups: map<FrameId, seq<Callback>>,
    disposed: set<FrameId>, taken: multiset<FrameId>, f: FrameId)
  {
    forall g :: Within(before, f, g) && !StillDue(before, taken, g) ==>
      g in disposed && Emptied(children, cleanups, g)
  }

  ghost predicate Emptied(children: map<FrameId, seq<FrameId>>, cleanups: map<FrameId, seq<Callback>>, g: FrameId) {
    g in children && children[g] == [] && g in cleanups && cleanups[g] == []
  }

  /** When no other teardown is under way nothing is still due. */
  lemma TornAtTop(
    before: map<FrameId, seq<FrameId>>, children: map<FrameId, seq<FrameId>>, cleanups: map<FrameId, seq<Callback>>,
    disposed: set<FrameId>, f: FrameId)
    ensures AllTorn(before, children, cleanups, disposed, multiset{}, f) ==>
              forall g :: Within(before, f, g) ==> g in disposed && Emptied(children, cleanups, g)
  {
  }

  lemma ChildrenReached(
    ks: seq<FrameId>, before: map<FrameId, seq<FrameId>>, children: map<FrameId, seq<FrameId>>, cleanups: map<FrameId, seq<Callback>>,
    sweptAt: map<FrameId, nat>, owned: map<FrameId, set<FrameId>>, disposed: set<FrameId>, taken: multiset<FrameId>)
    requires Kept(children, owned, disposed, taken) && Shaped(children, cleanups, sweptAt, disposed, {})
    requires forall i :: 0 <= i < |ks| ==> ks[i] in disposed
    requires Remembered(before, owned)
    ensures forall k :: k in ks ==> AllTorn(before, children, cleanups, disposed, taken, k)
  {
    hide AllTorn, Kept, Shaped;
    forall k | k in ks
      ensures AllTorn(before, children, cleanups, disposed, taken, k)
    {
      DisposedReachesAll(before, children, cleanups, sweptAt, owned, disposed, taken, k);
    }
  }

  lemma {:induction false} DescentDisposed(
    before: map<FrameId, seq<FrameId>>, children: map<FrameId, seq<FrameId>>, owned: map<FrameId, set<FrameId>>,
    disposed: set<FrameId>, taken: multiset<FrameId>, path: seq<FrameId>, f: FrameId, g: FrameId)
    requires Kept(children, owned, disposed, taken) && f in disposed && Descent(before, path, f, g)
    requires Remembered(before, owned)
    requires forall x :: x in disposed ==> x in children && children[x] == []
    ensures g in disposed || StillDue(before, taken, g)
    decreases |path|
  {
    if |path| > 1 {
      var k := path[0 + 1];
      assert k in before[f];
      forall i | 0 <= i < |path[1..]| - 1
        ensures path[1..][i] in before && path[1..][i + 1] in before[path[1..][i]]
      {
        assert path[1..][i] == path[i + 1] && path[1..][i + 1] == path[i + 1 + 1];
      }
      assert Descent(before, path[1..], k, g);
      if k in disposed {
        DescentDisposed(before, children, owned, disposed, taken, path[1..], k, g);
      } else {
        assert Within(before, k, g);
      }
    }
  }

  /** Whatever the cleanups do, disposing `f` reaches every frame below it. */
  lemma DisposedReachesAll(
    before: map<FrameId, seq<FrameId>>, children: map<FrameId, seq<FrameId>>, cleanups: map<FrameId, seq<Callback>>,
    sweptAt: map<FrameId, nat>, owned: map<FrameId, set<FrameId>>, disposed: set<FrameId>, taken: multiset<FrameId>, f: FrameId)
    requires Kept(children, owned, disposed, taken) && Shaped(children, cleanups, sweptAt, disposed, {}) && f in disposed
    requires Remembered(before, owned)
    ensures AllTorn(before, children, cleanups, disposed, taken, f)
  {
    forall g | Within(before, f, g) && !StillDue(before, taken, g)
      ensures g in disposed
    {
      var path :| Descent(before, path, f, g);
      DescentDisposed(before, children, owned, disposed, taken, path, f, g);
    }
  }

  lemma OwnedBefore(before: map<FrameId, seq<FrameId>>, owned: map<FrameId, set<FrameId>>, disposed: set<FrameId>, taken: multiset<FrameId>)
    requires Kept(before, owned, disposed, taken)
    ensures Remembered(before, owned)
  {
  }

  lemma KeptMore(
    children: map<FrameId, seq<FrameId>>, owned: map<FrameId, set<FrameId>>, disposed: set<FrameId>, taken: multiset<FrameId>, f: FrameId)
    requires Kept(children, owned, disposed, taken) && f !in children
    ensures Kept(children[f := []], owned[f := {}], disposed, taken)
  {
  }

  lemma KeptDisposed(
    children: map<FrameId, seq<FrameId>>, owned: map<FrameId, set<FrameId>>, disposed: set<FrameId>, taken: multiset<FrameId>, more: set<FrameId>)
    requires Kept(children, owned, disposed, taken)
    ensures Kept(children, owned, disposed + more, taken)
  {
  }

  lemma KeptTaken(
    children: map<FrameId, seq<FrameId>>, owned: map<FrameId, set<FrameId>>, disposed: set<FrameId>, taken: multiset<FrameId>, f: FrameId)
    requires Kept(children, owned, disposed, taken) && f in children
    ensures Kept(children[f := []], owned, disposed, taken + multiset(children[f]))
  {
    forall k | k in children[f]
      ensures k in taken + multiset(children[f])
    {
      assert k in multiset(children[f]);
    }
  }

  lemma KeptDone(
    children: map<FrameId, seq<FrameId>>, owned: map<FrameId, set<FrameId>>, disposed: set<FrameId>, taken: multiset<FrameId>, k: FrameId)
    requires Kept(children, owned, disposed, taken) && k in disposed
    ensures Kept(children, owned, disposed, taken - multiset{k})
  {
    forall f, x | f in owned && x in owned[f]
      ensures x in children[f] || x in disposed || x in taken - multiset{k}
    {
      assert x != k ==> (taken - multiset{k})[x] == taken[x];
    }
  }

  lemma KeptSwept(
    children: map<FrameId, seq<FrameId>>, owned: map<FrameId, set<FrameId>>, disposed: set<FrameId>, taken: multiset<FrameId>,
    f: FrameId, kept: seq<FrameId>)
    requires Kept(children, owned, disposed, taken) && f in children && kept == Survivors(children[f], disposed)
    ensures Kept(children[f := kept], owned, disposed, taken)
  {
    SurvivorsInOrder(children[f], disposed);
    var s, places := children[f], Places(children[f], disposed);
    hide Survivors, Places;
    forall k | k in s && k !in disposed
      ensures k in kept
    {
      var i :| 0 <= i < |s| && s[i] == k;
      assert i in places;
      var j :| 0 <= j < |places| && places[j] == i;
      assert kept[j] == k;
    }
    forall k | k in kept
      ensures k in s
    {
      var j :| 0 <= j < |kept| && kept[j] == k;
      assert s[places[j]] == k;
    }
  }

  lemma KeptPushed(
    children: map<FrameId, seq<FrameId>>, owned: map<FrameId, set<FrameId>>, disposed: set<FrameId>, taken: multiset<FrameId>,
    f: FrameId, child: FrameId)
    requires Kept(children, owned, disposed, taken) && f in children
    ensures f in owned
    ensures Kept(children[f := children[f] + [child]], owned[f := owned[f] + {child}], disposed, taken)
    ensures child in disposed ==> Kept(children, owned[f := owned[f] + {child}], disposed, taken)
  {
  }

  // ------------------------------------------------------------------------------- the sweep

  const SWEEP_FLOOR := 8

  /** What a list amounts to: it has not outgrown the last sweep's survivors by more than half, and
      all sweeps together looked at no more than twice the children adopted since. */
  ghost predicate SweptWell(length: nat, sweptAt: nat, adopted: nat, scanned: nat) {
    && sweptAt <= length && (length <= SWEEP_FLOOR || length <= 2 * sweptAt)
    && length - sweptAt <= adopted
    && scanned <= 2 * (adopted - (length - sweptAt))
  }

  ghost predicate AllSwept(
    children: map<FrameId, seq<FrameId>>, sweptAt: map<FrameId, nat>, adopted: map<FrameId, nat>, scanned: map<FrameId, nat>)
  {
    forall f :: f in children ==>
      f in sweptAt && f in adopted && f in scanned && SweptWell(|children[f]|, sweptAt[f], adopted[f], scanned[f])
  }

  lemma SweptAdded(
    children: map<FrameId, seq<FrameId>>, sweptAt: map<FrameId, nat>, adopted: map<FrameId, nat>, scanned: map<FrameId, nat>, f: FrameId)
    requires AllSwept(children, sweptAt, adopted, scanned)
    ensures AllSwept(children[f := []], sweptAt[f := 0], adopted[f := 0], scanned[f := 0])
  {
  }

  lemma SweptTaken(
    children: map<FrameId, seq<FrameId>>, sweptAt: map<FrameId, nat>, adopted: map<FrameId, nat>, scanned: map<FrameId, nat>, f: FrameId)
    requires AllSwept(children, sweptAt, adopted, scanned) && f in children
    ensures AllSwept(children[f := []], sweptAt[f := 0], adopted, scanned)
  {
  }

  /** The children still alive, in order. */
  function Survivors(s: seq<FrameId>, disposed: set<FrameId>): seq<FrameId> {
    if s == [] then [] else Survivors(s[..|s| - 1], disposed) + (if s[|s| - 1] in disposed then [] else [s[|s| - 1]])
  }

  /** Where each survivor stood. */
  ghost function Places(s: seq<FrameId>, disposed: set<FrameId>): seq<nat> {
    if s == [] then [] else Places(s[..|s| - 1], disposed) + (if s[|s| - 1] in disposed then [] else [|s| - 1])
  }

  /** A sweep releases no live child, keeps no disposed one and changes no relative order. */
  lemma {:induction false} SurvivorsInOrder(s: seq<FrameId>, disposed: set<FrameId>)
    ensures var kept, places := Survivors(s, disposed), Places(s, disposed);
            && |places| == |kept| <= |s|
            && (forall i :: 0 <= i < |kept| ==> places[i] < |s| && kept[i] == s[places[i]] && kept[i] !in disposed)
            && (forall i, j :: 0 <= i < j < |kept| ==> places[i] < places[j])
            && (forall k :: 0 <= k < |s| && s[k] !in disposed ==> k in places)
    decreases |s|
  {
    if s != [] {
      var front := s[..|s| - 1];
      SurvivorsInOrder(front, disposed);
      var kept, places := Survivors(front, disposed), Places(front, disposed);
      forall k | 0 <= k < |s| && s[k] !in disposed
        ensures k in Places(s, disposed)
      {
        if k < |s| - 1 {
          assert front[k] !in disposed;
          assert k in places;
        }
      }
    }
  }

  lemma FrameAdded(
    children: map<FrameId, seq<FrameId>>, cleanups: map<FrameId, seq<Callback>>, sweptAt: map<FrameId, nat>,
    disposed: set<FrameId>, f: FrameId)
    requires Shaped(children, cleanups, sweptAt, disposed, {}) && AllOwned(children) && AllKnown(cleanups, children.Keys)
    requires f !in children
    ensures var children', cleanups' := children[f := []], cleanups[f := []];
            && Shaped(children', cleanups', sweptAt[f := 0], disposed, {}) && AllOwned(children') && AllKnown(cleanups', children'.Keys)
            && Total(children') == Total(children) && Total(cleanups') == Total(cleanups) && Pending(cleanups') == Pending(cleanups)
            && |children'| == |children| + 1
  {
    hide Known, Total, Pending;
    TotalAdd(children, f);
    TotalAdd(cleanups, f);
    PendingAdd(cleanups, f);
    KnownMore(cleanups, children.Keys, children.Keys + {f});
    assert children[f := []].Keys == children.Keys + {f};
    assert |children[f := []].Keys| == |children.Keys| + 1;
  }

  lemma ScansKept(
    children: map<FrameId, seq<FrameId>>, sweptAt: map<FrameId, nat>, adopted: map<FrameId, nat>, scanned: map<FrameId, nat>, f: FrameId)
    requires AllSwept(children, sweptAt, adopted, scanned) && f in children
    ensures f in sweptAt && f in adopted && f in scanned
    ensures scanned[f] <= 2 * adopted[f]
    ensures |children[f]| <= SWEEP_FLOOR || |children[f]| <= 2 * sweptAt[f]
  {
  }

  lemma ListSwept(
    children: map<FrameId, seq<FrameId>>, cleanups: map<FrameId, seq<Callback>>, sweptAt: map<FrameId, nat>,
    adopted: map<FrameId, nat>, scanned: map<FrameId, nat>, disposed: set<FrameId>, f: FrameId, kept: seq<FrameId>)
    requires Shaped(children, cleanups, sweptAt, disposed, {}) && AllOwned(children) && AllKnown(cleanups, children.Keys)
    requires AllSwept(children, sweptAt, adopted, scanned) && f in children && f !in disposed && f in scanned && f in sweptAt
    requires SWEEP_FLOOR <= |children[f]| && 2 * sweptAt[f] <= |children[f]| && kept == Survivors(children[f], disposed)
    ensures var children', sweptAt' := children[f := kept], sweptAt[f := |kept|];
            && Shaped(children', cleanups, sweptAt', disposed, {}) && AllOwned(children') && AllKnown(cleanups, children'.Keys)
            && AllSwept(children', sweptAt', adopted, scanned[f := scanned[f] + |children[f]|])
            && Total(children') == Total(children) - |children[f]| + |kept| && |children'| == |children|
            && |kept| <= |children[f]| <= Total(children)
  {
    hide Known, Total, Shaped;
    TotalUpdate(children, f, kept);
    SurvivorsInOrder(children[f], disposed);
    hide Survivors, Places;
    SweptShape(children, cleanups, sweptAt, disposed, f, kept);
  }

  lemma SweptShape(
    children: map<FrameId, seq<FrameId>>, cleanups: map<FrameId, seq<Callback>>, sweptAt: map<FrameId, nat>,
    disposed: set<FrameId>, f: FrameId, kept: seq<FrameId>)
    requires Shaped(children, cleanups, sweptAt, disposed, {}) && f in children && f !in disposed
    ensures Shaped(children[f := kept], cleanups, sweptAt[f := |kept|], disposed, {})
    ensures children[f := kept].Keys == children.Keys && |children[f := kept]| == |children|
  {
    assert children[f := kept].Keys == children.Keys;
    assert |children[f := kept].Keys| == |children.Keys|;
  }

  lemma ChildPushed(
    children: map<FrameId, seq<FrameId>>, cleanups: map<FrameId, seq<Callback>>, sweptAt: map<FrameId, nat>,
    adopted: map<FrameId, nat>, scanned: map<FrameId, nat>, disposed: set<FrameId>, f: FrameId, child: FrameId)
    requires Shaped(children, cleanups, sweptAt, disposed, {}) && AllOwned(children) && AllKnown(cleanups, children.Keys)
    requires AllSwept(children, sweptAt, adopted, scanned) && f in children && child in children && f !in disposed
    requires f in sweptAt && f in adopted
    requires |children[f]| < SWEEP_FLOOR || |children[f]| < 2 * sweptAt[f] || |children[f]| == sweptAt[f]
    ensures var children' := children[f := children[f] + [child]];
            && Shaped(children', cleanups, sweptAt, disposed, {}) && AllOwned(children') && AllKnown(cleanups, children'.Keys)
            && AllSwept(children', sweptAt, adopted[f := adopted[f] + 1], scanned)
            && Total(children') == Total(children) + 1 && |children'| == |children|
  {
    hide Known, Total;
    TotalUpdate(children, f, children[f] + [child]);
    assert children[f := children[f] + [child]].Keys == children.Keys;
    assert |children[f := children[f] + [child]].Keys| == |children.Keys|;
  }

  lemma CleanupPushed(
    children: map<FrameId, seq<FrameId>>, cleanups: map<FrameId, seq<Callback>>, sweptAt: map<FrameId, nat>,
    disposed: set<FrameId>, f: FrameId, c: Callback)
    requires Shaped(children, cleanups, sweptAt, disposed, {}) && AllKnown(cleanups, children.Keys)
    requires f in children && f !in disposed && Known(c, children.Keys)
    ensures f in cleanups
    ensures var cleanups' := cleanups[f := cleanups[f] + [c]];
            && Shaped(children, cleanups', sweptAt, disposed, {}) && AllKnown(cleanups', children.Keys)
            && Total(cleanups') == Total(cleanups) + 1 && Pending(cleanups') == Pending(cleanups) + multiset{c.id}
  {
    hide Known, Total, Pending;
    TotalUpdate(cleanups, f, cleanups[f] + [c]);
    PendingUpdate(cleanups, f, cleanups[f] + [c]);
    assert Ids(cleanups[f] + [c]) == Ids(cleanups[f]) + [c.id];
    assert multiset(Ids(cleanups[f] + [c])) == multiset(Ids(cleanups[f])) + multiset{c.id};
    Cancel(Pending(cleanups[f := cleanups[f] + [c]]), Pending(cleanups), multiset(Ids(cleanups[f])), multiset{c.id});
  }

  lemma Cancel<T>(a: multiset<T>, b: multiset<T>, common: multiset<T>, x: multiset<T>)
    requires a + common == b + (common + x)
    ensures a == b + x
  {
    forall k: T
      ensures a[k] == b[k] + x[k]
    {
      assert (a + common)[k] == (b + (common + x))[k];
    }
  }

  lemma ListsTaken(
    children: map<FrameId, seq<FrameId>>, cleanups: map<FrameId, seq<Callback>>, sweptAt: map<FrameId, nat>,
    disposed: set<FrameId>, f: FrameId)
    requires Shaped(children, cleanups, sweptAt, disposed, {f}) && AllOwned(children) && AllKnown(cleanups, children.Keys)
    requires f in children
    ensures f in cleanups
    ensures var children', cleanups' := children[f := []], cleanups[f := []];
            && Shaped(children', cleanups', sweptAt[f := 0], disposed, {}) && AllOwned(children') && AllKnown(cleanups', children'.Keys)
            && Total(children') == Total(children) - |children[f]| && Total(cleanups') == Total(cleanups) - |cleanups[f]|
            && Pending(cleanups') + multiset(Ids(cleanups[f])) == Pending(cleanups)
            && |children'| == |children| && children'.Keys == children.Keys
    ensures forall i :: 0 <= i < |cleanups[f]| ==> Known(cleanups[f][i], children.Keys)
    ensures forall i :: 0 <= i < |children[f]| ==> children[f][i] in children
  {
    hide Known, Total, Pending;
    TotalUpdate(cleanups, f, []);
    TotalUpdate(children, f, []);
    PendingUpdate(cleanups, f, []);
    assert children[f := []].Keys == children.Keys;
    assert |children[f := []].Keys| == |children.Keys|;
  }

  /** What one call into teardown leaves for its caller to compare. */
  ghost predicate OnlyTorn(
    children: map<FrameId, seq<FrameId>>, cleanups: map<FrameId, seq<Callback>>, disposed: set<FrameId>,
    children': map<FrameId, seq<FrameId>>, cleanups': map<FrameId, seq<Callback>>, disposed': set<FrameId>,
    torn: set<FrameId>)
  {
    && (forall f :: f in children && f !in torn ==> f in children' && children'[f] == children[f])
    && (forall f :: f in cleanups && f !in torn ==> f in cleanups' && cleanups'[f] == cleanups[f])
    && disposed <= disposed' <= disposed + torn
  }

  // ------------------------------------------------------------------------ what a cleanup gets done

  /** An action that was done: the owner is disposed, or the registered cleanup waits on its owner, unless that
      has been disposed and with it everything that waited there. */
  ghost predicate Performed(a: Action, disposed: set<FrameId>, cleanups: map<FrameId, seq<Callback>>) {
    match a
    case Dispose(f) => f in disposed
    case Register(f, c) => f in disposed || (f in cleanups && c in cleanups[f])
  }

  ghost predicate AllPerformed(actions: seq<Action>, disposed: set<FrameId>, cleanups: map<FrameId, seq<Callback>>) {
    forall i :: 0 <= i < |actions| ==> Performed(actions[i], disposed, cleanups)
  }

  /** What waits on an owner that stays live goes on waiting, in its place. */
  ghost predicate Patient(cleanups: map<FrameId, seq<Callback>>, cleanups': map<FrameId, seq<Callback>>, disposed': set<FrameId>) {
    forall f :: f in cleanups && f !in disposed' ==> f in cleanups' && cleanups[f] <= cleanups'[f]
  }

  lemma PatientNow(cleanups: map<FrameId, seq<Callback>>, disposed: set<FrameId>)
    ensures Patient(cleanups, cleanups, disposed)
  {
  }

  /** A frame that is disposed may have its list taken. */
  lemma EmptiedIsPatient(before: map<FrameId, seq<Callback>>, after: map<FrameId, seq<Callback>>, f: FrameId, disposed: set<FrameId>)
    requires f in disposed && Patient(before[f := []], after, disposed)
    ensures Patient(before, after, disposed)
  {
  }

  lemma PatientTransitive(
    a: map<FrameId, seq<Callback>>, b: map<FrameId, seq<Callback>>, c: map<FrameId, seq<Callback>>, d: set<FrameId>, d': set<FrameId>)
    requires Patient(a, b, d) && Patient(b, c, d') && d <= d'
    ensures Patient(a, c, d')
  {
    forall f | f in a && f !in d'
      ensures f in c && a[f] <= c[f]
    {
      assert a[f] <= b[f] <= c[f];
    }
  }

  lemma PerformedStays(
    actions: seq<Action>, d: set<FrameId>, cleanups: map<FrameId, seq<Callback>>, d': set<FrameId>, cleanups': map<FrameId, seq<Callback>>)
    requires AllPerformed(actions, d, cleanups) && d <= d' && Patient(cleanups, cleanups', d')
    ensures AllPerformed(actions, d', cleanups')
  {
    forall i | 0 <= i < |actions|
      ensures Performed(actions[i], d', cleanups')
    {
      assert Performed(actions[i], d, cleanups);
    }
  }

  lemma PerformedMore(actions: seq<Action>, i: nat, d: set<FrameId>, cleanups: map<FrameId, seq<Callback>>)
    requires i < |actions| && AllPerformed(actions[..i], d, cleanups) && Performed(actions[i], d, cleanups)
    ensures AllPerformed(actions[..i + 1], d, cleanups)
  {
    var more := actions[..i + 1];
    forall j | 0 <= j < |more|
      ensures Performed(more[j], d, cleanups)
    {
      assert j < i ==> more[j] == actions[..i][j];
    }
  }

  /** The ids of the cleanups the actions register. */
  ghost function RegisterIds(actions: seq<Action>): multiset<nat> {
    if actions == [] then multiset{}
    else RegisterIds(Init(actions)) + if Last(actions).Register? then multiset{Last(actions).callback.id} else multiset{}
  }

  lemma RegisterIdsMore(actions: seq<Action>, i: nat)
    requires i < |actions|
    ensures RegisterIds(actions[..i + 1]) ==
              RegisterIds(actions[..i]) + if actions[i].Register? then multiset{actions[i].callback.id} else multiset{}
  {
    assert Init(actions[..i + 1]) == actions[..i];
  }

  lemma {:induction false} RegisteredAmong(actions: seq<Action>, j: nat)
    requires j < |actions| && actions[j].Register?
    ensures actions[j].callback.id in RegisterIds(actions)
    decreases |actions|
  {
    if j < |actions| - 1 {
      RegisteredAmong(Init(actions), j);
    }
  }

  lemma NothingDone(c: Callback, d: set<FrameId>, cleanups: map<FrameId, seq<Callback>>)
    ensures AllPerformed(c.actions[..0], d, cleanups) && Patient(cleanups, cleanups, d)
    ensures RegisterIds(c.actions[..0]) == multiset{} && Filed(cleanups, c.actions[..0]) == cleanups
  {
  }

  /** One more action of `c` was begun, and done if it did not unwind. */
  lemma ActDone(
    c: Callback, done: nat, d0: set<FrameId>, d: set<FrameId>, cleanups0: map<FrameId, seq<Callback>>, cleanups: map<FrameId, seq<Callback>>,
    d': set<FrameId>, cleanups': map<FrameId, seq<Callback>>)
    requires done < |c.actions| && AllPerformed(c.actions[..done], d, cleanups)
    requires Patient(cleanups0, cleanups, d) && Patient(cleanups, cleanups', d') && d <= d'
    ensures Patient(cleanups0, cleanups', d') && AllPerformed(c.actions[..done], d', cleanups')
    ensures Performed(c.actions[done], d', cleanups') ==> AllPerformed(c.actions[..done + 1], d', cleanups')
    ensures Plain(c, d0) && cleanups == Filed(cleanups0, c.actions[..done]) && c.actions[done].owner in cleanups
            && cleanups' == cleanups[c.actions[done].owner := cleanups[c.actions[done].owner] + [c.actions[done].callback]] ==>
              cleanups' == Filed(cleanups0, c.actions[..done + 1])
  {
    hide Performed;
    PatientTransitive(cleanups0, cleanups, cleanups', d, d');
    PerformedStays(c.actions[..done], d, cleanups, d', cleanups');
    if Performed(c.actions[done], d', cleanups') {
      PerformedMore(c.actions, done, d', cleanups');
    }
    FiledMore(cleanups0, c.actions, done);
  }

  lemma OneMoreWaits(cleanups: map<FrameId, seq<Callback>>, f: FrameId, c: Callback, d: set<FrameId>)
    requires f in cleanups
    ensures Patient(cleanups, cleanups[f := cleanups[f] + [c]], d)
  {
  }

  ghost predicate Harmless(c: Callback) { c.actions == [] && !c.panics }

  /** A registration that nothing before it can keep from being made. */
  ghost predicate Leading(actions: seq<Action>, j: nat)
    requires j < |actions|
  {
    && actions[j].Register?
    && forall k :: 0 <= k < j ==> actions[k].Register? && Harmless(actions[k].callback)
  }

  /** Whatever unwound, the leading registrations of `c` were made. */
  ghost predicate Sure(c: Callback, registered: multiset<nat>) {
    forall j :: 0 <= j < |c.actions| && Leading(c.actions, j) ==> c.actions[j].callback.id in registered
  }

  ghost predicate AllSure(cs: seq<Callback>, registered: multiset<nat>) {
    forall i :: 0 <= i < |cs| ==> Sure(cs[i], registered)
  }

  lemma SureLater(cs: seq<Callback>, registered: multiset<nat>, registered': multiset<nat>)
    requires AllSure(cs, registered) && registered <= registered'
    ensures AllSure(cs, registered')
  {
    forall i | 0 <= i < |cs|
      ensures Sure(cs[i], registered')
    {
      assert Sure(cs[i], registered);
    }
  }

  lemma SureMore(cs: seq<Callback>, i: nat, registered: multiset<nat>, registered': multiset<nat>)
    requires i < |cs| && AllSure(cs[i + 1..], registered) && registered <= registered' && Sure(cs[i], registered')
    ensures AllSure(cs[i..], registered')
  {
    SureLater(cs[i + 1..], registered, registered');
    forall j | 0 <= j < |cs[i..]|
      ensures Sure(cs[i..][j], registered')
    {
      assert j > 0 ==> cs[i..][j] == cs[i + 1..][j - 1];
    }
  }

  /** All actions done but for the one at `done`, which was begun and unwound, if it is not the end. */
  lemma SureDone(c: Callback, done: nat, registered: multiset<nat>)
    requires done <= |c.actions| && RegisterIds(c.actions[..done]) <= registered
    requires done < |c.actions| && c.actions[done].Register? ==>
               c.actions[done].callback.id in registered && !Harmless(c.actions[done].callback)
    ensures Sure(c, registered)
  {
    forall j | 0 <= j < |c.actions| && Leading(c.actions, j)
      ensures c.actions[j].callback.id in registered
    {
      if j < done {
        RegisteredAmong(c.actions[..done], j);
      } else {
        assert j == done;
      }
    }
  }

  /** A cleanup that only registers, and only with owners that are live. */
  ghost predicate Plain(c: Callback, disposed: set<FrameId>) {
    forall i :: 0 <= i < |c.actions| ==> c.actions[i].Register? && c.actions[i].owner !in disposed
  }

  ghost predicate AnyPanics(cs: seq<Callback>) { exists i :: 0 <= i < |cs| && cs[i].panics }

  lemma AnyPanicsMore(cs: seq<Callback>, i: nat)
    requires i < |cs|
    ensures AnyPanics(cs[i..]) ==> cs[i].panics || AnyPanics(cs[i + 1..])
  {
    if j :| 0 <= j < |cs[i..]| && cs[i..][j].panics {
      assert j > 0 ==> cs[i + 1..][j - 1] == cs[i..][j];
    }
  }

  lemma PlainAt(cs: seq<Callback>, i: nat, disposed: set<FrameId>)
    requires i < |cs|
    ensures AllPlain(cs, disposed) ==> Plain(cs[i], disposed)
  {
  }

  ghost predicate AllPlain(cs: seq<Callback>, disposed: set<FrameId>) { forall i :: 0 <= i < |cs| ==> Plain(cs[i], disposed) }

  /** The waiting cleanups once these registrations were made, in order. */
  ghost function Filed(cleanups: map<FrameId, seq<Callback>>, actions: seq<Action>): map<FrameId, seq<Callback>> {
    if actions == [] then cleanups
    else
      var m, a := Filed(cleanups, Init(actions)), Last(actions);
      if a.Register? && a.owner in m then m[a.owner := m[a.owner] + [a.callback]] else m
  }

  lemma FiledMore(cleanups: map<FrameId, seq<Callback>>, actions: seq<Action>, i: nat)
    requires i < |actions|
    ensures Filed(cleanups, actions[..i + 1]) ==
              var m, a := Filed(cleanups, actions[..i]), actions[i];
              if a.Register? && a.owner in m then m[a.owner := m[a.owner] + [a.callback]] else m
  {
    assert Init(actions[..i + 1]) == actions[..i];
  }

  ghost function FiledAll(cleanups: map<FrameId, seq<Callback>>, cs: seq<Callback>): map<FrameId, seq<Callback>>
    decreases |cs|
  {
    if cs == [] then cleanups else FiledAll(Filed(cleanups, cs[0].actions), cs[1..])
  }

  lemma {:induction false} NothingFiled(cleanups: map<FrameId, seq<Callback>>, cs: seq<Callback>)
    requires forall i :: 0 <= i < |cs| ==> cs[i].actions == []
    ensures FiledAll(cleanups, cs) == cleanups
    decreases |cs|
  {
    if cs != [] {
      assert cs[0].actions == [];
      NothingFiled(cleanups, cs[1..]);
    }
  }

  /** The first panic among those raised between two moments. */
  ghost function Raised(before: seq<nat>, after: seq<nat>): Option<nat> {
    if |before| < |after| then Some(after[|before|]) else None
  }

  /** What a call reports is the first panic raised inside it, and nothing if nothing panicked. A call made
      while the thread unwinds may have to keep it to itself. */
  ghost predicate Heard(unwinding: bool, panic: Option<nat>, before: seq<nat>, after: seq<nat>) {
    before <= after && (!unwinding ==> panic == Raised(before, after))
  }

  /** Nothing panicked, or the thread is unwinding anyway. */
  ghost predicate Silent(unwinding: bool, before: seq<nat>, after: seq<nat>) { Heard(unwinding, None, before, after) }

  lemma PanicsAtLast(unwinding: bool, id: nat, before: seq<nat>, after: seq<nat>)
    requires Silent(unwinding, before, after)
    ensures Heard(unwinding, Some(id), before, after + [id])
  {
  }

  lemma HeardNext(unwinding: bool, first: Option<nat>, one: Option<nat>, start: seq<nat>, sofar: seq<nat>, now: seq<nat>)
    requires Heard(unwinding, first, start, sofar) && Heard(unwinding, one, sofar, now)
    ensures Heard(unwinding, if first.Some? then first else one, start, now)
  {
  }

  /** From position `from` of the log the cleanups `cs[i..]` begin one after another, latest first: the
      latest at once, each of the others some time after the one that follows it in the list. */
  ghost predicate LatestFirst(cs: seq<Callback>, i: nat, from: nat, log: seq<nat>)
    requires i <= |cs|
    decreases |cs| - i
  {
    if i == |cs| then |log| == from
    else exists k :: from <= k < |log| && log[k] == cs[i].id && LatestFirst(cs, i + 1, from, log[..k])
  }

  lemma LatestFirstStep(cs: seq<Callback>, i: nat, from: nat, log: seq<nat>, log': seq<nat>)
    requires i < |cs| && from <= |log| && LatestFirst(cs, i + 1, from, log) && log + [cs[i].id] <= log'
    ensures LatestFirst(cs, i, from, log')
  {
    assert log'[..|log|] == log && log'[|log|] == cs[i].id;
  }

  lemma KeptQuiet(first: Option<nat>, unwinding: bool, before: seq<nat>, after: seq<nat>)
    requires Heard(unwinding, first, before, after)
    ensures Heard(unwinding, if unwinding then None else first, before, after)
  {
  }

  lemma NothingHeard(cs: seq<Callback>, unwinding: bool, panicked: seq<nat>, log: seq<nat>)
    ensures Heard(unwinding, None, panicked, panicked) && LatestFirst(cs, |cs|, |log|, log)
  {
  }

  /** The first thing a teardown does is run the frame's own cleanups, latest first. */
  ghost predicate CleanupsFirst(cs: seq<Callback>, before: seq<nat>, after: seq<nat>) {
    exists m :: |before| <= m <= |after| && LatestFirst(cs, 0, |before|, after[..m])
  }

  lemma ThenChildren(cs: seq<Callback>, before: seq<nat>, middle: seq<nat>, after: seq<nat>)
    requires before <= middle <= after && LatestFirst(cs, 0, |before|, middle)
    ensures CleanupsFirst(cs, before, after)
  {
    assert after[..|middle|] == middle;
  }

  /** The tables a teardown works on. */
  datatype Tables = Tables(children: map<FrameId, seq<FrameId>>, cleanups: map<FrameId, seq<Callback>>, disposed: set<FrameId>)

  /** What running the cleanups `cs` of a frame without children comes to, if all they do is register with live
      owners. */
  ghost predicate LeafRan(
    cs: seq<Callback>, unwinding: bool, panic: Option<nat>, disposed: set<FrameId>, before: Tables, now: Tables, ran: seq<nat>, ran': seq<nat>)
  {
    AllPlain(cs, disposed) ==>
      && ran' == ran + Ids(Reverse(cs)) && panic == (if unwinding then None else FirstPanic(Reverse(cs)))
      && now.children == before.children && now.cleanups == FiledAll(before.cleanups, Reverse(cs)) && now.disposed == disposed
  }

  ghost predicate Leaf(
    f: FrameId, unwinding: bool, panic: Option<nat>, disposed: set<FrameId>, before: Tables, now: Tables, ran: seq<nat>, ran': seq<nat>)
  {
    f in before.children && f in before.cleanups && before.children[f] == [] ==>
      LeafRan(before.cleanups[f], unwinding, panic, disposed, before.(cleanups := before.cleanups[f := []]), now, ran, ran')
  }

  lemma LeafSince(
    f: FrameId, unwinding: bool, panic: Option<nat>, disposed: set<FrameId>, before: Tables, before': Tables, now: Tables, ran: seq<nat>, ran': seq<nat>)
    requires Leaf(f, unwinding, panic, disposed, before, now, ran, ran') && before' == before.(disposed := before'.disposed)
    ensures Leaf(f, unwinding, panic, disposed, before', now, ran, ran')
  {
    hide Reverse, Ids, FirstPanic, FiledAll, AllPlain;
  }

  lemma LeafWhole(
    f: FrameId, unwinding: bool, panic: Option<nat>, disposed: set<FrameId>, before: Tables, taken: Tables, now: Tables, ran: seq<nat>, ran': seq<nat>)
    requires f in before.children && f in before.cleanups
    requires taken.children == before.children[f := []] && taken.cleanups == before.cleanups[f := []]
    requires before.children[f] == [] ==> LeafRan(before.cleanups[f], unwinding, panic, disposed, taken, now, ran, ran')
    ensures Leaf(f, unwinding, panic, disposed, before, now, ran, ran')
  {
    hide Reverse, Ids, FirstPanic, FiledAll, AllPlain;
    assert before.children[f] == [] ==> taken.children == before.children;
  }

  /** Cleanups with nothing to do are plain and file nothing. */
  lemma PlainFiled(cs: seq<Callback>, disposed: set<FrameId>, cleanups: map<FrameId, seq<Callback>>)
    requires forall i :: 0 <= i < |cs| ==> cs[i].actions == []
    ensures AllPlain(cs, disposed) && FiledAll(cleanups, Reverse(cs)) == cleanups
  {
    ReverseInert(cs);
    NothingFiled(cleanups, Reverse(cs));
  }

  lemma {:induction false} ReverseInert(cs: seq<Callback>)
    requires forall i :: 0 <= i < |cs| ==> cs[i].actions == []
    ensures forall i :: 0 <= i < |Reverse(cs)| ==> Reverse(cs)[i].actions == []
  {
    if cs != [] {
      ReverseInert(Init(cs));
    }
  }

  class Owners {
    var children: map<FrameId, seq<FrameId>>
    var cleanups: map<FrameId, seq<Callback>>
    var sweptAt: map<FrameId, nat>
    var disposed: set<FrameId>
    var liveOwners: nat
    var cleanupRegistrations: nat
    var ownedChildren: nat
    var cleanupsRegistered: nat
    var cleanupsRun: nat

    /** The cleanups run so far, those taken off a frame but not yet run, and all ever registered. */
    ghost var ran: seq<nat>
    /** The cleanups that panicked, in the order they did. */
    ghost var panicked: seq<nat>
    ghost var inFlight: multiset<nat>
    ghost var registered: multiset<nat>
    /** Per frame: children adopted, and children looked at by its sweeps. */
    ghost var adopted: map<FrameId, nat>
    ghost var scanned: map<FrameId, nat>
    /** Per frame, every child it was ever given; and the children taken by teardowns under way. */
    ghost var owned: map<FrameId, set<FrameId>>
    ghost var taken: multiset<FrameId>

    ghost function Now(): Tables
      reads `children, `cleanups, `disposed
    {
      Tables(children, cleanups, disposed)
    }

    ghost predicate Valid()
      reads this
    {
      ValidBut({})
    }

    /** Valid, but for the frames in `closing`: disposed, with lists that are about to be taken. */
    ghost predicate ValidBut(closing: set<FrameId>)
      reads this
    {
      && Shaped(children, cleanups, sweptAt, disposed, closing)
      && AllOwned(children)
      && AllKnown(cleanups, children.Keys)
      && AllSwept(children, sweptAt, adopted, scanned)
      && Kept(children, owned, disposed, taken)
      && Gauged()
    }

    /** The gauges equal the walk; every cleanup registered has run, is waiting, or is about to run. */
    ghost predicate Gauged()
      reads `children, `cleanups, `liveOwners, `cleanupRegistrations, `ownedChildren, `cleanupsRegistered, `cleanupsRun
      reads `ran, `inFlight, `registered
    {
      && liveOwners == |children|
      && cleanupRegistrations == Total(cleanups)
      && ownedChildren == Total(children)
      && cleanupsRegistered == cleanupsRun + cleanupRegistrations
      && Accounted(ran, inFlight, Pending(cleanups), registered)
    }

    constructor ()
      ensures Valid() && children == map[] && cleanups == map[] && disposed == {} && ran == [] && inFlight == multiset{} && registered == multiset{} && taken == multiset{}
    {
      children, cleanups, sweptAt, disposed := map[], map[], map[], {};
      liveOwners, cleanupRegistrations, ownedChildren := 0, 0, 0;
      cleanupsRegistered, cleanupsRun := 0, 0;
      ran, panicked, inFlight, registered := [], [], multiset{}, multiset{};
      adopted, scanned := map[], map[];
      owned, taken := map[], multiset{};
    }

    /** The cells of a new frame. */
    method AddRows(f: FrameId)
      requires Shaped(children, cleanups, sweptAt, disposed, {}) && AllOwned(children) && AllKnown(cleanups, children.Keys)
      requires AllSwept(children, sweptAt, adopted, scanned) && f !in children && Kept(children, owned, disposed, taken)
      modifies `children, `cleanups, `sweptAt, `adopted, `scanned, `owned
      ensures Shaped(children, cleanups, sweptAt, disposed, {}) && AllOwned(children) && AllKnown(cleanups, children.Keys)
      ensures AllSwept(children, sweptAt, adopted, scanned) && Kept(children, owned, disposed, taken)
      ensures children == old(children)[f := []] && cleanups == old(cleanups)[f := []]
      ensures Total(children) == Total(old(children)) && Total(cleanups) == Total(old(cleanups))
      ensures Pending(cleanups) == Pending(old(cleanups)) && |children| == |old(children)| + 1
    {
      hide Known, Total, Pending, Shaped, AllOwned, AllKnown, AllSwept, Kept;
      FrameAdded(children, cleanups, sweptAt, disposed, f);
      KeptMore(children, owned, disposed, taken, f);
      SweptAdded(children, sweptAt, adopted, scanned, f);
      children, cleanups, sweptAt := children[f := []], cleanups[f := []], sweptAt[f := 0];
      adopted, scanned := adopted[f := 0], scanned[f := 0];
      owned := owned[f := {}];
    }

    method NewFrame(f: FrameId)
      requires Valid() && f !in children
      modifies `children, `cleanups, `sweptAt, `liveOwners, `adopted, `scanned, `owned
      ensures Valid() && children == old(children)[f := []] && cleanups == old(cleanups)[f := []]
    {
      hide Known, Total, Pending, Shaped, AllOwned, AllKnown, AllSwept, Kept, Accounted;
      AddRows(f);
      liveOwners := liveOwners + 1;
    }

    /** A cleanup taken earlier starts running. */
    ghost method Start(c: Callback)
      requires Valid() && c.id in inFlight
      modifies `ran, `inFlight
      ensures Valid() && ran == old(ran) + [c.id] && inFlight == old(inFlight) - multiset{c.id}
    {
      hide Known, Total, Pending, Shaped, AllOwned, AllKnown, AllSwept, Kept, Accounted;
      AccountStarted(ran, inFlight, Pending(cleanups), registered, c.id);
      ran := ran + [c.id];
      inFlight := inFlight - multiset{c.id};
    }

    /** A cleanup panics of its own accord. */
    ghost method Throw(c: Callback)
      requires Valid() && c.panics
      modifies `panicked
      ensures Valid() && panicked == old(panicked) + [c.id]
    {
      hide Known, Total, Pending, Shaped, AllOwned, AllKnown, AllSwept, Kept, Accounted;
      panicked := panicked + [c.id];
    }

    /** Runs one cleanup that was taken off its frame: its actions in order, of which `done` did not unwind, and
        then its own panic if it has one. */
    method RunCallback(c: Callback, unwinding: bool) returns (panic: Option<nat>, ghost done: nat)
      requires Valid() && c.id in inFlight && Known(c, children.Keys)
      modifies this
      ensures Valid() && inFlight == old(inFlight) - multiset{c.id} && children.Keys == old(children.Keys)
      ensures old(disposed) <= disposed && old(ran) + [c.id] <= ran
      ensures done <= |c.actions| && AllPerformed(c.actions[..done], disposed, cleanups)
      ensures done < |c.actions| && c.actions[done].Dispose? ==> c.actions[done].owner in disposed
      ensures if done < |c.actions| then panic.Some? else panic == (if c.panics then Some(c.id) else None)
      ensures old(registered) + RegisterIds(c.actions[..done]) <= registered && Sure(c, registered)
      ensures Patient(old(cleanups), cleanups, disposed)
      ensures Plain(c, old(disposed)) ==>
                && done == |c.actions| && ran == old(ran) + [c.id] && disposed == old(disposed)
                && children == old(children) && cleanups == Filed(old(cleanups), c.actions)
      ensures taken == old(taken) && owned == old(owned) && old(registered) <= registered
      ensures Heard(unwinding, panic, old(panicked), panicked)
      decreases children.Keys - disposed, 1, c, 2
    {
      hide Total, Pending, Owners.Valid, AllPerformed, Performed, Patient, RegisterIds, Sure, Filed, Plain, Known, Heard;
      Start(c);
      ghost var panics := panicked;
      NothingHeard([], unwinding, panicked, ran);
      panic, done := RunActions(c, unwinding);
      if panic.Some? {
        return;
      }
      if c.panics {
        panic := Some(c.id);
        ghost var sofar := panicked;
        Throw(c);
        PanicsAtLast(unwinding, c.id, panics, sofar);
      }
    }

    /** The actions of a cleanup, until one unwinds. */
    method RunActions(c: Callback, unwinding: bool) returns (unwound: Option<nat>, ghost done: nat)
      requires Valid() && Known(c, children.Keys)
      modifies this
      ensures Valid() && inFlight == old(inFlight) && children.Keys == old(children.Keys)
      ensures old(disposed) <= disposed && old(ran) <= ran
      ensures done <= |c.actions| && AllPerformed(c.actions[..done], disposed, cleanups) && (unwound.Some? <==> done < |c.actions|)
      ensures done < |c.actions| && c.actions[done].Dispose? ==> c.actions[done].owner in disposed
      ensures old(registered) + RegisterIds(c.actions[..done]) <= registered && Sure(c, registered)
      ensures Patient(old(cleanups), cleanups, disposed)
      ensures Plain(c, old(disposed)) ==>
                && done == |c.actions| && ran == old(ran) && disposed == old(disposed)
                && children == old(children) && cleanups == Filed(old(cleanups), c.actions)
      ensures taken == old(taken) && owned == old(owned) && old(registered) <= registered
      ensures Heard(unwinding, unwound, old(panicked), panicked) && (unwound.None? ==> Silent(unwinding, old(panicked), panicked))
      decreases children.Keys - disposed, 1, c, 1
    {
      hide Total, Pending, Owners.Valid, AllPerformed, Performed, Patient, RegisterIds, Sure, Filed, Harmless, Leading, KnownAction;
      var i := 0;
      done := 0;
      NothingDone(c, disposed, cleanups);
      while i < |c.actions|
        invariant 0 <= i <= |c.actions| && done == i
        invariant Valid() && inFlight == old(inFlight) && children.Keys == old(children.Keys)
        invariant old(disposed) <= disposed && old(ran) <= ran && taken == old(taken) && owned == old(owned) && old(registered) <= registered
        invariant Silent(unwinding, old(panicked), panicked)
        invariant AllPerformed(c.actions[..i], disposed, cleanups) && Patient(old(cleanups), cleanups, disposed)
        invariant old(registered) + RegisterIds(c.actions[..i]) <= registered
        invariant Plain(c, old(disposed)) ==>
                    && ran == old(ran) && disposed == old(disposed) && children == old(children)
                    && cleanups == Filed(old(cleanups), c.actions[..i])
      {
        ghost var gone, waiting := disposed, cleanups;
        unwound := Act(c.actions[i], unwinding, c);
        ActDone(c, i, old(disposed), gone, old(cleanups), waiting, disposed, cleanups);
        if unwound.Some? {
          SureDone(c, i, registered);
          return;
        }
        RegisterIdsMore(c.actions, i);
        i := i + 1;
        done := i;
      }
      assert c.actions[..i] == c.actions;
      SureDone(c, i, registered);
      unwound := None;
    }

    /** One action of the cleanup `c`. */
    method Act(a: Action, unwinding: bool, ghost c: Callback) returns (panic: Option<nat>)
      requires Valid() && a in c.actions && KnownAction(a, children.Keys)
      modifies this
      ensures Valid() && inFlight == old(inFlight) && children.Keys == old(children.Keys) && old(disposed) <= disposed && old(ran) <= ran
      ensures panic.None? ==> Performed(a, disposed, cleanups)
      ensures a.Dispose? ==> a.owner in disposed
      ensures old(registered) + (if a.Register? then multiset{a.callback.id} else multiset{}) <= registered
      ensures a.Register? && Harmless(a.callback) ==> panic.None?
      ensures Patient(old(cleanups), cleanups, disposed)
      ensures a.Register? && a.owner !in old(disposed) ==>
                && panic.None? && ran == old(ran) && disposed == old(disposed) && children == old(children)
                && a.owner in old(cleanups) && cleanups == old(cleanups)[a.owner := old(cleanups)[a.owner] + [a.callback]]
      ensures taken == old(taken) && owned == old(owned)
      ensures Heard(unwinding, panic, old(panicked), panicked)
      decreases children.Keys - disposed, 1, c, 0
    {
      hide Total, Pending, Owners.Valid, Known, Patient, Heard;
      match a {
        case Register(f, inner) =>
          panic := AddCleanup(f, inner, unwinding);
        case Dispose(f) =>
          panic := DisposeFrame(f, unwinding, None);
      }
    }

    /** Registers a cleanup. On a disposed owner it runs at once and is never pending. */
    method AddCleanup(f: FrameId, c: Callback, unwinding: bool) returns (panic: Option<nat>)
      requires Valid() && f in children && Known(c, children.Keys)
      modifies this
      ensures Valid() && inFlight == old(inFlight) && children.Keys == old(children.Keys) && old(disposed) <= disposed
      ensures old(ran) <= ran
      ensures f !in old(disposed) ==> panic == None && ran == old(ran) && disposed == old(disposed) && children == old(children)
      ensures f !in old(disposed) ==> f in old(cleanups) && cleanups == old(cleanups)[f := old(cleanups)[f] + [c]]
      ensures f in old(disposed) ==> old(ran) + [c.id] <= ran && Sure(c, registered) && (c.panics ==> panic.Some?)
      ensures old(registered) + multiset{c.id} <= registered
      ensures Harmless(c) ==> panic == None
      ensures Patient(old(cleanups), cleanups, disposed)
      ensures taken == old(taken) && owned == old(owned) && old(registered) <= registered
      ensures Heard(unwinding, panic, old(panicked), panicked)
      decreases children.Keys - disposed, 1, c, 3
    {
      hide Total, Pending, Owners.Valid, Known, Patient, AllPerformed, RegisterIds, Sure, Filed;
      if f in disposed {
        RegisterNow(c);
        ghost var done;
        panic, done := RunCallback(c, unwinding);
      } else {
        Push(f, c);
        OneMoreWaits(old(cleanups), f, c, disposed);
        panic := None;
      }
    }

    ghost method Enlist(c: Callback)
      requires Valid()
      modifies `registered, `inFlight
      ensures Valid() && inFlight == old(inFlight) + multiset{c.id} && registered == old(registered) + multiset{c.id}
    {
      hide Known, Total, Pending, Shaped, AllOwned, AllKnown, AllSwept, Kept, Accounted;
      AccountRegistered(ran, inFlight, Pending(cleanups), registered, c.id);
      registered := registered + multiset{c.id};
      inFlight := inFlight + multiset{c.id};
    }

    /** A cleanup registered with a disposed owner: counted in and out, and about to run. */
    method RegisterNow(c: Callback)
      requires Valid()
      modifies `cleanupsRegistered, `cleanupsRun, `registered, `inFlight
      ensures Valid() && inFlight == old(inFlight) + multiset{c.id} && registered == old(registered) + multiset{c.id}
    {
      hide Total, Pending, Shaped, AllOwned, AllKnown, AllSwept, Kept, Accounted, Known, Ids;
      Enlist(c);
      cleanupsRegistered, cleanupsRun := cleanupsRegistered + 1, cleanupsRun + 1;
    }

    method Push(f: FrameId, c: Callback)
      requires Valid() && f in children && f !in disposed && Known(c, children.Keys)
      modifies `cleanups, `cleanupRegistrations, `cleanupsRegistered, `registered
      ensures Valid() && f in old(cleanups) && cleanups == old(cleanups)[f := old(cleanups)[f] + [c]]
      ensures registered == old(registered) + multiset{c.id}
    {
      hide Total, Pending, Shaped, AllOwned, AllKnown, AllSwept, Kept, Known, Accounted;
      AccountRegistered(ran, inFlight, Pending(cleanups), registered, c.id);
      CleanupPushed(children, cleanups, sweptAt, disposed, f, c);
      cleanups := cleanups[f := cleanups[f] + [c]];
      CountPush(c);
    }

    /** One more cleanup is waiting. */
    method CountPush(c: Callback)
      modifies `cleanupRegistrations, `cleanupsRegistered, `registered
      ensures cleanupRegistrations == old(cleanupRegistrations) + 1 && cleanupsRegistered == old(cleanupsRegistered) + 1
      ensures registered == old(registered) + multiset{c.id}
    {
      cleanupRegistrations, cleanupsRegistered := cleanupRegistrations + 1, cleanupsRegistered + 1;
      registered := registered + multiset{c.id};
    }

    /** Disposes a frame, once. `tree` says what the tables hold below it, when that is of interest. */
    method DisposeFrame(f: FrameId, unwinding: bool, ghost tree: Option<Tree>) returns (panic: Option<nat>)
      requires Valid() && f in children
      requires tree.Some? ==> Intact(tree.value) && tree.value.frame == f
      modifies this
      ensures Valid() && inFlight == old(inFlight) && children.Keys == old(children.Keys) && old(disposed) <= disposed && f in disposed
      ensures old(ran) <= ran
      ensures tree.Some? ==>
                && ran == old(ran) + Ids(Calls(tree.value))
                && panic == (if unwinding then None else FirstPanic(Calls(tree.value)))
                && OnlyTorn(old(children), old(cleanups), old(disposed), children, cleanups, disposed, Frames(tree.value))
                && Frames(tree.value) <= disposed
      ensures taken == old(taken) && owned == old(owned) && old(registered) <= registered
      ensures Heard(unwinding, panic, old(panicked), panicked)
      ensures unwinding ==> panic == None
      ensures Patient(old(cleanups), cleanups, disposed)
      ensures f !in old(disposed) ==>
                && f in old(cleanups) && CleanupsFirst(old(cleanups)[f], old(ran), ran) && AllSure(old(cleanups)[f], registered)
                && (!unwinding && AnyPanics(old(cleanups)[f]) ==> panic.Some?)
                && Leaf(f, unwinding, panic, old(disposed) + {f}, old(Now()), Now(), old(ran), ran)
      ensures AllTorn(old(children), children, cleanups, disposed, taken, f)
      ensures old(taken) == multiset{} ==> forall g :: Within(old(children), f, g) ==> g in disposed && Emptied(children, cleanups, g)
      decreases children.Keys - disposed, 0
    {
      hide Total, Pending, Shaped, AllOwned, AllKnown, AllSwept, Kept, Gauged, Known, Ids, FirstPanic, Calls, Frames, FramesAll, OnlyTorn;
      hide Holds, Distinct, Inert, AllTorn, Within, Emptied, Remembered, CleanupsFirst, Patient, AllSure, Leaf;
      OwnedBefore(children, owned, disposed, taken);
      if f in disposed {
        if tree.Some? {
          DisposedIsEmpty(children, cleanups, sweptAt, disposed, tree.value);
          assert ran + [] == ran;
        }
        TornAtTop(children, children, cleanups, disposed, f);
        PatientNow(cleanups, disposed);
        DisposedReachesAll(children, children, cleanups, sweptAt, owned, disposed, taken, f);
        return None;
      }
      ClosingShaped(children, cleanups, sweptAt, disposed, f);
      KeptDisposed(children, owned, disposed, taken, {f});
      disposed := disposed + {f};
      ghost var before := Now();
      panic := Reset(f, unwinding, tree);
      EmptiedIsPatient(old(cleanups), cleanups, f, disposed);
      LeafSince(f, unwinding, panic, old(disposed) + {f}, before, old(Now()), Now(), old(ran), ran);
      TornAtTop(old(children), children, cleanups, disposed, f);
      DisposedReachesAll(old(children), children, cleanups, sweptAt, owned, disposed, taken, f);
      if tree.Some? {
        RootTorn(old(children), old(cleanups), old(disposed), children, cleanups, disposed, tree.value);
      }
    }

    /** Between taking the lists off a frame and counting them. */
    ghost predicate Uncounted(cs: seq<Callback>, ks: seq<FrameId>)
      reads this
    {
      && liveOwners == |children| && cleanupRegistrations == Total(cleanups) + |cs| && ownedChildren == Total(children) + |ks|
      && cleanupsRegistered == cleanupsRun + cleanupRegistrations
      && Accounted(ran, inFlight, Pending(cleanups) + multiset(Ids(cs)), registered)
    }

    method TakeLists(f: FrameId) returns (cs: seq<Callback>, ks: seq<FrameId>)
      requires Shaped(children, cleanups, sweptAt, disposed, {f}) && AllOwned(children) && AllKnown(cleanups, children.Keys)
      requires Gauged() && AllSwept(children, sweptAt, adopted, scanned) && f in children && f in cleanups
      requires Kept(children, owned, disposed, taken)
      modifies `cleanups, `children, `sweptAt, `taken
      ensures cs == old(cleanups)[f] && ks == old(children)[f]
      ensures cleanups == old(cleanups)[f := []] && children == old(children)[f := []] && children.Keys == old(children.Keys)
      ensures (forall i :: 0 <= i < |cs| ==> Known(cs[i], children.Keys)) && forall i :: 0 <= i < |ks| ==> ks[i] in children
      ensures Shaped(children, cleanups, sweptAt, disposed, {}) && AllOwned(children) && AllKnown(cleanups, children.Keys)
      ensures Kept(children, owned, disposed, taken) && taken == old(taken) + multiset(ks)
      ensures AllSwept(children, sweptAt, adopted, scanned) && Uncounted(cs, ks)
    {
      hide Total, Pending, Shaped, AllOwned, AllKnown, AllSwept, Kept, Known, Ids, Accounted;
      SweptTaken(children, sweptAt, adopted, scanned, f);
      KeptTaken(children, owned, disposed, taken, f);
      ListsTaken(children, cleanups, sweptAt, disposed, f);
      cs, ks := cleanups[f], children[f];
      taken := taken + multiset(ks);
      cleanups, children, sweptAt := cleanups[f := []], children[f := []], sweptAt[f := 0];
    }

    method CountTaken(cs: seq<Callback>, ks: seq<FrameId>)
      requires Uncounted(cs, ks)
      modifies `cleanupRegistrations, `cleanupsRun, `ownedChildren, `inFlight
      ensures Gauged() && inFlight == old(inFlight) + multiset(Ids(cs))
    {
      hide Total, Pending, Ids, Accounted;
      AccountTaken(ran, inFlight, Pending(cleanups) + multiset(Ids(cs)), Pending(cleanups), registered, multiset(Ids(cs)));
      cleanupRegistrations := Saturating(cleanupRegistrations, |cs|);
      cleanupsRun := cleanupsRun + |cs|;
      ownedChildren := Saturating(ownedChildren, |ks|);
      inFlight := inFlight + multiset(Ids(cs));
    }

    /** Takes both lists off the frame before anything of them runs. */
    method Take(f: FrameId, ghost tree: Option<Tree>) returns (cs: seq<Callback>, ks: seq<FrameId>)
      requires ValidBut({f}) && f in children
      requires tree.Some? ==> Intact(tree.value) && tree.value.frame == f
      modifies `cleanups, `children, `sweptAt, `cleanupRegistrations, `cleanupsRun, `ownedChildren, `inFlight, `taken
      ensures Valid() && f in old(cleanups) && cs == old(cleanups)[f] && ks == old(children)[f]
      ensures cleanups == old(cleanups)[f := []] && children == old(children)[f := []] && children.Keys == old(children.Keys)
      ensures (forall i :: 0 <= i < |cs| ==> Known(cs[i], children.Keys)) && forall i :: 0 <= i < |ks| ==> ks[i] in children
      ensures tree.Some? ==>
                && cs == tree.value.cleanups && ks == Roots(tree.value.children) && IntactAll(tree.value.children)
                && forall i :: 0 <= i < |cs| ==> cs[i].actions == []
      ensures Remembered(old(children), owned)
      ensures taken == old(taken) + multiset(ks)
      ensures inFlight == old(inFlight) + multiset(Ids(cs))
    {
      hide Total, Pending, Known, Shaped, AllOwned, AllKnown, AllSwept, Kept, Gauged, Ids, Uncounted, Accounted;
      hide Holds, HoldsAll, Distinct, DistinctAll, Inert, InertAll, Roots, Remembered;
      OwnedBefore(children, owned, disposed, taken);
      SameKeys(children, cleanups, sweptAt, disposed, {f});
      if tree.Some? {
        TakenHolds(children, cleanups, tree.value);
      }
      cs, ks := TakeLists(f);
      CountTaken(cs, ks);
    }

    /** Runs the cleanups just taken, latest first, each whatever the others did. */
    method RunCleanups(cs: seq<Callback>, unwinding: bool) returns (first: Option<nat>)
      requires Valid() && multiset(Ids(cs)) <= inFlight && forall i :: 0 <= i < |cs| ==> Known(cs[i], children.Keys)
      modifies this
      ensures Valid() && inFlight == old(inFlight) - multiset(Ids(cs)) && children.Keys == old(children.Keys)
      ensures old(disposed) <= disposed && old(ran) <= ran
      ensures AllPlain(cs, old(disposed)) ==>
                && ran == old(ran) + Ids(Reverse(cs)) && first == FirstPanic(Reverse(cs))
                && children == old(children) && cleanups == FiledAll(old(cleanups), Reverse(cs)) && disposed == old(disposed)
      ensures AnyPanics(cs) ==> first.Some?
      ensures AllSure(cs, registered) && Patient(old(cleanups), cleanups, disposed)
      ensures taken == old(taken) && owned == old(owned) && old(registered) <= registered
      ensures Heard(unwinding, first, old(panicked), panicked) && LatestFirst(cs, 0, |old(ran)|, ran)
      decreases children.Keys - disposed, 2
    {
      hide Total, Pending, Owners.Valid, Known, RunSoFar, Reverse, FirstPanic, Ids, Heard, LatestFirst, FiledAll, Filed, Patient, Sure, AllSure, AllPerformed, RegisterIds, AllPlain, Plain, FiledSoFar, AnyPanics;
      first := None;
      var i := |cs|;
      ghost var others := inFlight - multiset(Ids(cs));
      RunStarts(cs, ran, others, inFlight);
      NothingHeard(cs, unwinding, panicked, ran);
      PatientNow(cleanups, disposed);
      FilingStarts(cs, cleanups, registered);
      while i > 0
        invariant 0 <= i <= |cs| && Valid() && children.Keys == old(children.Keys) && old(disposed) <= disposed && old(ran) <= ran
        invariant taken == old(taken) && owned == old(owned) && old(registered) <= registered
        invariant Heard(unwinding, first, old(panicked), panicked) && LatestFirst(cs, i, |old(ran)|, ran)
        invariant inFlight == others + multiset(Ids(cs[..i]))
        invariant AllPlain(cs, old(disposed)) ==>
                    && RunSoFar(cs, i, old(ran), ran, first) && FiledSoFar(cs, i, old(cleanups), cleanups)
                    && children == old(children) && disposed == old(disposed)
        invariant AnyPanics(cs[i..]) ==> first.Some?
        invariant AllSure(cs[i..], registered) && Patient(old(cleanups), cleanups, disposed)
      {
        i := i - 1;
        PlainAt(cs, i, old(disposed));
        RunStep(cs, i, old(ran), ran, first, others);
        ghost var sofar, panics, gone, waiting, known := ran, panicked, disposed, cleanups, registered;
        var one, done := RunCallback(cs[i], unwinding);
        PatientTransitive(old(cleanups), waiting, cleanups, gone, disposed);
        SureMore(cs, i, known, registered);
        AnyPanicsMore(cs, i);
        FilingStep(cs, i, old(cleanups), waiting);
        LatestFirstStep(cs, i, |old(ran)|, sofar, ran);
        HeardNext(unwinding, first, one, old(panicked), panics, panicked);
        first := if first.Some? then first else one;
      }
      RunEnds(cs, old(ran), ran, first, others);
      FilingEnds(cs, old(cleanups), cleanups);
    }

    /** Disposes one child that was taken off its owner. */
    method DisposeTaken(k: FrameId, unwinding: bool, ghost tree: Option<Tree>) returns (panic: Option<nat>)
      requires Valid() && k in children && k in taken
      requires tree.Some? ==> Intact(tree.value) && tree.value.frame == k
      modifies this
      ensures Valid() && inFlight == old(inFlight) && children.Keys == old(children.Keys) && old(disposed) <= disposed && k in disposed
      ensures old(ran) <= ran && taken == old(taken) - multiset{k} && owned == old(owned) && old(registered) <= registered
      ensures Heard(unwinding, panic, old(panicked), panicked)
      ensures unwinding ==> panic == None
      ensures Patient(old(cleanups), cleanups, disposed)
      ensures tree.Some? ==>
                && ran == old(ran) + Ids(Calls(tree.value))
                && panic == (if unwinding then None else FirstPanic(Calls(tree.value)))
                && OnlyTorn(old(children), old(cleanups), old(disposed), children, cleanups, disposed, Frames(tree.value))
                && Frames(tree.value) <= disposed
      decreases children.Keys - disposed, 1
    {
      hide Total, Pending, Shaped, AllOwned, AllKnown, AllSwept, Kept, Gauged, Known, Ids, FirstPanic, Calls, Frames, OnlyTorn, AllTorn, Intact, Heard, Patient, CleanupsFirst, AllSure, Leaf, Owners.Now;
      panic := DisposeFrame(k, unwinding, tree);
      KeptDone(children, owned, disposed, taken, k);
      taken := taken - multiset{k};
    }

    /** Disposes the children just taken, latest first. */
    method DisposeChildren(ks: seq<FrameId>, unwinding: bool, ghost trees: Option<seq<Tree>>, ghost others: multiset<FrameId>) returns (first: Option<nat>)
      requires Valid() && forall i :: 0 <= i < |ks| ==> ks[i] in children
      requires trees.Some? ==> ks == Roots(trees.value) && IntactAll(trees.value)
      requires taken == others + multiset(ks)
      modifies this
      ensures Valid() && inFlight == old(inFlight) && children.Keys == old(children.Keys)
      ensures old(disposed) <= disposed && old(ran) <= ran && forall i :: 0 <= i < |ks| ==> ks[i] in disposed
      ensures trees.Some? ==>
                && ran == old(ran) + Ids(CallsAll(trees.value))
                && (!unwinding ==> first == FirstPanic(CallsAll(trees.value)))
                && OnlyTorn(old(children), old(cleanups), old(disposed), children, cleanups, disposed, FramesAll(trees.value))
                && FramesAll(trees.value) <= disposed
      ensures taken == others && owned == old(owned) && old(registered) <= registered
      ensures Heard(unwinding, first, old(panicked), panicked)
      ensures Patient(old(cleanups), cleanups, disposed)
      ensures ks == [] ==> first == None && Now() == old(Now()) && ran == old(ran)
      decreases children.Keys - disposed, 2
    {
      hide Total, Pending, Owners.Valid, Known, AllTorn, FirstPanic, Ids, Calls, CallsAll, Frames, FramesAll;
      hide OnlyTorn, TearingAny, HoldsAll, DistinctAll, InertAll, Holds, Distinct, Inert, Roots, Heard, Patient, GoneFrom;
      first := None;
      var i := |ks|;
      ghost var start := Now();
      NoneGone(ks, disposed);
      TearingAnyStarts(trees, ks, start, ran, unwinding);
      NothingHeard([], unwinding, panicked, ran);
      PatientNow(cleanups, disposed);
      while i > 0
        invariant 0 <= i <= |ks| && Valid() && inFlight == old(inFlight) && children.Keys == old(children.Keys)
        invariant old(disposed) <= disposed && old(ran) <= ran && GoneFrom(ks, i, disposed)
        invariant taken == others + multiset(ks[..i]) && owned == old(owned) && old(registered) <= registered
        invariant Heard(unwinding, first, old(panicked), panicked) && Patient(old(cleanups), cleanups, disposed)
        invariant i == |ks| ==> first == None && Now() == start && ran == old(ran)
        invariant TearingAny(trees, i, start, Now(), old(ran), ran, first, unwinding)
      {
        i := i - 1;
        ghost var before, sofar, tree := Now(), ran, if trees.Some? then Some(trees.value[i]) else None;
        TearingAnyNext(trees, ks, i, start, before, old(ran), ran, first, unwinding);
        TakenStep(ks, i, others);
        ghost var panics, gone, waiting := panicked, disposed, cleanups;
        var one := DisposeTaken(ks[i], unwinding, tree);
        OneGone(ks, i, gone, disposed);
        TearingAnyStep(trees, i, start, before, Now(), old(ran), sofar, ran, first, one, unwinding);
        PatientTransitive(old(cleanups), waiting, cleanups, gone, disposed);
        HeardNext(unwinding, first, one, old(panicked), panics, panicked);
        first := if first.Some? then first else one;
      }
      AllGone(ks, disposed);
      TearingAnyEnds(trees, start, Now(), old(ran), ran, first, unwinding);
    }

    /** Drops children that were disposed by some other route, once the list has doubled since the last
        sweep. */
    method ReleaseDisposedChildren(f: FrameId)
      requires Valid() && f in children && f !in disposed && f in scanned && f in sweptAt
      modifies `children, `sweptAt, `ownedChildren, `scanned
      ensures Valid() && children.Keys == old(children.Keys) && f in sweptAt
      ensures forall g :: g in children && g != f ==> children[g] == old(children)[g]
      ensures if |old(children)[f]| < SWEEP_FLOOR || |old(children)[f]| < 2 * old(sweptAt)[f] then children == old(children) && sweptAt == old(sweptAt)
              else children[f] == Survivors(old(children)[f], disposed) && sweptAt[f] == |children[f]|
      ensures |children[f]| < SWEEP_FLOOR || |children[f]| < 2 * sweptAt[f] || |children[f]| == sweptAt[f]
    {
      hide Known, Total, Pending, Shaped, AllOwned, AllKnown, AllSwept, Kept, Accounted, Survivors, Gauged;
      SameKeys(children, cleanups, sweptAt, disposed, {});
      var list := children[f];
      if |list| < SWEEP_FLOOR || |list| < 2 * sweptAt[f] {
        return;
      }
      var kept := Live(list);
      ReplaceChildren(f, kept);
    }

    method ReplaceChildren(f: FrameId, kept: seq<FrameId>)
      requires Valid() && f in children && f !in disposed && f in scanned && f in sweptAt
      requires SWEEP_FLOOR <= |children[f]| && 2 * sweptAt[f] <= |children[f]| && kept == Survivors(children[f], disposed)
      modifies `children, `sweptAt, `ownedChildren, `scanned
      ensures Valid() && children == old(children)[f := kept] && sweptAt == old(sweptAt)[f := |kept|]
    {
      hide Known, Total, Pending, Shaped, AllOwned, AllKnown, AllSwept, Kept, Accounted, Survivors;
      KeptSwept(children, owned, disposed, taken, f, kept);
      ListSwept(children, cleanups, sweptAt, adopted, scanned, disposed, f, kept);
      ownedChildren := Saturating(ownedChildren, |children[f]| - |kept|);
      scanned := scanned[f := scanned[f] + |children[f]|];
      children, sweptAt := children[f := kept], sweptAt[f := |kept|];
    }

    method Live(list: seq<FrameId>) returns (kept: seq<FrameId>)
      ensures kept == Survivors(list, disposed) && |kept| <= |list|
    {
      kept := [];
      var i := 0;
      while i < |list|
        invariant 0 <= i <= |list| && kept == Survivors(list[..i], disposed) && |kept| <= i
      {
        assert list[..i + 1][..i] == list[..i];
        if list[i] !in disposed {
          kept := kept + [list[i]];
        }
        i := i + 1;
      }
      assert list[..i] == list;
    }

    /** Takes ownership of a child; a disposed owner disposes it on the spot. */
    method Adopt(f: FrameId, child: FrameId, unwinding: bool) returns (panic: Option<nat>)
      requires Valid() && f in children && child in children
      modifies this
      ensures Valid() && children.Keys == old(children.Keys) && inFlight == old(inFlight) && old(ran) <= ran
      ensures f in old(disposed) ==> child in disposed && AllTorn(old(children), children, cleanups, disposed, taken, child)
      ensures taken == old(taken)
      ensures Heard(unwinding, panic, old(panicked), panicked)
      ensures f !in old(disposed) ==> f in old(sweptAt)
      ensures f !in old(disposed) ==>
                && panic == None && ran == old(ran) && cleanups == old(cleanups) && disposed == old(disposed)
                && children[f] == (if |old(children)[f]| < SWEEP_FLOOR || |old(children)[f]| < 2 * old(sweptAt)[f] then old(children)[f] else Survivors(old(children)[f], disposed)) + [child]
                && (forall g :: g in children && g != f ==> children[g] == old(children)[g])
    {
      hide Known, Total, Pending, Shaped, AllOwned, AllKnown, AllSwept, Kept, Accounted, Survivors, Gauged, AllTorn, Heard;
      if f in disposed {
        panic := DisposeLate(f, child, unwinding);
        return;
      }
      ScansKept(children, sweptAt, adopted, scanned, f);
      ReleaseDisposedChildren(f);
      ScansKept(children, sweptAt, adopted, scanned, f);
      PushChild(f, child);
      panic := None;
      assert Heard(unwinding, panic, panicked, panicked) by {
        NothingHeard([], unwinding, panicked, ran);
      }
    }

    /** A child that comes too late. */
    method DisposeLate(f: FrameId, child: FrameId, unwinding: bool) returns (panic: Option<nat>)
      requires Valid() && f in children && child in children && f in disposed
      modifies this
      ensures Valid() && children.Keys == old(children.Keys) && inFlight == old(inFlight) && old(ran) <= ran && taken == old(taken)
      ensures child in disposed && AllTorn(old(children), children, cleanups, disposed, taken, child)
      ensures Heard(unwinding, panic, old(panicked), panicked)
    {
      hide Known, Total, Pending, Shaped, AllOwned, AllKnown, AllSwept, Kept, Gauged, AllTorn, Heard, CleanupsFirst;
      panic := DisposeFrame(child, unwinding, None);
      KeptPushed(children, owned, disposed, taken, f, child);
      owned := owned[f := owned[f] + {child}];
    }

    method PushChild(f: FrameId, child: FrameId)
      requires Valid() && f in children && child in children && f !in disposed && f in sweptAt && f in adopted
      requires |children[f]| < SWEEP_FLOOR || |children[f]| < 2 * sweptAt[f] || |children[f]| == sweptAt[f]
      modifies `children, `ownedChildren, `adopted, `owned
      ensures Valid() && children == old(children)[f := old(children)[f] + [child]]
    {
      hide Known, Total, Pending, Shaped, AllOwned, AllKnown, AllSwept, Kept, Accounted;
      KeptPushed(children, owned, disposed, taken, f, child);
      ChildPushed(children, cleanups, sweptAt, adopted, scanned, disposed, f, child);
      children := children[f := children[f] + [child]];
      owned := owned[f := owned[f] + {child}];
      CountChild(f);
    }

    /** One more child is owned. */
    method CountChild(f: FrameId)
      requires f in adopted
      modifies `ownedChildren, `adopted
      ensures ownedChildren == old(ownedChildren) + 1 && adopted == old(adopted)[f := old(adopted)[f] + 1]
    {
      adopted := adopted[f := adopted[f] + 1];
      ownedChildren := ownedChildren + 1;
    }

    ghost predicate Intact(t: Tree)
      reads this
    {
      Holds(children, cleanups, t) && Distinct(t) && Inert(t)
    }

    ghost predicate IntactAll(ts: seq<Tree>)
      reads this
    {
      HoldsAll(children, cleanups, ts) && DistinctAll(ts) && InertAll(ts)
    }

    /** What was just taken off a frame, cleanups before children, each latest first. */
    method RunTaken(cs: seq<Callback>, ks: seq<FrameId>, unwinding: bool, ghost tree: Option<Tree>, ghost others: multiset<FrameId>)
      returns (panic: Option<nat>)
      requires Valid() && multiset(Ids(cs)) <= inFlight && taken == others + multiset(ks)
      requires (forall i :: 0 <= i < |cs| ==> Known(cs[i], children.Keys)) && forall i :: 0 <= i < |ks| ==> ks[i] in children
      requires tree.Some? ==>
                 && cs == tree.value.cleanups && ks == Roots(tree.value.children) && IntactAll(tree.value.children)
                 && forall i :: 0 <= i < |cs| ==> cs[i].actions == []
      modifies this
      ensures Valid() && inFlight == old(inFlight) - multiset(Ids(cs)) && children.Keys == old(children.Keys)
      ensures old(disposed) <= disposed && old(ran) <= ran && forall i :: 0 <= i < |ks| ==> ks[i] in disposed
      ensures tree.Some? ==>
                && ran == old(ran) + Ids(Calls(tree.value))
                && panic == (if unwinding then None else FirstPanic(Calls(tree.value)))
                && OnlyTorn(old(children), old(cleanups), old(disposed), children, cleanups, disposed, FramesAll(tree.value.children))
                && FramesAll(tree.value.children) <= disposed
      ensures taken == others && owned == old(owned) && old(registered) <= registered
      ensures Heard(unwinding, panic, old(panicked), panicked) && CleanupsFirst(cs, old(ran), ran)
      ensures unwinding ==> panic == None
      ensures Patient(old(cleanups), cleanups, disposed)
      ensures AllSure(cs, registered) && (!unwinding && AnyPanics(cs) ==> panic.Some?)
      ensures ks == [] ==> LeafRan(cs, unwinding, panic, old(disposed), old(Now()), Now(), old(ran), ran)
      decreases children.Keys - disposed, 3
    {
      hide Total, Pending, Owners.Valid, Known, Ids, FirstPanic, Calls, CallsAll, FramesAll, Frames, Reverse;
      hide Holds, HoldsAll, Distinct, DistinctAll, Inert, InertAll, OnlyTorn, Heard, LatestFirst, CleanupsFirst, Patient, AllSure, FiledAll;
      ghost var trees := if tree.Some? then Some(tree.value.children) else None;
      var first := RunCleanups(cs, unwinding);
      ghost var middle, panics, gone, waiting, known := ran, panicked, disposed, cleanups, registered;
      if tree.Some? {
        PlainFiled(cs, old(disposed), old(cleanups));
      }
      var second := DisposeChildren(ks, unwinding, trees, others);
      ThenChildren(cs, old(ran), middle, ran);
      PatientTransitive(old(cleanups), waiting, cleanups, gone, disposed);
      SureLater(cs, known, registered);
      HeardNext(unwinding, first, second, old(panicked), panics, panicked);
      KeptQuiet(if first.Some? then first else second, unwinding, old(panicked), panicked);
      if tree.Some? {
        TornTogether(tree.value, old(ran), middle, ran, first, second, unwinding);
      }
      panic := if unwinding then None else if first.Some? then first else second;
    }

    /** Teardown: every cleanup and every child gets its turn, latest first, and the first panic is
        raised at the end, unless the thread is already unwinding. */
    method Reset(f: FrameId, unwinding: bool, ghost tree: Option<Tree>) returns (panic: Option<nat>)
      requires ValidBut({f}) && f in children
      requires tree.Some? ==> Intact(tree.value) && tree.value.frame == f
      modifies this
      ensures Valid() && inFlight == old(inFlight) && children.Keys == old(children.Keys) && old(disposed) <= disposed
      ensures old(ran) <= ran
      ensures tree.Some? ==>
                && ran == old(ran) + Ids(Calls(tree.value))
                && panic == (if unwinding then None else FirstPanic(Calls(tree.value)))
                && OnlyTorn(old(children), old(cleanups), old(disposed), children, cleanups, disposed, Frames(tree.value))
                && FramesAll(tree.value.children) <= disposed && (disposed - old(disposed) <= FramesAll(tree.value.children))
      ensures taken == old(taken) && owned == old(owned) && old(registered) <= registered
      ensures Heard(unwinding, panic, old(panicked), panicked)
      ensures f in old(cleanups) && CleanupsFirst(old(cleanups)[f], old(ran), ran) && AllSure(old(cleanups)[f], registered)
      ensures unwinding ==> panic == None
      ensures Patient(old(cleanups)[f := []], cleanups, disposed)
      ensures !unwinding && AnyPanics(old(cleanups)[f]) ==> panic.Some?
      ensures Leaf(f, unwinding, panic, old(disposed), old(Now()), Now(), old(ran), ran)
      ensures forall k :: k in old(children)[f] ==> AllTorn(old(children), children, cleanups, disposed, taken, k)
      decreases children.Keys - disposed, 4
    {
      hide Owners.Valid, Owners.ValidBut, Known, Ids, FirstPanic, Calls, CallsAll, FramesAll, Frames, Reverse, Roots;
      hide Holds, HoldsAll, Distinct, DistinctAll, Inert, InertAll, OnlyTorn, AllTorn, Remembered, Heard, CleanupsFirst, Patient, AllSure, LeafRan;
      var cs, ks := Take(f, tree);
      ghost var taken1, gone, kept := Now(), disposed, ran;
      panic := RunTaken(cs, ks, unwinding, tree, old(taken));
      if tree.Some? {
        SubtreesTorn(old(children), old(cleanups), old(disposed), children, cleanups, disposed, tree.value);
      }
      AllReached(ks, old(children));
      LeafWhole(f, unwinding, panic, gone, old(Now()), taken1, Now(), kept, ran);
    }

    /** Once the children taken off a frame are disposed, everything below them is. */
    lemma AllReached(ks: seq<FrameId>, before: map<FrameId, seq<FrameId>>)
      requires Valid() && Remembered(before, owned) && forall i :: 0 <= i < |ks| ==> ks[i] in disposed
      ensures forall k :: k in ks ==> AllTorn(before, children, cleanups, disposed, taken, k)
    {
      hide Shaped, AllOwned, AllKnown, AllSwept, Kept, Gauged, AllTorn, Remembered;
      ChildrenReached(ks, before, children, cleanups, sweptAt, owned, disposed, taken);
    }
  }

  /** Two owners side by side, `c` waiting on the first. */
  method SideBySide(f: FrameId, g: FrameId, c: Callback) returns (owners: Owners)
    requires f != g && |c.actions| == 1 && c.actions[0].Register? && c.actions[0].owner == g && c.actions[0].callback.actions == []
    ensures fresh(owners) && owners.Valid() && owners.disposed == {} && owners.ran == [] && owners.inFlight == multiset{} && owners.taken == multiset{}
    ensures owners.children == map[f := [], g := []] && owners.cleanups == map[f := [c], g := []]
  {
    hide Total, Pending, Owners.Valid, Known, Patient, Heard;
    owners := new Owners();
    owners.NewFrame(f);
    owners.NewFrame(g);
    OneKnown(c, owners.children.Keys);
    assert owners.cleanups[f] + [c] == [c];
    var _ := owners.AddCleanup(f, c, false);
  }

  /** A cleanup that registers one with another owner and then panics: that one waits there, and the panic comes
      out of the disposal. */
  method Filing() returns (owners: Owners, panic: Option<nat>)
    ensures fresh(owners) && owners.Valid() && panic == Some(1) && owners.ran == [1]
    ensures owners.disposed == {FrameId(0)} && FrameId(1) in owners.cleanups && owners.cleanups[FrameId(1)] == [Callback(2, [], false)]
  {
    hide Total, Pending, Owners.Valid, AllTorn, Known, Within, Patient, CleanupsFirst, AllSure, AllPlain, Heard, Reverse, Ids, FirstPanic, FiledAll;
    var f, g := FrameId(0), FrameId(1);
    var c := Callback(1, [Register(g, Callback(2, [], false))], true);
    owners := SideBySide(f, g, c);
    assert owners.cleanups[f] == [c] && owners.disposed + {f} == {f};
    OneFiled(c, f, g, owners.cleanups);
    panic := owners.DisposeFrame(f, false, None);
  }

  lemma OneKnown(c: Callback, frames: set<FrameId>)
    requires |c.actions| == 1 && c.actions[0].Register? && c.actions[0].owner in frames && c.actions[0].callback.actions == []
    ensures Known(c, frames)
  {
    assert KnownAction(c.actions[0], frames);
  }

  lemma OneReversed(c: Callback)
    ensures Reverse([c]) == [c] && Ids([c]) == [c.id] && FirstPanic([c]) == if c.panics then Some(c.id) else None
  {
    assert Init([c]) == [] && Reverse(Init([c])) == [];
  }

  lemma OneFiled(c: Callback, f: FrameId, g: FrameId, cleanups: map<FrameId, seq<Callback>>)
    requires f != g && f in cleanups && g in cleanups && cleanups[g] == [] && c == Callback(1, [Register(g, Callback(2, [], false))], true)
    ensures AllPlain([c], {f}) && Ids(Reverse([c])) == [1] && FirstPanic(Reverse([c])) == Some(1)
    ensures var m := FiledAll(cleanups[f := []], Reverse([c])); g in m && m[g] == [Callback(2, [], false)]
  {
    OneReversed(c);
    var m := cleanups[f := []];
    assert c.actions == [] + [c.actions[0]] && c.actions[..0] == [];
    FiledMore(m, c.actions, 0);
    assert c.actions[..1] == c.actions;
    assert FiledAll(m, [c]) == FiledAll(Filed(m, c.actions), [c][1..]);
  }

  /** An owner, its child and its grandchild. */
  method Line(f: FrameId, g: FrameId, h: FrameId) returns (owners: Owners)
    requires f != g && g != h && h != f
    ensures fresh(owners) && owners.Valid() && owners.children.Keys == {f, g, h}
    ensures owners.children[f] == [g] && owners.children[g] == [h] && owners.disposed == {} && owners.inFlight == multiset{} && owners.taken == multiset{}
    ensures owners.cleanups == map[f := [], g := [], h := []]
  {
    hide Total, Pending, Owners.Valid, Survivors, AllTorn;
    owners := new Owners();
    owners.NewFrame(f);
    owners.NewFrame(g);
    owners.NewFrame(h);
    var _ := owners.Adopt(f, g, false);
    var _ := owners.Adopt(g, h, false);
  }

  /** Registers one more cleanup with the owner being torn down and disposes the grandchild early. */
  function Early(f: FrameId, h: FrameId): Callback { Callback(2, [Register(f, Callback(1, [], false)), Dispose(h)], false) }

  /** The owner's cleanup will dispose the grandchild early and register one more cleanup with the owner
      being torn down. */
  method Laden(f: FrameId, g: FrameId, h: FrameId) returns (owners: Owners)
    requires f != g && g != h && h != f
    ensures fresh(owners) && owners.Valid() && owners.children.Keys == {f, g, h}
    ensures owners.children[f] == [g] && owners.children[g] == [h] && owners.inFlight == multiset{} && owners.taken == multiset{}
    ensures multiset{2, 3} <= owners.registered && owners.disposed == {} && f in owners.cleanups && owners.cleanups[f] == [Early(f, h)]
  {
    hide Total, Pending, Owners.Valid, AllTorn, Known, Within;
    owners := Line(f, g, h);
    FamilyKnown(f, h, owners.children.Keys);
    var _ := owners.AddCleanup(f, Early(f, h), false);
    var _ := owners.AddCleanup(h, Callback(3, [], true), false);
  }

  /** Whatever its cleanups do, a torn-down family is empty and every cleanup has run exactly once. */
  method Family() returns (owners: Owners)
    ensures fresh(owners) && owners.Valid()
    ensures owners.disposed == {FrameId(0), FrameId(1), FrameId(2)}
    ensures multiset{1, 2, 3} <= multiset(owners.ran) == owners.registered && owners.cleanupRegistrations == 0 && owners.ownedChildren == 0
  {
    hide Total, Pending, Shaped, AllOwned, AllKnown, AllSwept, Kept, AllTorn, Known, Within, Patient, CleanupsFirst, Leaf, AllSure;
    var f, g, h := FrameId(0), FrameId(1), FrameId(2);
    owners := Laden(f, g, h);
    LineWithin(owners.children, f, g, h);
    var _ := owners.DisposeFrame(f, false, None);
    LateIsSure(f, h, owners.registered);
    EmptyEverywhere(owners.children, owners.cleanups, owners.sweptAt, owners.disposed);
  }

  lemma LateIsSure(f: FrameId, h: FrameId, registered: multiset<nat>)
    requires AllSure([Early(f, h)], registered)
    ensures 1 in registered
  {
    var c := [Early(f, h)][0];
    assert Sure(c, registered) && Leading(c.actions, 0);
  }

  lemma LineWithin(children: map<FrameId, seq<FrameId>>, f: FrameId, g: FrameId, h: FrameId)
    requires f in children && children[f] == [g] && g in children && children[g] == [h]
    ensures Within(children, f, f) && Within(children, f, g) && Within(children, f, h)
  {
    assert Descent(children, [f], f, f) && Descent(children, [f, g], f, g) && Descent(children, [f, g, h], f, h);
  }

  lemma FamilyKnown(f: FrameId, h: FrameId, frames: set<FrameId>)
    requires f in frames && h in frames
    ensures Known(Callback(3, [], true), frames)
    ensures Known(Early(f, h), frames)
  {
    var c := Early(f, h);
    assert KnownAction(c.actions[0], frames) && KnownAction(c.actions[1], frames);
  }

  lemma EmptyEverywhere(
    children: map<FrameId, seq<FrameId>>, cleanups: map<FrameId, seq<Callback>>, sweptAt: map<FrameId, nat>, disposed: set<FrameId>)
    requires Shaped(children, cleanups, sweptAt, disposed, {})
    requires forall f :: f in children ==> f in disposed
    ensures disposed == children.Keys && Total(children) == 0 && Total(cleanups) == 0 && Pending(cleanups) == multiset{}
  {
    NothingIn(children);
    NothingIn(cleanups);
    NothingPending(cleanups);
  }

  lemma {:induction false} NothingIn<T>(m: map<FrameId, seq<T>>)
    requires forall f :: f in m ==> m[f] == []
    ensures Total(m) == 0
    decreases |m|
  {
    if m != map[] {
      var f :| f in m;
      TotalWithout(m, f);
      NothingIn(m - {f});
    }
  }

  lemma {:induction false} NothingPending(m: map<FrameId, seq<Callback>>)
    requires forall f :: f in m ==> m[f] == []
    ensures Pending(m) == multiset{}
    decreases |m|
  {
    if m != map[] {
      var f :| f in m;
      PendingWithout(m, f);
      NothingPending(m - {f});
    }
  }

  /** Of the subtrees `ts`, those from position `i` on have been torn down, the others are untouched. */
  ghost predicate Tearing(
    ts: seq<Tree>, i: nat, from: Tables, now: Tables, start: seq<nat>, ran: seq<nat>, first: Option<nat>, unwinding: bool)
    requires i <= |ts|
  {
    && HoldsAll(now.children, now.cleanups, ts[..i]) && DistinctAll(ts[..i]) && InertAll(ts[..i])
    && TornSoFar(ts, i, start, ran, first, unwinding)
    && OnlyTorn(from.children, from.cleanups, from.disposed, now.children, now.cleanups, now.disposed, FramesAll(ts))
    && FramesAll(ts) - FramesAll(ts[..i]) <= now.disposed && FramesAll(ts[..i]) <= FramesAll(ts)
  }

  lemma TearingStarts(ts: seq<Tree>, now: Tables, ran: seq<nat>, unwinding: bool)
    requires HoldsAll(now.children, now.cleanups, ts) && DistinctAll(ts) && InertAll(ts)
    ensures Tearing(ts, |ts|, now, now, ran, ran, None, unwinding)
  {
    hide TornSoFar, HoldsAll, DistinctAll, InertAll, FramesAll;
    TearStarts(ts, ran);
    assert ts[..|ts|] == ts;
  }

  lemma TearingNext(
    ts: seq<Tree>, i: nat, from: Tables, now: Tables, start: seq<nat>, ran: seq<nat>, first: Option<nat>, unwinding: bool)
    requires i < |ts| && Tearing(ts, i + 1, from, now, start, ran, first, unwinding)
    ensures Holds(now.children, now.cleanups, ts[i]) && Distinct(ts[i]) && Inert(ts[i])
  {
    CallsStep(ts, i);
    hide TornSoFar;
  }

  lemma TearingStep(
    ts: seq<Tree>, i: nat, from: Tables, before: Tables, now: Tables, start: seq<nat>, ran: seq<nat>, first: Option<nat>, unwinding: bool)
    requires i < |ts| && Tearing(ts, i + 1, from, before, start, ran, first, unwinding)
    requires OnlyTorn(before.children, before.cleanups, before.disposed, now.children, now.cleanups, now.disposed, Frames(ts[i]))
    requires Frames(ts[i]) <= now.disposed
    ensures Tearing(ts, i, from, now, start, ran + Ids(Calls(ts[i])),
              Earliest(first, if unwinding then None else FirstPanic(Calls(ts[i]))), unwinding)
  {
    CallsStep(ts, i);
    TearStep(ts, i, start, ran, first, unwinding);
    hide FramesAll, Frames, TornSoFar;
    HoldsElsewhere(before.children, before.cleanups, now.children, now.cleanups, ts[..i]);
  }

  lemma TearingEnds(
    ts: seq<Tree>, from: Tables, now: Tables, start: seq<nat>, ran: seq<nat>, first: Option<nat>, unwinding: bool)
    requires Tearing(ts, 0, from, now, start, ran, first, unwinding)
    ensures ran == start + Ids(CallsAll(ts)) && (!unwinding ==> first == FirstPanic(CallsAll(ts)))
    ensures OnlyTorn(from.children, from.cleanups, from.disposed, now.children, now.cleanups, now.disposed, FramesAll(ts))
    ensures FramesAll(ts) <= now.disposed
  {
    TearEnds(ts, start, ran, first, unwinding);
  }

  /** The same where the subtrees are of interest. */
  ghost predicate TearingAny(
    trees: Option<seq<Tree>>, i: nat, from: Tables, now: Tables, start: seq<nat>, ran: seq<nat>, first: Option<nat>, unwinding: bool)
  {
    trees.Some? ==> i <= |trees.value| && Tearing(trees.value, i, from, now, start, ran, first, unwinding)
  }

  lemma TearingAnyStarts(trees: Option<seq<Tree>>, ks: seq<FrameId>, now: Tables, ran: seq<nat>, unwinding: bool)
    requires trees.Some? ==> ks == Roots(trees.value)
    requires trees.Some? ==> HoldsAll(now.children, now.cleanups, trees.value) && DistinctAll(trees.value) && InertAll(trees.value)
    ensures TearingAny(trees, |ks|, now, now, ran, ran, None, unwinding)
  {
    if trees.Some? {
      TearingStarts(trees.value, now, ran, unwinding);
    }
  }

  lemma TearingAnyNext(
    trees: Option<seq<Tree>>, ks: seq<FrameId>, i: nat, from: Tables, now: Tables, start: seq<nat>, ran: seq<nat>, first: Option<nat>, unwinding: bool)
    requires i < |ks| && (trees.Some? ==> ks == Roots(trees.value)) && TearingAny(trees, i + 1, from, now, start, ran, first, unwinding)
    ensures trees.Some? ==>
              && i < |trees.value| && trees.value[i].frame == ks[i]
              && Holds(now.children, now.cleanups, trees.value[i]) && Distinct(trees.value[i]) && Inert(trees.value[i])
  {
    if trees.Some? {
      TearingNext(trees.value, i, from, now, start, ran, first, unwinding);
    }
  }

  lemma TearingAnyStep(
    trees: Option<seq<Tree>>, i: nat, from: Tables, before: Tables, now: Tables, start: seq<nat>, ran: seq<nat>,
    ran': seq<nat>, first: Option<nat>, one: Option<nat>, unwinding: bool)
    requires TearingAny(trees, i + 1, from, before, start, ran, first, unwinding)
    requires trees.Some? ==>
               && i < |trees.value|
               && ran' == ran + Ids(Calls(trees.value[i]))
               && one == (if unwinding then None else FirstPanic(Calls(trees.value[i])))
               && OnlyTorn(before.children, before.cleanups, before.disposed, now.children, now.cleanups, now.disposed, Frames(trees.value[i]))
               && Frames(trees.value[i]) <= now.disposed
    ensures TearingAny(trees, i, from, now, start, ran', if first.Some? then first else one, unwinding)
  {
    if trees.Some? {
      TearingStep(trees.value, i, from, before, now, start, ran, first, unwinding);
    }
  }

  lemma TearingAnyEnds(
    trees: Option<seq<Tree>>, from: Tables, now: Tables, start: seq<nat>, ran: seq<nat>, first: Option<nat>, unwinding: bool)
    requires TearingAny(trees, 0, from, now, start, ran, first, unwinding)
    ensures trees.Some? ==>
              && ran == start + Ids(CallsAll(trees.value))
              && (!unwinding ==> first == FirstPanic(CallsAll(trees.value)))
              && OnlyTorn(from.children, from.cleanups, from.disposed, now.children, now.cleanups, now.disposed, FramesAll(trees.value))
              && FramesAll(trees.value) <= now.disposed
  {
    if trees.Some? {
      TearingEnds(trees.value, from, now, start, ran, first, unwinding);
    }
  }

  lemma TakenStep(ks: seq<FrameId>, i: nat, others: multiset<FrameId>)
    requires i < |ks|
    ensures ks[i] in others + multiset(ks[..i + 1]) && others + multiset(ks[..i + 1]) - multiset{ks[i]} == others + multiset(ks[..i])
  {
    assert ks[..i + 1] == ks[..i] + [ks[i]];
  }

  /** The children from position `i` on are disposed. */
  ghost predicate GoneFrom(ks: seq<FrameId>, i: nat, disposed: set<FrameId>) { forall j :: i <= j < |ks| ==> ks[j] in disposed }

  lemma NoneGone(ks: seq<FrameId>, disposed: set<FrameId>)
    ensures GoneFrom(ks, |ks|, disposed) && ks[..|ks|] == ks
  {
  }

  lemma OneGone(ks: seq<FrameId>, i: nat, d: set<FrameId>, d': set<FrameId>)
    requires i < |ks| && GoneFrom(ks, i + 1, d) && d <= d' && ks[i] in d'
    ensures GoneFrom(ks, i, d')
  {
  }

  lemma AllGone(ks: seq<FrameId>, disposed: set<FrameId>)
    requires GoneFrom(ks, 0, disposed)
    ensures forall i :: 0 <= i < |ks| ==> ks[i] in disposed
  {
  }

  /** Taking the lists of the root leaves the subtrees where they are. */
  lemma TakenHolds(children: map<FrameId, seq<FrameId>>, cleanups: map<FrameId, seq<Callback>>, t: Tree)
    requires Holds(children, cleanups, t) && Distinct(t) && Inert(t)
    ensures HoldsAll(children[t.frame := []], cleanups[t.frame := []], t.children) && DistinctAll(t.children) && InertAll(t.children)
    ensures children[t.frame] == Roots(t.children) && cleanups[t.frame] == t.cleanups
    ensures forall i :: 0 <= i < |t.cleanups| ==> t.cleanups[i].actions == []
    ensures Frames(t) == {t.frame} + FramesAll(t.children)
  {
    HoldsElsewhere(children, cleanups, children[t.frame := []], cleanups[t.frame := []], t.children);
  }

  lemma TornTogether(t: Tree, start: seq<nat>, middle: seq<nat>, end: seq<nat>, first: Option<nat>, second: Option<nat>, unwinding: bool)
    requires middle == start + Ids(Reverse(t.cleanups)) && end == middle + Ids(CallsAll(t.children))
    requires first == FirstPanic(Reverse(t.cleanups)) && (!unwinding ==> second == FirstPanic(CallsAll(t.children)))
    ensures end == start + Ids(Calls(t)) && (!unwinding ==> Earliest(first, second) == FirstPanic(Calls(t)))
  {
    FirstPanicConcat(Reverse(t.cleanups), CallsAll(t.children));
    IdsConcat(Reverse(t.cleanups), CallsAll(t.children));
    assert start + (Ids(Reverse(t.cleanups)) + Ids(CallsAll(t.children))) == end;
  }

  lemma {:induction false} KnownMonotone(c: Callback, small: set<FrameId>, large: set<FrameId>)
    requires Known(c, small) && small <= large
    ensures Known(c, large)
    decreases c
  {
    forall i | 0 <= i < |c.actions|
      ensures KnownAction(c.actions[i], large)
    {
      assert KnownAction(c.actions[i], small);
      if c.actions[i].Register? {
        KnownMonotone(c.actions[i].callback, small, large);
      }
    }
  }

  /** A disposed frame was emptied, so disposing it again would run nothing. */
  lemma DisposedIsEmpty(
    children: map<FrameId, seq<FrameId>>, cleanups: map<FrameId, seq<Callback>>, sweptAt: map<FrameId, nat>, disposed: set<FrameId>, t: Tree)
    requires Shaped(children, cleanups, sweptAt, disposed, {}) && Holds(children, cleanups, t) && t.frame in disposed
    ensures Ids(Calls(t)) == [] && FirstPanic(Calls(t)) == None && Frames(t) <= disposed
    ensures OnlyTorn(children, cleanups, disposed, children, cleanups, disposed, Frames(t))
  {
    assert |Roots(t.children)| == 0;
  }

  lemma ClosingShaped(
    children: map<FrameId, seq<FrameId>>, cleanups: map<FrameId, seq<Callback>>, sweptAt: map<FrameId, nat>, disposed: set<FrameId>, f: FrameId)
    requires Shaped(children, cleanups, sweptAt, disposed, {}) && f in children
    ensures Shaped(children, cleanups, sweptAt, disposed + {f}, {f})
  {
  }

  lemma RootTorn(
    children: map<FrameId, seq<FrameId>>, cleanups: map<FrameId, seq<Callback>>, disposed: set<FrameId>,
    children': map<FrameId, seq<FrameId>>, cleanups': map<FrameId, seq<Callback>>, disposed': set<FrameId>, t: Tree)
    requires OnlyTorn(children, cleanups, disposed + {t.frame}, children', cleanups', disposed', Frames(t))
    requires FramesAll(t.children) <= disposed'
    ensures OnlyTorn(children, cleanups, disposed, children', cleanups', disposed', Frames(t)) && Frames(t) <= disposed'
  {
  }

  lemma SubtreesTorn(
    children: map<FrameId, seq<FrameId>>, cleanups: map<FrameId, seq<Callback>>, disposed: set<FrameId>,
    children': map<FrameId, seq<FrameId>>, cleanups': map<FrameId, seq<Callback>>, disposed': set<FrameId>, t: Tree)
    requires OnlyTorn(children[t.frame := []], cleanups[t.frame := []], disposed, children', cleanups', disposed', FramesAll(t.children))
    ensures OnlyTorn(children, cleanups, disposed, children', cleanups', disposed', Frames(t))
    ensures disposed' - disposed <= FramesAll(t.children)
  {
  }

  lemma ReverseStep(cs: seq<Callback>, i: nat)
    requires i < |cs|
    ensures Reverse(cs[..i + 1]) == [cs[i]] + Reverse(cs[..i]) && cs[..i + 1] == cs[..i] + [cs[i]]
    ensures Ids(Reverse(cs[..i + 1])) == [cs[i].id] + Ids(Reverse(cs[..i]))
    ensures FirstPanic(Reverse(cs[..i + 1])) == if cs[i].panics then Some(cs[i].id) else FirstPanic(Reverse(cs[..i]))
    ensures multiset(Ids(cs[..i + 1])) == multiset(Ids(cs[..i])) + multiset{cs[i].id}
  {
    var s := cs[..i + 1];
    assert Init(s) == cs[..i] && Last(s) == cs[i];
    assert ([cs[i]] + Reverse(cs[..i]))[1..] == Reverse(cs[..i]);
    assert Ids(s) == Ids(cs[..i]) + [cs[i].id];
  }

  /** The cleanups from position `i` on have run, latest first; `first` is the first panic so far. */
  ghost predicate RunSoFar(cs: seq<Callback>, i: nat, start: seq<nat>, ran: seq<nat>, first: Option<nat>)
    requires i <= |cs|
  {
    && ran + Ids(Reverse(cs[..i])) == start + Ids(Reverse(cs))
    && Earliest(first, FirstPanic(Reverse(cs[..i]))) == FirstPanic(Reverse(cs))
  }

  /** What is left to file once the cleanups from position `i` on have run. */
  ghost predicate FiledSoFar(cs: seq<Callback>, i: nat, before: map<FrameId, seq<Callback>>, now: map<FrameId, seq<Callback>>)
    requires i <= |cs|
  {
    FiledAll(now, Reverse(cs[..i])) == FiledAll(before, Reverse(cs))
  }

  lemma FilingStarts(cs: seq<Callback>, cleanups: map<FrameId, seq<Callback>>, registered: multiset<nat>)
    ensures FiledSoFar(cs, |cs|, cleanups, cleanups) && AllSure(cs[|cs|..], registered) && !AnyPanics(cs[|cs|..])
  {
    assert cs[..|cs|] == cs;
  }

  lemma FilingStep(cs: seq<Callback>, i: nat, before: map<FrameId, seq<Callback>>, now: map<FrameId, seq<Callback>>)
    requires i < |cs|
    ensures FiledSoFar(cs, i + 1, before, now) ==> FiledSoFar(cs, i, before, Filed(now, cs[i].actions))
  {
    ReverseStep(cs, i);
    assert ([cs[i]] + Reverse(cs[..i]))[1..] == Reverse(cs[..i]);
  }

  lemma FilingEnds(cs: seq<Callback>, before: map<FrameId, seq<Callback>>, now: map<FrameId, seq<Callback>>)
    ensures FiledSoFar(cs, 0, before, now) ==> now == FiledAll(before, Reverse(cs))
    ensures cs[0..] == cs
  {
    assert Reverse(cs[..0]) == [];
  }

  lemma RunStarts(cs: seq<Callback>, ran: seq<nat>, others: multiset<nat>, inFlight: multiset<nat>)
    requires multiset(Ids(cs)) <= inFlight && others == inFlight - multiset(Ids(cs))
    ensures RunSoFar(cs, |cs|, ran, ran, None) && inFlight == others + multiset(Ids(cs[..|cs|]))
  {
    assert cs[..|cs|] == cs;
  }

  lemma RunStep(cs: seq<Callback>, i: nat, start: seq<nat>, ran: seq<nat>, first: Option<nat>, others: multiset<nat>)
    requires i < |cs|
    ensures RunSoFar(cs, i + 1, start, ran, first) ==>
              RunSoFar(cs, i, start, ran + [cs[i].id], Earliest(first, if cs[i].panics then Some(cs[i].id) else None))
    ensures cs[i].id in others + multiset(Ids(cs[..i + 1]))
    ensures others + multiset(Ids(cs[..i + 1])) - multiset{cs[i].id} == others + multiset(Ids(cs[..i]))
  {
    ReverseStep(cs, i);
    assert ran + ([cs[i].id] + Ids(Reverse(cs[..i]))) == ran + [cs[i].id] + Ids(Reverse(cs[..i]));
  }

  lemma RunEnds(cs: seq<Callback>, start: seq<nat>, ran: seq<nat>, first: Option<nat>, others: multiset<nat>)
    ensures RunSoFar(cs, 0, start, ran, first) ==> ran == start + Ids(Reverse(cs)) && first == FirstPanic(Reverse(cs))
    ensures others + multiset(Ids(cs[..0])) == others
  {
    assert Ids(Reverse(cs[..0])) == [];
    assert ran + [] == ran;
  }

  /** The subtrees from position `i` on are torn down, latest first. */
  ghost predicate TornSoFar(ts: seq<Tree>, i: nat, start: seq<nat>, ran: seq<nat>, first: Option<nat>, unwinding: bool)
    requires i <= |ts|
  {
    && ran + Ids(CallsAll(ts[..i])) == start + Ids(CallsAll(ts))
    && (!unwinding ==> Earliest(first, FirstPanic(CallsAll(ts[..i]))) == FirstPanic(CallsAll(ts)))
  }

  lemma TearStarts(ts: seq<Tree>, ran: seq<nat>)
    ensures TornSoFar(ts, |ts|, ran, ran, None, false) && TornSoFar(ts, |ts|, ran, ran, None, true)
  {
    assert ts[..|ts|] == ts;
  }

  lemma TearStep(ts: seq<Tree>, i: nat, start: seq<nat>, ran: seq<nat>, first: Option<nat>, unwinding: bool)
    requires i < |ts| && TornSoFar(ts, i + 1, start, ran, first, unwinding)
    ensures TornSoFar(ts, i, start, ran + Ids(Calls(ts[i])), Earliest(first, if unwinding then None else FirstPanic(Calls(ts[i]))), unwinding)
  {
    CallsStep(ts, i);
    assert ran + (Ids(Calls(ts[i])) + Ids(CallsAll(ts[..i]))) == ran + Ids(Calls(ts[i])) + Ids(CallsAll(ts[..i]));
  }

  lemma TearEnds(ts: seq<Tree>, start: seq<nat>, ran: seq<nat>, first: Option<nat>, unwinding: bool)
    ensures TornSoFar(ts, 0, start, ran, first, unwinding) ==>
              ran == start + Ids(CallsAll(ts)) && (!unwinding ==> first == FirstPanic(CallsAll(ts)))
    ensures FramesAll(ts[..0]) == {}
  {
    assert Ids(CallsAll(ts[..0])) == [];
    assert ran + [] == ran;
  }

  lemma CallsStep(ts: seq<Tree>, i: nat)
    requires i < |ts|
    ensures CallsAll(ts[..i + 1]) == Calls(ts[i]) + CallsAll(ts[..i])
    ensures Ids(CallsAll(ts[..i + 1])) == Ids(Calls(ts[i])) + Ids(CallsAll(ts[..i]))
    ensures FirstPanic(CallsAll(ts[..i + 1])) == Earliest(FirstPanic(Calls(ts[i])), FirstPanic(CallsAll(ts[..i])))
    ensures FramesAll(ts[..i + 1]) == Frames(ts[i]) + FramesAll(ts[..i])
    ensures Init(ts[..i + 1]) == ts[..i] && Last(ts[..i + 1]) == ts[i]
  {
    assert Init(ts[..i + 1]) == ts[..i] && Last(ts[..i + 1]) == ts[i];
    IdsConcat(Calls(ts[i]), CallsAll(ts[..i]));
    FirstPanicConcat(Calls(ts[i]), CallsAll(ts[..i]));
  }

  lemma KnownMore(m: map<FrameId, seq<Callback>>, small: set<FrameId>, large: set<FrameId>)
    requires forall f, i :: f in m && 0 <= i < |m[f]| ==> Known(m[f][i], small)
    requires small <= large
    ensures forall f, i :: f in m && 0 <= i < |m[f]| ==> Known(m[f][i], large)
  {
    forall f, i | f in m && 0 <= i < |m[f]|
      ensures Known(m[f][i], large)
    {
      KnownMonotone(m[f][i], small, large);
    }
  }
}
