/** An asynchronous resource: the driving effect starts a fetch on every run, completions arrive in any
    order, and a generation counter decides which of them may publish. */
module Resources {

  import opened Basics

  type Value = int

  /** A fetch: its generation and the input it was started with. */
  datatype Fetch = Fetch(generation: nat, input: Value)

  datatype Publication = Publication(generation: nat, result: Value)

  /** Later publications have later generations, up to the newest. */
  ghost predicate Ordered(published: seq<Publication>, newest: nat) {
    && (forall i, j :: 0 <= i < j < |published| ==> published[i].generation < published[j].generation)
    && (forall i :: 0 <= i < |published| ==> 0 < published[i].generation <= newest)
  }

  class Resource {
    var value: Option<Value>
    var loading: bool
    var generation: nat
    /** The generation the registered cleanup aborts, if one is registered. */
    var cleanup: Option<nat>
    var disposed: bool
    /** Fetches started whose completion has not arrived. Aborting one may or may not stop it. */
    var outstanding: set<Fetch>
    var aborted: set<nat>

    ghost var published: seq<Publication>
    ghost var inputs: map<nat, Value>

    ghost predicate Newest()
      reads this
    {
      exists f :: f in outstanding && f.generation == generation
    }

    ghost predicate Valid()
      reads this
    {
      && (forall f :: f in outstanding ==> 0 < f.generation <= generation && f.generation in inputs && inputs[f.generation] == f.input)
      && (forall f, g :: f in outstanding && g in outstanding && f.generation == g.generation ==> f == g)
      && (generation > 0 ==> generation in inputs)
      && (loading <==> Newest() && !disposed)
      && (!disposed && generation > 0 ==> cleanup == Some(generation)) && (generation == 0 ==> cleanup == None)
      && (forall a :: a in aborted ==> 0 < a <= generation && (disposed || a < generation))
      && Ordered(published, generation)
      && (if published == [] then value == None
          else
            var last := published[|published| - 1];
            value == Some(last.result) && (last.generation == generation ==> !Newest()))
    }

    constructor ()
      ensures Valid() && value == None && !loading && generation == 0 && !disposed && outstanding == {} && published == []
    {
      value, loading, generation, cleanup, disposed := None, false, 0, None, false;
      outstanding, aborted := {}, {};
      published, inputs := [], map[];
    }

    /** The cleanup registered by the last run: abort its fetch and stop reporting it. */
    method RunCleanup()
      modifies `aborted, `loading, `cleanup
      ensures cleanup == None && (old(cleanup).Some? ==> !loading && old(cleanup).value in aborted)
      ensures old(cleanup) == None ==> loading == old(loading)
      ensures aborted == old(aborted) + if old(cleanup).Some? then {old(cleanup).value} else {}
    {
      if cleanup.Some? {
        aborted := aborted + {cleanup.value};
        loading := false;
      }
      cleanup := None;
    }

    /** The driving effect runs: the input moved, or a refetch was requested. */
    method Rerun(input: Value)
      requires Valid() && !disposed
      modifies this
      ensures Valid() && generation == old(generation) + 1 && loading && !disposed
      ensures outstanding == old(outstanding) + {Fetch(generation, input)} && value == old(value) && published == old(published)
      ensures aborted == (old(aborted) + if old(generation) > 0 then {old(generation)} else {}) && generation !in aborted
    {
      RunCleanup();
      generation := generation + 1;
      loading := true;
      var started := Fetch(generation, input);
      outstanding := outstanding + {started};
      inputs := inputs[generation := input];
      cleanup := Some(generation);
      assert started in outstanding && started.generation == generation;
    }

    /** A fetch completes, in whatever order, aborted or not. Only the newest generation publishes. */
    method Complete(f: Fetch, result: Value)
      requires Valid() && f in outstanding
      modifies this
      ensures Valid() && outstanding == old(outstanding) - {f} && generation == old(generation) && disposed == old(disposed)
      ensures f.generation < generation ==> value == old(value) && loading == old(loading) && published == old(published)
      ensures f.generation == generation ==> value == Some(result) && !loading
      ensures f.generation == generation ==> published == old(published) + [Publication(generation, result)]
      ensures published != old(published) <==> f.generation == generation
    {
      if generation == f.generation {
        Publish(f, result);
      } else {
        Discard(f);
      }
    }

    method Publish(f: Fetch, result: Value)
      requires Valid() && f in outstanding && f.generation == generation
      modifies `outstanding, `value, `loading, `published
      ensures Valid() && outstanding == old(outstanding) - {f} && value == Some(result) && !loading
      ensures published == old(published) + [Publication(generation, result)]
    {
      outstanding := outstanding - {f};
      value, loading := Some(result), false;
      published := published + [Publication(generation, result)];
      assert !Newest();
    }

    /** The result of a superseded fetch goes nowhere. */
    method Discard(f: Fetch)
      requires Valid() && f in outstanding && f.generation < generation
      modifies `outstanding
      ensures Valid() && outstanding == old(outstanding) - {f}
    {
      outstanding := outstanding - {f};
      if old(Newest()) {
        var g :| g in old(outstanding) && g.generation == generation;
        assert g in outstanding;
      }
    }

    /** A fetch that was really aborted never completes. */
    method Abandon(f: Fetch)
      requires Valid() && f in outstanding && f.generation in aborted && (f.generation < generation || disposed)
      modifies `outstanding
      ensures Valid() && outstanding == old(outstanding) - {f}
    {
      outstanding := outstanding - {f};
      if f.generation < generation && old(Newest()) {
        var g :| g in old(outstanding) && g.generation == generation;
        assert g in outstanding;
      }
    }

    /** The owner is disposed, and the driving effect with it. */
    method Dispose()
      requires Valid()
      modifies this
      ensures Valid() && disposed && !loading && value == old(value) && published == old(published)
      ensures outstanding == old(outstanding) && generation == old(generation)
      ensures aborted == old(aborted) + if !old(disposed) && generation > 0 then {generation} else {}
    {
      if disposed {
        return;
      }
      RunCleanup();
      disposed := true;
    }

    /** Two publications never share or reverse a generation, so what is visible is the result of the
        newest fetch that ever published. */
    lemma NewestWins(i: nat)
      requires Valid() && i < |published|
      ensures value.Some? && published[|published| - 1].generation >= published[i].generation
      ensures i < |published| - 1 ==> published[i].generation < generation
    {
      if i < |published| - 1 {
        assert published[i].generation < published[|published| - 1].generation;
      }
    }
  }

  /** Disposal does not move the generation: a newest fetch that its abort did not stop publishes although
      the resource is disposed. */
  method PublishedAfterDisposal() returns (resource: Resource)
    ensures resource.Valid() && resource.disposed && resource.value == Some(7) && !resource.loading
  {
    resource := new Resource();
    resource.Rerun(1);
    resource.Dispose();
    assert resource.value == None;
    resource.Complete(Fetch(1, 1), 7);
  }
}
