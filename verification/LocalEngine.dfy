/** The engine that runs thunks as child processes (src/execution/engine_local.cc). */
module LocalEngines {
  import opened Options
  import opened Thunks
  import opened Evaluation
  import opened Schedules

  // A local engine takes every thunk.
  predicate AnyThunk(t: Thunk) { true }

  // Its steps are those by which the coordinator keeps its books (Schedules.Sent and Schedules.Returned).
  class LocalEngine {
    const maxJobs: nat
    var runningJobs: nat

    // The child processes of the loop, and how many were started and have exited.
    var children: multiset<Hash>
    ghost var dispatched: nat
    ghost var completed: nat

    // The count is that of the jobs dispatched and not completed.
    ghost predicate Valid()
      reads this
    {
      runningJobs == |children| && dispatched == completed + runningJobs
    }

    // The engine as the coordinator knows it.
    ghost function View(): Engine
      reads this
    {
      Engine(AnyThunk, maxJobs, runningJobs, children)
    }

    constructor (limit: nat)
      ensures Valid() && View() == Engine(AnyThunk, limit, 0, multiset{}) && dispatched == completed == 0
    {
      maxJobs := limit;
      runningJobs, children, dispatched, completed := 0, multiset{}, 0, 0;
    }

    method ForceThunk(t: Thunk)
      requires Valid()
      modifies this
      ensures Valid() && View() == Sent(old(View()), Thk(t))
      ensures dispatched == old(dispatched) + 1 && completed == old(completed)
    {
      children := children + multiset{Thk(t)};
      runningJobs := runningJobs + 1;
      dispatched := dispatched + 1;
    }

    /** A child has exited: the job is over, and its outputs are read from the cache. None stands for the
        exception when an output has no entry; the job is over then, too. */
    method Exited(t: Thunk, cache: Cache) returns (outputs: Option<seq<Output>>)
      requires Valid() && Thk(t) in children
      modifies this
      ensures Valid() && old(View()).jobCount > 0 && View() == Returned(old(View()), Thk(t))
      ensures dispatched == old(dispatched) && completed == old(completed) + 1
      ensures outputs.Some? <==> forall tag | tag in t.outputs :: Ref(Thk(t), Tag(tag)) in cache
      ensures outputs.Some? ==> |outputs.value| == |t.outputs|
      ensures outputs.Some? ==> forall i | 0 <= i < |t.outputs| ::
                outputs.value[i] == Output(cache[Ref(Thk(t), Tag(t.outputs[i]))], t.outputs[i])
    {
      runningJobs := runningJobs - 1;
      children := children - multiset{Thk(t)};
      completed := completed + 1;
      var found: seq<Output> := [];
      for i := 0 to |t.outputs|
        invariant |found| == i
        invariant forall j | 0 <= j < i :: Ref(Thk(t), Tag(t.outputs[j])) in cache
        invariant forall j | 0 <= j < i :: found[j] == Output(cache[Ref(Thk(t), Tag(t.outputs[j]))], t.outputs[j])
      {
        var name := Ref(Thk(t), Tag(t.outputs[i]));
        assert t.outputs[i] in t.outputs;
        if name !in cache {
          return None;
        }
        found := found + [Output(cache[name], t.outputs[i])];
      }
      outputs := Some(found);
    }
  }

  // An engine that may have no jobs is refused.
  method Start(limit: nat) returns (r: Option<LocalEngine>)
    ensures r.Some? <==> limit > 0
    ensures r.Some? ==> r.value.Valid() && r.value.View() == Engine(AnyThunk, limit, 0, multiset{})
  {
    if limit == 0 {
      return None;
    }
    var engine := new LocalEngine(limit);
    r := Some(engine);
  }

  // When the child wrote its results, what the engine reports is what execution yields.
  lemma ReportedRight(run: Oracle, cache: Cache, t: Thunk, outputs: seq<Output>)
    requires Recorded(run, cache, Thk(t)) && |outputs| == |t.outputs|
    requires forall i | 0 <= i < |t.outputs| ::
               Ref(Thk(t), Tag(t.outputs[i])) in cache &&
                   outputs[i] == Output(cache[Ref(Thk(t), Tag(t.outputs[i]))], t.outputs[i])
    ensures outputs == ReportOf(run, Thk(t))
  {
    hide Orderly, TidyThunk;
    Expected(run, t);
    forall i | 0 <= i < |outputs| ensures outputs[i] == ReportOf(run, Thk(t))[i] {
    }
  }

  lemma Expected(run: Oracle, t: Thunk)
    requires Executes(run, Thk(t))
    ensures |run(t)| == |t.outputs| && |ReportOf(run, Thk(t))| == |t.outputs|
  {
  }
}
