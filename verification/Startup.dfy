/** Loading the targets: what the coordinator's constructor establishes. */
module Startup {
  import opened Thunks
  import opened Evaluation
  import opened Graphs
  import opened Forcing
  import opened Reachability
  import opened Loading
  import opened Demand
  import opened Schedules

  // No reduction has happened yet.
  ghost predicate Untouched(g: Graph) { g.originals == map[] && g.updated == map[] }

  // The dependency sets hold exactly the values and executables of the stored thunks.
  ghost predicate Collected(g: Graph) {
    && (forall v :: v in g.values <==>
          exists k, i :: k in g.thunks && k.Thk? && i in k.thunk.values && i.ref.base == v)
    && (forall v :: v in g.executables <==>
          exists k, i :: k in g.thunks && k.Thk? && i in k.thunk.executables && i.ref.base == v)
  }

  lemma CollectedNames(g: Graph)
    ensures Collected(g) <==>
              && g.values == (set k, v | k in g.thunks && k.Thk? && v in ValueNames(k.thunk) :: v)
              && g.executables == (set k, v | k in g.thunks && k.Thk? && v in ExecutableNames(k.thunk) :: v)
  {
    hide ValueNames, ExecutableNames;
    forall k, i | k in g.thunks && k.Thk?
      ensures i in k.thunk.values ==> i.ref.base in ValueNames(k.thunk)
      ensures i in k.thunk.executables ==> i.ref.base in ExecutableNames(k.thunk)
    {
      NamesOfEntries(k.thunk);
    }
    forall k, v | k in g.thunks && k.Thk?
      ensures v in ValueNames(k.thunk) ==> exists i :: i in k.thunk.values && i.ref.base == v
      ensures v in ExecutableNames(k.thunk) ==> exists i :: i in k.thunk.executables && i.ref.base == v
    {
      NamesOfEntries(k.thunk);
    }
  }

  lemma UntouchedTarget(g: Graph, h: Hash)
    requires Untouched(g)
    ensures Target(g, h) == h && UpdatedHash(g, h) == h && Loadable(g, h)
    ensures h in g.thunks ==> Open(g, h)
  {
  }

  lemma AddedShape(run: Oracle, g: Graph, g': Graph, h: Hash)
    requires Untouched(g) && Added(run, g, g', h, h)
    ensures Untouched(g') && Valid(run, g') && h in g'.thunks && g.thunks.Keys <= g'.thunks.Keys
    ensures forall k | k in g.thunks :: g'.thunks[k] == g.thunks[k]
    ensures forall k | k in g'.thunks && k !in g.thunks :: Reach(g'.thunks, h, k)
    ensures h in g.thunks ==> g' == g
  {
    hide Valid, Reach, LoadCost;
  }

  lemma AddedCollected(run: Oracle, g: Graph, g': Graph, h: Hash)
    requires Collected(g) && Added(run, g, g', h, h)
    ensures Collected(g')
  {
    hide Valid, Reach, LoadCost, ValueNames, ExecutableNames, Collected;
    CollectedNames(g);
    CollectedNames(g');
    assert g'.thunks.Keys == g.thunks.Keys + Loaded(g, g');
  }

  lemma AddedConvergent(run: Oracle, g: Graph, g': Graph, h: Hash)
    requires Valid(run, g) && Convergent(run, g) && Converges(run, h) && Added(run, g, g', h, h)
    ensures Convergent(run, g')
  {
    hide Measure, Reach, Grown, Closed, Indexed, Chains, Keyed;
    ConvergentMeasurable(run, g);
  }

  lemma UntouchedGrows(g: Graph, a: Graph, o: Hash)
    requires Untouched(g) && Untouched(a) && Open(g, o) && o in a.thunks
    ensures Open(a, o) && UpdatedHash(a, o) == o && UpdatedHash(g, o) == o
  {
  }

  lemma NeededGrows(g: Graph, a: Graph, wanted: set<Hash>, k: Hash, h: Hash)
    requires Needed(g, wanted, k) && Untouched(g) && Untouched(a)
    requires forall x | x in g.thunks :: x in a.thunks && a.thunks[x] == g.thunks[x]
    ensures Needed(a, wanted + {h}, k)
  {
    hide Reach, Sole;
    var o :| o in wanted && Open(g, o) && Reach(g.thunks, UpdatedHash(g, o), k);
    UntouchedGrows(g, a, o);
    ReachKept(g.thunks, a.thunks, UpdatedHash(g, o), k);
    NeededBy(a, wanted + {h}, k, o);
  }

  lemma AddedNeeded(run: Oracle, g: Graph, g': Graph, h: Hash, wanted: set<Hash>)
    requires Untouched(g) && Added(run, g, g', h, h) && AllNeeded(g, wanted)
    ensures AllNeeded(g', wanted + {h})
  {
    hide Added, Reach, Needed, Open, Valid;
    AddedShape(run, g, g', h);
    UntouchedTarget(g', h);
    forall k | k in g'.thunks ensures Needed(g', wanted + {h}, k) {
      if k in g.thunks { NeededGrows(g, g', wanted, k, h); } else { NeededBy(g', wanted + {h}, k, h); }
    }
  }

  function TargetLoaded(p: Plan, g': Graph, h: Hash, newJobs: seq<Hash>): Plan {
    p.(graph := g', remaining := p.remaining + {h}, queue := p.queue + newJobs)
  }

  lemma LoadedJobs(run: Oracle, p: Plan, g': Graph, h: Hash, newJobs: seq<Hash>)
    requires WellBehaved(run) && JobsKnown(run, p) && Untouched(p.graph) && Added(run, p.graph, g', h, h)
    requires Convergent(run, g')
    requires forall x | x in newJobs :: x in Runnable(g')
    ensures JobsKnown(run, TargetLoaded(p, g', h, newJobs))
  {
    hide Added, Reach, InFlight, Valid, Convergent, WellBehaved, Executes, Runnable, Converges;
    AddedShape(run, p.graph, g', h);
    var p' := TargetLoaded(p, g', h, newJobs);
    forall j | j in p'.queue || j in p'.running || InFlight(p'.engines, j) ensures Job(run, g', p'.cache, j) {
      if j in newJobs { RunnableJob(run, g', p'.cache, j); } else { assert Job(run, p.graph, p.cache, j); }
    }
  }

  lemma LoadedNothingLost(run: Oracle, p: Plan, g': Graph, h: Hash, newJobs: seq<Hash>)
    requires NothingLost(p, {}) && Untouched(p.graph) && Added(run, p.graph, g', h, h)
    requires forall x | x in Runnable(g') && Reach(g'.thunks, h, x) :: x in newJobs
    ensures NothingLost(TargetLoaded(p, g', h, newJobs), {})
  {
    hide Added, Reach, InFlight, Valid;
    AddedShape(run, p.graph, g', h);
    forall k | k in Runnable(g') ensures k in p.queue + newJobs || InFlight(p.engines, k) {
      if k in p.graph.thunks { assert k in Runnable(p.graph); }
    }
  }

  lemma LoadedTargets(run: Oracle, targets: seq<Hash>, p: Plan, g': Graph, h: Hash, newJobs: seq<Hash>)
    requires TargetsTracked(run, targets, p) && Untouched(p.graph) && Added(run, p.graph, g', h, h)
    ensures TargetsTracked(run, targets + [h], TargetLoaded(p, g', h, newJobs))
  {
    hide Added, Reach, Valid;
    AddedShape(run, p.graph, g', h);
    UntouchedTarget(g', h);
    forall o | o in p.remaining ensures Open(g', o) { UntouchedGrows(p.graph, g', o); }
    forall o | o in targets + [h] ensures Going(run, g', o) || Answered(run, TargetLoaded(p, g', h, newJobs), o) {
      assert o in targets || o == h;
    }
  }

  // One more target is loaded, and what can run for it is queued.
  lemma OneLoaded(run: Oracle, targets: seq<Hash>, p: Plan, g': Graph, h: Hash, newJobs: seq<Hash>)
    requires WellBehaved(run) && InOrder(run, targets, p, {}) && Untouched(p.graph) && Added(run, p.graph, g', h, h)
    requires Converges(run, h)
    requires forall x :: x in newJobs <==> x in Runnable(g') && Reach(g'.thunks, h, x)
    ensures InOrder(run, targets + [h], TargetLoaded(p, g', h, newJobs), {}) && Untouched(g')
  {
    hide Added, Untouched, JobsKnown, NothingLost, TargetsTracked, CacheSound, Reach, Convergent, Accounted;
    hide AllNeeded, WellBehaved, Valid, Runnable;
    AddedShape(run, p.graph, g', h);
    AddedConvergent(run, p.graph, g', h);
    LoadedJobs(run, p, g', h, newJobs);
    LoadedNothingLost(run, p, g', h, newJobs);
    LoadedTargets(run, targets, p, g', h, newJobs);
    AddedNeeded(run, p.graph, g', h, p.remaining);
  }

  // A target that is listed twice is loaded once.
  lemma LoadedTwice(run: Oracle, targets: seq<Hash>, p: Plan, h: Hash)
    requires InOrder(run, targets, p, {}) && h in p.remaining
    ensures InOrder(run, targets + [h], p, {})
  {
    hide JobsKnown, NothingLost, CacheSound, Accounted, GraphInOrder, Going, Open, Answered;
    forall o | o in targets + [h] ensures Going(run, p.graph, o) || Answered(run, p, o) {
      assert o in targets || o == h;
    }
  }

  lemma NothingYet(run: Oracle, p: Plan)
    requires p.graph == Graph(map[], map[], {}, {}, map[], map[]) && p.queue == [] && p.remaining == {}
    requires p.running == {}
    requires CacheSound(run, p.cache) && forall e | e in p.engines :: e.jobCount == 0 && e.jobs == multiset{}
    ensures InOrder(run, [], p, {}) && Untouched(p.graph) && Collected(p.graph)
  {
    hide CacheSound;
    assert forall h :: !InFlight(p.engines, h);
  }

  // What is loaded is what the targets lead to.
  lemma LoadedIsReachable(run: Oracle, targets: seq<Hash>, p: Plan, k: Hash)
    requires InOrder(run, targets, p, {}) && Untouched(p.graph) && forall o :: o in p.remaining <==> o in targets
    ensures k in p.graph.thunks <==> exists t :: t in targets && Reach(p.graph.thunks, t, k)
  {
    hide JobsKnown, NothingLost, CacheSound, Accounted, Valid, Convergent, Reach, Answered, Sole, Going;
    if k in p.graph.thunks {
      assert Needed(p.graph, p.remaining, k);
      var o :| o in p.remaining && Open(p.graph, o) && Reach(p.graph.thunks, UpdatedHash(p.graph, o), k);
      assert o in targets && Reach(p.graph.thunks, o, k);
    }
    if exists t :: t in targets && Reach(p.graph.thunks, t, k) {
      var t :| t in targets && Reach(p.graph.thunks, t, k);
      ReachIsStored(p.graph.thunks, t, k);
    }
  }

  lemma ReachIsStored(thunks: map<Hash, Thunk>, a: Hash, b: Hash)
    requires Reach(thunks, a, b)
    ensures b in thunks
  {
    var n: nat :| ReachIn(thunks, a, b, n);
    ReachStored(thunks, a, b, n);
  }
}
