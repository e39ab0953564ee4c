/** The coordinator (src/execution/reductor.cc): queues what can run, hands it to execution engines,
    and rewrites the graph with what comes back until every target is a value.

    The surroundings are given as a schedule: what happened to which job, and which jobs timed out,
    between any two rounds. Everything below holds for every schedule. */
module Reductors {
  import opened Options
  import opened Thunks
  import opened Evaluation
  import Costs
  import opened Graphs
  import opened Forcing
  import opened Reachability
  import opened Loading
  import opened Demand
  import opened Reduction
  import opened Schedules
  import opened Startup
  import opened ExecutionGraphs

  // What happens to a job on an engine: it is done; its results have been written but the engine has
  // not noticed yet; it failed and may be tried again; it failed for good.
  datatype Happening = Done | Written | Retry | Fatal
  datatype Event = Event(engine: nat, job: Hash, what: Happening)
  datatype Round = Round(events: seq<Event>, expired: set<Hash>)

  datatype Outcome =
    | Answers(hashes: seq<Hash>)  // all targets are values
    | Unfinished                  // the schedule ends before the targets are values
    | Stuck                       // nothing is in flight although targets remain
    | ExecutionFailed | NoEngine  // the errors reduce() throws
    | Merged                      // two thunks of the graph are about to become one

  datatype Dispatch = Executing | FullCapacity | CannotBeExecuted

  class Reductor {
    const run: Oracle
    const targets: seq<Hash>
    const graph: ExecutionGraph
    const primaries: nat  // exec_engines_ come first in engines, then fallback_engines_

    var remaining: set<Hash>
    var queue: seq<Hash>
    var running: set<Hash>
    var engines: seq<Engine>
    var cache: Cache
    var finished: nat

    ghost const budget: nat

    ghost function Now(): Plan
      reads this, graph
    {
      Plan(graph.State(), remaining, queue, running, engines, cache)
    }

    ghost predicate Fixed()
      reads this
    {
      graph.run == run && primaries <= |engines| && WellBehaved(run) && forall t | t in targets :: t.Thk?
    }

    // Between any two steps, while the thunks in hand are being handled.
    ghost predicate Good(hand: set<Hash>)
      reads this, graph
    {
      Fixed() && InOrder(run, targets, Now(), hand) && finished + Work(run, graph.State()) <= budget
    }

    /** Loads the targets and queues what can run at once. */
    constructor (oracle: Oracle, hashes: seq<Hash>, workers: seq<Engine>, first: nat, results: Cache)
      requires WellBehaved(oracle) && CacheSound(oracle, results) && first <= |workers|
      requires forall h | h in hashes :: h.Thk? && WellFormed(h) && Converges(oracle, h)
      requires forall e | e in workers :: e.jobCount == 0 && e.jobs == multiset{}
      ensures fresh(graph) && Good({}) && finished == 0
      ensures run == oracle && targets == hashes && engines == workers && primaries == first && cache == results
      ensures Collected(graph.State()) && Untouched(graph.State())
      ensures forall o :: o in remaining <==> o in hashes
      ensures forall k :: k in graph.thunks <==> exists t :: t in hashes && Reach(graph.thunks, t, k)
      ensures budget == Work(run, graph.State())
    {
      hide WellFormed, InOrder, Untouched, Added, Collected, CacheSound, Converges, Runnable, Reach, Convergent;
      hide Valid, Loadable, WellBehaved;
      var loading := new ExecutionGraph(oracle);
      var open: set<Hash>, jobs: seq<Hash> := {}, [];
      ghost var plan := Plan(loading.State(), open, jobs, {}, workers, results);
      NothingYet(oracle, plan);
      for i := 0 to |hashes|
        invariant loading.run == oracle && fresh(loading)
        invariant plan == Plan(loading.State(), open, jobs, {}, workers, results)
        invariant InOrder(oracle, hashes[..i], plan, {}) && Untouched(plan.graph) && Collected(plan.graph)
        invariant forall o :: o in open <==> o in hashes[..i]
      {
        var h := hashes[i];
        assert hashes[..i + 1] == hashes[..i] + [h];
        InOrderGraph(oracle, hashes[..i], plan, {});
        UntouchedTarget(plan.graph, h);
        var inserted := loading.AddThunk(Untagged(h));
        AddedTarget(oracle, plan.graph, loading.State(), h, inserted);
        AddedCollected(oracle, plan.graph, loading.State(), h);
        if inserted !in open {
          open := open + {inserted};
          AddedShape(oracle, plan.graph, loading.State(), h);
          AddedConvergent(oracle, plan.graph, loading.State(), h);
          var first := loading.OrderOneDependencies(Untagged(h));
          var newJobs := InSomeOrder(first.value);
          OneLoaded(oracle, hashes[..i], plan, loading.State(), h, newJobs);
          jobs := jobs + newJobs;
          plan := TargetLoaded(plan, loading.State(), h, newJobs);
        } else {
          OpenIsStored(oracle, hashes[..i], plan, h);
          AddedShape(oracle, plan.graph, loading.State(), h);
          LoadedTwice(oracle, hashes[..i], plan, h);
        }
      }
      assert hashes[..|hashes|] == hashes;
      forall k ensures k in plan.graph.thunks <==> exists t :: t in hashes && Reach(plan.graph.thunks, t, k) {
        LoadedIsReachable(oracle, hashes, plan, k);
      }
      run, targets, graph, primaries := oracle, hashes, loading, first;
      remaining, queue, running, engines, cache, finished := open, jobs, {}, workers, results, 0;
      budget := Work(oracle, plan.graph);
    }

    // ---------------------------------------------------------------- results

    /** Writes the results of executing h to the cache, the entry of the bare hash last. */
    method InsertReduction(h: Hash)
      requires CacheSound(run, cache) && Executes(run, h)
      modifies this`cache
      ensures CacheSound(run, cache) && Recorded(run, cache, h)
      ensures old(cache).Keys <= cache.Keys
      ensures forall r | r in cache && r.base != h :: r in old(cache) && cache[r] == old(cache)[r]
    {
      hide CacheSound, Executes, Recorded;
      OutputCount(run, h);
      var tags, outs := h.thunk.outputs, run(h.thunk);
      for i := 0 to |tags|
        invariant CacheSound(run, cache)
        invariant old(cache).Keys <= cache.Keys
        invariant forall j | 0 <= j < i :: Ref(h, Tag(tags[j])) in cache && cache[Ref(h, Tag(tags[j]))] == outs[j]
        invariant forall r | r in cache && r.base != h :: r in old(cache) && cache[r] == old(cache)[r]
      {
        TagInserted(run, cache, h, i);
        cache := cache[Ref(h, Tag(tags[i])) := outs[i]];
      }
      BaseInserted(run, cache, h);
      cache := cache[Untagged(h) := outs[0]];
    }

    /** The outputs of h as the cache has them; the lookups that the source guards cannot fail. */
    method ReadReduction(h: Hash) returns (outputs: seq<Output>)
      requires Recorded(run, cache, h)
      ensures outputs == ReportOf(run, h)
    {
      hide Orderly, TidyThunk;
      OutputCount(run, h);
      var tags := h.thunk.outputs;
      outputs := [];
      for i := 0 to |tags|
        invariant outputs == ReportOf(run, h)[..i]
      {
        outputs := outputs + [Output(cache[Ref(h, Tag(tags[i]))], tags[i])];
      }
    }

    /** Is there a result for h? The source also follows the results of results, to no effect. */
    method FindReduction(h: Hash) returns (found: bool)
      requires CacheSound(run, cache) && (Untagged(h) in cache ==> Converges(run, h))
      ensures found <==> Untagged(h) in cache
    {
      hide CacheSound, Converges;
      found := false;
      var current := h;
      while Untagged(current) in cache
        invariant Untagged(current) in cache ==> Converges(run, current)
        invariant if found then Untagged(h) in cache else current == h
        decreases CostOf(run, current)
      {
        ResultCostsLess(run, cache, current);
        found := true;
        current := cache[Untagged(current)];
      }
    }

    // ---------------------------------------------------------------- one reduction

    /** h has been executed: rewrites the graph, queues what became runnable and strikes off the target
        whose chain ended. Results of a job that is no longer in the graph change nothing. */
    method FinalizeExecution(h: Hash, outputs: seq<Output>) returns (merged: bool)
      requires Good({h}) && Executed(run, Now(), h, outputs)
      modifies this, graph
      ensures Fixed() && finished == old(finished) + (if !merged && h in old(graph.thunks) then 1 else 0)
      ensures merged ==> Now() == old(Now()).(running := old(running) - {h}) && Merges(run, old(graph.State()), h)
      ensures !merged ==> Good({}) && Finalized(run, old(Now()), Now(), h)
      ensures !merged ==> running == old(running) - {h} && engines == old(engines) && cache == old(cache)
      ensures !merged ==> old(queue) <= queue && MadeRunnable(old(Now()), Now(), queue[|old(queue)|..], h)
    {
      hide InOrder, Finalized, Work, Executed, Merges, WellBehaved, Runnable, Convergent, Valid, Executes;
      hide ReportOf, MergeFree, MadeRunnable, Job;
      ghost var before := Now();
      ExecutedParts(run, targets, before, h, outputs);
      running := running - {h};
      if h !in graph.thunks {
        var none := graph.ForceThunk(h, outputs);
        AlreadyDone(run, targets, before, h);
        FinalizedNothing(run, before, h);
        FinalizedShape(run, before, Now(), h);
        return false;
      }
      merged := graph.MergesWith(h, outputs);
      if merged {
        MergeFound(run, graph.State(), h);
        return;
      }
      Rewrite(h, outputs, before);
      InOrderGraph(run, targets, before, {h});
      FinalizedWork(run, before, Now(), h);
      FinalizedShape(run, before, Now(), h);
      return false;
    }

    // The job is in the graph, and reducing it merges nothing.
    method Rewrite(h: Hash, outputs: seq<Output>, ghost before: Plan)
      requires Fixed() && InOrder(run, targets, before, {h}) && Executed(run, before, h, outputs)
      requires Now() == before.(running := before.running - {h})
      requires h in graph.thunks && h in graph.referencing && Executes(run, h) && MergeFree(run, graph.State(), h)
      modifies this`queue, this`remaining, this`finished, graph
      ensures Fixed() && InOrder(run, targets, Now(), {}) && Finalized(run, before, Now(), h)
      ensures finished == old(finished) + 1
    {
      hide InOrder, Finalized, Work, Executed, WellBehaved, MergeFree, Forced, Runnable, Convergent, Valid;
      hide Executes, ReportOf, Progressed, Job;
      ExecutedParts(run, targets, before, h, outputs);
      var ready := graph.ForceThunk(h, outputs);
      ghost var after := Now();
      var newJobs := Enqueue(h, ready.value, outputs[0].hash);
      finished := finished + 1;
      MovedOn(run, targets, before, graph.State(), h, ready.value, newJobs);
      ProgressedIs(run, before, after, h, newJobs);
      FinalizedSomething(run, before, graph.State(), h, ready.value, newJobs);
    }

    // The bookkeeping after a reduction: what to run next, and whether a target has been reached.
    method Enqueue(h: Hash, ready: set<Hash>, main: Hash) returns (newJobs: seq<Hash>)
      modifies this`queue, this`remaining
      ensures forall x :: x in newJobs <==> x in ready
      ensures |newJobs| == |ready|
      ensures queue == old(queue) + newJobs
      ensures remaining == if main.Value? then old(remaining) - {OriginalHash(graph.State(), h)} else old(remaining)
    {
      newJobs := InSomeOrder(ready);
      queue := queue + newJobs;
      if main.Value? {
        var original := graph.FindOriginal(h);
        remaining := remaining - {original};
      }
    }

    // ---------------------------------------------------------------- dispatch

    // The first engine of engines[lo..hi] that can execute thunk and has room.
    method TryEngines(lo: nat, hi: nat, thunk: Thunk) returns (state: Dispatch, chosen: nat)
      requires lo <= hi <= |engines|
      ensures state.Executing? ==> FirstWithRoom(engines, lo, hi, thunk, chosen)
      ensures state.FullCapacity? ==> SomeCapable(engines, lo, hi, thunk) && NoRoom(engines, lo, hi, thunk)
      ensures state.CannotBeExecuted? ==> !SomeCapable(engines, lo, hi, thunk)
    {
      state, chosen := CannotBeExecuted, 0;
      for i := lo to hi
        invariant state.FullCapacity? ==> SomeCapable(engines, lo, i, thunk) && NoRoom(engines, lo, i, thunk)
        invariant state.CannotBeExecuted? ==> !SomeCapable(engines, lo, i, thunk)
        invariant !state.Executing?
      {
        if engines[i].canExecute(thunk) {
          if engines[i].HasRoom() {
            return Executing, i;
          }
          state := FullCapacity;
        }
      }
    }

    // The engine for thunk: a fallback is asked only if no primary engine is capable.
    method Choose(thunk: Thunk) returns (state: Dispatch, chosen: nat)
      requires primaries <= |engines|
      ensures state.Executing? ==> Serves(engines, primaries, thunk, chosen)
      ensures state.FullCapacity? ==> AllBusy(engines, primaries, thunk)
      ensures state.CannotBeExecuted? ==> !SomeCapable(engines, 0, |engines|, thunk)
    {
      state, chosen := TryEngines(0, primaries, thunk);
      if state.CannotBeExecuted? {
        state, chosen := TryEngines(primaries, |engines|, thunk);
      }
    }

    /** Hands h to the first capable engine that has room. A job that finds no room goes back to the front
        of the queue. */
    method Send(h: Hash) returns (state: Dispatch)
      requires Good({h}) && Job(run, graph.State(), cache, h) && h in graph.thunks
      modifies this`engines, this`running, this`queue
      ensures Fixed() && Offered(old(Now()), Now(), primaries, h, state)
      ensures if state.CannotBeExecuted? then Good({h}) else Good({})
    {
      hide InOrder, WellBehaved, Job, Work, GraphInOrder, Runnable, Offered, Serves, AllBusy, Sent, Valid, Convergent;
      ghost var before := Now();
      InOrderGraph(run, targets, before, {h});
      JobRunnable(run, before, h);
      var chosen;
      state, chosen := Choose(graph.thunks[h]);
      OfferMade(before, primaries, h, state, chosen);
      if state.Executing? {
        Dispatched(run, targets, before, chosen, h);
        engines, running := engines[chosen := Sent(engines[chosen], h)], running + {h};
      } else if state.FullCapacity? {
        Queued(run, targets, before, [h] + queue, {h});
        queue := [h] + queue;
      }
    }

    /** Works through the queue until it is empty or a job finds no room. */
    method Drain() returns (stop: Option<Outcome>)
      requires Good({})
      modifies this, graph
      ensures Bounded() && SameEngines(old(engines), engines)
      ensures stop.None? ==> Good({}) && Drained(run, primaries, old(Now()), Now())
      ensures stop.None? ==> queue == [] || exists e :: e in engines && !e.HasRoom()
      ensures stop.None? ==> Work(run, graph.State()) <= Work(run, old(graph.State()))
      ensures stop.Some? ==> DrainStopped(run, primaries, old(Now()), Now(), stop.value)
    {
      hide InOrder, WellBehaved, Job, Work, Finalized, Merges, CacheSound, Executes, Converges, Offered;
      hide Refused, DrainStopped, Recorded, GraphInOrder, Valid, Convergent, Executed, ReportOf, Accounted, Takes;
      hide DrainsIn, Drained;
      stop := None;
      ghost var before, steps := Now(), 0;
      DrainsNone(run, primaries, before);
      while queue != []
        invariant Good({}) && SameEngines(old(engines), engines)
        invariant DrainsIn(run, primaries, before, Now(), steps)
        invariant Work(run, graph.State()) <= Work(run, before.graph)
        decreases Work(run, graph.State()), |queue|
      {
        var h := queue[0];
        ghost var start := Now();
        Taken(run, targets, start);
        JobParts(run, start, h);
        InOrderGraph(run, targets, start, {});
        queue := queue[1..];
        ghost var popped := Now();
        InOrderGraph(run, targets, popped, {h});
        var found := FindReduction(h);
        if found {
          HasResult(run, Now(), h);
          var outputs := ReadReduction(h);
          var merged := FinalizeExecution(h, outputs);
          if merged {
            StillAccounted(run, targets, popped, {h});
            StopsMerging(run, start, Now());
            DrainedUpTo(run, primaries, before, start, Now(), Merged, steps);
            return Some(Merged);
          }
          FinalizedQueue(run, popped, Now(), h);
          TakesResult(run, primaries, start, Now());
        } else {
          var state := Send(h);
          OfferedEngines(popped, Now(), primaries, h, state);
          if state.CannotBeExecuted? {
            GoodIsBounded({h});
            StopsRefused(run, start, Now());
            DrainedUpTo(run, primaries, before, start, Now(), NoEngine, steps);
            return Some(NoEngine);
          }
          TakesOffer(run, primaries, start, Now(), state);
          if state.FullCapacity? {
            DrainedFull(run, primaries, before, start, Now(), steps);
            GoodIsBounded({});
            return None;
          }
        }
        DrainsMore(run, primaries, before, start, Now(), steps);
        steps := steps + 1;
      }
      DrainedEmpty(run, primaries, before, Now(), steps);
      GoodIsBounded({});
    }

    // ---------------------------------------------------------------- events

    /** One thing that happened while the coordinator was polling. */
    method Handle(event: Event) returns (stop: Option<Outcome>)
      requires Good({})
      modifies this, graph
      ensures Bounded() && SameEngines(old(engines), engines)
      ensures stop.None? ==> Good({}) && Handled(run, old(Now()), Now(), event)
      ensures event.engine >= |old(engines)| || event.job !in old(engines)[event.engine].jobs ==> stop.None?
      ensures stop.Some? ==> HandleStopped(run, old(Now()), Now(), event, stop.value)
    {
      hide InOrder, WellBehaved, Job, Work, Merges, HandleStopped, CacheSound, Executes, Recorded, GraphInOrder, Valid;
      hide Convergent, Accounted, InFlight, Executed, ReportOf, Returned, SameEngines, Finalized, Handled;
      var h := event.job;
      GoodIsBounded({});
      SameEnginesAlways(engines);
      ghost var before := Now();
      if event.engine >= |engines| || h !in engines[event.engine].jobs {
        HandledNothing(run, before, event);
        return None;
      }
      if event.what.Written? {
        JobInFlight(run, targets, before, event.engine, h);
        Record(h, {});
        HandledWritten(run, before, Now(), event);
        GoodIsBounded({});
        return None;
      }
      TakeBack(event.engine, h);
      ghost var back := Now();
      GoodIsBounded({h});
      match event.what {
        case Done =>
          stop := Complete(h);
          if stop.None? {
            HandledDone(run, before, back, Now(), event);
          } else {
            HandleMerged(run, before, Now(), event);
          }
        case Retry =>
          Queued(run, targets, back, queue + [h], {h});
          queue := queue + [h];
          HandledRetry(run, before, Now(), event);
          GoodIsBounded({});
          stop := None;
        case _ =>
          HandleFailed(run, before, Now(), event);
          stop := Some(ExecutionFailed);
      }
    }

    // The engine is done with h, one way or the other.
    method TakeBack(engine: nat, h: Hash)
      requires Good({}) && engine < |engines| && h in engines[engine].jobs
      modifies this`engines
      ensures Good({h}) && Job(run, graph.State(), cache, h) && SameEngines(old(engines), engines)
      ensures old(engines)[engine].jobCount > 0
      ensures Now() == old(Now()).(engines := old(engines)[engine := Returned(old(engines)[engine], h)])
    {
      hide InOrder, WellBehaved, Job, Work, Returned, SameEngines;
      CameBack(run, targets, Now(), engine, h);
      ReturnedSame(engines, engine, h);
      engines := engines[engine := Returned(engines[engine], h)];
    }

    // The results of h are written to the cache.
    method Record(h: Hash, ghost hand: set<Hash>)
      requires Good(hand) && Job(run, graph.State(), cache, h)
      modifies this`cache
      ensures Good(hand) && Recorded(run, cache, h) && Executed(run, Now(), h, ReportOf(run, h))
      ensures Now() == old(Now()).(cache := cache)
    {
      hide InOrder, WellBehaved, Job, Work, CacheSound, Executes, Recorded, GraphInOrder, Valid, Convergent;
      hide Executed, ReportOf, TidyThunk, Orderly;
      ghost var before := Now();
      JobParts(run, before, h);
      InOrderGraph(run, targets, before, hand);
      InsertReduction(h);
      assert Now() == before.(cache := cache);
      CacheWritten(run, targets, before, cache, hand);
      RecordedResult(run, before, Now(), h);
    }

    // An engine has executed h: its results are written to the cache and used.
    method Complete(h: Hash) returns (stop: Option<Outcome>)
      requires Good({h}) && Job(run, graph.State(), cache, h)
      modifies this, graph
      ensures Bounded() && engines == old(engines)
      ensures stop.None? ==>
                Good({}) && Recorded(run, cache, h) && Finalized(run, old(Now()).(cache := cache), Now(), h)
      ensures stop.Some? ==>
                && stop == Some(Merged) && Recorded(run, cache, h) && Merges(run, old(graph.State()), h)
                && Now() == old(Now()).(cache := cache, running := old(running) - {h})
    {
      hide InOrder, WellBehaved, Job, Work, Finalized, Merges, CacheSound, Executes, Recorded, GraphInOrder;
      hide Valid, Convergent, Accounted, InFlight, Executed, ReportOf;
      Record(h, {h});
      GoodIsBounded({h});
      var outputs := ReadReduction(h);
      ghost var ready := Now();
      var merged := FinalizeExecution(h, outputs);
      if merged {
        return Some(Merged);
      }
      FinalizedEngines(run, ready, Now(), h);
      GoodIsBounded({});
      return None;
    }

    /** Jobs that take too long are queued once more. */
    method Duplicate(expired: set<Hash>)
      requires Good({})
      modifies this`queue
      ensures Good({}) && Requeued(old(Now()), expired, Now())
    {
      hide InOrder, WellBehaved, Work, Job;
      var again := InSomeOrder(expired * running);
      RunningJobs(run, targets, Now());
      Queued(run, targets, Now(), queue + again, {});
      RequeuedAs(Now(), expired, again);
      queue := queue + again;
    }

    // The answer for every target: what the cache has for the tip of its chain.
    method Collect() returns (hashes: seq<Hash>)
      requires Good({}) && remaining == {}
      ensures Correct(run, targets, hashes)
    {
      hide InOrder, WellBehaved, Work, Answered, CacheSound, Valid, Convergent, RightAnswer, UpdatedHash;
      NothingStored(run, targets, Now());
      InOrderGraph(run, targets, Now(), {});
      hashes := [];
      for i := 0 to |targets|
        invariant Correct(run, targets[..i], hashes)
      {
        var final := graph.FindUpdated(targets[i]);
        AnswerFor(run, Now(), targets[i]);
        hashes := hashes + [cache[Untagged(final)]];
      }
      assert targets[..|targets|] == targets;
    }

    /** Reduces the targets to values (Reductor::reduce), one round of the schedule per round of polling. What
        has happened so far is told by polls, the plan at the beginning of each round of polling. */
    method Reduce(rounds: seq<Round>) returns (outcome: Outcome, ghost polls: seq<Plan>)
      requires Good({})
      modifies this, graph
      ensures Bounded() && SameEngines(old(engines), engines)
      ensures outcome.Answers? ==> Good({}) && Correct(run, targets, outcome.hashes)
      ensures outcome.Answers? || outcome.Stuck? ==>
                0 < |polls| <= |rounds| && Ran(run, primaries, old(Now()), rounds[..|polls|], polls, Now())
      ensures outcome.Stuck? ==> remaining != {} && NothingInFlight(polls[|polls| - 1].engines)
      ensures outcome.Unfinished? ==> Good({}) && GoesOnFrom(polls, Now())
      ensures outcome.Unfinished? ==> Ran(run, primaries, old(Now()), rounds, polls, Now())
      ensures outcome.NoEngine? || outcome.Merged? || outcome.ExecutionFailed? ==>
                RunStopped(run, primaries, old(Now()), rounds, polls, Now(), outcome)
      ensures |polls| <= |rounds| && UsefulRounds(rounds, polls) <= Work(run, old(graph.State())) <= budget
      ensures outcome.Answers? || outcome.Unfinished? || outcome.Stuck? ==>
                UsefulRounds(rounds, polls) + Work(run, graph.State()) <= Work(run, old(graph.State()))
      ensures outcome.Unfinished? && AllUseful(rounds, polls) ==> |rounds| <= Work(run, old(graph.State()))
      ensures outcome.Stuck? ==> exists e :: e in engines && e.maxJobs == 0
    {
      hide InOrder, WellBehaved, Work, TurnStopped, RunStopped, Accounted, Correct, Passed, Ran, AllUseful, Useful;
      hide UsefulRounds;
      ghost var before := Now();
      polls := [];
      RanNothing(run, primaries, before, rounds);
      for i := 0 to |rounds|
        invariant Good({}) && SameEngines(old(engines), engines)
        invariant GoesOnFrom(polls, Now())
        invariant |polls| == i && Ran(run, primaries, before, rounds[..i], polls, Now())
        invariant UsefulRounds(rounds, polls) + Work(run, graph.State()) <= Work(run, before.graph) <= budget
      {
        ghost var start := Now();
        var stop, idle, poll := Turn(rounds[i]);
        if stop.Some? {
          RanUpTo(run, primaries, before, rounds, polls, start, Now(), stop.value);
          return stop.value, polls;
        }
        RanRound(run, primaries, before, rounds, polls, start, poll, Now());
        UsefulRoundsMore(rounds, polls, poll);
        polls := polls + [poll];
        if remaining == {} {
          var hashes := Collect();
          GoodIsBounded({});
          return Answers(hashes), polls;
        }
        if idle {
          GoodIsBounded({});
          return Stuck, polls;
        }
      }
      assert rounds[..|rounds|] == rounds;
      AllUsefulCounted(rounds, polls);
      GoodIsBounded({});
      return Unfinished, polls;
    }

    // One round: the queue is worked through, then the engines are polled, then overdue jobs are queued again.
    method Turn(round: Round) returns (stop: Option<Outcome>, idle: bool, ghost poll: Plan)
      requires Good({})
      modifies this, graph
      ensures Bounded() && SameEngines(old(engines), engines)
      ensures stop.None? ==> Good({}) && Passed(run, primaries, old(Now()), round, poll, Now())
      ensures stop.None? ==> Work(run, graph.State()) <= Work(run, old(graph.State()))
      ensures stop.None? && Useful(poll, round.events) ==> Work(run, graph.State()) < Work(run, old(graph.State()))
      ensures stop.None? ==> (idle <==> NothingInFlight(poll.engines))
      ensures stop.None? && idle ==> remaining == {} || exists e :: e in engines && e.maxJobs == 0
      ensures stop.Some? ==> TurnStopped(run, primaries, old(Now()), round, Now(), stop.value)
      ensures stop.Some? ==> stop.value.NoEngine? || stop.value.Merged? || stop.value.ExecutionFailed?
    {
      hide InOrder, WellBehaved, Work, DrainStopped, PollStopped, Accounted, Drained, Handles, Requeued, Useful;
      ghost var start := Now();
      idle, poll := false, start;
      stop := Drain();
      if stop.Some? {
        WhyDrainStopped(run, primaries, start, Now(), stop.value);
        return;
      }
      idle := Idle();
      if idle {
        NoDeadlock(run, targets, Now());
      }
      poll := Now();
      stop := Poll(round.events);
      if stop.Some? {
        WhyPollStopped(run, poll, round.events, Now(), stop.value);
        return;
      }
      ghost var polled := Now();
      Duplicate(round.expired);
      RequeuedGraph(polled, round.expired, Now());
      RoundPassed(run, primaries, start, round, poll, polled, Now());
    }

    // Everything that happened during one round of polling. (When nothing is in flight, nothing can.)
    method Poll(events: seq<Event>) returns (stop: Option<Outcome>)
      requires Good({})
      modifies this, graph
      ensures Bounded() && SameEngines(old(engines), engines)
      ensures stop.None? ==> Good({}) && Handles(run, old(Now()), events, Now())
      ensures stop.None? ==> Work(run, graph.State()) <= Work(run, old(graph.State()))
      ensures stop.None? && Useful(old(Now()), events) ==> Work(run, graph.State()) < Work(run, old(graph.State()))
      ensures (forall e | e in old(engines) :: e.jobCount == 0) ==> stop.None? && Now() == old(Now())
      ensures stop.Some? ==> PollStopped(run, old(Now()), events, Now(), stop.value)
    {
      hide InOrder, WellBehaved, Work, PollStopped, HandleStopped, Accounted, Handled, Handles, Advanced;
      GoodIsBounded({});
      stop := None;
      ghost var before := Now();
      HandlesNothing(run, before, events);
      AdvancedNot(run, before, events);
      for j := 0 to |events|
        invariant Good({}) && SameEngines(old(engines), engines)
        invariant stop.None? && Handles(run, before, events[..j], Now())
        invariant Advanced(run, before, events, j, Now())
        invariant (forall e | e in before.engines :: e.jobCount == 0) ==> Now() == before
      {
        ghost var now := Now();
        IdleHandles(run, targets, now, events[j]);
        InOrderGraph(run, targets, now, {});
        stop := Handle(events[j]);
        if stop.Some? {
          PolledUpTo(run, before, events, j, now, Now(), stop.value);
          return;
        }
        IdleUnchanged(run, now, Now(), events[j]);
        HandlesMore(run, before, events, j, now, Now());
        AdvancedMore(run, before, events, j, now, Now());
      }
      assert events[..|events|] == events;
      AdvancedEnd(run, before, events, Now());
      GoodIsBounded({});
    }

    // Nothing is in flight, so that polling has nothing to wait for.
    predicate Idle()
      reads this
      ensures Idle() <==> NothingInFlight(engines)
    {
      forall i | 0 <= i < |engines| :: engines[i].jobCount == 0
    }

    lemma GoodIsBounded(hand: set<Hash>)
      requires Good(hand)
      ensures Bounded()
    {
      hide InOrder, Work, WellBehaved, Accounted;
      StillAccounted(run, targets, Now(), hand);
    }

    // What is known even when a run is given up.
    ghost predicate Bounded()
      reads this, graph
    {
      Fixed() && finished + Work(run, graph.State()) <= budget && Accounted(engines)
    }
  }

  /** Sets up a run; without a primary engine there is none. */
  method Launch(oracle: Oracle, hashes: seq<Hash>, workers: seq<Engine>, first: nat,
      results: Cache) returns (r: Option<Reductor>)
    requires WellBehaved(oracle) && CacheSound(oracle, results) && first <= |workers|
    requires forall h | h in hashes :: h.Thk? && WellFormed(h) && Converges(oracle, h)
    requires forall e | e in workers :: e.jobCount == 0 && e.jobs == multiset{}
    ensures r.Some? <==> first > 0
    ensures r.Some? ==> r.value.Good({}) && r.value.targets == hashes && r.value.run == oracle
  {
    hide WellBehaved, CacheSound, WellFormed, Converges, InOrder, Work;
    var reductor := new Reductor(oracle, hashes, workers, first, results);
    r := if first == 0 then None else Some(reductor);
  }

  // The elements of s in some order (the loops over unordered sets).
  method InSomeOrder(s: set<Hash>) returns (r: seq<Hash>)
    ensures forall x :: x in r <==> x in s
    ensures |r| == |s|
  {
    r := [];
    var todo := s;
    while todo != {}
      invariant forall x :: x in s <==> x in r || x in todo
      invariant |r| + |todo| == |s|
    {
      var x :| x in todo;
      r, todo := r + [x], todo - {x};
    }
  }

  lemma InOrderGraph(run: Oracle, targets: seq<Hash>, p: Plan, hand: set<Hash>)
    requires InOrder(run, targets, p, hand)
    ensures GraphInOrder(run, p) && CacheSound(run, p.cache)
    ensures Valid(run, p.graph) && Convergent(run, p.graph)
  {
    hide CacheSound, JobsKnown, NothingLost, Accounted, TargetsTracked, Consistent, Convergent, AllNeeded;
  }

  lemma AddedTarget(run: Oracle, g: Graph, g': Graph, h: Hash, u: Hash)
    requires Added(run, g, g', h, u) && Untouched(g)
    ensures u == h
  {
    hide Valid, Reach, LoadCost;
  }

  lemma OpenIsStored(run: Oracle, targets: seq<Hash>, p: Plan, h: Hash)
    requires InOrder(run, targets, p, {}) && Untouched(p.graph) && h in p.remaining
    ensures h in p.graph.thunks
  {
    hide CacheSound, JobsKnown, NothingLost, Accounted, GraphInOrder, Answered;
  }

  lemma OutputCount(run: Oracle, h: Hash)
    requires Executes(run, h)
    ensures h.Thk? && |run(h.thunk)| == |h.thunk.outputs| > 0 && Distinct(h.thunk.outputs)
  {
  }

  ghost function CostOf(run: Oracle, h: Hash): nat { if Converges(run, h) then 1 + Costs.Cost(run, h) else 0 }

  lemma ResultCostsLess(run: Oracle, cache: Cache, h: Hash)
    requires CacheSound(run, cache) && Untagged(h) in cache && Converges(run, h)
    ensures var next := cache[Untagged(h)];
            (Untagged(next) in cache ==> Converges(run, next)) && CostOf(run, next) < CostOf(run, h)
  {
    hide TidyThunk, Orderly, Converges;
    assert Recorded(run, cache, h);
    assert h == Thk(h.thunk);
    Costs.OwnOfExecuted(run, h.thunk);
    var next := cache[Untagged(h)];
    if next.Value? { ValuesAreNoJobs(run, cache, next); }
  }

  lemma ValuesAreNoJobs(run: Oracle, cache: Cache, v: Hash)
    requires CacheSound(run, cache) && v.Value?
    ensures Untagged(v) !in cache && CostOf(run, v) <= 1
  {
    assert Untagged(v) in cache ==> Recorded(run, cache, v);
  }

  lemma JobParts(run: Oracle, p: Plan, h: Hash)
    requires Job(run, p.graph, p.cache, h)
    ensures Executes(run, h) && Converges(run, h) && (h in p.graph.thunks || Untagged(h) in p.cache)
  {
  }

  lemma ProgressedIs(run: Oracle, p: Plan, p': Plan, h: Hash, newJobs: seq<Hash>)
    requires h.Thk? && run(h.thunk) != [] && p' == p.(graph := p'.graph, running := p.running - {h})
    ensures Progressed(run, p, p'.graph, h, newJobs) ==
              p'.(queue := p.queue + newJobs,
                  remaining := if run(h.thunk)[0].Value?
                               then p.remaining - {OriginalHash(p'.graph, h)} else p.remaining)
  {
  }

  lemma ExecutedParts(run: Oracle, targets: seq<Hash>, p: Plan, h: Hash, outputs: seq<Output>)
    requires Executed(run, p, h, outputs) && InOrder(run, targets, p, {h})
    ensures Executes(run, h) && Job(run, p.graph, p.cache, h) && Untagged(h) in p.cache && outputs == ReportOf(run, h)
    ensures outputs != [] && outputs[0].hash == run(h.thunk)[0]
    ensures Valid(run, p.graph) && Convergent(run, p.graph)
    ensures h in p.graph.thunks ==> h in Runnable(p.graph)
  {
    hide Valid, Convergent, Runnable, ReportOf, AllNeeded, JobsKnown, NothingLost, Accounted, CacheSound;
    hide TargetsTracked;
    ReportFirst(run, h);
    if h in p.graph.thunks { JobRunnable(run, p, h); }
  }

  // ---------------------------------------------------------------- who gets a job

  ghost predicate SomeCapable(engines: seq<Engine>, lo: nat, hi: nat, thunk: Thunk)
    requires hi <= |engines|
  {
    exists i :: lo <= i < hi && engines[i].canExecute(thunk)
  }

  ghost predicate NoRoom(engines: seq<Engine>, lo: nat, hi: nat, thunk: Thunk)
    requires hi <= |engines|
  {
    forall i | lo <= i < hi :: engines[i].canExecute(thunk) ==> !engines[i].HasRoom()
  }

  ghost predicate FirstWithRoom(engines: seq<Engine>, lo: nat, hi: nat, thunk: Thunk, i: nat)
    requires hi <= |engines|
  {
    lo <= i < hi && engines[i].canExecute(thunk) && engines[i].HasRoom() && NoRoom(engines, lo, i, thunk)
  }

  // i is the engine a job goes to.
  ghost predicate Serves(engines: seq<Engine>, primaries: nat, thunk: Thunk, i: nat)
    requires primaries <= |engines|
  {
    if SomeCapable(engines, 0, primaries, thunk) then FirstWithRoom(engines, 0, primaries, thunk, i)
    else FirstWithRoom(engines, primaries, |engines|, thunk, i)
  }

  ghost predicate AllBusy(engines: seq<Engine>, primaries: nat, thunk: Thunk)
    requires primaries <= |engines|
  {
    if SomeCapable(engines, 0, primaries, thunk) then NoRoom(engines, 0, primaries, thunk)
    else SomeCapable(engines, primaries, |engines|, thunk) && NoRoom(engines, primaries, |engines|, thunk)
  }

  // What offering h to the engines does.
  ghost predicate Offered(p: Plan, p': Plan, primaries: nat, h: Hash, state: Dispatch) {
    && h.Thk? && primaries <= |p.engines|
    && match state
       case Executing => exists i: nat :: && i < |p.engines| && Serves(p.engines, primaries, h.thunk, i)
                                          && p' == p.(engines := p.engines[i := Sent(p.engines[i], h)],
                                              running := p.running + {h})
       case FullCapacity => p' == p.(queue := [h] + p.queue) && AllBusy(p.engines, primaries, h.thunk)
       case CannotBeExecuted => p' == p && Refused(p, h)
  }

  // The engine that serves h has room for it.
  lemma OfferMade(p: Plan, primaries: nat, h: Hash, state: Dispatch, i: nat)
    requires primaries <= |p.engines| && h in Runnable(p.graph) && h == Thk(p.graph.thunks[h])
    requires state.Executing? ==> Serves(p.engines, primaries, h.thunk, i)
    requires state.FullCapacity? ==> AllBusy(p.engines, primaries, h.thunk)
    requires state.CannotBeExecuted? ==> !SomeCapable(p.engines, 0, |p.engines|, h.thunk)
    ensures match state
            case Executing => i < |p.engines| && p.engines[i].HasRoom()
                              && Offered(p, p.(engines := p.engines[i := Sent(p.engines[i], h)],
                                  running := p.running + {h}), primaries, h, state)
            case FullCapacity => Offered(p, p.(queue := [h] + p.queue), primaries, h, state)
            case CannotBeExecuted => Offered(p, p, primaries, h, state)
  {
    hide Runnable;
  }

  lemma OfferedEngines(p: Plan, p': Plan, primaries: nat, h: Hash, state: Dispatch)
    requires Offered(p, p', primaries, h, state)
    ensures SameEngines(p.engines, p'.engines) && p'.graph == p.graph && p'.cache == p.cache
    ensures state.Executing? ==> p'.queue == p.queue
    ensures state.FullCapacity? ==> exists e :: e in p'.engines && !e.HasRoom()
    ensures state.CannotBeExecuted? ==> p' == p && Refused(p, h)
  {
    hide Refused, Serves, AllBusy;
    if state.FullCapacity? { BusyEngine(p.engines, primaries, h.thunk); }
  }

  lemma BusyEngine(engines: seq<Engine>, primaries: nat, thunk: Thunk)
    requires primaries <= |engines| && AllBusy(engines, primaries, thunk)
    ensures exists e :: e in engines && !e.HasRoom()
  {
    var i :| 0 <= i < |engines| && engines[i].canExecute(thunk) && !engines[i].HasRoom();
    assert engines[i] in engines;
  }

  // h is ready to run, and no engine can execute it.
  ghost predicate Refused(p: Plan, h: Hash) {
    h in Runnable(p.graph) && h.Thk? && forall e | e in p.engines :: !e.canExecute(h.thunk)
  }

  // Engines keep their abilities and limits.
  ghost predicate SameEngines(before: seq<Engine>, after: seq<Engine>) {
    && |after| == |before|
    && forall i | 0 <= i < |after| :: after[i].canExecute == before[i].canExecute &&
        after[i].maxJobs == before[i].maxJobs
  }

  lemma SameEnginesAlways(engines: seq<Engine>)
    ensures SameEngines(engines, engines)
  {
  }

  lemma ReturnedSame(engines: seq<Engine>, i: nat, h: Hash)
    requires i < |engines| && engines[i].jobCount > 0
    ensures SameEngines(engines, engines[i := Returned(engines[i], h)])
  {
  }

  // Every target's answer is the value eager evaluation gives it.
  ghost predicate Correct(run: Oracle, targets: seq<Hash>, hashes: seq<Hash>) {
    && |hashes| == |targets|
    && forall i | 0 <= i < |targets| :: RightAnswer(run, targets[i], hashes[i])
  }

  ghost predicate RightAnswer(run: Oracle, target: Hash, answer: Hash) {
    answer.Value? && MeaningOf(run)(Untagged(target)) == Some(answer.id)
  }

  // ---------------------------------------------------------------- bookkeeping of the run

  lemma HasResult(run: Oracle, p: Plan, h: Hash)
    requires CacheSound(run, p.cache) && Untagged(h) in p.cache && Job(run, p.graph, p.cache, h)
    ensures Recorded(run, p.cache, h) && Executed(run, p, h, ReportOf(run, h))
  {
    hide ReportOf;
    assert Recorded(run, p.cache, h);
  }

  lemma StillAccounted(run: Oracle, targets: seq<Hash>, p: Plan, hand: set<Hash>)
    requires InOrder(run, targets, p, hand)
    ensures Accounted(p.engines)
  {
    hide GraphInOrder, CacheSound, JobsKnown, NothingLost, TargetsTracked, Accounted;
  }

  lemma JobInFlight(run: Oracle, targets: seq<Hash>, p: Plan, i: nat, h: Hash)
    requires InOrder(run, targets, p, {}) && i < |p.engines| && h in p.engines[i].jobs
    ensures Job(run, p.graph, p.cache, h) && p.engines[i].jobCount > 0
  {
    hide Job;
    assert InFlight(p.engines, h);
    assert p.engines[i] in p.engines;
  }

  lemma RecordedResult(run: Oracle, p: Plan, p': Plan, h: Hash)
    requires Job(run, p.graph, p.cache, h) && p'.graph == p.graph && p.cache.Keys <= p'.cache.Keys
    requires Recorded(run, p'.cache, h)
    ensures Executed(run, p', h, ReportOf(run, h))
  {
    hide Executes, Converges, ReportOf;
  }

  // The jobs are what h, which is not stored any more, has made runnable; none if h was not stored.
  ghost predicate MadeRunnable(p: Plan, p': Plan, newJobs: seq<Hash>, h: Hash) {
    if h !in p.graph.thunks then newJobs == [] && p'.graph == p.graph
    else
      && h !in p'.graph.thunks
      && (forall x | x in newJobs :: x in Runnable(p'.graph))
      && forall x | x in Runnable(p'.graph) :: x in newJobs || (x in Runnable(p.graph) && x != h)
  }

  // What is new in the queue is behind the rest.
  lemma FinalizedShape(run: Oracle, p: Plan, p': Plan, h: Hash)
    requires Finalized(run, p, p', h)
    ensures p'.running == p.running - {h} && p'.engines == p.engines && p'.cache == p.cache
    ensures p.queue <= p'.queue && MadeRunnable(p, p', p'.queue[|p.queue|..], h)
  {
    hide Runnable, Valid, Executes, Onward, Supplied, Inherited, StaysCompressed, LessWork, OpenOn;
  }

  lemma FinalizedEngines(run: Oracle, p: Plan, p': Plan, h: Hash)
    requires Finalized(run, p, p', h)
    ensures p'.engines == p.engines && p'.cache == p.cache
  {
    hide Forced;
  }

  lemma FinalizedQueue(run: Oracle, p: Plan, p': Plan, h: Hash)
    requires GraphInOrder(run, p) && Finalized(run, p, p', h)
    ensures Work(run, p'.graph) < Work(run, p.graph) || (p'.graph == p.graph && p'.queue == p.queue)
    ensures p'.engines == p.engines
  {
    hide Forced, GraphInOrder, Work;
    FinalizedWork(run, p, p', h);
  }

  lemma RunningJobs(run: Oracle, targets: seq<Hash>, p: Plan)
    requires InOrder(run, targets, p, {})
    ensures forall h | h in p.running :: Job(run, p.graph, p.cache, h)
  {
    hide Job, InFlight;
  }

  lemma AnswerFor(run: Oracle, p: Plan, o: Hash)
    requires Valid(run, p.graph) && CacheSound(run, p.cache) && Answered(run, p, o) && o.Thk?
    ensures Untagged(UpdatedHash(p.graph, o)) in p.cache
    ensures RightAnswer(run, o, p.cache[Untagged(UpdatedHash(p.graph, o))])
  {
    hide Valid, CacheSound;
    AnswerRight(run, p, o);
  }

  lemma IdleHasNoJobs(engines: seq<Engine>)
    requires Accounted(engines) && forall e | e in engines :: e.jobCount == 0
    ensures forall h :: !InFlight(engines, h)
  {
    forall h, i | 0 <= i < |engines| ensures h !in engines[i].jobs { assert engines[i] in engines; }
  }

  // Polling with nothing in flight means that all targets are values, or that an engine takes no jobs at all.
  lemma NoDeadlock(run: Oracle, targets: seq<Hash>, p: Plan)
    requires InOrder(run, targets, p, {}) && forall e | e in p.engines :: e.jobCount == 0
    requires p.queue == [] || exists e :: e in p.engines && !e.HasRoom()
    ensures p.remaining == {} || exists e :: e in p.engines && e.maxJobs == 0
  {
    hide GraphInOrder, CacheSound, JobsKnown, NothingLost, TargetsTracked, Runnable, InFlight;
    if p.remaining != {} { SomethingToDo(run, targets, p); }
    IdleHasNoJobs(p.engines);
    assert p.queue == [] ==> p.remaining == {};
  }

  // What an event does to the plan, unless it ends the run.
  ghost predicate Handled(run: Oracle, p: Plan, p': Plan, event: Event) {
    var i, h := event.engine, event.job;
    if i >= |p.engines| || h !in p.engines[i].jobs then p' == p
    else
      && p.engines[i].jobCount > 0
      && var back := p.(engines := p.engines[i := Returned(p.engines[i], h)]);
      match event.what
      case Written => Recorded(run, p'.cache, h) && p' == p.(cache := p'.cache)
      case Done => Recorded(run, p'.cache, h) && Finalized(run, back.(cache := p'.cache), p', h)
      case Retry => p' == back.(queue := p.queue + [h])
      case Fatal => false
  }

  lemma HandledNothing(run: Oracle, p: Plan, event: Event)
    requires event.engine >= |p.engines| || event.job !in p.engines[event.engine].jobs
    ensures Handled(run, p, p, event)
  {
  }

  lemma HandledWritten(run: Oracle, p: Plan, p': Plan, event: Event)
    requires event.engine < |p.engines| && p.engines[event.engine].jobCount > 0 && event.what.Written?
    requires Recorded(run, p'.cache, event.job) && p' == p.(cache := p'.cache)
    ensures Handled(run, p, p', event) || event.job !in p.engines[event.engine].jobs
  {
    hide Recorded, Finalized;
  }

  lemma HandledDone(run: Oracle, p: Plan, back: Plan, p': Plan, event: Event)
    requires event.engine < |p.engines| && p.engines[event.engine].jobCount > 0
    requires event.job in p.engines[event.engine].jobs && event.what.Done?
    requires back == p.(engines := p.engines[event.engine := Returned(p.engines[event.engine], event.job)])
    requires Recorded(run, p'.cache, event.job) && Finalized(run, back.(cache := p'.cache), p', event.job)
    ensures Handled(run, p, p', event)
  {
    hide Recorded, Finalized;
  }

  lemma HandledRetry(run: Oracle, p: Plan, p': Plan, event: Event)
    requires event.engine < |p.engines| && p.engines[event.engine].jobCount > 0
    requires event.job in p.engines[event.engine].jobs && event.what.Retry?
    requires p' == p.(engines := p.engines[event.engine := Returned(p.engines[event.engine], event.job)],
               queue := p.queue + [event.job])
    ensures Handled(run, p, p', event)
  {
    hide Recorded, Finalized;
  }

  // Nothing can happen to a job when there is none.
  lemma IdleHandles(run: Oracle, targets: seq<Hash>, p: Plan, event: Event)
    requires InOrder(run, targets, p, {})
    ensures (forall e | e in p.engines :: e.jobCount == 0) ==>
              event.engine >= |p.engines| || event.job !in p.engines[event.engine].jobs
  {
    hide GraphInOrder, CacheSound, JobsKnown, NothingLost, TargetsTracked;
    assert event.engine < |p.engines| ==> p.engines[event.engine] in p.engines;
  }

  lemma IdleUnchanged(run: Oracle, p: Plan, p': Plan, event: Event)
    requires Handled(run, p, p', event)
    ensures event.engine >= |p.engines| || event.job !in p.engines[event.engine].jobs ==> p' == p
  {
    hide Recorded, Finalized;
  }

  // ---------------------------------------------------------------- what a run has been through

  // One job is taken off the queue: its result is used if there is one, or it is offered to the engines.
  ghost predicate Takes(run: Oracle, primaries: nat, p: Plan, p': Plan, full: bool) {
    && p.queue != []
    && var h, popped := p.queue[0], p.(queue := p.queue[1..]);
       if Untagged(h) in p.cache then !full && Finalized(run, popped, p', h)
       else Offered(popped, p', primaries, h, if full then FullCapacity else Executing)
  }

  // n jobs have been taken off the queue, and none came back for lack of room.
  ghost predicate DrainsIn(run: Oracle, primaries: nat, p: Plan, p': Plan, n: nat)
    decreases n
  {
    if n == 0 then p' == p
    else exists q :: DrainsIn(run, primaries, p, q, n - 1) && Takes(run, primaries, q, p', false)
  }

  // The queue has been worked through until it was empty or a job came back for lack of room.
  ghost predicate Drained(run: Oracle, primaries: nat, p: Plan, p': Plan) {
    exists n: nat, q :: DrainsIn(run, primaries, p, q, n) &&
        (if q.queue == [] then p' == q else Takes(run, primaries, q, p', true))
  }

  // The job at the front of the queue ends the run: nobody can execute it, or its result, which is in the cache,
  // would merge two thunks.
  ghost predicate Stops(run: Oracle, p: Plan, p': Plan, outcome: Outcome) {
    && p.queue != []
    && var h, popped := p.queue[0], p.(queue := p.queue[1..]);
       match outcome
       case NoEngine => Untagged(h) !in p.cache && Refused(p, h) && p' == popped
       case Merged => Untagged(h) in p.cache && Merges(run, p.graph, h) && p' == popped.(running := p.running - {h})
       case _ => false
  }

  // Draining has led to a job that ends the run.
  ghost predicate DrainStopped(run: Oracle, primaries: nat, p: Plan, p': Plan, outcome: Outcome) {
    exists n: nat, q :: DrainsIn(run, primaries, p, q, n) && Stops(run, q, p', outcome)
  }

  // All events have been handled in order.
  ghost predicate Handles(run: Oracle, p: Plan, events: seq<Event>, p': Plan)
    decreases |events|
  {
    if events == [] then p' == p
    else
      var n := |events| - 1;
      exists q :: Handles(run, p, events[..n], q) && Handled(run, q, p', events[n])
  }

  // An event about a job in flight ends the run: the job has failed for good, or its result would merge two thunks.
  ghost predicate HandleStopped(run: Oracle, p: Plan, p': Plan, event: Event, outcome: Outcome) {
    var i, h := event.engine, event.job;
    && i < |p.engines| && h in p.engines[i].jobs && p.engines[i].jobCount > 0
    && var back := p.(engines := p.engines[i := Returned(p.engines[i], h)]);
       match outcome
       case ExecutionFailed => event.what.Fatal? && p' == back
       case Merged => event.what.Done? && Recorded(run, p'.cache, h) && Merges(run, p.graph, h) &&
           p' == back.(cache := p'.cache, running := p.running - {h})
       case _ => false
  }

  // The events before that one have been handled.
  ghost predicate PollStopped(run: Oracle, p: Plan, events: seq<Event>, p': Plan, outcome: Outcome) {
    exists j: nat, q ::
      j < |events| && Handles(run, p, events[..j], q) && HandleStopped(run, q, p', events[j], outcome)
  }

  // The overdue jobs that are running have been queued once more.
  ghost predicate Requeued(p: Plan, expired: set<Hash>, p': Plan) {
    exists again: seq<Hash> ::
      && (forall h :: h in again <==> h in expired * p.running) && |again| == |expired * p.running|
      && p' == p.(queue := p.queue + again)
  }

  // One round has passed, and poll is the plan at which its polling began.
  ghost predicate Passed(run: Oracle, primaries: nat, p: Plan, round: Round, poll: Plan, p': Plan) {
    exists polled ::
      Drained(run, primaries, p, poll) && Handles(run, poll, round.events, polled) &&
          Requeued(polled, round.expired, p')
  }

  // The round has come to an end while draining or, after that, while polling.
  ghost predicate TurnStopped(run: Oracle, primaries: nat, p: Plan, round: Round, p': Plan, outcome: Outcome) {
    || DrainStopped(run, primaries, p, p', outcome)
    || exists poll :: Drained(run, primaries, p, poll) && PollStopped(run, poll, round.events, p', outcome)
  }

  ghost predicate NothingInFlight(engines: seq<Engine>) { forall e | e in engines :: e.jobCount == 0 }

  // After these rounds the run goes on: targets remain, and there was something to poll for.
  ghost predicate GoesOnFrom(polls: seq<Plan>, p: Plan) {
    polls != [] ==> p.remaining != {} && !NothingInFlight(polls[|polls| - 1].engines)
  }

  // The rounds have passed one after the other, each because the run had to go on; polls tells the plan at which
  // each round of polling began.
  ghost predicate Ran(run: Oracle, primaries: nat, p: Plan, rounds: seq<Round>, polls: seq<Plan>, p': Plan)
    decreases |rounds|
  {
    if rounds == [] then polls == [] && p' == p
    else
      && |polls| == |rounds|
      && var n := |rounds| - 1;
         exists q :: Ran(run, primaries, p, rounds[..n], polls[..n], q) && GoesOnFrom(polls[..n], q) &&
             Passed(run, primaries, q, rounds[n], polls[n], p')
  }

  // The rounds told of by polls have passed, and the next one has ended the run.
  ghost predicate RunStopped(run: Oracle, primaries: nat, p: Plan, rounds: seq<Round>, polls: seq<Plan>, p': Plan,
      outcome: Outcome) {
    && |polls| < |rounds|
    && exists q :: Ran(run, primaries, p, rounds[..|polls|], polls, q) && GoesOnFrom(polls, q) &&
           TurnStopped(run, primaries, q, rounds[|polls|], p', outcome)
  }

  // Event j is the first about its job, which is in flight where the event says and in the graph, and is done.
  ghost predicate UsefulAt(p: Plan, events: seq<Event>, j: nat) {
    && j < |events| && events[j].what.Done? && events[j].engine < |p.engines|
    && events[j].job in p.engines[events[j].engine].jobs && events[j].job in p.graph.thunks
    && forall i | 0 <= i < j :: events[i].job != events[j].job
  }

  // Some job in flight that is in the graph is done.
  ghost predicate Useful(p: Plan, events: seq<Event>) { exists j: nat :: UsefulAt(p, events, j) }

  ghost predicate AllUseful(rounds: seq<Round>, polls: seq<Plan>) {
    |polls| == |rounds| && forall i | 0 <= i < |rounds| :: Useful(polls[i], rounds[i].events)
  }

  // How many of the rounds brought a result that the graph still needed.
  ghost function UsefulRounds(rounds: seq<Round>, polls: seq<Plan>): nat
    requires |polls| <= |rounds|
  {
    if polls == [] then 0
    else
      var n := |polls| - 1;
      UsefulRounds(rounds, polls[..n]) + if Useful(polls[n], rounds[n].events) then 1 else 0
  }

  lemma DrainsNone(run: Oracle, primaries: nat, p: Plan)
    ensures DrainsIn(run, primaries, p, p, 0)
  {
  }

  lemma DrainsMore(run: Oracle, primaries: nat, p: Plan, q: Plan, p': Plan, n: nat)
    requires DrainsIn(run, primaries, p, q, n)
    ensures Takes(run, primaries, q, p', false) ==> DrainsIn(run, primaries, p, p', n + 1)
  {
    hide Takes;
  }

  lemma DrainedEmpty(run: Oracle, primaries: nat, p: Plan, p': Plan, n: nat)
    requires DrainsIn(run, primaries, p, p', n) && p'.queue == []
    ensures Drained(run, primaries, p, p')
  {
    hide Takes, DrainsIn;
  }

  lemma DrainedFull(run: Oracle, primaries: nat, p: Plan, q: Plan, p': Plan, n: nat)
    requires DrainsIn(run, primaries, p, q, n) && Takes(run, primaries, q, p', true) && q.queue != []
    ensures Drained(run, primaries, p, p')
  {
    hide Takes, DrainsIn;
  }

  lemma StopsMerging(run: Oracle, p: Plan, p': Plan)
    requires p.queue != [] && Untagged(p.queue[0]) in p.cache && Merges(run, p.graph, p.queue[0])
    requires p' == p.(queue := p.queue[1..], running := p.running - {p.queue[0]})
    ensures Stops(run, p, p', Merged)
  {
    hide Merges;
  }

  lemma StopsRefused(run: Oracle, p: Plan, p': Plan)
    requires p.queue != [] && Untagged(p.queue[0]) !in p.cache && p' == p.(queue := p.queue[1..])
    requires Refused(p', p.queue[0])
    ensures Stops(run, p, p', NoEngine)
  {
  }

  lemma DrainedUpTo(run: Oracle, primaries: nat, p: Plan, q: Plan, p': Plan, outcome: Outcome, n: nat)
    requires DrainsIn(run, primaries, p, q, n) && Stops(run, q, p', outcome)
    ensures DrainStopped(run, primaries, p, p', outcome)
  {
    hide Stops, DrainsIn;
  }

  lemma WhyDrainStopped(run: Oracle, primaries: nat, p: Plan, p': Plan, outcome: Outcome)
    requires DrainStopped(run, primaries, p, p', outcome)
    ensures outcome.NoEngine? || outcome.Merged?
  {
    hide Refused, Merges, DrainsIn;
  }

  lemma HandleMerged(run: Oracle, p: Plan, p': Plan, event: Event)
    requires event.engine < |p.engines| && p.engines[event.engine].jobCount > 0 && event.what.Done?
    requires event.job in p.engines[event.engine].jobs
    requires Recorded(run, p'.cache, event.job) && Merges(run, p.graph, event.job)
    requires p' == p.(engines := p.engines[event.engine := Returned(p.engines[event.engine], event.job)],
               cache := p'.cache, running := p.running - {event.job})
    ensures HandleStopped(run, p, p', event, Merged)
  {
    hide Recorded, Merges, Returned;
  }

  lemma HandleFailed(run: Oracle, p: Plan, p': Plan, event: Event)
    requires event.engine < |p.engines| && p.engines[event.engine].jobCount > 0 && event.what.Fatal?
    requires event.job in p.engines[event.engine].jobs
    requires p' == p.(engines := p.engines[event.engine := Returned(p.engines[event.engine], event.job)])
    ensures HandleStopped(run, p, p', event, ExecutionFailed)
  {
    hide Returned;
  }

  lemma PolledUpTo(run: Oracle, p: Plan, events: seq<Event>, j: nat, q: Plan, p': Plan, outcome: Outcome)
    requires j < |events| && Handles(run, p, events[..j], q) && HandleStopped(run, q, p', events[j], outcome)
    ensures PollStopped(run, p, events, p', outcome)
  {
    hide Handles, HandleStopped;
  }

  lemma WhyPollStopped(run: Oracle, p: Plan, events: seq<Event>, p': Plan, outcome: Outcome)
    requires PollStopped(run, p, events, p', outcome)
    ensures outcome.ExecutionFailed? || outcome.Merged?
  {
    hide Recorded, Merges, Handles, Returned;
  }

  lemma RanUpTo(run: Oracle, primaries: nat, p: Plan, rounds: seq<Round>, polls: seq<Plan>, q: Plan, p': Plan,
      outcome: Outcome)
    requires |polls| < |rounds| && Ran(run, primaries, p, rounds[..|polls|], polls, q) && GoesOnFrom(polls, q)
    requires TurnStopped(run, primaries, q, rounds[|polls|], p', outcome)
    ensures RunStopped(run, primaries, p, rounds, polls, p', outcome)
  {
    hide Ran, TurnStopped, GoesOnFrom;
  }

  lemma TakesResult(run: Oracle, primaries: nat, p: Plan, p': Plan)
    requires p.queue != [] && Untagged(p.queue[0]) in p.cache
    requires Finalized(run, p.(queue := p.queue[1..]), p', p.queue[0])
    ensures Takes(run, primaries, p, p', false)
  {
    hide Finalized;
  }

  lemma TakesOffer(run: Oracle, primaries: nat, p: Plan, p': Plan, state: Dispatch)
    requires p.queue != [] && Untagged(p.queue[0]) !in p.cache && !state.CannotBeExecuted?
    requires Offered(p.(queue := p.queue[1..]), p', primaries, p.queue[0], state)
    ensures Takes(run, primaries, p, p', state.FullCapacity?)
  {
    hide Offered;
  }

  lemma HandlesNothing(run: Oracle, p: Plan, events: seq<Event>)
    ensures Handles(run, p, events[..0], p)
  {
  }

  lemma HandlesMore(run: Oracle, p: Plan, events: seq<Event>, j: nat, q: Plan, p': Plan)
    requires j < |events| && Handles(run, p, events[..j], q) && Handled(run, q, p', events[j])
    ensures Handles(run, p, events[..j + 1], p')
  {
    hide Handled;
    assert events[..j + 1][..j] == events[..j];
  }

  lemma RequeuedAs(p: Plan, expired: set<Hash>, again: seq<Hash>)
    requires (forall h :: h in again <==> h in expired * p.running) && |again| == |expired * p.running|
    ensures Requeued(p, expired, p.(queue := p.queue + again))
  {
  }

  lemma RequeuedGraph(p: Plan, expired: set<Hash>, p': Plan)
    requires Requeued(p, expired, p')
    ensures p'.graph == p.graph && p'.remaining == p.remaining
  {
  }

  lemma RanNothing(run: Oracle, primaries: nat, p: Plan, rounds: seq<Round>)
    ensures Ran(run, primaries, p, rounds[..0], [], p) && UsefulRounds(rounds, []) == 0
  {
  }

  lemma RoundPassed(run: Oracle, primaries: nat, p: Plan, round: Round, poll: Plan, polled: Plan, p': Plan)
    requires Drained(run, primaries, p, poll) && Handles(run, poll, round.events, polled)
    requires Requeued(polled, round.expired, p')
    ensures Passed(run, primaries, p, round, poll, p')
  {
    hide Drained, Handles, Requeued;
  }

  lemma RanRound(run: Oracle, primaries: nat, p: Plan, rounds: seq<Round>, polls: seq<Plan>, q: Plan, poll: Plan,
      p': Plan)
    requires |polls| < |rounds| && Ran(run, primaries, p, rounds[..|polls|], polls, q) && GoesOnFrom(polls, q)
    requires Passed(run, primaries, q, rounds[|polls|], poll, p')
    ensures Ran(run, primaries, p, rounds[..|polls| + 1], polls + [poll], p')
  {
    hide Passed, GoesOnFrom;
    var n := |polls|;
    assert rounds[..n + 1][..n] == rounds[..n] && (polls + [poll])[..n] == polls;
  }

  lemma UsefulRoundsMore(rounds: seq<Round>, polls: seq<Plan>, poll: Plan)
    requires |polls| < |rounds|
    ensures UsefulRounds(rounds, polls + [poll]) ==
              UsefulRounds(rounds, polls) + if Useful(poll, rounds[|polls|].events) then 1 else 0
  {
    hide Useful;
    assert (polls + [poll])[..|polls|] == polls;
  }

  lemma AllUsefulCounted(rounds: seq<Round>, polls: seq<Plan>)
    requires |polls| == |rounds|
    ensures AllUseful(rounds, polls) ==> UsefulRounds(rounds, polls) == |rounds|
  {
    hide AllUseful, UsefulRounds;
    if AllUseful(rounds, polls) { UsefulUpTo(rounds, polls, |polls|); }
    assert polls[..|polls|] == polls;
  }

  lemma {:induction false} UsefulUpTo(rounds: seq<Round>, polls: seq<Plan>, n: nat)
    requires AllUseful(rounds, polls) && n <= |polls|
    ensures UsefulRounds(rounds, polls[..n]) == n
  {
    hide Useful;
    if n > 0 {
      UsefulUpTo(rounds, polls, n - 1);
      assert polls[..n][..n - 1] == polls[..n - 1];
    }
  }

  // No event adds work; one about a job that is in flight and in the graph and is done uses some up. Unless work
  // was used up, the graph is as it was; and all other jobs in flight stay where they are.
  lemma HandledWork(run: Oracle, p: Plan, p': Plan, event: Event)
    requires GraphInOrder(run, p) && Handled(run, p, p', event)
    ensures Work(run, p'.graph) < Work(run, p.graph) || p'.graph == p.graph
    ensures event.what.Done? && event.engine < |p.engines| && event.job in p.engines[event.engine].jobs &&
              event.job in p.graph.thunks ==>
              Work(run, p'.graph) < Work(run, p.graph)
    ensures |p'.engines| == |p.engines|
    ensures forall e, h | 0 <= e < |p.engines| && h != event.job && h in p.engines[e].jobs :: h in p'.engines[e].jobs
  {
    hide Valid, Convergent, AllNeeded, Finalized, Recorded, Work;
    var i, h := event.engine, event.job;
    if i < |p.engines| && h in p.engines[i].jobs && event.what.Done? {
      var back := p.(engines := p.engines[i := Returned(p.engines[i], h)]).(cache := p'.cache);
      SameGraph(run, p, back);
      FinalizedWork(run, back, p', h);
      FinalizedEngines(run, back, p', h);
    }
  }

  // After j events: either work has been used up, or the graph is as it was, every job that none of them was
  // about is where it was, and none of them was useful.
  ghost predicate Advanced(run: Oracle, p: Plan, events: seq<Event>, j: nat, p': Plan)
    requires j <= |events|
  {
    || Work(run, p'.graph) < Work(run, p.graph)
    || (&& p'.graph == p.graph && |p'.engines| == |p.engines|
        && (forall e, h | 0 <= e < |p.engines| && h in p.engines[e].jobs &&
            (forall i | 0 <= i < j :: events[i].job != h) :: h in p'.engines[e].jobs)
        && (forall i: nat | i < j :: !UsefulAt(p, events, i)))
  }

  lemma AdvancedNot(run: Oracle, p: Plan, events: seq<Event>)
    ensures Advanced(run, p, events, 0, p)
  {
  }

  lemma AdvancedMore(run: Oracle, p: Plan, events: seq<Event>, j: nat, q: Plan, p': Plan)
    requires j < |events| && Advanced(run, p, events, j, q) && GraphInOrder(run, q) && Handled(run, q, p', events[j])
    ensures Advanced(run, p, events, j + 1, p')
  {
    hide GraphInOrder, Handled, Work;
    HandledWork(run, q, p', events[j]);
  }

  lemma AdvancedEnd(run: Oracle, p: Plan, events: seq<Event>, p': Plan)
    requires Advanced(run, p, events, |events|, p')
    ensures Work(run, p'.graph) <= Work(run, p.graph)
    ensures Useful(p, events) ==> Work(run, p'.graph) < Work(run, p.graph)
  {
    hide Work;
  }
}
