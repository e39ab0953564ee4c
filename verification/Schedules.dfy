/** What the coordinator keeps track of besides the graph, and what every step of a run keeps. */
module Schedules {
  import opened Options
  import opened Thunks
  import opened Evaluation
  import opened Costs
  import opened Replacement
  import opened Graphs
  import opened Forcing
  import opened Reachability
  import opened Loading
  import opened Demand
  import opened Reduction

  // The reductions directory: one entry per output of an executed thunk, and one for the bare hash.
  type Cache = map<Ref, Hash>

  // An execution engine as the coordinator sees it, and the jobs that are out on it.
  datatype Engine = Engine(canExecute: Thunk -> bool, maxJobs: nat, jobCount: nat, jobs: multiset<Hash>)
  {
    predicate HasRoom() { jobCount < maxJobs }
  }

  datatype Plan = Plan(graph: Graph, remaining: set<Hash>, queue: seq<Hash>, running: set<Hash>,
                       engines: seq<Engine>, cache: Cache)

  // ---------------------------------------------------------------- the cache

  // The result of executing h is in the cache, under all its names.
  ghost predicate Recorded(run: Oracle, cache: Cache, h: Hash) {
    && Executes(run, h)
    && Untagged(h) in cache && cache[Untagged(h)] == run(h.thunk)[0]
    && forall i | 0 <= i < |h.thunk.outputs| ::
         Ref(h, Tag(h.thunk.outputs[i])) in cache && cache[Ref(h, Tag(h.thunk.outputs[i]))] == run(h.thunk)[i]
  }

  // An entry for a bare hash is a promise that all outputs have theirs.
  ghost predicate CacheSound(run: Oracle, cache: Cache) {
    forall h | Untagged(h) in cache :: Recorded(run, cache, h)
  }

  // Writing one more output of h breaks no promise.
  lemma TagInserted(run: Oracle, cache: Cache, h: Hash, i: nat)
    requires CacheSound(run, cache) && Executes(run, h) && i < |h.thunk.outputs|
    ensures CacheSound(run, cache[Ref(h, Tag(h.thunk.outputs[i])) := run(h.thunk)[i]])
  {
    var after := cache[Ref(h, Tag(h.thunk.outputs[i])) := run(h.thunk)[i]];
    forall x | Untagged(x) in after ensures Recorded(run, after, x) {
      assert Recorded(run, cache, x);
    }
  }

  lemma BaseInserted(run: Oracle, cache: Cache, h: Hash)
    requires CacheSound(run, cache) && Executes(run, h)
    requires forall i | 0 <= i < |h.thunk.outputs| ::
               Ref(h, Tag(h.thunk.outputs[i])) in cache && cache[Ref(h, Tag(h.thunk.outputs[i]))] == run(h.thunk)[i]
    ensures CacheSound(run, cache[Untagged(h) := run(h.thunk)[0]])
    ensures Recorded(run, cache[Untagged(h) := run(h.thunk)[0]], h)
  {
    var after := cache[Untagged(h) := run(h.thunk)[0]];
    assert Recorded(run, after, h);
    forall x | Untagged(x) in after ensures Recorded(run, after, x) {
      if x != h { assert Recorded(run, cache, x); }
    }
  }

  // ---------------------------------------------------------------- jobs

  // h is worth executing: it can run and comes to an end, and it is wanted by the graph or already done.
  ghost predicate Job(run: Oracle, g: Graph, cache: Cache, h: Hash) {
    Executes(run, h) && Converges(run, h) && (h in g.thunks || Untagged(h) in cache)
  }

  predicate InFlight(engines: seq<Engine>, h: Hash) { exists i :: 0 <= i < |engines| && h in engines[i].jobs }

  ghost predicate JobsKnown(run: Oracle, p: Plan) {
    forall h | h in p.queue || h in p.running || InFlight(p.engines, h) :: Job(run, p.graph, p.cache, h)
  }

  // No work is lost: what can run is queued or in flight, apart from what is being handled right now.
  ghost predicate NothingLost(p: Plan, hand: set<Hash>) {
    forall k | k in Runnable(p.graph) && k !in hand :: k in p.queue || InFlight(p.engines, k)
  }

  // No engine has more jobs than it may, and it counts the ones it has.
  ghost predicate Accounted(engines: seq<Engine>) {
    forall e | e in engines :: e.jobCount == |e.jobs| <= e.maxJobs
  }

  // ---------------------------------------------------------------- targets

  // The chain of o has reached a value, which the cache knows.
  ghost predicate Answered(run: Oracle, p: Plan, o: Hash) {
    var u := UpdatedHash(p.graph, o);
    Untagged(u) in p.cache && u.Thk? && run(u.thunk) != [] && run(u.thunk)[0].Value?
  }

  // An open target's chain is alive for the first time; a chain may come to life again after its end.
  ghost predicate TargetsTracked(run: Oracle, targets: seq<Hash>, p: Plan) {
    && (forall o | o in p.remaining :: o in targets && Open(p.graph, o))
    && (forall o | o in targets :: Going(run, p.graph, o) || Answered(run, p, o))
  }

  ghost predicate GraphInOrder(run: Oracle, p: Plan) {
    Valid(run, p.graph) && Convergent(run, p.graph) && AllNeeded(p.graph, p.remaining)
  }

  // What holds between any two steps of a run, while the thunks in hand are being handled.
  ghost predicate InOrder(run: Oracle, targets: seq<Hash>, p: Plan, hand: set<Hash>) {
    && GraphInOrder(run, p) && CacheSound(run, p.cache)
    && JobsKnown(run, p) && NothingLost(p, hand) && Accounted(p.engines)
    && TargetsTracked(run, targets, p)
  }

  ghost function Work(run: Oracle, g: Graph): nat { if Measurable(run, g) then Measure(run, g) else 0 }

  // ---------------------------------------------------------------- steps that leave the graph alone

  lemma Taken(run: Oracle, targets: seq<Hash>, p: Plan)
    requires InOrder(run, targets, p, {}) && p.queue != []
    ensures InOrder(run, targets, p.(queue := p.queue[1..]), {p.queue[0]})
    ensures Job(run, p.graph, p.cache, p.queue[0])
  {
    hide GraphInOrder, CacheSound, Accounted, Job, Going, Open, InFlight, Runnable;
    var p' := p.(queue := p.queue[1..]);
    assert p.queue == [p.queue[0]] + p'.queue;
    assert GraphInOrder(run, p') by { SameGraph(run, p, p'); }
    assert TargetsTracked(run, targets, p') by { SameTargets(run, targets, p, p'); }
  }

  lemma SameGraph(run: Oracle, p: Plan, p': Plan)
    requires GraphInOrder(run, p) && p'.graph == p.graph && p'.remaining == p.remaining
    ensures GraphInOrder(run, p')
  {
  }

  lemma SameTargets(run: Oracle, targets: seq<Hash>, p: Plan, p': Plan)
    requires TargetsTracked(run, targets, p) && p'.graph == p.graph && p'.remaining == p.remaining
    requires p.cache.Keys <= p'.cache.Keys
    ensures TargetsTracked(run, targets, p')
  {
    hide Going, Open;
    forall o | o in targets ensures Going(run, p'.graph, o) || Answered(run, p', o) {
      assert Answered(run, p, o) ==> Answered(run, p', o);
    }
  }

  // Jobs are put into the queue, or put back.
  lemma Queued(run: Oracle, targets: seq<Hash>, p: Plan, queue: seq<Hash>, hand: set<Hash>)
    requires InOrder(run, targets, p, hand)
    requires forall h | h in queue :: h in p.queue || Job(run, p.graph, p.cache, h)
    requires forall h | h in p.queue || h in hand :: h in queue
    ensures InOrder(run, targets, p.(queue := queue), {})
  {
    hide GraphInOrder, CacheSound, Accounted, Job, Going, Open, InFlight, Runnable;
    var p' := p.(queue := queue);
    assert GraphInOrder(run, p') by { SameGraph(run, p, p'); }
    assert TargetsTracked(run, targets, p') by { SameTargets(run, targets, p, p'); }
  }

  // The engine's view after a job was sent out, or came back.
  function Sent(e: Engine, h: Hash): Engine { e.(jobCount := e.jobCount + 1, jobs := e.jobs + multiset{h}) }

  function Returned(e: Engine, h: Hash): Engine
    requires e.jobCount > 0
  {
    e.(jobCount := e.jobCount - 1, jobs := e.jobs - multiset{h})
  }

  lemma SentFlying(engines: seq<Engine>, i: nat, h: Hash, k: Hash)
    requires i < |engines|
    ensures InFlight(engines[i := Sent(engines[i], h)], k) <==> k == h || InFlight(engines, k)
  {
    var after := engines[i := Sent(engines[i], h)];
    if InFlight(after, k) && k != h {
      var j :| 0 <= j < |after| && k in after[j].jobs;
      assert k in engines[j].jobs;
    }
    if InFlight(engines, k) {
      var j :| 0 <= j < |engines| && k in engines[j].jobs;
      assert k in after[j].jobs;
    }
    assert h in after[i].jobs;
  }

  lemma ReturnedFlying(engines: seq<Engine>, i: nat, h: Hash, k: Hash)
    requires i < |engines| && engines[i].jobCount > 0
    ensures InFlight(engines[i := Returned(engines[i], h)], k) ==> InFlight(engines, k)
    ensures k != h && InFlight(engines, k) ==> InFlight(engines[i := Returned(engines[i], h)], k)
  {
    var after := engines[i := Returned(engines[i], h)];
    if InFlight(after, k) {
      var j :| 0 <= j < |after| && k in after[j].jobs;
      assert k in engines[j].jobs;
    }
    if k != h && InFlight(engines, k) {
      var j :| 0 <= j < |engines| && k in engines[j].jobs;
      assert k in after[j].jobs;
    }
  }

  lemma Dispatched(run: Oracle, targets: seq<Hash>, p: Plan, i: nat, h: Hash)
    requires InOrder(run, targets, p, {h}) && Job(run, p.graph, p.cache, h)
    requires i < |p.engines| && p.engines[i].HasRoom()
    ensures InOrder(run, targets, p.(engines := p.engines[i := Sent(p.engines[i], h)], running := p.running + {h}), {})
  {
    hide GraphInOrder, CacheSound, Job, Going, Open, InFlight, Runnable;
    var p' := p.(engines := p.engines[i := Sent(p.engines[i], h)], running := p.running + {h});
    assert GraphInOrder(run, p') by { SameGraph(run, p, p'); }
    assert TargetsTracked(run, targets, p') by { SameTargets(run, targets, p, p'); }
    forall k ensures InFlight(p'.engines, k) <==> k == h || InFlight(p.engines, k) { SentFlying(p.engines, i, h, k); }
    forall e | e in p'.engines ensures e.jobCount == |e.jobs| <= e.maxJobs {
      assert e in p.engines || e == Sent(p.engines[i], h);
      assert p.engines[i] in p.engines;
    }
  }

  lemma CameBack(run: Oracle, targets: seq<Hash>, p: Plan, i: nat, h: Hash)
    requires InOrder(run, targets, p, {}) && i < |p.engines| && h in p.engines[i].jobs
    ensures p.engines[i].jobCount > 0 && Job(run, p.graph, p.cache, h)
    ensures InOrder(run, targets, p.(engines := p.engines[i := Returned(p.engines[i], h)]), {h})
  {
    hide GraphInOrder, CacheSound, Job, Going, Open, Runnable;
    assert p.engines[i] in p.engines && InFlight(p.engines, h);
    var p' := p.(engines := p.engines[i := Returned(p.engines[i], h)]);
    assert GraphInOrder(run, p') by { SameGraph(run, p, p'); }
    assert TargetsTracked(run, targets, p') by { SameTargets(run, targets, p, p'); }
    forall k
      ensures InFlight(p'.engines, k) ==> InFlight(p.engines, k)
      ensures k != h && InFlight(p.engines, k) ==> InFlight(p'.engines, k) {
      ReturnedFlying(p.engines, i, h, k);
    }
    forall e | e in p'.engines ensures e.jobCount == |e.jobs| <= e.maxJobs {
      assert e in p.engines || e == Returned(p.engines[i], h);
    }
  }

  lemma CacheWritten(run: Oracle, targets: seq<Hash>, p: Plan, cache: Cache, hand: set<Hash>)
    requires InOrder(run, targets, p, hand) && CacheSound(run, cache) && p.cache.Keys <= cache.Keys
    ensures InOrder(run, targets, p.(cache := cache), hand)
  {
    hide GraphInOrder, CacheSound, Accounted, Going, Open, InFlight, Runnable, Executes;
    var p' := p.(cache := cache);
    assert GraphInOrder(run, p') by { SameGraph(run, p, p'); }
    assert TargetsTracked(run, targets, p') by { SameTargets(run, targets, p, p'); }
    forall h | h in p'.queue || h in p'.running || InFlight(p'.engines, h) ensures Job(run, p'.graph, p'.cache, h) {
      assert Job(run, p.graph, p.cache, h);
    }
  }

  // ---------------------------------------------------------------- reducing a job

  // A job that is stored can run there.
  lemma JobRunnable(run: Oracle, p: Plan, h: Hash)
    requires GraphInOrder(run, p) && Job(run, p.graph, p.cache, h) && h in p.graph.thunks
    ensures h in Runnable(p.graph) && h == Thk(p.graph.thunks[h])
  {
    hide AllNeeded, Closed, Indexed, Chains, Convergent, Converges, Orderly, StandsIn, WellFormed, TidyThunk;
    assert Stored(run, h, p.graph.thunks[h]);
  }

  // A duplicate: the graph has moved on, and nothing changes.
  lemma AlreadyDone(run: Oracle, targets: seq<Hash>, p: Plan, h: Hash)
    requires InOrder(run, targets, p, {h}) && h !in p.graph.thunks
    ensures InOrder(run, targets, p.(running := p.running - {h}), {})
  {
    hide GraphInOrder, CacheSound, Accounted, Job, Going, Open, InFlight;
    var p' := p.(running := p.running - {h});
    assert GraphInOrder(run, p') by { SameGraph(run, p, p'); }
    assert TargetsTracked(run, targets, p') by { SameTargets(run, targets, p, p'); }
  }

  // The plan after h was forced: g' is the new graph, fresh the newly runnable thunks.
  function Progressed(run: Oracle, p: Plan, g': Graph, h: Hash, newJobs: seq<Hash>): Plan
    requires h.Thk? && run(h.thunk) != []
  {
    p.(graph := g', queue := p.queue + newJobs, running := p.running - {h},
       remaining := if run(h.thunk)[0].Value? then p.remaining - {OriginalHash(g', h)} else p.remaining)
  }

  lemma ForcedParts(run: Oracle, g: Graph, g': Graph, h: Hash, ready: set<Hash>)
    requires Forced(run, g, g', h, ready) && Valid(run, g) && Convergent(run, g)
    ensures h.Thk? && run(h.thunk) != [] && Executes(run, h) && Valid(run, g') && h !in g'.thunks
    ensures Runnable(g') == Runnable(g) - {h} + ready && Convergent(run, g')
    ensures OpenOn(g, g', h, run(h.thunk)[0].Value?) && Onward(run, g, g', h, run(h.thunk)[0].Value?)
    ensures Supplied(g, g')
    ensures run(h.thunk)[0].Value? ==> OriginalHash(g', h) == OriginalHash(g, h)
    ensures Measurable(run, g) && Measurable(run, g') && Measure(run, g') < Measure(run, g)
  {
    hide OpenOn, Onward, Supplied, Measure, Measurable, Convergent, Runnable, Inherited;
    hide StaysCompressed;
    ConsistentParts(run, g, {});
  }

  lemma JobStays(run: Oracle, p: Plan, g': Graph, h: Hash, ready: set<Hash>, j: Hash)
    requires GraphInOrder(run, p) && Forced(run, p.graph, g', h, ready) && Untagged(h) in p.cache
    requires Job(run, p.graph, p.cache, j)
    ensures Job(run, g', p.cache, j)
  {
    hide Valid, Forced, Convergent, AllNeeded, Executes;
    ForcedParts(run, p.graph, g', h, ready);
    if j in p.graph.thunks && j != h {
      JobRunnable(run, p, j);
      assert j in Runnable(g');
    }
  }

  // Whatever can run in the graph is worth executing.
  lemma RunnableJob(run: Oracle, g: Graph, cache: Cache, j: Hash)
    requires WellBehaved(run) && Valid(run, g) && Convergent(run, g) && j in Runnable(g)
    ensures Job(run, g, cache, j)
  {
    hide Chains, Closed, Indexed, WellBehaved, Executes, Sane, Keyed, Converges;
    RunnableExecutes(run, g, j);
  }

  lemma ReadyJob(run: Oracle, p: Plan, g': Graph, h: Hash, ready: set<Hash>, j: Hash)
    requires WellBehaved(run) && GraphInOrder(run, p) && Forced(run, p.graph, g', h, ready) && j in ready
    ensures Job(run, g', p.cache, j)
  {
    hide Forced, AllNeeded, Executes, Valid, Convergent, WellBehaved;
    ForcedParts(run, p.graph, g', h, ready);
    RunnableJob(run, g', p.cache, j);
  }

  lemma ForcedJobs(run: Oracle, p: Plan, g': Graph, h: Hash, ready: set<Hash>, newJobs: seq<Hash>)
    requires WellBehaved(run) && GraphInOrder(run, p) && Forced(run, p.graph, g', h, ready) && Untagged(h) in p.cache
    requires JobsKnown(run, p) && forall j :: j in newJobs <==> j in ready
    ensures h.Thk? && run(h.thunk) != [] && JobsKnown(run, Progressed(run, p, g', h, newJobs))
  {
    hide GraphInOrder, Forced, Job, InFlight, WellBehaved;
    ForcedExecutes(run, p.graph, g', h, ready);
    var p' := Progressed(run, p, g', h, newJobs);
    forall j | j in p'.queue || j in p'.running || InFlight(p'.engines, j) ensures Job(run, p'.graph, p'.cache, j) {
      if j in ready { ReadyJob(run, p, g', h, ready, j); } else { JobStays(run, p, g', h, ready, j); }
    }
  }

  lemma ForcedExecutes(run: Oracle, g: Graph, g': Graph, h: Hash, ready: set<Hash>)
    requires Forced(run, g, g', h, ready)
    ensures h.Thk? && run(h.thunk) != []
  {
  }

  lemma ForcedNothingLost(run: Oracle, p: Plan, g': Graph, h: Hash, ready: set<Hash>, newJobs: seq<Hash>)
    requires GraphInOrder(run, p) && Forced(run, p.graph, g', h, ready)
    requires NothingLost(p, {h}) && forall j :: j in newJobs <==> j in ready
    ensures h.Thk? && run(h.thunk) != [] && NothingLost(Progressed(run, p, g', h, newJobs), {})
  {
    hide Forced, AllNeeded, Valid, Convergent, Runnable, InFlight;
    ForcedParts(run, p.graph, g', h, ready);
  }

  lemma TargetMoves(run: Oracle, p: Plan, g': Graph, h: Hash, ready: set<Hash>, newJobs: seq<Hash>, o: Hash)
    requires GraphInOrder(run, p) && Forced(run, p.graph, g', h, ready) && Untagged(h) in p.cache
    requires Going(run, p.graph, o) || Answered(run, p, o)
    ensures h.Thk? && run(h.thunk) != []
    ensures Going(run, g', o) || Answered(run, Progressed(run, p, g', h, newJobs), o)
  {
    hide Forced, AllNeeded, Valid, Convergent, Going, Supplied, Executes, OpenOn;
    ForcedParts(run, p.graph, g', h, ready);
    assert GoesOnward(run, p.graph, g', h, run(h.thunk)[0].Value?, o);
  }

  // Of the targets still open, only the one whose chain has just ended is struck off.
  lemma StaysOpen(run: Oracle, p: Plan, g': Graph, h: Hash, ready: set<Hash>, o: Hash)
    requires GraphInOrder(run, p) && Forced(run, p.graph, g', h, ready) && Open(p.graph, o) && h in p.graph.thunks
    ensures h.Thk? && run(h.thunk) != []
    ensures !(run(h.thunk)[0].Value? && o == OriginalHash(g', h)) ==> Open(g', o)
  {
    hide Forced, AllNeeded, Valid, Convergent, Open, Supplied, Executes, Onward, UpdatedHash, OriginalHash;
    ForcedParts(run, p.graph, g', h, ready);
    OwnChainIff(p.graph, h, o);
    assert OpenAfter(p.graph, g', h, run(h.thunk)[0].Value?, o);
  }

  // A target that is struck off has just ended.
  lemma StruckOff(run: Oracle, g: Graph, g': Graph, h: Hash, ready: set<Hash>, o: Hash)
    requires Valid(run, g) && Convergent(run, g) && Forced(run, g, g', h, ready) && h in g.thunks
    requires run(h.thunk)[0].Value? && o == OriginalHash(g', h) && Open(g, o)
    ensures !Open(g', o)
  {
    hide Forced, Valid, Convergent, Supplied, Executes, Onward, UpdatedHash, OriginalHash, Sole;
    ForcedParts(run, g, g', h, ready);
    OwnChainIff(g, h, o);
    assert OpenAfter(g, g', h, true, o);
  }

  // An open target is struck off exactly when its own chain has just reached a value.
  lemma StruckOffIff(run: Oracle, targets: seq<Hash>, p: Plan, g': Graph, h: Hash, ready: set<Hash>,
      newJobs: seq<Hash>, o: Hash)
    requires GraphInOrder(run, p) && Forced(run, p.graph, g', h, ready) && h in p.graph.thunks
    requires TargetsTracked(run, targets, p) && o in p.remaining
    ensures h.Thk? && run(h.thunk) != []
    ensures o !in Progressed(run, p, g', h, newJobs).remaining <==>
              run(h.thunk)[0].Value? && UpdatedHash(p.graph, o) == h
  {
    hide Forced, Valid, AllNeeded, Convergent, Supplied, Executes, Onward, OpenOn, Answered, Open, OriginalHash;
    hide UpdatedHash;
    InOrderValid(run, p);
    ForcedParts(run, p.graph, g', h, ready);
    OwnChainIff(p.graph, h, o);
  }

  // A stored thunk belongs to an open chain exactly when it is its tip.
  lemma OwnChainIff(g: Graph, h: Hash, o: Hash)
    requires h in g.thunks && Open(g, o)
    ensures OriginalHash(g, h) == o <==> UpdatedHash(g, o) == h
  {
  }

  lemma ForcedTargets(run: Oracle, targets: seq<Hash>, p: Plan, g': Graph, h: Hash, ready: set<Hash>,
      newJobs: seq<Hash>)
    requires GraphInOrder(run, p) && Forced(run, p.graph, g', h, ready) && Untagged(h) in p.cache
    requires TargetsTracked(run, targets, p) && h in p.graph.thunks
    ensures h.Thk? && run(h.thunk) != [] && TargetsTracked(run, targets, Progressed(run, p, g', h, newJobs))
  {
    hide GraphInOrder, Forced, Going, Open, Answered;
    ForcedExecutes(run, p.graph, g', h, ready);
    var p' := Progressed(run, p, g', h, newJobs);
    forall o | o in p'.remaining ensures o in targets && Open(g', o) { StaysOpen(run, p, g', h, ready, o); }
    forall o | o in targets ensures Going(run, g', o) || Answered(run, p', o) {
      TargetMoves(run, p, g', h, ready, newJobs, o);
    }
  }

  lemma StillNeeded(run: Oracle, targets: seq<Hash>, p: Plan, g': Graph, h: Hash, ready: set<Hash>, k: Hash)
    requires GraphInOrder(run, p) && Forced(run, p.graph, g', h, ready) && h in p.graph.thunks
    requires TargetsTracked(run, targets, p) && AllNeeded(g', p.remaining) && k in g'.thunks
    ensures h.Thk? && run(h.thunk) != []
    ensures Needed(g', Progressed(run, p, g', h, []).remaining, k)
  {
    hide GraphInOrder, Forced, Open, Going, Reach, Answered;
    ForcedExecutes(run, p.graph, g', h, ready);
    assert Needed(g', p.remaining, k);
    var o :| o in p.remaining && Open(g', o) && Reach(g'.thunks, UpdatedHash(g', o), k);
    if run(h.thunk)[0].Value? && o == OriginalHash(g', h) {
      InOrderValid(run, p);
      StruckOff(run, p.graph, g', h, ready, o);
    }
  }

  lemma InOrderValid(run: Oracle, p: Plan)
    requires GraphInOrder(run, p)
    ensures Valid(run, p.graph) && Convergent(run, p.graph) && AllNeeded(p.graph, p.remaining)
  {
  }

  lemma ForcedGraph(run: Oracle, targets: seq<Hash>, p: Plan, g': Graph, h: Hash, ready: set<Hash>, newJobs: seq<Hash>)
    requires GraphInOrder(run, p) && Forced(run, p.graph, g', h, ready) && h in p.graph.thunks
    requires TargetsTracked(run, targets, p)
    ensures h.Thk? && run(h.thunk) != [] && GraphInOrder(run, Progressed(run, p, g', h, newJobs))
  {
    hide Forced, Valid, Convergent, Needed, TargetsTracked;
    ForcedParts(run, p.graph, g', h, ready);
    assert AllNeeded(g', p.remaining);
    forall k | k in g'.thunks ensures Needed(g', Progressed(run, p, g', h, newJobs).remaining, k) {
      StillNeeded(run, targets, p, g', h, ready, k);
    }
  }

  // The main step of a run: a job that is stored has been executed and the graph has moved on.
  lemma MovedOn(run: Oracle, targets: seq<Hash>, p: Plan, g': Graph, h: Hash, ready: set<Hash>, newJobs: seq<Hash>)
    requires WellBehaved(run) && InOrder(run, targets, p, {h}) && Untagged(h) in p.cache && h in p.graph.thunks
    requires Forced(run, p.graph, g', h, ready) && forall j :: j in newJobs <==> j in ready
    ensures h.Thk? && run(h.thunk) != [] && InOrder(run, targets, Progressed(run, p, g', h, newJobs), {})
    ensures Work(run, g') < Work(run, p.graph)
  {
    hide WellBehaved, GraphInOrder, CacheSound, JobsKnown, NothingLost, Accounted, TargetsTracked, Forced, Measure;
    hide Measurable;
    hide Executes, Valid, AllNeeded, Convergent, Onward, Supplied, OpenOn, Runnable;
    ForcedJobs(run, p, g', h, ready, newJobs);
    ForcedNothingLost(run, p, g', h, ready, newJobs);
    ForcedTargets(run, targets, p, g', h, ready, newJobs);
    ForcedGraph(run, targets, p, g', h, ready, newJobs);
    InOrderValid(run, p);
    ForcedParts(run, p.graph, g', h, ready);
  }

  // What finalize_execution does: nothing if h is not in the graph any more; otherwise the graph moves on.
  ghost predicate Finalized(run: Oracle, p: Plan, p': Plan, h: Hash) {
    if h !in p.graph.thunks then p' == p.(running := p.running - {h})
    else exists ready, newJobs ::
      && Forced(run, p.graph, p'.graph, h, ready) && (forall x :: x in newJobs <==> x in ready)
      && h.Thk? && run(h.thunk) != [] && p' == Progressed(run, p, p'.graph, h, newJobs)
  }

  // The result of executing h is at hand, in the cache and as reported.
  ghost predicate Executed(run: Oracle, p: Plan, h: Hash, outputs: seq<Output>) {
    Job(run, p.graph, p.cache, h) && Untagged(h) in p.cache && outputs == ReportOf(run, h)
  }

  // h is stored, and reducing it next would merge two thunks: the thunk it returned or a new name is stored already
  // or has become something that is, two new names are equal, or the returned thunk cannot be loaded as it is.
  ghost predicate Merges(run: Oracle, g: Graph, h: Hash) {
    && h in g.thunks && h in g.referencing && Executes(run, h)
    && var next := run(h.thunk)[0];
       if next.Thk? then next in g.thunks || (next in g.updated && g.updated[next] in g.thunks) || !Loadable(g, next)
       else exists r :: r in ReadyAfter(run, g, h) && NameTaken(run, g, h, r)
  }

  // The name r gets when h is reduced is that of a stored thunk, or of one that has become a stored thunk that goes
  // on, or somebody else gets it, too.
  ghost predicate NameTaken(run: Oracle, g: Graph, h: Hash, r: Hash)
    requires Executes(run, h) && h in g.referencing && r in ReadyAfter(run, g, h)
  {
    var x := NameAfter(run, g, h, r);
    || x in g.thunks
    || (x in g.updated && g.updated[x] in g.thunks && !DeadEnd(run, g.updated[x]))
    || exists s :: s in ReadyAfter(run, g, h) && s != r && NameAfter(run, g, h, s) == x
  }

  lemma MergeFound(run: Oracle, g: Graph, h: Hash)
    requires h in g.thunks && h in g.referencing && Executes(run, h)
    ensures Merges(run, g, h) <==> !MergeFree(run, g, h)
  {
    hide TidyThunk, WellFormed, NameAfter, Relinked, Loadable, DeadEnd;
    var ready := ReadyAfter(run, g, h);
    if run(h.thunk)[0].Value? {
      forall r | r in ready ensures NameTaken(run, g, h, r) ==> !MergeFree(run, g, h) {
        if exists s :: s in ready && s != r && NameAfter(run, g, h, s) == NameAfter(run, g, h, r) {
          var s :| s in ready && s != r && NameAfter(run, g, h, s) == NameAfter(run, g, h, r);
          assert !MergeFree(run, g, h);
        }
      }
      if !MergeFree(run, g, h) {
        if r :| r in ready && !Fresh(run, g, NameAfter(run, g, h, r)) {
          assert NameTaken(run, g, h, r);
        } else {
          var r, s :| r in ready && s in ready && r != s && NameAfter(run, g, h, r) == NameAfter(run, g, h, s);
          assert NameTaken(run, g, h, r);
        }
      }
    }
  }

  // A reduction uses up work; anything else uses none.
  lemma FinalizedWork(run: Oracle, p: Plan, p': Plan, h: Hash)
    requires GraphInOrder(run, p) && Finalized(run, p, p', h)
    ensures if h in p.graph.thunks then Work(run, p'.graph) < Work(run, p.graph) else p'.graph == p.graph
  {
    hide Forced, Valid, Convergent, AllNeeded, Measure, Measurable;
    if h in p.graph.thunks {
      var ready: set<Hash> :| Forced(run, p.graph, p'.graph, h, ready);
      ForcedParts(run, p.graph, p'.graph, h, ready);
    }
  }

  lemma FinalizedNothing(run: Oracle, p: Plan, h: Hash)
    requires h !in p.graph.thunks
    ensures Finalized(run, p, p.(running := p.running - {h}), h)
  {
  }

  lemma FinalizedSomething(run: Oracle, p: Plan, g': Graph, h: Hash, ready: set<Hash>, newJobs: seq<Hash>)
    requires h in p.graph.thunks && Forced(run, p.graph, g', h, ready) && (forall x :: x in newJobs <==> x in ready)
    ensures h.Thk? && run(h.thunk) != []
    ensures Finalized(run, p, Progressed(run, p, g', h, newJobs), h)
  {
    hide Forced, Progressed;
    ForcedExecutes(run, p.graph, g', h, ready);
    ProgressedGraph(run, p, g', h, newJobs);
  }

  lemma ProgressedGraph(run: Oracle, p: Plan, g': Graph, h: Hash, newJobs: seq<Hash>)
    requires h.Thk? && run(h.thunk) != []
    ensures Progressed(run, p, g', h, newJobs).graph == g'
  {
  }

  // ---------------------------------------------------------------- while targets remain there is work

  // Every stored thunk leads to one that can run.
  lemma {:induction false} LeadsToRunnable(run: Oracle, g: Graph, k: Hash) returns (r: Hash)
    requires Valid(run, g) && Convergent(run, g) && k in g.thunks && Converges(run, Thk(g.thunks[k]))
    ensures r in Runnable(g) && Reach(g.thunks, k, r)
    decreases Own(run, g.thunks[k])
  {
    hide Own, Deps, Reach, Chains, Keyed, Indexed, Converges, WellFormed, StandsIn;
    assert Stored(run, k, g.thunks[k]);
    RunnableDeps(g.thunks[k]);
    if g.thunks[k].CanBeExecuted() {
      r := k;
      ReachSelf(g.thunks, k);
    } else {
      var d :| d in Deps(g.thunks[k]);
      OwnDecreases(run, g, k, d);
      r := LeadsToRunnable(run, g, d);
      ReachStep(g.thunks, k, d, r);
    }
  }

  // No deadlock: if a target remains, some job is queued or in flight.
  lemma SomethingToDo(run: Oracle, targets: seq<Hash>, p: Plan)
    requires InOrder(run, targets, p, {}) && p.remaining != {}
    ensures exists h :: h in Runnable(p.graph) && (h in p.queue || InFlight(p.engines, h))
  {
    hide CacheSound, JobsKnown, Accounted, InFlight, Consistent, AllNeeded, Answered, Runnable, Reach, Convergent;
    var o :| o in p.remaining;
    var tip := UpdatedHash(p.graph, o);
    ConsistentParts(run, p.graph, {});
    StoredConverges(run, p.graph, tip);
    var r := LeadsToRunnable(run, p.graph, tip);
  }

  // ---------------------------------------------------------------- when no target remains, all answers are there

  lemma NothingStored(run: Oracle, targets: seq<Hash>, p: Plan)
    requires InOrder(run, targets, p, {}) && p.remaining == {}
    ensures p.graph.thunks == map[]
    ensures forall o | o in targets :: Answered(run, p, o)
  {
    hide CacheSound, JobsKnown, Accounted, NothingLost, Consistent, Convergent, Answered, Reach;
    forall k ensures k !in p.graph.thunks { assert k in p.graph.thunks ==> Needed(p.graph, {}, k); }
    assert p.graph.thunks == map[];
  }

  // The answer read from the cache is the value eager evaluation gives the target.
  lemma AnswerRight(run: Oracle, p: Plan, o: Hash)
    requires Valid(run, p.graph) && CacheSound(run, p.cache) && Answered(run, p, o) && o.Thk?
    ensures var v := p.cache[Untagged(UpdatedHash(p.graph, o))];
            v.Value? && MeaningOf(run)(Untagged(o)) == Some(v.id)
  {
    hide Closed, Indexed, Sane, Keyed, Ends, Leads, Settled, GoesOn, WellFormed;
    var u := UpdatedHash(p.graph, o);
    StandsInSelf(run, u);
    assert o in p.graph.updated ==> ChainSound(run, o, u);
    assert StandsIn(run, o, u);
    assert Recorded(run, p.cache, u);
    ValueOfExecuted(run, u);
  }

  lemma ValueOfExecuted(run: Oracle, u: Hash)
    requires Executes(run, u) && run(u.thunk)[0].Value?
    ensures MeaningOf(run)(Untagged(u)) == Some(run(u.thunk)[0].id)
  {
    var outs := run(u.thunk);
    assert outs[0] in outs;
    forall o | o in outs ensures o.Value? { }
    ReducedToValues(run, u.thunk);
    assert u == Thk(u.thunk);
    assert Meaning(run, u) == Some(Ids(outs));
  }
}
