/** The meow engine and its workers (src/execution/engine_meow.cc, src/frontend/gg-meow-worker.cc,
    src/frontend/gg-execute.cc): a state machine whose steps are the calls of the coordinator, the
    arrival of messages on either side, and the phases of a worker's child process. */
module Meow {
  import opened Options
  import opened Thunks
  import opened Loading
  import Bags
  import Costs
  import Schedules

  datatype ToWorker = Put(hash: Hash) | Execute(thunk: Thunk)
  datatype FromWorker = Hey | Executed(thunk: Thunk, outputs: seq<Output>)

  datatype State = Idle | Busy
  datatype Lambda = Lambda(state: State, objects: set<Hash>, executing: Option<Thunk>)

  // gg-execute --get-dependencies --put-output --cleanup, phase by phase.
  datatype Child = NoChild | Started(thunk: Thunk) | Cleaned(thunk: Thunk) | Fetched(thunk: Thunk)

  // A worker's blob store, its child process, and the two channels of its connection.
  datatype Worker = Worker(store: set<Hash>, child: Child, inbox: seq<ToWorker>, outbox: seq<FromWorker>)

  // The objects a thunk needs to run: its values and its executables.
  function Objects(t: Thunk): set<Hash> { ValueNames(t) + ExecutableNames(t) }

  // They are what the entries of both lists name.
  predicate Needed(t: Thunk, h: Hash) { exists i :: i in t.values + t.executables && i.ref.base == h }

  lemma ObjectsAreNeeded(t: Thunk)
    ensures forall h :: h in Objects(t) <==> Needed(t, h)
    ensures forall i | i in t.values + t.executables :: i.ref.base in Objects(t)
  {
    hide ValueNames, ExecutableNames;
    NamesOfEntries(t);
    forall h ensures h in Objects(t) <==> Needed(t, h) {
      if Needed(t, h) {
        var i :| i in t.values + t.executables && i.ref.base == h;
        assert i in t.values || i in t.executables;
      }
      if h in ValueNames(t) {
        var i :| i in t.values && i.ref.base == h;
        assert i in t.values + t.executables;
      }
      if h in ExecutableNames(t) {
        var i :| i in t.executables && i.ref.base == h;
        assert i in t.values + t.executables;
      }
    }
    forall i | i in t.values + t.executables ensures i.ref.base in Objects(t) { assert Needed(t, i.ref.base); }
  }

  // ---------------------------------------------------------------- join_containers

  // The positions in both containers, and which of them is being walked.
  datatype JoinIterator = JoinIterator(first: nat, second: nat, current: nat)

  function Dereference<T>(it: JoinIterator, c1: seq<T>, c2: seq<T>): T
    requires c2 != [] && it.first <= |c1| && (it.current == 1 ==> it.second < |c2|) && it.current <= 1
    requires it.current == 0 ==> it.second == 0
  {
    if it.current == 0 && it.first != |c1| then c1[it.first] else c2[it.second]
  }

  function Advance<T>(it: JoinIterator, c1: seq<T>, c2: seq<T>): JoinIterator {
    if it.current == 0 then
      if it.first != |c1| then it.(first := it.first + 1) else it.(current := 1)
    else if it.current == 1 then
      if it.second != |c2| then it.(second := it.second + 1) else it.(current := 2)
    else it
  }

  /** A loop over join_containers: the first element of the second container comes up twice. */
  method Join<T(==)>(c1: seq<T>, c2: seq<T>) returns (visited: seq<T>)
    requires c2 != []
    ensures visited == c1 + [c2[0]] + c2
  {
    visited := [];
    var it, end := JoinIterator(0, 0, 0), JoinIterator(|c1|, |c2|, 1);
    while it != end
      invariant it.first <= |c1| && it.second <= |c2| && it.current <= 1
      invariant it.current == 0 ==> it.second == 0 && visited == c1[..it.first]
      invariant it.current == 1 ==> it.first == |c1| && visited == c1 + [c2[0]] + c2[..it.second]
      decreases 2 - it.current, |c1| - it.first, |c2| - it.second
    {
      visited := visited + [Dereference(it, c1, c2)];
      it := Advance(it, c1, c2);
    }
  }

  // The entries of a data list in some order.
  method HashesOf(items: multiset<Item>) returns (r: seq<Hash>)
    ensures forall h :: h in r <==> h in Bases(ItemRefs(items))
    ensures |r| == |items|
  {
    r := [];
    var todo := items;
    while todo != multiset{}
      invariant |r| + |todo| == |items| && todo <= items
      invariant forall h :: h in Bases(ItemRefs(items)) <==> h in r || h in Bases(ItemRefs(todo))
      decreases |todo|
    {
      var i :| i in todo;
      BasesLess(todo, i);
      r, todo := r + [i.ref.base], todo - multiset{i};
    }
  }

  lemma BasesLess(items: multiset<Item>, i: Item)
    requires i in items
    ensures Bases(ItemRefs(items)) == Bases(ItemRefs(items - multiset{i})) + {i.ref.base}
  {
    assert ItemRefs(items) == ItemRefs(items - multiset{i}) + {i.ref};
  }

  // ---------------------------------------------------------------- jobs on lambdas

  function JobOf(l: Lambda): multiset<Thunk> {
    if l.state == Busy && l.executing.Some? then multiset{l.executing.value} else multiset{}
  }

  ghost function AnyKey(m: map<nat, Lambda>): (id: nat)
    requires m != map[]
    ensures id in m
  {
    var id :| id in m; id
  }

  // The jobs that are on some lambda.
  ghost function Jobs(m: map<nat, Lambda>): multiset<Thunk>
    decreases |m|
  {
    if m == map[] then multiset{} else var id := AnyKey(m); JobOf(m[id]) + Jobs(m - {id})
  }

  lemma Rearranged(a: multiset<Thunk>, b: multiset<Thunk>, c: multiset<Thunk>)
    ensures a + (b + c) == b + (a + c) && (a + b) + c == a + (b + c)
  {
  }

  lemma {:induction false} JobsWithout(m: map<nat, Lambda>, id: nat)
    requires id in m
    ensures Jobs(m) == JobOf(m[id]) + Jobs(m - {id})
    decreases |m|
  {
    hide JobOf;
    var j := AnyKey(m);
    if j != id {
      JobsWithout(m - {j}, id);
      JobsWithout(m - {id}, j);
      assert m - {j} - {id} == m - {id} - {j};
      Rearranged(JobOf(m[j]), JobOf(m[id]), Jobs(m - {id} - {j}));
    }
  }

  lemma JobsUpdated(m: map<nat, Lambda>, id: nat, l: Lambda)
    ensures id in m ==> Jobs(m[id := l]) + JobOf(m[id]) == Jobs(m) + JobOf(l)
    ensures id !in m ==> Jobs(m[id := l]) == Jobs(m) + JobOf(l)
  {
    hide JobOf, Jobs;
    JobsWithout(m[id := l], id);
    assert m[id := l] - {id} == m - {id};
    var rest := Jobs(m - {id});
    if id in m {
      JobsWithout(m, id);
      Swapped(rest, JobOf(m[id]));
      Rearranged(JobOf(l), rest, JobOf(m[id]));
      Swapped(JobOf(l), Jobs(m));
    } else {
      assert m - {id} == m;
      Swapped(JobOf(l), rest);
    }
  }

  lemma Swapped(a: multiset<Thunk>, b: multiset<Thunk>)
    ensures a + b == b + a
  {
  }

  // A job starts on an idle lambda, or ends on a busy one.
  lemma JobStarts(m: map<nat, Lambda>, id: nat, t: Thunk)
    requires id in m ==> m[id].state == Idle
    ensures Jobs(m[id := Lambda(Busy, Objects(t), Some(t))]) == Jobs(m) + multiset{t}
  {
    hide Jobs, Objects;
    JobsUpdated(m, id, Lambda(Busy, Objects(t), Some(t)));
  }

  lemma JobStartsNew(m: map<nat, Lambda>, id: nat)
    requires id !in m
    ensures Jobs(m[id := Lambda(Idle, {}, None)]) == Jobs(m)
  {
    hide Jobs;
    JobsUpdated(m, id, Lambda(Idle, {}, None));
  }

  lemma JobEnds(m: map<nat, Lambda>, id: nat)
    requires id in m && m[id].state == Busy && m[id].executing.Some?
    ensures Jobs(m[id := m[id].(state := Idle)]) + multiset{m[id].executing.value} == Jobs(m)
  {
    hide Jobs;
    JobsUpdated(m, id, m[id].(state := Idle));
  }

  // Every forced job is queued, on a lambda or reported, and the count is that of the first two.
  ghost predicate Accounts(forced: multiset<Thunk>, queue: seq<Thunk>, jobs: multiset<Thunk>,
      reported: multiset<Thunk>, count: nat) {
    forced == multiset(queue) + jobs + reported && count == |jobs| + |queue|
  }

  lemma AccountsNew(forced: multiset<Thunk>, queue: seq<Thunk>, jobs: multiset<Thunk>, reported: multiset<Thunk>,
      count: nat, t: Thunk)
    requires Accounts(forced, queue, jobs, reported, count)
    ensures Accounts(forced + multiset{t}, queue + [t], jobs, reported, count + 1)
    ensures Accounts(forced + multiset{t}, queue, jobs + multiset{t}, reported, count + 1)
  {
  }

  lemma AccountsMove(forced: multiset<Thunk>, queue: seq<Thunk>, jobs: multiset<Thunk>, reported: multiset<Thunk>,
      count: nat)
    requires Accounts(forced, queue, jobs, reported, count)
    ensures queue != [] ==> Accounts(forced, queue[1..], jobs + multiset{queue[0]}, reported, count)
  {
    if queue != [] { assert queue == [queue[0]] + queue[1..]; }
  }

  lemma AccountsDone(forced: multiset<Thunk>, queue: seq<Thunk>, jobs: multiset<Thunk>, reported: multiset<Thunk>,
      count: nat, t: Thunk)
    requires Accounts(forced, queue, jobs + multiset{t}, reported, count)
    ensures count > 0 && Accounts(forced, queue, jobs, reported + multiset{t}, count - 1)
  {
  }

  // The hashes of the jobs that are queued or on a lambda.
  ghost function Unfinished(queue: seq<Thunk>, jobs: multiset<Thunk>): multiset<Hash> {
    Bags.Image(Address(), multiset(queue) + jobs)
  }

  ghost function Address(): Thunk -> Hash { (t: Thunk) => Thk(t) }

  lemma UnfinishedNew(queue: seq<Thunk>, jobs: multiset<Thunk>, t: Thunk)
    ensures Unfinished(queue + [t], jobs) == Unfinished(queue, jobs) + multiset{Thk(t)}
    ensures Unfinished(queue, jobs + multiset{t}) == Unfinished(queue, jobs) + multiset{Thk(t)}
  {
    hide Bags.Image;
    var all := multiset(queue) + jobs;
    assert multiset(queue + [t]) + jobs == all + multiset{t};
    assert multiset(queue) + (jobs + multiset{t}) == all + multiset{t};
    Bags.ImageAdd(Address(), all, t);
  }

  lemma UnfinishedMove(queue: seq<Thunk>, jobs: multiset<Thunk>)
    requires queue != []
    ensures Unfinished(queue[1..], jobs + multiset{queue[0]}) == Unfinished(queue, jobs)
  {
    assert queue == [queue[0]] + queue[1..];
    assert multiset(queue[1..]) + (jobs + multiset{queue[0]}) == multiset(queue) + jobs;
  }

  lemma UnfinishedDone(queue: seq<Thunk>, jobs: multiset<Thunk>, t: Thunk)
    ensures Unfinished(queue, jobs) == Unfinished(queue, jobs + multiset{t}) - multiset{Thk(t)}
  {
    hide Unfinished;
    UnfinishedNew(queue, jobs, t);
  }

  // ---------------------------------------------------------------- agreement

  // The objects announced by the Put messages in front of an Execute.
  function Announced(puts: seq<ToWorker>): set<Hash> { set m | m in puts && m.Put? :: m.hash }

  // What is still to come to a worker is a batch of Puts and the Execute of t.
  predicate Batch(inbox: seq<ToWorker>, t: Thunk) {
    inbox != [] && inbox[|inbox| - 1] == Execute(t) && forall i | 0 <= i < |inbox| - 1 :: inbox[i].Put?
  }

  predicate OnlyHey(outbox: seq<FromWorker>) { forall m | m in outbox :: m.Hey? }

  // The worker replies to t: an Executed behind whatever it said before.
  predicate Replying(outbox: seq<FromWorker>, t: Thunk) {
    outbox != [] && OnlyHey(outbox[..|outbox| - 1]) && outbox[|outbox| - 1].Executed? && outbox[|outbox| - 1].thunk == t
  }

  /** How the coordinator's picture of a lambda and the worker behind it agree: what the coordinator
      believes to be in the store is there, or is on its way ahead of the next Execute. */
  predicate Agreed(l: Lambda, w: Worker) {
    match l.state
    case Idle => w.inbox == [] && w.child == NoChild && OnlyHey(w.outbox) && l.objects <= w.store
    case Busy =>
      && l.executing.Some?
      && var t := l.executing.value;
      && l.objects == Objects(t)
      && if w.inbox != [] then
           Batch(w.inbox, t) && w.child == NoChild && OnlyHey(w.outbox) && Objects(t) <= w.store + Announced(w.inbox)
         else if w.child != NoChild then
           w.child.thunk == t && OnlyHey(w.outbox) && Objects(t) <= w.store
         else
           Replying(w.outbox, t) && Objects(t) <= w.store
  }

  // Every lambda has its worker, they agree, and the free ones are the idle ones.
  ghost predicate Wired(lambdas: map<nat, Lambda>, workers: map<nat, Worker>, free: set<nat>, currentId: nat) {
    && lambdas.Keys == workers.Keys
    && (forall id | id in lambdas :: id < currentId && Agreed(lambdas[id], workers[id]))
    && (forall id :: id in free <==> id in lambdas && lambdas[id].state == Idle)
  }

  // A thunk has at least one executable.
  ghost predicate NeedPrograms(queue: seq<Thunk>) { forall t | t in queue :: t.executables != multiset{} }

  lemma WiredAt(lambdas: map<nat, Lambda>, workers: map<nat, Worker>, free: set<nat>, currentId: nat, id: nat)
    requires Wired(lambdas, workers, free, currentId)
    ensures id in lambdas <==> id in workers
    ensures id in lambdas ==> id < currentId && Agreed(lambdas[id], workers[id])
    ensures id in free <==> id in lambdas && lambdas[id].state == Idle
  {
  }

  lemma FreeAreIdle(lambdas: map<nat, Lambda>, workers: map<nat, Worker>, free: set<nat>, currentId: nat)
    requires Wired(lambdas, workers, free, currentId)
    ensures forall id | id in free :: id in lambdas && id < currentId && lambdas[id].state == Idle
  {
  }

  lemma NeedProgramsMore(queue: seq<Thunk>, t: Thunk)
    requires NeedPrograms(queue)
    ensures t.executables != multiset{} ==> NeedPrograms(queue + [t])
    ensures queue != [] ==> queue[0].executables != multiset{} && NeedPrograms(queue[1..])
  {
  }

  lemma WiredAfter(lambdas: map<nat, Lambda>, workers: map<nat, Worker>, free: set<nat>, currentId: nat, id: nat,
      l: Lambda, w: Worker)
    requires Wired(lambdas, workers, free, currentId) && id <= currentId && Agreed(l, w)
    ensures Wired(lambdas[id := l], workers[id := w], if l.state == Idle then free + {id} else free - {id},
                  if id == currentId then currentId + 1 else currentId)
  {
    hide Agreed;
  }

  lemma WiredWorker(lambdas: map<nat, Lambda>, workers: map<nat, Worker>, free: set<nat>, currentId: nat, id: nat,
      w: Worker)
    requires Wired(lambdas, workers, free, currentId) && id in lambdas && Agreed(lambdas[id], w)
    ensures Wired(lambdas, workers[id := w], free, currentId)
  {
    hide Agreed;
  }

  ghost predicate Returns(e: Schedules.Engine, e': Schedules.Engine, h: Hash) {
    e.jobCount > 0 && e' == Schedules.Returned(e, h)
  }

  // ---------------------------------------------------------------- the machine

  class Cluster {
    const size: Hash -> nat
    const maxJobs: nat
    const canExecute: Thunk -> bool

    // the coordinator
    var lambdas: map<nat, Lambda>
    var free: set<nat>
    var queue: seq<Thunk>
    var runningJobs: nat
    var currentId: nat

    // the workers behind the lambdas
    var workers: map<nat, Worker>

    // what was asked for: workers launched that have not connected, thunks forced, thunks reported back
    ghost var launches: nat
    ghost var forced: multiset<Thunk>
    ghost var reported: multiset<Thunk>

    ghost predicate Good()
      reads this
    {
      Wired(lambdas, workers, free, currentId) && NeedPrograms(queue) && Conserved()
    }

    // Every job is queued, on one lambda, or reported; and the jobs are counted right.
    ghost predicate Conserved()
      reads this
    {
      Accounts(forced, queue, Jobs(lambdas), reported, runningJobs)
    }

    // The engine as the coordinator of the reduction knows it: jobs that wait for a worker are jobs, too.
    ghost function View(): Schedules.Engine
      reads this
    {
      Schedules.Engine(canExecute, maxJobs, runningJobs, Unfinished(queue, Jobs(lambdas)))
    }

    // Every queued thunk has a worker on its way.
    ghost predicate Balanced()
      reads this
    {
      launches == |queue|
    }

    constructor (sizes: Hash -> nat, limit: nat, suits: Thunk -> bool)
      ensures Good() && Balanced() && forced == reported == multiset{} && queue == [] && lambdas == map[]
      ensures View() == Schedules.Engine(suits, limit, 0, multiset{})
    {
      size, maxJobs, canExecute := sizes, limit, suits;
      lambdas, free, queue, runningJobs, currentId, workers := map[], {}, [], 0, 0, map[];
      launches, forced, reported := 0, multiset{}, multiset{};
    }

    // ---------------------------------------------------------------- choosing a lambda

    // How many bytes of what is needed the lambda is believed to have.
    ghost function Common(needed: set<Hash>, id: nat): nat
      reads this
      requires id in lambdas
    {
      Costs.Sum(map h | h in needed * lambdas[id].objects :: size(h))
    }

    method CommonSize(needed: set<Hash>, id: nat) returns (common: nat)
      requires id in lambdas
      ensures common == Common(needed, id)
    {
      common := 0;
      var objects := lambdas[id].objects;
      var todo := needed;
      ghost var sum: Costs.Weights := map[];
      while todo != {}
        invariant todo <= needed
        invariant sum == map h | h in (needed - todo) * objects :: size(h)
        invariant common == Costs.Sum(sum)
      {
        var h :| h in todo;
        todo := todo - {h};
        if h in objects {
          common := common + size(h);
          ghost var more := map x | x in (needed - todo) * objects :: size(x);
          Costs.SumRemove(more, h);
          assert more - {h} == sum;
          sum := more;
        }
      }
      assert needed - todo == needed;
    }

    /** pick_lambda with SelectionStrategy::MostObjects: of the free lambdas that are believed to have
        most of what is needed, the one with the smallest id. */
    method PickLambda(thunk: Thunk) returns (picked: nat)
      requires free != {} && forall id | id in free :: id in lambdas
      ensures picked in free
      ensures forall id | id in free :: Common(Objects(thunk), id) <= Common(Objects(thunk), picked)
      ensures forall id | id in free && id < picked :: Common(Objects(thunk), id) < Common(Objects(thunk), picked)
    {
      hide Objects, Common;
      var needed := Objects(thunk);
      var max, selected: Option<nat> := 0, None;
      var ids := Ascending(free);
      for i := 0 to |ids|
        invariant selected.Some? ==> selected.value in ids[..i] && max == Common(needed, selected.value) > 0
        invariant forall j | 0 <= j < i :: Common(needed, ids[j]) <= max
        invariant selected.Some? ==> forall j | 0 <= j < i && ids[j] < selected.value :: Common(needed, ids[j]) < max
        invariant selected.None? ==> max == 0
      {
        var common := CommonSize(needed, ids[i]);
        if common > max {
          selected, max := Some(ids[i]), common;
        }
      }
      picked := if selected.Some? then selected.value else ids[0];
    }

    // ---------------------------------------------------------------- steps of the coordinator

    // Lambda id and its worker change; everything else stays.
    ghost predicate OnlyChanged(id: nat, l: map<nat, Lambda>, w: map<nat, Worker>)
      reads this
    {
      id in lambdas && id in workers && lambdas == l[id := lambdas[id]] && workers == w[id := workers[id]]
    }

    /** Sends what the lambda is not believed to have, and then the thunk (prepare_lambda). */
    method PrepareLambda(id: nat, thunk: Thunk)
      requires id in free && id in lambdas && id in workers && thunk.executables != multiset{}
      requires lambdas[id].state == Idle && Agreed(lambdas[id], workers[id])
      modifies this`lambdas, this`workers, this`free
      ensures free == old(free) - {id} && OnlyChanged(id, old(lambdas), old(workers))
      ensures lambdas[id] == Lambda(Busy, Objects(thunk), Some(thunk)) && Agreed(lambdas[id], workers[id])
      ensures exists puts :: && workers[id] == old(workers)[id].(inbox := puts + [Execute(thunk)])
                             && forall h :: Put(h) in puts <==> Needed(thunk, h) && h !in old(lambdas)[id].objects
      ensures forall h :: h in lambdas[id].objects <==> Needed(thunk, h)
    {
      hide Needed;
      ObjectsAreNeeded(thunk);
      var values := HashesOf(thunk.values);
      var executables := HashesOf(thunk.executables);
      var visited := Join(values, executables);
      var lambda := lambdas[id];
      var puts: seq<ToWorker>, objects: set<Hash> := [], {};
      for i := 0 to |visited|
        invariant forall h :: h in objects <==> h in visited[..i]
        invariant forall h :: Put(h) in puts <==> h in visited[..i] && h !in lambda.objects
        invariant forall m | m in puts :: m.Put?
      {
        if visited[i] !in lambda.objects {
          puts := puts + [Put(visited[i])];
        }
        objects := objects + {visited[i]};
      }
      assert forall h :: h in visited <==> h in values || h in executables;
      assert objects == Objects(thunk);
      PreparedAgrees(lambda, workers[id], thunk, puts);
      var worker := workers[id];
      lambdas := lambdas[id := Lambda(Busy, objects, Some(thunk))];
      workers := workers[id := worker.(inbox := worker.inbox + puts + [Execute(thunk)])];
      free := free - {id};
      assert worker.inbox + puts + [Execute(thunk)] == puts + [Execute(thunk)];
    }

    /** A new job: it goes to the best free lambda, or waits for a worker that is launched for it. */
    method ForceThunk(thunk: Thunk)
      requires Good() && thunk.executables != multiset{}
      modifies this
      ensures Good() && forced == old(forced) + multiset{thunk} && reported == old(reported)
      ensures View() == Schedules.Sent(old(View()), Thk(thunk))
      ensures old(Balanced()) ==> Balanced()
      ensures old(free) == {} ==> queue == old(queue) + [thunk] && lambdas == old(lambdas) && workers == old(workers)
      ensures old(free) != {} ==> queue == old(queue) && exists id ::
                && id in old(free) && OnlyChanged(id, old(lambdas), old(workers))
                && lambdas[id] == Lambda(Busy, Objects(thunk), Some(thunk))
    {
      hide Agreed, Jobs, Accounts, Objects, Wired, NeedPrograms, Unfinished;
      UnfinishedNew(queue, Jobs(lambdas), thunk);
      AccountsNew(forced, queue, Jobs(lambdas), reported, runningJobs, thunk);
      runningJobs := runningJobs + 1;
      forced := forced + multiset{thunk};
      if free != {} {
        Assign(thunk);
      } else {
        NeedProgramsMore(queue, thunk);
        queue := queue + [thunk];
        launches := launches + 1;
      }
    }

    // The best free lambda gets the job.
    method Assign(thunk: Thunk)
      requires Wired(lambdas, workers, free, currentId) && free != {} && thunk.executables != multiset{}
      modifies this`lambdas, this`workers, this`free
      ensures Wired(lambdas, workers, free, currentId) && Jobs(lambdas) == old(Jobs(lambdas)) + multiset{thunk}
      ensures exists id :: && id in old(free) && OnlyChanged(id, old(lambdas), old(workers))
                           && lambdas[id] == Lambda(Busy, Objects(thunk), Some(thunk))
    {
      hide Agreed, Jobs, Objects, Wired, Common;
      ghost var l, w := lambdas, workers;
      FreeAreIdle(lambdas, workers, free, currentId);
      var picked := PickLambda(thunk);
      JobStarts(lambdas, picked, thunk);
      WiredAt(lambdas, workers, free, currentId, picked);
      PrepareLambda(picked, thunk);
      WiredAfter(l, w, old(free), currentId, picked, lambdas[picked], workers[picked]);
    }

    // The connection is entered as a lambda without objects or work.
    method AddLambda(id: nat)
      requires Wired(lambdas, workers, free, currentId) && id == currentId
      modifies this`lambdas, this`workers, this`free
      ensures Wired(lambdas, workers, free, currentId + 1) && Jobs(lambdas) == Jobs(old(lambdas))
      ensures id !in old(lambdas) && id !in old(free) && lambdas == old(lambdas)[id := Lambda(Idle, {}, None)]
      ensures workers == old(workers)[id := Worker({}, NoChild, [], [Hey])] && free == old(free) + {id}
      ensures Agreed(lambdas[id], workers[id])
    {
      hide Jobs, Wired, Agreed;
      WiredAt(lambdas, workers, free, currentId, id);
      NewAgrees();
      JobStartsNew(lambdas, id);
      WiredAfter(lambdas, workers, free, currentId, id, Lambda(Idle, {}, None), Worker({}, NoChild, [], [Hey]));
      lambdas := lambdas[id := Lambda(Idle, {}, None)];
      workers := workers[id := Worker({}, NoChild, [], [Hey])];
      free := free + {id};
    }

    /** A worker connects; a thunk that waits is given to it. */
    method Connect(invited: bool)
      requires Good() && (invited ==> launches > 0)
      modifies this
      ensures Good() && forced == old(forced) && reported == old(reported) && currentId == old(currentId) + 1
      ensures View() == old(View())
      ensures invited && old(Balanced()) ==> Balanced() && old(queue) != []
      ensures old(queue) == [] ==> free == old(free) + {old(currentId)} && queue == []
      ensures old(queue) != [] ==>
                && free == old(free) && queue == old(queue)[1..] && old(currentId) in lambdas
                && lambdas[old(currentId)].executing == Some(old(queue)[0])
    {
      hide Jobs, Accounts, Objects, Wired, NeedPrograms, Agreed, Unfinished;
      var id := currentId;
      AddLambda(id);
      currentId := currentId + 1;
      if invited { launches := launches - 1; }
      if queue != [] {
        TakeFront(id);
      }
    }

    // The thunk that has waited longest is put on lambda id.
    method TakeFront(id: nat)
      requires Good() && queue != [] && id in free && id in lambdas
      modifies this`lambdas, this`workers, this`free, this`queue
      ensures Good() && View() == old(View())
      ensures free == old(free) - {id} && queue == old(queue)[1..] && OnlyChanged(id, old(lambdas), old(workers))
      ensures lambdas[id] == Lambda(Busy, Objects(old(queue)[0]), Some(old(queue)[0]))
    {
      hide Jobs, Accounts, Objects, Wired, NeedPrograms, Agreed, Unfinished;
      ghost var l, w, f := lambdas, workers, free;
      var thunk := queue[0];
      WiredAt(lambdas, workers, free, currentId, id);
      NeedProgramsMore(queue, thunk);
      JobStarts(lambdas, id, thunk);
      AccountsMove(forced, queue, Jobs(lambdas), reported, runningJobs);
      UnfinishedMove(queue, Jobs(lambdas));
      PrepareLambda(id, thunk);
      WiredAfter(l, w, f, currentId, id, lambdas[id], workers[id]);
      queue := queue[1..];
    }

    /** A message from worker id arrives (the data callback): a job that was executed is reported. */
    method Receive(id: nat) returns (done: Option<FromWorker>)
      requires Good() && id in workers && workers[id].outbox != []
      modifies this
      ensures Good() && queue == old(queue) && forced == old(forced)
      ensures old(Balanced()) ==> Balanced()
      ensures OnlyChanged(id, old(lambdas), old(workers))
      ensures workers[id] == old(workers)[id].(outbox := old(workers)[id].outbox[1..])
      ensures done.Some? <==> old(workers)[id].outbox[0].Executed?
      ensures done.None? ==> reported == old(reported) && free == old(free) && lambdas == old(lambdas)
      ensures done.None? ==> View() == old(View())
      ensures done.Some? ==>
                && done.value == old(workers)[id].outbox[0] && reported == old(reported) + multiset{done.value.thunk}
                && old(lambdas)[id].state == Busy && old(lambdas)[id].executing == Some(done.value.thunk)
                && free == old(free) + {id} && lambdas[id] == old(lambdas)[id].(state := Idle)
                && Returns(old(View()), View(), Thk(done.value.thunk))
    {
      hide Jobs, Accounts, Objects, Wired, Agreed, Unfinished;
      WiredAt(lambdas, workers, free, currentId, id);
      var lambda, worker := lambdas[id], workers[id];
      var message := worker.outbox[0];
      MessageTaken(lambda, worker);
      workers := workers[id := worker.(outbox := worker.outbox[1..])];
      match message {
        case Hey =>
          WiredWorker(lambdas, old(workers), free, currentId, id, workers[id]);
          done := None;
        case Executed(thunk, _) =>
          WiredAfter(lambdas, old(workers), free, currentId, id, lambda.(state := Idle), workers[id]);
          JobOver(id, thunk);
          done := Some(message);
      }
    }

    // The thunk that lambda id was busy with is reported.
    method JobOver(id: nat, thunk: Thunk)
      requires Conserved() && id in lambdas && lambdas[id].state == Busy && lambdas[id].executing == Some(thunk)
      modifies this`lambdas, this`free, this`runningJobs, this`reported
      ensures Conserved() && lambdas == old(lambdas)[id := old(lambdas)[id].(state := Idle)]
      ensures free == old(free) + {id} && reported == old(reported) + multiset{thunk}
      ensures Returns(old(View()), View(), Thk(thunk))
    {
      hide Jobs, Accounts, Unfinished;
      ghost var after := Jobs(lambdas[id := lambdas[id].(state := Idle)]);
      JobEnds(lambdas, id);
      UnfinishedDone(queue, after, thunk);
      AccountsDone(forced, queue, after, reported, runningJobs, thunk);
      lambdas := lambdas[id := lambdas[id].(state := Idle)];
      free := free + {id};
      runningJobs := runningJobs - 1;
      reported := reported + multiset{thunk};
    }

    // ---------------------------------------------------------------- steps of the workers

    // Only worker id changes, and the books stay as they are.
    ghost predicate WorkerStep(id: nat, w: map<nat, Worker>)
      reads this
    {
      Good() && id in workers && workers == w[id := workers[id]]
    }

    /** The next message reaches worker id: an object is stored, or a job is started. When a job is
        started, everything it needs is in the store. */
    method Deliver(id: nat)
      requires Good() && id in workers && workers[id].inbox != []
      modifies this`workers
      ensures WorkerStep(id, old(workers)) && workers[id].inbox == old(workers)[id].inbox[1..]
      ensures workers[id].outbox == old(workers)[id].outbox
      ensures match old(workers)[id].inbox[0]
              case Put(h) => workers[id].store == old(workers)[id].store + {h} &&
                  workers[id].child == old(workers)[id].child
              case Execute(t) =>
                && (forall i | i in t.values + t.executables :: i.ref.base in old(workers)[id].store)
                && old(workers)[id].child == NoChild && workers[id].child == Started(t)
                && workers[id].store == old(workers)[id].store + {Thk(t)}
    {
      hide Accounts, Jobs, Wired, Objects, NeedPrograms;
      WiredAt(lambdas, workers, free, currentId, id);
      var worker := workers[id];
      Delivered(lambdas[id], worker);
      if worker.inbox[0].Execute? { ObjectsAreNeeded(worker.inbox[0].thunk); }
      worker := match worker.inbox[0]
                case Put(h) => worker.(store := worker.store + {h}, inbox := worker.inbox[1..])
                case Execute(t) => worker.(store := worker.store + {Thk(t)}, child := Started(t),
                    inbox := worker.inbox[1..]);
      WiredWorker(lambdas, workers, free, currentId, id, worker);
      workers := workers[id := worker];
    }

    /** gg-execute --cleanup: of the store, only the thunk and what it needs is left. */
    method Cleanup(id: nat)
      requires Good() && id in workers && workers[id].child.Started?
      modifies this`workers
      ensures WorkerStep(id, old(workers))
      ensures var t := old(workers)[id].child.thunk;
              && workers[id] == old(workers)[id].(child := Cleaned(t), store := workers[id].store)
              && forall h :: h in workers[id].store <==>
                   h in old(workers)[id].store && (h == Thk(t) || Needed(t, h))
    {
      hide Accounts, Jobs, Wired, Objects, Needed, NeedPrograms;
      WiredAt(lambdas, workers, free, currentId, id);
      var worker := workers[id];
      var kept := DoCleanup(worker.store, worker.child.thunk);
      ChildGoesOn(lambdas[id], worker, worker.(child := Cleaned(worker.child.thunk), store := kept));
      worker := worker.(child := Cleaned(worker.child.thunk), store := kept);
      WiredWorker(lambdas, workers, free, currentId, id, worker);
      workers := workers[id := worker];
    }

    /** gg-execute --get-dependencies: there is never anything to download. */
    method Fetch(id: nat) returns (requests: seq<Hash>)
      requires Good() && id in workers && workers[id].child.Cleaned?
      modifies this`workers
      ensures WorkerStep(id, old(workers)) && requests == []
      ensures workers[id] == old(workers)[id].(child := Fetched(old(workers)[id].child.thunk))
    {
      hide Accounts, Jobs, Wired, Objects, NeedPrograms;
      WiredAt(lambdas, workers, free, currentId, id);
      var worker := workers[id];
      requests := FetchDependencies(worker.store, worker.child.thunk);
      ChildGoesOn(lambdas[id], worker, worker.(child := Fetched(worker.child.thunk)));
      worker := worker.(child := Fetched(worker.child.thunk));
      WiredWorker(lambdas, workers, free, currentId, id, worker);
      workers := workers[id := worker];
    }

    /** The child is done: its outputs are in the store, and the coordinator is told. */
    method Finish(id: nat, outputs: seq<Output>)
      requires Good() && id in workers && workers[id].child.Fetched?
      modifies this`workers
      ensures WorkerStep(id, old(workers))
      ensures var w := old(workers)[id];
              && workers[id] == w.(child := NoChild, store := workers[id].store,
                   outbox := w.outbox + [Executed(w.child.thunk, outputs)])
              && forall h :: h in workers[id].store <==> h in w.store || exists o :: o in outputs && o.hash == h
    {
      hide Accounts, Jobs, Wired, Objects, NeedPrograms;
      WiredAt(lambdas, workers, free, currentId, id);
      var w := workers[id];
      Replied(lambdas[id], w, outputs);
      var worker := w.(child := NoChild, store := w.store + OutputHashes(outputs),
          outbox := w.outbox + [Executed(w.child.thunk, outputs)]);
      WiredWorker(lambdas, workers, free, currentId, id, worker);
      workers := workers[id := worker];
    }
  }

  // The elements of s in ascending order, as std::set keeps them.
  method Ascending(s: set<nat>) returns (r: seq<nat>)
    ensures forall x :: x in r <==> x in s
    ensures |r| == |s| && forall i, j | 0 <= i < j < |r| :: r[i] < r[j]
  {
    r := [];
    var todo := s;
    while todo != {}
      invariant forall x :: x in s <==> x in r || x in todo
      invariant |r| + |todo| == |s|
      invariant forall i, j | 0 <= i < j < |r| :: r[i] < r[j]
      invariant forall i, x | 0 <= i < |r| && x in todo :: r[i] < x
    {
      var least := Least(todo);
      r, todo := r + [least], todo - {least};
    }
  }

  method Least(s: set<nat>) returns (m: nat)
    requires s != {}
    ensures m in s && forall x | x in s :: m <= x
  {
    m :| m in s;
    var todo := s - {m};
    while todo != {}
      invariant m in s && todo <= s && forall x | x in s :: x in todo || m <= x
    {
      var x :| x in todo;
      if x < m { m := x; }
      todo := todo - {x};
    }
  }

  lemma NewAgrees()
    ensures Agreed(Lambda(Idle, {}, None), Worker({}, NoChild, [], [Hey]))
  {
  }

  // An idle worker that is sent what it lacks, and the thunk, agrees with what is then believed of it.
  lemma PreparedAgrees(l: Lambda, w: Worker, t: Thunk, puts: seq<ToWorker>)
    requires l.state == Idle && Agreed(l, w)
    requires (forall h :: Put(h) in puts <==> h in Objects(t) && h !in l.objects) && forall m | m in puts :: m.Put?
    ensures Agreed(Lambda(Busy, Objects(t), Some(t)), w.(inbox := puts + [Execute(t)]))
  {
    var inbox := puts + [Execute(t)];
    forall h | h in Objects(t) ensures h in w.store + Announced(inbox) {
      if h !in w.store { assert Put(h) in inbox; }
    }
    forall i | 0 <= i < |inbox| - 1 ensures inbox[i].Put? { assert inbox[i] in puts; }
  }

  function OutputHashes(outputs: seq<Output>): set<Hash> { set o | o in outputs :: o.hash }

  /** do_cleanup: every blob that is neither the thunk nor needed by it is removed. */
  method DoCleanup(store: set<Hash>, t: Thunk) returns (kept: set<Hash>)
    ensures forall h :: h in kept <==> h in store && (h == Thk(t) || Needed(t, h))
    ensures kept == store * (Objects(t) + {Thk(t)})
  {
    hide Needed;
    ObjectsAreNeeded(t);
    var infiles := {Thk(t)} + ValueNames(t) + ExecutableNames(t);
    kept := store;
    var todo := store;
    while todo != {}
      invariant todo <= store && kept == todo + (store - todo) * infiles
    {
      var blob :| blob in todo;
      todo := todo - {blob};
      if blob !in infiles {
        kept := kept - {blob};
      }
    }
  }

  lemma ObjectsInLists(t: Thunk, values: seq<Hash>, executables: seq<Hash>)
    requires forall h :: h in values <==> h in Bases(ItemRefs(t.values))
    requires forall h :: h in executables <==> h in Bases(ItemRefs(t.executables))
    ensures forall h :: h in values + executables <==> h in Objects(t)
  {
    hide Bases, ItemRefs;
  }

  /** fetch_dependencies: asks for what is not in the store. */
  method FetchDependencies(store: set<Hash>, t: Thunk) returns (requests: seq<Hash>)
    ensures forall h :: h in requests <==> Needed(t, h) && h !in store
    ensures Objects(t) <= store ==> requests == []
  {
    hide Needed, Objects;
    ObjectsAreNeeded(t);
    var values := HashesOf(t.values);
    var executables := HashesOf(t.executables);
    var items := values + executables;
    ObjectsInLists(t, values, executables);
    requests := [];
    for i := 0 to |items|
      invariant forall h :: h in requests <==> h in items[..i] && h !in store
      invariant Objects(t) <= store ==> requests == []
    {
      assert items[i] in items && items[..i + 1] == items[..i] + [items[i]];
      if items[i] !in store {
        requests := requests + [items[i]];
      }
    }
    assert items[..|items|] == items;
  }

  // ---------------------------------------------------------------- each step keeps the agreement

  lemma Delivered(l: Lambda, w: Worker)
    requires Agreed(l, w) && w.inbox != []
    ensures w.child == NoChild
    ensures match w.inbox[0]
            case Put(h) => Agreed(l, w.(store := w.store + {h}, inbox := w.inbox[1..]))
            case Execute(t) =>
                Objects(t) <= w.store &&
                Agreed(l, w.(store := w.store + {Thk(t)}, child := Started(t), inbox := w.inbox[1..]))
  {
    hide Objects;
    var t, first := l.executing.value, w.inbox[0];
    assert w.inbox == [first] + w.inbox[1..];
    if first.Put? {
      var rest := w.inbox[1..];
      assert rest[|rest| - 1] == Execute(t);
      assert Announced(w.inbox) == Announced(rest) + {first.hash} by {
        forall h | h in Announced(w.inbox) ensures h in Announced(rest) + {first.hash} {
          var m :| m in w.inbox && m.Put? && m.hash == h;
          assert m == first || m in rest;
        }
      }
    } else {
      assert |w.inbox| == 1;
      assert Announced(w.inbox) == {};
    }
  }

  // While the child works, the store may lose whatever the thunk does not need.
  lemma ChildGoesOn(l: Lambda, w: Worker, w': Worker)
    requires Agreed(l, w) && w.child != NoChild
    requires w' == w.(child := w'.child, store := w'.store) && w'.child != NoChild && w'.child.thunk == w.child.thunk
    requires w.store * (Objects(w.child.thunk) + {Thk(w.child.thunk)}) <= w'.store
    ensures Agreed(l, w') && Objects(w.child.thunk) <= w.store
  {
    hide Objects;
  }

  lemma Replied(l: Lambda, w: Worker, outputs: seq<Output>)
    requires Agreed(l, w) && w.child != NoChild
    ensures Agreed(l, w.(child := NoChild, store := w.store + OutputHashes(outputs),
              outbox := w.outbox + [Executed(w.child.thunk, outputs)]))
  {
    hide Objects;
    var outbox := w.outbox + [Executed(w.child.thunk, outputs)];
    assert outbox[..|outbox| - 1] == w.outbox;
  }

  // The coordinator takes the worker's next message.
  lemma MessageTaken(l: Lambda, w: Worker)
    requires Agreed(l, w) && w.outbox != []
    ensures var w' := w.(outbox := w.outbox[1..]);
            match w.outbox[0]
            case Hey => Agreed(l, w')
            case Executed(t, _) => l.state == Busy && l.executing == Some(t) && Agreed(l.(state := Idle), w')
  {
    hide Objects;
    var first, rest := w.outbox[0], w.outbox[1..];
    assert w.outbox == [first] + rest;
    if l.state == Busy && Replying(w.outbox, l.executing.value) {
      if first.Hey? {
        assert rest[..|rest| - 1] == w.outbox[1..|w.outbox| - 1];
      } else {
        assert first !in w.outbox[..|w.outbox| - 1];
        assert |w.outbox| == 1;
      }
    }
  }
}
