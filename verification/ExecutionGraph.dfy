/** The dependency graph of the coordinator (src/thunk/graph.cc). */
module ExecutionGraphs {
  import opened Options
  import opened Thunks
  import opened Evaluation
  import opened Costs
  import opened Replacement
  import opened Graphs
  import opened Forcing
  import opened Reachability
  import opened Loading
  import opened Reduction

  class ExecutionGraph {
    var thunks: map<Hash, Thunk>
    var referencing: map<Hash, set<Hash>>
    var values: set<Hash>
    var executables: set<Hash>
    var originals: map<Hash, Hash>
    var updated: map<Hash, Hash>

    // What executing a thunk yields; read by MergesWith only.
    const run: Oracle

    ghost function State(): Graph
      reads this
    {
      Graph(thunks, referencing, values, executables, originals, updated)
    }

    ghost predicate Good()
      reads this
    {
      Valid(run, State())
    }

    constructor (oracle: Oracle)
      ensures run == oracle && Good()
      ensures State() == Graph(map[], map[], {}, {}, map[], map[])
    {
      run := oracle;
      thunks, referencing, values, executables, originals, updated := map[], map[], {}, {}, map[], map[];
    }

    method FindUpdated(h: Hash) returns (r: Hash)
      ensures r == UpdatedHash(State(), h)
    {
      r := if h in updated then updated[h] else h;
    }

    method FindOriginal(h: Hash) returns (r: Hash)
      ensures r == OriginalHash(State(), h)
    {
      r := if h in originals then originals[h] else h;
    }

    /** Adds the thunk that full belongs to, and everything it depends on, unless it or what it has
        become is stored already; answers the hash it is stored under (ExecutionGraph::add_thunk). */
    method AddThunk(full: Ref) returns (hash: Hash)
      requires Good() && full.base.Thk? && WellFormed(full.base) && Loadable(State(), full.base)
      modifies this
      decreases full.base, 1
      ensures Added(run, old(State()), State(), full.base, hash)
    {
      hide Valid, Progress, Added, WellFormed, Loadable, Redirecting, UpdatesFor, Targets, Deps;
      var h := full.base;
      var current := FindUpdated(h);
      if current in thunks {
        AddedNothing(run, State(), h);
        return current;
      }
      if h in thunks {
        AddedNothing(run, State(), h);
        return h;
      }
      ghost var before := State();
      var links, updates, chosen := AddDependencies(h);
      ChoiceParts(run, before, State(), h, chosen);
      var thunk := Redirected(h, before, updates, chosen);
      AddedNew(run, before, State(), h, thunk, chosen);
      ProgressLinks(run, before, State(), h, thunk, chosen);
      Store(h, thunk, links);
      hash := h;
    }

    // Adds what the blob of h depends on: the stored hashes it will refer to, and which of them differ. Entries
    // with one base are neighbours in the source's list, which is ordered by address.
    method AddDependencies(h: Hash) returns (links: set<Hash>, updates: seq<Update>, ghost chosen: Choice)
      requires Good() && h.Thk? && WellFormed(h) && Loadable(State(), h) && h !in thunks
      modifies this
      decreases h, 0
      ensures Progress(run, old(State()), State(), h, chosen) && chosen.Keys == Deps(h.thunk) && Direct(chosen)
      ensures links == Targets(chosen, chosen.Keys) && UpdatesFor(chosen, updates)
    {
      hide Valid, Added, Progress, UpdatesFor, WellFormed, Loadable, Targets, Deps, Target, Bases, ItemRefs, Direct;
      ghost var before := State();
      ProgressStart(run, before, h);
      NoUpdates();
      links, updates, chosen := {}, [], map[];
      var todo, current := h.thunk.thunks, h;
      NoneDone(todo);
      while todo != multiset{}
        invariant todo <= h.thunk.thunks
        invariant chosen.Keys == Bases(ItemRefs(h.thunk.thunks - todo))
        invariant Progress(run, before, State(), h, chosen)
        invariant forall i | i in todo && i.ref.base in chosen :: i.ref.base == current
        invariant current in chosen ==> Target(State(), current) == chosen[current] && chosen[current] in thunks
        invariant links == Targets(chosen, chosen.Keys)
        invariant UpdatesFor(chosen, updates)
        decreases |todo|
      {
        var item := NextItem(todo, current);
        var base := item.ref.base;
        LoadingStep(run, before, State(), h, item, chosen);
        ghost var mid := State();
        var target := AddThunk(Untagged(base));
        AddedStep(run, before, mid, State(), h, chosen, base, target);
        TargetsAdd(chosen, base, target);
        links := links + {target};
        if target != base {
          updates := updates + [Update(base, target)];
        }
        UpdatesStep(chosen, base, target, updates);
        ItemsDone(h.thunk.thunks, todo, item);
        todo, current, chosen := todo - multiset{item}, base, chosen[base := target];
      }
      AllDone(h.thunk, todo);
      ChoiceDirect(run, before, State(), h, chosen);
    }

    // An entry with the same base as the last one, as long as there is one.
    static method NextItem(todo: multiset<Item>, current: Hash) returns (item: Item)
      requires todo != multiset{}
      ensures item in todo && (item.ref.base == current || forall i | i in todo :: i.ref.base != current)
    {
      if exists i :: i in todo && i.ref.base == current {
        item :| item in todo && item.ref.base == current;
      } else {
        item :| item in todo;
      }
    }

    // The blob of h with its dependencies redirected.
    method Redirected(h: Hash, ghost g: Graph, updates: seq<Update>, ghost chosen: Choice) returns (thunk: Thunk)
      requires h.Thk? && WellFormed(h) && ChainsSound(run, g) && Chosen(g, chosen) && Direct(chosen)
      requires chosen.Keys == Deps(h.thunk) && UpdatesFor(chosen, updates)
      ensures Redirecting(run, chosen, h, thunk) && Deps(thunk) == Targets(chosen, chosen.Keys)
      ensures Deps(h.thunk) == {} ==> thunk == h.thunk
    {
      hide Redirecting, WellFormed, Deps, Subst, OutputSub, Rewired, ChainsSound, Chosen, Direct;
      thunk := h.thunk;
      RedirectingStart(run, chosen, h);
      for i := 0 to |updates|
        invariant Redirecting(run, chosen, h, thunk)
        invariant i == 0 ==> thunk == h.thunk
        invariant forall j | 0 <= j < i :: updates[j].base !in Deps(thunk)
      {
        assert updates[i] in updates;
        RedirectStep(run, g, chosen, h, thunk, updates[i]);
        RedirectUsable(run, chosen, h, thunk, updates[i]);
        UpdatesStay(chosen, updates, Deps(thunk), i);
        thunk := UpdateData(thunk, updates[i].base, AllOutputs(updates[i].target, thunk.outputs));
      }
      AllRedirected(run, chosen, h, thunk, updates);
    }

    // Stores h and enters it in the index.
    method Store(h: Hash, thunk: Thunk, links: set<Hash>)
      requires h.Thk? && links <= referencing.Keys && links == Deps(thunk) && h !in referencing
      modifies this
      ensures State() == Inserted(old(State()), h, thunk)
    {
      var pending := links;
      while pending != {}
        invariant pending <= links && referencing.Keys == old(referencing).Keys
        invariant forall d | d in referencing ::
                    referencing[d] == if d in links - pending then old(referencing)[d] + {h} else old(referencing)[d]
        invariant State() == old(State()).(referencing := referencing)
      {
        var link :| link in pending;
        referencing := referencing[link := referencing[link] + {h}];
        pending := pending - {link};
      }
      referencing := referencing[h := {}];
      values := values + ValueNames(h.thunk);
      executables := executables + ExecutableNames(h.thunk);
      thunks := thunks[h := thunk];
      assert referencing == Inserted(old(State()), h, thunk).referencing;
    }

    /** Old has become what outputs say: records that in the hash chains, rewrites every thunk that
        refers to old and hands its referrers over (ExecutionGraph::update_hash). */
    method UpdateHash(oldHash: Hash, outputs: seq<Output>)
      requires outputs != [] && oldHash.Thk? && oldHash in referencing && oldHash in thunks
      requires forall o | o in outputs :: o.hash != oldHash
      requires forall k | k in referencing[oldHash] :: k in thunks && k != oldHash && Split(thunks[k])
      modifies this
      ensures State() == Relinked(old(State()), oldHash, outputs)
    {
      hide Subst, OutputSub;
      var newHash := outputs[0].hash;
      if newHash.Thk? {
        ExtendChain(oldHash, newHash);
      }
      RewriteReferrers(oldHash, outputs);
      thunks := thunks - {oldHash};
      referencing := referencing[newHash := referencing[oldHash]];
      referencing := referencing - {oldHash};
      assert thunks == Rewritten(old(State()), oldHash, outputs);
    }

    /** Executing oldHash yielded outputs: loads the thunk it returned, if it did, rewrites the graph and
        renames every thunk that became runnable. Answers the thunks to queue, or None if oldHash
        is not in the graph any more (ExecutionGraph::force_thunk). */
    method ForceThunk(oldHash: Hash, outputs: seq<Output>) returns (r: Option<set<Hash>>)
      requires Good() && WellBehaved(run)
      requires oldHash in thunks ==>
                 && oldHash in Runnable(State()) && Convergent(run, State()) && Executes(run, oldHash)
                 && outputs == ReportOf(run, oldHash) && MergeFree(run, State(), oldHash)
      modifies this
      ensures oldHash !in old(thunks) ==> r.None? && State() == old(State())
      ensures oldHash in old(thunks) ==> r.Some? && Forced(run, old(State()), State(), oldHash, r.value)
    {
      hide Valid, Forced, Consistent, MayRelink, Added, ReportOf, MergeFree, Runnable, Renaming, Relinked;
      hide ReadyAfter, NewTip, Loadable, WellFormed, Convergent, LessWork, Reach, WellBehaved, NextReady;
      if oldHash !in thunks {
        return None;
      }
      ghost var before := State();
      ForceStart(run, before, oldHash);
      var newHash := outputs[0].hash;
      if newHash.Thk? {
        var loaded := AddThunk(Untagged(newHash));
        ghost var added := State();
        NextAdded(run, before, added, oldHash, loaded);
        NextSubstituted(run, before, added, oldHash);
        RelinkUsable(run, added, oldHash, outputs);
        UpdateHash(oldHash, outputs);
        NobodyToRename(run, added, oldHash);
        // all referrers now depend on newHash, so the loop below would rename none of them
        assert forall k | k in referencing[newHash] :: k in thunks && !thunks[k].CanBeExecuted();
        AddedParts(run, before, added, newHash, oldHash);
        NextLessWork(run, before, added, oldHash);
        StillConvergent(run, before, State());
        var ready := OrderOneDependencies(Untagged(newHash));
        ThunkForced(run, before, added, oldHash, ready.value);
        return ready;
      }
      NextIsValue(run, before, oldHash);
      SubstitutedConsistent(run, before, oldHash);
      RelinkUsable(run, before, oldHash, outputs);
      UpdateHash(oldHash, outputs);
      RenamingStart(run, before, oldHash);
      var next: set<Hash> := {};
      ghost var pending := ReadyAfter(run, before, oldHash);
      ReferrersOfValue(run, before, oldHash);
      var todo := referencing[newHash];
      while todo != {}
        invariant Renaming(run, before, State(), oldHash, pending, next)
        invariant todo <= thunks.Keys && pending <= todo
        invariant forall k | k in todo :: k in pending <==> thunks[k].CanBeExecuted()
      {
        var k :| k in todo;
        todo := todo - {k};
        if thunks[k].CanBeExecuted() {
          RenamingStep(run, before, State(), oldHash, pending, next, k);
          RenamingStepTodo(run, before, State(), oldHash, pending, next, k, todo);
          var name := Thk(thunks[k]);
          var newOutputs := AllOutputs(name, thunks[k].outputs);
          RenamingUsable(run, before, State(), oldHash, pending, next, k);
          ghost var current := State();
          thunks := thunks[name := thunks[k]];
          RelinkUsable(run, Doubled(current, k), k, newOutputs);
          UpdateHash(k, newOutputs);
          next := next + {name};
          pending := pending - {k};
        }
      }
      assert pending == {};
      ghost var last := State();
      referencing := referencing - {newHash};
      RenamingEnd(run, before, last, oldHash, next);
      r := Some(next);
    }

    /** Would forcing oldHash merge two thunks of the graph? The source has no such test: it is what a run has
        to be free of for the graph to be rewritten correctly (see Graphs.MergeKeepsIndexIff). */
    method MergesWith(oldHash: Hash, outputs: seq<Output>) returns (merges: bool)
      requires Good() && oldHash in Runnable(State()) && Executes(run, oldHash) && outputs == ReportOf(run, oldHash)
      ensures oldHash in referencing && (merges <==> !MergeFree(run, State(), oldHash))
    {
      hide Consistent, Executes, ReportOf, Subst, OutputSub, ReadyAfter, Substituted, Fresh, Loadable, Rewired;
      ghost var g := State();
      ForceStart(run, g, oldHash);
      var now := Graph(thunks, referencing, values, executables, originals, updated);
      var newHash := outputs[0].hash;
      if newHash.Thk? {
        merges := !Unknown(now, newHash) || !Loadable(now, newHash);
        return;
      }
      ReportUsable(run, g, oldHash);
      ghost var ready := ReadyAfter(run, g, oldHash);
      var names: map<Hash, Hash> := map[];
      var todo := referencing[oldHash];
      while todo != {}
        invariant todo <= referencing[oldHash]
        invariant names.Keys == ready - todo
        invariant forall r | r in names :: names[r] == NameAfter(run, g, oldHash, r)
        invariant forall r | r in names :: Fresh(run, g, names[r])
        invariant forall r, s | r in names && s in names && r != s :: names[r] != names[s]
      {
        var r :| r in todo;
        BecomesReady(run, g, oldHash, r);
        var t := UpdateData(thunks[r], oldHash, outputs);
        if t.CanBeExecuted() {
          if !Fresh(run, now, Thk(t)) || exists s | s in names :: names[s] == Thk(t) {
            return true;
          }
          names := names[r := Thk(t)];
        }
        todo := todo - {r};
      }
      return false;
    }

    /** The runnable thunks that full leads to, or None if it is not in the graph
        (ExecutionGraph::order_one_dependencies, which throws there). */
    method OrderOneDependencies(full: Ref) returns (r: Option<set<Hash>>)
      requires Good() && Convergent(run, State())
      decreases if full.base in thunks then 1 + OwnOf(run, State(), full.base) else 0
      ensures r.Some? <==> full.base in thunks
      ensures r.Some? ==> r.value != {} && forall x :: x in r.value <==>
                x in Runnable(State()) && Reach(thunks, full.base, x)
    {
      hide Valid, Convergent, Runnable, Reach, Deps, OwnOf, Bases, ItemRefs;
      var h := full.base;
      if h !in thunks {
        return None;
      }
      if thunks[h].CanBeExecuted() {
        LeafReach(run, State(), h);
        return Some({h});
      }
      var result: set<Hash>, done: set<Hash> := {}, {};
      var todo := thunks[h].thunks;
      NoneDone(todo);
      while todo != multiset{}
        invariant todo <= thunks[h].thunks && done == Bases(ItemRefs(thunks[h].thunks - todo))
        invariant forall x :: x in result <==> x in Runnable(State()) && exists d :: d in done && Reach(thunks, d, x)
        invariant done != {} ==> result != {}
        decreases |todo|
      {
        var item :| item in todo;
        var d := item.ref.base;
        DepOwnLess(run, State(), h, item);
        var sub := OrderOneDependencies(item.ref);
        result := result + sub.value;
        ItemsDone(thunks[h].thunks, todo, item);
        todo, done := todo - multiset{item}, done + {d};
      }
      AllDone(thunks[h], todo);
      BranchReach(run, State(), h, result);
      r := Some(result);
    }

    method ExtendChain(oldHash: Hash, newHash: Hash)
      requires newHash.Thk?
      modifies this`originals, this`updated
      ensures originals == RelinkedOriginals(old(State()), oldHash, newHash)
      ensures updated == RelinkedUpdated(old(State()), oldHash, newHash)
    {
      if oldHash !in originals {
        originals := originals[newHash := oldHash];
        updated := updated[oldHash := newHash];
      } else {
        var original := originals[oldHash];
        originals := originals[newHash := original];
        updated := updated[original := newHash];
        originals := originals - {oldHash};
      }
    }

    method RewriteReferrers(oldHash: Hash, outputs: seq<Output>)
      requires outputs != [] && oldHash.Thk? && oldHash in referencing
      requires forall o | o in outputs :: o.hash != oldHash
      requires forall k | k in referencing[oldHash] :: k in thunks && Split(thunks[k])
      modifies this`thunks
      ensures thunks.Keys == old(thunks).Keys
      ensures forall k | k in thunks :: thunks[k] ==
                if k in referencing[oldHash] then Subst(old(thunks)[k], OutputSub(oldHash, outputs)) else old(thunks)[k]
    {
      hide Subst, OutputSub, Rewired, Split;
      var todo := referencing[oldHash];
      while todo != {}
        invariant todo <= referencing[oldHash] && thunks.Keys == old(thunks).Keys
        invariant forall k | k in thunks :: thunks[k] ==
                    if k in referencing[oldHash] - todo
                    then Subst(old(thunks)[k], OutputSub(oldHash, outputs)) else old(thunks)[k]
      {
        var k :| k in todo;
        assert k in referencing[oldHash];
        var t := UpdateData(thunks[k], oldHash, outputs);
        thunks := thunks[k := t];
        todo := todo - {k};
      }
    }
  }

  // ---------------------------------------------------------------- bookkeeping of AddThunk

  // The updates name exactly the added dependencies that are stored under another hash.
  ghost predicate UpdatesFor(m: Choice, updates: seq<Update>) {
    && (forall u | u in updates :: u.base in m && u.target == m[u.base] && u.target != u.base)
    && (forall b | b in m && m[b] != b :: exists i :: 0 <= i < |updates| && updates[i].base == b)
  }

  lemma NoUpdates()
    ensures UpdatesFor(map[], []) && Targets(map[], {}) == {}
  {
  }

  lemma TargetsAdd(m: Choice, base: Hash, target: Hash)
    requires base in m ==> m[base] == target
    ensures Targets(m[base := target], m[base := target].Keys) == Targets(m, m.Keys) + {target}
  {
    var more := m[base := target];
    assert more.Keys == m.Keys + {base};
    forall x | x in Targets(m, m.Keys) + {target} ensures x in Targets(more, more.Keys) {
      if x != target {
        var b :| b in m && m[b] == x;
        assert more[b] == x;
      } else {
        assert more[base] == target;
      }
    }
  }

  lemma UpdatesStep(m: Choice, base: Hash, target: Hash, updates: seq<Update>)
    requires base in m ==> m[base] == target
    requires if target != base
             then updates != [] && UpdatesFor(m, updates[..|updates| - 1]) &&
                 updates[|updates| - 1] == Update(base, target)
             else UpdatesFor(m, updates)
    ensures UpdatesFor(m[base := target], updates)
  {
    if target != base {
      var less, more := updates[..|updates| - 1], m[base := target];
      forall b | b in more && more[b] != b ensures exists i :: 0 <= i < |updates| && updates[i].base == b {
        if b == base {
          assert updates[|updates| - 1].base == b;
        } else {
          var i :| 0 <= i < |less| && less[i].base == b;
          assert updates[i].base == b;
        }
      }
    }
  }

  lemma NoneDone(items: multiset<Item>)
    ensures Bases(ItemRefs(items - items)) == {}
  {
    assert items - items == multiset{};
  }

  lemma AllDone(t: Thunk, todo: multiset<Item>)
    requires todo == multiset{}
    ensures Bases(ItemRefs(t.thunks - todo)) == Deps(t)
  {
    assert t.thunks - todo == t.thunks;
  }

  lemma ItemsDone(items: multiset<Item>, todo: multiset<Item>, item: Item)
    requires item in todo && todo <= items
    ensures Bases(ItemRefs(items - (todo - multiset{item}))) == Bases(ItemRefs(items - todo)) + {item.ref.base}
  {
    assert items - (todo - multiset{item}) == (items - todo) + multiset{item};
    assert ItemRefs((items - todo) + multiset{item}) == ItemRefs(items - todo) + {item.ref};
  }

  lemma LoadingStep(run: Oracle, before: Graph, g: Graph, h: Hash, item: Item, m: Choice)
    requires h.Thk? && WellFormed(h) && item in h.thunk.thunks && Loadable(before, h)
    requires Progress(run, before, g, h, m)
    ensures var b := item.ref.base; b.Thk? && b < h && b in Deps(h.thunk) && WellFormed(b) && Loadable(g, b)
    ensures Valid(run, g)
  {
    hide Valid, ProgressCost, Loadable, Reach, Grown, WellFormed;
    assert item.ref in ItemRefs(h.thunk.thunks);
    DepWellFormed(h, item.ref.base);
    LoadableKept(before, g, h);
    LoadableDep(g, h, item.ref.base);
  }

  // Adding what stands for itself already, or for what is added, changes nothing.
  lemma AddedAgain(run: Oracle, a: Graph, b: Graph, d: Hash, u: Hash)
    requires Added(run, a, b, d, u)
    ensures u == Target(a, d) && u in b.thunks && (u in a.thunks ==> b == a)
  {
    hide Valid, LoadCost, Reach, Grown;
  }

  lemma AddedStep(run: Oracle, g: Graph, a: Graph, b: Graph, h: Hash, m: Choice, d: Hash, u: Hash)
    requires Progress(run, g, a, h, m) && Added(run, a, b, d, u) && Loadable(a, d) && d.Thk?
    requires d in m ==> Target(a, d) == m[d] && m[d] in a.thunks
    requires h.Thk? && WellFormed(h) && d in Deps(h.thunk)
    ensures Progress(run, g, b, h, m[d := u]) && Target(b, d) == u && u in b.thunks && (d in m ==> m[d] == u)
  {
    hide Progress, Added, Loadable, Target, WellFormed, Deps;
    AddedAgain(run, a, b, d, u);
    ProgressStep(run, g, a, b, h, m, d, u);
    AnsweredAlike(run, a, b, d, u);
  }

  lemma ChoiceParts(run: Oracle, g: Graph, g': Graph, h: Hash, m: Choice)
    requires Progress(run, g, g', h, m) && Valid(run, g)
    ensures Chosen(g, m) && ChainsSound(run, g)
  {
    hide ChainsSound, Chosen, Closed, Indexed, Sane, Keyed, Ends, Leads, Settled, GoesOn, ProgressCost, Grown;
  }

  lemma ProgressLinks(run: Oracle, before: Graph, g: Graph, h: Hash, t: Thunk, m: Choice)
    requires Progress(run, before, g, h, m) && Deps(t) == Targets(m, m.Keys)
    ensures Deps(t) <= g.referencing.Keys && h !in g.referencing
  {
    hide ProgressCost, Deps, Reach;
  }

  lemma RedirectUsable(run: Oracle, m: Choice, h: Hash, t: Thunk, u: Update)
    requires Redirecting(run, m, h, t) && u.target != u.base
    ensures Split(t) && forall o | o in AllOutputs(u.target, t.outputs) :: o.hash != u.base
  {
  }

  lemma UpdatesStay(m: Choice, updates: seq<Update>, ds: set<Hash>, i: nat)
    requires UpdatesFor(m, updates) && i < |updates| && Direct(m)
    requires forall j | 0 <= j < i :: updates[j].base !in ds
    ensures forall j | 0 <= j <= i :: updates[j].base !in MovedDeps(ds, updates[i].base, updates[i].target)
  {
    var u := updates[i];
    assert u in updates;
    forall j | 0 <= j <= i ensures updates[j].base != u.target {
      assert updates[j] in updates;
      assert m[u.base] != u.base && (m[u.base] in m ==> m[m[u.base]] == m[u.base]);
    }
  }

  lemma AllRedirected(run: Oracle, m: Choice, h: Hash, t: Thunk, updates: seq<Update>)
    requires Redirecting(run, m, h, t) && m.Keys == Deps(h.thunk) && UpdatesFor(m, updates)
    requires forall j | 0 <= j < |updates| :: updates[j].base !in Deps(t)
    requires |updates| == 0 ==> t == h.thunk
    ensures Deps(t) == Targets(m, m.Keys) && (Deps(h.thunk) == {} ==> t == h.thunk)
  {
    hide Deps, Stored, Own, Converges;
    RedirectedDeps(m, h, t);
    assert updates != [] ==> updates[0] in updates;
  }

  // ---------------------------------------------------------------- order one dependencies

  ghost function OwnOf(run: Oracle, g: Graph, h: Hash): nat
    requires Valid(run, g) && Convergent(run, g) && h in g.thunks
  {
    StoredConverges(run, g, h);
    Own(run, g.thunks[h])
  }

  lemma DepOwnLess(run: Oracle, g: Graph, h: Hash, item: Item)
    requires Valid(run, g) && Convergent(run, g) && h in g.thunks && item in g.thunks[h].thunks
    ensures item.ref.base in g.thunks && item.ref.base in Deps(g.thunks[h])
    ensures OwnOf(run, g, item.ref.base) < OwnOf(run, g, h)
  {
    assert item.ref in ItemRefs(g.thunks[h].thunks);
    OwnDecreases(run, g, h, item.ref.base);
  }

  lemma LeafReach(run: Oracle, g: Graph, h: Hash)
    requires Valid(run, g) && h in g.thunks && g.thunks[h].CanBeExecuted()
    ensures forall x :: x in {h} <==> x in Runnable(g) && Reach(g.thunks, h, x)
  {
    assert Stored(run, h, g.thunks[h]);
    RunnableDeps(g.thunks[h]);
    ReachSelf(g.thunks, h);
    forall x | Reach(g.thunks, h, x) ensures x == h { ReachVia(g.thunks, h, x); }
  }

  lemma BranchReach(run: Oracle, g: Graph, h: Hash, result: set<Hash>)
    requires Valid(run, g) && h in g.thunks && !g.thunks[h].CanBeExecuted()
    requires forall x :: x in result <==> x in Runnable(g) && exists d ::
              d in Deps(g.thunks[h]) && Reach(g.thunks, d, x)
    ensures Deps(g.thunks[h]) != {}
    ensures forall x :: x in result <==> x in Runnable(g) && Reach(g.thunks, h, x)
  {
    hide Consistent, Reach, Deps;
    LeafOrBranch(run, g, h);
    forall x ensures x in result <==> x in Runnable(g) && Reach(g.thunks, h, x) {
      if x in result {
        var d :| d in Deps(g.thunks[h]) && Reach(g.thunks, d, x);
        ReachStep(g.thunks, h, d, x);
      }
      if x in Runnable(g) && Reach(g.thunks, h, x) { ReachVia(g.thunks, h, x); }
    }
  }

  lemma LeafOrBranch(run: Oracle, g: Graph, h: Hash)
    requires Valid(run, g) && h in g.thunks && !g.thunks[h].CanBeExecuted()
    ensures Deps(g.thunks[h]) != {}
  {
    assert Stored(run, h, g.thunks[h]);
    RunnableDeps(g.thunks[h]);
  }

  // ---------------------------------------------------------------- bookkeeping of MergesWith

  lemma ReportUsable(run: Oracle, g: Graph, k: Hash)
    requires Valid(run, g) && Executes(run, k) && k in Runnable(g) && run(k.thunk)[0].Value?
    ensures k.Thk? && k in g.referencing && ReadyAfter(run, g, k) <= g.referencing[k] <= g.thunks.Keys
    ensures ReadyAfter(run, g, k) <= Substituted(run, g, k).thunks.Keys
    ensures ReportOf(run, k) != [] && forall o | o in ReportOf(run, k) :: o.hash != k
  {
    hide Chains, Sane, Keyed, Closed, Relinked;
    ReportUniform(run, k);
    assert g.referencing[k] == Referrers(g.thunks, k);
  }

  // What the referrer r will be once k is reduced.
  lemma BecomesReady(run: Oracle, g: Graph, k: Hash, r: Hash)
    requires Valid(run, g) && Executes(run, k) && k in Runnable(g) && k in g.referencing && r in g.referencing[k]
    ensures r in g.thunks && Split(g.thunks[r]) && r in Substituted(run, g, k).thunks
    ensures Substituted(run, g, k).thunks[r] == Subst(g.thunks[r], OutputSub(k, ReportOf(run, k)))
    ensures r in ReadyAfter(run, g, k) <==> Subst(g.thunks[r], OutputSub(k, ReportOf(run, k))).CanBeExecuted()
  {
    hide Chains, Keyed, Closed, Executes, ReportOf, Subst, OutputSub, StandsIn, WellFormed;
    assert g.referencing[k] == Referrers(g.thunks, k);
    assert Stored(run, r, g.thunks[r]) && Stored(run, k, g.thunks[k]);
    RunnableDeps(g.thunks[k]);
  }

  // ---------------------------------------------------------------- bookkeeping of ForceThunk

  lemma ForceStart(run: Oracle, g: Graph, k: Hash)
    requires Valid(run, g) && Executes(run, k) && k in Runnable(g)
    ensures k in g.thunks && k in g.referencing && ReportOf(run, k) != [] && ReportOf(run, k)[0].hash == run(k.thunk)[0]
    ensures run(k.thunk)[0].Thk? ==>
              WellFormed(run(k.thunk)[0]) && (MergeFree(run, g, k) ==> Loadable(g, run(k.thunk)[0]))
  {
    assert run(k.thunk)[0] in run(k.thunk);
    ReportFirst(run, k);
  }

  lemma StillConvergent(run: Oracle, g: Graph, g': Graph)
    requires Valid(run, g) && Convergent(run, g) && LessWork(run, g, g')
    ensures Convergent(run, g')
  {
  }

  lemma RelinkUsable(run: Oracle, g: Graph, k: Hash, outputs: seq<Output>)
    requires MayRelink(run, g, k, outputs)
    ensures outputs != [] && k.Thk? && k in g.referencing && k in g.thunks
    ensures forall o | o in outputs :: o.hash != k
    ensures forall x | x in g.referencing[k] :: x in g.thunks && x != k && Split(g.thunks[x])
  {
    assert Stored(run, k, g.thunks[k]);
    RunnableDeps(g.thunks[k]);
    assert g.referencing[k] == Referrers(g.thunks, k);
    forall x | x in g.referencing[k] ensures Split(g.thunks[x]) { assert Stored(run, x, g.thunks[x]); }
  }

  lemma NobodyToRename(run: Oracle, g: Graph, k: Hash)
    requires Executes(run, k) && MayRelink(run, g, k, ReportOf(run, k)) && k in g.referencing
    requires ReadyAfter(run, g, k) == {}
    ensures var b := Substituted(run, g, k); var next := run(k.thunk)[0];
            next in b.referencing && forall x | x in b.referencing[next] ::
                x in b.thunks && !b.thunks[x].CanBeExecuted()
  {
    hide Sound, WellFormed;
    ReportFirst(run, k);
    RelinkUsable(run, g, k, ReportOf(run, k));
    RelinkedKeys(g, k, ReportOf(run, k));
  }

  lemma ReferrersOfValue(run: Oracle, g: Graph, k: Hash)
    requires Executes(run, k) && MayRelink(run, g, k, ReportOf(run, k)) && k in g.referencing
    ensures var b := Substituted(run, g, k); var v := run(k.thunk)[0];
            && v in b.referencing && b.referencing[v] <= b.thunks.Keys && ReadyAfter(run, g, k) <= b.referencing[v]
            && forall x | x in b.referencing[v] :: x in ReadyAfter(run, g, k) <==> b.thunks[x].CanBeExecuted()
  {
    hide Sound, WellFormed;
    ReportFirst(run, k);
    RelinkUsable(run, g, k, ReportOf(run, k));
    RelinkedKeys(g, k, ReportOf(run, k));
  }

  // The referrers still to be looked at are unaffected by the renaming of r.
  lemma RenamingStepTodo(run: Oracle, g: Graph, g': Graph, k: Hash, pending: set<Hash>, ready: set<Hash>, r: Hash,
      todo: set<Hash>)
    requires Renaming(run, g, g', k, pending, ready) && r in pending && r !in todo && todo <= g'.thunks.Keys
    requires forall x | x in todo :: x in pending <==> g'.thunks[x].CanBeExecuted()
    requires pending <= todo + {r}
    ensures r in g'.thunks && r in g'.referencing && g'.thunks[r].outputs != []
    ensures var after := RenamedGraph(g', r);
            && todo <= after.thunks.Keys && pending - {r} <= todo
            && forall x | x in todo :: x in pending - {r} <==> after.thunks[x].CanBeExecuted()
  {
    hide Renaming, RenamedGraph, MayRename, Fresh;
    RenamingMayRename(run, g, g', k, pending, ready, r);
    RenamedChain(run, g', pending, r);
    RenameRunnable(run, g', pending, r);
    var after := RenamedGraph(g', r);
    forall x | x in todo ensures x in after.thunks && (x in pending - {r} <==> after.thunks[x].CanBeExecuted()) {
      assert x in Runnable(g') <==> x in Runnable(after);
    }
  }

  lemma RenamingUsable(run: Oracle, g: Graph, g': Graph, k: Hash, pending: set<Hash>, ready: set<Hash>, r: Hash)
    requires Renaming(run, g, g', k, pending, ready) && r in pending
    ensures r in g'.thunks && MayRelink(run, Doubled(g', r), r, RenameOutputs(g', r))
  {
    hide Renaming, MayRename;
    RenamingMayRename(run, g, g', k, pending, ready, r);
    RenameRelinks(run, g', pending, r);
  }
}
