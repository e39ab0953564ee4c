/** Which stored thunks a stored thunk leads to. */
module Reachability {
  import opened Thunks
  import opened Evaluation
  import opened Costs
  import opened Graphs
  import opened Forcing

  ghost predicate ReachIn(thunks: map<Hash, Thunk>, a: Hash, b: Hash, n: nat)
    decreases n
  {
    a in thunks && if n == 0 then a == b else exists d :: d in Deps(thunks[a]) && ReachIn(thunks, d, b, n - 1)
  }

  ghost predicate Reach(thunks: map<Hash, Thunk>, a: Hash, b: Hash) { exists n: nat :: ReachIn(thunks, a, b, n) }

  lemma ReachSelf(thunks: map<Hash, Thunk>, a: Hash)
    requires a in thunks
    ensures Reach(thunks, a, a)
  {
    assert ReachIn(thunks, a, a, 0);
  }

  lemma ReachStep(thunks: map<Hash, Thunk>, a: Hash, d: Hash, b: Hash)
    requires a in thunks && d in Deps(thunks[a]) && Reach(thunks, d, b)
    ensures Reach(thunks, a, b)
  {
    var n: nat :| ReachIn(thunks, d, b, n);
    var m: nat := n + 1;
    assert ReachIn(thunks, a, b, m);
  }

  lemma ReachVia(thunks: map<Hash, Thunk>, a: Hash, b: Hash)
    requires Reach(thunks, a, b)
    ensures a in thunks && (a == b || exists d :: d in Deps(thunks[a]) && Reach(thunks, d, b))
  {
    var n: nat :| ReachIn(thunks, a, b, n);
    if n > 0 {
      var i: nat := n - 1;
      var d :| d in Deps(thunks[a]) && ReachIn(thunks, d, b, i);
      assert Reach(thunks, d, b);
    }
  }

  // More thunks, with the old ones unchanged, keep everything reachable.
  lemma {:induction false} ReachInKept(before: map<Hash, Thunk>, after: map<Hash, Thunk>, a: Hash, b: Hash, n: nat)
    requires (forall k | k in before :: k in after && after[k] == before[k]) && ReachIn(before, a, b, n)
    ensures ReachIn(after, a, b, n)
    decreases n
  {
    if n > 0 {
      var i: nat := n - 1;
      var d :| d in Deps(before[a]) && ReachIn(before, d, b, i);
      ReachInKept(before, after, d, b, i);
    }
  }

  lemma ReachKept(before: map<Hash, Thunk>, after: map<Hash, Thunk>, a: Hash, b: Hash)
    requires (forall k | k in before :: k in after && after[k] == before[k]) && Reach(before, a, b)
    ensures Reach(after, a, b)
  {
    var n: nat :| ReachIn(before, a, b, n);
    ReachInKept(before, after, a, b, n);
  }

  lemma {:induction false} ReachStored(thunks: map<Hash, Thunk>, a: Hash, b: Hash, n: nat)
    requires ReachIn(thunks, a, b, n)
    ensures b in thunks
    decreases n
  {
    if n > 0 {
      var i: nat := n - 1;
      var d :| d in Deps(thunks[a]) && ReachIn(thunks, d, b, i);
      ReachStored(thunks, d, b, i);
    }
  }

  // Costs order a convergent graph: dependencies have strictly less of their own, so it has no cycle.
  lemma OwnDecreases(run: Oracle, g: Graph, k: Hash, d: Hash)
    requires Closed(g) && Sane(run, g) && Convergent(run, g) && k in g.thunks && d in Deps(g.thunks[k])
    ensures d in g.thunks && Converges(run, Thk(g.thunks[k])) && Converges(run, Thk(g.thunks[d]))
    ensures Own(run, g.thunks[d]) < Own(run, g.thunks[k])
  {
    assert Stored(run, k, g.thunks[k]);
    StoredConverges(run, g, k);
    StoredConverges(run, g, d);
    DepCostsLess(run, g.thunks[k], d);
    OwnWithinCost(run, g.thunks[d]);
  }

  // A convergent graph has no cycle: following at least one dependency never leads back.
  lemma {:induction false} NoCycle(run: Oracle, g: Graph, a: Hash, b: Hash, n: nat)
    requires Closed(g) && Sane(run, g) && Convergent(run, g) && ReachIn(g.thunks, a, b, n)
    ensures a in g.thunks && b in g.thunks && Converges(run, Thk(g.thunks[a])) && Converges(run, Thk(g.thunks[b]))
    ensures if n == 0 then a == b else a != b && Own(run, g.thunks[b]) < Own(run, g.thunks[a])
    decreases n
  {
    hide Own, Stored, Deps;
    StoredConverges(run, g, a);
    if n > 0 {
      var i: nat := n - 1;
      var d :| d in Deps(g.thunks[a]) && ReachIn(g.thunks, d, b, i);
      NoCycle(run, g, d, b, i);
      OwnDecreases(run, g, a, d);
    }
  }
}
