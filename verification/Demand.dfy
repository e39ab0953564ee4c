/** Every stored thunk is there because a target that is still open leads to it. */
module Demand {
  import opened Thunks
  import opened Evaluation
  import opened Replacement
  import opened Graphs
  import opened Reachability

  // Some wanted original is open and leads to k.
  ghost predicate Needed(g: Graph, wanted: set<Hash>, k: Hash) {
    exists o :: o in wanted && Open(g, o) && Reach(g.thunks, UpdatedHash(g, o), k)
  }

  ghost predicate AllNeeded(g: Graph, wanted: set<Hash>) { forall k | k in g.thunks :: Needed(g, wanted, k) }

  // Whatever was wanted, g' stores nothing superfluous if g did not.
  ghost predicate Supplied(g: Graph, g': Graph) {
    forall wanted | AllNeeded(g, wanted) :: AllNeeded(g', wanted)
  }

  // A chain is moved only to be alive; and one that was alive still is, unless it has just reached its value.
  ghost predicate Onward(run: Oracle, g: Graph, g': Graph, k: Hash, value: bool) {
    forall o :: GoesOnward(run, g, g', k, value, o)
  }

  ghost predicate GoesOnward(run: Oracle, g: Graph, g': Graph, k: Hash, value: bool, o: Hash) {
    || Going(run, g', o)
    || (UpdatedHash(g', o) == UpdatedHash(g, o) && (Going(run, g, o) ==> value && UpdatedHash(g, o) == k))
  }

  lemma NeededBy(g: Graph, wanted: set<Hash>, k: Hash, o: Hash)
    requires o in wanted && Open(g, o) && Reach(g.thunks, UpdatedHash(g, o), k)
    ensures Needed(g, wanted, k)
  {
  }

  lemma {:induction false} ReachTransIn(thunks: map<Hash, Thunk>, a: Hash, b: Hash, c: Hash, n: nat)
    requires ReachIn(thunks, a, b, n) && Reach(thunks, b, c)
    ensures Reach(thunks, a, c)
    decreases n
  {
    hide Deps, Reach;
    if n > 0 {
      var i: nat := n - 1;
      var d :| d in Deps(thunks[a]) && ReachIn(thunks, d, b, i);
      ReachTransIn(thunks, d, b, c, i);
      ReachStep(thunks, a, d, c);
    }
  }

  lemma ReachTrans(thunks: map<Hash, Thunk>, a: Hash, b: Hash, c: Hash)
    requires Reach(thunks, a, b) && Reach(thunks, b, c)
    ensures Reach(thunks, a, c)
  {
    var n: nat :| ReachIn(thunks, a, b, n);
    ReachTransIn(thunks, a, b, c, n);
  }

  lemma {:induction false} ReachMoved(before: map<Hash, Thunk>, after: map<Hash, Thunk>, k: Hash, next: Hash, a: Hash,
      x: Hash, n: nat)
    requires DepsMoved(before, after, k, next) && k in before && Deps(before[k]) == {} && x != k
    requires ReachIn(before, a, x, n)
    ensures ReachIn(after, a, x, n)
    decreases n
  {
    hide Deps;
    if n > 0 {
      var i: nat := n - 1;
      var d :| d in Deps(before[a]) && ReachIn(before, d, x, i);
      assert d != k by {
        if d == k { ReachFromLeaf(before, k, x, i); }
      }
      ReachMoved(before, after, k, next, d, x, i);
      assert d in Deps(after[a]);
    }
  }

  lemma ReachFromLeaf(thunks: map<Hash, Thunk>, k: Hash, x: Hash, n: nat)
    requires ReachIn(thunks, k, x, n) && Deps(thunks[k]) == {}
    ensures x == k
  {
  }

  // A path that ended in gone ends in next.
  lemma {:induction false} ReachMovedEnd(before: map<Hash, Thunk>, after: map<Hash, Thunk>, gone: Hash, next: Hash,
      a: Hash, n: nat)
    requires DepsMoved(before, after, gone, next) && gone in before && Deps(before[gone]) == {}
    requires next.Thk? && next in after && a != gone
    requires ReachIn(before, a, gone, n)
    ensures Reach(after, a, next)
    decreases n
  {
    hide Deps, Reach;
    if n > 0 {
      var i: nat := n - 1;
      var d :| d in Deps(before[a]) && ReachIn(before, d, gone, i);
      if d == gone {
        ReachSelf(after, next);
        ReachStep(after, a, next, next);
      } else {
        ReachMovedEnd(before, after, gone, next, d, i);
        ReachStep(after, a, d, next);
      }
    }
  }

  // ---------------------------------------------------------------- through update_hash

  // What the relinking of gone needs, as far as chains and paths go.
  ghost predicate Relinks(run: Oracle, g: Graph, gone: Hash, outputs: seq<Output>) {
    MayRelink(run, g, gone, outputs) && Chains(run, g) && outputs != [] && NewTip(run, g, gone, outputs[0].hash)
  }

  lemma RelinksParts(run: Oracle, g: Graph, gone: Hash, outputs: seq<Output>)
    requires Relinks(run, g, gone, outputs)
    ensures outputs != [] && gone in g.thunks && gone in g.referencing && outputs[0].hash != gone
    ensures DepsMoved(g.thunks, Relinked(g, gone, outputs).thunks, gone, outputs[0].hash)
    ensures Deps(g.thunks[gone]) == {} && Chains(run, g) && NewTip(run, g, gone, outputs[0].hash)
    ensures outputs[0].hash.Thk? ==> outputs[0].hash in Relinked(g, gone, outputs).thunks
  {
    hide DepsMoved, Chains, Sound, StandsIn, WellFormed, Closed, Indexed, Sane;
    RelinkedDeps(run, g, gone, outputs);
    RelinkedKeys(g, gone, outputs);
  }

  // a is g with more thunks, of which the replacement of gone leads to all new ones.
  ghost predicate Enlarged(g: Graph, a: Graph, next: Hash) {
    Extended(g, a, next) && forall k | k in a.thunks && k !in g.thunks :: Reach(a.thunks, next, k)
  }

  // An open original still leads to everything it led to, except to gone.
  lemma RelinkedReach(run: Oracle, g: Graph, a: Graph, gone: Hash, outputs: seq<Output>, o: Hash, x: Hash)
    requires Relinks(run, a, gone, outputs) && gone in g.thunks && Extended(g, a, outputs[0].hash) && x != gone
    requires Open(g, o) && Reach(a.thunks, UpdatedHash(g, o), x)
    ensures var g' := Relinked(a, gone, outputs); Open(g', o) && Reach(g'.thunks, UpdatedHash(g', o), x)
  {
    hide Relinks, Relinked, DepsMoved, Chains, NewTip, Deps, Open, Extended;
    RelinksParts(run, a, gone, outputs);
    var tip := UpdatedHash(g, o);
    var n: nat :| ReachIn(a.thunks, tip, x, n);
    if tip == gone { ReachFromLeaf(a.thunks, gone, x, n); }
    RelinkedElsewhere(g, a, gone, outputs, o);
    ReachMoved(a.thunks, Relinked(a, gone, outputs).thunks, gone, outputs[0].hash, tip, x, n);
  }

  // And where it led to gone, it leads to the thunk that replaced it.
  lemma RelinkedReachNext(run: Oracle, g: Graph, a: Graph, gone: Hash, outputs: seq<Output>, o: Hash)
    requires Relinks(run, a, gone, outputs) && gone in g.thunks && Extended(g, a, outputs[0].hash)
    requires outputs[0].hash.Thk? && Open(g, o) && Reach(a.thunks, UpdatedHash(g, o), gone)
    ensures var g' := Relinked(a, gone, outputs); Open(g', o) && Reach(g'.thunks, UpdatedHash(g', o), outputs[0].hash)
  {
    hide Relinks, Relinked, DepsMoved, Chains, NewTip, Deps, Open, Extended;
    RelinksParts(run, a, gone, outputs);
    RelinksNext(run, a, gone, outputs);
    var tip, next := UpdatedHash(g, o), outputs[0].hash;
    var n: nat :| ReachIn(a.thunks, tip, gone, n);
    if tip == gone {
      RelinkedTip(g, a, gone, outputs, o);
      ReachSelf(Relinked(a, gone, outputs).thunks, next);
    } else {
      RelinkedElsewhere(g, a, gone, outputs, o);
      ReachMovedEnd(a.thunks, Relinked(a, gone, outputs).thunks, gone, next, tip, n);
    }
  }

  lemma RelinksNext(run: Oracle, g: Graph, gone: Hash, outputs: seq<Output>)
    requires Relinks(run, g, gone, outputs)
    ensures outputs != [] && (outputs[0].hash.Thk? ==> outputs[0].hash in g.thunks)
    ensures DeadEnd(run, gone) <==> outputs[0].hash.Value?
  {
    hide MayRelink, Chains, DeadEnd, Finished;
  }

  // update_hash points a chain at nothing but the new thunk, and ends none but that of gone.
  lemma RelinkedOnward(run: Oracle, g: Graph, a: Graph, gone: Hash, outputs: seq<Output>)
    requires Relinks(run, a, gone, outputs) && gone in g.thunks && Extended(g, a, outputs[0].hash)
    ensures Onward(run, g, Relinked(a, gone, outputs), gone, outputs[0].hash.Value?)
  {
    hide Relinks, Relinked, DepsMoved, Extended, DeadEnd, Going, Chains, NewTip;
    RelinksParts(run, a, gone, outputs);
    RelinksNext(run, a, gone, outputs);
    forall o ensures GoesOnward(run, g, Relinked(a, gone, outputs), gone, outputs[0].hash.Value?, o) {
      RelinkedGoing(run, g, a, gone, outputs, o);
    }
  }

  lemma OpenGrows(g: Graph, a: Graph, o: Hash)
    requires Open(g, o) && a.originals == g.originals && a.updated == g.updated
    requires forall k | k in g.thunks :: k in a.thunks
    requires forall k | k in a.thunks && k !in g.thunks :: UpdatedHash(g, k) !in g.thunks
    ensures Open(a, o) && UpdatedHash(a, o) == UpdatedHash(g, o)
  {
  }

  lemma RelinkedNeeds(run: Oracle, g: Graph, a: Graph, gone: Hash, outputs: seq<Output>, wanted: set<Hash>, x: Hash)
    requires Relinks(run, a, gone, outputs) && gone in g.thunks && x != gone
    requires Enlarged(g, a, outputs[0].hash)
    requires x in a.thunks && AllNeeded(g, wanted)
    ensures Needed(Relinked(a, gone, outputs), wanted, x)
  {
    hide Relinks, Relinked, Reach, Open;
    RelinksParts(run, a, gone, outputs);
    var next, after := outputs[0].hash, Relinked(a, gone, outputs);
    var y := if x in g.thunks then x else gone;
    assert Needed(g, wanted, y);
    var o :| o in wanted && Open(g, o) && Reach(g.thunks, UpdatedHash(g, o), y);
    ReachKept(g.thunks, a.thunks, UpdatedHash(g, o), y);
    if x in g.thunks {
      RelinkedReach(run, g, a, gone, outputs, o, x);
    } else {
      NewIsThunk(run, a, gone, outputs, x);
      RelinkedReachNext(run, g, a, gone, outputs, o);
      NextReaches(run, a, gone, outputs, x);
      ReachTrans(after.thunks, UpdatedHash(after, o), next, x);
    }
    NeededBy(after, wanted, x, o);
  }

  lemma NewIsThunk(run: Oracle, a: Graph, gone: Hash, outputs: seq<Output>, x: Hash)
    requires Relinks(run, a, gone, outputs) && Reach(a.thunks, outputs[0].hash, x)
    ensures outputs[0].hash.Thk?
  {
    hide Sound, StandsIn, WellFormed, Closed, Indexed, Chains, NewTip;
    assert Stored(run, outputs[0].hash, a.thunks[outputs[0].hash]);
  }

  lemma NextReaches(run: Oracle, a: Graph, gone: Hash, outputs: seq<Output>, x: Hash)
    requires Relinks(run, a, gone, outputs) && x != gone && Reach(a.thunks, outputs[0].hash, x)
    ensures Reach(Relinked(a, gone, outputs).thunks, outputs[0].hash, x)
  {
    hide Relinks, Relinked, DepsMoved, Chains, NewTip, Deps;
    RelinksParts(run, a, gone, outputs);
    var n: nat :| ReachIn(a.thunks, outputs[0].hash, x, n);
    ReachMoved(a.thunks, Relinked(a, gone, outputs).thunks, gone, outputs[0].hash, outputs[0].hash, x, n);
  }

  lemma RelinkedSupplied(run: Oracle, g: Graph, a: Graph, gone: Hash, outputs: seq<Output>)
    requires Relinks(run, a, gone, outputs) && gone in g.thunks && Enlarged(g, a, outputs[0].hash)
    ensures Supplied(g, Relinked(a, gone, outputs))
  {
    hide Relinks, Relinked, Enlarged, Needed;
    RelinksParts(run, a, gone, outputs);
    RelinkedKeys(a, gone, outputs);
    forall wanted | AllNeeded(g, wanted) ensures AllNeeded(Relinked(a, gone, outputs), wanted) {
      forall x | x in Relinked(a, gone, outputs).thunks ensures Needed(Relinked(a, gone, outputs), wanted, x) {
        RelinkedNeeds(run, g, a, gone, outputs, wanted, x);
      }
    }
  }
}
