/** How much work eager evaluation of a convergent hash amounts to, counted so that replacing a
    thunk by the thunk it returned, together with everything that one depends on, is a decrease. */
module Costs {
  import opened Thunks
  import opened Evaluation

  // ---------------------------------------------------------------- finite sums

  type Weights = map<Hash, nat>

  ghost function Any(s: set<Hash>): (h: Hash)
    requires s != {}
    ensures h in s
  {
    var h :| h in s; h
  }

  ghost function Sum(w: Weights): nat
    decreases |w|
  {
    if w == map[] then 0 else var k := Any(w.Keys); w[k] + Sum(w - {k})
  }

  lemma {:induction false} SumRemove(w: Weights, k: Hash)
    requires k in w
    ensures Sum(w) == w[k] + Sum(w - {k})
    decreases |w|
  {
    var j := Any(w.Keys);
    if j != k {
      SumRemove(w - {j}, k);
      SumRemove(w - {k}, j);
      assert w - {j} - {k} == w - {k} - {j};
    }
  }

  // Every entry of c is paid for by a or by b.
  lemma {:induction false} SumCovered(a: Weights, b: Weights, c: Weights)
    requires forall k | k in c :: (k in a && c[k] <= a[k]) || (k in b && c[k] <= b[k])
    ensures Sum(c) <= Sum(a) + Sum(b)
    decreases |c|
  {
    if c != map[] {
      var k := Any(c.Keys);
      SumRemove(c, k);
      if k in a && c[k] <= a[k] {
        SumRemove(a, k);
        SumCovered(a - {k}, b, c - {k});
      } else {
        SumRemove(b, k);
        SumCovered(a, b - {k}, c - {k});
      }
    }
  }

  lemma SumGrows(a: Weights, b: Weights)
    requires forall k | k in a :: k in b && a[k] <= b[k]
    ensures Sum(a) <= Sum(b)
  {
    SumCovered(b, map[], a);
  }

  lemma SumSingle(k: Hash, n: nat)
    ensures Sum(map[k := n]) == n
  {
    var w: Weights := map[k := n];
    SumRemove(w, k);
    assert w - {k} == map[];
  }

  // ---------------------------------------------------------------- depth of an evaluation

  ghost function Least(p: nat -> bool, i: nat, n: nat): (m: nat)
    requires i <= n && p(n) && forall j: nat | j < i :: !p(j)
    ensures p(m) && forall j: nat | j < m :: !p(j)
    decreases n - i
  {
    if p(i) then i else Least(p, i + 1, n)
  }

  ghost function Found(run: Oracle, h: Hash): nat -> bool { (n: nat) => Eval(run, n, h).Some? }

  lemma FoundSome(run: Oracle, h: Hash, n: nat)
    ensures Found(run, h)(n) <==> Eval(run, n, h).Some?
  {
  }

  // The least depth at which h evaluates.
  ghost function Height(run: Oracle, h: Hash): nat
    requires Converges(run, h)
  {
    FoundSome(run, h, Depth(run, h));
    Least(Found(run, h), 0, Depth(run, h))
  }

  lemma HeightFound(run: Oracle, h: Hash)
    requires Converges(run, h)
    ensures Eval(run, Height(run, h), h).Some?
  {
    FoundSome(run, h, Height(run, h));
  }

  lemma HeightAtMost(run: Oracle, h: Hash, n: nat)
    requires Found(run, h)(n)
    ensures Converges(run, h) && Height(run, h) <= n
  {
    FoundSome(run, h, n);
  }

  // What is left to evaluate after running t.
  ghost function Nexts(run: Oracle, t: Thunk): set<Hash> {
    set o | o in run(Resolve(MeaningOf(run), t)) && o.Thk?
  }

  lemma RefFound(run: Oracle, n: nat, r: Ref)
    requires EvalRef(run, n)(r).Some?
    ensures Found(run, r.base)(n)
  {
  }

  lemma LowerRef(run: Oracle, h: Hash, n: nat, r: Ref)
    requires Converges(run, h) && n < Height(run, h) && EvalRef(run, n)(r).Some?
    ensures Converges(run, r.base) && Height(run, r.base) < Height(run, h)
  {
    RefFound(run, n, r);
    HeightAtMost(run, r.base, n);
  }

  // What a convergent thunk needs and what it continues with were found one level below.
  lemma PartsFound(run: Oracle, t: Thunk) returns (n: nat)
    requires Converges(run, Thk(t))
    ensures n < Height(run, Thk(t))
    ensures forall r | r in Needs(t) :: EvalRef(run, n)(r).Some?
    ensures var outs := run(Resolve(MeaningOf(run), t));
            |outs| == |t.outputs| && forall j | 0 <= j < |outs| :: EvalRef(run, n)(NextRef(t.outputs, outs, j)).Some?
  {
    var top := Height(run, Thk(t));
    HeightFound(run, Thk(t));
    NotAtZero(run, t, top);
    n := top - 1;
    MeaningIsStep(run, t, top, n);
    StepParts(run, t, n, top);
  }

  lemma StepParts(run: Oracle, t: Thunk, n: nat, top: nat)
    requires top == n + 1 && Eval(run, top, Thk(t)).Some?
    ensures forall r | r in Needs(t) :: EvalRef(run, n)(r).Some?
    ensures var outs := run(Resolve(EvalRef(run, n), t));
            |outs| == |t.outputs| && forall j | 0 <= j < |outs| :: EvalRef(run, n)(NextRef(t.outputs, outs, j)).Some?
  {
    EvalUnfold(run, n, t);
    GatherParts(EvalRef(run, n), t.outputs, run(Resolve(EvalRef(run, n), t)));
  }

  lemma GatherParts(val: Valuation, tags: seq<string>, outs: seq<Hash>)
    ensures Gather(val, tags, outs).Some? ==>
              |outs| == |tags| && forall j | 0 <= j < |outs| :: val(NextRef(tags, outs, j)).Some?
  {
  }

  // ---------------------------------------------------------------- cost

  ghost predicate AllLower(run: Oracle, hs: set<Hash>, h: Hash)
    requires Converges(run, h)
  {
    forall x | x in hs :: Converges(run, x) && Height(run, x) < Height(run, h)
  }

  lemma PartsLower(run: Oracle, t: Thunk)
    requires Converges(run, Thk(t))
    ensures AllLower(run, Bases(Needs(t)), Thk(t)) && AllLower(run, Nexts(run, t), Thk(t))
  {
    var n := PartsFound(run, t);
    forall x | x in Bases(Needs(t)) ensures Converges(run, x) && Height(run, x) < Height(run, Thk(t)) {
      var r :| r in Needs(t) && r.base == x;
      LowerRef(run, Thk(t), n, r);
    }
    var outs := run(Resolve(MeaningOf(run), t));
    forall x | x in Nexts(run, t) ensures Converges(run, x) && Height(run, x) < Height(run, Thk(t)) {
      var j :| 0 <= j < |outs| && outs[j] == x;
      LowerRef(run, Thk(t), n, NextRef(t.outputs, outs, j));
    }
  }

  // The cost of h and of everything below it.
  ghost function Cost(run: Oracle, h: Hash): nat
    requires Converges(run, h)
    decreases Height(run, h), 1
  {
    if h.Value? then 0
    else
      PartsLower(run, h.thunk);
      assert h == Thk(h.thunk);
      1 + 2 * Sum(CostsOf(run, Bases(Needs(h.thunk)), h)) + Sum(CostsOf(run, Nexts(run, h.thunk), h))
  }

  ghost function CostsOf(run: Oracle, hs: set<Hash>, h: Hash): Weights
    requires Converges(run, h) && AllLower(run, hs, h)
    decreases Height(run, h), 0
  {
    map x | x in hs :: Cost(run, x)
  }

  ghost function CostMap(run: Oracle, hs: set<Hash>): Weights
    requires forall x | x in hs :: Converges(run, x)
  {
    map x | x in hs :: Cost(run, x)
  }

  // The part of the cost that is due to the thunk itself.
  ghost function Own(run: Oracle, t: Thunk): nat
    requires Converges(run, Thk(t))
  {
    PartsLower(run, t);
    1 + Sum(CostMap(run, Bases(Needs(t)))) + Sum(CostMap(run, Nexts(run, t)))
  }

  lemma CostIs(run: Oracle, t: Thunk)
    requires Converges(run, Thk(t))
    ensures forall x | x in Bases(Needs(t)) :: Converges(run, x)
    ensures Cost(run, Thk(t)) == Own(run, t) + Sum(CostMap(run, Bases(Needs(t))))
  {
    PartsLower(run, t);
    assert CostsOf(run, Bases(Needs(t)), Thk(t)) == CostMap(run, Bases(Needs(t)));
    assert CostsOf(run, Nexts(run, t), Thk(t)) == CostMap(run, Nexts(run, t));
  }

  lemma NeededBases(t: Thunk)
    requires TidyThunk(t)
    ensures Bases(Needs(t)) == Deps(t)
  {
    forall d | d in Deps(t) ensures d in Bases(Needs(t)) {
      var r :| r in ItemRefs(t.thunks) && r.base == d;
      assert r in Needs(t);
    }
  }

  // A dependency costs less than the thunk's own part, so costs order the graph.
  lemma DepCostsLess(run: Oracle, t: Thunk, d: Hash)
    requires TidyThunk(t) && Converges(run, Thk(t)) && d in Deps(t)
    ensures Converges(run, d) && Cost(run, d) < Own(run, t)
  {
    NeededBases(t);
    PartsLower(run, t);
    SumRemove(CostMap(run, Deps(t)), d);
  }

  lemma OwnWithinCost(run: Oracle, t: Thunk)
    requires Converges(run, Thk(t))
    ensures Own(run, t) <= Cost(run, Thk(t))
  {
    CostIs(run, t);
  }

  lemma NextsOfExecuted(run: Oracle, t: Thunk)
    requires TidyThunk(t) && t.CanBeExecuted() && Orderly(t, run(t))
    ensures Nexts(run, t) == if run(t)[0].Thk? then {run(t)[0]} else {}
  {
    NothingNeeded(t);
    SubstIdentity(t, ValuesFor(MeaningOf(run), Needs(t)));
    assert run(t)[0] in run(t);
  }

  lemma OwnOfNeedless(run: Oracle, t: Thunk)
    requires Converges(run, Thk(t)) && Needs(t) == {}
    ensures (forall x | x in Nexts(run, t) :: Converges(run, x))
    ensures Own(run, t) == Cost(run, Thk(t)) == 1 + Sum(CostMap(run, Nexts(run, t)))
  {
    PartsLower(run, t);
    CostIs(run, t);
    assert CostMap(run, Bases(Needs(t))) == map[];
  }

  // Running a thunk uses up one unit and leaves the thunk it returned, if any.
  lemma OwnOfExecuted(run: Oracle, t: Thunk)
    requires TidyThunk(t) && t.CanBeExecuted() && Converges(run, Thk(t)) && Orderly(t, run(t))
    ensures Own(run, t) == Cost(run, Thk(t))
    ensures run(t)[0].Thk? ==> Converges(run, run(t)[0]) && Own(run, t) == 1 + Cost(run, run(t)[0])
    ensures run(t)[0].Value? ==> Own(run, t) == 1
  {
    NothingNeeded(t);
    NextsOfExecuted(run, t);
    OwnOfNeedless(run, t);
    var next := run(t)[0];
    if next.Thk? {
      assert next in Nexts(run, t);
      SingleCost(run, next);
    } else {
      assert CostMap(run, {}) == map[];
    }
  }

  lemma SingleCost(run: Oracle, h: Hash)
    requires Converges(run, h)
    ensures Sum(CostMap(run, {h})) == Cost(run, h)
  {
    assert CostMap(run, {h}) == map[h := Cost(run, h)];
    SumSingle(h, Cost(run, h));
  }

  lemma MovedCosts(run: Oracle, deps: set<Hash>, gone: Hash, next: Hash)
    requires forall x | x in deps + MovedDeps(deps, gone, next) :: Converges(run, x)
    requires next.Thk? && gone in deps ==> Converges(run, next) && Cost(run, next) <= Cost(run, gone)
    ensures Sum(CostMap(run, MovedDeps(deps, gone, next))) <= Sum(CostMap(run, deps))
  {
    var before, after := CostMap(run, deps), CostMap(run, MovedDeps(deps, gone, next));
    if gone in deps && next.Thk? {
      SumRemove(before, gone);
      SumSingle(next, Cost(run, next));
      SumCovered(before - {gone}, map[next := Cost(run, next)], after);
    } else {
      SumGrows(after, before);
    }
  }

  // Moving a dependency to something that costs no more does not increase the cost.
  lemma CostMoved(run: Oracle, t: Thunk, u: Thunk, gone: Hash, next: Hash)
    requires TidyThunk(t) && TidyThunk(u) && Deps(u) == MovedDeps(Deps(t), gone, next)
    requires Converges(run, Thk(t)) && Converges(run, Thk(u))
    requires Resolve(MeaningOf(run), u) == Resolve(MeaningOf(run), t)
    requires next.Thk? && gone in Deps(t) ==>
              Converges(run, next) && Converges(run, gone) && Cost(run, next) <= Cost(run, gone)
    ensures Own(run, u) <= Own(run, t) && Cost(run, Thk(u)) <= Cost(run, Thk(t))
  {
    NeededBases(t);
    NeededBases(u);
    CostIs(run, t);
    CostIs(run, u);
    MovedCosts(run, Deps(t), gone, next);
    assert Nexts(run, u) == Nexts(run, t);
  }
}
