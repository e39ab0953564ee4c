/** Loading a thunk and everything it depends on into the graph (add_thunk). */
module Loading {
  import opened Thunks
  import opened Evaluation
  import opened Costs
  import opened Replacement
  import opened Graphs
  import opened Forcing
  import opened Reachability

  // The stored thunk that stands for h, if one is stored; otherwise h itself.
  function Target(g: Graph, h: Hash): Hash {
    if UpdatedHash(g, h) in g.thunks then UpdatedHash(g, h) else h
  }

  // What each dependency was added as: itself, or what it has become.
  type Choice = map<Hash, Hash>

  ghost predicate Chosen(g: Graph, m: Choice) {
    forall b | b in m :: m[b] == b || (b in g.updated && m[b] == g.updated[b])
  }

  // Nothing that stands for a dependency is a dependency that something else stands for.
  ghost predicate Direct(m: Choice) { forall b | b in m && m[b] != b && m[b] in m :: m[m[b]] == m[b] }

  function Targets(m: Choice, hs: set<Hash>): set<Hash>
    requires hs <= m.Keys
  {
    set h | h in hs :: m[h]
  }

  // Loading h stores no thunk that its own end would have to be loaded for, and redirects no dependency of a
  // thunk to another of its dependencies that is redirected, too.
  predicate Loadable(g: Graph, h: Hash) {
    && (forall b | b in Closure(h) && b in g.updated && g.updated[b] !in g.thunks :: g.updated[b] !in Closure(b))
    && (forall k, b | k in Closure(h) && k.Thk? && b in Deps(k.thunk) && b in g.updated ::
          OneHop(g, h, k, g.updated[b]))
  }

  predicate OneHop(g: Graph, h: Hash, k: Hash, u: Hash)
    requires k.Thk?
  {
    u in Deps(k.thunk) && u in g.updated ==> g.updated[u] !in g.thunks && g.updated[u] !in Closure(h)
  }

  function ValueNames(t: Thunk): set<Hash> { Bases(ItemRefs(t.values)) }
  function ExecutableNames(t: Thunk): set<Hash> { Bases(ItemRefs(t.executables)) }

  // They are what the entries name.
  lemma NamesOfEntries(t: Thunk)
    ensures forall v :: v in ValueNames(t) <==> exists i :: i in t.values && i.ref.base == v
    ensures forall v :: v in ExecutableNames(t) <==> exists i :: i in t.executables && i.ref.base == v
    ensures forall d :: d in Deps(t) <==> exists i :: i in t.thunks && i.ref.base == d
  {
    EntriesOf(t.values);
    EntriesOf(t.executables);
    EntriesOf(t.thunks);
  }

  lemma EntriesOf(items: multiset<Item>)
    ensures forall h :: h in Bases(ItemRefs(items)) <==> exists i :: i in items && i.ref.base == h
  {
    forall i | i in items ensures i.ref.base in Bases(ItemRefs(items)) { assert i.ref in ItemRefs(items); }
  }

  ghost function Loaded(g: Graph, g': Graph): set<Hash> { g'.thunks.Keys - g.thunks.Keys }

  // g' extends g by loaded thunks out of from, and collects exactly their values and executables.
  ghost predicate Grown(g: Graph, g': Graph, from: set<Hash>) {
    && g'.originals == g.originals && g'.updated == g.updated
    && (forall k | k in g.thunks :: k in g'.thunks && g'.thunks[k] == g.thunks[k])
    && (forall k | k in Loaded(g, g') :: k.Thk? && k in from && UpdatedHash(g, k) !in g.thunks)
    && g'.values == g.values + (set k, v | k in Loaded(g, g') && k.Thk? && v in ValueNames(k.thunk) :: v)
    && g'.executables == g.executables + (set k, v | k in Loaded(g, g') && k.Thk? && v in ExecutableNames(k.thunk) :: v)
  }

  lemma GrownSelf(g: Graph, from: set<Hash>)
    ensures Grown(g, g, from)
  {
  }

  lemma GrownTrans(a: Graph, b: Graph, c: Graph, from: set<Hash>)
    requires Grown(a, b, from) && Grown(b, c, from)
    ensures Grown(a, c, from)
  {
    assert Loaded(a, c) == Loaded(a, b) + Loaded(b, c);
  }

  lemma GrownWider(a: Graph, b: Graph, from: set<Hash>, wider: set<Hash>)
    requires Grown(a, b, from) && from <= wider
    ensures Grown(a, b, wider)
  {
  }

  // What stands for a dependency is soundly chosen.
  lemma TargetStandsIn(run: Oracle, g: Graph, m: Choice, b: Hash)
    requires ChainsSound(run, g) && Chosen(g, m) && b in m && WellFormed(b) && b.Thk?
    ensures StandsIn(run, b, m[b]) && WellFormed(m[b])
  {
    hide StandsIn, WellFormed;
    StandsInSelf(run, b);
    if m[b] != b { assert ChainSound(run, b, g.updated[b]); }
  }

  lemma LoadableDep(g: Graph, h: Hash, d: Hash)
    requires h.Thk? && Loadable(g, h) && d in Deps(h.thunk)
    ensures Loadable(g, d) && d < h && Closure(d) <= Closure(h)
  {
    ClosureOfDep(h, d);
    forall k, b | k in Closure(d) && k.Thk? && b in Deps(k.thunk) && b in g.updated
      ensures OneHop(g, d, k, g.updated[b]) {
      assert OneHop(g, h, k, g.updated[b]);
    }
  }

  lemma LoadableKept(g: Graph, g': Graph, h: Hash)
    requires Grown(g, g', Closure(h)) && Loadable(g, h)
    ensures Loadable(g', h)
  {
    hide Closure, Deps, ValueNames, ExecutableNames;
    forall k, b | k in Closure(h) && k.Thk? && b in Deps(k.thunk) && b in g'.updated
      ensures OneHop(g', h, k, g'.updated[b]) {
      assert OneHop(g, h, k, g.updated[b]);
    }
  }

  lemma {:induction false} ClosureSmaller(h: Hash, k: Hash)
    requires k in Closure(h)
    ensures k.Thk? && (k == h || k < h)
    decreases h
  {
    if k != h {
      var i :| i in h.thunk.thunks && k in Closure(i.ref.base);
      ClosureSmaller(i.ref.base, k);
    }
  }

  // ---------------------------------------------------------------- redirecting the dependencies of a loaded thunk

  datatype Update = Update(base: Hash, target: Hash)

  // Some of hs were exchanged for what stands for them.
  ghost predicate Exchanged(m: Choice, hs: set<Hash>, ds: set<Hash>)
    requires hs <= m.Keys
  {
    && (forall d | d in ds :: exists b :: b in hs && (d == b || d == m[b]))
    && (forall b | b in hs :: b in ds || m[b] in ds)
  }

  // t arose from the blob of h by redirecting some dependencies to what stands for them.
  ghost predicate Redirecting(run: Oracle, m: Choice, h: Hash, t: Thunk) {
    && h.Thk? && Stored(run, h, t) && Deps(h.thunk) <= m.Keys
    && (Converges(run, h) ==> Converges(run, Thk(t)) && Own(run, t) <= Own(run, h.thunk))
    && Exchanged(m, Deps(h.thunk), Deps(t))
  }

  lemma RedirectingStart(run: Oracle, m: Choice, h: Hash)
    requires h.Thk? && WellFormed(h) && Deps(h.thunk) <= m.Keys
    ensures Redirecting(run, m, h, h.thunk)
  {
    StandsInSelf(run, h);
    assert h == Thk(h.thunk);
  }

  lemma ExchangeOne(m: Choice, hs: set<Hash>, ds: set<Hash>, u: Update)
    requires hs <= m.Keys && Exchanged(m, hs, ds) && Direct(m)
    requires u.base in hs && u.target == m[u.base] && u.target != u.base && u.target.Thk?
    ensures Exchanged(m, hs, MovedDeps(ds, u.base, u.target))
  {
    forall b | b in hs ensures b in MovedDeps(ds, u.base, u.target) || m[b] in MovedDeps(ds, u.base, u.target) {
      assert b in ds || m[b] in ds;
      assert m[b] != b && m[b] in m ==> m[m[b]] == m[b];
    }
  }

  lemma RedirectSubst(run: Oracle, h: Hash, t: Thunk, a: Hash, b: Hash)
    requires h.Thk? && Stored(run, h, t) && StandsIn(run, a, b)
    requires Converges(run, h) ==> Converges(run, Thk(t)) && Own(run, t) <= Own(run, h.thunk)
    ensures t.outputs != []
    ensures var t' := Subst(t, OutputSub(a, AllOutputs(b, t.outputs)));
            && Stored(run, h, t') && Deps(t') == MovedDeps(Deps(t), a, b)
            && (Converges(run, h) ==> Converges(run, Thk(t')) && Own(run, t') <= Own(run, h.thunk))
  {
    RedirectSound(run, a, b, t.outputs, t);
    Moved(run, t, a, AllOutputs(b, t.outputs), b);
    RunnableDeps(t);
    RunnableDeps(Subst(t, OutputSub(a, AllOutputs(b, t.outputs))));
    StandsInTrans(run, h, Thk(t), Thk(Subst(t, OutputSub(a, AllOutputs(b, t.outputs)))));
  }

  lemma RedirectStep(run: Oracle, g: Graph, m: Choice, h: Hash, t: Thunk, u: Update)
    requires Redirecting(run, m, h, t) && ChainsSound(run, g) && Chosen(g, m) && Direct(m) && WellFormed(h)
    requires u.base in Deps(h.thunk) && u.target == m[u.base] && u.target != u.base
    ensures t.outputs != [] && u.base.Thk?
    ensures Redirecting(run, m, h, Subst(t, OutputSub(u.base, AllOutputs(u.target, t.outputs))))
    ensures Deps(Subst(t, OutputSub(u.base, AllOutputs(u.target, t.outputs)))) == MovedDeps(Deps(t), u.base, u.target)
  {
    hide StandsIn, Subst, OutputSub, WellFormed, TidyThunk, Own, Converges, Deps, Exchanged, Direct, ChainsSound,
        Chosen;
    DepWellFormed(h, u.base);
    TargetStandsIn(run, g, m, u.base);
    StandsInThunk(run, u.base, u.target);
    RedirectSubst(run, h, t, u.base, u.target);
    ExchangeOne(m, Deps(h.thunk), Deps(t), u);
  }

  lemma StandsInThunk(run: Oracle, a: Hash, b: Hash)
    requires StandsIn(run, a, b)
    ensures a.Thk? && b.Thk?
  {
  }

  lemma DepWellFormed(h: Hash, d: Hash)
    requires h.Thk? && WellFormed(h) && d in Deps(h.thunk)
    ensures WellFormed(d) && d.Thk?
  {
    var r :| r in ItemRefs(h.thunk.thunks) && r.base == d;
    var i :| i in h.thunk.thunks && i.ref == r;
  }

  // ---------------------------------------------------------------- storing the loaded thunk

  // The graph with h stored as t: the index learns of h, and nothing refers to h yet.
  ghost function Inserted(g: Graph, h: Hash, t: Thunk): Graph {
    g.(thunks := g.thunks[h := t],
       values := g.values + (if h.Thk? then ValueNames(h.thunk) else {}),
       executables := g.executables + (if h.Thk? then ExecutableNames(h.thunk) else {}),
       referencing := (map d | d in g.referencing ::
                         if d in Deps(t) then g.referencing[d] + {h} else g.referencing[d])[h := {}])
  }

  lemma InsertedIndexed(run: Oracle, g: Graph, h: Hash, t: Thunk)
    requires Closed(g) && Indexed(g, {}) && h !in g.thunks && (forall d | d in Deps(t) :: d in g.thunks)
    ensures Closed(Inserted(g, h, t)) && Indexed(Inserted(g, h, t), {})
  {
    hide Deps, ValueNames, ExecutableNames;
    var g' := Inserted(g, h, t);
    forall d | d in g'.thunks ensures d in g'.referencing && g'.referencing[d] == Referrers(g'.thunks, d) {
      if d != h {
        assert g.referencing[d] == Referrers(g.thunks, d);
        assert Referrers(g'.thunks, d) == Referrers(g.thunks, d) + if d in Deps(t) then {h} else {};
      } else {
        assert Referrers(g'.thunks, h) == {};
      }
    }
  }

  lemma InsertedChains(run: Oracle, g: Graph, h: Hash, t: Thunk)
    requires Chains(run, g) && h !in g.thunks && !Alive(run, g, h)
    ensures Chains(run, Inserted(g, h, t))
  {
    hide DeadEnd, ChainSound;
    var g' := Inserted(g, h, t);
    forall u | u in g'.originals ensures DeadEnd(run, u) || IsTip(g', u) { assert DeadEnd(run, u) || IsTip(g, u); }
    forall o | o in g'.updated ensures DeadEnd(run, g'.updated[o]) || IsKnown(g', o) {
      assert DeadEnd(run, g.updated[o]) || IsKnown(g, o);
    }
    forall o | o in g'.thunks ensures !Alive(run, g', o) {
      assert !Alive(run, g, o);
      if o in g.updated { ChainMoves(run, g, o); }
    }
  }

  lemma InsertedSane(run: Oracle, g: Graph, h: Hash, t: Thunk)
    requires Sane(run, g) && Keyed(g, {}) && Stored(run, h, t) && h !in g.thunks && (t.CanBeExecuted() ==> h == Thk(t))
    ensures Sane(run, Inserted(g, h, t)) && Keyed(Inserted(g, h, t), {})
  {
    hide Stored;
    var g' := Inserted(g, h, t);
    forall k | k in g'.thunks ensures Stored(run, k, g'.thunks[k]) { assert k == h || Stored(run, k, g.thunks[k]); }
  }

  lemma InsertedValid(run: Oracle, g: Graph, h: Hash, t: Thunk)
    requires Valid(run, g) && h !in g.thunks && !Alive(run, g, h)
    requires Stored(run, h, t) && (forall d | d in Deps(t) :: d in g.thunks)
    requires t.CanBeExecuted() ==> h == Thk(t)
    ensures Valid(run, Inserted(g, h, t))
  {
    hide Closed, Indexed, Sane, Keyed, Chains, Stored, Deps, Alive;
    InsertedIndexed(run, g, h, t);
    InsertedChains(run, g, h, t);
    InsertedSane(run, g, h, t);
  }

  lemma InsertedMeasure(run: Oracle, g: Graph, h: Hash, t: Thunk)
    requires Measurable(run, g) && h !in g.thunks && Converges(run, Thk(t))
    ensures Measurable(run, Inserted(g, h, t)) && Measure(run, Inserted(g, h, t)) == Own(run, t) + Measure(run, g)
  {
    var g' := Inserted(g, h, t);
    forall k | k in g'.thunks ensures Converges(run, Thk(g'.thunks[k])) { assert k == h || k in g.thunks; }
    OwnMapAdd(run, g.thunks, g'.thunks, h);
  }

  // ---------------------------------------------------------------- add_thunk as a whole

  // Loading h costs at most what evaluating h costs.
  ghost predicate LoadCost(run: Oracle, g: Graph, g': Graph, h: Hash) {
    Measurable(run, g) && Convergent(run, g) && Converges(run, h) ==>
      Convergent(run, g') && Measurable(run, g') && Measure(run, g') <= Measure(run, g) + Cost(run, h)
  }

  // The result u and the new graph g' of add_thunk(h).
  ghost predicate Added(run: Oracle, g: Graph, g': Graph, h: Hash, u: Hash) {
    && Valid(run, g') && Grown(g, g', Closure(h))
    && u == Target(g, h) && u in g'.thunks
    && (u in g.thunks ==> g' == g)
    && (u !in g.thunks ==> u == h && Referrers(g'.thunks, h) == {})
    && (forall k | k in Loaded(g, g') :: Reach(g'.thunks, u, k))
    && LoadCost(run, g, g', h)
  }

  lemma AddedNothing(run: Oracle, g: Graph, h: Hash)
    requires Valid(run, g) && Target(g, h) in g.thunks
    ensures Added(run, g, g, h, Target(g, h))
  {
    hide Consistent, Measure;
    GrownSelf(g, Closure(h));
  }

  // The state of add_thunk(h) after the dependencies in m have been added, and as what.
  ghost predicate Progress(run: Oracle, g: Graph, g': Graph, h: Hash, m: Choice) {
    && Valid(run, g') && Grown(g, g', Closure(h)) && h !in g'.thunks && Chosen(g, m)
    && (forall b | b in m :: m[b] in g'.thunks)
    && (forall k | k in Loaded(g, g') :: LeadTo(g'.thunks, m, k))
    && ProgressCost(run, g, g', h, m.Keys)
  }

  // What stands for some dependency leads to k.
  ghost predicate LeadTo(thunks: map<Hash, Thunk>, m: Choice, k: Hash) { exists b :: b in m && Reach(thunks, m[b], k) }

  ghost predicate ProgressCost(run: Oracle, g: Graph, g': Graph, h: Hash, done: set<Hash>) {
    Measurable(run, g) && Convergent(run, g) && Converges(run, h) ==>
      && Convergent(run, g') && Measurable(run, g') && (forall b | b in done :: Converges(run, b))
      && Measure(run, g') <= Measure(run, g) + Sum(CostMap(run, done))
  }

  lemma ProgressStart(run: Oracle, g: Graph, h: Hash)
    requires Valid(run, g) && h !in g.thunks
    ensures Progress(run, g, g, h, map[])
  {
    hide Consistent, Measure, Convergent, Measurable;
    GrownSelf(g, Closure(h));
    assert CostMap(run, {}) == map[];
  }

  lemma CostMapAdd(run: Oracle, done: set<Hash>, d: Hash)
    requires (forall x | x in done :: Converges(run, x)) && Converges(run, d) && d !in done
    ensures forall x | x in done + {d} :: Converges(run, x)
    ensures Sum(CostMap(run, done + {d})) == Cost(run, d) + Sum(CostMap(run, done))
  {
    hide Converges, Cost;
    WeightsAdd(CostMap(run, done), CostMap(run, done + {d}), d);
  }

  lemma ProgressCostStep(run: Oracle, g: Graph, a: Graph, b: Graph, h: Hash, done: set<Hash>, d: Hash)
    requires ProgressCost(run, g, a, h, done) && LoadCost(run, a, b, d) && (d in done ==> b == a)
    requires h.Thk? && WellFormed(h) && d in Deps(h.thunk)
    ensures ProgressCost(run, g, b, h, done + {d})
  {
    hide Measure, Convergent, Measurable, Cost, Converges, Own, Deps;
    if d in done {
      assert done + {d} == done;
    } else if Measurable(run, g) && Convergent(run, g) && Converges(run, h) {
      assert h == Thk(h.thunk);
      DepCostsLess(run, h.thunk, d);
      CostMapAdd(run, done, d);
    }
  }

  lemma ProgressReach(g: Graph, a: Graph, b: Graph, from: set<Hash>, m: Choice, d: Hash, u: Hash, k: Hash)
    requires Grown(a, b, from) && k in Loaded(g, b) && (d in m ==> m[d] == u)
    requires forall k | k in Loaded(g, a) :: LeadTo(a.thunks, m, k)
    requires forall k | k in Loaded(a, b) :: Reach(b.thunks, u, k)
    ensures LeadTo(b.thunks, m[d := u], k)
  {
    var more := m[d := u];
    if k in a.thunks {
      assert k in Loaded(g, a);
      var c :| c in m && Reach(a.thunks, m[c], k);
      ReachKept(a.thunks, b.thunks, m[c], k);
      assert c in more && more[c] == m[c];
    } else {
      assert k in Loaded(a, b);
      assert d in more && more[d] == u;
    }
  }

  // Another dependency has been added; or the same one once more, which changes nothing.
  lemma ProgressStep(run: Oracle, g: Graph, a: Graph, b: Graph, h: Hash, m: Choice, d: Hash, u: Hash)
    requires Progress(run, g, a, h, m) && Added(run, a, b, d, u) && (d in m ==> m[d] == u && b == a)
    requires h.Thk? && WellFormed(h) && d in Deps(h.thunk)
    ensures Progress(run, g, b, h, m[d := u])
  {
    hide Valid, ProgressCost, LoadCost, WellFormed, Reach, Deps, Grown, Closure, Referrers;
    ClosureOfDep(h, d);
    GrownWider(a, b, Closure(d), Closure(h));
    GrownTrans(g, a, b, Closure(h));
    NotAmongDeps(a, b, h, d);
    StaysStored(a, b, Closure(d), m.Values);
    ChosenMore(g, a, Closure(h), m, d);
    ProgressCostStep(run, g, a, b, h, m.Keys, d);
    assert m[d := u].Keys == m.Keys + {d};
    forall k | k in Loaded(g, b) ensures LeadTo(b.thunks, m[d := u], k) {
      ProgressReach(g, a, b, Closure(h), m, d, u, k);
    }
  }

  lemma ChosenMore(g: Graph, a: Graph, from: set<Hash>, m: Choice, d: Hash)
    requires Grown(g, a, from) && Chosen(g, m)
    ensures Chosen(g, m[d := Target(a, d)])
  {
  }

  lemma StaysStored(a: Graph, b: Graph, from: set<Hash>, hs: set<Hash>)
    requires Grown(a, b, from)
    ensures forall x | x in hs && x in a.thunks :: x in b.thunks
  {
  }

  // Once d has been added it is answered alike, for as long as nothing else is added.
  lemma AnsweredAlike(run: Oracle, a: Graph, b: Graph, d: Hash, u: Hash)
    requires Added(run, a, b, d, u) && Loadable(a, d) && d.Thk?
    ensures Target(b, d) == u
  {
    hide Valid, LoadCost, Reach;
    HashInClosure(d);
  }

  // No dependency is redirected twice.
  lemma ChoiceDirect(run: Oracle, g: Graph, g': Graph, h: Hash, m: Choice)
    requires h.Thk? && Loadable(g, h) && Progress(run, g, g', h, m) && m.Keys == Deps(h.thunk)
    ensures Direct(m)
  {
    hide Valid, ProgressCost, Reach, Deps, ValueNames, ExecutableNames;
    HashInClosure(h);
    forall b | b in m && m[b] != b && m[b] in m ensures m[m[b]] == m[b] {
      assert OneHop(g, h, h, m[b]);
      assert m[m[b]] in g'.thunks;
    }
  }

  // Loading a dependency of h does not load h.
  lemma NotAmongDeps(a: Graph, b: Graph, h: Hash, d: Hash)
    requires Grown(a, b, Closure(d)) && h !in a.thunks && d < h
    ensures h !in b.thunks
  {
    if h in Closure(d) { ClosureSmaller(d, h); }
  }

  // All dependencies have been redirected once no update is left.
  lemma RedirectedDeps(m: Choice, h: Hash, t: Thunk)
    requires h.Thk? && Deps(h.thunk) <= m.Keys && Exchanged(m, Deps(h.thunk), Deps(t))
    requires forall b | b in Deps(h.thunk) && m[b] != b :: b !in Deps(t)
    ensures Deps(t) == Targets(m, Deps(h.thunk))
  {
    hide Deps;
  }

  lemma InsertedReach(g': Graph, h: Hash, t: Thunk, m: Choice, k: Hash)
    requires h !in g'.thunks && Deps(t) == Targets(m, m.Keys)
    requires LeadTo(g'.thunks, m, k)
    ensures Reach(Inserted(g', h, t).thunks, h, k)
  {
    hide Deps, Reach;
    var b :| b in m && Reach(g'.thunks, m[b], k);
    var after := Inserted(g', h, t).thunks;
    ReachKept(g'.thunks, after, m[b], k);
    ReachStep(after, h, m[b], k);
  }

  lemma InsertedCost(run: Oracle, g: Graph, g': Graph, h: Hash, t: Thunk)
    requires h.Thk? && WellFormed(h) && ProgressCost(run, g, g', h, Deps(h.thunk)) && h !in g'.thunks
    requires Stored(run, h, t) && (Converges(run, h) ==> Converges(run, Thk(t)) && Own(run, t) <= Own(run, h.thunk))
    ensures LoadCost(run, g, Inserted(g', h, t), h)
  {
    if Measurable(run, g) && Convergent(run, g) && Converges(run, h) {
      assert h == Thk(h.thunk);
      NeededBases(h.thunk);
      CostIs(run, h.thunk);
      InsertedMeasure(run, g', h, t);
    }
  }

  lemma HashInClosure(h: Hash)
    requires h.Thk?
    ensures h in Closure(h)
  {
  }

  lemma InsertedGrown(g: Graph, g': Graph, h: Hash, t: Thunk)
    requires Grown(g, g', Closure(h)) && h.Thk? && h !in g'.thunks && h !in g.thunks && UpdatedHash(g, h) !in g.thunks
    ensures Grown(g, Inserted(g', h, t), Closure(h))
  {
    hide Closure, UpdatedHash, ValueNames, ExecutableNames;
    HashInClosure(h);
    assert Loaded(g, Inserted(g', h, t)) == Loaded(g, g') + {h};
  }

  lemma InsertedReaches(run: Oracle, g: Graph, g': Graph, h: Hash, t: Thunk, m: Choice)
    requires Progress(run, g, g', h, m) && Deps(t) == Targets(m, m.Keys)
    ensures forall k | k in Loaded(g, Inserted(g', h, t)) :: Reach(Inserted(g', h, t).thunks, h, k)
  {
    hide Valid, ProgressCost, Grown, Deps, Reach;
    var after := Inserted(g', h, t);
    forall k | k in Loaded(g, after) ensures Reach(after.thunks, h, k) {
      if k == h { ReachSelf(after.thunks, h); } else {
        assert k in Loaded(g, g');
        InsertedReach(g', h, t, m, k);
      }
    }
  }

  lemma TargetsStored(run: Oracle, g: Graph, g': Graph, h: Hash, t: Thunk, m: Choice)
    requires h.Thk? && Progress(run, g, g', h, m) && Deps(t) == Targets(m, m.Keys) && m.Keys == Deps(h.thunk)
    ensures forall d | d in Deps(t) :: d in g'.thunks
    ensures Valid(run, g') && Grown(g, g', Closure(h)) && h !in g'.thunks
    ensures ProgressCost(run, g, g', h, Deps(h.thunk))
  {
    hide Valid, ProgressCost, Deps, Reach;
  }

  lemma RedirectingParts(run: Oracle, m: Choice, h: Hash, t: Thunk)
    requires Redirecting(run, m, h, t)
    ensures h.Thk? && Stored(run, h, t) && (Converges(run, h) ==>
              Converges(run, Thk(t)) && Own(run, t) <= Own(run, h.thunk))
  {
  }

  lemma AddedNew(run: Oracle, g: Graph, g': Graph, h: Hash, t: Thunk, m: Choice)
    requires Valid(run, g) && h.Thk? && WellFormed(h) && h !in g.thunks && UpdatedHash(g, h) !in g.thunks
    requires Progress(run, g, g', h, m) && m.Keys == Deps(h.thunk) && Redirecting(run, m, h, t)
    requires Deps(t) == Targets(m, m.Keys) && (Deps(h.thunk) == {} ==> t == h.thunk)
    ensures Added(run, g, Inserted(g', h, t), h, h)
  {
    hide Valid, Progress, ProgressCost, LoadCost, Reach, WellFormed, Own, Stored, Redirecting, Grown, Deps, Converges;
    hide Alive, Targets;
    var after := Inserted(g', h, t);
    TargetsStored(run, g, g', h, t, m);
    StillEnded(run, g, g', h);
    LoadedRunnable(run, h, t, m);
    InsertedValid(run, g', h, t);
    InsertedGrown(g, g', h, t);
    RedirectingParts(run, m, h, t);
    InsertedCost(run, g, g', h, t);
    NobodyRefers(run, g', h, t);
    InsertedReaches(run, g, g', h, t, m);
  }

  lemma StillEnded(run: Oracle, g: Graph, g': Graph, h: Hash)
    requires Valid(run, g) && Grown(g, g', Closure(h)) && UpdatedHash(g, h) !in g.thunks
    ensures !Alive(run, g', h)
  {
    hide Closed, Indexed, Sane, Keyed, Ends, ChainsSound, DeadEnd;
    assert h in g.updated ==> DeadEnd(run, g.updated[h]) || IsKnown(g, h);
  }

  lemma LoadedRunnable(run: Oracle, h: Hash, t: Thunk, m: Choice)
    requires Redirecting(run, m, h, t) && (Deps(h.thunk) == {} ==> t == h.thunk)
    requires m.Keys == Deps(h.thunk) && Deps(t) == Targets(m, m.Keys)
    ensures t.CanBeExecuted() ==> h == Thk(t)
    ensures Stored(run, h, t)
  {
    hide Deps, Own, Converges, StandsIn, WellFormed;
    assert Stored(run, h, t);
    RunnableDeps(t);
    forall b | b in Deps(h.thunk) ensures m[b] in Deps(t) {}
    assert Deps(t) == {} ==> Deps(h.thunk) == {};
    assert h == Thk(h.thunk);
  }

  lemma NobodyRefers(run: Oracle, g: Graph, h: Hash, t: Thunk)
    requires Valid(run, g) && h !in g.thunks && forall d | d in Deps(t) :: d in g.thunks
    ensures Referrers(Inserted(g, h, t).thunks, h) == {}
  {
  }
}
