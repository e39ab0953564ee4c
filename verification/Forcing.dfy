/** The steps of force_thunk on the state of the graph: substituting what an execution reported,
    and giving every thunk that became runnable its own hash. */
module Forcing {
  import opened Thunks
  import opened Evaluation
  import opened Costs
  import opened Replacement
  import opened Graphs

  ghost function Runnable(g: Graph): set<Hash> { set k | k in g.thunks && g.thunks[k].CanBeExecuted() }

  // What holds besides MayRelink when a step of force_thunk is taken.
  ghost predicate Advancing(run: Oracle, g: Graph, gone: Hash, outputs: seq<Output>, pending: set<Hash>) {
    && outputs != []
    && Keyed(g, pending) && Chains(run, g) && NewTip(run, g, gone, outputs[0].hash)
    && pending <= Runnable(g) && (forall k | k in pending && k.Thk? :: !k.thunk.CanBeExecuted())
    && forall d | d in g.referencing && d !in g.thunks :: d.Value?
  }

  lemma ReadiedWaited(run: Oracle, g: Graph, gone: Hash, outputs: seq<Output>)
    requires MayRewrite(run, g, gone, outputs)
    ensures forall k | k in Readied(g, gone, outputs) && k.Thk? :: !k.thunk.CanBeExecuted()
  {
    hide Sound, StandsIn, WellFormed, Closed, Relinked;
    RelinkedKeys(g, gone, outputs);
    forall k | k in Readied(g, gone, outputs) && k.Thk? ensures !k.thunk.CanBeExecuted() {
      assert Stored(run, k, g.thunks[k]);
      assert g.referencing[gone] == Referrers(g.thunks, gone);
      RunnableDeps(g.thunks[k]);
    }
  }

  lemma RelinkConsistent(run: Oracle, g: Graph, gone: Hash, outputs: seq<Output>, pending: set<Hash>,
      pending': set<Hash>)
    requires MayRelink(run, g, gone, outputs) && Advancing(run, g, gone, outputs, pending)
    requires pending' == pending - {gone} + Readied(g, gone, outputs)
    ensures Consistent(run, Relinked(g, gone, outputs), pending')
  {
    hide Closed, Indexed, Sane, Chains, NewTip, Rewritten, Deps;
    ReadiedWaited(run, g, gone, outputs);
    RelinkedClosed(run, g, gone, outputs);
    RelinkedIndexed(run, g, gone, outputs);
    RelinkedSane(run, g, gone, outputs);
    RelinkedChains(run, g, gone, outputs);
    RelinkedKeyed(run, g, gone, outputs, pending);
    RelinkedKeys(g, gone, outputs);
  }

  lemma RelinkedRunnable(run: Oracle, g: Graph, gone: Hash, outputs: seq<Output>)
    requires MayRewrite(run, g, gone, outputs)
    ensures Runnable(Relinked(g, gone, outputs)) == Runnable(g) - {gone} + Readied(g, gone, outputs)
  {
    hide MayRewrite, Relinked;
    RelinkShape(run, g, gone, outputs);
    var g' := Relinked(g, gone, outputs);
    RelinkedKeys(g, gone, outputs);
    forall k | k in g'.thunks
      ensures k in Runnable(g') <==> k in Runnable(g) || k in Readied(g, gone, outputs) {
      RelinkedRuns(run, g, gone, outputs, k);
    }
  }

  lemma RelinkShape(run: Oracle, g: Graph, gone: Hash, outputs: seq<Output>)
    requires MayRewrite(run, g, gone, outputs)
    ensures outputs != [] && gone in g.thunks && gone in g.referencing
  {
  }

  lemma RelinkedRuns(run: Oracle, g: Graph, gone: Hash, outputs: seq<Output>, k: Hash)
    requires MayRewrite(run, g, gone, outputs) && k in g.thunks && k != gone
    ensures var t' := Relinked(g, gone, outputs).thunks[k];
            && (g.thunks[k].CanBeExecuted() ==> t'.CanBeExecuted())
            && (t'.CanBeExecuted() && !g.thunks[k].CanBeExecuted() ==> k in g.referencing[gone])
  {
    RelinkedThunk(run, g, gone, outputs, k);
    assert Stored(run, k, g.thunks[k]);
    RunnableDeps(g.thunks[k]);
    RunnableDeps(Relinked(g, gone, outputs).thunks[k]);
  }

  // ---------------------------------------------------------------- substituting a reduction

  lemma RunnableExecutes(run: Oracle, g: Graph, k: Hash)
    requires Sane(run, g) && Keyed(g, {}) && WellBehaved(run) && k in Runnable(g)
    ensures Executes(run, k) && k == Thk(g.thunks[k])
  {
    assert Stored(run, k, g.thunks[k]);
  }

  // A reported thunk must have been loaded and be new to the graph.
  ghost predicate NextReady(run: Oracle, g: Graph, k: Hash, next: Hash) {
    && Finished(run, g, next)
    && (next.Thk? ==> next in g.thunks && Referrers(g.thunks, next) == {} && next != k)
  }

  lemma NotYetReferred(run: Oracle, g: Graph, k: Hash, next: Hash)
    requires Closed(g) && Sane(run, g) && NextReady(run, g, k, next)
    ensures forall r | r in g.thunks :: next !in Deps(g.thunks[r])
  {
    forall r | r in g.thunks ensures next !in Deps(g.thunks[r]) {
      assert r in Referrers(g.thunks, next) <==> next in Deps(g.thunks[r]);
      assert next in g.thunks ==> Stored(run, next, g.thunks[next]);
    }
  }

  lemma ReportRelinks(run: Oracle, g: Graph, k: Hash)
    requires Valid(run, g) && WellBehaved(run) && k in Runnable(g)
    requires Executes(run, k) && NextReady(run, g, k, run(k.thunk)[0])
    ensures MayRelink(run, g, k, ReportOf(run, k)) && NewTip(run, g, k, run(k.thunk)[0])
  {
    var outputs, next := ReportOf(run, k), run(k.thunk)[0];
    ReportUniform(run, k);
    assert Stored(run, k, g.thunks[k]);
    assert k in g.thunks && k in g.referencing && g.referencing[k] == Referrers(g.thunks, k);
    forall r | r in g.referencing[k] ensures r in g.thunks && Sound(run, g.thunks[r], k, outputs, next) {
      assert Stored(run, r, g.thunks[r]);
      ReportSound(run, k, g.thunks[r]);
    }
    if next.Thk? {
      assert Stored(run, next, g.thunks[next]);
      ReportSound(run, k, k.thunk);
    }
    NotYetReferred(run, g, k, next);
  }

  // ---------------------------------------------------------------- renaming a runnable thunk

  // force_thunk first stores the thunk under its new hash as well.
  ghost function Doubled(g: Graph, r: Hash): Graph
    requires r in g.thunks
  {
    g.(thunks := g.thunks[Thk(g.thunks[r]) := g.thunks[r]])
  }

  ghost function RenameOutputs(g: Graph, r: Hash): seq<Output>
    requires r in g.thunks
  {
    AllOutputs(Thk(g.thunks[r]), g.thunks[r].outputs)
  }

  ghost function RenamedGraph(g: Graph, r: Hash): Graph
    requires r in g.thunks && r in g.referencing && g.thunks[r].outputs != []
  {
    Relinked(Doubled(g, r), r, RenameOutputs(g, r))
  }

  lemma DoubledSane(run: Oracle, g: Graph, pending: set<Hash>, r: Hash)
    requires Consistent(run, g, pending) && r in Runnable(g) && Thk(g.thunks[r]) !in g.thunks
    ensures Sane(run, Doubled(g, r)) && WellFormed(Thk(g.thunks[r])) && StandsIn(run, r, Thk(g.thunks[r]))
    ensures Deps(g.thunks[r]) == {}
  {
    var r' := Thk(g.thunks[r]);
    assert Stored(run, r, g.thunks[r]);
    RunnableDeps(g.thunks[r]);
    StandsInSelf(run, r');
    assert WellFormed(r');
    forall k | k in Doubled(g, r).thunks ensures Stored(run, k, Doubled(g, r).thunks[k]) {
      if k != r' { assert Stored(run, k, g.thunks[k]); }
    }
  }

  lemma DoubledIndexed(g: Graph, r: Hash)
    requires Closed(g) && Indexed(g, {}) && r in g.thunks && Deps(g.thunks[r]) == {} && Thk(g.thunks[r]) !in g.thunks
    ensures Closed(Doubled(g, r)) && Indexed(Doubled(g, r), {Thk(g.thunks[r])})
    ensures forall k | k in Doubled(g, r).thunks :: Thk(g.thunks[r]) !in Deps(Doubled(g, r).thunks[k])
  {
    var g', r' := Doubled(g, r), Thk(g.thunks[r]);
    forall d | d in g'.thunks && d != r' ensures d in g'.referencing && g'.referencing[d] == Referrers(g'.thunks, d) {
      assert Referrers(g'.thunks, d) == Referrers(g.thunks, d);
    }
  }

  lemma DoubledChains(run: Oracle, g: Graph, r: Hash)
    requires Chains(run, g) && r in g.thunks && Fresh(run, g, Thk(g.thunks[r]))
    ensures Chains(run, Doubled(g, r)) && Finished(run, Doubled(g, r), Thk(g.thunks[r]))
  {
    hide DeadEnd, ChainSound;
    var d, x := Doubled(g, r), Thk(g.thunks[r]);
    forall u | u in d.originals ensures DeadEnd(run, u) || IsTip(d, u) { assert DeadEnd(run, u) || IsTip(g, u); }
    forall o | o in d.updated
      ensures DeadEnd(run, d.updated[o]) || IsKnown(d, o)
      ensures d.updated[o] == x ==> DeadEnd(run, x) {
      assert DeadEnd(run, g.updated[o]) || IsKnown(g, o);
    }
    forall o | o in d.thunks ensures !Alive(run, d, o) {
      assert !Alive(run, g, o);
      if o in g.updated { ChainMoves(run, g, o); }
    }
  }

  lemma ChainMoves(run: Oracle, g: Graph, o: Hash)
    requires ChainsSound(run, g) && o in g.updated
    ensures g.updated[o] != o
  {
    assert ChainSound(run, o, g.updated[o]);
  }

  lemma RenameSound(run: Oracle, g: Graph, r: Hash, k: Hash)
    requires Sane(run, g) && r in g.thunks && k in g.thunks && StandsIn(run, r, Thk(g.thunks[r]))
    ensures Sound(run, g.thunks[k], r, RenameOutputs(g, r), Thk(g.thunks[r]))
  {
    assert Stored(run, r, g.thunks[r]);
    assert Stored(run, k, g.thunks[k]);
    RedirectSound(run, r, Thk(g.thunks[r]), g.thunks[r].outputs, g.thunks[k]);
  }

  lemma RenameOutputsShape(g: Graph, r: Hash)
    requires r in g.thunks && g.thunks[r].outputs != []
    ensures var outputs := RenameOutputs(g, r);
            outputs != [] && outputs[0].hash == Thk(g.thunks[r]) && Uniform(outputs, Thk(g.thunks[r]))
  {
  }

  lemma RenameReferrers(run: Oracle, g: Graph, r: Hash)
    requires Sane(run, g) && Indexed(g, {}) && r in g.thunks && StandsIn(run, r, Thk(g.thunks[r]))
    ensures forall k | k in g.referencing[r] :: k in g.thunks &&
              Sound(run, g.thunks[k], r, RenameOutputs(g, r), Thk(g.thunks[r]))
  {
    assert g.referencing[r] == Referrers(g.thunks, r);
    forall k | k in g.referencing[r] ensures k in g.thunks &&
        Sound(run, g.thunks[k], r, RenameOutputs(g, r), Thk(g.thunks[r])) {
      RenameSound(run, g, r, k);
    }
  }

  // What is known of a thunk that is about to be renamed.
  ghost predicate MayRename(run: Oracle, g: Graph, pending: set<Hash>, r: Hash) {
    Consistent(run, g, pending) && pending <= Runnable(g) && r in pending && Fresh(run, g, Thk(g.thunks[r]))
  }

  lemma RenameShape(run: Oracle, g: Graph, pending: set<Hash>, r: Hash)
    requires MayRename(run, g, pending, r)
    ensures r in g.thunks && r in g.referencing && r != Thk(g.thunks[r])
    ensures g.thunks[r].outputs != [] && r.Thk? && WellFormed(r)
    ensures RenameOutputs(g, r) != [] && RenamedGraph(g, r) == Relinked(Doubled(g, r), r, RenameOutputs(g, r))
    ensures Doubled(g, r).referencing == g.referencing
  {
    assert Stored(run, r, g.thunks[r]);
  }

  lemma ConsistentParts(run: Oracle, g: Graph, pending: set<Hash>)
    requires Consistent(run, g, pending)
    ensures Closed(g) && Indexed(g, {}) && Sane(run, g) && Keyed(g, pending) && Chains(run, g)
    ensures pending <= g.thunks.Keys
  {
  }

  lemma RenameRewrites(run: Oracle, g: Graph, pending: set<Hash>, r: Hash)
    requires MayRename(run, g, pending, r)
    ensures MayRewrite(run, Doubled(g, r), r, RenameOutputs(g, r))
  {
    hide Consistent, Stored, StandsIn, WellFormed, TidyThunk, Sound, Chains, Keyed, Deps;
    RenameShape(run, g, pending, r);
    RenameOutputsShape(g, r);
    ConsistentParts(run, g, pending);
    DoubledSane(run, g, pending, r);
    DoubledIndexed(g, r);
    RenameReferrers(run, g, r);
  }

  lemma RenameRelinks(run: Oracle, g: Graph, pending: set<Hash>, r: Hash)
    requires MayRename(run, g, pending, r)
    ensures MayRelink(run, Doubled(g, r), r, RenameOutputs(g, r))
    ensures NewTip(run, Doubled(g, r), r, Thk(g.thunks[r])) && RenameOutputs(g, r)[0].hash == Thk(g.thunks[r])
  {
    RenameShape(run, g, pending, r);
    RenameOutputsShape(g, r);
    DoubledSane(run, g, pending, r);
    DoubledIndexed(g, r);
    RenameRewrites(run, g, pending, r);
    DoubledChains(run, g, r);
  }

  lemma DoubledKeyed(g: Graph, pending: set<Hash>, r: Hash)
    requires Keyed(g, pending) && r in Runnable(g) && Thk(g.thunks[r]) !in g.thunks && pending <= Runnable(g)
    ensures Keyed(Doubled(g, r), pending) && pending <= Runnable(Doubled(g, r))
    ensures Runnable(Doubled(g, r)) == Runnable(g) + {Thk(g.thunks[r])}
  {
  }

  lemma NothingReadied(run: Oracle, g: Graph, pending: set<Hash>, r: Hash)
    requires MayRename(run, g, pending, r)
    ensures r in g.referencing && RenameOutputs(g, r) != [] && Readied(Doubled(g, r), r, RenameOutputs(g, r)) == {}
  {
    RenameRelinks(run, g, pending, r);
    DoubledKeyed(g, pending, r);
    RelinkedKeyed(run, Doubled(g, r), r, RenameOutputs(g, r), pending);
  }

  lemma RenameAdvancing(run: Oracle, g: Graph, pending: set<Hash>, r: Hash)
    requires MayRename(run, g, pending, r)
    ensures Advancing(run, Doubled(g, r), r, RenameOutputs(g, r), pending)
  {
    RenameShape(run, g, pending, r);
    RenameRelinks(run, g, pending, r);
    DoubledChains(run, g, r);
    DoubledKeyed(g, pending, r);
  }

  // Renaming a runnable thunk keeps everything ...
  lemma RenameConsistent(run: Oracle, g: Graph, pending: set<Hash>, r: Hash)
    requires MayRename(run, g, pending, r)
    ensures r in g.referencing && g.thunks[r].outputs != []
    ensures Consistent(run, RenamedGraph(g, r), pending - {r})
  {
    hide *;
    RenameShape(run, g, pending, r);
    RenameRelinks(run, g, pending, r);
    RenameAdvancing(run, g, pending, r);
    NothingReadied(run, g, pending, r);
    RelinkConsistent(run, Doubled(g, r), r, RenameOutputs(g, r), pending, pending - {r});
  }

  lemma RunnableBefore(run: Oracle, g: Graph, pending: set<Hash>, r: Hash)
    requires MayRename(run, g, pending, r)
    ensures r in Runnable(g) && pending <= Runnable(g) && Thk(g.thunks[r]) !in g.thunks && Keyed(g, pending)
  {
    hide Closed, Indexed, Sane, Chains;
  }

  // ... and makes nothing else runnable.
  lemma RenameRunnable(run: Oracle, g: Graph, pending: set<Hash>, r: Hash)
    requires MayRename(run, g, pending, r)
    ensures r in g.referencing && g.thunks[r].outputs != []
    ensures Runnable(RenamedGraph(g, r)) == Runnable(g) - {r} + {Thk(g.thunks[r])}
  {
    hide MayRename, Consistent, MayRewrite, Relinked, Readied, RenamedGraph, Runnable;
    RunnableBefore(run, g, pending, r);
    RenameShape(run, g, pending, r);
    RenameRewrites(run, g, pending, r);
    NothingReadied(run, g, pending, r);
    DoubledKeyed(g, pending, r);
    RelinkedRunnable(run, Doubled(g, r), r, RenameOutputs(g, r));
  }

  lemma RunnableKept(run: Oracle, g: Graph, gone: Hash, outputs: seq<Output>, k: Hash)
    requires MayRewrite(run, g, gone, outputs) && k in Runnable(g) && k != gone
    ensures k in Relinked(g, gone, outputs).thunks && Relinked(g, gone, outputs).thunks[k] == g.thunks[k]
  {
    RelinkedThunk(run, g, gone, outputs, k);
    assert Stored(run, k, g.thunks[k]);
    RunnableDeps(g.thunks[k]);
  }

  // The other thunks that await renaming are left alone.
  lemma RenameKeepsOthers(run: Oracle, g: Graph, pending: set<Hash>, r: Hash, k: Hash)
    requires MayRename(run, g, pending, r) && k in pending && k != r
    ensures r in g.referencing && g.thunks[r].outputs != []
    ensures k in RenamedGraph(g, r).thunks && RenamedGraph(g, r).thunks[k] == g.thunks[k]
  {
    hide Consistent, MayRewrite, Stored, StandsIn, WellFormed, Relinked;
    RenameShape(run, g, pending, r);
    RenameRewrites(run, g, pending, r);
    RunnableKept(run, Doubled(g, r), r, RenameOutputs(g, r), k);
  }

  lemma RenameFresh(run: Oracle, g: Graph, pending: set<Hash>, r: Hash)
    requires MayRename(run, g, pending, r)
    ensures r in g.thunks && Fresh(run, g, Thk(g.thunks[r])) && Chains(run, g)
  {
    hide Chains, Fresh;
  }

  lemma RenameExtends(run: Oracle, g: Graph, pending: set<Hash>, r: Hash)
    requires MayRename(run, g, pending, r)
    ensures r in g.thunks && r in g.referencing && g.thunks[r].outputs != [] && !DeadEnd(run, r)
    ensures RenameOutputs(g, r) != [] && RenameOutputs(g, r)[0].hash == Thk(g.thunks[r]) && r != Thk(g.thunks[r])
    ensures var d, x := Doubled(g, r), Thk(g.thunks[r]);
            Extended(g, d, x) && x in d.thunks && r in d.referencing &&
                RenamedGraph(g, r) == Relinked(d, r, RenameOutputs(g, r))
  {
    hide MayRename, Consistent, Relinked, RenamedGraph, Extended, DeadEnd, Stored;
    RenameShape(run, g, pending, r);
    RenameOutputsShape(g, r);
    RenameFresh(run, g, pending, r);
    StillWaits(run, g, pending, r);
    DoubledExtends(run, g, r);
  }

  lemma StillWaits(run: Oracle, g: Graph, pending: set<Hash>, r: Hash)
    requires MayRename(run, g, pending, r)
    ensures r.Thk? && !r.thunk.CanBeExecuted() && !DeadEnd(run, r)
  {
    hide Chains, Closed, Indexed, Keyed, Sane;
    RenameShape(run, g, pending, r);
  }

  lemma DoubledExtends(run: Oracle, g: Graph, r: Hash)
    requires r in g.thunks && Fresh(run, g, Thk(g.thunks[r]))
    ensures Extended(g, Doubled(g, r), Thk(g.thunks[r])) && Thk(g.thunks[r]) in Doubled(g, r).thunks
    ensures Doubled(g, r).referencing == g.referencing
  {
    hide DeadEnd;
  }

  // Chains that are alive stay alive through a renaming.
  lemma RenameOpen(run: Oracle, g: Graph, pending: set<Hash>, r: Hash, o: Hash)
    requires MayRename(run, g, pending, r) && Open(g, o)
    ensures r in g.referencing && g.thunks[r].outputs != []
    ensures Open(RenamedGraph(g, r), o)
  {
    hide MayRename, Relinked, RenamedGraph, Extended, DeadEnd;
    RenameExtends(run, g, pending, r);
    if UpdatedHash(g, o) == r {
      RelinkedTip(g, Doubled(g, r), r, RenameOutputs(g, r), o);
    } else {
      RelinkedElsewhere(g, Doubled(g, r), r, RenameOutputs(g, r), o);
    }
  }

  // ... and no chain is moved but to be alive.
  lemma RenameGoing(run: Oracle, g: Graph, pending: set<Hash>, r: Hash, o: Hash)
    requires MayRename(run, g, pending, r)
    ensures r in g.referencing && g.thunks[r].outputs != []
    ensures Going(run, RenamedGraph(g, r), o) || (UpdatedHash(RenamedGraph(g, r), o) == UpdatedHash(g, o) &&
              !Going(run, g, o))
  {
    hide MayRename, Relinked, RenamedGraph, Extended, DeadEnd, Going;
    RenameExtends(run, g, pending, r);
    RelinkedGoing(run, g, Doubled(g, r), r, RenameOutputs(g, r), o);
  }

  // ---------------------------------------------------------------- measure

  ghost predicate Convergent(run: Oracle, g: Graph) { forall k | k in g.thunks :: Converges(run, k) }

  lemma StoredConverges(run: Oracle, g: Graph, k: Hash)
    requires Sane(run, g) && Convergent(run, g) && k in g.thunks
    ensures Converges(run, Thk(g.thunks[k])) && Cost(run, Thk(g.thunks[k])) <= Cost(run, k)
  {
    assert Stored(run, k, g.thunks[k]);
  }

  ghost function OwnMap(run: Oracle, thunks: map<Hash, Thunk>): Weights
    requires forall k | k in thunks :: Converges(run, Thk(thunks[k]))
  {
    map k | k in thunks :: Own(run, thunks[k])
  }

  ghost predicate Measurable(run: Oracle, g: Graph) { forall k | k in g.thunks :: Converges(run, Thk(g.thunks[k])) }

  // How much work is left: a bound on the number of reductions still to come.
  ghost function Measure(run: Oracle, g: Graph): nat
    requires Measurable(run, g)
  {
    Sum(OwnMap(run, g.thunks))
  }

  lemma ConvergentMeasurable(run: Oracle, g: Graph)
    requires Sane(run, g) && Convergent(run, g)
    ensures Measurable(run, g)
  {
    forall k | k in g.thunks ensures Converges(run, Thk(g.thunks[k])) { StoredConverges(run, g, k); }
  }

  lemma RelinkedMeasure(run: Oracle, g: Graph, gone: Hash, outputs: seq<Output>)
    requires MayRewrite(run, g, gone, outputs) && Measurable(run, g)
    ensures var g' := Relinked(g, gone, outputs);
            Measurable(run, g') && Measure(run, g') + Own(run, g.thunks[gone]) <= Measure(run, g)
  {
    var g' := Relinked(g, gone, outputs);
    RelinkedKeys(g, gone, outputs);
    forall k | k in g'.thunks
      ensures Converges(run, Thk(g'.thunks[k])) && Own(run, g'.thunks[k]) <= Own(run, g.thunks[k]) {
      RelinkedThunk(run, g, gone, outputs, k);
    }
    var before, after := OwnMap(run, g.thunks), OwnMap(run, g'.thunks);
    SumRemove(before, gone);
    SumGrows(after, before - {gone});
  }

  lemma WeightsAdd(a: Weights, b: Weights, k: Hash)
    requires k !in a && b.Keys == a.Keys + {k} && forall j | j in a :: b[j] == a[j]
    ensures Sum(b) == b[k] + Sum(a)
  {
    SumRemove(b, k);
    assert b - {k} == a;
  }

  lemma OwnMapAdd(run: Oracle, before: map<Hash, Thunk>, after: map<Hash, Thunk>, k: Hash)
    requires forall j | j in before :: Converges(run, Thk(before[j]))
    requires forall j | j in after :: Converges(run, Thk(after[j]))
    requires k !in before && after.Keys == before.Keys + {k} && forall j | j in before :: after[j] == before[j]
    ensures Sum(OwnMap(run, after)) == Own(run, after[k]) + Sum(OwnMap(run, before))
  {
    hide Converges, Own;
    WeightsAdd(OwnMap(run, before), OwnMap(run, after), k);
  }

  lemma DoubledMeasure(run: Oracle, g: Graph, r: Hash)
    requires Measurable(run, g) && r in g.thunks && Thk(g.thunks[r]) !in g.thunks
    ensures Measurable(run, Doubled(g, r)) && Measure(run, Doubled(g, r)) == Own(run, g.thunks[r]) + Measure(run, g)
  {
    assert Measurable(run, Doubled(g, r));
    OwnMapAdd(run, g.thunks, Doubled(g, r).thunks, Thk(g.thunks[r]));
  }

  lemma RenameMeasure(run: Oracle, g: Graph, pending: set<Hash>, r: Hash)
    requires MayRename(run, g, pending, r) && Measurable(run, g)
    ensures r in g.referencing && g.thunks[r].outputs != []
    ensures var g' := RenamedGraph(g, r); Measurable(run, g') && Measure(run, g') <= Measure(run, g)
  {
    RenameShape(run, g, pending, r);
    DoubledMeasure(run, g, r);
    RenameRewrites(run, g, pending, r);
    RelinkedMeasure(run, Doubled(g, r), r, RenameOutputs(g, r));
  }

  lemma RelinkedConvergent(run: Oracle, g: Graph, gone: Hash, outputs: seq<Output>)
    requires Convergent(run, g) && gone in g.referencing && outputs != []
    ensures Convergent(run, Relinked(g, gone, outputs))
  {
  }

  lemma RenameConvergent(run: Oracle, g: Graph, pending: set<Hash>, r: Hash)
    requires Consistent(run, g, pending) && Convergent(run, g) && r in g.thunks && r in g.referencing
    requires g.thunks[r].outputs != []
    ensures Convergent(run, RenamedGraph(g, r))
  {
    StoredConverges(run, g, r);
    assert Convergent(run, Doubled(g, r));
    RelinkedConvergent(run, Doubled(g, r), r, RenameOutputs(g, r));
  }
}
