/** What the rewriting of the graph is for: nothing ever changes its value. */
module Preservation {
  import opened Options
  import opened Thunks
  import opened Evaluation
  import opened Replacement
  import opened Graphs
  import opened Forcing
  import opened Loading
  import opened Reduction

  // The outputs of h that can be referred to.
  predicate Names(h: Hash, sel: Selector) { h.Thk? && (sel.Tag? ==> sel.tag in Tail(h.thunk.outputs)) }

  // Whatever a key has been rewritten to has the value of the key, for every output.
  lemma StoredMeaning(run: Oracle, g: Graph, k: Hash, sel: Selector)
    requires Valid(run, g) && k in g.thunks && Names(k, sel)
    ensures MeaningOf(run)(Ref(Thk(g.thunks[k]), sel)) == MeaningOf(run)(Ref(k, sel))
  {
    hide Closed, Indexed, Chains, Keyed, MeaningOf, WellFormed, TidyThunk;
    assert Stored(run, k, g.thunks[k]);
  }

  // A thunk that was executed and yielded values has those values.
  lemma ValuesMeaning(run: Oracle, k: Hash, sel: Selector)
    requires Executes(run, k) && run(k.thunk)[0].Value? && Names(k, sel)
    ensures var p := Position(k.thunk.outputs, sel);
            && p.Some? && p.value < |run(k.thunk)| && run(k.thunk)[p.value].Value?
            && MeaningOf(run)(Ref(k, sel)) == Some(run(k.thunk)[p.value].id)
  {
    hide MeaningOf, TidyThunk, WellFormed;
    var outs := run(k.thunk);
    assert outs[0] in outs;
    forall o | o in outs ensures o.Value? { }
    if sel.Tag? { TagPosition(k.thunk.outputs, sel.tag); }
    var p := Position(k.thunk.outputs, sel).value;
    assert outs[p] in outs;
    ReducedToValues(run, k.thunk);
    assert k == Thk(k.thunk);
    PickMeaning(run, k, sel, Ids(outs), p);
  }

  lemma PickMeaning(run: Oracle, k: Hash, sel: Selector, ids: seq<nat>, p: nat)
    requires k.Thk? && Meaning(run, k) == Some(ids) && Position(k.thunk.outputs, sel) == Some(p) && p < |ids|
    ensures MeaningOf(run)(Ref(k, sel)) == Some(ids[p])
  {
  }

  // A reduction changes no value. For every stored thunk, the reduced one and the renamed ones included:
  // what is stored in its place afterwards evaluates to what it evaluated to, output by output; and where
  // nothing is stored in its place, the values it yielded are the values it had.
  lemma ReductionKeepsMeaning(run: Oracle, g: Graph, g': Graph, k: Hash, ready: set<Hash>, x: Hash, sel: Selector)
    requires Valid(run, g) && Forced(run, g, g', k, ready) && k in Runnable(g)
    requires x in g.thunks && Names(x, sel)
    ensures var y := Heir(run, g, k, x);
            && (y.Thk? ==> && y in g'.thunks && Names(y, sel)
                           && MeaningOf(run)(Ref(Thk(g'.thunks[y]), sel)) == MeaningOf(run)(Ref(Thk(g.thunks[x]), sel)))
            && (y.Value? ==> var p := Position(k.thunk.outputs, sel);
                             && x == k && p.Some? && p.value < |run(k.thunk)| && run(k.thunk)[p.value].Value?
                             && MeaningOf(run)(Ref(Thk(g.thunks[x]), sel)) == Some(run(k.thunk)[p.value].id))
  {
    hide Valid, MeaningOf, OpenOn, Executes, LessWork, StaysCompressed, NamesAfter;
    StoredMeaning(run, g, x, sel);
    var y := Heir(run, g, k, x);
    if y.Thk? {
      assert Succeeds(run, g', x, y);
      StandsInMeaning(run, x, y, sel);
      StoredMeaning(run, g', y, sel);
    } else {
      ValuesMeaning(run, k, sel);
    }
  }

  lemma StandsInMeaning(run: Oracle, a: Hash, b: Hash, sel: Selector)
    requires StandsIn(run, a, b) && Names(a, sel)
    ensures Names(b, sel) && MeaningOf(run)(Ref(b, sel)) == MeaningOf(run)(Ref(a, sel))
  {
    hide MeaningOf, Converges;
  }

  // Where a chain has got to has the values of where it began.
  lemma ChainMeaning(run: Oracle, g: Graph, o: Hash, sel: Selector)
    requires Valid(run, g) && Names(o, sel)
    ensures Names(UpdatedHash(g, o), sel)
    ensures MeaningOf(run)(Ref(UpdatedHash(g, o), sel)) == MeaningOf(run)(Ref(o, sel))
  {
    hide Closed, Indexed, Sane, Keyed, MeaningOf, WellFormed, Ends, Leads, Settled, GoesOn, StandsIn, Names;
    if o in g.updated {
      assert ChainSound(run, o, g.updated[o]);
      StandsInMeaning(run, o, g.updated[o], sel);
    }
  }

  // A reduction moves a chain only to something of the same values.
  lemma ChainKeepsMeaning(run: Oracle, g: Graph, g': Graph, k: Hash, ready: set<Hash>, o: Hash, sel: Selector)
    requires Valid(run, g) && Forced(run, g, g', k, ready) && Names(o, sel)
    ensures MeaningOf(run)(Ref(UpdatedHash(g', o), sel)) == MeaningOf(run)(Ref(UpdatedHash(g, o), sel))
  {
    hide Valid, MeaningOf, OpenOn, Executes, LessWork, StaysCompressed, NamesAfter;
    hide Inherited, UpdatedHash;
    ChainMeaning(run, g, o, sel);
    ChainMeaning(run, g', o, sel);
  }

  // When a chain ends in values, they are what eager evaluation gives its beginning.
  lemma EndMeaning(run: Oracle, g: Graph, g': Graph, k: Hash, ready: set<Hash>, o: Hash, sel: Selector)
    requires Valid(run, g) && Forced(run, g, g', k, ready) && run(k.thunk)[0].Value? && UpdatedHash(g, o) == k
    requires Names(o, sel)
    ensures var p := Position(k.thunk.outputs, sel);
            && p.Some? && p.value < |run(k.thunk)| && run(k.thunk)[p.value].Value?
            && MeaningOf(run)(Ref(o, sel)) == Some(run(k.thunk)[p.value].id)
  {
    hide Valid, MeaningOf, OpenOn, Executes, LessWork, StaysCompressed, NamesAfter;
    hide Inherited, UpdatedHash;
    ChainMeaning(run, g, o, sel);
    ValuesMeaning(run, k, sel);
  }

  // ---------------------------------------------------------------- why merging must not happen

  // A thunk that depends on exactly the first output of h.
  function Reading(h: Hash): Thunk {
    Thunk(Value(0), [], [], multiset{}, multiset{Item(Untagged(h), "")}, multiset{}, ["out"], [], 0)
  }

  function Plain(n: nat): Thunk {
    Thunk(Value(n), [], [], multiset{}, multiset{}, multiset{}, ["out"], [], 0)
  }

  lemma ReadingDeps(h: Hash)
    requires h.Thk?
    ensures Deps(Reading(h)) == {h} && Split(Reading(h))
  {
    assert Item(Untagged(h), "") in Reading(h).thunks;
    assert ItemRefs(Reading(h).thunks) == {Untagged(h)};
  }

  // Two runnable thunks and a referrer of each.
  function Pair(a: Hash, b: Hash): Graph {
    var x, y := Thk(Reading(a)), Thk(Reading(b));
    Graph(map[a := Plain(0), b := Plain(1), x := Reading(a), y := Reading(b)],
          map[a := {x}, b := {y}, x := {}, y := {}], {}, {}, map[], map[])
  }

  // The keys of the example and what is stored under them.
  lemma PairShape(a: Hash, b: Hash)
    requires a == Thk(Plain(0)) && b == Thk(Plain(1))
    ensures var x, y, g := Thk(Reading(a)), Thk(Reading(b)), Pair(a, b);
            && a != b && x != y && a !in {x, y} && b !in {x, y}
            && g.thunks.Keys == {a, b, x, y}
            && Deps(g.thunks[a]) == {} && Deps(g.thunks[b]) == {} && Deps(g.thunks[x]) == {a} &&
                Deps(g.thunks[y]) == {b}
  {
    var x, y := Thk(Reading(a)), Thk(Reading(b));
    ReadingDeps(a);
    ReadingDeps(b);
    assert Item(Untagged(a), "") in Reading(a).thunks && Item(Untagged(a), "") !in Reading(b).thunks;
    assert ItemRefs(Plain(0).thunks) == {} && ItemRefs(Plain(1).thunks) == {};
  }

  lemma PairIndexed(a: Hash, b: Hash)
    requires a == Thk(Plain(0)) && b == Thk(Plain(1))
    ensures Closed(Pair(a, b)) && Indexed(Pair(a, b), {})
  {
    hide Deps, Reading;
    PairShape(a, b);
    var g := Pair(a, b);
    forall d | d in g.thunks ensures g.referencing[d] == Referrers(g.thunks, d) { }
  }

  // The first returns the second; everything else yields values.
  function FirstReturnsSecond(): Oracle {
    t => if t == Plain(0) then [Thk(Plain(1))] else seq(|t.outputs|, _ => Value(0))
  }

  lemma PlainTidy(n: nat)
    ensures TidyThunk(Plain(n)) && WellFormed(Thk(Plain(n))) && Plain(n).CanBeExecuted()
  {
  }

  lemma ReadingTidy(h: Hash)
    requires h.Thk? && WellFormed(h)
    ensures TidyThunk(Reading(h)) && WellFormed(Thk(Reading(h))) && !Reading(h).CanBeExecuted()
  {
    ReadingDeps(h);
    assert Item(Untagged(h), "") in Reading(h).thunks;
    assert ItemRefs(Reading(h).thunks) == {Untagged(h)};
    assert Needs(Reading(h)) == {Untagged(h)};
  }

  lemma OnlyValues(outs: seq<Hash>, n: nat)
    requires outs == seq(n, _ => Value(0))
    ensures forall o | o in outs :: o.Value?
  {
  }

  lemma ExampleBehaves()
    ensures WellBehaved(FirstReturnsSecond()) && Executes(FirstReturnsSecond(), Thk(Plain(0)))
    ensures ReportOf(FirstReturnsSecond(), Thk(Plain(0))) == [Output(Thk(Plain(1)), "out")]
  {
    var run := FirstReturnsSecond();
    PlainTidy(0);
    PlainTidy(1);
    assert run(Plain(0)) == [Thk(Plain(1))];
    forall t: Thunk | WellFormed(Thk(t)) && t.CanBeExecuted() ensures Orderly(t, run(t)) {
      if t != Plain(0) { OnlyValues(run(t), |t.outputs|); }
    }
  }

  lemma PairStored(run: Oracle, h: Hash)
    requires h.Thk? && WellFormed(h)
    ensures Stored(run, h, h.thunk)
  {
    StandsInSelf(run, h);
    assert h == Thk(h.thunk);
  }

  lemma PairValid(run: Oracle, a: Hash, b: Hash)
    requires a == Thk(Plain(0)) && b == Thk(Plain(1))
    ensures Valid(run, Pair(a, b))
  {
    hide Stored, WellFormed, Deps, Indexed, Closed, TidyThunk, Split;
    PlainTidy(0);
    PlainTidy(1);
    ReadingTidy(a);
    ReadingTidy(b);
    PairIndexed(a, b);
    PairStored(run, a);
    PairStored(run, b);
    PairStored(run, Thk(Reading(a)));
    PairStored(run, Thk(Reading(b)));
  }

  // In a valid graph, a returns b, which is stored already: the new index of b forgets who referred to b before.
  lemma MergeLosesReferrer()
    ensures var run, a, b := FirstReturnsSecond(), Thk(Plain(0)), Thk(Plain(1));
            var g, y := Pair(a, b), Thk(Reading(b));
            && WellBehaved(run) && Valid(run, g) && a in Runnable(g)
            && Executes(run, a) && ReportOf(run, a) == [Output(b, "out")] && !MergeFree(run, g, a)
            && var g' := Relinked(g, a, ReportOf(run, a));
               y in Referrers(g'.thunks, b) && y !in g'.referencing[b]
  {
    hide Deps, Subst, OutputSub, Consistent, WellBehaved, ReportOf, Loadable, WellFormed, TidyThunk;
    var run, a, b := FirstReturnsSecond(), Thk(Plain(0)), Thk(Plain(1));
    PairShape(a, b);
    ExampleBehaves();
    PairValid(run, a, b);
    PlainTidy(0);
    var g, y := Pair(a, b), Thk(Reading(b));
    var g' := Relinked(g, a, [Output(b, "out")]);
    assert y in g'.thunks && g'.thunks[y] == g.thunks[y];
  }
}
