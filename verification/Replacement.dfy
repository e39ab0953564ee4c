/** One hash standing in for another, and what replacing hashes does to a thunk that refers to them. */
module Replacement {
  import opened Thunks
  import opened Evaluation
  import opened Costs

  // b may be used wherever a was: same values, and no more work left.
  ghost predicate StandsIn(run: Oracle, a: Hash, b: Hash) {
    && Agree(run, a, b)
    && (Converges(run, a) ==> Converges(run, b) && Cost(run, b) <= Cost(run, a))
  }

  lemma StandsInSelf(run: Oracle, a: Hash)
    requires a.Thk?
    ensures StandsIn(run, a, a)
  {
  }

  lemma StandsInTrans(run: Oracle, a: Hash, b: Hash, c: Hash)
    requires StandsIn(run, a, b) && StandsIn(run, b, c)
    ensures StandsIn(run, a, c)
  {
  }

  // Rewriting t from gone to outputs is sound: the outputs are all values, or all outputs of next.
  ghost predicate Sound(run: Oracle, t: Thunk, gone: Hash, outputs: seq<Output>, next: Hash) {
    && gone.Thk? && TidyThunk(t) && Uniform(outputs, next) && Listed(t, gone, outputs)
    && Faithful(run, OutputSub(gone, outputs), Refs(t))
    && (next.Thk? ==> StandsIn(run, gone, next))
  }

  lemma ConvergesIsMeaning(run: Oracle, h: Hash)
    ensures Converges(run, h) <==> Meaning(run, h).Some?
  {
    if Converges(run, h) { MeaningFound(run, Depth(run, h), h); }
  }

  lemma SameMeaning(run: Oracle, t: Thunk, u: Thunk)
    requires t.outputs == u.outputs && Meaning(run, Thk(t)) == Meaning(run, Thk(u))
    ensures Agree(run, Thk(t), Thk(u))
    ensures Converges(run, Thk(t)) <==> Converges(run, Thk(u))
  {
    ConvergesIsMeaning(run, Thk(t));
    ConvergesIsMeaning(run, Thk(u));
    PickSame(run, Thk(t), Thk(u), First);
    forall x | x in Tail(t.outputs) ensures MeaningOf(run)(Ref(Thk(t), Tag(x))) == MeaningOf(run)(Ref(Thk(u), Tag(x))) {
      PickSame(run, Thk(t), Thk(u), Tag(x));
    }
  }

  lemma PickSame(run: Oracle, a: Hash, b: Hash, sel: Selector)
    requires a.Thk? && b.Thk? && a.thunk.outputs == b.thunk.outputs && Meaning(run, a) == Meaning(run, b)
    ensures MeaningOf(run)(Ref(a, sel)) == MeaningOf(run)(Ref(b, sel))
  {
  }

  // The central step: rewriting keeps a thunk tidy, moves one dependency, keeps the meaning and adds no work.
  lemma Moved(run: Oracle, t: Thunk, gone: Hash, outputs: seq<Output>, next: Hash)
    requires Sound(run, t, gone, outputs, next)
    ensures var u := Subst(t, OutputSub(gone, outputs));
            && TidyThunk(u) && u.outputs == t.outputs && Deps(u) == MovedDeps(Deps(t), gone, next)
            && Meaning(run, Thk(u)) == Meaning(run, Thk(t))
            && StandsIn(run, Thk(t), Thk(u))
            && (Converges(run, Thk(t)) ==> Own(run, u) <= Own(run, t))
  {
    var s := OutputSub(gone, outputs);
    var u := Subst(t, s);
    MovedTidy(t, gone, outputs, next);
    SubstKeepsMeaning(run, t, s);
    SameMeaning(run, t, u);
    if Converges(run, Thk(t)) { MovedCost(run, t, gone, outputs, next); }
  }

  lemma MovedCost(run: Oracle, t: Thunk, gone: Hash, outputs: seq<Output>, next: Hash)
    requires Sound(run, t, gone, outputs, next) && Converges(run, Thk(t))
    requires var u := Subst(t, OutputSub(gone, outputs));
             TidyThunk(u) && Deps(u) == MovedDeps(Deps(t), gone, next) && Converges(run, Thk(u))
    ensures var u := Subst(t, OutputSub(gone, outputs));
            Own(run, u) <= Own(run, t) && Cost(run, Thk(u)) <= Cost(run, Thk(t))
  {
    var s := OutputSub(gone, outputs);
    PartsLower(run, t);
    NeededBases(t);
    NeedsFound(run, t);
    FaithfulResolve(run, t, s);
    CostMoved(run, t, Subst(t, s), gone, next);
  }

  lemma NeedsFound(run: Oracle, t: Thunk)
    requires Converges(run, Thk(t))
    ensures forall r | r in Needs(t) :: MeaningOf(run)(r).Some?
  {
    ConvergesIsMeaning(run, Thk(t));
    MeaningUnfold(run, t);
  }

  // What an engine reports for k may be substituted into any tidy thunk.
  lemma ReportSound(run: Oracle, k: Hash, t: Thunk)
    requires Executes(run, k) && TidyThunk(t)
    ensures Sound(run, t, k, ReportOf(run, k), run(k.thunk)[0])
  {
    ReportListed(run, k, t);
    ReportUniform(run, k);
    ReportFaithful(run, k, t);
    var next := run(k.thunk)[0];
    if next.Thk? {
      ReducedToThunk(run, k.thunk);
      assert k == Thk(k.thunk);
      if Converges(run, k) { OwnOfExecuted(run, k.thunk); }
    }
  }

  // The outputs under which a renamed or already reduced thunk is known.
  function AllOutputs(next: Hash, tags: seq<string>): seq<Output> {
    seq(|tags|, i requires 0 <= i < |tags| => Output(next, tags[i]))
  }

  lemma RedirectSound(run: Oracle, a: Hash, b: Hash, tags: seq<string>, t: Thunk)
    requires StandsIn(run, a, b) && TidyThunk(t) && tags != []
    requires forall r | r in Needs(t) && r.base == a && r.sel.Tag? :: r.sel.tag in Tail(tags)
    ensures Sound(run, t, a, AllOutputs(b, tags), b)
  {
    var outputs := AllOutputs(b, tags);
    RedirectFaithful(run, a, b, outputs, t);
    forall r | r in Needs(t) && r.base == a && r.sel.Tag?
      ensures exists i :: 1 <= i < |outputs| && outputs[i].tag == r.sel.tag {
      var j :| 0 <= j < |Tail(tags)| && Tail(tags)[j] == r.sel.tag;
      assert outputs[j + 1].tag == r.sel.tag;
    }
  }
}
