/** Eager evaluation: the reference meaning that lazy graph reduction has to preserve.

    Running a thunk without unresolved dependencies is an oracle: it yields one hash per output,
    each a value or another thunk. Eager evaluation first evaluates everything a thunk needs,
    substitutes the values, runs it, and goes on evaluating whatever came out. */
module Evaluation {
  import opened Options
  import opened Thunks

  type Oracle = Thunk -> seq<Hash>
  type Valuation = Ref -> Option<nat>

  function FindTag(outputs: seq<string>, tag: string, i: nat): (r: Option<nat>)
    ensures r.Some? ==> i <= r.value < |outputs| && outputs[r.value] == tag
    ensures r.None? ==> forall j | i <= j < |outputs| :: outputs[j] != tag
    decreases |outputs| - i
  {
    if i >= |outputs| then None else if outputs[i] == tag then Some(i) else FindTag(outputs, tag, i + 1)
  }

  function Position(outputs: seq<string>, sel: Selector): (r: Option<nat>)
    ensures r.Some? ==> r.value < |outputs|
  {
    match sel
    case First => if outputs == [] then None else Some(0)
    case Tag(tag) => FindTag(outputs, tag, 1)
  }

  // The value a reference picks out of all values its base evaluates to.
  function Pick(r: Ref, values: Option<seq<nat>>): Option<nat> {
    match values
    case None => None
    case Some(vs) =>
      var pos := if r.base.Value? then Some(0) else Position(r.base.thunk.outputs, r.sel);
      if pos.Some? && pos.value < |vs| then Some(vs[pos.value]) else None
  }

  // Where output i of a finished execution continues.
  function NextRef(tags: seq<string>, outs: seq<Hash>, i: nat): Ref
    requires i < |outs| == |tags|
  {
    if outs[i].Value? || i == 0 then Untagged(outs[i]) else Ref(outs[i], Tag(tags[i]))
  }

  function ValuesFor(val: Valuation, refs: set<Ref>): Substitution {
    map r | r in refs && val(r).Some? :: Untagged(Value(val(r).value))
  }

  ghost function Resolve(val: Valuation, t: Thunk): Thunk { Subst(t, ValuesFor(val, Needs(t))) }

  // The values an execution ends in, given the values of its outputs.
  ghost function Gather(val: Valuation, tags: seq<string>, outs: seq<Hash>): (r: Option<seq<nat>>)
    ensures r.Some? ==> |r.value| == |tags|
  {
    if |outs| != |tags| || !(forall i | 0 <= i < |outs| :: val(NextRef(tags, outs, i)).Some?) then None
    else Some(seq(|outs|, i requires 0 <= i < |outs| => val(NextRef(tags, outs, i)).value))
  }

  // One evaluation step, given the values of all smaller things.
  ghost function Step(run: Oracle, val: Valuation, t: Thunk): (r: Option<seq<nat>>)
    ensures r.Some? ==> |r.value| == |t.outputs|
  {
    if forall r | r in Needs(t) :: val(r).Some? then Gather(val, t.outputs, run(Resolve(val, t))) else None
  }

  // Eager evaluation with bounded depth.
  ghost function Eval(run: Oracle, n: nat, h: Hash): Option<seq<nat>>
    decreases n
  {
    match h
    case Value(id) => Some([id])
    case Thk(t) => if n == 0 then None else Step(run, (r: Ref) => Pick(r, Eval(run, n - 1, r.base)), t)
  }

  ghost function EvalRef(run: Oracle, n: nat): Valuation { (r: Ref) => Pick(r, Eval(run, n, r.base)) }

  ghost predicate Converges(run: Oracle, h: Hash) { exists n: nat :: Eval(run, n, h).Some? }

  ghost function Depth(run: Oracle, h: Hash): (n: nat)
    requires Converges(run, h)
    ensures Eval(run, n, h).Some?
  {
    var n: nat :| Eval(run, n, h).Some?; n
  }

  // The values of all outputs of h, or None when eager evaluation does not terminate.
  ghost function Meaning(run: Oracle, h: Hash): Option<seq<nat>> {
    if Converges(run, h) then Eval(run, Depth(run, h), h) else None
  }

  ghost function MeaningOf(run: Oracle): Valuation { (r: Ref) => Pick(r, Meaning(run, r.base)) }

  // ---------------------------------------------------------------- the fixpoint equation

  // b knows at least what a knows.
  ghost predicate Extends(a: Valuation, b: Valuation, refs: set<Ref>) {
    forall r | r in refs :: a(r).Some? ==> b(r) == a(r)
  }

  ghost function OutRefs(tags: seq<string>, outs: seq<Hash>): set<Ref> {
    if |outs| != |tags| then {} else set i | 0 <= i < |outs| :: NextRef(tags, outs, i)
  }

  ghost function NextRefs(run: Oracle, val: Valuation, t: Thunk): set<Ref> {
    OutRefs(t.outputs, run(Resolve(val, t)))
  }

  lemma GatherExtends(a: Valuation, b: Valuation, tags: seq<string>, outs: seq<Hash>)
    requires Gather(a, tags, outs).Some?
    requires Extends(a, b, OutRefs(tags, outs))
    ensures Gather(b, tags, outs) == Gather(a, tags, outs)
  {
    forall i | 0 <= i < |outs| ensures b(NextRef(tags, outs, i)) == a(NextRef(tags, outs, i)) {
      assert NextRef(tags, outs, i) in OutRefs(tags, outs);
    }
    assert Gather(b, tags, outs).value == Gather(a, tags, outs).value;
  }

  lemma StepExtends(run: Oracle, a: Valuation, b: Valuation, t: Thunk)
    requires Step(run, a, t).Some?
    requires Extends(a, b, Needs(t)) && Extends(a, b, NextRefs(run, a, t))
    ensures Step(run, b, t) == Step(run, a, t)
    ensures Resolve(a, t) == Resolve(b, t)
  {
    assert ValuesFor(a, Needs(t)) == ValuesFor(b, Needs(t));
    GatherExtends(a, b, t.outputs, run(Resolve(a, t)));
  }

  lemma EvalUnfold(run: Oracle, n: nat, t: Thunk)
    ensures Eval(run, n + 1, Thk(t)) == Step(run, EvalRef(run, n), t)
  {
    StepSame(run, (r: Ref) => Pick(r, Eval(run, n, r.base)), EvalRef(run, n), t);
  }

  lemma StepSame(run: Oracle, a: Valuation, b: Valuation, t: Thunk)
    requires forall r :: a(r) == b(r)
    ensures Step(run, a, t) == Step(run, b, t)
  {
    if Step(run, a, t).Some? { StepExtends(run, a, b, t); }
    if Step(run, b, t).Some? { StepExtends(run, b, a, t); }
  }

  // Depth m finds everything depth n finds.
  ghost predicate Deeper(run: Oracle, n: nat, m: nat) {
    forall h :: Eval(run, n, h).Some? ==> Eval(run, m, h) == Eval(run, n, h)
  }

  lemma DeeperRefs(run: Oracle, n: nat, m: nat, refs: set<Ref>)
    requires Deeper(run, n, m)
    ensures Extends(EvalRef(run, n), EvalRef(run, m), refs)
  {
  }

  lemma DeeperStep(run: Oracle, n: nat, m: nat, t: Thunk)
    requires Deeper(run, n, m)
    ensures Eval(run, n + 1, Thk(t)).Some? ==> Eval(run, m + 1, Thk(t)) == Eval(run, n + 1, Thk(t))
  {
    EvalUnfold(run, n, t);
    EvalUnfold(run, m, t);
    if Step(run, EvalRef(run, n), t).Some? {
      DeeperRefs(run, n, m, Needs(t));
      DeeperRefs(run, n, m, NextRefs(run, EvalRef(run, n), t));
      StepExtends(run, EvalRef(run, n), EvalRef(run, m), t);
    }
  }

  lemma DeeperNext(run: Oracle, n: nat, m: nat, n': nat, m': nat)
    requires Deeper(run, n, m) && n' == n + 1 && m' == m + 1
    ensures Deeper(run, n', m')
  {
    forall h | Eval(run, n', h).Some? ensures Eval(run, m', h) == Eval(run, n', h) {
      match h
      case Value(_) =>
      case Thk(t) => DeeperStep(run, n, m, t);
    }
  }

  lemma DeeperBase(run: Oracle, m: nat)
    ensures Deeper(run, 0, m)
  {
    forall h | Eval(run, 0, h).Some? ensures Eval(run, m, h) == Eval(run, 0, h) {
      match h
      case Value(_) =>
      case Thk(_) =>
    }
  }

  lemma {:induction false} EvalDeepens(run: Oracle, n: nat, m: nat)
    requires n <= m
    ensures Deeper(run, n, m)
  {
    if n == 0 {
      DeeperBase(run, m);
    } else {
      var i: nat, j: nat := n - 1, m - 1;
      EvalDeepens(run, i, j);
      DeeperNext(run, i, j, n, m);
    }
  }

  lemma EvalGrows(run: Oracle, n: nat, m: nat, h: Hash)
    requires n <= m && Eval(run, n, h).Some?
    ensures Eval(run, m, h) == Eval(run, n, h)
  {
    EvalDeepens(run, n, m);
  }

  lemma MeaningFound(run: Oracle, n: nat, h: Hash)
    requires Eval(run, n, h).Some?
    ensures Meaning(run, h) == Eval(run, n, h) && Converges(run, h)
  {
    var d := Depth(run, h);
    if n <= d { EvalGrows(run, n, d, h); } else { EvalGrows(run, d, n, h); }
  }

  lemma EvalBelowMeaning(run: Oracle, n: nat, refs: set<Ref>)
    ensures Extends(EvalRef(run, n), MeaningOf(run), refs)
  {
    forall r | r in refs && EvalRef(run, n)(r).Some? ensures MeaningOf(run)(r) == EvalRef(run, n)(r) {
      MeaningFound(run, n, r.base);
    }
  }

  // Finitely many references are all evaluated at some depth.
  lemma {:induction false} CommonDepth(run: Oracle, refs: set<Ref>) returns (n: nat)
    ensures forall m: nat | m >= n :: Extends(MeaningOf(run), EvalRef(run, m), refs)
  {
    n := 0;
    var todo := refs;
    while todo != {}
      invariant forall m: nat, r | m >= n && r in refs - todo &&
                  MeaningOf(run)(r).Some? :: EvalRef(run, m)(r) == MeaningOf(run)(r)
      decreases todo
    {
      var r :| r in todo;
      if Converges(run, r.base) {
        var d := Depth(run, r.base);
        forall m: nat | m >= d ensures EvalRef(run, m)(r) == MeaningOf(run)(r) {
          EvalGrows(run, d, m, r.base);
        }
        n := if n < d then d else n;
      }
      todo := todo - {r};
    }
  }

  lemma MeaningUnfold(run: Oracle, t: Thunk)
    ensures Meaning(run, Thk(t)) == Step(run, MeaningOf(run), t)
  {
    if Converges(run, Thk(t)) {
      var n := Depth(run, Thk(t));
      NotAtZero(run, t, n);
      MeaningIsStep(run, t, n, n - 1);
    }
    if Step(run, MeaningOf(run), t).Some? {
      StepIsMeaning(run, t);
    }
  }

  lemma NotAtZero(run: Oracle, t: Thunk, n: nat)
    requires Eval(run, n, Thk(t)).Some?
    ensures n > 0
  {
  }

  lemma MeaningIsStep(run: Oracle, t: Thunk, n: nat, i: nat)
    requires n == i + 1 && Eval(run, n, Thk(t)).Some?
    ensures Step(run, MeaningOf(run), t) == Eval(run, n, Thk(t))
    ensures Resolve(EvalRef(run, i), t) == Resolve(MeaningOf(run), t)
  {
    EvalUnfold(run, i, t);
    EvalBelowMeaning(run, i, Needs(t));
    EvalBelowMeaning(run, i, NextRefs(run, EvalRef(run, i), t));
    StepExtends(run, EvalRef(run, i), MeaningOf(run), t);
  }

  lemma StepIsMeaning(run: Oracle, t: Thunk)
    requires Step(run, MeaningOf(run), t).Some?
    ensures Meaning(run, Thk(t)) == Step(run, MeaningOf(run), t)
  {
    var n := CommonDepth(run, Needs(t) + NextRefs(run, MeaningOf(run), t));
    StepReaches(run, t, n);
  }

  lemma StepReaches(run: Oracle, t: Thunk, n: nat)
    requires Step(run, MeaningOf(run), t).Some?
    requires Extends(MeaningOf(run), EvalRef(run, n), Needs(t) + NextRefs(run, MeaningOf(run), t))
    ensures Meaning(run, Thk(t)) == Step(run, MeaningOf(run), t)
  {
    StepExtends(run, MeaningOf(run), EvalRef(run, n), t);
    var k: nat := n + 1;
    EvalUnfold(run, n, t);
    assert Eval(run, k, Thk(t)) == Step(run, MeaningOf(run), t);
    MeaningFound(run, k, Thk(t));
  }

  // ---------------------------------------------------------------- substitution keeps the meaning

  // s replaces references by references with the same value.
  ghost predicate Faithful(run: Oracle, s: Substitution, refs: set<Ref>) {
    && (forall r | r in s :: r.base.Thk? && (s[r].base.Value? ==> s[r].sel == First))
    && (forall r | r in refs :: MeaningOf(run)(Apply(s, r)) == MeaningOf(run)(r))
  }

  lemma ValueMeaning(run: Oracle, r: Ref)
    requires r.base.Value?
    ensures MeaningOf(run)(r) == Some(r.base.id)
  {
    MeaningFound(run, 0, r.base);
  }

  lemma FaithfulNeeds(run: Oracle, t: Thunk, s: Substitution)
    requires Faithful(run, s, Refs(t))
    ensures (forall r | r in Needs(Subst(t, s)) :: MeaningOf(run)(r).Some?) <==>
              (forall r | r in Needs(t) :: MeaningOf(run)(r).Some?)
  {
    var val, u := MeaningOf(run), Subst(t, s);
    if forall r | r in Needs(t) :: val(r).Some? {
      forall r | r in Needs(u) ensures val(r).Some? {
        RefsOfSubst(t, s, r);
        var r0 :| r0 in Refs(t) && Apply(s, r0) == r;
        if r0.base.Value? { ValueMeaning(run, r0); } else { assert r0 in Needs(t); }
      }
    }
    if forall r | r in Needs(u) :: val(r).Some? {
      forall r | r in Needs(t) ensures val(r).Some? {
        var r' := Apply(s, r);
        RefsOfSubst(t, s, r');
        if r'.base.Value? { ValueMeaning(run, r'); } else { assert r' in Needs(u); }
      }
    }
  }

  lemma FaithfulResolve(run: Oracle, t: Thunk, s: Substitution)
    requires Faithful(run, s, Refs(t))
    requires forall r | r in Needs(t) :: MeaningOf(run)(r).Some?
    ensures Resolve(MeaningOf(run), Subst(t, s)) == Resolve(MeaningOf(run), t)
  {
    var val, u := MeaningOf(run), Subst(t, s);
    var before, after := ValuesFor(val, Needs(t)), ValuesFor(val, Needs(u));
    forall r | r in Refs(t) ensures Apply(after, Apply(s, r)) == Apply(before, r) {
      var r' := Apply(s, r);
      RefsOfSubst(t, s, r');
      if r.base.Thk? {
        assert r in Needs(t);
        if r'.base.Value? { ValueMeaning(run, r'); } else { assert r' in Needs(u); }
      }
    }
    SubstCompose(t, s, after, before);
  }

  // Replacing references by references of the same value does not change what a thunk means.
  lemma SubstKeepsMeaning(run: Oracle, t: Thunk, s: Substitution)
    requires Faithful(run, s, Refs(t))
    ensures Meaning(run, Thk(Subst(t, s))) == Meaning(run, Thk(t))
  {
    FaithfulNeeds(run, t, s);
    MeaningUnfold(run, t);
    MeaningUnfold(run, Subst(t, s));
    if forall r | r in Needs(t) :: MeaningOf(run)(r).Some? {
      FaithfulResolve(run, t, s);
    }
  }

  // ---------------------------------------------------------------- what an execution yields

  // The hashes and tags an execution engine reports.
  function Reported(t: Thunk, outs: seq<Hash>): seq<Output>
    requires |outs| == |t.outputs|
  {
    seq(|outs|, i requires 0 <= i < |outs| => Output(outs[i], t.outputs[i]))
  }

  // The outputs of one execution are all values, or all the same thunk, which has the tags needed.
  ghost predicate Orderly(t: Thunk, outs: seq<Hash>) {
    && |outs| == |t.outputs| > 0
    && (|| (forall o | o in outs :: o.Value?)
        || (&& outs[0].Thk? && WellFormed(outs[0])
            && (forall o | o in outs :: o == outs[0])
            && forall x | x in Tail(t.outputs) :: x in Tail(outs[0].thunk.outputs)))
  }

  ghost predicate WellBehaved(run: Oracle) {
    forall t: Thunk | WellFormed(Thk(t)) && t.CanBeExecuted() :: Orderly(t, run(t))
  }

  // b can stand in for a: same value for every output a thunk may refer to.
  ghost predicate Agree(run: Oracle, a: Hash, b: Hash) {
    && a.Thk? && b.Thk?
    && MeaningOf(run)(Untagged(a)) == MeaningOf(run)(Untagged(b))
    && forall x | x in Tail(a.thunk.outputs) ::
         x in Tail(b.thunk.outputs) && MeaningOf(run)(Ref(a, Tag(x))) == MeaningOf(run)(Ref(b, Tag(x)))
  }

  lemma NothingNeeded(t: Thunk)
    requires TidyThunk(t) && t.CanBeExecuted()
    ensures Needs(t) == {}
  {
    assert Deps(t) == {};
  }

  lemma ExecutedMeaning(run: Oracle, t: Thunk)
    requires TidyThunk(t) && t.CanBeExecuted()
    ensures Meaning(run, Thk(t)) == Gather(MeaningOf(run), t.outputs, run(t))
  {
    NothingNeeded(t);
    MeaningUnfold(run, t);
    SubstIdentity(t, ValuesFor(MeaningOf(run), Needs(t)));
  }

  lemma TagPosition(outputs: seq<string>, x: string)
    requires x in Tail(outputs)
    ensures Position(outputs, Tag(x)).Some?
  {
    var j :| 0 <= j < |Tail(outputs)| && Tail(outputs)[j] == x;
    assert outputs[j + 1] == x;
  }

  lemma MeaningLength(run: Oracle, t: Thunk)
    ensures Meaning(run, Thk(t)).Some? ==> |Meaning(run, Thk(t)).value| == |t.outputs|
  {
    MeaningUnfold(run, t);
  }

  lemma GatherAt(run: Oracle, tags: seq<string>, outs: seq<Hash>, h: Hash, r: Ref)
    requires h.Thk? && h.thunk.outputs == tags != [] && |outs| == |tags|
    requires Meaning(run, h) == Gather(MeaningOf(run), tags, outs)
    requires Meaning(run, h).Some? && r.base == h && (r.sel.Tag? ==> r.sel.tag in Tail(tags))
    ensures var p := Position(tags, r.sel); p.Some? && MeaningOf(run)(r) == MeaningOf(run)(NextRef(tags, outs, p.value))
  {
    if r.sel.Tag? { TagPosition(tags, r.sel.tag); }
  }

  lemma PickFound(run: Oracle, next: Hash, sel: Selector)
    requires next.Thk? && next.thunk.outputs != [] && (sel.Tag? ==> sel.tag in Tail(next.thunk.outputs))
    ensures MeaningOf(run)(Ref(next, sel)).Some? <==> Meaning(run, next).Some?
  {
    if sel.Tag? { TagPosition(next.thunk.outputs, sel.tag); }
    assert next == Thk(next.thunk);
    MeaningLength(run, next.thunk);
  }

  // Both diverge, or both have all their values.
  lemma GatherOne(run: Oracle, tags: seq<string>, outs: seq<Hash>, next: Hash)
    requires |outs| == |tags| > 0 && next.Thk? && next.thunk.outputs != []
    requires forall o | o in outs :: o == next
    requires forall x | x in Tail(tags) :: x in Tail(next.thunk.outputs)
    ensures Gather(MeaningOf(run), tags, outs).Some? <==> Meaning(run, next).Some?
  {
    forall i | 0 <= i < |outs|
      ensures MeaningOf(run)(NextRef(tags, outs, i)).Some? <==> Meaning(run, next).Some? {
      assert outs[i] in outs;
      if i > 0 { assert tags[i] == Tail(tags)[i - 1]; }
      PickFound(run, next, NextRef(tags, outs, i).sel);
    }
    assert MeaningOf(run)(NextRef(tags, outs, 0)).Some? <==> Meaning(run, next).Some?;
  }

  lemma SameThroughNext(run: Oracle, t: Thunk, next: Hash, r: Ref)
    requires TidyThunk(t) && t.CanBeExecuted() && Orderly(t, run(t)) && next == run(t)[0] && next.Thk?
    requires r.base == Thk(t) && (r.sel.Tag? ==> r.sel.tag in Tail(t.outputs))
    ensures MeaningOf(run)(r) == MeaningOf(run)(Ref(next, r.sel))
  {
    ExecutedMeaning(run, t);
    assert next in run(t);
    assert TidyThunk(next.thunk);
    GatherOne(run, t.outputs, run(t), next);
    if Meaning(run, Thk(t)).Some? {
      SameWhenFound(run, t.outputs, run(t), Thk(t), next, r);
    } else {
      SameWhenLost(run, r, Ref(next, r.sel));
    }
  }

  lemma SameWhenLost(run: Oracle, a: Ref, b: Ref)
    requires Meaning(run, a.base).None? && Meaning(run, b.base).None?
    ensures MeaningOf(run)(a) == MeaningOf(run)(b)
  {
  }

  lemma SameWhenFound(run: Oracle, tags: seq<string>, outs: seq<Hash>, h: Hash, next: Hash, r: Ref)
    requires h.Thk? && h.thunk.outputs == tags != [] && |outs| == |tags| && next.Thk?
    requires Meaning(run, h) == Gather(MeaningOf(run), tags, outs)
    requires Meaning(run, h).Some? && r.base == h && (r.sel.Tag? ==> r.sel.tag in Tail(tags))
    requires forall o | o in outs :: o == next
    ensures MeaningOf(run)(r) == MeaningOf(run)(Ref(next, r.sel))
  {
    GatherAt(run, tags, outs, h, r);
    var p := Position(tags, r.sel).value;
    assert outs[p] in outs;
    assert NextRef(tags, outs, p) == Ref(next, r.sel);
  }

  // A thunk that returned a thunk means what that thunk means.
  lemma ReducedToThunk(run: Oracle, t: Thunk)
    requires TidyThunk(t) && t.CanBeExecuted() && Orderly(t, run(t)) && run(t)[0].Thk?
    ensures Agree(run, Thk(t), run(t)[0])
  {
    var next := run(t)[0];
    assert next in run(t);
    SameThroughNext(run, t, next, Untagged(Thk(t)));
    forall x | x in Tail(t.outputs) ensures MeaningOf(run)(Ref(Thk(t), Tag(x))) == MeaningOf(run)(Ref(next, Tag(x))) {
      SameThroughNext(run, t, next, Ref(Thk(t), Tag(x)));
    }
  }

  function Ids(outs: seq<Hash>): seq<nat> {
    seq(|outs|, i requires 0 <= i < |outs| => if outs[i].Value? then outs[i].id else 0)
  }

  lemma GatherValues(run: Oracle, tags: seq<string>, outs: seq<Hash>)
    requires |outs| == |tags| && forall o | o in outs :: o.Value?
    ensures Gather(MeaningOf(run), tags, outs) == Some(Ids(outs))
  {
    forall i | 0 <= i < |outs| ensures MeaningOf(run)(NextRef(tags, outs, i)) == Some(Ids(outs)[i]) {
      ValueMeaning(run, Untagged(outs[i]));
    }
    assert Gather(MeaningOf(run), tags, outs).value == Ids(outs);
  }

  // A thunk that returned values means those values.
  lemma ReducedToValues(run: Oracle, t: Thunk)
    requires TidyThunk(t) && t.CanBeExecuted() && |run(t)| == |t.outputs|
    requires forall o | o in run(t) :: o.Value?
    ensures Meaning(run, Thk(t)) == Some(Ids(run(t)))
  {
    ExecutedMeaning(run, t);
    GatherValues(run, t.outputs, run(t));
  }

  lemma OutputSubAt(original: Hash, outputs: seq<Output>, tags: seq<string>, x: string)
    requires |outputs| == |tags| > 0 && forall i | 0 <= i < |tags| :: outputs[i].tag == tags[i]
    ensures var p := FindTag(tags, x, 1); var s := OutputSub(original, outputs);
            if p.Some? then Ref(original, Tag(x)) in s && s[Ref(original, Tag(x))] == NewRef(outputs[p.value])
            else Ref(original, Tag(x)) !in s
  {
    OutputSubLookup(original, outputs, tags, x, |tags|);
    assert outputs[..|tags|] == outputs;
  }

  // The first output listed under a tag is the one its references go to.
  lemma {:induction false} OutputSubLookup(original: Hash, outputs: seq<Output>, tags: seq<string>, x: string, k: nat)
    requires |outputs| == |tags| && 0 < k <= |tags| && forall i | 0 <= i < |tags| :: outputs[i].tag == tags[i]
    ensures var p := FindTag(tags, x, 1); var s := OutputSub(original, outputs[..k]);
            if p.Some? && p.value < k then Ref(original, Tag(x)) in s &&
                s[Ref(original, Tag(x))] == NewRef(outputs[p.value])
            else Ref(original, Tag(x)) !in s
    ensures Untagged(original) in OutputSub(original, outputs[..k])
    ensures OutputSub(original, outputs[..k])[Untagged(original)] == Untagged(outputs[0].hash)
  {
    if k > 1 {
      OutputSubLookup(original, outputs, tags, x, k - 1);
      assert outputs[..k][..k - 1] == outputs[..k - 1];
      FirstTag(tags, x, 1);
    }
  }

  lemma {:induction false} FirstTag(tags: seq<string>, x: string, i: nat)
    ensures var p := FindTag(tags, x, i); p.Some? ==> forall j | i <= j < p.value :: tags[j] != x
    decreases |tags| - i
  {
    if i < |tags| && tags[i] != x { FirstTag(tags, x, i + 1); }
  }

  ghost predicate Executes(run: Oracle, k: Hash) {
    k.Thk? && TidyThunk(k.thunk) && k.thunk.CanBeExecuted() && Orderly(k.thunk, run(k.thunk))
  }

  // What an execution engine reports for k.
  ghost function ReportOf(run: Oracle, k: Hash): seq<Output>
    requires Executes(run, k)
  {
    Reported(k.thunk, run(k.thunk))
  }

  lemma ReportListed(run: Oracle, k: Hash, t: Thunk)
    requires Executes(run, k) && TidyThunk(t)
    ensures Listed(t, k, ReportOf(run, k))
  {
    forall r | r in Needs(t) && r.base == k && r.sel.Tag?
      ensures exists i :: 1 <= i < |ReportOf(run, k)| && ReportOf(run, k)[i].tag == r.sel.tag {
      TagPosition(k.thunk.outputs, r.sel.tag);
      var i := Position(k.thunk.outputs, r.sel).value;
      assert ReportOf(run, k)[i].tag == r.sel.tag;
    }
  }

  lemma ReportUniform(run: Oracle, k: Hash)
    requires Executes(run, k)
    ensures Uniform(ReportOf(run, k), run(k.thunk)[0])
  {
    var outs := run(k.thunk);
    forall i | 0 <= i < |outs|
      ensures if outs[0].Value? then ReportOf(run, k)[i].hash.Value? else ReportOf(run, k)[i].hash == outs[0] {
      assert outs[i] in outs;
    }
  }

  // Substituting reported outputs keeps the value of every reference of a tidy thunk.
  lemma ReportFaithful(run: Oracle, k: Hash, t: Thunk)
    requires Executes(run, k) && TidyThunk(t)
    ensures Faithful(run, OutputSub(k, ReportOf(run, k)), Refs(t))
  {
    var outputs := ReportOf(run, k);
    var s := OutputSub(k, outputs);
    forall r | r in s ensures r.base.Thk? && (s[r].base.Value? ==> s[r].sel == First) { OutputSubShape(k, outputs, r); }
    forall r | r in Refs(t) ensures MeaningOf(run)(Apply(s, r)) == MeaningOf(run)(r) {
      if r in s { ReportedRef(run, k, r); }
    }
  }

  lemma ReportSubAt(run: Oracle, k: Hash, r: Ref)
    requires Executes(run, k) && r in OutputSub(k, ReportOf(run, k))
    ensures var p := Position(k.thunk.outputs, r.sel);
            && r.base == k && p.Some? && (r.sel.Tag? ==> r.sel.tag in Tail(k.thunk.outputs))
            && OutputSub(k, ReportOf(run, k))[r] == NextRef(k.thunk.outputs, run(k.thunk), p.value)
  {
    var outputs, tags := ReportOf(run, k), k.thunk.outputs;
    OutputSubShape(k, outputs, r);
    if r.sel.Tag? {
      OutputSubAt(k, outputs, tags, r.sel.tag);
      var p := FindTag(tags, r.sel.tag, 1).value;
      assert Tail(tags)[p - 1] == r.sel.tag;
    } else {
      OutputSubLookup(k, outputs, tags, "", |tags|);
      assert outputs[..|tags|] == outputs;
    }
  }

  lemma ReportedRef(run: Oracle, k: Hash, r: Ref)
    requires Executes(run, k) && r in OutputSub(k, ReportOf(run, k))
    ensures MeaningOf(run)(OutputSub(k, ReportOf(run, k))[r]) == MeaningOf(run)(r)
  {
    ReportSubAt(run, k, r);
    assert k == Thk(k.thunk);
    ContinuesAt(run, k.thunk, r);
  }

  lemma ContinuesAt(run: Oracle, t: Thunk, r: Ref)
    requires Executes(run, Thk(t)) && r.base == Thk(t) && (r.sel.Tag? ==> r.sel.tag in Tail(t.outputs))
    requires Position(t.outputs, r.sel).Some?
    ensures MeaningOf(run)(r) == MeaningOf(run)(NextRef(t.outputs, run(t), Position(t.outputs, r.sel).value))
  {
    var outs, p := run(t), Position(t.outputs, r.sel).value;
    assert outs[p] in outs;
    if outs[0].Thk? {
      SameThroughNext(run, t, outs[0], r);
    } else {
      ReducedToValues(run, t);
      assert outs[0] in outs;
      ValueMeaning(run, Untagged(outs[p]));
      PickAt(r, Meaning(run, Thk(t)), Ids(outs), p);
    }
  }

  lemma PickAt(r: Ref, vs: Option<seq<nat>>, ids: seq<nat>, p: nat)
    requires vs == Some(ids) && r.base.Thk? && Position(r.base.thunk.outputs, r.sel) == Some(p) && p < |ids|
    ensures Pick(r, vs) == Some(ids[p])
  {
  }

  // Redirecting references to a thunk that agrees keeps their values.
  lemma RedirectFaithful(run: Oracle, a: Hash, b: Hash, outputs: seq<Output>, t: Thunk)
    requires Agree(run, a, b) && outputs != [] && forall o | o in outputs :: o.hash == b
    requires TidyThunk(t)
    ensures Faithful(run, OutputSub(a, outputs), Refs(t))
  {
    var s := OutputSub(a, outputs);
    forall r | r in s ensures r.base.Thk? && (s[r].base.Value? ==> s[r].sel == First) { OutputSubShape(a, outputs, r); }
    forall r | r in Refs(t) ensures MeaningOf(run)(Apply(s, r)) == MeaningOf(run)(r) {
      OutputSubShape(a, outputs, r);
      if r in s {
        assert s[r] == Ref(b, r.sel);
        assert r in Needs(t);
      }
    }
  }
}
