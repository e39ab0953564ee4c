/** The state of the dependency graph and what every change of it keeps. */
module Graphs {
  import opened Thunks
  import opened Evaluation
  import opened Costs
  import opened Replacement

  datatype Graph = Graph(
    thunks: map<Hash, Thunk>, referencing: map<Hash, set<Hash>>,
    values: set<Hash>, executables: set<Hash>,
    originals: map<Hash, Hash>, updated: map<Hash, Hash>)

  function UpdatedHash(g: Graph, h: Hash): Hash { if h in g.updated then g.updated[h] else h }

  function OriginalHash(g: Graph, h: Hash): Hash { if h in g.originals then g.originals[h] else h }

  // ---------------------------------------------------------------- invariants

  // Every dependency of a stored thunk is stored.
  ghost predicate Closed(g: Graph) {
    forall k, d | k in g.thunks && d in Deps(g.thunks[k]) :: d in g.thunks
  }

  // The referrers of d, as the stored thunks say.
  function Referrers(thunks: map<Hash, Thunk>, d: Hash): set<Hash> {
    set k | k in thunks && d in Deps(thunks[k])
  }

  // The index lists exactly the referrers of every stored thunk other than except.
  ghost predicate Indexed(g: Graph, except: set<Hash>) {
    forall d | d in g.thunks && d !in except :: d in g.referencing && g.referencing[d] == Referrers(g.thunks, d)
  }

  // A stored thunk stands in for the hash it is stored under.
  ghost predicate Stored(run: Oracle, k: Hash, t: Thunk) {
    && k.Thk? && WellFormed(k) && TidyThunk(t) && t.outputs == k.thunk.outputs && StandsIn(run, k, Thk(t))
    && (k.thunk.CanBeExecuted() ==> t.CanBeExecuted())
  }

  ghost predicate Sane(run: Oracle, g: Graph) {
    forall k | k in g.thunks :: Stored(run, k, g.thunks[k])
  }

  // A thunk that can run is stored under its own hash, unless it is still to be renamed.
  ghost predicate Keyed(g: Graph, pending: set<Hash>) {
    forall k | k in g.thunks && g.thunks[k].CanBeExecuted() && k !in pending :: k == Thk(g.thunks[k])
  }

  // Every original resolves in one lookup to the tip of its chain, and the tip knows it.
  ghost predicate Compressed(g: Graph) {
    forall o | o in g.updated :: g.updated[o] in g.originals && g.originals[g.updated[o]] == o
  }

  // Executing u yields values, so that no chain goes on from it.
  predicate DeadEnd(run: Oracle, u: Hash) {
    u.Thk? && u.thunk.CanBeExecuted() && run(u.thunk) != [] && run(u.thunk)[0].Value?
  }

  // A chain tip is stored and what its original resolves to, or it is the end of a chain.
  ghost predicate Ends(run: Oracle, g: Graph) {
    forall u | u in g.originals :: DeadEnd(run, u) || IsTip(g, u)
  }

  ghost predicate IsTip(g: Graph, u: Hash)
    requires u in g.originals
  {
    u in g.thunks && g.originals[u] in g.updated && g.updated[g.originals[u]] == u
  }

  // What an original resolves to is stored and knows it, or it is the end of its chain.
  ghost predicate Leads(run: Oracle, g: Graph) {
    forall o | o in g.updated :: DeadEnd(run, g.updated[o]) || IsKnown(g, o)
  }

  ghost predicate IsKnown(g: Graph, o: Hash)
    requires o in g.updated
  {
    g.updated[o] in g.thunks && g.updated[o] in g.originals && g.originals[g.updated[o]] == o
  }

  // x has become a thunk that is stored and will go on.
  predicate Alive(run: Oracle, g: Graph, x: Hash) {
    x in g.updated && g.updated[x] in g.thunks && !DeadEnd(run, g.updated[x])
  }

  // A hash and the thunk that goes on from it are never both stored; a hash and the end of its chain may be.
  ghost predicate Settled(run: Oracle, g: Graph) { forall o | o in g.thunks :: !Alive(run, g, o) }

  // No chain has gone on from an end.
  ghost predicate GoesOn(run: Oracle, g: Graph) { forall o | o in g.updated :: !DeadEnd(run, o) }

  ghost predicate ChainsSound(run: Oracle, g: Graph) {
    forall o | o in g.updated :: ChainSound(run, o, g.updated[o])
  }

  ghost predicate ChainSound(run: Oracle, o: Hash, u: Hash) {
    u != o && WellFormed(o) && WellFormed(u) && StandsIn(run, o, u)
  }

  ghost predicate Chains(run: Oracle, g: Graph) {
    Ends(run, g) && Leads(run, g) && Settled(run, g) && GoesOn(run, g) && ChainsSound(run, g)
  }

  // What holds throughout force_thunk, while the thunks in pending await their new names.
  ghost predicate Consistent(run: Oracle, g: Graph, pending: set<Hash>) {
    && Closed(g) && Indexed(g, {}) && Sane(run, g) && Keyed(g, pending) && Chains(run, g)
    && pending <= g.thunks.Keys && (forall k | k in pending && k.Thk? :: !k.thunk.CanBeExecuted())
    && forall d | d in g.referencing && d !in g.thunks :: d.Value?
  }

  // What holds between calls.
  ghost predicate Valid(run: Oracle, g: Graph) {
    Consistent(run, g, {}) && g.referencing.Keys == g.thunks.Keys
  }

  // Naming a thunk x merges nothing: x is not stored, nor is a thunk that goes on from x.
  predicate Fresh(run: Oracle, g: Graph, x: Hash) { x !in g.thunks && !Alive(run, g, x) }

  // ---------------------------------------------------------------- update_hash

  ghost function RelinkedOriginals(g: Graph, gone: Hash, next: Hash): map<Hash, Hash> {
    if next.Value? then g.originals
    else if gone !in g.originals then g.originals[next := gone]
    else g.originals[next := g.originals[gone]] - {gone}
  }

  ghost function RelinkedUpdated(g: Graph, gone: Hash, next: Hash): map<Hash, Hash> {
    if next.Value? then g.updated else g.updated[OriginalHash(g, gone) := next]
  }

  ghost function Rewritten(g: Graph, gone: Hash, outputs: seq<Output>): map<Hash, Thunk>
    requires gone in g.referencing
  {
    map k | k in g.thunks && k != gone ::
      if k in g.referencing[gone] then Subst(g.thunks[k], OutputSub(gone, outputs)) else g.thunks[k]
  }

  // The effect of update_hash.
  ghost function Relinked(g: Graph, gone: Hash, outputs: seq<Output>): Graph
    requires gone in g.referencing && outputs != []
  {
    var next := outputs[0].hash;
    Graph(Rewritten(g, gone, outputs), g.referencing[next := g.referencing[gone]] - {gone},
          g.values, g.executables,
          RelinkedOriginals(g, gone, next), RelinkedUpdated(g, gone, next))
  }

  // What update_hash relies on: gone can run, and the outputs may be substituted into its referrers.
  ghost predicate MayRewrite(run: Oracle, g: Graph, gone: Hash, outputs: seq<Output>) {
    && outputs != []
    && var next := outputs[0].hash;
    && gone in g.thunks && g.thunks[gone].CanBeExecuted()
    && next != gone && Uniform(outputs, next)
    && Closed(g) && Indexed(g, {next}) && Sane(run, g) && gone in g.referencing
    && (forall k | k in g.referencing[gone] :: k in g.thunks && Sound(run, g.thunks[k], gone, outputs, next))
    && (next.Thk? ==> next in g.thunks && StandsIn(run, gone, next) && WellFormed(next))
  }

  // Moreover, nothing refers to the new hash yet.
  ghost predicate MayRelink(run: Oracle, g: Graph, gone: Hash, outputs: seq<Output>) {
    && MayRewrite(run, g, gone, outputs)
    && forall k | k in g.thunks :: outputs[0].hash !in Deps(g.thunks[k])
  }

  lemma RunnableDeps(t: Thunk)
    requires TidyThunk(t)
    ensures t.CanBeExecuted() <==> Deps(t) == {}
  {
    if !t.CanBeExecuted() {
      var i :| i in t.thunks;
      assert i.ref in ItemRefs(t.thunks);
      assert i.ref.base in Deps(t);
    }
  }

  // What became of the thunk stored under k.
  ghost predicate Follows(run: Oracle, k: Hash, t: Thunk, u: Thunk, gone: Hash, next: Hash) {
    && Stored(run, k, u)
    && Deps(u) == MovedDeps(Deps(t), gone, next)
    && StandsIn(run, Thk(t), Thk(u))
    && (Converges(run, Thk(t)) ==> Own(run, u) <= Own(run, t))
    && (u != t ==> gone in Deps(t))
  }

  lemma RewrittenFollows(run: Oracle, k: Hash, t: Thunk, gone: Hash, outputs: seq<Output>, next: Hash)
    requires Stored(run, k, t) && Sound(run, t, gone, outputs, next) && gone in Deps(t)
    ensures Follows(run, k, t, Subst(t, OutputSub(gone, outputs)), gone, next)
  {
    Moved(run, t, gone, outputs, next);
    RunnableDeps(t);
    StandsInTrans(run, k, Thk(t), Thk(Subst(t, OutputSub(gone, outputs))));
  }

  lemma UntouchedFollows(run: Oracle, k: Hash, t: Thunk, gone: Hash, next: Hash)
    requires Stored(run, k, t) && gone !in Deps(t)
    ensures Follows(run, k, t, t, gone, next)
  {
    StandsInSelf(run, Thk(t));
  }

  // After update_hash every remaining thunk depends on next where it depended on gone, and nothing else changes.
  lemma RelinkedThunk(run: Oracle, g: Graph, gone: Hash, outputs: seq<Output>, k: Hash)
    requires MayRewrite(run, g, gone, outputs) && k in g.thunks && k != gone
    ensures var g' := Relinked(g, gone, outputs);
            k in g'.thunks && Follows(run, k, g.thunks[k], g'.thunks[k], gone, outputs[0].hash)
  {
    hide Subst, OutputSub, StandsIn, WellFormed, TidyThunk, Sound, Follows, Stored, Deps, Closed;
    var next := outputs[0].hash;
    assert gone in g.thunks && gone != next;
    assert Stored(run, k, g.thunks[k]);
    assert k in g.referencing[gone] <==> gone in Deps(g.thunks[k]);
    if k in g.referencing[gone] {
      RewrittenFollows(run, k, g.thunks[k], gone, outputs, next);
    } else {
      UntouchedFollows(run, k, g.thunks[k], gone, next);
    }
  }

  lemma RelinkedKeys(g: Graph, gone: Hash, outputs: seq<Output>)
    requires gone in g.referencing && outputs != []
    ensures Relinked(g, gone, outputs).thunks.Keys == g.thunks.Keys - {gone}
  {
  }

  lemma RelinkedSane(run: Oracle, g: Graph, gone: Hash, outputs: seq<Output>)
    requires MayRewrite(run, g, gone, outputs)
    ensures Sane(run, Relinked(g, gone, outputs))
  {
    var g' := Relinked(g, gone, outputs);
    forall k | k in g'.thunks ensures Stored(run, k, g'.thunks[k]) { RelinkedThunk(run, g, gone, outputs, k); }
  }

  // All dependency sets moved from gone to next.
  ghost predicate DepsMoved(before: map<Hash, Thunk>, after: map<Hash, Thunk>, gone: Hash, next: Hash) {
    && after.Keys == before.Keys - {gone}
    && forall k | k in after :: Deps(after[k]) == MovedDeps(Deps(before[k]), gone, next)
  }

  lemma RelinkedDeps(run: Oracle, g: Graph, gone: Hash, outputs: seq<Output>)
    requires MayRewrite(run, g, gone, outputs)
    ensures DepsMoved(g.thunks, Relinked(g, gone, outputs).thunks, gone, outputs[0].hash)
    ensures Deps(g.thunks[gone]) == {}
  {
    var g' := Relinked(g, gone, outputs);
    RelinkedKeys(g, gone, outputs);
    forall k | k in g'.thunks ensures Deps(g'.thunks[k]) == MovedDeps(Deps(g.thunks[k]), gone, outputs[0].hash) {
      RelinkedThunk(run, g, gone, outputs, k);
    }
    assert Stored(run, gone, g.thunks[gone]);
    RunnableDeps(g.thunks[gone]);
  }

  lemma ClosedWhenMoved(before: map<Hash, Thunk>, after: map<Hash, Thunk>, gone: Hash, next: Hash, k: Hash, d: Hash)
    requires DepsMoved(before, after, gone, next) && gone != next && (next.Thk? ==> next in before)
    requires forall k, d | k in before && d in Deps(before[k]) :: d in before
    requires k in after && d in Deps(after[k])
    ensures d in after
  {
  }

  lemma ReferrersMoved(before: map<Hash, Thunk>, after: map<Hash, Thunk>, gone: Hash, next: Hash, d: Hash)
    requires DepsMoved(before, after, gone, next) && gone in before && Deps(before[gone]) == {} && gone != next
    ensures d != gone && d != next ==> Referrers(after, d) == Referrers(before, d)
    ensures next.Thk? ==> Referrers(after, next) == Referrers(before, gone) + Referrers(before, next)
  {
    hide Deps;
  }

  lemma IndexMoved(before: map<Hash, Thunk>, after: map<Hash, Thunk>, index: map<Hash, set<Hash>>, gone: Hash,
      next: Hash, d: Hash)
    requires DepsMoved(before, after, gone, next) && gone in before && Deps(before[gone]) == {} && gone != next
    requires gone in index && index[gone] == Referrers(before, gone)
    requires d in after && (d != next ==> d in index && index[d] == Referrers(before, d)) && (d == next ==> next.Thk?)
    ensures var index' := index[next := index[gone]] - {gone};
            && d in index'
            && (d != next ==> index'[d] == Referrers(after, d))
            && (d == next ==> (index'[d] == Referrers(after, d) <==>
                Referrers(before, next) <= Referrers(before, gone)))
  {
    ReferrersMoved(before, after, gone, next, d);
  }

  lemma RelinkedClosed(run: Oracle, g: Graph, gone: Hash, outputs: seq<Output>)
    requires MayRewrite(run, g, gone, outputs)
    ensures Closed(Relinked(g, gone, outputs))
  {
    var g', next := Relinked(g, gone, outputs), outputs[0].hash;
    RelinkedDeps(run, g, gone, outputs);
    forall k, d | k in g'.thunks && d in Deps(g'.thunks[k]) ensures d in g'.thunks {
      ClosedWhenMoved(g.thunks, g'.thunks, gone, next, k, d);
    }
  }

  lemma IndexKept(g: Graph, g': Graph, gone: Hash, next: Hash)
    requires Indexed(g, {next}) && gone in g.thunks && gone != next && Deps(g.thunks[gone]) == {}
    requires Referrers(g.thunks, next) == {}
    requires DepsMoved(g.thunks, g'.thunks, gone, next)
    requires g'.referencing == g.referencing[next := g.referencing[gone]] - {gone}
    requires forall k | k in g'.thunks :: k.Thk?
    ensures Indexed(g', {})
  {
    forall d | d in g'.thunks ensures d in g'.referencing && g'.referencing[d] == Referrers(g'.thunks, d) {
      IndexMoved(g.thunks, g'.thunks, g.referencing, gone, next, d);
    }
  }

  lemma RelinkedIndexed(run: Oracle, g: Graph, gone: Hash, outputs: seq<Output>)
    requires MayRelink(run, g, gone, outputs)
    ensures Indexed(Relinked(g, gone, outputs), {})
  {
    var g', next := Relinked(g, gone, outputs), outputs[0].hash;
    RelinkedDeps(run, g, gone, outputs);
    assert Referrers(g.thunks, next) == {};
    forall k | k in g'.thunks ensures k.Thk? { assert Stored(run, k, g.thunks[k]); }
    IndexKept(g, g', gone, next);
  }

  // The thunks that update_hash made runnable: those that depended on nothing but gone.
  ghost function Readied(g: Graph, gone: Hash, outputs: seq<Output>): set<Hash>
    requires gone in g.referencing && outputs != []
  {
    set k | k in g.referencing[gone] && k in Relinked(g, gone, outputs).thunks &&
        Relinked(g, gone, outputs).thunks[k].CanBeExecuted()
  }

  lemma RelinkedKeyed(run: Oracle, g: Graph, gone: Hash, outputs: seq<Output>, pending: set<Hash>)
    requires MayRewrite(run, g, gone, outputs) && Keyed(g, pending)
    ensures Keyed(Relinked(g, gone, outputs), pending + Readied(g, gone, outputs))
    ensures outputs[0].hash.Thk? ==> Readied(g, gone, outputs) == {}
    ensures forall k | k in pending && k != gone && g.thunks.Keys >= pending && g.thunks[k].CanBeExecuted() ::
              Relinked(g, gone, outputs).thunks[k] == g.thunks[k]
  {
    var g', next := Relinked(g, gone, outputs), outputs[0].hash;
    assert gone in g.thunks && gone != next;
    if next.Thk? {
      forall k | k in g.referencing[gone] && k in g'.thunks ensures !g'.thunks[k].CanBeExecuted() {
        RelinkedThunk(run, g, gone, outputs, k);
        RunnableDeps(g'.thunks[k]);
      }
    }
    forall k | k in pending && k != gone && g.thunks.Keys >= pending && g.thunks[k].CanBeExecuted()
      ensures g'.thunks[k] == g.thunks[k] {
      RelinkedThunk(run, g, gone, outputs, k);
      RunnableDeps(g.thunks[k]);
    }
  }

  // Only when the new hash is already stored and something refers to it can update_hash lose
  // entries of the index: it overwrites the referrer set. The index stays exact just when the
  // overwritten referrers also referred to gone.
  lemma MergeKeepsIndexIff(run: Oracle, g: Graph, gone: Hash, outputs: seq<Output>)
    requires MayRewrite(run, g, gone, outputs) && Indexed(g, {}) && outputs[0].hash.Thk?
    ensures Indexed(Relinked(g, gone, outputs), {}) <==> g.referencing[outputs[0].hash] <= g.referencing[gone]
  {
    var g', next := Relinked(g, gone, outputs), outputs[0].hash;
    RelinkedDeps(run, g, gone, outputs);
    assert next in g'.thunks;
    forall d | d in g'.thunks
      ensures d in g'.referencing
      ensures d != next ==> g'.referencing[d] == Referrers(g'.thunks, d)
      ensures d == next ==> (g'.referencing[d] == Referrers(g'.thunks, d) <==>
                g.referencing[next] <= g.referencing[gone]) {
      IndexMoved(g.thunks, g'.thunks, g.referencing, gone, next, d);
    }
  }

  // ---------------------------------------------------------------- hash chains

  // Chains stay compressed unless another chain already ends in the new hash.
  lemma CompressedIff(g: Graph, gone: Hash, next: Hash)
    requires Compressed(g) && next.Thk? && next != gone
    ensures var g' := g.(originals := RelinkedOriginals(g, gone, next), updated := RelinkedUpdated(g, gone, next));
            Compressed(g') <==> forall o | o in g.updated && o != OriginalHash(g, gone) :: g.updated[o] != next
  {
    var root := OriginalHash(g, gone);
    var g' := g.(originals := RelinkedOriginals(g, gone, next), updated := RelinkedUpdated(g, gone, next));
    assert g'.originals[next] == root && g'.updated[root] == next;
    forall o | o in g.updated && o != root ensures g'.updated[o] == g.updated[o] && g.updated[o] != gone {
    }
  }

  // Only chains that are at their end have got to x.
  ghost predicate Finished(run: Oracle, g: Graph, x: Hash) {
    forall o | o in g.updated && g.updated[o] == x :: DeadEnd(run, x)
  }

  // What a chain needs of a new tip.
  ghost predicate NewTip(run: Oracle, g: Graph, gone: Hash, next: Hash) {
    && (DeadEnd(run, gone) <==> next.Value?) && Finished(run, g, next)
    && (next.Thk? ==> next in g.thunks && WellFormed(gone) && WellFormed(next) && StandsIn(run, gone, next))
  }

  // The chain of a thunk that becomes another thunk has come as far as this thunk.
  lemma RootGone(run: Oracle, g: Graph, gone: Hash)
    requires Ends(run, g) && Settled(run, g) && gone in g.thunks && !DeadEnd(run, gone)
    ensures var root := OriginalHash(g, gone);
            root != gone ==> root in g.updated && g.updated[root] == gone && root !in g.thunks
  {
    hide DeadEnd;
    var root := OriginalHash(g, gone);
    if root != gone { assert IsTip(g, gone) && Alive(run, g, root); }
  }

  lemma RelinkedChains(run: Oracle, g: Graph, gone: Hash, outputs: seq<Output>)
    requires Chains(run, g) && gone in g.thunks && gone in g.referencing && outputs != []
    requires NewTip(run, g, gone, outputs[0].hash) && outputs[0].hash != gone
    ensures Chains(run, Relinked(g, gone, outputs))
  {
    hide Chains, DeadEnd, ChainSound, Rewritten, Relinked, NewTip, WellFormed, StandsIn, Ends, Leads, GoesOn, Settled;
    hide MapsMoved;
    var g', next := Relinked(g, gone, outputs), outputs[0].hash;
    RelinkedMaps(g, gone, outputs);
    ChainParts(run, g);
    RelinkedEnds(run, g, g', gone, next);
    RelinkedLeads(run, g, g', gone, next);
    RelinkedSettled(run, g, g', gone, next);
    RelinkedGoesOn(run, g, g', gone, next);
    RelinkedChainsSound(run, g, g', gone, next);
    ChainsWhole(run, g');
  }

  lemma ChainParts(run: Oracle, g: Graph)
    requires Chains(run, g)
    ensures Ends(run, g) && Leads(run, g) && Settled(run, g) && GoesOn(run, g) && ChainsSound(run, g)
  {
  }

  lemma ChainsWhole(run: Oracle, g: Graph)
    requires Ends(run, g) && Leads(run, g) && Settled(run, g) && GoesOn(run, g) && ChainsSound(run, g)
    ensures Chains(run, g)
  {
  }

  lemma NewTipParts(run: Oracle, g: Graph, gone: Hash, next: Hash)
    requires NewTip(run, g, gone, next)
    ensures (DeadEnd(run, gone) <==> next.Value?) && Finished(run, g, next)
    ensures next.Thk? ==> next in g.thunks && WellFormed(gone) && WellFormed(next) && StandsIn(run, gone, next)
  {
  }

  lemma RelinkedMaps(g: Graph, gone: Hash, outputs: seq<Output>)
    requires gone in g.referencing && outputs != []
    ensures MapsMoved(g, Relinked(g, gone, outputs), gone, outputs[0].hash)
  {
  }

  // g' has the chain maps and keys that update_hash leaves.
  ghost predicate MapsMoved(g: Graph, g': Graph, gone: Hash, next: Hash) {
    && g'.thunks.Keys == g.thunks.Keys - {gone}
    && g'.originals == RelinkedOriginals(g, gone, next) && g'.updated == RelinkedUpdated(g, gone, next)
  }

  lemma RelinkedEnds(run: Oracle, g: Graph, g': Graph, gone: Hash, next: Hash)
    requires Ends(run, g) && Settled(run, g) && gone in g.thunks && NewTip(run, g, gone, next) && next != gone
    requires MapsMoved(g, g', gone, next)
    ensures Ends(run, g')
  {
    hide DeadEnd, WellFormed, StandsIn;
    if next.Thk? { RootGone(run, g, gone); }
    forall u | u in g'.originals ensures DeadEnd(run, u) || IsTip(g', u) {
      if u != next || next.Value? {
        assert DeadEnd(run, u) || IsTip(g, u);
        assert !Alive(run, g, gone);
      }
    }
  }

  lemma RelinkedLeads(run: Oracle, g: Graph, g': Graph, gone: Hash, next: Hash)
    requires Leads(run, g) && gone in g.thunks && NewTip(run, g, gone, next) && next != gone
    requires MapsMoved(g, g', gone, next)
    ensures Leads(run, g')
  {
    hide DeadEnd, WellFormed, StandsIn;
    forall o | o in g'.updated ensures DeadEnd(run, g'.updated[o]) || IsKnown(g', o) {
      if next.Value? || o != OriginalHash(g, gone) {
        assert DeadEnd(run, g.updated[o]) || IsKnown(g, o);
      }
    }
  }

  lemma RelinkedSettled(run: Oracle, g: Graph, g': Graph, gone: Hash, next: Hash)
    requires Ends(run, g) && Settled(run, g) && gone in g.thunks && NewTip(run, g, gone, next) && next != gone
    requires MapsMoved(g, g', gone, next)
    ensures Settled(run, g')
  {
    hide DeadEnd, WellFormed, StandsIn, Ends;
    if next.Thk? { RootGone(run, g, gone); }
    forall o | o in g'.thunks ensures !Alive(run, g', o) { assert !Alive(run, g, o); }
  }

  lemma RelinkedGoesOn(run: Oracle, g: Graph, g': Graph, gone: Hash, next: Hash)
    requires Ends(run, g) && Settled(run, g) && GoesOn(run, g) && gone in g.thunks && NewTip(run, g, gone, next)
    requires MapsMoved(g, g', gone, next)
    ensures GoesOn(run, g')
  {
    hide DeadEnd, WellFormed, StandsIn, Ends, Settled;
    if next.Thk? { RootGone(run, g, gone); }
  }

  lemma RelinkedChainsSound(run: Oracle, g: Graph, g': Graph, gone: Hash, next: Hash)
    requires Ends(run, g) && Settled(run, g) && ChainsSound(run, g) && gone in g.thunks
    requires NewTip(run, g, gone, next) && next != gone && MapsMoved(g, g', gone, next)
    ensures ChainsSound(run, g')
  {
    hide DeadEnd, WellFormed, StandsIn, Ends, Settled;
    if next.Thk? {
      var root := OriginalHash(g, gone);
      RootGone(run, g, gone);
      if root != gone {
        assert ChainSound(run, root, gone);
        StandsInTrans(run, root, gone, next);
      }
    }
  }

  // ---------------------------------------------------------------- following a chain

  // A hash whose chain ends in a stored thunk that knows it.
  ghost predicate Live(g: Graph, o: Hash) {
    UpdatedHash(g, o) in g.thunks && OriginalHash(g, UpdatedHash(g, o)) == o
  }

  // Only the tip of its chain knows o.
  ghost predicate Sole(g: Graph, o: Hash) {
    forall u | (u in g.thunks || u in g.originals) && OriginalHash(g, u) == o :: u == UpdatedHash(g, o)
  }

  // The chain of o is alive for the first time.
  ghost predicate Open(g: Graph, o: Hash) { Live(g, o) && Sole(g, o) }

  // The chain of o has ended in k, and nothing that is stored goes on from o.
  ghost predicate Ended(g: Graph, k: Hash, o: Hash) {
    UpdatedHash(g, o) == k && forall u | u in g.thunks :: OriginalHash(g, u) != o
  }

  // The chain of o is alive, for the first time or once more.
  ghost predicate Going(run: Oracle, g: Graph, o: Hash) {
    var u := UpdatedHash(g, o);
    u in g.thunks && (DeadEnd(run, u) || OriginalHash(g, u) == o)
  }

  // a is g with more thunks: next, and others that were not reduced before.
  ghost predicate Extended(g: Graph, a: Graph, next: Hash) {
    && a.originals == g.originals && a.updated == g.updated
    && (forall k | k in g.thunks :: k in a.thunks && a.thunks[k] == g.thunks[k])
    && (next.Thk? ==> next !in g.thunks)
    && (forall k | k in a.thunks && k !in g.thunks :: (next.Thk? && k == next) || UpdatedHash(g, k) !in g.thunks)
  }

  lemma KnownBefore(g: Graph, a: Graph, next: Hash, o: Hash, u: Hash)
    requires Extended(g, a, next) && Open(g, o) && (u in a.thunks || u in a.originals) && OriginalHash(a, u) == o
    requires next.Thk? && u == next ==> u in a.originals
    ensures u == UpdatedHash(g, o)
  {
  }

  // An open chain keeps its tip unless the tip is what was reduced.
  lemma RelinkedElsewhere(g: Graph, a: Graph, gone: Hash, outputs: seq<Output>, o: Hash)
    requires outputs != [] && outputs[0].hash != gone && Extended(g, a, outputs[0].hash)
    requires gone in g.thunks && gone in a.referencing && Open(g, o) && UpdatedHash(g, o) != gone
    ensures var g' := Relinked(a, gone, outputs); Open(g', o) && UpdatedHash(g', o) == UpdatedHash(g, o)
  {
    hide Relinked, Open, Extended;
    RelinkedMaps(a, gone, outputs);
    OpenParts(g, o);
    ExtendedParts(g, a, outputs[0].hash);
    OpenElsewhere(g, a, Relinked(a, gone, outputs), gone, outputs[0].hash, o);
  }

  lemma OpenParts(g: Graph, o: Hash)
    requires Open(g, o)
    ensures UpdatedHash(g, o) in g.thunks && OriginalHash(g, UpdatedHash(g, o)) == o
    ensures forall u | u in g.thunks && OriginalHash(g, u) == o :: u == UpdatedHash(g, o)
  {
  }

  lemma ExtendedParts(g: Graph, a: Graph, next: Hash)
    requires Extended(g, a, next)
    ensures a.originals == g.originals && a.updated == g.updated && g.thunks.Keys <= a.thunks.Keys
    ensures next.Thk? ==> next !in g.thunks
  {
  }

  lemma OpenElsewhere(g: Graph, a: Graph, g': Graph, gone: Hash, next: Hash, o: Hash)
    requires Extended(g, a, next) && Open(g, o) && MapsMoved(a, g', gone, next) && gone in g.thunks && next != gone
    requires OriginalHash(g, gone) != o && UpdatedHash(g, o) != gone
    ensures Open(g', o) && UpdatedHash(g', o) == UpdatedHash(g, o)
  {
    hide Extended;
    ExtendedParts(g, a, next);
    OpenParts(g, o);
    hide Open;
    forall u | (u in g'.thunks || u in g'.originals) && OriginalHash(g', u) == o ensures u == UpdatedHash(g', o) {
      if next.Value? || u != next { KnownBefore(g, a, next, o, u); }
    }
    OpenWhole(g', o);
  }

  lemma OpenWhole(g: Graph, o: Hash)
    requires UpdatedHash(g, o) in g.thunks && OriginalHash(g, UpdatedHash(g, o)) == o
    requires forall u | (u in g.thunks || u in g.originals) && OriginalHash(g, u) == o :: u == UpdatedHash(g, o)
    ensures Open(g, o)
  {
  }

  // Otherwise it moves on to the new thunk, or has reached its value.
  lemma RelinkedTip(g: Graph, a: Graph, gone: Hash, outputs: seq<Output>, o: Hash)
    requires outputs != [] && outputs[0].hash != gone && Extended(g, a, outputs[0].hash)
    requires gone in g.thunks && gone in a.referencing && Open(g, o) && UpdatedHash(g, o) == gone
    requires outputs[0].hash.Thk? ==> outputs[0].hash in a.thunks
    ensures var g', next := Relinked(a, gone, outputs), outputs[0].hash;
            && (next.Thk? ==> Open(g', o) && UpdatedHash(g', o) == next)
            && (next.Value? ==> Ended(g', gone, o))
  {
    hide Relinked, Open, Extended;
    RelinkedMaps(a, gone, outputs);
    var g', next := Relinked(a, gone, outputs), outputs[0].hash;
    OpenParts(g, o);
    ExtendedParts(g, a, next);
    forall u | (u in g'.thunks || (next.Thk? && u in g'.originals)) && OriginalHash(g', u) == o
      ensures next.Thk? && u == next {
      if next.Value? || u != next { KnownBefore(g, a, next, o, u); }
    }
    if next.Thk? { OpenWhole(g', o); }
  }

  // Whatever chain was alive is alive or has just reached its value; and no chain is moved but to be alive.
  lemma RelinkedGoing(run: Oracle, g: Graph, a: Graph, gone: Hash, outputs: seq<Output>, o: Hash)
    requires outputs != [] && outputs[0].hash != gone && Extended(g, a, outputs[0].hash)
    requires gone in g.thunks && gone in a.referencing && (DeadEnd(run, gone) <==> outputs[0].hash.Value?)
    requires outputs[0].hash.Thk? ==> outputs[0].hash in a.thunks
    ensures var g' := Relinked(a, gone, outputs);
            || Going(run, g', o)
            || (UpdatedHash(g', o) == UpdatedHash(g, o) &&
                (Going(run, g, o) ==> outputs[0].hash.Value? && UpdatedHash(g, o) == gone))
  {
    hide Relinked, DeadEnd;
    RelinkedMaps(a, gone, outputs);
  }
}
