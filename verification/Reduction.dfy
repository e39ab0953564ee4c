/** What one successful force_thunk does to the graph as a whole. */
module Reduction {
  import opened Thunks
  import opened Evaluation
  import opened Costs
  import opened Replacement
  import opened Graphs
  import opened Forcing
  import opened Reachability
  import opened Loading
  import opened Demand

  // The graph after the outputs of k have been substituted.
  ghost function Substituted(run: Oracle, g: Graph, k: Hash): Graph
    requires Executes(run, k) && k in g.referencing
  {
    Relinked(g, k, ReportOf(run, k))
  }

  // The thunks that reducing k to values makes runnable, and the hash each of them will get.
  ghost function ReadyAfter(run: Oracle, g: Graph, k: Hash): set<Hash>
    requires Executes(run, k) && k in g.referencing
  {
    Readied(g, k, ReportOf(run, k))
  }

  ghost function NameAfter(run: Oracle, g: Graph, k: Hash, r: Hash): Hash
    requires Executes(run, k) && k in g.referencing && r in Substituted(run, g, k).thunks
  {
    Thk(Substituted(run, g, k).thunks[r])
  }

  // x is not known to the graph, neither by itself nor as what it has become.
  predicate Unknown(g: Graph, x: Hash) { x !in g.thunks && UpdatedHash(g, x) !in g.thunks }

  // Reducing k merges no two thunks: the thunk it returned is unknown, or the names it makes necessary are free.
  ghost predicate MergeFree(run: Oracle, g: Graph, k: Hash)
    requires Executes(run, k) && k in g.referencing
  {
    var next := run(k.thunk)[0];
    && (next.Thk? ==> Unknown(g, next) && Loadable(g, next))
    && (next.Value? ==>
          && (forall r | r in ReadyAfter(run, g, k) :: Fresh(run, g, NameAfter(run, g, k, r)))
          && (forall r, s | r in ReadyAfter(run, g, k) && s in ReadyAfter(run, g, k) && r != s ::
                NameAfter(run, g, k, r) != NameAfter(run, g, k, s)))
  }

  ghost function NamesAfter(run: Oracle, g: Graph, k: Hash, rs: set<Hash>): set<Hash>
    requires Executes(run, k) && k in g.referencing && rs <= ReadyAfter(run, g, k)
  {
    set r | r in rs :: NameAfter(run, g, k, r)
  }

  // What is stored instead of x once k is reduced (a value is not stored).
  ghost function Heir(run: Oracle, g: Graph, k: Hash, x: Hash): Hash
    requires Executes(run, k) && k in g.referencing
  {
    if x == k then run(k.thunk)[0]
    else if run(k.thunk)[0].Value? && x in ReadyAfter(run, g, k) then NameAfter(run, g, k, x)
    else x
  }

  // Every stored thunk has an heir of the same values.
  ghost predicate Inherited(run: Oracle, g: Graph, g': Graph, k: Hash)
    requires Executes(run, k) && k in g.referencing
  {
    forall x | x in g.thunks && Heir(run, g, k, x).Thk? :: Succeeds(run, g', x, Heir(run, g, k, x))
  }

  ghost predicate Succeeds(run: Oracle, g: Graph, x: Hash, y: Hash) { y in g.thunks && StandsIn(run, x, y) }

  // The hashes that enter the graph and no chain has got to.
  ghost predicate NewNames(run: Oracle, g: Graph, k: Hash)
    requires Executes(run, k) && k in g.referencing
  {
    && (run(k.thunk)[0].Thk? ==> run(k.thunk)[0] !in g.originals)
    && (run(k.thunk)[0].Value? ==> forall r | r in ReadyAfter(run, g, k) :: NameAfter(run, g, k, r) !in g.originals)
  }

  // Chains that nobody else has got to the end of stay compressed.
  ghost predicate StaysCompressed(run: Oracle, g: Graph, g': Graph, k: Hash)
    requires Executes(run, k) && k in g.referencing
  {
    Compressed(g) && NewNames(run, g, k) ==> Compressed(g')
  }

  // Thunks that were reduced, loaded again and are about to get the names they had merge with nothing, if these
  // names are not stored and no two of them are equal.
  lemma RerunIsFree(run: Oracle, g: Graph, k: Hash)
    requires Valid(run, g) && k in g.thunks && Executes(run, k) && k in g.referencing && run(k.thunk)[0].Value?
    requires forall r | r in ReadyAfter(run, g, k) ::
               r in g.updated && g.updated[r] == NameAfter(run, g, k, r) && g.updated[r] !in g.thunks
    requires forall r, s | r in ReadyAfter(run, g, k) && s in ReadyAfter(run, g, k) && r != s ::
               g.updated[r] != g.updated[s]
    ensures MergeFree(run, g, k)
  {
    hide Closed, Indexed, Sane, Keyed, Relinked, Executes, DeadEnd, ChainsSound;
    forall r | r in ReadyAfter(run, g, k) ensures Fresh(run, g, NameAfter(run, g, k, r)) {
      assert DeadEnd(run, g.updated[r]) || IsKnown(g, r);
    }
  }

  // A chain that is alive for the first time still is, unless k was its tip and became a value.
  ghost predicate OpenOn(g: Graph, g': Graph, k: Hash, value: bool) {
    forall o | Open(g, o) :: OpenAfter(g, g', k, value, o)
  }

  ghost predicate OpenAfter(g: Graph, g': Graph, k: Hash, value: bool, o: Hash) {
    if value && UpdatedHash(g, o) == k then Ended(g', k, o) else Open(g', o)
  }

  ghost predicate LessWork(run: Oracle, g: Graph, g': Graph) {
    Sane(run, g) && Convergent(run, g) ==>
      Measurable(run, g) && Convergent(run, g') && Measurable(run, g') && Measure(run, g') < Measure(run, g)
  }

  // The outcome of forcing k: a valid graph without k, with ready runnable besides what was before.
  ghost predicate Forced(run: Oracle, g: Graph, g': Graph, k: Hash, ready: set<Hash>) {
    && Executes(run, k) && k in g.referencing && Valid(run, g') && k !in g'.thunks
    && Runnable(g') == Runnable(g) - {k} + ready
    && OpenOn(g, g', k, run(k.thunk)[0].Value?) && Onward(run, g, g', k, run(k.thunk)[0].Value?) && Supplied(g, g')
    && (run(k.thunk)[0].Value? ==> OriginalHash(g', k) == OriginalHash(g, k))
    && (run(k.thunk)[0].Value? ==> ready == NamesAfter(run, g, k, ReadyAfter(run, g, k)))
    && (run(k.thunk)[0].Thk? ==> ready != {})
    && Inherited(run, g, g', k) && StaysCompressed(run, g, g', k)
    && LessWork(run, g, g')
  }

  // ---------------------------------------------------------------- k became values

  // Between renamings: pending still await their names, ready have got theirs.
  ghost predicate Renaming(run: Oracle, g: Graph, g': Graph, k: Hash, pending: set<Hash>, ready: set<Hash>) {
    && Executes(run, k) && k in g.thunks && k in g.referencing && MergeFree(run, g, k) && run(k.thunk)[0].Value?
    && Consistent(run, g', pending) && pending <= Runnable(g') && pending <= ReadyAfter(run, g, k)
    && Awaiting(run, g, g', k, pending) && NamesGiven(run, g, g', k, pending, ready)
    && Runnable(g') - pending == Runnable(g) - {k} + ready
    && k !in g'.thunks && OriginalHash(g', k) == OriginalHash(g, k)
    && g'.referencing.Keys == g'.thunks.Keys + {run(k.thunk)[0]}
    && OpenOn(g, g', k, true) && Onward(run, g, g', k, true)
    && RenamingCompressed(run, g, g', k, pending)
    && Supplied(g, g')
    && LessWork(run, g, g')
  }

  // The pending thunks are as the substitution left them, and their names are free.
  ghost predicate Awaiting(run: Oracle, g: Graph, g': Graph, k: Hash, pending: set<Hash>)
    requires Executes(run, k) && k in g.referencing && pending <= ReadyAfter(run, g, k)
  {
    forall r | r in pending ::
      && r in Substituted(run, g, k).thunks && r in g'.thunks && g'.thunks[r] == Substituted(run, g, k).thunks[r]
      && Fresh(run, g', NameAfter(run, g, k, r))
  }

  // The keys so far: those that no longer wait have their names, which stand in for them.
  ghost predicate NamesGiven(run: Oracle, g: Graph, g': Graph, k: Hash, pending: set<Hash>, ready: set<Hash>)
    requires Executes(run, k) && k in g.referencing && pending <= ReadyAfter(run, g, k)
  {
    var done := ReadyAfter(run, g, k) - pending;
    && ready == NamesAfter(run, g, k, done) && g'.thunks.Keys == g.thunks.Keys - {k} - done + ready
    && forall r | r in ReadyAfter(run, g, k) :: StandsIn(run, r, NameAfter(run, g, k, r))
  }

  ghost predicate RenamingCompressed(run: Oracle, g: Graph, g': Graph, k: Hash, pending: set<Hash>)
    requires Executes(run, k) && k in g.referencing && pending <= ReadyAfter(run, g, k)
  {
    Compressed(g) && NewNames(run, g, k) ==>
      Compressed(g') && forall r | r in pending :: NameAfter(run, g, k, r) !in g'.originals
  }

  lemma RelinkedShape(g: Graph, gone: Hash, outputs: seq<Output>)
    requires gone in g.referencing && outputs != []
    ensures var g' := Relinked(g, gone, outputs); var next := outputs[0].hash;
            && g'.thunks.Keys == g.thunks.Keys - {gone}
            && g'.referencing.Keys == g.referencing.Keys + {next} - {gone}
            && g'.originals == RelinkedOriginals(g, gone, next) && g'.updated == RelinkedUpdated(g, gone, next)
  {
  }

  // The chain maps and keys after a renaming, spelled out.
  lemma RenamedChain(run: Oracle, g: Graph, pending: set<Hash>, r: Hash)
    requires MayRename(run, g, pending, r)
    ensures r in g.thunks && r in g.referencing && g.thunks[r].outputs != []
    ensures var g' := RenamedGraph(g, r); var r' := Thk(g.thunks[r]);
            && g'.thunks.Keys == g.thunks.Keys - {r} + {r'}
            && g'.referencing.Keys == g.referencing.Keys - {r} + {r'}
            && g'.originals == RelinkedOriginals(g, r, r') && g'.updated == RelinkedUpdated(g, r, r')
    ensures r != Thk(g.thunks[r]) && Fresh(run, g, Thk(g.thunks[r])) && Chains(run, g)
  {
    hide Consistent, Fresh, Relinked, Runnable, Chains;
    RenameFresh(run, g, pending, r);
    RenameShape(run, g, pending, r);
    RelinkedShape(Doubled(g, r), r, RenameOutputs(g, r));
  }

  lemma RenameRoot(run: Oracle, g: Graph, pending: set<Hash>, r: Hash)
    requires MayRename(run, g, pending, r)
    ensures r in g.thunks && !DeadEnd(run, r)
    ensures var root := OriginalHash(g, r);
            root != r ==> root in g.updated && g.updated[root] == r && root !in g.thunks
  {
    hide MayRename, Chains, Ends, Settled, DeadEnd;
    RenameFresh(run, g, pending, r);
    StillWaits(run, g, pending, r);
    ChainParts(run, g);
    RootGone(run, g, r);
  }

  // A chain that has ended is not touched by a renaming.
  lemma EndedKept(run: Oracle, g: Graph, pending: set<Hash>, r: Hash, k: Hash, o: Hash)
    requires MayRename(run, g, pending, r) && Ended(g, k, o)
    ensures r in g.referencing && g.thunks[r].outputs != [] && Ended(RenamedGraph(g, r), k, o)
  {
    hide MayRename, RenamedGraph, Fresh, Chains;
    RenamedChain(run, g, pending, r);
  }

  // A name stays fresh while other thunks are renamed.
  lemma FreshKept(run: Oracle, g: Graph, pending: set<Hash>, r: Hash, x: Hash)
    requires MayRename(run, g, pending, r) && Fresh(run, g, x) && x != Thk(g.thunks[r])
    ensures r in g.referencing && g.thunks[r].outputs != [] && Fresh(run, RenamedGraph(g, r), x)
  {
    hide MayRename, RenamedGraph, Chains, Leads, DeadEnd;
    RenamedChain(run, g, pending, r);
    RenameRoot(run, g, pending, r);
    ChainParts(run, g);
    LedToName(run, g, Thk(g.thunks[r]));
  }

  // Whatever has become something that is not stored is at its end.
  lemma LedToName(run: Oracle, g: Graph, x: Hash)
    requires Leads(run, g) && x !in g.thunks
    ensures Finished(run, g, x)
  {
    hide DeadEnd;
    forall o | o in g.updated && g.updated[o] == x ensures DeadEnd(run, x) {
      assert DeadEnd(run, g.updated[o]) || IsKnown(g, o);
    }
  }

  lemma AwaitingKept(run: Oracle, g: Graph, g': Graph, k: Hash, pending: set<Hash>, r: Hash)
    requires Executes(run, k) && k in g.referencing && MergeFree(run, g, k) && run(k.thunk)[0].Value?
    requires pending <= ReadyAfter(run, g, k) && Awaiting(run, g, g', k, pending) && MayRename(run, g', pending, r)
    ensures r in g'.thunks && r in g'.referencing && g'.thunks[r].outputs != []
    ensures Awaiting(run, g, RenamedGraph(g', r), k, pending - {r})
  {
    hide MayRename, Consistent, RenamedGraph, Fresh, Substituted, ReadyAfter, Executes;
    RenameShape(run, g', pending, r);
    MayRenameParts(run, g', pending, r);
    var after := RenamedGraph(g', r);
    forall x | x in pending - {r}
      ensures x in after.thunks && after.thunks[x] == Substituted(run, g, k).thunks[x]
      ensures Fresh(run, after, NameAfter(run, g, k, x)) {
      RenameKeepsOthers(run, g', pending, r, x);
      FreshKept(run, g', pending, r, NameAfter(run, g, k, x));
    }
  }

  lemma MayRenameParts(run: Oracle, g: Graph, pending: set<Hash>, r: Hash)
    requires MayRename(run, g, pending, r)
    ensures r in pending && pending <= Runnable(g) && Consistent(run, g, pending)
  {
  }

  lemma RenamingMayRename(run: Oracle, g: Graph, g': Graph, k: Hash, pending: set<Hash>, ready: set<Hash>, r: Hash)
    requires Renaming(run, g, g', k, pending, ready) && r in pending
    ensures MayRename(run, g', pending, r) && r in g'.thunks && Thk(g'.thunks[r]) == NameAfter(run, g, k, r)
    ensures Thk(g'.thunks[r]) !in g'.thunks && Thk(g'.thunks[r]) != k && r != k
  {
    hide Consistent, Substituted, ReadyAfter, Executes, LessWork, Runnable, Onward, Supplied, Alive;
    hide NamesGiven, RenamingCompressed, OpenOn;
  }

  lemma RenamingOpenKept(run: Oracle, g: Graph, g': Graph, k: Hash, pending: set<Hash>, r: Hash)
    requires MayRename(run, g', pending, r) && OpenOn(g, g', k, true)
    ensures r in g'.referencing && g'.thunks[r].outputs != [] && OpenOn(g, RenamedGraph(g', r), k, true)
  {
    hide MayRename, RenamedGraph, Consistent, Open, Ended;
    RenameShape(run, g', pending, r);
    forall o | Open(g, o) ensures OpenAfter(g, RenamedGraph(g', r), k, true, o) {
      if UpdatedHash(g, o) == k { EndedKept(run, g', pending, r, k, o); } else { RenameOpen(run, g', pending, r, o); }
    }
  }

  lemma GivenKept(run: Oracle, g: Graph, g': Graph, k: Hash, pending: set<Hash>, ready: set<Hash>, r: Hash)
    requires Executes(run, k) && k in g.referencing && pending <= ReadyAfter(run, g, k) && r in pending
    requires MayRename(run, g', pending, r) && NamesGiven(run, g, g', k, pending, ready)
    requires Thk(g'.thunks[r]) == NameAfter(run, g, k, r)
    ensures r in g'.thunks && r in g'.referencing && g'.thunks[r].outputs != []
    ensures NamesGiven(run, g, RenamedGraph(g', r), k, pending - {r}, ready + {Thk(g'.thunks[r])})
  {
    hide MayRename, RenamedGraph, Consistent, Fresh, Executes, Chains, StandsIn, ReadyAfter, NameAfter;
    RenamedChain(run, g', pending, r);
    assert r in g'.thunks && Thk(g'.thunks[r]) !in g'.thunks by {
      RenameFresh(run, g', pending, r);
      FreshIsNew(run, g', r);
    }
    var done, name := ReadyAfter(run, g, k) - pending, Thk(g'.thunks[r]);
    assert ReadyAfter(run, g, k) - (pending - {r}) == done + {r};
    assert NamesAfter(run, g, k, done + {r}) == ready + {name};
    StillWaits(run, g', pending, r);
    forall x | x in ready ensures x != r { NameRuns(run, g, k, done, x); }
    assert g'.thunks.Keys - {r} + {name} == g.thunks.Keys - {k} - (done + {r}) + (ready + {name});
  }

  lemma NameRuns(run: Oracle, g: Graph, k: Hash, rs: set<Hash>, x: Hash)
    requires Executes(run, k) && k in g.referencing && rs <= ReadyAfter(run, g, k) && x in NamesAfter(run, g, k, rs)
    ensures x.Thk? && x.thunk.CanBeExecuted()
  {
    hide Executes, Relinked;
  }

  lemma FreshIsNew(run: Oracle, g: Graph, r: Hash)
    requires r in g.thunks && Fresh(run, g, Thk(g.thunks[r]))
    ensures Thk(g.thunks[r]) !in g.thunks
  {
  }

  lemma RenamingCompressedKept(run: Oracle, g: Graph, g': Graph, k: Hash, pending: set<Hash>, r: Hash)
    requires Executes(run, k) && k in g.referencing && pending <= ReadyAfter(run, g, k) && r in pending
    requires MayRename(run, g', pending, r) && RenamingCompressed(run, g, g', k, pending)
    requires Thk(g'.thunks[r]) == NameAfter(run, g, k, r) && MergeFree(run, g, k) && run(k.thunk)[0].Value?
    ensures r in g'.thunks && r in g'.referencing && g'.thunks[r].outputs != []
    ensures RenamingCompressed(run, g, RenamedGraph(g', r), k, pending - {r})
  {
    hide MayRename, RenamedGraph, Consistent, Fresh, Chains, ReadyAfter, NameAfter, TidyThunk, Orderly;
    RenamedChain(run, g', pending, r);
    if Compressed(g) && NewNames(run, g, k) { CompressedIff(g', r, Thk(g'.thunks[r])); }
  }

  // Renaming lengthens chains by stored thunks and stores nothing superfluous.
  lemma RenameRelinked(run: Oracle, g: Graph, pending: set<Hash>, r: Hash)
    requires MayRename(run, g, pending, r)
    ensures r in g.thunks && r in g.referencing && g.thunks[r].outputs != []
    ensures Relinks(run, Doubled(g, r), r, RenameOutputs(g, r)) && Enlarged(g, Doubled(g, r), Thk(g.thunks[r]))
    ensures Sane(run, g) && RenameOutputs(g, r) != [] && RenameOutputs(g, r)[0].hash == Thk(g.thunks[r])
    ensures RenamedGraph(g, r) == Relinked(Doubled(g, r), r, RenameOutputs(g, r))
  {
    hide MayRename, MayRelink, NewTip, Chains, Consistent, Sane, Reach, Relinked, Extended, Fresh, RenamedGraph;
    RenameShape(run, g, pending, r);
    RenameRelinks(run, g, pending, r);
    RenameFresh(run, g, pending, r);
    DoubledExtends(run, g, r);
    DoubledChains(run, g, r);
    MayRenameParts(run, g, pending, r);
    ValidSane(run, g, pending);
    ReachSelf(Doubled(g, r).thunks, Thk(g.thunks[r]));
  }

  lemma RenameForward(run: Oracle, g: Graph, g': Graph, k: Hash, pending: set<Hash>, r: Hash)
    requires MayRename(run, g', pending, r) && Onward(run, g, g', k, true) && Supplied(g, g')
    ensures r in g'.referencing && g'.thunks[r].outputs != []
    ensures Onward(run, g, RenamedGraph(g', r), k, true) && Supplied(g, RenamedGraph(g', r))
  {
    hide MayRename, RenamedGraph, Relinked, Relinks, Sane, Enlarged, AllNeeded, Going;
    RenameRelinked(run, g', pending, r);
    RelinkedSupplied(run, g', Doubled(g', r), r, RenameOutputs(g', r));
    forall o ensures GoesOnward(run, g, RenamedGraph(g', r), k, true, o) {
      assert GoesOnward(run, g, g', k, true, o);
      RenameGoing(run, g', pending, r, o);
    }
  }

  lemma LessWorkKept(run: Oracle, g: Graph, g': Graph, pending: set<Hash>, r: Hash)
    requires MayRename(run, g', pending, r) && LessWork(run, g, g')
    ensures r in g'.referencing && g'.thunks[r].outputs != [] && LessWork(run, g, RenamedGraph(g', r))
  {
    hide MayRename, RenamedGraph, Measure, Measurable, Convergent, Consistent, Sane;
    RenameShape(run, g', pending, r);
    MayRenameParts(run, g', pending, r);
    if Sane(run, g) && Convergent(run, g) {
      RenameMeasure(run, g', pending, r);
      RenameConvergent(run, g', pending, r);
    }
  }

  lemma RenamingStep(run: Oracle, g: Graph, g': Graph, k: Hash, pending: set<Hash>, ready: set<Hash>, r: Hash)
    requires Renaming(run, g, g', k, pending, ready) && r in pending
    ensures r in g'.thunks && r in g'.referencing && g'.thunks[r].outputs != []
    ensures Renaming(run, g, RenamedGraph(g', r), k, pending - {r}, ready + {Thk(g'.thunks[r])})
  {
    hide MayRename, RenamedGraph, Consistent, Fresh, LessWork, Awaiting, ReadyAfter, Executes, Chains;
    hide Runnable, MergeFree, Onward, Supplied, NamesGiven, RenamingCompressed, OpenOn, OriginalHash;
    RenamingMayRename(run, g, g', k, pending, ready, r);
    OriginalKept(run, g', pending, r, k);
    RenameShape(run, g', pending, r);
    RenameConsistent(run, g', pending, r);
    RenameRunnable(run, g', pending, r);
    AwaitingKept(run, g, g', k, pending, r);
    RenamedChain(run, g', pending, r);
    RenamingOpenKept(run, g, g', k, pending, r);
    GivenKept(run, g, g', k, pending, ready, r);
    RenamingCompressedKept(run, g, g', k, pending, r);
    RenameForward(run, g, g', k, pending, r);
    LessWorkKept(run, g, g', pending, r);
    RunnableStep(run, g', RenamedGraph(g', r), pending, r, Thk(g'.thunks[r]), Runnable(g) - {k} + ready);
  }

  lemma OriginalKept(run: Oracle, g: Graph, pending: set<Hash>, r: Hash, k: Hash)
    requires MayRename(run, g, pending, r)
    ensures r in g.referencing && g.thunks[r].outputs != []
    ensures k != r && k != Thk(g.thunks[r]) ==> OriginalHash(RenamedGraph(g, r), k) == OriginalHash(g, k)
  {
    hide MayRename, RenamedGraph, Fresh, Chains;
    RenamedChain(run, g, pending, r);
  }

  lemma RunnableStep(run: Oracle, g: Graph, g': Graph, pending: set<Hash>, r: Hash, r': Hash, others: set<Hash>)
    requires Runnable(g') == Runnable(g) - {r} + {r'} && Runnable(g) - pending == others
    requires r in pending && pending <= Runnable(g) && r' !in g.thunks
    ensures Runnable(g') - (pending - {r}) == others + {r'}
  {
  }

  // ---------------------------------------------------------------- the first substitution

  lemma ReportFirst(run: Oracle, k: Hash)
    requires Executes(run, k)
    ensures ReportOf(run, k) != [] && ReportOf(run, k)[0].hash == run(k.thunk)[0]
  {
  }

  // Nothing in the graph waits for a name before k is forced.
  lemma SubstitutedConsistent(run: Oracle, g: Graph, k: Hash)
    requires Valid(run, g) && k in Runnable(g) && Executes(run, k) && NextReady(run, g, k, run(k.thunk)[0])
    requires WellBehaved(run)
    ensures k in g.thunks && k in g.referencing
    ensures Consistent(run, Substituted(run, g, k), ReadyAfter(run, g, k))
    ensures MayRelink(run, g, k, ReportOf(run, k)) && NewTip(run, g, k, run(k.thunk)[0])
    ensures ReadyAfter(run, g, k) <= Runnable(Substituted(run, g, k))
    ensures Runnable(Substituted(run, g, k)) == Runnable(g) - {k} + ReadyAfter(run, g, k)
  {
    hide Consistent, Relinked, MayRelink, MayRewrite, NewTip, WellBehaved, NextReady, ReportOf, Executes, Advancing;
    ReportFirst(run, k);
    ReportRelinks(run, g, k);
    MayRewriteNow(run, g, k, ReportOf(run, k));
    RelinkedRunnable(run, g, k, ReportOf(run, k));
    AdvancingStart(run, g, k);
    RelinkConsistent(run, g, k, ReportOf(run, k), {}, ReadyAfter(run, g, k));
  }

  lemma AdvancingStart(run: Oracle, g: Graph, k: Hash)
    requires Valid(run, g) && Executes(run, k) && NewTip(run, g, k, run(k.thunk)[0])
    ensures Advancing(run, g, k, ReportOf(run, k), {})
  {
    ReportFirst(run, k);
  }

  lemma ReadyNotRunnable(run: Oracle, g: Graph, k: Hash)
    requires Valid(run, g) && Executes(run, k) && k in g.thunks && k in g.referencing
    ensures ReadyAfter(run, g, k) !! Runnable(g)
  {
    forall r | r in ReadyAfter(run, g, k) ensures r !in Runnable(g) {
      assert r in Referrers(g.thunks, k);
      assert Stored(run, r, g.thunks[r]);
      RunnableDeps(g.thunks[r]);
    }
  }

  // k cost one unit, and the thunk it returned, if any, costs the rest.
  lemma ForcedCost(run: Oracle, g: Graph, k: Hash)
    requires Valid(run, g) && k in Runnable(g) && Executes(run, k) && Convergent(run, g)
    ensures k in g.thunks && Converges(run, Thk(g.thunks[k]))
    ensures var next := run(k.thunk)[0];
            Own(run, g.thunks[k]) >= 1 && (next.Thk? ==>
                Converges(run, next) && Own(run, g.thunks[k]) == 1 + Cost(run, next))
  {
    assert Stored(run, k, g.thunks[k]);
    assert k == Thk(g.thunks[k]);
    OwnOfExecuted(run, k.thunk);
  }

  lemma SubstitutedLessWork(run: Oracle, g: Graph, k: Hash)
    requires Valid(run, g) && k in Runnable(g) && Executes(run, k) && k in g.referencing
    requires MayRelink(run, g, k, ReportOf(run, k))
    ensures LessWork(run, g, Substituted(run, g, k))
  {
    hide Measure, MayRelink, MayRewrite, Relinked, ReportOf, Own, Consistent;
    if Sane(run, g) && Convergent(run, g) {
      ForcedCost(run, g, k);
      ConvergentMeasurable(run, g);
      MayRewriteNow(run, g, k, ReportOf(run, k));
      RelinkedMeasure(run, g, k, ReportOf(run, k));
      RelinkedConvergent(run, g, k, ReportOf(run, k));
    }
  }

  lemma MayRewriteNow(run: Oracle, g: Graph, k: Hash, outputs: seq<Output>)
    requires MayRelink(run, g, k, outputs)
    ensures MayRewrite(run, g, k, outputs) && outputs != [] && k in g.referencing
  {
  }

  lemma SubstitutedOpen(run: Oracle, g: Graph, a: Graph, k: Hash)
    requires k in g.thunks && Executes(run, k) && k in a.referencing && Extended(g, a, run(k.thunk)[0])
    requires run(k.thunk)[0] != k && (run(k.thunk)[0].Thk? ==> run(k.thunk)[0] in a.thunks)
    ensures OpenOn(g, Substituted(run, a, k), k, run(k.thunk)[0].Value?)
  {
    hide ReportOf, Relinked, Open, Ended, Extended;
    ReportFirst(run, k);
    forall o | Open(g, o) ensures OpenAfter(g, Substituted(run, a, k), k, run(k.thunk)[0].Value?, o) {
      if UpdatedHash(g, o) == k {
        RelinkedTip(g, a, k, ReportOf(run, k), o);
      } else {
        RelinkedElsewhere(g, a, k, ReportOf(run, k), o);
      }
    }
  }

  lemma ExtendedSelf(g: Graph, v: Hash)
    requires v.Value?
    ensures Extended(g, g, v) && Enlarged(g, g, v)
  {
  }

  lemma ReportRelinked(run: Oracle, g: Graph, k: Hash)
    requires Valid(run, g) && Executes(run, k) && k in g.thunks
    requires MayRelink(run, g, k, ReportOf(run, k)) && NewTip(run, g, k, run(k.thunk)[0])
    ensures Relinks(run, g, k, ReportOf(run, k)) && ReportOf(run, k)[0].hash == run(k.thunk)[0] && k in g.referencing
  {
    hide MayRelink, NewTip, ReportOf, Closed, Indexed, Sane, Keyed;
    ReportFirst(run, k);
  }

  lemma SubstitutedForward(run: Oracle, g: Graph, a: Graph, k: Hash)
    requires Valid(run, g) && Valid(run, a) && Executes(run, k) && k in g.thunks && k in a.thunks
    requires MayRelink(run, a, k, ReportOf(run, k)) && NewTip(run, a, k, run(k.thunk)[0])
    requires Enlarged(g, a, run(k.thunk)[0])
    ensures k in a.referencing && Onward(run, g, Substituted(run, a, k), k, run(k.thunk)[0].Value?)
    ensures Supplied(g, Substituted(run, a, k))
  {
    hide MayRelink, NewTip, ReportOf, Relinks, Relinked, Consistent, Executes, Onward, Supplied, Extended;
    ReportRelinked(run, a, k);
    RelinkedOnward(run, g, a, k, ReportOf(run, k));
    RelinkedSupplied(run, g, a, k, ReportOf(run, k));
  }

  lemma RenamingStart(run: Oracle, g: Graph, k: Hash)
    requires Valid(run, g) && k in Runnable(g) && WellBehaved(run) && k in g.referencing
    requires Executes(run, k) && run(k.thunk)[0].Value? && MergeFree(run, g, k)
    ensures Renaming(run, g, Substituted(run, g, k), k, ReadyAfter(run, g, k), {})
  {
    hide Valid, Consistent, MayRelink, NewTip, LessWork, ReadyAfter, Runnable, Onward, Supplied, NextReady;
    hide Substituted, NamesGiven, RenamingCompressed, OpenOn, Awaiting, Extended, Enlarged;
    NextIsValue(run, g, k);
    ExtendedSelf(g, run(k.thunk)[0]);
    SubstitutedConsistent(run, g, k);
    SubstitutedForward(run, g, g, k);
    SubstitutedLessWork(run, g, k);
    SubstitutedOpen(run, g, g, k);
    ReadyNotRunnable(run, g, k);
    AwaitingStart(run, g, k);
    SubstitutedKeys(run, g, k);
    NothingGiven(run, g, k);
    CompressedStart(run, g, k);
  }

  lemma NextIsValue(run: Oracle, g: Graph, k: Hash)
    requires Valid(run, g) && Executes(run, k) && run(k.thunk)[0].Value?
    ensures NextReady(run, g, k, run(k.thunk)[0])
  {
    hide Closed, Indexed, Sane, Keyed, ChainsSound;
    StoredThunks(run, g);
    LedToName(run, g, run(k.thunk)[0]);
  }

  lemma NothingGiven(run: Oracle, g: Graph, k: Hash)
    requires Valid(run, g) && Executes(run, k) && k in g.thunks && k in g.referencing
    requires MayRelink(run, g, k, ReportOf(run, k))
    ensures NamesGiven(run, g, Substituted(run, g, k), k, ReadyAfter(run, g, k), {})
  {
    hide ReportOf, Consistent, StandsIn, Relinked, MayRelink, MayRewrite, Executes, ReadyAfter, Sane;
    MayRewriteNow(run, g, k, ReportOf(run, k));
    RelinkedSane(run, g, k, ReportOf(run, k));
    SubstitutedKeys(run, g, k);
    assert ReadyAfter(run, g, k) - ReadyAfter(run, g, k) == {};
    NamesStandIn(run, g, k);
  }

  lemma NamesStandIn(run: Oracle, g: Graph, k: Hash)
    requires Executes(run, k) && k in g.referencing && Sane(run, Substituted(run, g, k))
    ensures forall r | r in ReadyAfter(run, g, k) :: StandsIn(run, r, NameAfter(run, g, k, r))
  {
    hide Executes, StandsIn, WellFormed, TidyThunk, Relinked;
    forall r | r in ReadyAfter(run, g, k) ensures StandsIn(run, r, NameAfter(run, g, k, r)) {
      assert Stored(run, r, Substituted(run, g, k).thunks[r]);
    }
  }

  lemma CompressedStart(run: Oracle, g: Graph, k: Hash)
    requires Executes(run, k) && k in g.referencing && run(k.thunk)[0].Value?
    ensures RenamingCompressed(run, g, Substituted(run, g, k), k, ReadyAfter(run, g, k))
  {
    hide ReportOf, ReadyAfter, NameAfter;
    ReportFirst(run, k);
    RelinkedShape(g, k, ReportOf(run, k));
  }

  lemma SubstitutedKeys(run: Oracle, g: Graph, k: Hash)
    requires Valid(run, g) && k in g.thunks && Executes(run, k) && k in g.referencing
    ensures var g' := Substituted(run, g, k);
            && g'.thunks.Keys == g.thunks.Keys - {k}
            && g'.referencing.Keys == g'.thunks.Keys + {run(k.thunk)[0]} - {k}
            && k !in g'.thunks && (run(k.thunk)[0].Value? ==> OriginalHash(g', k) == OriginalHash(g, k))
  {
    hide ReportOf, Consistent;
    ReportFirst(run, k);
    RelinkedShape(g, k, ReportOf(run, k));
  }

  lemma AwaitingStart(run: Oracle, g: Graph, k: Hash)
    requires Valid(run, g) && k in g.thunks && Executes(run, k) && k in g.referencing
    requires run(k.thunk)[0].Value? && MergeFree(run, g, k)
    ensures Awaiting(run, g, Substituted(run, g, k), k, ReadyAfter(run, g, k))
  {
    hide ReportOf, Consistent, Rewritten;
    ReportFirst(run, k);
    var g' := Substituted(run, g, k);
    RelinkedShape(g, k, ReportOf(run, k));
    forall r | r in ReadyAfter(run, g, k) ensures r in g'.thunks && Fresh(run, g', NameAfter(run, g, k, r)) {
      assert Fresh(run, g, NameAfter(run, g, k, r));
    }
  }

  // The referrer list of the value itself is dropped at the end.
  ghost function Dropped(g: Graph, v: Hash): Graph { g.(referencing := g.referencing - {v}) }

  lemma RenamingEnd(run: Oracle, g: Graph, g': Graph, k: Hash, ready: set<Hash>)
    requires Renaming(run, g, g', k, {}, ready)
    ensures Forced(run, g, Dropped(g', run(k.thunk)[0]), k, ready)
  {
    hide Substituted, MergeFree, Awaiting, Fresh, Measure, Measurable, Convergent, Consistent, Onward;
    hide Supplied, NamesGiven, OpenOn, RenamingCompressed, Inherited, StaysCompressed, NameAfter;
    hide Runnable, LessWork, NamesAfter, Heir, ReadyAfter, Valid;
    ValidSane(run, g', {});
    InheritedNames(run, g, g', k, ready);
    DroppedOpen(g, g', k, run(k.thunk)[0]);
    CompressedEnd(run, g, g', k);
    var v, after := run(k.thunk)[0], Dropped(g', run(k.thunk)[0]);
    DroppedValid(run, g', v);
    DroppedRunnable(g', v);
    DroppedWork(run, g, g', v);
    DroppedForward(run, g, g', k, v);
  }

  lemma DroppedRunnable(g: Graph, v: Hash)
    ensures Runnable(Dropped(g, v)) == Runnable(g) && Dropped(g, v).thunks == g.thunks
  {
  }

  lemma ValidSane(run: Oracle, g: Graph, pending: set<Hash>)
    requires Consistent(run, g, pending)
    ensures Sane(run, g)
  {
  }

  lemma ExecutesFirst(run: Oracle, k: Hash)
    requires Executes(run, k)
    ensures k.Thk? && run(k.thunk) != []
  {
  }

  // Whatever was stored has its heir.
  lemma InheritedNames(run: Oracle, g: Graph, g': Graph, k: Hash, ready: set<Hash>)
    requires Executes(run, k) && k in g.referencing && run(k.thunk)[0].Value? && Sane(run, g')
    requires NamesGiven(run, g, g', k, {}, ready)
    ensures Inherited(run, g, Dropped(g', run(k.thunk)[0]), k)
    ensures ready == NamesAfter(run, g, k, ReadyAfter(run, g, k))
  {
    hide ReadyAfter, NameAfter, StandsIn, Executes;
    assert ReadyAfter(run, g, k) - {} == ReadyAfter(run, g, k);
    ExecutesFirst(run, k);
    var after := Dropped(g', run(k.thunk)[0]);
    forall x | x in g.thunks && x != k ensures Succeeds(run, after, x, Heir(run, g, k, x)) {
      if x !in ReadyAfter(run, g, k) {
        assert Stored(run, x, g'.thunks[x]);
        StandsInSelf(run, x);
      }
    }
  }

  lemma DroppedOpen(g: Graph, g': Graph, k: Hash, v: Hash)
    requires OpenOn(g, g', k, true)
    ensures OpenOn(g, Dropped(g', v), k, true)
  {
    var after := Dropped(g', v);
    forall o | Open(g, o) ensures OpenAfter(g, after, k, true, o) { SameChains(g', after, k, o); }
  }

  lemma SameChains(g: Graph, g': Graph, k: Hash, o: Hash)
    requires g'.thunks == g.thunks && g'.originals == g.originals && g'.updated == g.updated
    ensures (Open(g, o) ==> Open(g', o)) && (Ended(g, k, o) ==> Ended(g', k, o)) &&
              UpdatedHash(g', o) == UpdatedHash(g, o)
  {
    assert forall u :: OriginalHash(g', u) == OriginalHash(g, u);
  }

  lemma CompressedEnd(run: Oracle, g: Graph, g': Graph, k: Hash)
    requires Executes(run, k) && k in g.referencing
    requires RenamingCompressed(run, g, g', k, {})
    ensures StaysCompressed(run, g, Dropped(g', run(k.thunk)[0]), k)
  {
    hide ReadyAfter, NewNames;
  }

  lemma DroppedNeeded(g: Graph, v: Hash, wanted: set<Hash>, k: Hash)
    requires Needed(g, wanted, k)
    ensures Needed(Dropped(g, v), wanted, k)
  {
    hide Reach;
    var o :| o in wanted && Open(g, o) && Reach(g.thunks, UpdatedHash(g, o), k);
    SameChains(g, Dropped(g, v), k, o);
    NeededBy(Dropped(g, v), wanted, k, o);
  }

  lemma DroppedForward(run: Oracle, g: Graph, g': Graph, k: Hash, v: Hash)
    requires Onward(run, g, g', k, true) && Supplied(g, g')
    ensures Onward(run, g, Dropped(g', v), k, true) && Supplied(g, Dropped(g', v))
  {
    hide Needed, DeadEnd;
    var after := Dropped(g', v);
    forall o ensures GoesOnward(run, g, after, k, true, o) { assert GoesOnward(run, g, g', k, true, o); }
    forall wanted | AllNeeded(g, wanted) ensures AllNeeded(after, wanted) {
      forall k | k in after.thunks ensures Needed(after, wanted, k) { DroppedNeeded(g', v, wanted, k); }
    }
  }

  lemma DroppedValid(run: Oracle, g: Graph, v: Hash)
    requires Consistent(run, g, {}) && g.referencing.Keys == g.thunks.Keys + {v} && v.Value?
    ensures Valid(run, Dropped(g, v))
  {
    hide Stored, Deps, StandsIn, WellFormed, Referrers, DeadEnd;
    StoredThunks(run, g);
    DroppedChains(run, g, v);
  }

  lemma DroppedChains(run: Oracle, g: Graph, v: Hash)
    requires Chains(run, g)
    ensures Chains(run, Dropped(g, v))
  {
    hide DeadEnd, ChainSound;
    var g' := Dropped(g, v);
    forall u | u in g'.originals ensures DeadEnd(run, u) || IsTip(g', u) { assert DeadEnd(run, u) || IsTip(g, u); }
    forall o | o in g'.updated ensures DeadEnd(run, g'.updated[o]) || IsKnown(g', o) {
      assert DeadEnd(run, g.updated[o]) || IsKnown(g, o);
    }
    forall o | o in g'.thunks ensures !Alive(run, g', o) { assert !Alive(run, g, o); }
  }

  lemma StoredThunks(run: Oracle, g: Graph)
    requires Sane(run, g)
    ensures forall k | k in g.thunks :: k.Thk?
  {
    forall k | k in g.thunks ensures k.Thk? { assert Stored(run, k, g.thunks[k]); }
  }

  lemma DroppedWork(run: Oracle, g: Graph, g': Graph, v: Hash)
    requires LessWork(run, g, g')
    ensures LessWork(run, g, Dropped(g', v))
  {
  }

  // ---------------------------------------------------------------- k became another thunk

  lemma NextAdded(run: Oracle, g: Graph, a: Graph, k: Hash, u: Hash)
    requires Valid(run, g) && k in Runnable(g) && Executes(run, k) && k in g.referencing
    requires run(k.thunk)[0].Thk? && MergeFree(run, g, k) && Added(run, g, a, run(k.thunk)[0], u)
    ensures u == run(k.thunk)[0] && u in a.thunks && u !in g.thunks && u != k
    ensures Valid(run, a) && k in Runnable(a) && k in a.referencing && NextReady(run, a, k, u)
  {
    hide Sane, Closed, Keyed, Chains, Reach, LoadCost, Leads;
    var next := run(k.thunk)[0];
    assert Target(g, next) == next;
    HashInClosure(next);
    ConsistentParts(run, g, {});
    ChainParts(run, g);
    LedToName(run, g, next);
  }

  lemma LoadedStaysReachable(run: Oracle, g: Graph, k: Hash, next: Hash, x: Hash)
    requires Executes(run, k) && MayRelink(run, g, k, ReportOf(run, k)) && next == run(k.thunk)[0]
    requires k in g.referencing && x != k && Reach(g.thunks, next, x)
    ensures Reach(Substituted(run, g, k).thunks, next, x)
  {
    hide MayRelink, MayRewrite, ReportOf, Relinked, Deps;
    MayRewriteNow(run, g, k, ReportOf(run, k));
    RelinkedDeps(run, g, k, ReportOf(run, k));
    ReportFirst(run, k);
    var n: nat :| ReachIn(g.thunks, next, x, n);
    ReachMoved(g.thunks, Substituted(run, g, k).thunks, k, next, next, x, n);
  }

  // The state between loading the returned thunk and looking for what can run.
  lemma NextSubstituted(run: Oracle, g: Graph, a: Graph, k: Hash)
    requires Valid(run, g) && k in Runnable(g) && Executes(run, k) && k in g.referencing
    requires WellBehaved(run)
    requires run(k.thunk)[0].Thk? && MergeFree(run, g, k) && Added(run, g, a, run(k.thunk)[0], run(k.thunk)[0])
    ensures k in a.referencing && k in a.thunks && MayRelink(run, a, k, ReportOf(run, k))
    ensures NewTip(run, a, k, run(k.thunk)[0])
    ensures var b := Substituted(run, a, k);
            && Valid(run, b) && k !in b.thunks && run(k.thunk)[0] in b.thunks && ReadyAfter(run, a, k) == {}
            && Runnable(b) == Runnable(a) - {k}
  {
    hide Consistent, MayRelink, Added, Relinked, ReportOf, Runnable, ReadyAfter, MergeFree, NextReady;
    var next := run(k.thunk)[0];
    NextAdded(run, g, a, k, next);
    SubstitutedConsistent(run, a, k);
    NoneReady(run, a, k);
    SubstitutedKeys(run, a, k);
  }

  lemma NoneReady(run: Oracle, g: Graph, k: Hash)
    requires Executes(run, k) && MayRelink(run, g, k, ReportOf(run, k)) && run(k.thunk)[0].Thk? && Valid(run, g)
    ensures k in g.referencing && ReadyAfter(run, g, k) == {}
  {
    hide Sound, Stored, WellFormed, Chains, Indexed, Closed;
    ReportFirst(run, k);
    MayRewriteNow(run, g, k, ReportOf(run, k));
    RelinkedKeyed(run, g, k, ReportOf(run, k), {});
  }

  lemma NextRunnable(run: Oracle, g: Graph, a: Graph, k: Hash, ready: set<Hash>)
    requires k in g.thunks && Executes(run, k) && k in a.referencing
    requires Added(run, g, a, run(k.thunk)[0], run(k.thunk)[0])
    requires MayRelink(run, a, k, ReportOf(run, k)) && Runnable(Substituted(run, a, k)) == Runnable(a) - {k}
    requires forall x :: x in ready <==>
              x in Runnable(Substituted(run, a, k)) && Reach(Substituted(run, a, k).thunks, run(k.thunk)[0], x)
    ensures Runnable(Substituted(run, a, k)) == Runnable(g) - {k} + ready
  {
    hide Valid, MayRelink, Reach, LoadCost, Substituted, ReportOf;
    var b, next := Substituted(run, a, k), run(k.thunk)[0];
    forall x ensures x in Runnable(b) <==> x in Runnable(g) - {k} + ready {
      if x in Runnable(b) && x !in g.thunks {
        assert x in Loaded(g, a);
        LoadedStaysReachable(run, a, k, next, x);
      }
    }
  }

  lemma AddedGrowth(run: Oracle, g: Graph, a: Graph, h: Hash)
    requires Added(run, g, a, h, h)
    ensures a.originals == g.originals && a.updated == g.updated && Valid(run, a)
    ensures forall k | k in g.thunks :: k in a.thunks && a.thunks[k] == g.thunks[k]
  {
    hide Valid, Reach, LoadCost;
  }

  lemma NextLessWork(run: Oracle, g: Graph, a: Graph, k: Hash)
    requires Valid(run, g) && Valid(run, a) && k in Runnable(g) && Executes(run, k) && k in a.referencing
    requires k in a.thunks && a.thunks[k] == g.thunks[k]
    requires run(k.thunk)[0].Thk? && LoadCost(run, g, a, run(k.thunk)[0]) && MayRelink(run, a, k, ReportOf(run, k))
    ensures LessWork(run, g, Substituted(run, a, k))
  {
    hide Measure, MayRelink, MayRewrite, Relinked, ReportOf, Own, Consistent, Measurable, Convergent, Cost;
    if Sane(run, g) && Convergent(run, g) {
      ForcedCost(run, g, k);
      ConvergentMeasurable(run, g);
      MayRewriteNow(run, a, k, ReportOf(run, k));
      RelinkedMeasure(run, a, k, ReportOf(run, k));
      RelinkedConvergent(run, a, k, ReportOf(run, k));
    }
  }

  lemma NextEnlarged(run: Oracle, g: Graph, a: Graph, h: Hash)
    requires Added(run, g, a, h, h) && h !in g.thunks
    ensures Enlarged(g, a, h)
  {
    hide Valid, LoadCost, Reach;
  }

  lemma AddedParts(run: Oracle, g: Graph, a: Graph, h: Hash, k: Hash)
    requires Added(run, g, a, h, h) && k in g.thunks
    ensures Valid(run, a) && LoadCost(run, g, a, h) && k in a.thunks && a.thunks[k] == g.thunks[k]
  {
  }

  lemma ThunkForced(run: Oracle, g: Graph, a: Graph, k: Hash, ready: set<Hash>)
    requires Valid(run, g) && k in Runnable(g) && Executes(run, k) && k in g.referencing
    requires WellBehaved(run)
    requires run(k.thunk)[0].Thk? && MergeFree(run, g, k) && Added(run, g, a, run(k.thunk)[0], run(k.thunk)[0])
    requires k in a.referencing && ready != {}
    requires forall x :: x in ready <==>
              x in Runnable(Substituted(run, a, k)) && Reach(Substituted(run, a, k).thunks, run(k.thunk)[0], x)
    ensures Forced(run, g, Substituted(run, a, k), k, ready)
  {
    hide Valid, Added, MayRelink, NewTip, Substituted, ReportOf, Reach, MergeFree, LessWork, Onward, Supplied;
    hide OpenOn, Inherited, StaysCompressed, Extended;
    AddedGrowth(run, g, a, run(k.thunk)[0]);
    var next := run(k.thunk)[0];
    NextAdded(run, g, a, k, next);
    AddedParts(run, g, a, next, k);
    NextSubstituted(run, g, a, k);
    NextRunnable(run, g, a, k, ready);
    NextLessWork(run, g, a, k);
    NextEnlarged(run, g, a, next);
    SubstitutedOpen(run, g, a, k);
    SubstitutedForward(run, g, a, k);
    NextInherited(run, g, a, k);
    NextCompressed(run, g, a, k);
  }

  lemma NextInherited(run: Oracle, g: Graph, a: Graph, k: Hash)
    requires Valid(run, g) && Executes(run, k) && k in g.referencing && k in a.referencing && run(k.thunk)[0].Thk?
    requires Added(run, g, a, run(k.thunk)[0], run(k.thunk)[0]) && NewTip(run, a, k, run(k.thunk)[0])
    requires run(k.thunk)[0] in Substituted(run, a, k).thunks
    ensures Inherited(run, g, Substituted(run, a, k), k)
  {
    hide ReportOf, Valid, Added, StandsIn, NewTip, Relinked, Executes, Consistent, Inherited;
    hide Sane, Stored, WellFormed, Finished, DeadEnd;
    ExecutesFirst(run, k);
    var next := run(k.thunk)[0];
    AddedGrowth(run, g, a, next);
    ReportFirst(run, k);
    RelinkedShape(a, k, ReportOf(run, k));
    ValidConsistent(run, g);
    ValidSane(run, g, {});
    StoredThunks(run, g);
    NewTipParts(run, a, k, next);
    NextSucceeds(run, g, Substituted(run, a, k), k, next);
  }

  lemma NextSucceeds(run: Oracle, g: Graph, b: Graph, k: Hash, next: Hash)
    requires Executes(run, k) && k in g.referencing && next == run(k.thunk)[0] && next.Thk?
    requires (forall x | x in g.thunks && x != k :: x.Thk? && x in b.thunks) && Succeeds(run, b, k, next)
    ensures Inherited(run, g, b, k)
  {
    hide Executes, StandsIn, ReadyAfter;
    forall x | x in g.thunks && x != k ensures Succeeds(run, b, x, x) { StandsInSelf(run, x); }
  }

  lemma ValidConsistent(run: Oracle, g: Graph)
    requires Valid(run, g)
    ensures Consistent(run, g, {})
  {
  }

  lemma NextCompressed(run: Oracle, g: Graph, a: Graph, k: Hash)
    requires Executes(run, k) && k in g.referencing && k in a.referencing && run(k.thunk)[0].Thk?
    requires run(k.thunk)[0] != k && a.originals == g.originals && a.updated == g.updated
    ensures StaysCompressed(run, g, Substituted(run, a, k), k)
  {
    hide ReportOf, Rewritten, ReadyAfter, NameAfter;
    ReportFirst(run, k);
    RelinkedShape(a, k, ReportOf(run, k));
    if Compressed(g) && NewNames(run, g, k) { CompressedIff(a, k, run(k.thunk)[0]); }
  }
}
