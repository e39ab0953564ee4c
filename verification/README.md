# Verification of gg's core

gg is a lazy, content-addressed graph reducer. A thunk is a function together with the addresses of its
inputs; running it yields values or another thunk, and the coordinator keeps rewriting the dependency graph
until every target is a value. This project models the parts of gg where that can go wrong and proves what
they are relied on for.

* **Graph reduction** (`Thunks`, `Evaluation`, `Costs`, `Replacement`, `Graphs`, `Forcing`, `Reachability`,
  `Loading`, `Demand`, `Reduction`, `Preservation`, `ExecutionGraph`): a reference semantics, eager evaluation,
  is defined from an oracle that says what running a thunk yields. Every rewriting of the graph keeps the
  value of everything in it; the graph stays closed, acyclic and exactly indexed; hash chains resolve in one
  lookup to something of the same values, and targets that are open to the thunk that is computing them;
  each reduction uses up work.
* **The coordinator** (`Schedules`, `Startup`, `Reductor`, `LocalEngine`): for every schedule of completions,
  retries, timeouts, duplicate executions and cache hits, the answers are the eager values, no work is lost,
  polling is never entered with nothing in flight while targets remain, no engine is overbooked, and a run
  whose rounds all bring a result it still needs ends within a bound that is known when it starts.
* **The meow engine and its workers** (`Meow`): what the coordinator believes to be in a worker's store is
  there whenever a job starts, although Put messages are skipped and the store is pruned; jobs are conserved.
* **Incremental parsers** (`Framing`, `Numerals`, `Chunked`, `Http`, `HttpSequence`): length-prefixed messages, the chunked
  coding of section 3.6.1 of RFC 2616 and the message sequences of section 4 of RFC 2616 do not depend on how
  the bytes were cut, and parsing undoes printing.
* **Strings and arithmetic** (`Placeholders`, `Tokenize`, `Paths`, `Batches`): placeholder replacement, splitting,
  lexical path normalisation, strided batches.

## How things are modelled

An address is modelled by what it addresses (`Hash`): addressing is injective and a thunk names only what
existed before it. `Placeholders` ties this to the strings of the source for any injective digest. Data lists
are multisets of entries. Executing a thunk is an oracle, `run`; a run of the coordinator is given a schedule of
events. Assumptions that the code relies on are preconditions:

* The outputs of one execution are all values, or all one thunk, which has the tags that may be asked for
  (`Evaluation.Orderly`); references with a tag name a later output of what they refer to and a tag of the
  referrer itself (`Thunks.TagFits`); output tags of a thunk differ (`Thunks.TidyThunk`).
* A reduction does not merge thunks (`Reduction.MergeFree`): a returned thunk is not stored yet, neither by itself nor
  as what it has become; a new name is not stored yet, nor is a thunk that goes on from it; and no two new names
  are equal. Loading finished thunks again, reducing them again and giving them the names they had before is no
  merge (`Reduction.RerunIsFree`). `Graphs.MergeKeepsIndexIff` says exactly when a merge keeps the index,
  `Graphs.CompressedIff` exactly when chains stay compressed, and `Preservation.MergeLosesReferrer` is a valid
  graph in which a merge forgets a referrer. The coordinator model asks before each reduction
  (`ExecutionGraph.MergesWith`, which the source does not have) and gives up the run with the outcome `Merged` if
  so; what is said about a run therefore holds up to its first merge.
* What is loaded (`Loading.Loadable`) does not itself depend on what it has become, and no thunk depends on both a
  hash and what that has become when the latter is redirected in turn: the index may list a thunk under a
  hash it does not depend on otherwise.
* Targets are bare hashes of thunks for which eager evaluation terminates.

Where the code is at odds with what one would expect, the lemmas say exactly when it does what it should:
`Chunked.BodyEndIff` (the `Trailer` header must be there if and only if there are trailer fields),
`Chunked.WaitsIff` and `Framing.MessageRoundTripIff` (32-bit sums wrap around), `Http.HeaderRoundTripIff`,
`Placeholders.DataRoundTripIff`, `Placeholders.EntryRoundTripIff`, `Placeholders.BaseOfOutputIff`,
`Placeholders.CleanIff` (placeholders that contain placeholders), `Thunks.OriginalGoneIff`,
`Paths.LocationKeptIff` (the empty path becomes the root) and `Paths.IdempotentIff`.

## Model

| member | source | states |
|---|---|---|
| Thunks.UpdateData | src/thunk/thunk.cc:340-401 | the loop of rounds, one per output, is one simultaneous substitution: every text keeps its length and its characters, every placeholder is exchanged where it stands and every entry under its name, the bare hash for the first output, a tag for the first of the others that has it; program, executables, outputs, links and timeout stay |
| Thunks.ReplaceRef | src/thunk/thunk.cc:352-399 | one round moves every entry and placeholder of one address to another, place by place, into the list of the right type, and leaves all others alone |
| Thunks.SubstMoves | src/thunk/thunk.cc:349-400 | substituting goes place by place: characters stay, each placeholder and entry becomes what its reference is mapped to, as often as there were such entries |
| Thunks.TakeNames | src/thunk/thunk.cc:359-366 | the entries of an address are taken out with their names, all others stay |
| Thunks.SubstConserves | src/thunk/thunk.cc:359-373 | no entry is lost or added by the rewriting and every one keeps its name |
| Thunks.OriginalGoneIff | src/thunk/thunk.cc:352-358 | the reduced thunk is not referred to any more if and only if all tags it was referred to by are among those reported |
| Thunks.MovedTidy | src/thunk/thunk.cc:340-401 | rewriting keeps a thunk tidy and moves exactly the dependency on the reduced thunk |
| Thunks.SubstCompose | src/thunk/thunk.cc:349-400 | substituting twice is substituting once by the composition |
| Evaluation.MeaningUnfold | src/thunk/thunk.cc:169-173 | eager evaluation satisfies its fixpoint equation: evaluate what is needed, run, evaluate what came out |
| Evaluation.SubstKeepsMeaning | src/thunk/thunk.cc:340-401 | exchanging references for ones of the same value keeps what a thunk evaluates to |
| Evaluation.ReducedToThunk | src/thunk/graph.cc:117-122 | a thunk that returned a thunk has, output by output, the values of that thunk |
| Evaluation.ReducedToValues | src/thunk/graph.cc:147-151 | a thunk that returned values evaluates to those values |
| Costs.OwnOfExecuted | src/thunk/graph.cc:102-122 | running a thunk uses up one unit of its cost and leaves the cost of what it returned |
| Costs.DepCostsLess | src/thunk/graph.cc:172-175 | a dependency costs less than what the thunk itself adds to the cost |
| Loading.NamesOfEntries | src/thunk/graph.cc:34-40 | the values, executables and dependencies of a thunk are what the entries of its lists name |
| Replacement.Moved | src/thunk/graph.cc:88-92 | rewriting a referrer keeps it tidy, moves one dependency, keeps its values and adds no work |
| Replacement.ReportSound | src/thunk/graph.cc:102-122 | what an engine reports may be substituted into any tidy thunk |
| Replacement.RedirectSound | src/thunk/graph.cc:54-61 | redirecting dependencies to a thunk of the same values, under the referrer's own tags, is sound |
| Graphs.RelinkedThunk | src/thunk/graph.cc:88-99 | after update_hash every remaining thunk has its old values and depends on the new hash where it depended on the old one |
| Graphs.RelinkedClosed | src/thunk/graph.cc:88-99 | every dependency of a stored thunk is stored after update_hash |
| Graphs.RelinkedIndexed | src/thunk/graph.cc:97-99 | after update_hash to a fresh hash the index lists exactly the referrers |
| Graphs.MergeKeepsIndexIff | src/thunk/graph.cc:97-99 | when the new hash is stored already, the index stays exact if and only if whoever referred to it referred to the old hash, too |
| Graphs.CompressedIff | src/thunk/graph.cc:75-86 | chains stay compressed if and only if no other chain ends in the new hash |
| Graphs.RelinkedChains | src/thunk/graph.cc:75-86 | originals resolve in one lookup to other hashes with their values; a chain tip is stored and what its original resolves to, and the other way round, unless it is where chains end; a hash and the thunk that goes on from it are never both stored |
| Graphs.RelinkedTip | src/thunk/graph.cc:75-86 | the chain of an open target that ended in the reduced thunk ends in the new thunk, or has reached its value and nothing stored goes on from it |
| Graphs.RelinkedElsewhere | src/thunk/graph.cc:75-86 | every other chain of an open target keeps its tip, and this tip alone knows the target |
| Forcing.RelinkConsistent | src/thunk/graph.cc:70-100 | one update_hash keeps all invariants of the graph together |
| Forcing.RenameConsistent | src/thunk/graph.cc:124-141 | giving a runnable referrer its own hash keeps all invariants, also when it had that hash before |
| Forcing.RenameRunnable | src/thunk/graph.cc:124-141 | renaming exchanges one runnable thunk for its new name and makes nothing else runnable |
| Forcing.RelinkedMeasure | src/thunk/graph.cc:70-100 | update_hash takes the work of the reduced thunk out of the measure and adds none |
| Reachability.NoCycle | src/thunk/graph.cc:156-178 | following dependencies in the graph of a terminating computation never leads back |
| Loading.AddedNew | src/thunk/graph.cc:29-67 | a loaded thunk is stored with its dependencies redirected; the graph stays valid, everything loaded is reachable from it, and the collected values and executables are those of the loaded thunks |
| Loading.RedirectStep | src/thunk/graph.cc:54-61 | redirecting one dependency to what it has become keeps values and work |
| Demand.RelinkedReach | src/thunk/graph.cc:88-99 | a target still leads to all it led to except the reduced thunk |
| Demand.RelinkedSupplied | src/thunk/graph.cc:102-154 | the graph stores nothing that no open target leads to |
| Demand.RelinkedOnward | src/thunk/graph.cc:75-86 | a chain is moved only to a stored thunk, and a chain that was alive is alive unless it has just reached its value |
| Reduction.RerunIsFree | src/thunk/graph.cc:75-86 | thunks that were loaded again and get the names they had before merge with nothing, if these names are not stored and no two of them are equal |
| Reduction.RenamingStep | src/thunk/graph.cc:124-141 | the invariant of the loop over the referrers that became runnable |
| Reduction.ThunkForced | src/thunk/graph.cc:117-146 | forcing a thunk that returned a thunk: valid graph, exactly the newly loaded runnable thunks are new, every stored thunk has an heir that stands in for it, chains live on, less work |
| Reduction.RenamingEnd | src/thunk/graph.cc:124-151 | the same for a thunk that returned values: exactly the thunks that waited for it alone are newly runnable, under their new names |
| Preservation.ReductionKeepsMeaning | src/thunk/graph.cc:102-154 | what is stored in place of a thunk after force_thunk - the same, renamed, or what the reduced one returned - has the values the thunk had, output by output; values that were returned are the values the thunk had |
| Preservation.StoredMeaning | src/thunk/graph.cc:88-92 | whatever a key has been rewritten to has the value of the key, for every output |
| Preservation.ChainMeaning | src/thunk/graph.cc:180-184 | where a chain has got to has the values of where it began, for every output |
| Preservation.ChainKeepsMeaning | src/thunk/graph.cc:75-86 | force_thunk moves a chain only to something with the values of where it was, for every output |
| Preservation.EndMeaning | src/execution/reductor.cc:190-195 | a chain that ends in values ends in the eager values of its beginning, output by output |
| Preservation.MergeLosesReferrer | src/thunk/graph.cc:97-99 | a valid graph, a well-behaved execution and a reduction for which the index forgets a referrer |
| ExecutionGraphs.ExecutionGraph.constructor | src/thunk/graph.hh:20-28 | the graph starts empty and valid |
| ExecutionGraphs.ExecutionGraph.AddThunk | src/thunk/graph.cc:16-68 | answers the hash that stands for its argument; a known thunk changes nothing, a new one is loaded with all it depends on |
| ExecutionGraphs.ExecutionGraph.AddDependencies | src/thunk/graph.cc:42-52 | every dependency is loaded, as itself or as what it has become by then; those that have become something else are noted for redirection, and none of them is redirected twice |
| ExecutionGraphs.ExecutionGraph.UpdateHash | src/thunk/graph.cc:70-100 | the whole new state: chains, referrers, index |
| ExecutionGraphs.ExecutionGraph.ForceThunk | src/thunk/graph.cc:102-154 | None and no change for an unknown hash; otherwise a valid graph without the thunk, in which exactly the answered thunks are newly runnable, every other thunk is stored or has an heir that stands in for it, chains live on and less work is left |
| ExecutionGraphs.ExecutionGraph.OrderOneDependencies | src/thunk/graph.cc:156-178 | exactly the runnable thunks reachable from the argument, at least one; None just when the source throws |
| Schedules.TagInserted | src/execution/engine_local.cc:24-32 | writing one output to the cache leaves every finished entry complete |
| Schedules.MovedOn | src/execution/reductor.cc:180-199 | a reduction keeps all invariants of a run, strikes off the target whose chain ended, and leaves less work |
| Schedules.StruckOffIff | src/execution/reductor.cc:193-195 | an open target is struck off if and only if the thunk that became a value is the tip of its own chain, whatever finished chains are run again |
| Schedules.AlreadyDone | src/execution/reductor.cc:187-190 | results of a job that is not in the graph any more keep all invariants without touching graph or queue |
| Schedules.MergeFound | src/thunk/graph.cc:70-100 | a reduction is held back if and only if the thunk it returned or a new name is stored already or has become something that is stored, two new names are equal, or the returned thunk cannot be loaded as it is |
| Schedules.Dispatched | src/execution/reductor.cc:249-287 | sending a job out loses no work and overbooks no engine |
| Schedules.CameBack | src/execution/engine_local.cc:18-21 | a job that comes back is accounted for |
| Schedules.LeadsToRunnable | src/thunk/graph.cc:156-178 | every stored thunk leads to one that can run |
| Schedules.SomethingToDo | src/execution/reductor.cc:328-331 | while a target remains, some runnable thunk is queued or in flight |
| Schedules.NothingStored | src/execution/reductor.cc:328-345 | when no target remains the graph is empty and every chain has reached a value the cache knows |
| Schedules.AnswerRight | src/execution/reductor.cc:335-342 | the cached result of the tip of a target's chain is the eager value of the target |
| Startup.OneLoaded | src/execution/reductor.cc:99-107 | loading one more target and queueing what can run keeps all invariants |
| Startup.LoadedIsReachable | src/execution/reductor.cc:99-107 | after loading, the graph holds exactly the thunks reachable from the targets |
| Startup.AddedCollected | src/thunk/graph.cc:34-40 | a hash is in the collected values (executables) if and only if an entry among the values (executables) of some stored thunk names it; loading keeps this |
| Reductors.Launch | src/execution/reductor.cc:163-165 | there is no run without a primary engine |
| Reductors.Reductor.constructor | src/execution/reductor.cc:80-110 | all targets are loaded and open, everything runnable is queued, the dependency sets are complete |
| Reductors.Reductor.InsertReduction | src/execution/engine_lambda.cc:82-93 | all outputs of a thunk are recorded, the bare hash last |
| Reductors.Reductor.ReadReduction | src/execution/reductor.cc:226-237 | the outputs read from the cache are what execution yields, without an inconsistent entry |
| Reductors.Reductor.FindReduction | src/execution/reductor.cc:210-223 | finds out whether there is a result, and terminates |
| Reductors.Reductor.FinalizeExecution | src/execution/reductor.cc:180-199 | a finished job moves the graph on, queues exactly what it made runnable behind the other jobs and strikes off its target; a duplicate changes neither graph nor queue; a merge leaves all but the list of running jobs alone |
| Reductors.FinalizedShape | src/execution/reductor.cc:180-199 | engines and cache stay, the job is not running any more, and what is new in the queue is what became runnable, behind the rest |
| Reductors.Reductor.TryEngines | src/execution/reductor.cc:249-260 | the first capable engine with room; otherwise whether all capable ones are full or none is capable |
| Reductors.Reductor.Choose | src/execution/reductor.cc:249-276 | a fallback only if no primary engine is capable |
| Reductors.Reductor.Send | src/execution/reductor.cc:241-295 | the job goes to that engine, or back to the front of the queue, or no engine at all can execute it |
| Reductors.Reductor.Drain | src/execution/reductor.cc:204-296 | takes one job after the other off the queue, using its result or handing it out, until the queue is empty or a job comes back for lack of room; terminates; gives up only at a job these steps lead to, for which the cache has no result and no engine can execute it, or whose cached result would merge two thunks |
| Reductors.Reductor.Handle | src/execution/reductor.cc:112-160 | what each event does: success moves the graph on, a recoverable failure queues the job again; the run ends only if this event is a fatal failure of a job in flight, or its result would merge two thunks |
| Reductors.Reductor.Complete | src/execution/engine_local.cc:18-36 | an executed job has all its results in the cache and is finalized with exactly those |
| Reductors.Reductor.Record | src/execution/engine_lambda.cc:82-93 | writing results changes the cache only, and keeps every invariant |
| Reductors.Reductor.TakeBack | src/execution/engine_lambda.cc:50 | the engine that had the job has one job less |
| Reductors.Reductor.Poll | src/execution/loop.cc:34-37 | all events of a round take effect in order; none adds work, and a result the graph still needs uses some up; with nothing in flight nothing happens; a run that ends here does so at the first event that ends it |
| Reductors.HandledWork | src/execution/reductor.cc:180-199 | an event leaves the graph alone or uses up work; a result of a job that is in flight and in the graph uses up work; other jobs stay in flight |
| Reductors.Reductor.Duplicate | src/execution/reductor.cc:305-318 | exactly the overdue jobs that are running are queued once more, behind the others |
| Reductors.Reductor.Turn | src/execution/reductor.cc:201-347 | one round: draining, polling and queueing overdue jobs again, with the plan each of them leaves, or with the plan at which draining or polling ended the run; nothing in flight after draining means that no target remains or an engine takes no jobs at all |
| Reductors.Reductor.Collect | src/execution/reductor.cc:333-344 | every target's answer is its eager value |
| Reductors.Reductor.Reduce | src/execution/reductor.cc:201-347 | for every schedule: answers are the eager values, given after the first round that leaves no target; the plan in the end is what the rounds lead to, step by step, also when a job nobody can execute, a fatal failure or a merge ends the run; the rounds that brought a result the graph still needed, and the work that is left, add up to at most the work there was; the run is never stuck unless an engine takes no jobs at all, which the source refuses |
| Reductors.NoDeadlock | src/execution/reductor.cc:328-331 | with nothing in flight after draining, no target remains, unless an engine has no room for any job |
| LocalEngines.LocalEngine.ForceThunk | src/execution/engine_local.cc:15-50 | the engine as the coordinator knows it has one more job |
| LocalEngines.LocalEngine.Exited | src/execution/engine_local.cc:18-36 | the engine has one job less, and the outputs are the cache's, in order, if all are there |
| LocalEngines.Start | src/execution/engine.hh:33-39 | an engine that may have no jobs is refused; any other starts with none |
| LocalEngines.ReportedRight | src/execution/engine_local.cc:23-36 | what the engine then reports is what execution yields |
| Meow.Join | src/util/iterator.hh:28-53 | the elements visited: those of both containers, the first of the second one twice |
| Meow.ObjectsAreNeeded | src/execution/engine_meow.cc:149-158 | the objects a thunk needs are what the entries of its values and executables name |
| Meow.Cluster.PickLambda | src/execution/engine_meow.cc:177-223 | of the free lambdas with most bytes in common, the one with the smallest id |
| Meow.Cluster.PrepareLambda | src/execution/engine_meow.cc:149-175 | exactly those objects are sent that an entry of the values or executables names and that are not believed to be there, then the thunk; belief and store agree |
| Meow.Cluster.ForceThunk | src/execution/engine_meow.cc:255-278 | a job is put on one free lambda, or queued with one more launch; the coordinator's view of the engine has one more job |
| Meow.Cluster.Connect | src/execution/engine_meow.cc:53-144 | a new lambda is free, or gets the front of the queue; launches and queue stay balanced, and the coordinator's view of the engine is the same |
| Meow.Cluster.Receive | src/execution/engine_meow.cc:60-111 | Executed frees the lambda that was busy with that very thunk and reports it; the coordinator's view of the engine has one job less |
| Meow.Cluster.Deliver | src/frontend/gg-meow-worker.cc:80-118 | when an Execute is taken up, what any entry of the thunk's values and executables names is in the store |
| Meow.Cluster.Cleanup | src/frontend/gg-execute.cc:178-198 | of the store exactly the thunk and what an entry of its values or executables names is left |
| Meow.Cluster.Fetch | src/frontend/gg-execute.cc:252-289 | there is never anything to download |
| Meow.Cluster.Finish | src/frontend/gg-meow-worker.cc:119-146 | exactly the outputs are added to the store, and Executed is sent behind all earlier messages |
| Meow.DoCleanup | src/frontend/gg-execute.cc:178-198 | keeps exactly the thunk and what an entry of its values or executables names |
| Meow.FetchDependencies | src/frontend/gg-execute.cc:252-289 | asks for exactly what an entry of the values or executables names and the store has not |
| Meow.Delivered | src/frontend/gg-meow-worker.cc:80-118 | taking a message keeps the agreement of belief and store |
| Meow.MessageTaken | src/execution/engine_meow.cc:60-111 | so does taking the worker's message |
| Meow.PreparedAgrees | src/execution/engine_meow.cc:149-175 | so does sending a batch of Puts and an Execute |
| Meow.JobsUpdated | src/execution/engine_meow.cc:167-169 | changing one lambda changes the jobs on lambdas by exactly its job |
| Framing.NetworkOrder | src/execution/meow/message.cc:14-19 | the four bytes of a number are its digits in base 256, the most significant first |
| Framing.FieldRoundTrip | src/execution/meow/message.cc:14-19 | a 32-bit number in network order is read back |
| Framing.PrintedLayout | src/execution/meow/message.cc:40-48 | a printed message is four bytes with the length of the payload in network order, the opcode, and the payload |
| Framing.MessageRoundTripIff | src/execution/meow/message.cc:25-53 | a printed message is parsed back without residue if and only if its payload is at most 2^32 - 6 bytes |
| Framing.MessageParser.Parse | src/execution/meow/message.cc:55-71 | all complete messages are taken off the buffer, and the loop terminates |
| Framing.MessageParser.ParseAll | src/execution/meow/message.cc:55-71 | pieces are parsed as if they had arrived at once |
| Framing.DecodeAppend | src/execution/meow/message.cc:55-71 | what has been decoded stays decoded; the rest is decoded with what follows |
| Framing.StreamRoundTrip | src/execution/meow/message.cc:40-71 | a printed list of messages is decoded to the same list with no residue |
| Framing.Deliver | src/execution/meow/message.cc:40-71 | the same, in any fragmentation, through the parser |
| Numerals.AtoiIff | src/net/strict_conversions.cc:8-26 | a string is read as n if and only if it is n written out in that base, in small or capital letters, with or without leading zeros, and n fits a signed 64-bit number |
| Numerals.Numeral | src/net/strict_conversions.cc:8-26 | every number can be written out in base 10 and 16 |
| Numerals.LeadingDigit | src/net/strict_conversions.cc:8-26 | the digit in front stands for itself times the power of the base for the digits behind it |
| Chunked.SizeReadIff | src/net/chunked_parser.cc:11-32 | the size read off a line is the one the line begins with in base 16, modulo 2^32, if nothing but a space or an extension follows it; any other line is malformed |
| Chunked.ChunkedBodyParser.Read | src/net/chunked_parser.cc:34-101 | npos until the piece with the last byte of the body, then exactly that piece's share, at least one byte |
| Chunked.ChunkedBodyParser.ComputeAckSize | src/net/chunked_parser.cc:108-123 | parsed exceeds acknowledged when the end is found |
| Chunked.ScanStep | src/net/chunked_parser.cc:38-75 | a step on a buffer is the same step when more bytes have arrived |
| Chunked.EndsLater | src/net/chunked_parser.cc:108-123 | a body that had not ended ends behind all that was there |
| Chunked.BodyEndIff | src/net/chunked_parser.cc:77-90 | a well-formed body, its sizes written out in base 16, ends at its last byte, whatever follows, if and only if trailers are enabled exactly when there are trailer fields |
| Chunked.MalformedIsBad | src/net/chunked_parser.cc:40-64 | behind well-formed chunks, a line without a size and data that is not followed by a line end are errors |
| Chunked.WaitsIff | src/net/chunked_parser.cc:60-75 | a chunk is waited for if and only if its size plus two fits 32 bits |
| Chunked.PrefixVerdict | src/net/chunked_parser.cc:34-101 | every proper beginning of a body needs more; from the last byte on it has ended there |
| Chunked.ReadBody | src/net/chunked_parser.cc:34-101 | for any cut: earlier pieces are taken whole, and of the one with the last byte exactly the share |
| Http.HeaderRoundTripIff | src/net/http_header.cc:12-36 | a header is read back if and only if its key has no colon and its value is not empty and does not begin with a space |
| Http.HeaderOfLine | src/net/http_header.cc:12-36 | the key of a header line is what precedes the first colon, the value what follows it, without initial spaces unless there is nothing else; a line without a colon is no header |
| Http.LinePopped | src/net/http_message_sequence.hh:73-92 | a complete line in the buffer is the next line of the stream |
| Http.LineMissing | src/net/http_message_sequence.hh:66-71 | if there is none, more than all that follows the line is still to come |
| Http.EquivalentIff | src/net/http_message.cc:98-135 | names are compared without regard to case and initial spaces |
| Http.LookupIff | src/net/http_message.cc:137-159 | a header is found if and only if there is one of that name, in any case, and its value is that of the first one |
| Http.StatusIff | src/net/http_response.cc:14-23 | the status code is the second of at least three words |
| Http.ChunkedIff | src/net/http_response.cc:38-40 | the coding is chunked if and only if what follows its last comma is that name, in any case |
| HttpSequences.MessageSequence.NewRequestArrived | src/net/http_response_parser.cc:24-27 | requests are queued in order, also while a response is half read |
| HttpSequences.ResponseFitsIff | src/net/http_response.cc:25-66 | the rules of section 4.4 of RFC 2616 for every response: no body for 1xx, 204, 304 and as the answer to HEAD; otherwise a chunked body if the last coding is chunked; otherwise, and without a transfer coding, a body as long as the first Content-Length says in decimal |
| HttpSequences.RequestFitsIff | src/net/http_request.cc:11-27 | no body for GET and HEAD, a body as long as the first Content-Length says in decimal for POST and PUT |
| HttpSequences.MessageSequence.FirstLineStep | src/net/http_message_sequence.hh:98-107 | a response is matched up with the oldest request |
| HttpSequences.MessageSequence.HeaderStep | src/net/http_message_sequence.hh:108-121 | one header is read, or the headers are done and the length of the body is settled |
| HttpSequences.MessageSequence.BodyStep | src/net/http_message_sequence.hh:123-129 | the body gets its bytes and not one more |
| HttpSequences.MessageSequence.ReadInBody | src/net/http_message.cc:45-66 | how many bytes of the buffer belong to a body of known or coded length, and whether it is complete |
| HttpSequences.MessageSequence.CompleteStep | src/net/http_message_sequence.hh:131-134 | the complete message is the next expected one |
| HttpSequences.MessageSequence.Parse | src/net/http_message_sequence.hh:140-153 | every message that has arrived in full is taken off, in order, and nothing else |
| HttpSequences.MessageSequence.ParseAll | src/net/http_message_sequence.hh:140-153 | wherever the parser is in the messages it expects, these and further printed messages, whose bodies are as ResponseFitsIff and RequestFitsIff say, come out as they went in, for any non-empty pieces, the k-th response read as the answer to the k-th waiting request |
| HttpSequences.HeadersExpected | src/net/http_message.cc:162-181 | the next line of printed headers is the next header or the blank line |
| HttpSequences.CodedVerdict | src/net/http_response.cc:66-81 | what the chunked parser makes of a printed body that is still arriving |
| Placeholders.UpdatePlaceholder | src/thunk/thunk.cc:378-389 | the find-and-replace loop replaces every occurrence, from left to right |
| Placeholders.ReplaceIsRename | src/thunk/thunk.cc:375-397 | replacing a placeholder in a string renames exactly its tokens, all at once, for every name that holds neither a closing brace nor the beginning of a placeholder |
| Placeholders.CleanIff | src/thunk/thunk.cc:375-397 | those are exactly the names whose placeholder contains no other placeholder, so that replacing others leaves it alone |
| Placeholders.ParseRenamed | src/thunk/thunk.cc:375-397 | the result splits into the renamed tokens, so the next replacement can go on from there |
| Placeholders.NoOldPlaceholder | src/thunk/thunk.cc:378-389 | no old placeholder is left |
| Placeholders.RenderParse | src/thunk/thunk.cc:27-30 | splitting a string at its placeholders loses nothing |
| Placeholders.UpdateRefines | src/thunk/thunk.cc:375-397 | on stored strings the replacement is what the model does to tokens, for any injective digest |
| Placeholders.AddressInjective | src/thunk/ggutils.cc:270-284 | different references have different address strings |
| Placeholders.BaseOfOutputIff | src/thunk/ggutils.cc:270-284 | the base of an output's address is the thunk's address if and only if that has no hash sign |
| Placeholders.DataRoundTripIff | src/thunk/thunk.cc:32-51 | an entry is read back if and only if its address has no equals sign |
| Placeholders.EntryRoundTripIff | src/thunk/thunk.cc:32-51 | a string is the form of its own entry unless its first equals sign is its last character |
| Tokenize.SplitAll | src/util/tokenize.hh:7-38 | the loops over indices compute the pieces between separators |
| Tokenize.SplitFirst | src/util/tokenize.hh:7-38 | without a separator there is one piece; otherwise the first piece ends at the first separator, and the others are those of the rest |
| Tokenize.SplitLast | src/util/tokenize.hh:7-38 | the last piece is what follows the last separator |
| Tokenize.JoinSplit | src/util/tokenize.hh:7-38 | joining the pieces gives the string back |
| Tokenize.SplitJoin | src/util/tokenize.hh:7-38 | pieces without separators are found again |
| Paths.LexicallyNormal | src/util/path.cc:60-99 | the loops compute the normal path |
| Paths.NormalForm | src/util/path.cc:60-99 | no dot, no inner empty component and no dot-dot behind a name or the root is left |
| Paths.LocationKeptIff | src/util/path.cc:60-99 | the normal path leads where the path leads from every working directory if and only if the path is not empty |
| Paths.EmptyIff | src/util/path.cc:60-99 | nothing is left of a path if and only if it is not empty and leads back to every working directory |
| Paths.IdempotentIff | src/util/path.cc:60-99 | normalising again changes nothing if and only if the path is empty or leads elsewhere from some working directory |
| Batches.Send | src/net/redis.cc:60-78 | one batch takes the next requests of a thread, at most as many as it may hold |
| Batches.Drain | src/net/redis.cc:80-97 | the k-th reply of a batch is stored for the request it was meant for, provided that replies come in order |
| Batches.Transfer | src/net/redis.cc:53-98 | a thread sends each of its requests, and each object is stored under its request |
| Batches.TransferAll | src/net/s3.cc:202-257 | all threads together transfer every request exactly once, and afterwards the files are exactly the requested objects |
| Batches.ThreadOwns | src/net/redis.cc:112-181 | a thread has exactly the requests whose number leaves its index as the remainder |

## Left out

- Sockets, TLS, polling, signals, child processes and the sandbox: their effects are events of the schedules.
- SHA-256, base64, Protocol Buffers and JSON: addressing is injective by construction, messages carry what they encode.
- Thunks.Thunk: links, timeouts and the function's program are carried along unchanged; the order of entries in a multimap is not kept, other than that entries of one thunk are neighbours.
- ExecutionGraphs.ExecutionGraph.AddThunk: the source enters a thunk in the index before its dependencies are loaded, the model after them; between calls the states agree. Blobs of all thunks are readable.
- ExecutionGraphs.ExecutionGraph.ForceThunk: a reduction that merges two thunks is excluded by its precondition, because the index loses entries then.
- Graphs.RelinkedChains: does not say that chains stay compressed, because running a finished chain again from elsewhere takes its end over; Graphs.CompressedIff says when they do, and a reduction whose new names no chain has got to keeps them so (Reduction.StaysCompressed, part of Reduction.Forced).
- Evaluation.Orderly: does not cover an execution that returns several different thunks, such as the one in examples/fibonacci/fib.cc; the graph loads the first of them only.
- Reductors.Reductor.Reduce: the clock is not modelled; which jobs are overdue is part of the schedule, so the growth of a job's timeout and its 8-bit restart counter are not. Cost estimates and status output are left out.
- Schedules.Engine: an engine is a value with its abilities, its limit and the jobs that are out on it; only the local and the meow engine are modelled from the inside. The HTTP engines do not count a job down when its socket fails, so there the count is an upper bound.
- Meow.Cluster.Receive: a failed execution or a lost worker makes the coordinator throw; runs without them are covered. Lambdas that become free do not take queued thunks in the source, nor here.
- Meow.Cluster.PickLambda: the selection strategies that are never used.
- Numerals.StrictAtoi: numbers are plain digits; signs, leading white space and a 0x prefix, which strtol accepts, count as malformed.
- HttpSequences.MessageSequence.Parse: malformed messages (exceptions), an end of the connection in the middle of a message, and bodies that last until the connection closes.
- S3Client::upload_files drains replies until no request is pending, which is before the last reply is complete; only its index arithmetic, which is that of the downloads, is covered.
- Batches.TransferAll: with a batch size of zero the source does not terminate.
- The model generators for compilers and linkers, the storage back ends' protocols, the sandbox, the Python SDK and the examples.
