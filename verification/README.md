# NorthStack: a verified model

This project models the deterministic core of NorthStack, an event-sourced control plane for model-driven work, and
proves what it promises. A run compiles a request into a contract, plans a dependency graph of cells, runs the cells
in rounds, verifies the result and writes every transition to a hash-chained ledger.

`dafny verify dfyconfig.toml` checks everything. The modules follow the source:

| modules | what they model |
|---|---|
| `Domain`, `Text` | cells, graphs, budgets, spend; `str.strip` |
| `Digraph`, `Validation` | Kahn's loop and every structural, budget and wave error |
| `Waves`, `Hardening`, `Fallbacks`, `Plans` | levels, writer separation, budget split, the plan, exactly when it falls back and what it carries over |
| `Scheduling`, `RoundBound`, `Tightness` | the ready list, the list-scheduling bound, and that no smaller bound holds |
| `Execution`, `Completion`, `Success`, `Outcomes`, `Histories` | the round loop, what it promises, exactly when it succeeds and what it returns otherwise, and its histories under every interleaving |
| `Companies`, `Resumption` | the status and outcome protocol of fresh and resumed runs, with every stage able to raise and every append able to fail; what a replay of a resumed run rebuilds |
| `Routing`, `Retry`, `CellRuns`, `Recoveries` | profile scores, retry ladders, the attempt loop of a cell, what follows each kind of error |
| `ToolBatches`, `Conversations`, `Workers`, `Dialogues` | batches of tool calls, compaction, the worker's loop over one conversation, how its lists follow from each other |
| `Budgets` | the budget authority with its reservations, and the run's usage totals |
| `Ledgers`, `Events`, `Replays`, `Projections` | the hash chain and its verifier, the fold and what it holds, the projection cache |
| `Release`, `TreeDigests` | hard gates, soft rubric, release law, the workspace digest |
| `StreamLines`, `SseEvents`, `StreamAssembly`, `Responses`, `RateLimiter` | the streaming core of the gateway |

The main results, each over all inputs and all runs:

- Scheduling. Validation reports exactly the faults of a graph (`Validation.Validate`); an accepted graph of depth D
  with M writers finishes within D + max(0, M-1) rounds (`RoundBound.RoundsSuffice`), needs at least max(D, M)
  (`RoundBound.RoundsNeeded`), and the bound is exact with at most one writer (`RoundBound.OneWriterIsExact`) and
  reached for all D and M (`Tightness.BoundIsTight`).
- Execution. A call succeeds if and only if graph and world allow it, told before the call (`Success.SuccessIff`), so
  an accepted graph within the bound succeeds in every untroubled world (`Success.AcceptedRunSucceeds`);
  `Outcomes.EndDecides` says what it returns otherwise. Every history it may have, under every interleaving of readers,
  keeps dependency order, single starts and writer exclusion (`Histories.HistoriesAreSafe`).
- Planning. A proposal has at most one hardened graph, which fails validation only by a bumped writer or a total cap;
  a plan is error-free or the one-cell graph of a contract over a cap, and `Fallbacks.FallsBackIff` says exactly when it
  falls back. No acceptance criterion gets lost, and a plan of several cells carries exactly what was proposed
  (`Plans.Plan`).
- Protocol. From any exception in any stage the log of a run replays and tells the outcome that was returned; when no
  append fails, that outcome is the one the world decides, for fresh and resumed runs. A resumed run's log rebuilds
  contract and graph (`Resumption.ResumeRebuilds`), it runs exactly what its source had left (`Companies.RunsTheRest`),
  and a replay holds what was last recorded (`Replays`).
- Recovery. A cell makes at most 2P + 1 attempts for P profiles even without a cap on retries, because every
  continued attempt uses up a rung of a counter that other cells share but cannot use up; every failed attempt is
  followed as the ladder says for the failures so far. `Recoveries` says error kind by error kind what that comes to.
- Conversations. Every list of messages sent to a provider, across compaction, retries and reroutes, has each tool
  call answered directly after it; batched tool execution equals sequential execution. A run begins where the
  conversation handed to it ends (`Workers.FirstSent`), each list continues the one before (`Dialogues.SentContinues`),
  and the last one is handed on (`Dialogues.EndHandsOnAll`).
- Ledger. A chain with a given tip is unique under a collisionless hash, so truncation is the only undetected edit;
  the cache only ever holds replays of prefixes and polls reach the whole run.
- Streams. Lines, events and assembled responses do not depend on chunks, fragmentation or interleaving; no 60-second
  window exceeds the request limit although old times are forgotten.

The source's exceptions are result values or branches of a *world* parameter that says what the outside does: cell
ends, stalls, raising stages, failing appends, provider answers, tool answers. Every contract is stated for all worlds.
Loops that update state are methods and classes here, proved against specification functions; what the source promises
is then proved of those functions.

Where code and documentation disagree, or the code may surprise, the code is modelled:

- The budget authority's documentation says that committed spend never exceeds the limit; the tolerance of 1e-9 lets
  it (`Budgets.CommittedCanExceedLimit`), by at most one tolerance per commit and one more (`Budgets.LimitsHold`);
  over a sequence it never does if and only if every accepted commit adds no more cost than the limit leaves beside what
  is committed (`Budgets.CommittedNeverExceedsIff`). Of committed and reserved spend together the condition is that
  every operation that goes through fits (`Budgets.NeverExceedsIff`).
- The budget split is documented as never exceeding the contract; rounded cost shares can pass it
  (`Hardening.CostSplitCanExceedLimit`), and stay within it if and only if rounding adds no more than it cuts off
  (`Hardening.CostSplitWithinIff`).
- The wave limit of a request is documented as a number of replanning waves; the code bounds rounds with it, and validation
  accepts graphs that are too deep for those rounds (`RoundBound.AcceptedGraphCanBeTooDeep`); a run finishes
  only if rounds in which every ready cell completes complete them all (`Success.SuccessIff`), which with at most one
  writer is whether the longest chain fits (`RoundBound.OneWriterIsExact`).
- A resumed run seeds its authority only if tokens or calls were used (`Budgets.SeedAgreesIff`). Nothing is lost by it:
  a cost comes with a call, so for every list of worker runs the seeded authority is the one that recorded them
  (`Workers.SeedLosesNothing`).
- A run records of the budget of its request only tokens and cost, so a run resumed from it knows no limit on calls
  (`Companies.ResumedLimits`).
- A completed cell reports as its own usage also what cells beside it spent meanwhile (`CellRuns.GainedIsOwnAndOthers`,
  `CellRuns.ReportsRequestsOfOthers`), and its own spend alone if and only if they spent nothing (`CellRuns.GainedIsOwnIff`).
- An event name survives an empty line, unlike in section 9.2.6 of the WHATWG HTML standard (`SseEvents.NameOutlivesEmptyLine`);
  the line clears it if and only if data was pending (`SseEvents.EmptyLineClearsIff`, `SseEvents.OldNameIff`).
- A reader that was cancelled counts as completed, because its result is neither an exception of the ordinary kind nor
  an outcome (`Success.CancelledReaderCompletes`). A successful call ran every cell to success, and a cell started after
  its dependencies succeeded, if and only if no such reader was among them (`Success.AllDoneIff`,
  `Histories.DependenciesDoneIff`).
- `plan` validates without the wave limit of the request, so a run can reject a planned graph
  (`Hardening.PlannedButRejected`); it accepts exactly those with few enough writers, but for the one-cell graph over a
  cap (`Hardening.RunAcceptsPlanIff`).

## Model

| member | source | states |
|---|---|---|
| `Digraph.KahnOrder` | src/northstack/application/planning.py:121-133 | the queue loop ends and counts every node if and only if the known-dependency relation has no cycle; the counted nodes form a topological order, and every other node keeps a predecessor among the uncounted |
| `Digraph.KahnCountsAllIffAcyclic` | src/northstack/application/planning.py:121-133 | a topological prefix whose rest is blocked holds every node if and only if the relation has no cycle |
| `Digraph.OrderExcludesCycle` | src/northstack/application/planning.py:121-133 | a relation with a complete topological order has no cycle |
| `Validation.Validate` | src/northstack/application/planning.py:38-50 | an error is reported if and only if the graph has that fault; faults are stated without reference to the loops that look for them |
| `Validation.HeaderErrors` | src/northstack/application/planning.py:53-72 | exactly the faults of the id set, milestones and horizon |
| `Validation.ErrorsOfCell` | src/northstack/application/planning.py:76-103 | exactly the faults of one cell: repeated or unknown criteria and faulty dependencies |
| `Validation.ErrorsOfDependencies` | src/northstack/application/planning.py:92-103 | exactly the self, unknown and not-in-an-earlier-wave dependencies |
| `Validation.EdgeErrors` | src/northstack/application/planning.py:105-119 | exactly the repeated and dangling edges, and whether the blocking edges are the dependency relation |
| `Validation.CycleErrors` | src/northstack/application/planning.py:74-133 | a cycle is reported if and only if the known dependencies have one |
| `Validation.BudgetErrors` | src/northstack/application/planning.py:137-157 | exactly the missing limits and the exceeded totals |
| `Validation.ConcurrencyErrors` | src/northstack/application/planning.py:160-169 | exactly the waves with more than one mutating cell |
| `Validation.WaveBudgetErrors` | src/northstack/application/planning.py:172-181 | an error if and only if there are more mutating cells than waves allowed |
| `Validation.NoWaveErrorOrders` | src/northstack/application/planning.py:92-103 | a graph without wave errors has every dependency in an earlier wave |
| `Validation.ByIdIsLast` | src/northstack/application/planning.py:53-103 | of several cells with one id the last one counts |
| `Validation.EarlierWavesExcludeCycles` | src/northstack/application/planning.py:98-133 | with unique ids every cycle already shows up as a wave error |
| `Waves.TopologicalWaves` | src/northstack/application/planning_model.py:274-291 | the levels found satisfy the level equation; none only if some cells wait for one another, which dependencies on earlier cells rule out |
| `Waves.ChainsFitLevels` | src/northstack/application/planning_model.py:274-291 | no dependency chain into a cell is longer than its level plus one |
| `Waves.SomeChainFillsLevel` | src/northstack/application/planning_model.py:274-291 | some chain into the cell is exactly that long, so a level is the longest chain |
| `Waves.LevelsAreUnique` | src/northstack/application/planning_model.py:274-291 | the level equation has one solution |
| `Waves.SeparateMutating` | src/northstack/application/planning_model.py:294-308 | every writer gets the first wave from its level on that no earlier writer took; none only if a writer has no room below the limit |
| `Waves.WritersAreApart` | src/northstack/application/planning_model.py:294-308 | no two writers share a wave |
| `Waves.SeparationIsUnique` | src/northstack/application/planning_model.py:294-308 | the assignment is determined by the levels |
| `Waves.NoRoomMeansNoWaves` | src/northstack/application/planning_model.py:294-308 | giving up means that every separation reaches the wave limit |
| `Waves.SeparationCanBreakOrder` | src/northstack/application/planning_model.py:294-308 | separation alone can put a cell no later than its dependency (a concrete proposal) |
| `Hardening.TokenSplitWithinLimit` | src/northstack/application/planning_model.py:220-234 | for every share vector the token budgets of the children sum to at most the contract limit |
| `Hardening.CostSplitNearLimit` | src/northstack/application/planning_model.py:220-242 | the rounded cost budgets of n children sum to within n/2 micro-dollars of the limit |
| `Hardening.CostSplitWithinIff` | src/northstack/application/planning_model.py:235-242 | for every share vector the cost budgets of the children stay within the contract limit if and only if rounding adds no more over the parts it rounds up than it cuts off the others |
| `Hardening.CostSplitCanExceedLimit` | src/northstack/application/planning_model.py:235-242 | six equal shares of $100 sum to $100.000002, above the total cap |
| `Hardening.ResolveDependencies` | src/northstack/application/planning_model.py:182-192 | each cell keeps exactly the names that stand for an earlier cell, the last cell of a name winning; so dependencies point backwards |
| `Hardening.AssignWaves` | src/northstack/application/planning_model.py:194-200 | the unique levels and their separation, or none when that reaches the wave limit |
| `Hardening.Coverage` | src/northstack/application/planning_model.py:202-218 | true if and only if every acceptance criterion is linked to some proposed cell |
| `Hardening.Harden` | src/northstack/application/planning_model.py:176-272 | returns a graph if and only if the proposal has a draft (enough named cells, waves below the limit, covered criteria, positive shares); the graph is the one built from that draft |
| `Hardening.DraftIsUnique` | src/northstack/application/planning_model.py:176-242 | a proposal has at most one draft |
| `Hardening.HardenedIsUnique` | src/northstack/application/planning_model.py:176-272 | a proposal hardens to at most one graph |
| `Hardening.HardenedFaults` | src/northstack/application/planning_model.py:176-308 | a hardened graph can only fail validation by a wave error on a writer that was bumped past its level, or by a total-budget cap |
| `Hardening.HardenedTokenCap` | src/northstack/application/planning_model.py:227-234 | the token cap can only stop a hardened graph whose contract already exceeds it |
| `Hardening.HardenedCostCap` | src/northstack/application/planning_model.py:235-242 | the cost cap can only stop a contract above the cap less half a micro-dollar per cell |
| `Hardening.FallbackFaults` | src/northstack/application/planning_model.py:310-322 | the one-cell graph has a fault if and only if its contract is over a total cap |
| `Hardening.FallbackAccepted` | src/northstack/application/planning.py:14-16 | the one-cell graph is accepted if and only if its contract is under the caps |
| `Plans.Plan` | src/northstack/application/planning_model.py:123-322 | the hardened graph of the proposal when there is one and it validates, else the one-cell graph; read off the graph alone: every acceptance criterion is the business of some cell, and a plan of several cells has exactly one for each of the first eight named proposals, each with what that proposal asked for |
| `Plans.HardenedCarries` | src/northstack/application/planning_model.py:176-308 | a hardened graph cell by cell: name, mode, valid criteria in order, the dependencies on exactly the last earlier bearers of the names given, a share of tokens (rounded down) and cost (to the micro-dollar) in proportion to what was asked for, readers at their level and writers in the first wave from theirs that no earlier writer has; the last cell is the milestone |
| `Plans.HardenedCovers` | src/northstack/application/planning_model.py:202-254 | no acceptance criterion of the contract gets lost between proposal and cells |
| `Plans.StandsForLast` | src/northstack/application/planning_model.py:185-192 | a name stands for the last kept proposal that bears it |
| `Plans.FallbackIsWhole` | src/northstack/application/planning_model.py:310-322 | the one-cell graph is a single writer with the whole contract and every criterion |
| `Hardening.PlansAreAccepted` | src/northstack/application/planning_model.py:123-133 | a plan is error-free, or it is the one-cell graph of a contract over a cap |
| `Fallbacks.HardenedAcceptedIff` | src/northstack/application/planning_model.py:123-308 | a hardened graph validates if and only if keeping writers apart left every dependency in an earlier wave and the split limits sum to at most the caps |
| `Fallbacks.FallsBackIff` | src/northstack/application/planning_model.py:123-322 | planning falls back on one cell if and only if the proposal has no draft, or one out of order or over a cap |
| `Hardening.WaveLimitOnlyCounts` | src/northstack/application/planning.py:172-181 | the wave limit of a run adds exactly that the writers are at most as many |
| `Hardening.RunAcceptsPlanIff` | src/northstack/application/planning_model.py:123-133 | a run accepts a plan if and only if the writers are at most the waves it allows and the plan is not the one-cell graph of a contract over a cap |
| `Hardening.PlannedButRejected` | src/northstack/application/planning_model.py:123-133 | two independent writers are planned as hardened, and a run that allows one wave rejects them |
| `Scheduling.ReadyCells` | src/northstack/application/scheduling.py:13-45 | the ready list of the specification, for both ways of calling it |
| `Scheduling.EligibleAreServed` | src/northstack/application/scheduling.py:31-45 | every eligible reader is ready, and some writer is ready whenever one is eligible |
| `Scheduling.OneWriterAtMost` | src/northstack/application/scheduling.py:31-45 | a ready list holds at most one writer |
| `Scheduling.ReadyWriterIsFirst` | src/northstack/application/scheduling.py:31-45 | a writer is ready if and only if it is the first eligible one |
| `Scheduling.UntrackedMeans` | src/northstack/application/scheduling.py:24-38 | without progress from outside, a cell is eligible if and only if it is pending and each dependency is a completed cell |
| `RoundBound.AcceptedIsLayered` | src/northstack/application/orchestrator.py:603-683 | an accepted graph has unique, closed, wave-ordered dependencies |
| `RoundBound.DepthIsLongestChain` | src/northstack/application/orchestrator.py:603-683 | the rank that the rounds lower is the length of the longest dependency chain |
| `RoundBound.HorizonBoundsDepth` | src/northstack/application/planning.py:63-103 | no chain of an accepted graph is longer than its horizon plus one |
| `RoundBound.RoundsSuffice` | src/northstack/application/orchestrator.py:603-683 | list-scheduling bound: depth plus all writers but one is enough rounds, from any completed set |
| `RoundBound.RoundsNeeded` | src/northstack/application/orchestrator.py:603-683 | conversely a graph that finishes had chains and writers for at most as many rounds |
| `RoundBound.OneWriterIsExact` | src/northstack/application/orchestrator.py:603-683 | with at most one writer a graph finishes if and only if its longest chain fits the rounds |
| `RoundBound.AcceptedGraphFinishes` | src/northstack/application/orchestrator.py:603-683 | an accepted graph with D + max(0, M-1) <= max_waves + 1 finishes, also from a resumed completed set |
| `RoundBound.ShallowGraphFinishes` | src/northstack/application/orchestrator.py:603-683 | every accepted graph of depth two finishes, since validation bounds the writers |
| `RoundBound.LongChainNeverFinishes` | src/northstack/application/orchestrator.py:603-683 | an accepted graph with a chain longer than the rounds cannot finish |
| `RoundBound.AcceptedGraphCanBeTooDeep` | src/northstack/application/planning.py:38-50 | validation accepts a three-cell chain for a run of two rounds, which cannot finish it |
| `Tightness.BoundIsTight` | src/northstack/application/orchestrator.py:603-683 | the bound cannot be improved: for every depth D and number M of writers some accepted graph finishes in a number of rounds if and only if that is at least D + M - 1 |
| `RoundBound.NeverStuck` | src/northstack/application/scheduling.py:31-45 | while cells of an accepted graph remain, some cell is ready |
| `Execution.ExecuteCells` | src/northstack/application/orchestrator.py:589-683 | the loop over ready lists, rounds and their ways to stop computes the call of the specification; what a call means is said by `Completion.CallKeepsPromise`, `Success.SuccessIff`, `Outcomes.EndDecides` and `Histories.HistoriesAreSafe` |
| `Execution.RunReaders` | src/northstack/application/orchestrator.py:615-650 | concurrent readers: a stall before or while they run, an outcome among their results, or an exhausted budget stops the call, in this order, otherwise their results are sorted; `Completion.CallKeepsPromise` and `Histories.HistoriesAreSafe` say what that keeps |
| `Execution.TakeResults` | src/northstack/application/orchestrator.py:638-648 | the first outcome in graph order stops the run; otherwise results are completions and exceptions failures |
| `Execution.RunWriter` | src/northstack/application/orchestrator.py:652-677 | the writer runs alone; a stall, an exception, a cancellation, an outcome or an exhausted budget stops the call, else it completes; `Histories.WriterRunsAlone` and `Success.SuccessIff` say what that means |
| `Execution.RunRound` | src/northstack/application/orchestrator.py:612-679 | readers first, then the writer, unless the readers stopped the call; `Completion.CallKeepsPromise` says what a round keeps |
| `Completion.CallKeepsPromise` | src/northstack/application/orchestrator.py:589-683 | in every world the completed set only grows, within the graph and dependency-closed; every cell that ran is accounted for once; success means that every cell completed, all spend is accounted for and headroom is left |
| `Success.SuccessIff` | src/northstack/application/orchestrator.py:589-683 | a call succeeds if and only if the rounds suffice, every outstanding cell ends so that it counts, no stall comes in a round it would interrupt, and headroom is left after all spend: told from graph and world before the call |
| `Success.AcceptedRunSucceeds` | src/northstack/application/orchestrator.py:589-683 | an accepted graph within the bound succeeds in every world whose cells succeed, whose watchdog never stalls and whose spend leaves headroom |
| `Success.CancelledReaderCompletes` | src/northstack/application/orchestrator.py:638-648 | one reader that is cancelled: the call completes it and succeeds |
| `Success.AllDoneIff` | src/northstack/application/orchestrator.py:638-683 | a successful call ran every cell to success if and only if no reader was cancelled |
| `Success.FailedStaysFailed` | src/northstack/application/orchestrator.py:589-683 | once a reader has raised, the call does not succeed |
| `Success.HeadroomIsStrict` | src/northstack/application/orchestrator.py:103-114 | headroom is left if and only if tokens are strictly below and cost is below the limit by more than the tolerance |
| `Outcomes.EndDecides` | src/northstack/application/orchestrator.py:589-683 | what a call returns, told from graph and world: a stall or a budget spent by the cells that ran abstains (or raises if recording that fails), the first outcome of a cell in graph order is that of the run, what a writer raises goes through, and with no round or no ready cell left the call succeeds if every cell is completed and fails otherwise; with what it completed, spent and ran |
| `Outcomes.EveryCallEnds` | src/northstack/application/orchestrator.py:589-683 | every call ends in one of these ways, after rounds that each led on |
| `Histories.HistoriesAreSafe` | src/northstack/application/orchestrator.py:603-683 | every history that a call may have, under every interleaving of readers and every cut by the watchdog, is well-formed and safe; its stops are those of the cells that ran, and without trouble it tells the completed set |
| `Histories.HistoryExists` | src/northstack/application/orchestrator.py:603-683 | every call has such a history |
| `Histories.StartedAfterDependencies` | src/northstack/application/orchestrator.py:603-677 | a cell starts only after each dependency has started and then completed, or was complete at the start |
| `Histories.StartedOnce` | src/northstack/application/orchestrator.py:603-677 | no cell starts twice in a call |
| `Histories.WriterRunsAlone` | src/northstack/application/orchestrator.py:603-677 | if a writer starts before or after another cell, the first has stopped between its own start and that of the second |
| `Histories.DependenciesDoneIff` | src/northstack/application/orchestrator.py:638-677 | a cell starts after all its dependencies succeeded if and only if none of them was a reader that was cancelled |
| `Companies.Company.Run` | src/northstack/application/orchestrator.py:233-372 | whatever raises and whichever append fails: the log replays, holds at most one outcome and one terminal status, both those returned, and exactly one of each when no append failed; a verified run earned it; when no append failed the outcome is the one that plan, cells, gates, rubric and budget decide; only a cancelled writer makes the run raise again, after it failed; the log is fit to be resumed from; it starts from nothing spent and nothing completed under the limits of its request, and a verified run spent over all its cells at most what its contract allows |
| `Companies.Company.Prepare` | src/northstack/application/orchestrator.py:238-259 | the phase up to the contract ends in CONTRACTED or leaves the handler a consistent state |
| `Companies.Company.AcceptPlan` | src/northstack/application/orchestrator.py:261-300 | with working appends, execution starts if and only if the graph is accepted, and a rejected graph ends the run abstained |
| `Companies.Company.ExecuteAndFinish` | src/northstack/application/orchestrator.py:286-350 | execution to outcome, shared by fresh and resumed runs; a verified ending means that the call of the round loop succeeds in this world and gates, rubric and budget hold; with working appends the ending is the one the world decides |
| `Companies.Company.EndShort` | src/northstack/application/orchestrator.py:312-338 | a cell outcome is written with the statuses of its route and is never a verification |
| `Companies.Company.FollowPath` | src/northstack/application/orchestrator.py:333-337 | writes the statuses of a legal path to its end, or stops where an append failed |
| `Companies.Company.Conclude` | src/northstack/application/orchestrator.py:325-337 | an outcome and then the statuses that lead to it |
| `Companies.Company.Verify` | src/northstack/application/orchestrator.py:383-428 | the verdict is FAILED if and only if a hard gate failed, VERIFIED if and only if gates, rubric and budget all hold |
| `Companies.Company.WriteVerdict` | src/northstack/application/orchestrator.py:340-350 | outcome then terminal status, while the caller still holds EXECUTING as current |
| `Companies.Company.VerifyAndFinish` | src/northstack/application/orchestrator.py:340-431 | a verified ending passed gates, rubric and budget; undisturbed, the ending is the verdict |
| `Companies.Company.EmitStatus` | src/northstack/application/orchestrator.py:846-849 | a status is appended only if it may follow the one the caller holds |
| `Companies.Company.EmitFailure` | src/northstack/application/orchestrator.py:851-870 | after the handler the terminal status is that of the written outcome, and both exist if no append failed |
| `Companies.Company.Handle` | src/northstack/application/orchestrator.py:352-367 | the returned outcome is the one the log tells; a cancellation is raised again once it is handled |
| `Companies.Company.Resume` | src/northstack/application/orchestrator.py:433-587 | a resumed run keeps the same protocol, writes nothing exactly when there is nothing to resume, and with working appends returns what the outstanding cells, gates, rubric and budget decide. It starts from the contract, graph, limits and usage of its source; it runs no cell that is completed in the graph or has a completion event, and every other one if it is verified, and then source and run together spent at most what the contract allows; once it executes, its log opens with what it takes over |
| `Companies.RunsTheRest` | src/northstack/application/orchestrator.py:471-473 | what a resumed run runs is what its source had not completed |
| `Companies.VerifiedCountsAll` | src/northstack/application/orchestrator.py:507-534 | a verified run is charged with the usage of its source and of every cell that it ran |
| `Companies.ResumedLimits` | src/northstack/application/orchestrator.py:238-254 | a run records of the budget of its request only tokens and cost, so a run resumed from it stops by spend exactly where the first would, and knows no limit on calls |
| `Companies.OpensWithExactly` | src/northstack/application/orchestrator.py:457-505 | besides its request a resumed run opens with exactly the analysis, contract and completion events of its source and the accepted graphs with their completed cells marked |
| `Companies.Company.Reopen` | src/northstack/application/orchestrator.py:466-518 | with working appends a resumed run reaches EXECUTING; then the copied history heads its log |
| `Companies.Company.Reissue` | src/northstack/application/orchestrator.py:484-505 | the copied events are the contract, graph and completion events of the source in order |
| `Companies.ResumeKeepsContract` | src/northstack/application/orchestrator.py:484-505 | a replay of what a resumed run opens with rebuilds the contract of its source |
| `Resumption.ResumeRebuilds` | src/northstack/application/orchestrator.py:466-505 | a replay of what a resumed run opens with rebuilds contract and graph of its source: the accepted cells and edges, completed exactly where the source completed them, otherwise as accepted |
| `Resumption.OpenedGraph` | src/northstack/application/orchestrator.py:484-505 | the graph that the copied events fold to |
| `Resumption.SourceGraph` | src/northstack/events/projection.py:56-139 | events change statuses of the accepted graph and nothing else of its cells and edges |
| `Resumption.TameSourceIsFit` | src/northstack/application/orchestrator.py:446-475 | what a resume needs of its source holds of the log of every fresh or resumed run whose events are of its own cells: unique ids, and completions within the graph |
| `Companies.LogReplays` | src/northstack/events/projection.py:141-147 | a log with legal statuses always replays, to the status and contract it reached |
| `Companies.TerminalStatusIsLast` | src/northstack/domain/status.py:112-128 | a terminal status is the last status of a log that replays |
| `ToolBatches.MakeBatches` | src/northstack/application/worker.py:447-470 | the batches concatenate to the calls, hold at most six, put each mutating call alone, and never split without need |
| `ToolBatches.BatchIsSequence` | src/northstack/application/worker.py:907-922 | running one batch in any order leaves the workspace and the answers of running it in sequence |
| `ToolBatches.BatchingPreservesMeaning` | src/northstack/application/worker.py:447-470 | so running batch after batch, each in any order, equals running all calls in sequence |
| `Conversations.EvictableSpans` | src/northstack/application/worker.py:128-149 | the pinned prefix and the spans of whole rounds after it |
| `Conversations.CompactMessages` | src/northstack/application/worker.py:174-197 | drops oldest spans one at a time, only while over the target with more than three spans left, and returns how many; ends when neither holds |
| `Conversations.DropKeeps` | src/northstack/application/worker.py:174-197 | one drop keeps the pinned prefix, removes exactly one span and keeps every call answered |
| `Conversations.CompactionKeeps` | src/northstack/application/worker.py:174-197 | compaction as a whole cuts one stretch right after the pinned prefix, and keeps pairing |
| `Conversations.PairedMeans` | src/northstack/application/worker.py:128-149 | in a paired conversation the results of an assistant message stand directly after it, in order, and no others |
| `Conversations.NoteElision` | src/northstack/application/worker.py:152-171 | the note goes on the last pinned message when that is the objective |
| `Conversations.NotesDoNotPileUp` | src/northstack/application/worker.py:152-171 | a later note replaces an earlier one and the text before it stays |
| `Conversations.NoteTellsNumber` | src/northstack/application/worker.py:152-171 | the note tells the number of rounds gone: different numbers give different notes |
| `Conversations.CompactionBounds` | src/northstack/application/worker.py:174-197 | a conversation of at most 78 percent of the window is left alone; any other ends at 62 percent or at three rounds, and the last three always stay after an objective |
| `Conversations.CompactsWhen` | src/northstack/application/worker.py:174-197 | a round is dropped only above 62 percent and with more than three to keep |
| `Conversations.ContentDoesNotPair` | src/northstack/application/worker.py:152-171 | changing a text does not change pairing |
| `Workers.Fit` | src/northstack/application/worker.py:724-736 | before a turn: whole rounds go, pairing stays, and if any went the objective carries the note of the total since the run began in place of an earlier one |
| `Workers.AnswerCalls` | src/northstack/application/worker.py:907-922 | each call gets its answer in call order; if and only if wall time ends the round before its last batch, only the batches before are answered |
| `Workers.TakeFinal` | src/northstack/application/worker.py:801-872 | a final text is repaired once, or nudged while truncations last and calls remain; otherwise it ends the run with the matching kind and the text on its history |
| `Workers.TakeResponse` | src/northstack/application/worker.py:800-934 | tool calls extend the conversation by the message and all its answers, unless the round raises or is cut short; the spend stays |
| `Workers.Turn` | src/northstack/application/worker.py:709-934 | a list is sent if and only if no limit is reached and the budget covers its input; it is the fitted conversation, paired and pinned; counts stay within the budget; stated of wall time, calls, rounds and tokens themselves |
| `Workers.RunWorker` | src/northstack/application/worker.py:609-938 | over whole runs: every list sent and every checkpoint is paired and tells on its objective what is gone; something is sent if and only if the run could begin; requests stay within the call limit, tokens within the token limit if the provider never bills more than asked; the first list is the conversation handed over, or what is left of it after its oldest rounds were dropped as the window demands, with the number gone noted on the objective; without one it is the system prompt and the objective |
| `Workers.RunKeepsAll` | src/northstack/application/worker.py:609-938 | the same of the specification, for every script of provider and tools |
| `Workers.FirstSent` | src/northstack/application/worker.py:667-690 | the same of the specification: a run begins where the conversation handed to it ends, else with the objective |
| `Dialogues.SentContinues` | src/northstack/application/worker.py:709-934 | each list sent continues the one before: grown by the message that calls tools and an answer to each call, or by what the model said and a request to go on, then shortened if the window demands it |
| `Dialogues.CheckpointsAreRounds` | src/northstack/application/worker.py:879-934 | a checkpoint for each finished tool round and for nothing else: the list sent, the calls, the answers |
| `Dialogues.EndHandsOnAll` | src/northstack/application/worker.py:353-410 | a run that succeeds, or fails by anything but the budget, hands on the last list it sent with the final text, if there is one |
| `Dialogues.SpendIsBilled` | src/northstack/application/worker.py:318-333 | what a run reports as spent is one call for each list sent and what the provider billed for the answers |
| `Workers.BudgetFailureIff` | src/northstack/application/worker.py:709-934 | a run fails by budget if and only if a limit stops its last turn: before the request, while the provider answers, or while tools run |
| `Workers.CarriedConversationsAreSendable` | src/northstack/application/cell_runner.py:382-422 | over the attempts of a cell, each a run of the worker: the history each starts from may be sent, and so may every list it sends |
| `CellRuns.RunCell` | src/northstack/application/cell_runner.py:265-464 | ends after at most 2P + 1 attempts (or max_retries + 1) with exactly one terminal event, success if and only if the last attempt succeeded; every failed attempt records the action that cap, safety, budget and ladder give for the failures so far and the totals it left, and is followed as that action says, a reroute by the totals as they are once the action is recorded; the first attempt is by the best profile of all, from the checkpoint; `Recoveries` says what follows each kind of error |
| `CellRuns.RunAttempt` | src/northstack/application/cell_runner.py:298-344 | what the worker spent is recorded in the totals and the authority alike, beside what other cells spend |
| `CellRuns.ChooseAction` | src/northstack/application/cell_runner.py:346-381 | the cap on retries first, then safety, budget and the ladder; continuing uses up a rung |
| `CellRuns.Proceed` | src/northstack/application/cell_runner.py:384-431 | what follows each action: the same profile, the best other eligible one, or the end; a transient failure that no other can take over is retried |
| `CellRuns.Recover` | src/northstack/application/cell_runner.py:346-438 | the recorded action is the one decided and what is done follows from it; going on uses up a rung of the signature counter |
| `CellRuns.HandleFailure` | src/northstack/application/cell_runner.py:466-528 | safety and budget failures do not touch the ladder; others count one failure of the strategy and of no other, whatever the action |
| `CellRuns.Reroute` | src/northstack/application/cell_runner.py:389-410 | the best eligible profile but the failed one; none if and only if there is none |
| `CellRuns.EarlierAttemptsFailed` | src/northstack/application/cell_runner.py:298-438 | every attempt that was followed by another had failed |
| `CellRuns.UsedIsGained` | src/northstack/application/cell_runner.py:333-344 | the totals grow by exactly what the attempts and the cells beside them spent |
| `CellRuns.GainedIsOwnAndOthers` | src/northstack/application/cell_runner.py:450-463 | the usage a completed cell reports is its own spend plus that of cells running beside it, up to when the completion is written |
| `CellRuns.GainedIsOwnIff` | src/northstack/application/cell_runner.py:450-463 | so it is its own spend if and only if no other cell spent anything meanwhile |
| `CellRuns.ReportsRequestsOfOthers` | src/northstack/application/cell_runner.py:450-463 | a cell that succeeds at once without a request of its own reports exactly the requests of the cells beside it |
| `CellRuns.AgreementKept` | src/northstack/application/cell_runner.py:333-344 | if totals and authority agree before a cell they agree after it, whatever ran beside it |
| `Recoveries.RejectionAbstains` | src/northstack/application/retry.py:43-109 | an attempt that fails by authentication or configuration is the last one and the cell abstains |
| `Recoveries.SafetyFails` | src/northstack/application/retry.py:43-109 | an attempt that fails by safety is the last one and the run fails, with or without retries left |
| `Recoveries.ProviderIsRetried` | src/northstack/application/cell_runner.py:298-438 | a provider error, a worker that raises and an error of no known kind: tried again where it was the first time, by the best other profile (or again, if there is none) the second time with one profile, and the third time the run fails |
| `Recoveries.SchemaIsRetried` | src/northstack/application/cell_runner.py:298-438 | an answer that misses its schema is tried again twice by the same profile, then the cell abstains |
| `Recoveries.CapabilityIsRerouted` | src/northstack/application/cell_runner.py:298-438 | a failing tool or missing capability goes to the best other profile first; with none the run fails, and a profile that fails so again makes the cell abstain |
| `Recoveries.BudgetEnds` | src/northstack/application/cell_runner.py:466-528 | a failure by budget, or any with the calls used up, is never retried: the cell abstains while less than half of some axis is used and the run fails otherwise |
| `Recoveries.NoRetriesLeft` | src/northstack/application/cell_runner.py:346-361 | with the retries used up the run fails, whatever the error |
| `Recoveries.RejectedKeyIsTriedOnce` | src/northstack/application/cell_runner.py:298-438 | with a rejected key a cell makes one attempt and abstains |
| `Recoveries.SilentProviderIsAskedThrice` | src/northstack/application/cell_runner.py:298-438 | a provider that keeps failing is asked three times where no other profile can take over, and then the run fails |
| `Recoveries.RungIsEarlier` | src/northstack/application/retry.py:112-162 | the rung of a failure is the number of earlier attempts of the cell with the same profile |
| `CellRuns.StrategiesDiffer` | src/northstack/application/retry.py:112-127 | attempts share a counter if and only if cell, contract version, profile and mode are the same |
| `Retry.RetryPolicy.NextAction` | src/northstack/application/retry.py:146-162 | the rung is the number of earlier failures of the strategy, which grows by one |
| `Retry.ContinuesOnlyEarly` | src/northstack/application/retry.py:77-109 | no ladder continues after its second rung, and some continue on it |
| `Retry.RungsLeftAtMost` | src/northstack/application/retry.py:77-109 | a cell has at most two rungs per profile |
| `Retry.RungUsed` | src/northstack/application/retry.py:112-162 | a counted failure on an early rung lowers what is left |
| `Retry.OtherCellsDoNotCount` | src/northstack/application/retry.py:112-162 | failures of other cells leave the rungs of this one although the counters are shared |
| `Routing.ScoreProfile` | src/northstack/application/routing.py:83-135 | a score if and only if the profile is eligible |
| `Routing.Route` | src/northstack/application/routing.py:45-81 | the first of the best candidates; abstains if and only if there is none |
| `Routing.OrderDecides` | src/northstack/application/routing.py:103-135 | with a routing table the configured order decides over every other part of the score |
| `Routing.TierDecides` | src/northstack/application/routing.py:103-135 | without one, writers get the highest eligible tier and readers the lowest |
| `Routing.CandidateMeans` | src/northstack/application/routing.py:45-135 | a profile can be routed to if and only if it is not excluded, serves a role of the cell, has every capability required or named, and on tier three has no money or at least a dollar left |
| `Budgets.LimitsHold` | src/northstack/application/budget_authority.py:79-156 | over every sequence of reserve, commit and release: committed plus reserved stays within the token and call limits, and the cost limit up to (1 + k) tolerances after k commits |
| `Budgets.ApplyKeepsLimits` | src/northstack/application/budget_authority.py:79-156 | one operation keeps the limits; only an accepted commit can use another tolerance |
| `Budgets.ExactReserveIff` | src/northstack/application/budget_authority.py:79-119 | an accepted reservation keeps cost within the limit itself if and only if it leaves the tolerance unused |
| `Budgets.FitsIffRemains` | src/northstack/application/budget_authority.py:79-119 | within the limits, a reservation goes through if and only if it asks for no more than the headroom that the authority reports, cost up to the tolerance |
| `Budgets.StaysWithinIff` | src/northstack/application/budget_authority.py:79-156 | from within the limits an operation stays within them, without any tolerance, if and only if it is refused or fits |
| `Budgets.ExactCommitIff` | src/northstack/application/budget_authority.py:121-147 | an accepted commit leads to an account within the limits if and only if what it changes fits them |
| `Budgets.NeverExceedsIff` | src/northstack/application/budget_authority.py:79-156 | over a whole sequence committed and reserved spend together never pass the limits themselves if and only if every operation that goes through fits |
| `Budgets.CommittedNeverExceedsIff` | src/northstack/application/budget_authority.py:53-156 | over a whole sequence committed spend never exceeds a limit if and only if every accepted commit adds no more cost than the limit leaves beside what is committed |
| `Budgets.ExactCallersStayWithin` | src/northstack/application/budget_authority.py:79-156 | callers that leave the tolerance unused never take committed or reserved spend over a limit |
| `Budgets.ExactCommitKeeps` | src/northstack/application/budget_authority.py:121-147 | a caller that leaves the tolerance unused keeps the limits, one operation at a time |
| `Budgets.CommittedCanExceedLimit` | src/northstack/application/budget_authority.py:53-147 | with the tolerance committed cost can exceed the limit (a concrete sequence) |
| `Budgets.ActiveWasReserved` | src/northstack/application/budget_authority.py:74-156 | over every sequence an active reservation was reserved before, so a foreign one is refused |
| `Budgets.SettledStaysRefused` | src/northstack/application/budget_authority.py:74-156 | over every sequence with fresh numbers: once committed or released, a reservation is refused by every later commit and release |
| `Budgets.BudgetAuthority.ReserveFor` | src/northstack/application/budget_authority.py:79-119 | refused if and only if a limit would be passed, and then unchanged; otherwise the specified account |
| `Budgets.BudgetAuthority.CommitSpend` | src/northstack/application/budget_authority.py:121-147 | foreign and settled reservations and overspending are refused without change; otherwise the specified account |
| `Budgets.BudgetAuthority.ReleaseHeld` | src/northstack/application/budget_authority.py:149-156 | gives back exactly what was held, or refuses without change |
| `Budgets.BudgetAuthority.Record` | src/northstack/application/budget_authority.py:158-174 | adds to committed and to nothing else |
| `Budgets.BudgetAuthority.RemainingNow` | src/northstack/application/budget_authority.py:176-204 | the headroom of the account |
| `Budgets.RecordedTotals` | src/northstack/application/budget_authority.py:158-174 | recorded totals are the sum of the spends |
| `Budgets.ViewsAgree` | src/northstack/domain/budget.py:94-108 | for every list of recorded spends both headroom views are equal |
| `Budgets.RecordingCommutes` | src/northstack/application/budget_authority.py:158-174 | the order of recording does not matter |
| `Budgets.SeedAgreesIff` | src/northstack/application/orchestrator.py:512-525 | seeding takes over every usage but one of cost alone |
| `Budgets.SeedAgrees` | src/northstack/application/orchestrator.py:504-512 | where every spend comes from calls, an authority seeded with the sum is the one that recorded them all, and both headroom views agree |
| `Workers.SeedLosesNothing` | src/northstack/application/worker.py:609-938 | every cost of a worker is billed by a call, so for every list of worker runs seeding from their usage loses nothing |
| `Ledgers.Ledger.Append` | src/northstack/adapters/sqlite_ledger.py:175-265 | accepted if and only if number, link and payload are right; the row is added to its run and no other run changes; each refusal names its first cause, and of a payload only its redacted form is ever in the table |
| `Ledgers.Ledger.AppendNext` | src/northstack/adapters/sqlite_ledger.py:190-206 | only the payload can be refused; the row gets the next number and the link to the tip |
| `Ledgers.StoreErrorMeans` | src/northstack/adapters/sqlite_ledger.py:208-231 | which events a run refuses and as what, told from its rows |
| `Ledgers.VerifyIntegrity` | src/northstack/adapters/sqlite_ledger.py:381-473 | accepts if and only if every row is sound after its predecessor (link, encoding, hash, known kind, readable payload of a known version), counts the rows, and otherwise names the first bad row and what is wrong |
| `Ledgers.DiagnoseMeans` | src/northstack/adapters/sqlite_ledger.py:395-470 | what is reported of a bad row: a broken link first, then text that does not read, then the hash, then an unknown kind or version |
| `Ledgers.StoredKindIsNotCompared` | src/northstack/adapters/sqlite_ledger.py:505-533 | a stored kind must be known but is not compared with that of the payload: a sound row stays sound under another kind, hashed with it, if and only if that kind is known |
| `Ledgers.VerifiesAt` | src/northstack/adapters/sqlite_ledger.py:381-473 | each row of a verifying chain is sound on the rows before it |
| `Ledgers.TipDetermines` | src/northstack/adapters/sqlite_ledger.py:546-569 | two verifying chains with the same tip hash are equal |
| `Ledgers.PrefixVerifies` | src/northstack/adapters/sqlite_ledger.py:381-473 | cutting off the end is not detected |
| `Ledgers.OnlyTruncationEscapes` | src/northstack/adapters/sqlite_ledger.py:381-473 | rows with the tip of a prefix verify if and only if they are that prefix: every other edit, insertion or deletion is detected |
| `Ledgers.PageIsSlice` | src/northstack/adapters/sqlite_ledger.py:281-292 | a page of a chain is the slice after the cursor |
| `Events.BuildTransitions` | src/northstack/domain/status.py:46-74 | the table built phase by phase is the transition relation |
| `Events.RouteIsLegal` | src/northstack/domain/status.py:112-128 | a route is a legal path to its target; abstention and failure are reachable from every live phase, nothing from a terminal one |
| `Events.TerminalIsLast` | src/northstack/domain/status.py:46-74 | a legal path has at most one terminal status, at its end |
| `Events.FoldEvents` | src/northstack/application/replay.py:18-31 | the loop with its early refusal is the fold, of which `Events.ReplayIffLegal`, `Events.FoldAppend` and `Events.FoldCounts` are proved |
| `Events.ReplayIffLegal` | src/northstack/events/projection.py:141-147 | a replay succeeds if and only if the status events follow the table, and ends in the last of them |
| `Events.FoldAppend` | src/northstack/application/replay.py:18-31 | a fold can be cut anywhere and continued |
| `Events.FoldCounts` | src/northstack/events/projection.py:56-139 | a fold counts its events and remembers the last hash |
| `Replays.HoldsRequest` | src/northstack/events/projection.py:61-68 | the run budget of a replay is that of the last accepted request |
| `Replays.HoldsUsage` | src/northstack/events/projection.py:116-117 | its usage is the one reported last |
| `Replays.HoldsContract` | src/northstack/events/projection.py:69-87 | its contract is the one proposed last |
| `Replays.HoldsVersion` | src/northstack/events/projection.py:69-89 | its contract version is that of the last proposal or amendment |
| `Replays.HoldsOutcome` | src/northstack/events/projection.py:120-125 | its outcome is the one emitted last, or abstention after a stall |
| `Replays.HoldsEvidence` | src/northstack/events/projection.py:163-180 | its evidence is that of the verdict recorded last |
| `Replays.HoldsFailure` | src/northstack/events/projection.py:183-197 | its failure is the one recovered from last |
| `Replays.HoldsRecoveries` | src/northstack/events/projection.py:183-197 | its recoveries are all that were recorded, in order |
| `Replays.HoldsRoute` | src/northstack/events/projection.py:106-107 | each cell has the profile it was routed to last |
| `Replays.HoldsCells` | src/northstack/events/projection.py:104-105 | its cells are those created, in order, with nothing changed but statuses |
| `Replays.KeepsCells` | src/northstack/events/projection.py:108-119 | what each event does to the statuses of the cells that are there |
| `Replays.LastOfMeans` | src/northstack/events/projection.py:56-139 | the last payload of a kind is the one after which no other comes |
| `Projections.ProjectionCache.Project` | src/northstack/application/projection_cache.py:44-66 | a refused fold leaves the cache as it was; otherwise cursor and state move together |
| `Projections.ProjectionCache.Invalidate` | src/northstack/application/projection_cache.py:68-70 | forgets one run and no other |
| `Projections.ProjectionCache.Poll` | src/northstack/application/projection_cache.py:34-66 | after a poll the cached state is the replay of the events up to the cursor, which moved by a page |
| `Projections.PageContinues` | src/northstack/application/projection_cache.py:44-66 | folding a page onto a right entry is folding the run up to the end of the page |
| `Projections.OperationsKeepConsistent` | src/northstack/application/projection_cache.py:34-70 | after every sequence of appends, polls and invalidations from the start, what is cached of a run is the replay of as many of its appended events as the cursor counts |
| `Projections.EntryCounts` | src/northstack/application/projection_cache.py:34-66 | the cursor equals the number of events replayed and names the last one |
| `Projections.PollMoves` | src/northstack/application/projection_cache.py:34-66 | if the run replays, a poll moves by a page of 500 |
| `Projections.PollsReachFullReplay` | src/northstack/application/projection_cache.py:34-66 | enough polls reach the replay of the whole run |
| `Release.VerifyHard` | src/northstack/application/verification/hard_gates.py:168-198 | one result per criterion, passed if and only if its check passed or it is a soft one; a crashed checker is a failure |
| `Release.CheckSoft` | src/northstack/application/verification/soft_rubric.py:103-153 | verdicts for exactly the soft criteria, and disagreement if and only if one is not accepted |
| `Release.Judge` | src/northstack/application/verification/soft_rubric.py:117-153 | accepted if and only if a panel of at least two, calibrated for the criterion, reaches its threshold |
| `Release.CalibrationIsLast` | src/northstack/application/verification/soft_rubric.py:137-147 | of several calibrations of a criterion the last counts |
| `Release.Panel` | src/northstack/application/verification/soft_rubric.py:117-137 | the number of reviewers that pass the criterion, which `Release.Judge` and `Release.OutcomeMeans` turn into the verdict |
| `Release.OutcomeMeans` | src/northstack/application/release_law.py:89-159 | on the results of gates and rubric: FAILED if and only if a hard gate failed, VERIFIED if and only if gates, budget and rubric all hold |
| `Release.ExceedsIff` | src/northstack/application/release_law.py:89-159 | usage is within the budget if and only if input and output tokens are at most the limit and cost is at most the limit and the tolerance |
| `Release.NothingPassesByClaim` | src/northstack/application/release_law.py:89-159 | on any results whatever: VERIFIED excludes unevaluated, failed and unknown criteria and an exceeded budget |
| `TreeDigests.Walk` | src/northstack/application/verification/hard_gates.py:69-94 | accepts if and only if the tree is within its bounds and without links; then each included file is found exactly once |
| `TreeDigests.ReadDirectory` | src/northstack/application/verification/hard_gates.py:72-94 | one directory, whatever the order of its entries |
| `TreeDigests.Meet` | src/northstack/application/verification/hard_gates.py:76-94 | one entry: left out, refused, pushed or listed |
| `TreeDigests.ComputeTreeDigest` | src/northstack/application/verification/hard_gates.py:40-117 | a digest if and only if the tree is acceptable and small enough; it hashes the sorted records of the included files |
| `TreeDigests.SortedIsUnique` | src/northstack/application/verification/hard_gates.py:95-117 | a set of records has one sorted list |
| `TreeDigests.BeforeMeans` | src/northstack/application/verification/hard_gates.py:95-96 | records are sorted as strings: a prefix first, else by the first character that differs |
| `TreeDigests.LeftOutMeans` | src/northstack/application/verification/hard_gates.py:76-78 | directories of caches and of the tool itself are left out, and files of such a name are not |
| `TreeDigests.RecordsAreUnique` | src/northstack/application/verification/hard_gates.py:69-117 | so the records do not depend on the order of scanning |
| `TreeDigests.RenderIsInjective` | src/northstack/application/verification/hard_gates.py:95-117 | paths are told apart by their rendering |
| `TreeDigests.EncodingIsUnique` | src/northstack/application/verification/hard_gates.py:95-117 | the encoding path, NUL, fixed-length hash reads back one way |
| `TreeDigests.DigestIdentifiesFiles` | src/northstack/application/verification/hard_gates.py:40-117 | under collisionless hashes two digests are equal if and only if the trees have the same files and contents |
| `StreamLines.SplitStreamLines` | src/northstack/adapters/providers/gateway.py:728-748 | one call: the lines that are complete, and a rest that keeps a final CR until it is known what follows |
| `StreamLines.ReadChunks` | src/northstack/adapters/providers/gateway.py:751-760 | for every way of cutting a text into chunks, the lines of the whole text |
| `StreamLines.Continue` | src/northstack/adapters/providers/gateway.py:751-760 | reading a chunk after the kept rest continues the reading of the whole text |
| `StreamLines.CutGivesLines` | src/northstack/adapters/providers/gateway.py:728-748 | the lines are those of the cut of the text at LF, CR and CR LF |
| `StreamLines.LinesAreThoseOfTheCut` | src/northstack/adapters/providers/gateway.py:728-748 | for every text the lines equal an independent definition of its cut |
| `StreamLines.CutExists` | src/northstack/adapters/providers/gateway.py:728-748 | every text has such a cut |
| `SseEvents.GroupEvents` | src/northstack/adapters/providers/gateway.py:763-787 | the loop is the grouping of the specification, of which `SseEvents.RoundTrip`, `SseEvents.CommentsAreIgnored` and `SseEvents.NameOfNext` are proved |
| `SseEvents.SseStream` | src/northstack/adapters/providers/gateway.py:763-787 | the events depend on the text alone, not on its chunks |
| `SseEvents.CommentsAreIgnored` | src/northstack/adapters/providers/gateway.py:763-787 | a comment line changes nothing wherever it stands |
| `SseEvents.RoundTrip` | src/northstack/adapters/providers/gateway.py:763-787 | what a producer encodes is what the reader yields |
| `SseEvents.WireRoundTrip` | src/northstack/adapters/providers/gateway.py:728-787 | the same for any mix of line breaks on the wire |
| `SseEvents.AnyWritingRoundTrip` | src/northstack/adapters/providers/gateway.py:763-787 | the same for every way of writing the fields, with or without white space around their values |
| `SseEvents.PendingRoundTrip` | src/northstack/adapters/providers/gateway.py:763-787 | and when the stream ends before the last empty line |
| `SseEvents.JoinIsBroken` | src/northstack/adapters/providers/gateway.py:718-726 | the data of an event are its data lines, in order, between line feeds |
| `SseEvents.EmptyLineClearsIff` | src/northstack/adapters/providers/gateway.py:763-787 | an empty line leaves no name pending if and only if there was none or data was pending |
| `SseEvents.NameOfNext` | src/northstack/adapters/providers/gateway.py:763-787 | the name pending after an empty line and further lines: the last one declared there, or one left over from before that line when no data was pending |
| `SseEvents.OldNameIff` | src/northstack/adapters/providers/gateway.py:763-787 | an event without a name of its own carries one from before the last empty line if and only if one was pending there without data |
| `SseEvents.NameOutlivesEmptyLine` | src/northstack/adapters/providers/gateway.py:763-787 | a name without data survives an empty line (a concrete stream) |
| `StreamAssembly.StreamAssembler.Update` | src/northstack/adapters/providers/gateway.py:1183-1200 | a delta joins the history and the fields stay what the history means |
| `StreamAssembly.StreamAssembler.Build` | src/northstack/adapters/providers/gateway.py:1202-1220 | the response is the one the deltas mean: text, calls in index order, usage, finish |
| `StreamAssembly.SameSayingSameResponse` | src/northstack/adapters/providers/gateway.py:1202-1220 | two histories that say the same give the same response |
| `StreamAssembly.SamePartsSaySame` | src/northstack/adapters/providers/gateway.py:1183-1220 | only the per-channel subsequences count |
| `StreamAssembly.NeighboursMaySwap` | src/northstack/adapters/providers/gateway.py:1183-1220 | deltas of different channels may change places |
| `StreamAssembly.CutsSayTheSame` | src/northstack/adapters/providers/gateway.py:1183-1220 | a text or argument delta may be cut anywhere |
| `StreamAssembly.FragmentsSayTheSame` | src/northstack/adapters/providers/gateway.py:1183-1220 | every delta of a response may be fragmented, in any number of pieces, and the response stays |
| `StreamAssembly.FragmentsMayInterleave` | src/northstack/adapters/providers/gateway.py:1183-1220 | fragments of different channels may then be interleaved in any way |
| `StreamAssembly.AscendingIsUnique` | src/northstack/adapters/providers/gateway.py:1202-1220 | the order of the calls is determined by their indices |
| `Responses.ResponseText` | src/northstack/adapters/providers/gateway.py:1183-1186 | the text of a response is all text of its stream, in order |
| `Responses.ResponseCall` | src/northstack/adapters/providers/gateway.py:1186-1212 | a call has all argument fragments of its index, and the id, name and signature that were last given and not empty; one never given an id gets one |
| `Responses.ResponseEnd` | src/northstack/adapters/providers/gateway.py:1197-1216 | usage and finish reason are those reported last |
| `Responses.RoundTrip` | src/northstack/adapters/providers/gateway.py:1183-1220 | every response is assembled from its own stream, and with `StreamAssembly.FragmentsMayInterleave` from every fragmentation of it |
| `RateLimiter.ModelLimiter.TryReserve` | src/northstack/adapters/providers/gateway.py:1939-1949 | reserves if and only if fewer than rpm times are recent; otherwise a positive wait after which a slot is free without competitors |
| `RateLimiter.Prune` | src/northstack/adapters/providers/gateway.py:1939-1949 | pruning an already pruned list gives the recent times of the whole history |
| `RateLimiter.AppendSpaced` | src/northstack/adapters/providers/gateway.py:1939-1949 | an allowed reservation keeps every rpm-th request a window apart |
| `RateLimiter.OneWaitSuffices` | src/northstack/adapters/providers/gateway.py:1939-1949 | the computed wait is positive and enough |
| `RateLimiter.EveryWindowHolds` | src/northstack/adapters/providers/gateway.py:1903-1949 | every half-open 60-second window over the whole history holds at most rpm reservations |
| `RateLimiter.ModelLimiter.WindowsHold` | src/northstack/adapters/providers/gateway.py:1903-1949 | the same of every limiter, whatever reservations were made and whatever it has forgotten |

## Left out

- Floating point: cost and time are reals, so rounding of sums is not modelled; `round(x, 6)` and `int(x)` are.
- Cancellation of a run: the status protocol assumes none but that of a writer; with it the terminal status can be lost or written twice.
- The clock race of the stall watchdog: a stall is a choice of the world, before or while cells run.
- Order and wording of validation errors: the set of errors is exact, the list order is not.
- Execution.ExecuteCells: takes the runs of cells as given by id, because CellRuns proves those separately; the promises about a call are for unique ids and a seed within the graph, as validation and a source written by a run ensure.
- What interrupted cells had spent when the watchdog cut a round is a choice of the world.
- Companies.Company.Resume: is for sources with unique ids whose completions belong to the graph; `Resumption.TameSourceIsFit` derives that for logs whose cell events are of cells of the graph, which is a condition on the world.
- CellRuns.RunCell: usage totals and the account of the authority are one shared object here; the authority's own methods are proved in Budgets.
- The recorded candidates and reasons of a route, and separator characters inside the names of a strategy signature.
- Workers.RunWorker: runs over a finite script of turns and returns none if the script ends first; `RunWorker` says nothing about time.
- Conversations.NoteElision: the wording of the note after the count is shortened, and so are the nudges and the repair request of the worker.
- Tool execution itself: a tool answers or the round raises; argument checks and workspace leases are part of the answer.
- JSON and UTF-8 decoding, HTTP, provider request shaping and retries on sockets: texts and parsed values only.
- SQLite transactions, threads and locks: an append is one atomic step.
- Ledgers.OnlyTruncationEscapes: is about parsed payloads and a hash without collisions.
- Ledgers.VerifyIntegrity: the verifier itself does not compare sequence numbers with positions, so neither does its contract.
- TreeDigests.Scan: the order of directory entries is arbitrary, of which the sorted order is one.
- Links on the path to the root of a digest, and files that change while they are hashed.
- The queue of the limiter for concurrent requests: only reservations in time are modelled.
- The finish reason across providers: streamed and whole responses differ there.
- Projections: the fold keeps no horizon, as in the source; of evidence it keeps the verdict, of a recovery the cell, action and kind of failure.
- Contract analysis, prompts, calibration measurement, memory recall, heartbeats, tracing, configuration editing, the CLI, TUI and web: text heuristics, I/O or simple field copying.
