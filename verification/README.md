# Rivalyze pipeline: verified model

Rivalyze runs a two-phase multi-agent analysis: it discovers rivals, waits for a person to confirm them, gathers news,
product and review intelligence in parallel, merges it into one cited evidence graph, and lets a strategist write a report
whose numbers and citations are owned by code. The agents are model and HTTP calls; the code around them is
deterministic, stateful, and makes strong promises. This project models that code in Dafny and proves the promises, or
gives the exact condition under which they hold. Every agent, provider, clock, store failure and random draw is an
arbitrary parameter.

`dafny verify dfyconfig.toml` checks everything.

| module | models |
|---|---|
| `Text`, `Wrappers` | string primitives of the source language, options and results |
| `RepairJson`, `LlmRouter` | the router: unwrapping of model output, key rotation, the lane / key / attempt walk, budgets |
| `RunStore`, `RunProtocol`, `RunContents` | the run store, every interleaving of discovery, confirm, refresh, analysis and polling, and what is stored and shown in each |
| `Handlers` | the same handlers and background functions as sequences of calls, each equal to its protocol task run without interruption |
| `RunMetrics` | the live counters of a run under concurrent emits |
| `Orchestrator` | node boundaries, the parallel superstep, the validate gate, both entry points |
| `Merge`, `MergeProofs` | the evidence graph |
| `Confidence`, `Strategist` | citation clean-up and recomputed confidence |
| `Stats`, `StatsProofs` | the "by the numbers" block |
| `Cache`, `SearchChain`, `IntelCache` | the two-tier cache and the two things it speeds up |
| `Corpus` | corpus printing, parsing, cutting and grounding |
| `RefreshTokens` | refresh-token rotation |

## What turned out not to hold

These come with a witness, and with the exact condition under which the promise holds wherever one is known.

- A completed run can become failed: discovery's closing ledger append runs inside the handler that fails the run, and the
  confirm and the whole analysis may come before it. `RunProtocol.CompletedIsKeptIff`: `completed` is never left if and
  only if that append cannot fail.
- Confirm accepts eight rivals but the poll can show four: `RunProtocol.LongListBlindsThePoller`.
- `complete` promises to raise only `RuntimeError`. A well-formed 200 answer whose content is truthy but not text makes
  the text repair raise `TypeError`, which leaves the function: the outcome `Crashed` in `LlmRouter`. `WalkIsFlat` says
  when; `LlmRouter.NotTextCrashes` shows that any configured call can end so.
- The run entry points promise never to raise. An exception escapes if and only if the caller stored something that cannot
  be iterated under `low_signal_findings`, or the graph breaks and the store then refuses the handler's own event
  (`Orchestrator.AnalysisSettles`, `Orchestrator.PipelineSettles`). With agents that answer with their own keys only, as
  the adapters do, the graph breaks if and only if the store refuses one of the events that the boundaries and the gate
  write (`Orchestrator.AnalysisEscapesIff`, `Orchestrator.PipelineEscapesIff`), so a store that refuses every event makes
  every run raise (`Orchestrator.DeadStoreEscapes`).
- More citations can lower a confidence. The docstring says that `agreeing` is bounded by the sources in practice; rows
  that share a URL break this, and rows without a URL count one by one until a row with one joins them.
  `Strategist.CanFallIff` is the exact condition for any cited rows, as arithmetic on the counts. (The same docstring says
  that one source scores about 0.42; the code gives 0.62, and the model follows the code.)
- The number of rivals with complaints is documented never to exceed the rivals analyzed. For arbitrary rows it can, if and
  only if some name that differs from a confirmed one in letter case only is not confirmed itself
  (`StatsProofs.ComplaintsFitIff`); on a graph that the merge node built it never does (`StatsProofs.ReportStats`).
- A rival named like the index key loses its rollup: `MergeProofs.NoRollupIsLostIff`.
- The intel cache is documented never to mismatch on a short return. The zip trusts the order: an answer leaves the cache
  right if and only if each item that the zip pairs is the one of its name (`IntelCache.AgreesIffAligned`), and a gap that
  is not at the end files one rival's item under another (`IntelCache.GapMismatches`). Reuse is invisible if and only if
  the agent cannot tell apart names with one cache key (`IntelCache.TransparentIffNormal`).
- Grounding promises verbatim corpus URLs. The length cap may cut a URL, and the stump then counts as one. An unknown URL
  can get through product grounding if and only if the cut leaves a source line with a web address that was not there
  (`Corpus.GroundingLeaksIff`), and through the news filter under the same condition (`Corpus.FilterLeaksIff`); both happen
  (`Corpus.CutProductUrlIsKept`, `Corpus.CutNewsUrlStands`). (The docstring of the news filter says that it keeps four
  items; the code and the model keep ten.)
- A refresh token is meant to work once. It is accepted more than once if and only if two refreshes of it are pending at
  the same time and both write later (`RefreshTokens.TwiceIffOverlap`); and a token is accepted after its logout, or after
  a replay that should have killed it, if and only if a refresh that had already read it writes later
  (`RefreshTokens.LogoutIsFinalIff`, `RefreshTokens.ReplayKillsIff`).

## Assumptions

- Job ids, run ids, evidence ids, user ids and refresh tokens are fresh when drawn; hashes are injective.
- One repository call is one atomic step, and one that fails leaves the store unchanged.
- Rounding to two decimals is any monotone map that keeps whole hundredths; other arithmetic is exact. `round` of a
  percentage goes to the nearest whole number, ties to the even one.
- Letter case and slugs are parameters, except in `Strategist.Normalize`, where only ASCII letters can matter. White space
  is that of the first 256 characters. A line feed is the only line break.
- An answer of an agent that is no dict has no `get`.
- The source type of an evidence row is determined by its agent, as in the merge node.
- Items reused from the intel cache count as equal to the models whose dumps they are.
- No lane is named like one of the header counters, and the router events that count as attempts name their lane.

## Model

| member | source | states |
|---|---|---|
| `RepairJson.RepairJson` | app/core/llm_router.py:136-156 | rewriting the text step by step, by cutting thought, stripping fences, capping and taking the outermost braces, gives the composed repair |
| `RepairJson.UnwrapUndoesWrap` | app/core/llm_router.py:136-156 | an object wrapped in brace-free prose, with or without a closed reasoning block before it, is recovered exactly if and only if the prose leaves it room under the length cap |
| `RepairJson.NothingSurvivesUnclosedTag` | app/core/llm_router.py:136-156 | from an unclosed reasoning tag on, nothing reaches the result |
| `RepairJson.FenceGoes` | app/core/llm_router.py:152 | a code fence goes, labelled or not, and what is around it stays |
| `RepairJson.PlainTextPasses` | app/core/llm_router.py:152-156 | a plain text without braces, fences and tags passes as it is |
| `LlmRouter.KeysFor` | app/core/llm_router.py:309-327 | the loop with its seen set yields the rotation list |
| `LlmRouter.KeysInMembers` | app/core/llm_router.py:309-327 | the rotation list holds every non-empty trimmed field of the variable once, and nothing else |
| `LlmRouter.RotationOrder` | app/core/llm_router.py:309-327 | in the order of their first occurrence |
| `LlmRouter.Judge` | app/core/llm_router.py:374-457 | the branches on one answer classify it as the next four rows say |
| `LlmRouter.TroubleMovesToTheNextKey` | app/core/llm_router.py:401-415 | after a sent request, a 4xx answer gives the turn to the next key at once; a 5xx answer or a transport error is retried once with the same key, and then the next key has its turn |
| `LlmRouter.UselessMovesToTheNextLane` | app/core/llm_router.py:416-457 | a redirect, an answer without content and a text that does not parse, and trouble with the last key, give the turn to the next lane, and nothing more is sent in this one |
| `LlmRouter.ValidTextAnswers` | app/core/llm_router.py:431-432 | a text that the schema accepts once repaired ends the call with what the schema makes of it, in the name of its lane; content that is not text ends it with a crash; nothing is sent after either |
| `LlmRouter.WalkIsFlat` | app/core/llm_router.py:362-458 | the triple loop refines a flat specification: a request is sent iff no earlier sent one rules it out, in walk order, once; the outcome is that of the first valid answer, and the call is exhausted iff no sent request is valid |
| `LlmRouter.WalkIsBounded` | app/core/llm_router.py:362-370 | a call sends at most two requests per key, and charges a budget at most two per key that draws on it |
| `LlmRouter.OneBadKey` | app/core/llm_router.py:363-457 | when a key is answered with a valid text at once, and all earlier keys of its lane with nothing but 4xx, 5xx or transport errors, the call ends by this key, with its text, or in an earlier lane; it is answered unless an earlier lane sends content that is not text |
| `LlmRouter.NotTextCrashes` | app/core/llm_router.py:416-432 | any configured call crashes when its first request is answered 200 with content that is not text |
| `LlmRouter.ChosenIsNeverEmpty` | app/core/llm_router.py:348-360 | the budget filter leaves a lane whenever one is configured, and overrides the caps only if all configured lanes read as spent |
| `LlmRouter.ConfiguredAreThoseWithKeys` | app/core/llm_router.py:348 | the configured lanes are exactly those with a key, in order, each with all its keys |
| `LlmRouter.ChosenAreThoseUnderBudget` | app/core/llm_router.py:357-360 | the lanes chosen are exactly those under their budget, in order, if there are any, and else all |
| `LlmRouter.CountAllCharges` | app/core/llm_router.py:374 | the ledger of a budget grows by exactly the counted requests that were sent |
| `LlmRouter.ServeCharges` | app/core/llm_router.py:108-119 | a call charges a budget under its cap at most two per key, and a spent budget not at all while some other lane is affordable |
| `LlmRouter.BudgetIsKept` | app/core/llm_router.py:348-360 | over any run of calls with some affordable lane each, a budget ends at most at cap - 1 + 2 per key sharing it |
| `LlmRouter.Router.Incr` | app/core/counters.py:158-188 | an increment that Redis takes adds one, and one that it refuses changes nothing |
| `LlmRouter.Router.ChooseLanes` | app/core/llm_router.py:348-360 | the filter with its fallback gives the chosen lanes and leaves the ledger alone |
| `LlmRouter.Router.Complete` | app/core/llm_router.py:330-458 | the whole call returns what the walk over the chosen lanes returns, sends its requests, and charges exactly those |
| `LlmRouter.Router.Send` | app/core/llm_router.py:362-458 | the loops over lanes and keys |
| `LlmRouter.Router.TryKey` | app/core/llm_router.py:369-457 | the attempts with one key |
| `RunStore.MemStore.CreateRun` | app/db/repository.py:89-98 | adds a queued row and nothing else |
| `RunStore.MemStore.UpdateRunStatus` | app/db/repository.py:100-103 | writes the status without any guard |
| `RunStore.MemStore.FinishRun` | app/db/repository.py:115-119 | completes the row |
| `RunStore.MemStore.FailRun` | app/db/repository.py:121-124 | fails the row whatever its status |
| `RunStore.MemStore.ConfirmRun` | app/db/repository.py:180-185 | the compare-and-swap: an id comes back iff the run awaited confirmation, and it does not any more |
| `RunStore.MemStore.SaveCompetitors` | app/db/repository.py:130-134 | appends to the list of a run |
| `RunStore.MemStore.ReplaceCompetitors` | app/db/repository.py:205-208 | replaces the list of a run |
| `RunStore.MemStore.SaveReport` | app/db/repository.py:139-141 | stores the report of a run |
| `RunProtocol.ExecKeeps` | app/core/lifecycle.py:193-273 | the protocol invariant holds in every reachable state, for any number of runs and any interleaving, failures included |
| `RunProtocol.LaunchedAtMostOnce` | app/api/routes.py:104-118 | a job has at most one winner and one analysis, over all racing confirms and refreshes |
| `RunProtocol.ListIsKept` | app/api/routes.py:115-117 | from the winner's replace on, the stored list is the winner's list and the list every analysis of that run is handed, for the rest of the run |
| `RunProtocol.RunsMoveForward` | app/core/lifecycle.py:193-256 | while closing appends do not fail, statuses only move forward in the documented order, and completed or failed runs stay so |
| `RunProtocol.CompletedIsKeptIff` | app/core/lifecycle.py:219-225 | completed is never left in any execution iff discovery's closing append cannot fail |
| `RunProtocol.LateFailure` | app/core/lifecycle.py:220-224 | the execution in which it is left |
| `RunProtocol.ShownRunHasReport` | app/core/lifecycle.py:249-250 | whatever fails, a run polled with a run id has a stored report |
| `RunProtocol.LongListBlindsThePoller` | app/core/lifecycle.py:293-323 | the poll of a confirmed run fails to validate iff more than four rivals were confirmed |
| `RunContents.ReportIsTheAnswer` | app/core/lifecycle.py:249 | once an analysis has saved its report, the stored report of its run is that one, whole, for the rest of every execution |
| `RunContents.StoredReportWasAnswered` | app/core/lifecycle.py:228-250 | and every stored report was saved in this way |
| `RunContents.ShownReportWasAnswered` | app/core/lifecycle.py:249-250 | so a run that is polled with a run id has the report with which its analysis answered |
| `RunContents.ProposalIsTheList` | app/agents/discovery.py:152 | what discovery proposed is the stored list, exactly, for the rest of every execution, until a winner or a refresh carries its own |
| `RunContents.AwaitingShowsTheProposal` | app/core/lifecycle.py:293-323 | while a run awaits confirmation, the poll shows exactly the proposal, if it fits the cap of four |
| `RunContents.PollTells` | app/core/lifecycle.py:293-323 | the poll tells the status of the row, its list, and its run id exactly when it is completed |
| `Handlers.StartDiscovery` | app/core/lifecycle.py:193-224 | with any call failing, the function comes to the end to which its protocol task comes when it runs alone; the proposal is added to the list as it is iff the calls up to the save succeed; the run awaits confirmation, or is failed, by which calls fail; nothing else changes |
| `Handlers.StartAnalysis` | app/core/lifecycle.py:228-273 | the same for phase 2; the report is stored as it is iff the calls up to the save succeed; the run is completed iff they all do, and failed if one fails inside the try and the rescue does not |
| `Handlers.ConfirmRoute` | app/api/routes.py:104-118 | the same for confirm; it accepts iff it schedules, then exactly one analysis of the caller's list on the run it confirmed, whose stored list is now that one; undisturbed, it accepts iff the run awaited confirmation and could be polled, and tells a missing run from a refused one |
| `Handlers.RefreshRoute` | app/api/companies_routes.py:56-84 | the same for refresh; an unknown company is not found, one without a completed run that has rivals is refused, neither changes anything; otherwise it accepts iff both writes succeed, and then schedules the new run with the rivals of the latest completed one |
| `Handlers.LatestIsFirst` | app/db/repository.py:650-664 | the run refreshed is the first completed run of the company by finish time, and there is none only if no run of it is completed |
| `Handlers.RefreshedListIsTheStored` | app/api/companies_routes.py:75 | and its stored list is taken over whole |
| `Handlers.Poll` | app/core/lifecycle.py:293-323 | reads the poll shape off the store |
| `Handlers.AloneIsAnExecution` | app/core/lifecycle.py:193-273 | an uninterrupted task is one of the executions of the protocol, so every invariant above holds of it |
| `RunMetrics.Emitter.Count` | app/core/lifecycle.py:125-140 | the locked section of an emit counts an attempt in all and for its lane, or resets the search or graph figures |
| `RunMetrics.Emitter.Gate` | app/core/lifecycle.py:110-114 | the throttle lets a snapshot through iff 1.5 s have passed since the last one, and notes the time |
| `RunMetrics.CountersAddUp` | app/core/lifecycle.py:91-144 | over both phases and any interleaving, attempts equal the sum of the lanes in memory and in the row, the row is never ahead, writes pass at least 1.5 s apart, and no attempt is lost but by a failed final flush |
| `RunMetrics.NeverDecreases` | app/core/lifecycle.py:125-140 | no counter decreases within a phase |
| `RunMetrics.TotalsAreExact` | app/core/lifecycle.py:91-144 | over all phases of a run whose final flushes succeed, and any interleaving, the memory ends with exactly the attempts emitted, summed over the lanes |
| `RunMetrics.FiguresAreTold` | app/core/lifecycle.py:125-140 | each lane has exactly the attempts that named it, and the graph figures are those that were told last |
| `RunMetrics.TotalsAreHandedOn` | app/core/lifecycle.py:147-153 | after a successful final flush the row holds the memory and the next phase starts from it |
| `RunMetrics.LossIff` | app/core/lifecycle.py:95-99 | a restart loses attempts iff the row is behind, and exactly the difference |
| `RunMetrics.RowMayFallBack` | app/core/lifecycle.py:115-118 | in mid-run the row can fall back, as writes leave the lock before they land |
| `Orchestrator.Validated` | app/core/orchestrator.py:83-105 | keeps exactly what validates, in order, and writes one event for each item or value dropped |
| `Orchestrator.InstancesAreKept` | app/core/orchestrator.py:93-100 | a list of instances of the contract model is kept as it is |
| `Orchestrator.KeptOrDropped` | app/core/orchestrator.py:93-100 | every item is kept or costs one event |
| `Orchestrator.ApplySpec` | app/core/orchestrator.py:117-139 | key by key: pass through, collect findings, or validate and substitute |
| `Orchestrator.KeptIff` | app/core/orchestrator.py:95-102 | an item is kept iff some item of the list validates to it, so a malformed item costs itself only |
| `Orchestrator.KeptOneByOne` | app/core/orchestrator.py:93-100 | and the items are checked one by one, in order |
| `Orchestrator.ComplaintsIff` | app/core/orchestrator.py:88-105 | checking writes one event for each item dropped, or one for a value that does not validate |
| `Orchestrator.EntriesPass` | app/core/orchestrator.py:125-136 | each entry of an answer but the findings appears once with its outcome: unknown keys untouched, contract keys validated or typed-empty; no other key appears |
| `Orchestrator.FindingsIff` | app/core/orchestrator.py:125-139 | the findings of an answer are exactly the texts that the agent lists and one for each contract key whose value does not validate |
| `Orchestrator.FailureIsContained` | app/core/orchestrator.py:108-114 | an agent that raises or answers with no dict costs exactly its own keys, typed-empty, and one finding |
| `Orchestrator.SubstitutesAreEmpty` | app/core/orchestrator.py:72-80 | the substitute is an empty list, empty unified signals, or no report |
| `Orchestrator.GuardedFits` | app/core/orchestrator.py:142-164 | whatever an agent does, each contract key of its delta holds a value of the contract type or its typed-empty substitute |
| `Orchestrator.PassesIff` | app/core/orchestrator.py:167-184 | the gate passes exactly reports whose stripped summary is non-empty, contains no fence, does not look like JSON, and whose date is set |
| `Orchestrator.GateDecides` | app/core/orchestrator.py:187-218 | the strategist runs again iff the report has a problem, and nothing changes but the report and one finding |
| `Orchestrator.GateTakesIff` | app/core/orchestrator.py:200-212 | the gate takes a report from the retry iff the first one has a problem and the retry answers, under the report key, with a report, or what validates to one, that passes; it is this one |
| `Orchestrator.NodeRaisesIff` | app/core/orchestrator.py:149-164 | which events of a boundary, if refused, make the node raise |
| `Orchestrator.GateRaisesIff` | app/core/orchestrator.py:193-218 | and which events of the gate |
| `Orchestrator.GateSettles` | app/core/orchestrator.py:187-218 | what the gate writes always goes through and settles the run |
| `Orchestrator.AnalysisSettles` | app/core/orchestrator.py:391-404 | for every agent behaviour and event sink, phase 2 makes at most two strategist calls and ends with a report that passes the gate or none plus a finding; an exception escapes iff the caller's findings cannot be iterated, or the graph breaks and the handler's own event is refused |
| `Orchestrator.AnalysisEscapesIff` | app/core/orchestrator.py:142-218 | with agents that answer with their own keys, and lists in the lanes, an exception escapes iff an event of a boundary or of the gate is refused, and the handler's event too |
| `Orchestrator.AnalysisReportsTheAnswer` | app/core/orchestrator.py:357-404 | with wired agents and no event refused, a first answer of the strategist that passes is the report of the run, after one call; if it has a problem, a second one that passes is, after two; and a report with which a run ends is one of these |
| `Orchestrator.BrokenKeepsTheInput` | app/core/orchestrator.py:400-404 | a run whose graph broke ends with what the caller handed in, no report, and one more finding |
| `Orchestrator.SeededIff` | app/core/orchestrator.py:394-396 | seeding adds the lanes that the caller left out, and changes nothing |
| `Orchestrator.PipelineSettles` | app/core/orchestrator.py:317-333 | the same for the one-shot pipeline, idea pre-step and discovery included |
| `Orchestrator.PipelineEscapesIff` | app/core/orchestrator.py:303-333 | and its exact condition, where the events of the pre-step and of discovery count too |
| `Orchestrator.PipelineReportsTheAnswer` | app/core/orchestrator.py:317-328 | the report of the one-shot pipeline is the answer of its strategist in the same way |
| `Orchestrator.ResolvedIff` | app/core/orchestrator.py:303-326 | the idea pre-step runs iff there is an idea and no company, and gives both company and domain |
| `Orchestrator.DeadStoreEscapes` | app/core/lifecycle.py:120-124 | when the store refuses every event, an exception escapes from every run |
| `Orchestrator.BranchesAreConfluent` | app/core/orchestrator.py:43-48 | folding the branch deltas in any order gives the same outcome, the same value for every channel but the findings, and the same findings as a multiset |
| `Orchestrator.OrderIsInvisible` | app/core/orchestrator.py:357-373 | whatever the order of the branches, merge and strategist get the same input, the strategist runs equally often, and the run ends alike but for the order of its findings, if neither node reads the findings lane |
| `Orchestrator.TwoWritersBreak` | app/core/orchestrator.py:43-48 | two branches that write the same plain key break the superstep |
| `Orchestrator.LanesHoldTheValidItems` | app/core/orchestrator.py:266-290 | with gathering nodes the superstep always goes through, in any order: each lane grows by exactly the valid items of its own branch, in order, and no plain key changes |
| `Merge.MergeNode.constructor` | app/core/merge.py:68-73 | starts from the empty graph |
| `Merge.MergeNode.Bucket` | app/core/merge.py:75-80 | creates a rollup once and hands it out |
| `Merge.MergeNode.AddEvidence` | app/core/merge.py:82-112 | draws an id, indexes the row and cites it in the rollup of its rival, or drops it with a finding |
| `Merge.MergeNode.Raise` | app/core/merge.py:114-126 | appends a signal, or drops it with a finding |
| `Merge.MergeNode.MergeNews` | app/core/merge.py:129-144 | the news loop plays the news part of the script |
| `Merge.MergeNode.MergeProducts` | app/core/merge.py:147-168 | the product loop plays the product part |
| `Merge.MergeNode.MergeReviews` | app/core/merge.py:171-191 | the review loop plays the review part |
| `Merge.MergeNode.Merge` | app/core/merge.py:66-203 | the node builds the merged graph, hands on rollups and index, and emits the sizes of its parts |
| `MergeProofs.EvidenceIsConsistent` | app/core/merge.py:82-126 | the index holds exactly the rows of the inputs in order under the ids as drawn; each rollup cites exactly its rival's rows; the signals read in order cite exactly the index, from the agent and for the rival of each row |
| `MergeProofs.EachIdOnce` | app/core/merge.py:111-122 | every id occurs once over all rollups, in its own rival's, and once over all signals, and no other id occurs anywhere |
| `MergeProofs.GraphTellsTheInputs` | app/core/merge.py:129-191 | the index lists exactly the URLs of the well-formed inputs, in order, each with its agent, rival and date and with its text (event and impact, the first two tiers or the positioning, the first two complaints) cut at 280 characters; and there is one signal for each news item, product record and review record, in order, with its own payload |
| `MergeProofs.FindingsTellTheInputs` | app/core/merge.py:129-176 | the findings are exactly one for each input that does not parse and one for each that is marked low signal or is a news record without items, in order |
| `MergeProofs.RowsAreFormed` | app/core/merge.py:82-92 | every row carries the claim of its agent and rival, the source named after its URL, and a snippet within 280 characters, so none is rejected for its snippet |
| `MergeProofs.RollupsTellTheInputs` | app/core/merge.py:129-191 | every list of a rollup is the concatenation of that field over the well-formed items of its rival, and the sentiment is the last review's |
| `MergeProofs.RollupsAreTheRivals` | app/core/merge.py:75-80 | a rival has a rollup iff some news item, product record or review record names it |
| `MergeProofs.NoRollupIsLostIff` | app/core/merge.py:197 | all rollups are handed on iff no rival is named like the index key |
| `MergeProofs.NothingIsCitedWithoutRunId` | app/core/merge.py:86-121 | a run id that is no text costs all rows and signals, one finding each, but no rollup content |
| `MergeProofs.IdsAreNames` | app/core/merge.py:50-51 | other fresh ids give the same graph with its ids renamed |
| `Confidence.InRange` | app/core/confidence.py:43-53 | for any counts, negative ones too, the number fits the range of the report model |
| `Confidence.FallsIffInflated` | app/core/confidence.py:47-53 | larger counts can give less iff one source is shared by two to four agreeing rows with few enough agents |
| `Confidence.CollapsesIff` | app/core/confidence.py:47-53 | rows counted one by one as sources lose by being counted as fewer, iff there are two, or more with a small enough cluster |
| `Confidence.Milestones` | app/core/confidence.py:43-53 | with no more agreeing rows than sources: 0.25 without any, at least 0.62 with one, 0.95 from five on |
| `Confidence.HalfUpIsRounding` | app/core/confidence.py:53 | a concrete rounding meets the assumption |
| `Strategist.Search` | app/agents/strategist.py:272 | the pattern search yields the leftmost id token, or none exists |
| `Strategist.Normalize` | app/agents/strategist.py:288-299 | yields only ids of the index: the string itself if it is one, else a token found inside it |
| `Strategist.NoiseIsRemoved` | app/agents/strategist.py:288-299 | a real id in any letter case, wrapped in noise without an e before it, is recovered |
| `Strategist.CleanIds` | app/agents/strategist.py:318-323 | the id loop of the clean-up |
| `Strategist.KnownIsReal` | app/agents/strategist.py:318-323 | only real ids survive, each once |
| `Strategist.KnownWasCited` | app/agents/strategist.py:318-323 | every survivor comes from a cited string |
| `Strategist.RealIsKept` | app/agents/strategist.py:318-323 | no resolvable citation is lost |
| `Strategist.CleaningTwice` | app/agents/strategist.py:302-333 | cleaning is idempotent |
| `Strategist.CleanCited` | app/agents/strategist.py:302-333 | every item is kept in place, its citations cleaned, and its confidence recomputed iff it has one, even when the list holds an object twice |
| `Strategist.Recommendations` | app/agents/strategist.py:120-129 | the report gets the first three, or all if there are fewer, each with distinct real ids, the number those are worth, in range, so the strict model never rejects them |
| `Strategist.DistinctSourcesScore` | app/agents/strategist.py:355-363 | for cited rows with distinct URLs the number is 0.25, at least 0.62, or 0.95 for none, one or more, five or more |
| `Strategist.DistinctSourcesNeverLower` | app/agents/strategist.py:355-363 | citing any superset of rows with distinct URLs never lowers the number |
| `Strategist.CitingMore` | app/agents/strategist.py:355-363 | nor does citing any superset of rows whose counts do not fall |
| `Strategist.CanFallIff` | app/agents/strategist.py:355-363 | for any cited rows, some superset in some larger graph is worth less iff their counts fall: inflated if some row has a URL, collapsing if none has |
| `Strategist.MissingUrlsCanFall` | app/agents/strategist.py:359 | three rows without URLs lose at least 0.14 when one row with a URL joins them |
| `Stats.Breakdown` | app/core/stats.py:181-186 | the donut counts each kind exactly, has all canonical slices, and adds up to the evidence |
| `Stats.KindsAreCounted` | app/core/stats.py:41-45 | a row that names no kind counts as web |
| `Stats.PerCompetitor` | app/core/stats.py:188-194 | the rows of each rival, adding up to the rows that belong to a confirmed one |
| `Stats.OwnerIff` | app/core/stats.py:50-62 | a row belongs to the rival that it names, and only a row that names none to the first whose slug or name ends its claim reference |
| `Stats.CountedIff` | app/core/stats.py:188-194 | it is counted for the confirmed name that its rival folds to, and for nobody if there is none |
| `Stats.LowerMap` | app/core/stats.py:189 | a folded name stands for the last confirmed name that folds to it |
| `Stats.ClaimSourceSets` | app/core/stats.py:137-144 | groups exactly the distinct sources behind each non-empty claim |
| `Stats.RoundQuotient` | app/core/stats.py:156 | the rounded quotient is within one half, ties going to even |
| `Stats.CorroborationNeedsSources` | app/core/stats.py:137-144 | a corroborated claim needs a named source |
| `Stats.Corroboration` | app/core/stats.py:147-156 | no rate iff no claims; otherwise within one half of the exact percentage and at most 100; corroborated and uncorroborated claims add up |
| `Stats.CorroboratedIff` | app/core/stats.py:147-156 | a claim is corroborated iff two of its rows name different sources |
| `Stats.Tally` | app/core/stats.py:96-97 | counts each non-empty value exactly |
| `Stats.SentimentBuckets` | app/core/stats.py:108-118 | three buckets, each with exactly the rivals of its label |
| `Stats.MinAgeDays` | app/core/stats.py:81-93 | the least age of a dated row not in the future, absent iff there is none |
| `Stats.AverageIsTheMean` | app/core/stats.py:209 | the average lies between the whole hundredths between which the exact mean lies |
| `Stats.TotalAddsUp` | app/core/stats.py:209 | the mean is of a total that adds up every number once |
| `Stats.AverageInRange` | app/core/stats.py:209 | so it stays in the range of the report model |
| `Stats.ComputeStats` | app/core/stats.py:165-214 | all figures of the block together, on arbitrary rows |
| `StatsProofs.ReportStats` | app/agents/strategist.py:46-55 | on a merged graph with non-empty rival names every sum reconciles, no more rivals complain than were analyzed, and a rival's figure is the number of ids its rollup cites when no names differ in letter case only |
| `StatsProofs.MergedIsAboutRivals` | app/core/merge.py:111-122 | every indexed row and every signal is about a rival that has a rollup |
| `StatsProofs.ComplaintsFitIff` | app/core/stats.py:100-105 | for distinct non-empty names, the complaining rivals fit for all signals iff every name that folds to a confirmed one is confirmed |
| `StatsProofs.ComplaintsExceed` | app/core/stats.py:100-105 | and otherwise some signals make them exceed the rivals by one |
| `Cache.TwoTier.Get` | app/core/cache.py:66-99 | hot tier, then fresh Postgres row, then miss |
| `Cache.TwoTier.Put` | app/core/cache.py:102-133 | writes whichever tiers take it |
| `Cache.ReadYieldsLast` | app/core/cache.py:66-133 | after any history of writes, failures, expiry, flushes and ageing, a read yields a miss or the last value that reached the tier that answers |
| `Cache.LastSetOrMiss` | app/core/cache.py:102-133 | if the last write reached both tiers, a read yields its value or a miss |
| `Cache.AgedIsMissed` | app/db/repository.py:748-759 | staleness is bounded: after seven days without a write that reached Postgres, a read that the hot tier does not answer is a miss |
| `Cache.FreshIsServed` | app/db/repository.py:748-759 | and a value that reached Postgres less than seven days ago, and was not overwritten there, is read when the hot tier does not answer |
| `Cache.HotIsServed` | app/core/cache.py:66-84 | a value that reached the hot tier, and that it has kept, is read first |
| `Cache.StaleIff` | app/core/cache.py:116-133 | a partly failed write can be followed by a stale read iff the tier that it missed still serves another value |
| `SearchChain.Chain.Search` | app/core/search_chain.py:91-135 | cache, Tavily, Serper, scrape, nothing: the first provider with rows wins, and only rows are cached |
| `SearchChain.MockIsCanned` | app/core/search_chain.py:110-115 | in mock mode the canned rows are returned |
| `SearchChain.Chain.SearchAll` | app/core/search_chain.py:138-160 | searches run one after the other, in whatever order the pool takes them: results come back in query order, and a raising search gives nothing |
| `SearchChain.AskedAreNonBlank` | app/core/search_chain.py:145 | the queries asked are those that are not blank, in order |
| `SearchChain.FlatInOrder` | app/core/search_chain.py:156-160 | the rows of each query stand together, right behind those of the queries before it |
| `SearchChain.OverlappedRowsAreGiven` | app/core/search_chain.py:138-160 | however the reads, provider calls and writes of a batch overlap, every row returned was given by a provider for the same key, in this batch or before |
| `SearchChain.OverlapIsInvisible` | app/core/search_chain.py:138-160 | as long as the providers answer by key and the cache holds what they say, any overlap ends with the rows that the searches give one by one, in query order |
| `SearchChain.RowsComeFromProviders` | app/core/search_chain.py:100-135 | after any history, returned rows are rows that a provider gave for the same normalised query, an empty result leaves the cache alone, and hits and searches count the calls |
| `SearchChain.BatchComesFromProviders` | app/core/search_chain.py:138-160 | every row of a batch comes from a provider for one of its queries |
| `SearchChain.FoundAgain` | app/core/search_chain.py:102-106 | what was found is found again without a provider, under any spelling with the same key, if the first tier to answer is one that the write reached; otherwise the next search yields an older value or asks |
| `IntelCache.GatherNode.Gather` | app/core/intel_cache.py:53-88 | the read loop, the one agent run, the zip and the assembly |
| `IntelCache.TransparentIffNormal` | app/core/intel_cache.py:30-46 | over any history of calls, evictions and errors, a call yields what the agent alone would, iff the agent tells the same of names that share a key |
| `IntelCache.AgentRunsOnMisses` | app/core/intel_cache.py:64-74 | the agent runs only for names whose read missed, and not at all if none did |
| `IntelCache.ShortReturnsDrop` | app/core/intel_cache.py:74-88 | as long as each item that the zip pairs is the one of its name, missing items drop their rivals, items beyond the names are ignored, no rival gets the item of another, and the cache still agrees |
| `IntelCache.AgreesIffAligned` | app/core/intel_cache.py:79-81 | for names with distinct keys the cache agrees after a call iff the answer is aligned in this way |
| `IntelCache.GapMismatches` | app/core/intel_cache.py:79-81 | when an earlier item is missing, the next one is filed under its rival |
| `Corpus.NewsCorpus` | app/agents/news.py:106-116 | the loop prints the blocks of all rows and cuts at the cap; when they fit, the parser finds exactly the row URLs and the hidden lines, and when they do not, the URLs of all rows that lie within the cap |
| `Corpus.ProductCorpus` | app/agents/product.py:129-139 | the loop prints the first row of each URL and cuts at the cap; the parser finds the same of it |
| `Corpus.NewsParsed` | app/core/grounding.py:13-17 | parsing an uncut news corpus recovers exactly the non-empty URLs of its rows and the source lines hidden in their texts |
| `Corpus.NewsRoundTripIff` | app/core/grounding.py:13-17 | so the round trip is exact iff no text hides a source line for anything else |
| `Corpus.ProductParsed` | app/agents/product.py:129-139 | parsing an uncut product corpus recovers the URLs of all rows, skipped ones included, and the lines hidden in those printed |
| `Corpus.ProductRoundTripIff` | app/agents/product.py:129-139 | so the round trip is exact iff nothing else is hidden there |
| `Corpus.ReviewCorpus` | app/agents/review.py:197-209 | the loop prints every row that says something and cuts at the cap; the parser finds the same of it |
| `Corpus.ReviewParsed` | app/agents/review.py:197-209 | parsing an uncut review corpus recovers the URLs of the rows that say something and the lines hidden in them |
| `Corpus.CutAddsAtMostOne` | app/agents/news.py:116 | a cut anywhere adds at most the stump of its last line, a prefix of a URL that was there |
| `Corpus.CutIsHarmlessIff` | app/agents/news.py:116 | it adds nothing iff its last line is no source line, or one whose URL was there |
| `Corpus.WholeLineIsFound` | app/core/grounding.py:13-17 | a source line that lies wholly within the cap is found, wherever the cut is |
| `Corpus.GroundSources` | app/core/grounding.py:20-32 | the loop with its seen set keeps the first occurrences of the sources allowed |
| `Corpus.GroundedIff` | app/core/grounding.py:20-32 | a source is kept iff it is a web address, the parser found it, and the model named it; each once |
| `Corpus.PostFilter` | app/agents/news.py:150-173 | the loop keeps the standing items and caps after validation |
| `Corpus.StandingIsGrounded` | app/agents/news.py:150-173 | every standing item has a corpus URL and a blank or well-formed date, no event occurs twice, and none that stands is missing |
| `Corpus.StandingAreCleaned` | app/agents/news.py:150-173 | the standing items are the cleaned forms of input items, in order, each the first of its event that stands |
| `Corpus.CleanedKeeps` | app/agents/news.py:150-173 | cleaning strips the URL and keeps a well-formed date |
| `Corpus.FilterLeaksIff` | app/agents/news.py:69-76 | on a cut news corpus an item with an unknown URL can stand iff the stump is an unknown web address and some event has a key |
| `Corpus.GroundingLeaksIff` | app/agents/product.py:105 | on a cut product corpus an unknown URL can be kept iff the stump is an unknown web address |
| `Corpus.NewsComesFromRows` | app/agents/news.py:69-76 | end to end in the news agent: what stands carries the URL of a row, one hidden in a row, or the stump of one |
| `Corpus.ProductsComeFromRows` | app/agents/product.py:105 | end to end in the product agent: so does every source kept |
| `Corpus.ReviewsComeFromRows` | app/agents/review.py:239 | and in the review agent |
| `Corpus.NewsOfRowsStands` | app/agents/news.py:69-76 | nothing good is lost: the event of an item that carries the web address of a row within the cap stands |
| `Corpus.SourcesOfRowsAreKept` | app/agents/product.py:105 | and every source that names such an address is kept, in the product agent and in the review agent |
| `Corpus.CutNewsUrlStands` | app/agents/news.py:116 | the exception happens in the news agent |
| `Corpus.CutProductUrlIsKept` | app/agents/product.py:129-139 | and in the product agent |
| `RefreshTokens.Auth.SignupHandler` | app/api/auth_routes.py:49-59 | one user and one token, or a conflict |
| `RefreshTokens.Auth.LoginHandler` | app/api/auth_routes.py:64-72 | one token, or a denial |
| `RefreshTokens.Auth.RefreshHandler` | app/api/auth_routes.py:77-95 | unknown, reused, expired or rotated, with the effect of each on the table as the next rows say |
| `RefreshTokens.RefusalsIff` | app/api/auth_routes.py:79-92 | when a refresh is refused as unknown, reused or expired, and what that changes |
| `RefreshTokens.IssuedIff` | app/api/auth_routes.py:49-95 | a request is answered with a token iff it shows a new account, the right password, or an unrevoked and unexpired token of an existing user; the token is then live, for that user and until its own expiry |
| `RefreshTokens.LoginIff` | app/api/auth_routes.py:64-72 | a wrong password or an unknown email changes nothing |
| `RefreshTokens.EveryTokenWasEarned` | app/api/auth_routes.py:49-95 | over any history, every token in the table was earned in this way, by the user and until the time that its record says |
| `RefreshTokens.ExpiredIsRefused` | app/api/auth_routes.py:87-88 | over any history, a refresh at or after the expiry with which its token was issued issues nothing and, unless the token is revoked, changes nothing |
| `RefreshTokens.LiveIsAccepted` | app/api/auth_routes.py:90-95 | and one before it, of a token that is not revoked, rotates it |
| `RefreshTokens.RevokesIff` | app/api/auth_routes.py:82-102 | a request revokes a live token iff it is its accepted refresh, its logout, or the replay of a revoked token of its user |
| `RefreshTokens.WorksUntilRevoked` | app/api/auth_routes.py:75-102 | so a token works until it expires, unless one of these happens |
| `RefreshTokens.Auth.LogoutHandler` | app/api/auth_routes.py:99-102 | revokes the token if there is one |
| `RefreshTokens.AcceptedAtMostOnce` | app/api/auth_routes.py:75-95 | over any history each token is accepted at most once, and a user's live tokens never outnumber signups and logins |
| `RefreshTokens.ReplayKillsTheFamily` | app/api/auth_routes.py:82-86 | after a replay of a revoked token nothing issued earlier to its user is ever accepted again |
| `RefreshTokens.RevokedIsDead` | app/core/refresh_store.py:41-45 | a revoked token is never accepted again |
| `RefreshTokens.LogoutIsFinal` | app/api/auth_routes.py:98-102 | nor is a token after its logout |
| `RefreshTokens.TwiceIffOverlap` | app/api/auth_routes.py:77-95 | with the read and the writes of a refresh as separate steps, in any interleaving a token is accepted more than once iff two refreshes of it are pending at the same time and both write later |
| `RefreshTokens.OnceWithoutOverlap` | app/api/auth_routes.py:77-95 | so a token of which no two refreshes are ever pending at once is accepted at most once, whatever happens to other tokens |
| `RefreshTokens.RevokedAcceptedIff` | app/core/refresh_store.py:41-45 | a revoked token is accepted again iff a refresh of it is pending when it is revoked and writes later |
| `RefreshTokens.LogoutIsFinalIff` | app/api/auth_routes.py:98-102 | so a logout is final iff no such refresh is pending |
| `RefreshTokens.ReplayKillsIff` | app/api/auth_routes.py:82-86 | and a detected replay kills an earlier token of its user iff no such refresh of that token is pending |
| `RefreshTokens.BoundWithoutOverlap` | app/api/auth_routes.py:75-95 | while no two refreshes of one token are pending at once, live tokens never outnumber signups and logins |
| `RefreshTokens.AcceptedWasUnexpired` | app/api/auth_routes.py:77-95 | in any interleaving, every acceptance of a token was decided by a read before its expiry |
| `RefreshTokens.OverlapAcceptsTwice` | app/api/auth_routes.py:77-95 | from the start: a signup and two overlapping refreshes, both accepted, leave two live tokens for one grant |
| `RefreshTokens.LogoutMayComeLate` | app/api/auth_routes.py:98-102 | from the start: a token accepted after its logout |

## Left out

- Router: sleeps, the text of the last error, mock mode, exceptions of the HTTP client that it does not declare, and an
  event sink that raises inside the call, which makes the agent raise.
- Lifecycle: the event texts, the text of the shell that stands in for a missing report, the optional report scoring, the company name that idea mode resolves, and the run listing.
- `Handlers.RefreshRoute`: the order of runs by finish time is a parameter, as rows carry no times.
- Run store: the SQL bodies beside the in-memory store, users of runs, the event list, evidence and signals by run.
- Orchestrator: event texts, and the graph library beyond its superstep rule. The discovery-only entry point adds nothing
  to what the one-shot pipeline shows.
- Merge: persisting rows and signals, whose failures are swallowed, and the order of rivals in the rollup dict.
- Strategist: scrubbing ids from prose (a pass that can leave a new id behind), sentiment and head-to-head matching, the
  verdict text, the prompt.
- Cache: the connection set-up, exact expiry times (the hot tier may lose an entry at any moment), and errors of the client
  library that are not its own.
- `Cache.ReadYieldsLast`: assumes that only this module writes the tiers.
- `SearchChain.OverlapIsInvisible`: the counters of hits and searches, which overlapping searches may miss.
- Search: what a provider does inside, key rotation there, the choice of the domain to scrape, and intel keys, which share
  the cache but cannot be the hash of an ordinary query.
- Intel cache: an agent that raises, which the node boundary turns into a degraded lane.
- Corpus: the searches, the prompts, the thin-corpus threshold, and line breaks other than a line feed.
- Tokens: in the split model, the read that finds a replay revokes the family in the same step, the two writes of a refresh
  are one step, and so are signup and login; passwords, access tokens, rate limits, and deletion of users.
