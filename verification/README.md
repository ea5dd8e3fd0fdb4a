# Broker verification

The broker lends transient VM workers to client sessions and moves their results back to a
host git tree. This project models its protocols in Dafny and proves what they keep over every
run, every crash and every interleaving at an `await`.

Code between two `await`s is one step. An awaited effect happens when the call returns, except
that a bundle fetch and a ref deletion are steps of their own. Runs are sequences of steps chosen
freely, so a lemma about a run covers every order of client calls, timers, sweeps, crashes and
socket events.

## Layout

| files | what they model |
|---|---|
| `Policy`, `SessionStates` | the resource budget and admission; the session state graph |
| `WorkerPool`, `PoolInvariants`, `PoolSteps`, `PoolTheorems`, `PoolTightness` | the pool, the FIFO queue, the drain and release, as a transition system with its invariant |
| `BrokerContext` | the same operations as a class over mutable fields, proved equal to the transition system |
| `GitCommit`, `GitCommitTheorems` | the commit operation step by step, with its persisted intent and recovery |
| `ByteLines`, `Framing`, `SocketWrites`, `Delivery` | newline framing, the write queue, and both directions end to end |
| `Text`, `PlanHeadings`, `PlanGates`, `PlanWrites` | plan documents: heading scanner, verdict log, rewrites |
| `PlanGrowth`, `PlanAppends`, `PlanStripping`, `PlanEntries`, `PlanTicks`, `PlanMarks` | documents that grow at their end, insertions, stripped ends, and task marks |
| `PlanEnds`, `PlanHistory`, `PlanQuiet`, `PlanFiles` | runs of writes, verdicts and marks, what they record, and the file |
| `Globs`, `GitConfig`, `ReviewSlices` | glob compilation, the git configuration parser, diff splitting and packing |
| `ReviewRuns`, `ReviewPruning` | the review-run store under crashes, and its pruning |
| `Advisories` | advisory requests, claims, responses, evidence and host rotation |
| `ArtifactGc`, `ArtifactHistory`, `ArtifactRefs`, `ArtifactRemovals`, `ArtifactContents` | transport bundles, result refs, and the removals gated on them, await by await |
| `ArtifactDiscards`, `ArtifactLosses` | what interrupted discards, stale probes and failed exports lose |
| `ArtifactSweep` | one artifact sweep over the state directory, file by file |

Where the source updates state in place, a class or a method with a loop does so too, and its
contract equates the result with a function of the old state; the laws are proved about that
function. `dafny verify dfyconfig.toml` checks everything.

## What the proofs found

Statements that the source or its documentation suggests, and that the code does not meet as they
stand. Each has its exact condition or a concrete run below.

- The pool may hold more workers than `maxWorkers`: direct creations are not counted while they
  are in flight. The bound is `maxWorkers` plus the peak overlap, and every peak attains it as soon
  as there is room for two workers. A pool of one worker stays within the peak
  (`CommittedWorkersBound`, `BoundIsAttained`, `OneWorkerBound`).
- The framer retains 512 bytes of a discarded line, so with a cap of 511 it can hold one byte more
  than the cap; below 511 the recovered id depends on the chunking (`RetainedBytes`, `RefinementNeedsCap`).
- The commit recovery reads HEAD three times with awaits between. Its two checks say that the
  recorded commit carries the result exactly when all three reads saw the same HEAD: if it moves
  before the second read or before the third, a commit without the result can be recorded
  (`RecoveryNeedsStillHead`). From RETAINED no retry converges, and a commit that would change
  nothing fails (`RetryConverges`).
- A body that leaves a fence open hides the revisions that are written after it: the next revision
  reads back as 0 exactly then, whatever fences the replaced body had, as long as the revision
  entries and the carried log close no fence, which every run of writes, verdicts and marks keeps
  (`RevisionNeedsClosedBody`, `FirstOpenBodyLosesRevision`). Under a fence that is open already
  verdicts of a new log cannot be read (`AppendThenRead`), a mark that has to start the revisions is
  not counted or is refused (`EveryMarkAdvances`, `HiddenTicksAreRefused`), and a verdict for a plan item named like a revision number can
  advance the revision (`VerdictKeepsRevision`, `VerdictReadsAsEntry`). An insertion that leaves a
  fence open hides the heading behind it (`AppendKeepsOutline`).
- An agent name with white space makes a verdict line unreadable, unless the rest of the name
  passes for evidence or a refinement (`SpacedAgentIsLost`). The count of verdicts that recording
  one reports is 0 when the line holds the title of the log, or the document writes the title with
  other spaces (`GateCountAfter`).
- A tick section is put after the verdict log, which must be the final section. So after the first
  mark no verdict can be recorded in a document that has a log, and the next rewrite of it drops
  every verdict (`EveryMarkClosesLog`, `RewriteAfterEveryMark`). A mark that has to start the
  revisions puts them behind the ticks, which must be final too, so every later mark is refused
  (`EverySecondMarkIsRefused`).
- Publishing a listed artifact name again with other bytes leaves a record that does not describe
  its file, because the old entry stays listed. No crash is needed for that (`CompletedConsistency`);
  a crash leaves it from the moment the new file is in place (`CrashConsistency`).
- A crash between the reservation of evidence and its rename leaves a reservation that refuses
  evidence for the request for good (`LeftReservationBlocks`).
- The garbage collection gate proves that some host result ref resolves, not that the ref holds the
  result being removed. After a failed re-import, keeping the session removes the only copy of the
  newer export (`RemovedResultSurvives`, `NewerExportIsLost`). And the ref need not be there any
  more when the file goes: it resolves exactly when every deletion since the probe, or the fetch,
  that the removal rests on has been followed by a fetch (`RemovalIsGated`). For every session there
  is a run from the first start on in which it does not, and file and ref are both lost: while a
  discard waits for git, a commit by another session retains the session, and the wait outlasts the
  grace period; a sweep probes the ref, the discard deletes it, and the sweep removes the file
  (`StaleProbeFromStart`).
- A discard is not atomic, and a commit by another session is not held up by its lock. It leaves a
  session with a result and no ref exactly when a commit retains the session before the discard
  moves the state and no export fetches the result again (`DiscardLosesResult`). When the broker
  dies after the ref is deleted it always does, unless the result is fetched again
  (`CrashedDiscardLosesResult`).

## Model

| member | source | states |
|---|---|---|
| Policy.BudgetIsConsistent | broker/src/policy.ts:69-104 | for every positive configuration the computed worker count fits both aggregate caps, so the three caps never contradict each other |
| Policy.AdmissionIsCounting | broker/src/policy.ts:122-166 | in a pool of per-worker-sized allocations a worker is admitted exactly while the count is below the maximum, and every refusal is queueable |
| Policy.AdmissionKeepsPoolFitting | broker/src/policy.ts:122-166 | any request into any pool is allowed exactly when it is positive, within the per-worker size, and the pool with it still fits the budget |
| Policy.QueueableMeansTransient | broker/src/policy.ts:106-166 | a refusal is marked queueable exactly when the empty pool would admit the same request |
| Policy.CountedPoolFitsCaps | broker/src/policy.ts:140-157 | a pool within the worker count is within both aggregate caps |
| Policy.OccupiedPoolLeavesReserve | broker/src/policy.ts:69-104 | an occupied pool always leaves the memory reserve, and leaves the CPU reserve exactly when the host has more CPUs than the reserve |
| Policy.ComputedBudgetAdmission | broker/src/policy.ts:69-166 | budget and admission together: on a computed budget, admission is exactly counting, without further conditions |
| SessionStates.AbsorbingStates | broker/src/state.ts:43-56 | REJECTED and FAILED_CLOSED are absorbing in the legal graph, and no other state is |
| SessionStates.ResultIsLeftOnlyDeliberately | broker/src/state.ts:43-56 | a path from RESULT_READY stays among the states that keep a result until it enters a rejection, a failure or a new creation |
| PoolSteps.StepKeeps | broker/src/service.ts:395-704 | every step (request, timeout, disconnect, push, failure, finish, release, transition) keeps the whole invariant: queue order, one settlement, one builder, agreement of pool and records, the bound, and that nobody waits while there is room |
| PoolSteps.RunKeeps | broker/src/service.ts:395-704 | that invariant holds at every point of every run |
| PoolSteps.ClampNeverFires | broker/src/service.ts:693-704 | the in-flight counter is positive whenever a queued creation ends, so clamping it at zero never changes it |
| PoolTheorems.NoOvertaking | broker/src/service.ts:395-412 | a creation starts directly only when nobody is parked; while somebody is parked a request that needs a worker is parked last or refused |
| PoolTheorems.DrainIsFifo | broker/src/service.ts:665-677 | the drain ends, and admits exactly as many entries as fit, from the head, in order, and no others |
| PoolTheorems.DrainPromisesAdmitted | broker/src/service.ts:665-691 | every ticket a drain admits becomes a creation in progress |
| PoolTheorems.EveryTicketSettlesOnce | broker/src/service.ts:587-704 | at any point an issued ticket is parked, being created, or settled exactly once, and stays settled once; admission follows the order of parking |
| PoolTheorems.AdmittedBeforeWaiting | broker/src/queue.ts:40-83 | whatever has been admitted was parked before everything still waiting |
| PoolTheorems.CommittedWorkersBound | broker/src/service.ts:419-545 | allocations, promised creations and direct creations in flight never exceed the maximum plus the peak number of overlapping direct creations |
| PoolTightness.BoundIsAttained | broker/src/service.ts:532-545 | with room for two workers or more and a queue, every peak of direct creations has a reachable state that meets that bound with equality |
| PoolTightness.OneWorkerBound | broker/src/service.ts:395-412 | with room for one worker at most, no run ever commits more workers than that peak, and a direct creation is over before anything else is in the pool |
| PoolTightness.OneWorkerBoundIsAttained | broker/src/service.ts:419-545 | with room for one worker every peak meets this sharper bound |
| PoolTheorems.StretchBound | broker/src/service.ts:648-704 | over any stretch of a run the excess is bounded by the overlap within the stretch |
| PoolTheorems.DrainOnlyHoldsCaps | broker/src/service.ts:648-704 | when all creations come through the drain, worker count, CPU and memory caps hold exactly, promised creations included |
| PoolTheorems.PoolAndRecordsAgree | broker/src/service.ts:419-580 | a session owns at most one allocation and then its record names a live worker; DESTROYED is on record only after a confirmed removal; a session is mid-creation exactly while one creation builds it |
| PoolTheorems.ConfirmedOnlyByRemoval | broker/src/service.ts:3406-3459 | a removal is confirmed only by a release of a live worker that succeeded |
| PoolTheorems.ReleaseFreesOwnAllocation | broker/src/service.ts:3379-3459 | a release frees exactly its own session's allocation and is idempotent; a failed removal changes neither pool nor queue and keeps the worker on record |
| BrokerContexts.PendingQueue.Enqueue | broker/src/queue.ts:54-57 | the entry goes to the end and its position is the new length |
| BrokerContexts.PendingQueue.Find | broker/src/queue.ts:59-61 | the first entry of the session, if there is one |
| BrokerContexts.PendingQueue.Remove | broker/src/queue.ts:68-72 | the first entry of the session leaves and is returned; the others keep their order |
| BrokerContexts.BrokerContext.DrainQueue | broker/src/service.ts:665-677 | the loop computes the drain of the transition system |
| BrokerContexts.BrokerContext.EnsureWorker | broker/src/service.ts:344-412 | a request up to its first await takes exactly the modelled step and gives the modelled reply |
| BrokerContexts.BrokerContext.ParkAndWait | broker/src/service.ts:587-641 | parking shares an existing entry, refuses at the length limit, or appends |
| BrokerContexts.BrokerContext.OnTimeout | broker/src/service.ts:626-633 | the timer removes its entry and settles its ticket |
| BrokerContexts.BrokerContext.OnSocketClose | broker/src/server.ts:778-804 | a disconnect cancels the parked entry and drains if there was one |
| BrokerContexts.BrokerContext.FinishQueuedCreation | broker/src/service.ts:679-704 | the end of a queued creation settles it, lowers the counter and drains |
| BrokerContexts.BrokerContext.RemovePoolAllocation | broker/src/service.ts:3379-3384 | the session's allocation leaves the pool, the others stay in order |
| BrokerContexts.BrokerContext.ReleaseWorker | broker/src/service.ts:3406-3459 | the tail of a release frees and drains, or leaves everything after a failed removal |
| BrokerContexts.BrokerContext.ReleaseAndRecord | broker/src/reaper.ts:370-522 | a release with its caller's guarded store write is one step of the transition system |
| GitCommit.AtMostOneCommit | broker/src/service.ts:2824-2926 | with no other HEAD writer, over any crashes and retries at most one commit is made, it is the recorded one, HEAD stays on it, and the record never changes |
| GitCommitTheorems.RetryConverges | broker/src/service.ts:2833-2916 | one uninterrupted retry with the working tree equal to the result ends with the result on HEAD and recorded, exactly under a condition on state, HEAD and intent; never from RETAINED |
| GitCommitTheorems.ConvergesAfterAnyCrashes | broker/src/service.ts:2776-2926 | after any crashes and failures, from APPLIED or an installed RESULT_READY one uninterrupted retry records the commit |
| GitCommitTheorems.RecoveryRecords | broker/src/service.ts:2839-2882 | whatever others do to HEAD, recovery records only after HEAD^ was the intent's parent and HEAD agreed with the result on every changed path; if HEAD stood still the recorded commit carries the result |
| GitCommitTheorems.RecoveryNeedsStillHead | broker/src/service.ts:2839-2873 | for any three reads of HEAD: every world of every run that records after them records a commit that carries the result, exactly when the three are the same |
| GitCommitTheorems.MovingHeadMisrecords | broker/src/service.ts:2839-2873 | for any three reads that are not all the same some run records a commit that does not carry the result |
| GitCommitTheorems.CommitLands | broker/src/service.ts:2884-2916 | from the intent on, the commit lands and is recorded exactly when it changes something and RETAINED is reachable |
| Framing.PushRefinesSplit | broker/src/server.ts:230-269 | one push continues the split of the stream so far and keeps only its unfinished line |
| Framing.ChunkingIsIrrelevant | broker/src/server.ts:222-275 | for every chunking and every cap of at least 511 the events are those of splitting the whole stream at newlines, an oversize line once, at its place, with exact length and the same id |
| Framing.RefinementNeedsCap | broker/src/server.ts:222-275 | this holds for every chunking and id recovery exactly when the cap is at least 511 |
| Framing.RetainedBytes | broker/src/server.ts:223-268 | retained bytes stay within the cap exactly when the cap is at least 512 or the line is not over it; the discard counter is the exact line length |
| Framing.RequestLineFramer.PushChunk | broker/src/server.ts:230-269 | the in-place framer computes that push |
| SocketWrites.FlushConserves | broker/src/server.ts:344-367 | an attempt moves owed bytes to the wire in order and loses none unless the socket fails; a failure clears the queue |
| SocketWrites.WireIsTheFrames | broker/src/server.ts:302-368 | for every pattern of partial writes, wire and owed bytes are exactly the enqueued frames; at the first failure the wire holds a prefix |
| SocketWrites.TerminatesOnce | broker/src/server.ts:327-342 | the termination callback is called at most once, never while it waits for owed frames, and has been called whenever it was requested and nothing is owed |
| SocketWrites.SocketWriteQueue.FlushAll | broker/src/server.ts:344-367 | the loop over the socket computes that attempt |
| SocketWrites.SocketWriteQueue.EnqueueFrame | broker/src/server.ts:316-321 | enqueueing appends the frame and flushes |
| Delivery.ClientRefinesSplit | opencode/plugins/lib/broker-client.ts:203-236 | for every chunking the client sees the non-blank lines of the whole stream |
| Delivery.DeliveryToClient | opencode/plugins/lib/broker-client.ts:203-236 | for any partial writes and any chunking, up to the first failure, the client gets the enqueued frames in order, and all of them once all bytes arrived |
| Delivery.DeliveryToBroker | opencode/plugins/lib/broker-client.ts:163-186 | in the other direction the framer reports each frame once, at its position, oversize or not |
| Delivery.BrokerClient.FlushWrites | opencode/plugins/lib/broker-client.ts:163-186 | the client's write loop is the same queue, closing the connection on failure |
| Delivery.BrokerClient.OnData | opencode/plugins/lib/broker-client.ts:203-236 | the receive loop yields exactly the lines a chunk completes and keeps the rest |
| PlanHeadings.HeadingGrammar | broker/src/service.ts:3556 | a line is a heading exactly when some split of it follows the pattern, and its level is the number of hashes |
| PlanHeadings.ClosingIsUniform | broker/src/service.ts:3583-3586 | what a line closes is a property of the line: a fence of its character and at most its length |
| PlanHeadings.OffsetIsLineStart | broker/src/service.ts:3575-3600 | a heading's offset is where its line starts in the text |
| PlanHeadings.ScanPlanDocHeadings | broker/src/service.ts:3575-3600 | the scanning loop returns the headings of the document as defined line by line |
| PlanGates.FormatReadsBack | broker/src/service.ts:4367-4370 | a verdict line as the operation writes it parses back to its fields |
| PlanGates.SpacedAgentIsLost | broker/src/service.ts:4368-4370 | with white space in the agent name the line is readable exactly when the remainder passes for evidence or a refinement |
| PlanGates.ReadLatestGateVerdict | broker/src/service.ts:4247-4259 | the loop returns the last matching verdict of the last log section |
| PlanGates.AppendThenRead | broker/src/service.ts:4247-4276 | after an append, reading gives the appended verdict for its own plan item and the old one for every other, exactly when the log exists or no fence is open |
| PlanGates.RunOfAppends | broker/src/service.ts:4247-4276 | over any run of appends, accepted or refused, reading gives the last accepted verdict |
| PlanGates.TickNeedsLastPass | broker/src/service.ts:4607-4617 | over any run of appends a routed plan's item may be ticked exactly when its last accepted verdict is PASS |
| PlanWrites.LargestRevision | broker/src/service.ts:4152-4156 | the loop returns the largest revision number of the section |
| PlanWrites.SectionIsClosed | broker/src/service.ts:4145-4151 | a section contains no heading that ends it and leaves a fence open only at the end of the document |
| PlanWrites.RewriteReadsBack | broker/src/service.ts:4145-4204 | an accepted rewrite with a closed body reads back one revision higher with all earlier entries in order, and keeps every latest verdict exactly when the log was final |
| PlanHistory.VerdictKeepsRevision | broker/src/service.ts:4261-4276 | recording a verdict keeps the revision exactly unless its line, hidden under an open fence at the end of the revisions, reads as a higher entry; it neither opens nor closes a fence |
| PlanHistory.VerdictReadsAsEntry | broker/src/service.ts:4152-4155 | a verdict line for a plan item named r and a number reads as a revision entry of that number |
| PlanHistory.OneWritePerRevision | broker/src/service.ts:4194-4236 | over any run of writes, verdicts and marks by any authors exactly one write or mark is accepted for each revision passed through; of all that find the same revision only one succeeds |
| PlanHistory.UnclosedBodyLosesRevision | broker/src/service.ts:4203-4204 | when the revision entries and the carried log close no fence, a body that leaves one open makes the revision read back as 0, whatever the replaced body holds |
| PlanHistory.RevisionNeedsClosedBody | broker/src/service.ts:4194-4204 | then the new revision is read back exactly when the body leaves no fence open |
| PlanQuiet.QuietOverRuns | broker/src/service.ts:4187-4204 | over any run of writes with closed bodies, verdicts and marks, the entries and the carried log close no fence |
| PlanQuiet.FirstOpenBodyLosesRevision | broker/src/service.ts:4187-4204 | so after any such run the next accepted write reads back one revision higher when its body leaves no fence open, and as 0 otherwise |
| PlanFiles.PlanDocument.WritePlanDocAtomically | broker/src/service.ts:4160-4236 | the file is made or replaced only if it is still what the rewrite was computed from, a missing file included |
| PlanFiles.PlanDocument.AppendGateVerdictAtomically | broker/src/service.ts:4278-4316 | a missing document is refused; otherwise the file is replaced by the document with the verdict, or left alone, and the count is that of the new text |
| PlanFiles.GateCountAfter | broker/src/service.ts:4273-4275 | the count after one more verdict in a log is one more, or 0 when the line holds the title of the log or the text does not |
| PlanAppends.InsertedBefore | broker/src/service.ts:3608-3620 | inserting before a heading puts whole lines exactly before its line and changes no other line |
| PlanAppends.AppendKeepsOutline | broker/src/service.ts:3608-3635 | content lands at the end of the named section: its headings come between those before and after and no other heading appears, goes or changes, and the heading behind it survives exactly when the content leaves no fence open; at the end of the document it is read under the fence open there |
| PlanMarks.EveryMarkAdvances | broker/src/service.ts:4498-4527 | an accepted mark advances the revision by one exactly when no fence is open or there are revisions, keeps every latest verdict and every fence, and adds at most the ticks and revisions sections; white space at the end counts as stripped, as the operation strips it |
| PlanMarks.HiddenTicksAreRefused | broker/src/service.ts:4498-4527 | under an open fence, without revisions and with no visible heading named Ticks, every mark is refused because it does not find the ticks it has just put there |
| PlanMarks.EveryMarkClosesLog | broker/src/service.ts:4498-4513 | after a mark every verdict append is refused exactly when the document has a log, and no open fence keeps the ticks out of sight behind a final one |
| PlanMarks.EverySecondMarkIsRefused | broker/src/service.ts:4498-4527 | after a mark every further mark is refused for ticks that are not final exactly when the document had no revisions and no open fence |
| PlanMarks.RewriteAfterEveryMark | broker/src/service.ts:4187-4204 | once a document with a log has been marked, the next accepted rewrite leaves no verdict at all, unless an open fence hid the ticks behind a final log: then it keeps all |
| Globs.GlobToRegex | broker/src/gitops.ts:199-236 | the loop writes the text of the compiled expression |
| Globs.RegexReads | broker/src/gitops.ts:199-236 | that text, read as a regular expression, is the compiled expression: every special character is escaped |
| Globs.CompiledMeans | broker/src/gitops.ts:194-236 | the compiled expression matches exactly the paths the direct matcher accepts |
| Globs.GlobCompiles | broker/src/gitops.ts:194-236 | from pattern text to test result: the regular expression accepts exactly the strings of the direct recursive matcher |
| Globs.CheckProtectedPaths | broker/src/gitops.ts:242-256 | the result is the ordered filter of matching paths, and empty exactly when no path matches any pattern |
| GitConfig.StripCommentLoop | broker/src/gitguard.ts:488-503 | the loop cuts at the first comment character outside quotes and escapes |
| GitConfig.IndexOfUnquoted | broker/src/gitguard.ts:532-547 | the loop finds the first unquoted occurrence, or -1 |
| GitConfig.ParseLocalConfigValuesLoop | broker/src/gitguard.ts:393-422 | the index loop with its continuations computes the parser |
| GitConfig.ParsePrint | broker/src/gitguard.ts:393-429 | parsing what the canonical printer writes returns the list of entries |
| GitConfig.NoiseChangesNothing | broker/src/gitguard.ts:398-416 | blank and comment lines between complete lines of any configuration change nothing |
| GitConfig.CommentsChangeNothing | broker/src/gitguard.ts:393-422 | the same for whole texts |
| ReviewSlices.FindStarts | broker/src/review-materialize.ts:103-105 | the search finds every line that starts with the marker, in order |
| ReviewSlices.SectionsMakeTheDiff | broker/src/review-materialize.ts:100-112 | the sections, one for each path in order, concatenate to the diff and each starts with its only marker |
| ReviewSlices.SplitSucceeds | broker/src/review-materialize.ts:101-106 | splitting succeeds exactly when the diff begins with a marker and has as many as there are paths |
| ReviewSlices.PackSlices | broker/src/review-materialize.ts:113-129 | the greedy loop refuses exactly when a section is over a budget by itself, naming the first; otherwise the slices concatenate to the same bytes |
| ReviewSlices.FewestSlices | broker/src/review-materialize.ts:118-127 | no contiguous grouping that fits both budgets has fewer groups than the greedy one |
| ReviewSlices.PackingIsBest | broker/src/review-materialize.ts:113-129 | every slice fits both budgets and the number of slices is minimal |
| ReviewRuns.CrashIsAtomic | broker/src/review-run.ts:349-388 | whenever the process dies, the files are those of some number of whole publications |
| ReviewRuns.CrashConsistency | broker/src/review-run.ts:411-461 | every directory a crash can leave lists only artifacts fully on disk with their length and digest, exactly when no listed name is published with other bytes |
| ReviewRuns.CompletedConsistency | broker/src/review-run.ts:411-437 | the directory after a completed operation does so under exactly the same condition: no crash is needed to break it |
| ReviewRuns.RunStaysConsistent | broker/src/review-run.ts:540-584 | the same over any run with any number of crashes |
| ReviewRuns.TotalsWithinCaps | broker/src/review-run.ts:421-431 | recorded totals and sizes never exceed the caps, whatever crashes and whatever is published again |
| ReviewRuns.PersistsOnlyLastAccepted | broker/src/service.ts:3792-3811 | the persist operation hands on only bytes of the length and digest of the last finalize output, and only after it was accepted |
| ReviewRuns.FinalizePersists | broker/src/review-pipeline.ts:411-428 | a finalize phase that completes can be persisted at once |
| ReviewRuns.ReviewRunWriter.AddArtifact | broker/src/review-run.ts:411-437 | the writer publishes, lists and totals the artifact, or refuses and changes nothing |
| ReviewPruning.PruneReviewRuns | broker/src/review-run.ts:913-967 | the two passes remove the expired closed runs and then the oldest closed ones over the bound, and report them |
| ReviewPruning.SweepKeepsTheRightRuns | broker/src/review-run.ts:927-964 | no publishing run is removed, no expired closed run stays, and every run removed for the bound is at least as old as every closed run that stays |
| ReviewPruning.SurvivorCount | broker/src/review-run.ts:944-964 | the survivors number exactly the larger of the open runs and the smaller of the bound and the unexpired or open runs |
| ReviewPruning.SummaryIsExact | broker/src/review-run.ts:913-967 | the summary names exactly the removed runs |
| Advisories.WrittenOnce | broker/src/advisor-records.ts:207-220 | a claim or response, once written, is there for good and never changes |
| Advisories.ResponderIsClaimant | broker/src/advisor-records.ts:725-757 | whoever answered had claimed the request before and answered before it expired |
| Advisories.StatusOnlyMovesForward | broker/src/advisor-records.ts:237-241 | over a run with a nondecreasing clock the status only moves forward |
| Advisories.TailFindsNoResponse | broker/src/advisor-records.ts:673-695 | because a session's operations run under its lock, the tail of a keep operation always finds the claim still its session's and no response: the evidence it puts in place is never taken back |
| Advisories.EvidenceIsFrozen | broker/src/advisor-records.ts:673-695 | once a response exists the kept evidence stays as it is, over every run and every crash |
| Advisories.ResponseDescribesEvidence | broker/src/advisor-records.ts:673-760 | a response describes exactly the evidence that is kept, over every run and every crash |
| Advisories.LeftReservationBlocks | broker/src/advisor-records.ts:673-695 | a reservation that a crash leaves is never given up, and the evidence of its request never changes again |
| Advisories.ChainsEnd | broker/src/advisor-records.ts:357-387 | every chain of parents is finite and ends at the request its thread names |
| Advisories.RotationAlternates | broker/src/advisor-records.ts:254-262 | the rotation never gives out one host twice in a row |
| Advisories.AdvisorStore.AdvisorAsk | broker/src/advisor-records.ts:357-387 | asking writes the modelled request, thread and rotation |
| Advisories.AdvisorStore.AdvisorRead | broker/src/advisor-records.ts:494-536 | reading claims an unclaimed live request and succeeds exactly for the claimant |
| Advisories.AdvisorStore.AdvisorRespond | broker/src/advisor-records.ts:725-760 | responding writes the response once, with the evidence kept by then |
| Advisories.AdvisorStore.AdvisorEvidenceKeep | broker/src/advisor-records.ts:673-695 | the synchronous tail reserves, puts evidence in place or takes it back when a response is there, and gives the reservation up |
| ArtifactGc.StepsAreLegal | broker/src/state.ts:187-212 | no step loses a record, and one that changes a state follows the legal graph |
| ArtifactGc.ClosedForGood | broker/src/state.ts:43-56 | REJECTED and FAILED_CLOSED are kept by every continuation of every run |
| ArtifactHistory.RefSince | broker/src/service.ts:1942-1973 | between any two points of any run: a session has a ref exactly when it had one or has fetched one since, and every deletion since has been followed by a fetch |
| ArtifactRefs.ResultHasRef | broker/src/service.ts:1942-1973 | in real mode a session that keeps a result has a ref exactly when every deletion of its ref has been followed by a fetch |
| ArtifactRefs.ResultsHaveRefs | broker/src/service.ts:1942-1973 | with discard as one step, every session in RESULT_READY, APPLY_PENDING, APPLIED or RETAINED has a resolving ref, at every point of every run |
| ArtifactDiscards.DiscardLosesResult | broker/src/service.ts:2362-2401 | whatever happens outside the session's lock before and after its ref is deleted, a discard that ends leaves a result without ref exactly when a commit has retained the session in between and no export has fetched the result since the deletion |
| ArtifactDiscards.CrashedDiscardLosesResult | broker/src/service.ts:2375-2401 | a crash after the deletion leaves the session with its result and without a discard under way, and with a ref exactly when an export has fetched the result since the deletion |
| ArtifactRemovals.RemovalIsGated | broker/src/service.ts:899-933 | at any point of any run the bundle of a known session goes only when it is REJECTED by then, when the file is older than the record, or on the ground of a ref that the removal's own probe or fetch has seen; in the last case the ref resolves still exactly when every deletion since then has been followed by a fetch. Probes and removals are steps of their own, and sweeps decide on records listed earlier |
| ArtifactRemovals.UndeletedRefIsThere | broker/src/service.ts:917-921 | a removal whose probe or fetch saw the ref finds it resolving still when no discard has deleted it since, whatever happened before |
| ArtifactRemovals.WholeDiscardsGate | broker/src/service.ts:899-933 | with discard as one step the ref that the probe found resolves still when the file goes |
| ArtifactContents.RemovedResultSurvives | broker/src/artifacts.ts:161-191 | when a result bundle of a session that is not rejected is removed, a ref had been seen by the probe or fetch behind it; it resolves still exactly when every deletion since has been followed by a fetch, and it holds this result exactly when the file had been fetched |
| ArtifactContents.PlannedKeepsTheOnlyCopy | broker/src/artifacts.ts:161-191 | in planned mode no step removes a known session's result bundle before it is rejected |
| ArtifactContents.FilesLeftAreUnfetched | broker/src/service.ts:1968-1973 | in real mode, when no removal fails and the broker does not crash, every result bundle on disk that was fetched is about to be removed by the call that fetched it |
| ArtifactLosses.NewerExportIsLost | broker/src/artifacts.ts:178-191 | from any point of any run at which a result is ready with its ref: a second export that fails before its fetch, then a keep and a collection, remove the only copy of the newer result while the ref holds the older one |
| ArtifactLosses.StaleProbeLosesResult | broker/src/reaper.ts:224-241 | from any world with a ready result and its ref: a discard that waits, a commit that retains, a clock past the grace period, a sweep that probes, the deletion and the removal leave the retained session with neither ref nor file |
| ArtifactLosses.StaleProbeFromStart | broker/src/reaper.ts:224-241 | for every session, grace period and clock there is a run from the start that ends so |
| ArtifactSweep.StateDirectory.SweepStateArtifacts | broker/src/reaper.ts:206-285 | the sweep removes exactly the artifacts the rule names, and its two counters are exactly the files and bytes that are gone |
| ArtifactSweep.StateDirectory.RemoveSessionArtifacts | broker/src/artifacts.ts:143-148 | all six removable artifacts of the session go, and nothing else |
| ArtifactSweep.SweepIsIdempotent | broker/src/reaper.ts:198-205 | a second sweep under the same circumstances removes nothing |
| ArtifactSweep.SweepIsTheStep | broker/src/reaper.ts:224-241 | for a bundle the sweep's decision is that of the interleaved model when nothing happens between its awaits |

## Left out

- Virtual machines, git, GitHub and helper executables run as effects only: a worker set, a map of refs, commits as trees, an exit status.
- Role and capability tables, read-only agents, snapshot verification, payload validation, JSON, path and symbolic link checks, fsync, permissions, logging and redaction.
- Client timeouts that drop a partial frame; frames are opaque byte strings without a newline.
- Store writes always succeed, and the pool starts empty: failures of the session store and a broker restart with live workers are not modelled for the pool. Artifact steps include restarts.
- A release's tail and its caller's store write are one step. Workers leaked by two overlapping releases of one session are not modelled.
- Amounts of CPU and memory are real numbers; rounding of floating point values is not modelled.
- Frontmatter is not parsed: whether a plan is routed is a parameter.
- Revision numbers are unbounded, so those above 2^53 are not rounded. Text is a sequence of characters, not of UTF-16 units.
- GitConfig.ParsePrint: case folding of subsections is a parameter, and names fold in ASCII only.
- PlanMarks.EveryMarkAdvances: says nothing of a document whose last visible line is a heading only with, or only without, the white space behind it, which the operation strips; nor of an open fence over a document with neither revisions nor a second-level heading Ticks but with one of another level, where the entry goes.
- PlanHistory.OneWritePerRevision: the run starts from a document without an open fence whose last visible line reads the same with and without the white space behind it, and no body leaves a fence open; `UnclosedBodyLosesRevision` says what happens otherwise.
- Two commit operations for one result at the same time, and clearing an intent by hand.
- GitCommitTheorems.ConvergesAfterAnyCrashes: assumes that nobody else moves HEAD or the result ref and that the changed paths keep the result's content; `RetryConverges` says what happens otherwise.
- Review runs: the size of the record file itself, file systems that fold case, identifier collisions, and recovery of interrupted runs, which only rewrites the state.
- Staged copies of evidence that a crash leaves; they are never read.
- ArtifactRemovals.RemovalIsGated: nothing is claimed for a baseline bundle that planned mode writes over a result when a worker is created again.
- The session lock is part of the steps of advisories and discards. Elsewhere the operations of one session may overlap more than the lock lets them, so what is proved of every run holds with it and without it; the failing runs respect it.
- ArtifactSweep.StateDirectory.SweepStateArtifacts: the probes of one sweep are answered at once; what happens when others step in between is in `ArtifactRemovals`.
- Artifacts are keyed by kind and session; that the temporary index of a session whose name starts with `divergence-` shares its path with another session's divergence index is not modelled.
- `applyResult` is not claimed to leave APPLY_PENDING in every case: some of its helpers throw and leave the record there.
