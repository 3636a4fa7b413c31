# A Dafny model of the simple agent framework

The stateful core of a Go agent framework, with proofs of what it guarantees over whole runs.
Models, tools, evaluators, humans, clocks and stores are inputs or nondeterministic; everything the framework
itself decides is modelled branch by branch.

| files | what they model |
|---|---|
| `run_loop*.dfy`, `session.dfy` | the agent's run loop: ten states, a pending action, a remembered execution, an iteration cap, an evaluator and a human gate. `run_loop.dfy` gives one turn as a function; `session.dfy` is the loop as code on mutable session, memory, detector and planner objects, proved to take exactly those turns; the other files prove what every turn leaves behind and safety, termination, transcript, plan and answer properties of all runs, and `run_loop_examples.dfy` has concrete runs from the start |
| `loop_detector.dfy`, `hitl.dfy` | the detector of repeated calls and the rules of the human gate |
| `transcript.dfy`, `transcript_memory.dfy` | what a well-formed conversation is, and that memory maintenance keeps it |
| `buffer_memory.dfy`, `summary_memory.dfy`, `compressor.dfy` | sliding-window and summarising memory, failure pruning, stale-result compaction, compression |
| `planner.dfy` | the plan-and-solve planner |
| `ring.dfy`, `rate_limiter.dfy`, `metrics.dfy` | circular buffers, token bucket, sliding window, both combined, call metrics |
| `parallel.dfy` | batch execution as interleaved steps of workers, semaphore and wait group |
| `hybrid.dfy` | reciprocal rank fusion |
| `tool_stream.dfy` | tool calls assembled from interleaved stream deltas |
| `chat.dfy`, `text.dfy`, `wrappers.dfy` | messages and actions, string helpers, options |

`dafny verify dfyconfig.toml` checks the whole project.

## What the proofs found

These follow from the code as it is; the members named prove each.

- With threshold 1 the loop detector ends a run at its second call, whatever it calls
  (`VerdictAtThresholdOne`); it counts repetitions exactly for thresholds of at least 2.
- A planner, executor, evaluator or compressing model that gives back neither a result nor an error makes the run
  dereference nil (agent/loop.go:224, 394 and 471, memory/compressor.go:78); nothing else does (`RunPanicsIff`).
- A rejected plan review generates a new plan but keeps the first answer of the rejected one. The first planning round
  acts on the current plan exactly if the session already had a plan or no review was rejected
  (`FirstRoundFollowsPlanIff`, with a run in `RejectedPlanRun`).
- In plan-and-solve mode the step of a denied action, or of a question, stays running, so the next planning round fails.
  The run survives exactly if the action was the stale one of a rejected plan (`SurvivesUnexecutedIff`, with runs in
  `DeniedStepRun` and `DeniedStaleActionRun`).
- A run that is stopped while it executes a call for the first time leaves the call unanswered in the session's memory;
  one that is stopped in front of a retry does not (`WellFormedIffNotFirstAttempt`, `CutShortRun`, `RetriedRun`).
- A memory window separates a result from its call exactly if it cuts in front of a tool message
  (`WindowKeepsWellFormedIff`, `TrimmingCanOrphanToolMessage`).
- Adding to a windowed memory in batches differs from adding at once, for different messages, exactly if a trim before
  the last brings a system message right behind the kept head (`BatchesAgreeIff`, `BatchesMatterWithInnerSystemMessage`).
- If rewriting the store fails after a summary was kept, the folded messages are still stored and will be folded
  again (`ConservedIffIntact`). The comment in memory/summary.go:40-43 speaks of the oldest half; the code folds
  everything but the newest half of the threshold, and the model follows the code.
- The token bucket's range needs a capacity and a rate that are not negative; the constructor checks neither
  (`RangeHoldsIff`). `SlidingWindow.Wait` with no slots, and `SlidingWindowCounter.Add` with no samples, index an
  empty ring.
- A request that the sliding window rejects has still spent a token (`WindowRejectionSpendsToken`).
- The comment at memory/buffer.go:15-19 leaves open whether leading system messages survive trimming; with the
  in-memory store they always do (`WindowBound`).

Terms used below: a turn is one pass through the loop body. The position of a run is `Loop`; the log of a run lists
planning rounds, permissions and executions. A failing pair is an assistant message with tool calls directly followed
by a tool message that reads as a failure.

## Model

| member | source | states |
|---|---|---|
| `RunLoopSafety.RunPanicsIff` | agent/loop.go:218-231 | Over all runs, whatever humans and stores do: a run dereferences a nil pointer if and only if in its last turn the compressing model, the planner, the executor or the evaluator gave back neither a result nor an error |
| `RunLoopSafety.TurnPanicsIff` | agent/loop.go:386-399 | In every reachable position a turn panics exactly if it receives such a nil; so none of the pending action, the last execution and the plan-and-solve planner is nil where the loop uses it |
| `RunLoopSafety.RunStaysSound` | agent/loop.go:55-558 | Every run stands in a sound position, or has ended with an answer, an error, a done context or a panic, never without any of them |
| `RunLoopSafety.RunKeepsSound` | agent/loop.go:248-254 | From any sound position every further turn stays sound: Interrupt and Executing hold a pending action, Executing a tool call with a non-empty call ID, Evaluating a last execution, plan review a planner |
| `RunLoopSafety.ApprovalSafety` | agent/loop.go:386-391 | In every run, every execution is of a tool call and was permitted since the last planning round began for exactly that action: ungated without an interrupter, else cleared by it or approved by a human with the input the human gave; retries, which skip the gate, included |
| `RunLoopEvents.ExecutedAsPermitted` | agent/loop.go:294-366 | In every run each executed action was let through by a turn at the gate in the same planning round: it has the kind, tool and answer of the action proposed there, and its input is the one a human gave, if a human was asked, approved and gave one, else the proposed one |
| `RunLoopSafety.EventsAreHonest` | agent/loop.go:287-366 | Each logged permission corresponds to what the interrupter and the human really answered in that turn, and each logged execution to the pending action and call ID |
| `RunLoopSafety.HitlClearsExemptOnly` | interrupter/hitl.go:83-106 | With the HITL handler as interrupter, a call is let through without a human only for tools that its configuration exempts |
| `Hitl.InterruptsIff` | interrupter/hitl.go:83-106 | The handler asks about every plan and escalation, and of actions about exactly the tool calls that neither reading tools nor a list exempts |
| `Hitl.ReadClassIff` | interrupter/hitl.go:57-72 | A tool counts as reading exactly if one of ten words stands in its name, whatever the case and the space around it |
| `RunLoopSafety.HitlApprovalSafety` | interrupter/hitl.go:94-106 | With the HITL handler, every executed call of a tool that needs approval has a human approval of exactly that action in the same planning round |
| `RunLoopControl.StepFollows` | agent/loop.go:102-556 | Whatever the environment answers, a turn is one of a short list of moves on state, iteration, pending action, call ID, last execution, escalation flag and recorded calls, or one of a short list of ways to stop |
| `RunLoopTurns.GateTurn` | agent/loop.go:300-351 | At the gate a human who does not approve, or does not answer, stops the action and the memory says so; a question is recorded with the human answer or the reason why there is none |
| `RunLoopTurns.GateTurnAnnounces` | agent/loop.go:352-366 | A call that passes is announced in the memory under a call ID with its tool, the reasoning and the input that is executed, an empty object for none |
| `RunLoopTurns.ExecutingTurnLeaves` | agent/loop.go:391-442 | An execution that returns leaves one history entry with its output and error, one tool message under the ID and tool of the call with what the tool gave, behind a notice if the last calls repeat, and the memory pruned and then compacted |
| `RunLoopTurns.EvaluatingTurnLeads` | agent/loop.go:476-517 | What each decision leads to: the same call again, the human, a fresh plan, the answer, or the next planning round with nothing else changed |
| `RunLoopTurns.CompletingTurnLeaves` | agent/loop.go:519-552 | The answer is recorded if not blank; an invalid one costs one attempt and sends the feedback back to planning, the last one fails the run; else the run ends with the answer and the memory |
| `RunLoopTurns.PlanningTurnCompresses` | agent/loop.go:186-201 | With a summary the memory becomes its leading system messages, the summary, and everything from its last assistant message on; otherwise it stays |
| `RunLoopTurns.ReviewTurnLeads` | agent/loop.go:131-170 | A plan passes unless a human who is asked does not approve; then the memory says so and a new plan replaces it, or the run fails |
| `RunLoopTurns.EscalationTurnLeads` | agent/loop.go:255-286 | Every way on drops the action and goes back to planning; a refusal is recorded |
| `RunLoopAnswers.AnswerHasSource` | agent/loop.go:239-241 | A run ends with an answer only if in the turn before the last a planner gave a final answer with that trimmed text, or the evaluator completed with that trimmed feedback or, without any, the newest output that is not blank |
| `RunLoopAnswers.RepeatedOnlyOnRetry` | agent/loop.go:486-494 | In every run two executions follow each other in the log only if the evaluator asked for a retry in between, and the second is the first again, under the same call ID |
| `RunLoopAnswers.RunEndsBecause` | agent/loop.go:90-100 | In every run that fails or is cancelled, the last turn has the reason that belongs to the error: cap, detector, executor, evaluator, planner, memory, interrupter, human or validation |
| `RunLoopAnswers.InvalidAnswersSentBack` | agent/loop.go:523-541 | A run sends at most autoRetry invalid answers back to planning, and fails for its output only after exactly that many |
| `RunLoopTurns.PlanningTurnProposes` | agent/loop.go:203-246 | What is proposed and its reasoning come from the kept first answer, the planner, or the step that is handed out; a final answer completes, everything else goes to the gate |
| `RunLoopProgress.ExecutionIsReported` | agent/loop.go:425-433 | With distinct IDs an execution that returns makes exactly the step under way done with the output or failed with the error, and no step is running afterwards |
| `RunLoopProgress.RunProceeds` | agent/loop.go:425-442 | Over all runs with distinct IDs: after an execution of a step the next planning round that nothing else stops hands out exactly the next step if this one is done and there is one, and else gives the final answer |
| `RunLoopProgress.RunFollowsPlan` | agent/loop.go:203-233 | Over all runs that neither reject nor replace the plan: the executed calls are those of the steps in order, one step for each planning round, from the first one not handed out before |
| `RunLoopProgress.FollowsNewPlan` | agent/loop.go:501-511 | After the evaluator has the plan replaced, the executed calls are those of the new plan in order, from its first step on |
| `RunLoopTermination.RunTerminates` | agent/loop.go:172-178 | Every run ends: an unfinished run has taken at most maxIterations * (2 * threshold + 5) + 4 turns plus one per rejected plan review |
| `RunLoopTermination.RunDescends` | agent/loop.go:165-178 | From every reachable position each turn uses up one unit of a measure over iterations left, calls left to the detector and state, except rejected plan reviews, which keep it |
| `RunLoopTermination.RunIsBounded` | agent/loop.go:486-494 | A run plans at most maxIterations times and executes at most maxIterations * threshold tools, however often the evaluator retries |
| `RunLoopTermination.ExecutionCounts` | agent/loop_detector.go:43-56 | An execution that the detector lets pass makes the trailing streak of equal calls longer by one if it repeats the last call, starts a new one otherwise, and the streak is at most the threshold |
| `RunLoopTranscript.WellFormedIffNotFirstAttempt` | agent/loop.go:352-420 | With a memory that neither trims nor fails and a well-formed start: wherever a run stands and however it ends, every call in the memory is directly followed by its answers and no tool message is orphaned, if and only if the run is not executing a call whose ID differs from the last execution; a run that ends there was cancelled, stopped by the detector, or failed in the executor |
| `RunLoopTranscript.StepTracks` | agent/loop.go:352-420 | Each turn keeps track of what is unanswered: exactly the pending call during its first attempt, else nothing; the result of a retry still belongs to its call |
| `RunLoopTranscript.CallIdsDiffer` | agent/loop.go:352 | Call IDs of different iterations differ, whatever the clock says |
| `RunLoopExamples.CutShortRun` | agent/loop.go:90-100 | A run from the start that is cancelled before its first execution and leaves the announced call unanswered |
| `RunLoopExamples.RetriedRun` | agent/loop.go:486-491 | A run from the start that is cancelled in front of a retry and leaves nothing unanswered |
| `RunLoopPlan.PlanStaysStaged` | agent/loop.go:425-433 | If generated plans have distinct step IDs, then throughout every run the statuses read: done or skipped, at most one running or failed, pending |
| `RunLoopPlan.GateFollowsPlanIff` | agent/loop.go:230-238 | Over all runs in plan-and-solve mode: at the gate no first answer is kept any more, and the proposed action is that of the running step if and only if it is not the stale one, that is unless the run generated its plan itself, a review rejected it, and this is the first planning round; a stale action leaves the plan untouched |
| `RunLoopPlan.SurvivesUnexecutedIff` | planner/plan_and_solve.go:73-76 | Over all runs: after a denied action or a question the next planning round goes on if and only if nothing else stops it (context, cap, memory, compression), the action was the stale one, and the new plan starts with a known kind of action; otherwise the planner refuses |
| `RunLoopExamples.DeniedStepRun` | planner/plan_and_solve.go:73-76 | A run from the start that ends with a planner error because a human denied a step |
| `RunLoopExamples.DeniedStaleActionRun` | agent/loop.go:309-316 | A run from the start in which a stale action is denied and the new plan begins |
| `RunLoopPlan.FirstRoundFollowsPlanIff` | agent/loop.go:152-167 | Over all runs in plan-and-solve mode: the first planning round, if it goes on, takes a step or the final answer from the current plan if and only if the plan was there at the start or the log has no rejected review; otherwise it proposes the first step of the plan generated first and leaves the new one untouched |
| `RunLoopExamples.RejectedPlanRun` | agent/loop.go:203-206 | A run from the start that proposes a step of the plan a human has rejected |
| `AgentSession.Session.constructor` | agent/loop.go:61-70 | A new run starts in the initial position on the memory, recorded calls and plan that the session already has |
| `AgentSession.Session.RunPlanGen` | agent/loop.go:110-129 | The code for plan generation ends in the result, the whole new state and the log of the specified turn: no planner, unreadable memory, failed generation, an existing plan, a new one with its first answer |
| `AgentSession.Session.RunPlanReview` | agent/loop.go:131-170 | The code for plan review ends in the result, the whole new state and the log of the specified turn: a rejection leaves its note in the memory and a new plan, and stays in review |
| `AgentSession.Session.CompressMemory` | agent/loop.go:186-201 | The memory afterwards is the rebuilt list behind the prompt, or untouched; clearing and re-adding may fail separately; a nil summary panics |
| `AgentSession.Session.RunPlanning` | agent/loop.go:172-246 | The code for a planning round ends in the result, the whole new state and the log of the specified turn: the cap, the compressed memory, the kept first answer or the planner, the action taken up |
| `AgentSession.Session.RunEscalation` | agent/loop.go:255-286 | The code for an escalation ends in the result and the whole new state of the specified turn, in which every way on drops the pending action |
| `AgentSession.Session.RunInterrupt` | agent/loop.go:248-366 | The code of the gate ends in the result, the whole new state and the log of the specified turn: who permitted what, with which input, and what the memory records |
| `AgentSession.Session.StoreResult` | agent/loop.go:407-420 | The memory afterwards is the tidied list with the tool result, or what is left when a store operation fails |
| `AgentSession.Session.ReportStep` | agent/loop.go:425-433 | Exactly the first running step of the plan is reported, by its ID |
| `AgentSession.Session.RunExecuting` | agent/loop.go:368-442 | The code for an execution ends in the result, the whole new state and the log of the specified turn: detector, executor, stored and tidied result, history, reported step |
| `RunLoop.LastOutput` | agent/loop.go:704-711 | An output that is not blank and behind which all are blank; the empty string only if all are blank |
| `AgentSession.Session.LastOutputFromHistory` | agent/loop.go:704-711 | The backward search finds that output |
| `AgentSession.Session.ReplanAfterEvaluation` | agent/loop.go:501-514 | Replanning drops the old plan and the kept first answer and goes back to plan generation; failures keep the state |
| `AgentSession.Session.RunEvaluating` | agent/loop.go:444-517 | The code for every evaluator decision ends in the result and the whole new state of the specified turn |
| `AgentSession.Session.RunCompleting` | agent/loop.go:519-552 | The code for completion ends in the result and the whole new state of the specified turn: answer recorded, validation retried while attempts are left |
| `AgentSession.Session.TakeTurn` | agent/loop.go:90-102 | One pass through the loop body is one turn of the state machine |
| `AgentSession.Session.RunScript` | agent/loop.go:84-103 | A whole run of the code, for every script of answers, has the result, the final state and the log of the state machine; so every theorem about its runs holds of the code |
| `LoopDetection.LoopDetector.constructor` | agent/loop_detector.go:31-36 | No history; a threshold that is not positive becomes 3 |
| `LoopDetection.LoopDetector.Record` | agent/loop_detector.go:38-57 | The answer, although it depends on a flag, is a function of the recorded history alone, which grows by the call |
| `LoopDetection.VerdictCountsRepeats` | agent/loop_detector.go:43-56 | For thresholds from 2: terminate iff the last threshold + 1 calls are identical, warn iff the last threshold are but not threshold + 1, else normal |
| `LoopDetection.VerdictAtThresholdOne` | agent/loop_detector.go:43-56 | With threshold 1 the second call ends the run whatever it calls |
| `LoopDetection.CountsRepeatsIffThresholdAtLeastTwo` | agent/loop_detector.go:38-57 | The detector counts repetitions over all histories exactly for thresholds of at least 2 |
| `LoopDetection.RepeatsIffStreak` | agent/loop_detector.go:43-50 | The last n calls are identical iff the trailing streak has length at least n |
| `LoopDetection.ContinuingBoundsStreak` | agent/loop_detector.go:52-56 | A call that does not terminate leaves at most threshold identical calls in a row |
| `LoopDetection.WarningKeepsResult` | agent/loop_detector.go:68-79 | A warning keeps the whole tool result behind a notice that names the tool |
| `Transcript.WellFormedIffScan` | agent/loop.go:357-412 | A single left-to-right reading decides whether every call is answered directly and no tool message is orphaned |
| `Compressor.PruneConsecutiveFailures` | memory/compressor.go:138-169 | The loop keeps exactly the messages outside failing pairs that a failing pair of the same tool follows directly, in order |
| `Compressor.PruneYieldsNormalForm` | memory/compressor.go:138-169 | No two adjacent failing pairs of one tool remain |
| `Compressor.PruneFixesNormalForms` | memory/compressor.go:138-169 | Pruning changes a list iff it is not in that normal form |
| `Compressor.PruneIdempotent` | memory/compressor.go:138-169 | Pruning twice is pruning once |
| `Compressor.PruneIsSubsequence` | memory/compressor.go:138-169 | The output is the subsequence of the input at strictly increasing positions, exactly those not dropped |
| `Compressor.PruneDropsWholePairs` | memory/compressor.go:145-166 | Only failing pairs are dropped, each as a whole, and of a run of same-tool failures the last pair stays |
| `Compressor.PruneDropsExactly` | memory/compressor.go:138-166 | A message is dropped exactly if it belongs to a failing call that a failing call of the same tool follows directly, said of roles, calls, contents and names |
| `Compressor.FailureIff` | memory/compressor.go:122-132 | A content is a failure if and only if, whatever its case, it starts with error behind any space or has error: anywhere |
| `Compressor.ClearUpTo` | memory/compressor.go:215-226 | In the array, every full tool result up to the position is blanked and nothing else changes |
| `Compressor.CompactStaleToolResults` | memory/compressor.go:200-230 | The backward loop with its early exit clears exactly the results that, together with the newer ones in full, exceed the budget |
| `Compressor.CompactKeepsMaximalSuffix` | memory/compressor.go:204-228 | There is a cut with nothing changed after it and every full result before it cleared; what stays in full fits a non-negative budget, and the newest cleared result would have exceeded it |
| `Compressor.CompactFits` | memory/compressor.go:200-230 | What is still shown, at four bytes a token, fits a non-negative budget; nothing changes if and only if everything fits |
| `Compressor.CompactKeepsShape` | memory/compressor.go:216-224 | Length, roles, call IDs and names stay; non-tool messages stay whole; changed messages carry the fixed notice |
| `Compressor.CompactIdempotent` | memory/compressor.go:200-230 | Compacting twice with one budget is compacting once |
| `Compressor.ClearedIsNoFailure` | memory/compressor.go:122-132 | The notice of a cleared result does not read as a failure |
| `Compressor.CompactKeepsNormalForm` | agent/loop.go:416-417 | Compacting a pruned list gives pruning nothing new to do |
| `Compressor.TidyIdempotent` | agent/loop.go:414-420 | The whole pipeline of pruning and compacting is idempotent |
| `Compressor.LastAssistant` | memory/compressor.go:88-93 | The last assistant message, if there is one |
| `Compressor.Compress` | memory/compressor.go:84-107 | The rebuilt list is the leading system messages, one summary, and everything from the last assistant message on |
| `TranscriptMemory.PruneKeepsScan` | memory/compressor.go:138-169 | Pruning from any boundary changes nothing about what the rest of the conversation has to answer |
| `TranscriptMemory.CompactKeepsScan` | memory/compressor.go:200-230 | Compaction, from any position and reading state, changes nothing about what the rest of the conversation has to answer |
| `TranscriptMemory.TidyKeepsWellFormed` | agent/loop.go:414-420 | Pruning, compaction and both together keep every well-formed conversation well-formed |
| `TranscriptMemory.CompressKeepsWellFormed` | memory/compressor.go:84-107 | Rebuilding around a summary keeps every well-formed conversation well-formed, since it cuts directly before an assistant message |
| `BufferedMemory.InMemoryMessageStore.Append` | memory/store_inmem.go:29-40 | Appends iff the context is usable |
| `BufferedMemory.InMemoryMessageStore.List` | memory/store_inmem.go:42-49 | Yields the whole list iff the context is usable |
| `BufferedMemory.InMemoryMessageStore.Replace` | memory/store_inmem.go:51-63 | Replaces the list iff the context is usable |
| `BufferedMemory.InMemoryMessageStore.TrimHead` | memory/store_inmem.go:74-89 | Drops n messages at the head, all if there are fewer, none for n not positive or a dead context |
| `BufferedMemory.InMemoryMessageStore.Clear` | memory/store_inmem.go:91-99 | Empties the list iff the context is usable |
| `Chat.LeadingSystem` | memory/buffer.go:79-83 | The length of the longest prefix of system messages |
| `BufferedMemory.BufferMemory.Add` | memory/buffer.go:43-61 | The stored list is the window over list and batch; if an operation fails after the append, the untrimmed list |
| `BufferedMemory.BufferMemory.TrimPreservingSystem` | memory/buffer.go:70-97 | All three paths leave the leading system messages and the newest others that fit, or an untouched list on failure |
| `BufferedMemory.WindowBound` | memory/buffer.go:43-61 | At most max(maxSize, leading system messages) messages remain, the system head is kept, and a trimmed list is full |
| `BufferedMemory.WindowedSplit` | memory/buffer.go:84-96 | Over any system head and other body the window is the head and the last max(0, maxSize - head) of the body |
| `BufferedMemory.BatchesAgreeIff` | memory/buffer.go:43-97 | Adding any list of non-empty batches one by one equals adding them at once if no trim but the last brings a system message right behind the kept system head; for pairwise different messages, if and only if |
| `BufferedMemory.AddInBatches` | memory/buffer.go:43-61 | In particular with system messages at the head only, for any list of batches |
| `BufferedMemory.BatchesMatterWithInnerSystemMessage` | memory/buffer.go:79-96 | A list with an inner system message for which two batches and one addition differ |
| `TranscriptMemory.WindowKeepsWellFormedIff` | memory/buffer.go:79-96 | The window over a well-formed conversation is well-formed if and only if the first message that it keeps behind the system head, if any, is not a tool message |
| `TranscriptMemory.TrimmingCanOrphanToolMessage` | memory/buffer.go:84-96 | A well-formed conversation whose window has an orphaned tool message |
| `SummarisedMemory.SummaryMemory.Messages` | memory/summary.go:60-78 | The stored messages, behind the summary if there is one |
| `SummarisedMemory.SummaryMemory.Add` | memory/summary.go:80-100 | Terminates after at most one summarisation, which folds all but the newest threshold / 2 (at least one) messages; success leaves at most threshold messages, split as RunConserves describes; every failure leaves the state said here, and it panics iff the model gives back a nil answer |
| `SummarisedMemory.SummaryMemory.Summarize` | memory/summary.go:123-172 | Folds the head and keeps the tail; a failing model changes nothing, a nil answer panics; a failing rewrite keeps the summary and the messages |
| `SummarisedMemory.SummaryMemory.Clear` | memory/summary.go:102-107 | Forgets the summary even when the store cannot be cleared |
| `SummarisedMemory.SummaryMemory.ConservedIffIntact` | memory/summary.go:155-168 | What was added since the last clearing is what was folded followed by what is stored, in order, iff no rewrite failed after its summary was kept |
| `SummarisedMemory.RunConserves` | memory/summary.go:80-172 | Over any run of successful additions every message is folded once or still stored, in order |
| `Planner.FreshPlan` | planner/plan_and_solve.go:275-305 | A plan is made iff the answer is usable and has steps; its steps are pending, with the given actions and trimmed descriptions, and a missing ID becomes the position |
| `Planner.PlanAndSolvePlanner.Plan` | planner/plan_and_solve.go:65-92 | The outcome and the whole plan afterwards are those of the specification, with each way to be refused |
| `Planner.PlanAndSolvePlanner.NextStep` | planner/plan_and_solve.go:161-179 | The first unfinished step if it is pending, else nothing |
| `Planner.PlanAndSolvePlanner.MarkStepDone` | planner/plan_and_solve.go:210-221 | Exactly the first step with the ID becomes done and gets the result; without one, or without a plan, nothing changes |
| `Planner.PlanAndSolvePlanner.MarkStepFailed` | planner/plan_and_solve.go:223-238 | Exactly the first step with the ID becomes failed and gets the error; without one, or without a plan, nothing changes |
| `Planner.PlanAndSolvePlanner.Replan` | planner/plan_and_solve.go:240-257 | The old plan is gone even if no new one can be generated |
| `Planner.PlanAnswersWhen` | planner/plan_and_solve.go:73-91 | Planning is refused iff a step runs, hands out exactly the first unfinished step iff none runs and it is pending, and answers with the summary of the results iff none runs and all are finished or the first unfinished one failed |
| `Planner.SummaryQuotesResults` | planner/plan_and_solve.go:193-208 | The final answer quotes number, description and trimmed result of every step done with a result, and says that all is finished if there is none |
| `Planner.PlanKeepsStaged` | planner/plan_and_solve.go:65-92 | Planning keeps: finished steps, at most one running or failed, pending steps |
| `Planner.MarkHitsRunningStepIff` | planner/plan_and_solve.go:210-221 | Marking by ID reaches the running step iff no earlier step has its ID |
| `Planner.ReportKeepsStaged` | agent/loop.go:713-724 | With distinct IDs a report changes the running step and nothing else, and keeps that order |
| `Planner.HandsOutInOrder` | planner/plan_and_solve.go:65-92 | Between two generations, for every sequence of requests and reports, consecutive steps are handed out from the first pending one, each at most once |
| `Planner.FreshPlanHandedOutAsPrefix` | planner/plan_and_solve.go:161-179 | The steps handed out of a fresh plan are a prefix of it, in order |
| `Ring.PushFree` | model/rate_limiter.go:185-189 | Writing behind the last entry of a ring with room appends to the queue |
| `Ring.PushFull` | metrics/metrics.go:47-55 | Writing over the head of a full ring and moving the head drops the oldest entry and appends |
| `Ring.DropLive` | model/rate_limiter.go:163-181 | Moving the head past k entries drops them, whatever was written over them |
| `Ring.ExpiredExactly` | model/rate_limiter.go:163-171 | In time order the expired entries are exactly those no newer than the cutoff |
| `RateLimiting.TokenBucket.constructor` | model/rate_limiter.go:19-26 | The bucket starts full |
| `RateLimiting.TokenBucket.Refill` | model/rate_limiter.go:73-82 | Refills for the time since the last refill, up to the capacity |
| `RateLimiting.TokenBucket.Allow` | model/rate_limiter.go:29-39 | One attempt at a clock reading, as specified |
| `RateLimiting.TokenBucket.Wait` | model/rate_limiter.go:42-70 | For any rate: admits by exactly one successful attempt, after which it stops; with room for one token and a positive rate the second round succeeds; without a positive rate and a token it never admits |
| `RateLimiting.TokensAccount` | model/rate_limiter.go:29-82 | Over every run tokens stay within 0 and the capacity, and admissions plus tokens left are at most the tokens at the start plus the refill |
| `RateLimiting.BucketIntervalBound` | model/rate_limiter.go:29-82 | On every contiguous segment of a run at most capacity + refillRate * elapsed requests are admitted |
| `RateLimiting.RefusedIff` | model/rate_limiter.go:29-39 | Over every run an attempt is refused if and only if admitting it would break a bound: the bucket holds no token at all, or the tokens at the start or a full bucket at an earlier attempt do not pay, with the refill since then, for what has been admitted since and this one |
| `RateLimiting.RangeHoldsIff` | model/rate_limiter.go:19-26 | Tokens stay in range in every run of a new bucket iff neither capacity nor rate is negative |
| `RateLimiting.WaitTimeSuffices` | model/rate_limiter.go:60-61 | After the truncated sleep and one more nanosecond a token is there |
| `RateLimiting.WaitTimeIsNeeded` | model/rate_limiter.go:60-61 | Before the computed sleep is over there is no token |
| `RateLimiting.SlidingWindow.ClearExpired` | model/rate_limiter.go:163-175 | Counts exactly the expired front and leaves the other slots alone |
| `RateLimiting.SlidingWindow.Cleanup` | model/rate_limiter.go:156-182 | The ring holds the queue without its expired front |
| `RateLimiting.SlidingWindow.AddRequest` | model/rate_limiter.go:185-194 | Appends to the queue, dropping the oldest entry if the ring is full |
| `RateLimiting.SlidingWindow.Allow` | model/rate_limiter.go:111-122 | One attempt with its two clock readings, as specified |
| `RateLimiting.SlidingWindow.Count` | model/rate_limiter.go:197-202 | The number of unexpired admissions |
| `RateLimiting.SlidingWindow.WaitRound` | model/rate_limiter.go:132-146 | A refused round sleeps exactly until the oldest entry expires; with no slots at all it indexes an empty ring |
| `RateLimiting.SlidingWindow.Wait` | model/rate_limiter.go:125-153 | Also while others use the window between its attempts: what is admitted is a run of attempts in time order that ends with its own; undisturbed, the second attempt succeeds; it panics iff the window has no slots and the context is not done at once |
| `RateLimiting.CleanedIsUnexpired` | model/rate_limiter.go:156-182 | The ring always equals the queue of the admissions of the whole history still inside the window |
| `RateLimiting.RunHolds` | model/rate_limiter.go:111-194 | Every run of attempts keeps ring and whole admission history in that relation, and the history spaced |
| `RateLimiting.WindowGuarantee` | model/rate_limiter.go:111-194 | Over whole runs any maxReqs + 1 consecutive admissions span at least the window size, and no half-open interval of that length holds more than maxReqs |
| `RateLimiting.WindowAdmitsIff` | model/rate_limiter.go:111-122 | Over whole runs an attempt is admitted if and only if fewer than maxReqs admissions are newer than one window before it |
| `RateLimiting.RateLimiter.Allow` | model/rate_limiter.go:223-225 | One attempt on the bucket, one on the window only if the bucket gives a token, in time order; admitted iff both admit |
| `RateLimiting.RateLimiter.Wait` | model/rate_limiter.go:228-235 | The attempts on the bucket and then on the window, in time order; at most one token is taken and at most one entry made, and no entry without the token; admitted iff the entry is made |
| `RateLimiting.LimiterSplits` | model/rate_limiter.go:205-235 | Over any sequence of Allow and Wait calls the combined limiter is its bucket on all bucket attempts and its window on all window attempts, and admits at most what the bucket does |
| `RateLimiting.CombinedGuarantee` | model/rate_limiter.go:205-235 | Over any mix of Allow and Wait calls: on every contiguous segment the combined limiter meets the bucket bound, and over the whole run the window bound |
| `Metrics.SlidingWindowCounter.Cleanup` | metrics/metrics.go:58-76 | Both rings hold the samples without their expired front |
| `Metrics.SlidingWindowCounter.Add` | metrics/metrics.go:41-56 | Appends the sample after a cleanup, overwriting the oldest of a full ring; panics iff there is no room at all |
| `Metrics.SlidingWindowCounter.RPM` | metrics/metrics.go:78-94 | The number of live calls, per minute of the window |
| `Metrics.SlidingWindowCounter.TPM` | metrics/metrics.go:96-118 | The sum of the live token counts, per minute of the window |
| `Metrics.RunHolds` | metrics/metrics.go:41-76 | Over every run the rings hold the end of the full history, and what they lack has expired or been overwritten |
| `Metrics.CounterShowsFullHistory` | metrics/metrics.go:41-118 | For calls in time order, what a cleanup leaves is exactly the last maxSamples of all calls newer than now minus the window, with their tokens, in order |
| `Metrics.PerMinuteMeans` | metrics/metrics.go:88-93 | The rate times the window is the amount times a minute |
| `Parallel.StepKeepsValid` | executor/parallel.go:45-76 | Every step of the caller or a worker keeps: filled slots are running workers, the wait group counts the unfinished, a result is there once its worker has stored it |
| `Parallel.BatchSafety` | executor/parallel.go:34-78 | In every interleaving, with cancellation anywhere, at most as many workers hold slots as there are actions, and as a positive limit says; no result is written twice, and on return each is there and names its tool |
| `Parallel.LimitIsReached` | executor/parallel.go:39-44 | Some interleaving has as many workers running as the limit allows, all of them without a limit or with fewer actions |
| `Parallel.BatchResults` | executor/parallel.go:52-74 | On return, result i is what worker i executed, or the context error of a context done before it got a slot |
| `Parallel.NeverStuck` | executor/parallel.go:43-77 | Until the caller returns some step other than a cancellation is possible |
| `Parallel.BatchCompletes` | executor/parallel.go:34-78 | A schedule has at most 5 * n + 2 steps, and one that cannot be continued has returned |
| `Hybrid.RRFMerger.Add` | retriever/hybrid.go:35-53 | The map holds each ID met so far with its first occurrence and the sum of its contributions |
| `Hybrid.RRFMerger.Collect` | retriever/hybrid.go:56-63 | Reading the map in any order yields each ID once with its total score |
| `Hybrid.RRFMerger.Merge` | retriever/hybrid.go:21-69 | The result is a ranking of the occurrences: each ID once, first-seen document, summed score, strictly by score and then ID |
| `Hybrid.RankingUnique` | retriever/hybrid.go:64-69 | There is only one ranking, so the order of map iteration does not matter |
| `Hybrid.RankingConserves` | retriever/hybrid.go:45-49 | The scores of the result add up to all contributions |
| `Hybrid.FusedRanking` | retriever/hybrid.go:21-69 | Every ID of the lists appears once, as its first document, with the sum of weight / (k + rank) over its positions in both lists as score, weights 1 and k 60 by default; by falling score, then by ID |
| `Hybrid.ScoreOfDistinct` | retriever/hybrid.go:43-49 | In a duplicate-free list a document scores weight / (k + rank) |
| `Hybrid.AheadInBothStaysAhead` | retriever/hybrid.go:35-69 | In duplicate-free lists with positive weights, a document ahead of another in both lists has the higher score and stands ahead of it |
| `ToolStream.ToolCallAccumulator.AddDelta` | model/provider/openai/openai.go:176-188 | The accumulator says what its deltas say: last non-empty ID and name, all argument text in order |
| `ToolStream.ToolCallAccumulator.ToModel` | model/provider/openai/openai.go:190-202 | It fails exactly if there is argument text that cannot be decoded; else the call has the ID, the name and the decoded arguments, an empty object for none and for a JSON null |
| `ToolStream.LastOnes` | model/provider/openai/openai.go:176-183 | ID and name are those of the last delta that has one |
| `ToolStream.Absorb` | model/provider/openai/openai.go:438-445 | Each index has its own accumulator, which holds exactly what the deltas of that index say, whatever is interleaved |
| `ToolStream.SortedKeys` | model/provider/openai/openai.go:452-456 | The indices met, each once, in increasing order, however the map is iterated |
| `ToolStream.Stream` | model/provider/openai/openai.go:396-481 | The content emitted is all content up to the end mark; the final calls are those of every index in increasing order, or the first undecodable one; cancelled iff the context is done before a line is handled |
| `ToolStream.InterleavingInvariance` | model/provider/openai/openai.go:438-465 | Streams with the same deltas per index have the same outcome |
| `ToolStream.SwapNeighbours` | model/provider/openai/openai.go:438-445 | Neighbouring deltas of different indices may change places |
| `ToolStream.ResplitArguments` | model/provider/openai/openai.go:184-186 | Cutting an argument text in two changes nothing |
| `ToolStream.StreamRoundTrip` | model/provider/openai/openai.go:438-465 | Calls cut into fragments and interleaved in any way come out in order with their IDs, names and decoded arguments, an empty object for no text or null, if and only if every non-empty text can be decoded; else the first that cannot is reported |

## Left out

- RateLimiting.TokenBucket.Wait: models any given number of rounds; the source loops until it is admitted or its context is done. With rate 0 the sleep is infinite and its conversion to a duration depends on the machine, so any duration is allowed. A timer is taken to fire strictly later than it was set for.
- RateLimiting.SlidingWindow.Wait: models any given number of rounds, with the others' attempts between a refused round and the next; the source goes round as often as it is refused.
- RateLimiting.RateLimiter.Wait: models requests to the combined limiter one after the other; with concurrent callers one may hold a token across another's request.
- RunLoopTranscript.WellFormedIffNotFirstAttempt: needs a memory that neither trims nor fails; `WindowKeepsWellFormedIff` says what trimming does, and a failed store operation can lose a call or a result.
- RunLoopTermination.RunTerminates: counts turns; that models, tools, humans and stores return is an assumption on the environment.
- Planner.PlanAndSolvePlanner.Plan: assumes that the planner has a model; without one the source refuses every request.
- Planner.FreshPlan: takes the parsed steps as input; extracting JSON from the model's answer and mapping raw steps to actions are not modelled, nor are planner prompts and completed-work notes.
- Compressor.Compress: takes the rendered summary text as input; the model call and its JSON answer are not modelled, and `ShouldCompress` is left to the environment.
- LoopDetection.LoopDetector.Record: keeps the tool input itself instead of a hash of its JSON form, so hash collisions and inputs that cannot be marshalled (which all hash alike) are not captured.
- ToolStream.Stream: takes the lines already decoded; HTTP, SSE framing, usage counts and `StreamIterator` are not modelled, and the JSON decoder of arguments is a parameter.
- Hybrid.RRFMerger.Merge: keeps its accumulators as values in the map and sorts with an insertion sort of its own in place of the library's; scores are real numbers, so NaN and infinite weights do not occur. `HybridRetriever.Retrieve` is not modelled.
- Parallel.BatchSafety: the tool's execution is one step; panicking tools are not modelled. The first part of the batch (an empty list returns nil at once) coincides with a batch of no workers.
- Numbers: times are unbounded integers in nanoseconds and tokens are reals; overflow and floating-point rounding are not modelled. Negative ring sizes, with which the constructors panic, are excluded by type.
- Strings are sequences of bytes; Unicode white space and case folding beyond ASCII are not modelled.
- The text of a tool result after truncation is an input of each turn, as truncation and the content store are not modelled.
- Checkpoints, hooks, loggers, durations and streaming of planning rounds have no effect on the loop's state and are left out; so is resuming from a checkpoint.
- The agent's planner, interrupter, evaluator and schema are fixed for a run; the source lets a caller replace some of them between turns.
- The session's loop runs on the in-memory store behind a window; running it on the summarising memory is not modelled.
- Locks are not modelled: each method of the limiters, metrics and memories is one step.
- `WaitForHuman` and its timeout goroutine are an input; so are tool registries, rules, skills and concrete evaluators.
- Actions are values, so the sharing of the pending action with the remembered execution through a pointer is not modelled; the loop never writes to the action while it is shared.
