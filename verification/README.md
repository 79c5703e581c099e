# Verification of the agent loop, the proxy client, the crawler and the transcript packer

A Dafny 4.11 project that models four stateful algorithms of the repository and proves
what they promise. `dafny verify dfyconfig.toml` checks everything.

**The agent loop and its stateful wrapper** (`Basics`, `Messages`, `Grammar`, `Transcript`,
`PendingQueue`, `ToolExecution`, `ToolSchedule`, `ToolPhase`, `Streaming`, `RunLog`,
`Awaiting`, `Delivery`, `AgentLoops`, `Agents`, `Lifecycle`). A run is described in three independent ways, and the
loop's methods are proved to keep all three in step:

* the *trace* of emitted events, read by a monitor (`Grammar`) that knows nothing of the loop
  and rejects by getting stuck in `Bad`;
* the *transcript* an agent folds from those events (`Transcript`), compared at every
  `turn_end` and `agent_end` with the loop's private context;
* the *log* of queue polls, model requests and answers (`RunLog`), ordered by rules from which
  pairing, injection discipline, queue conservation and the turn bound follow.

The model is an arbitrary list of replies; when the list is used up the run waits at its next
request, so every state in which any run, finite or not, calls the model is covered. Tools
and hooks are arbitrary functions of their arguments and of the call's position. Every emitted
event is an await point at which anybody may queue messages and switch queue modes. Concurrent
tool execution is a small-step system under an arbitrary scheduler.

What a call, a poll or a line comes to is stated on its input, apart from the functions the loop
uses: on the blocks of the content, on the fields of tools and hooks, on what waits in a queue
and on its mode, on the characters of a line.

**The proxy stream client** (`LineFramer`, `ProxyEvents`, `ProxyStream`): incremental line
framing refines framing of the whole text, the fold of stripped delta events is described
per content index without replaying it, and both meet in what arrives of a provider's events
end to end. The framing is a one-`data:`-line-per-event subset
of the event stream format (WHATWG HTML Living Standard, sections 9.2.5 and 9.2.6).

**The crawler** (`Crawler`): breadth-first search with mark-on-dequeue, proved against link
distance and against the order in which the web holds its links. **The packer** (`Packer`): greedy packing, proved optimal.

Where the code differs from its documentation the model follows the code:
`packages/agent/src/types.ts` (lines 31-33) and the package README say that parallel mode
delivers tool results in assistant source order. It does exactly when no immediate outcome
(unknown tool, rejected arguments, blocked call) follows a prepared call; see
`ToolExecution.SourceOrderIff` and `ToolExecution.SourceOrderCounterexample`. In the packer the
inner flush of pending content before an oversize transcript
(`scripts/session-transcripts.ts`, lines 215-222) can never run.

A throw is modelled where it happens. Listeners of events and the other calls a run makes into
code that is not its own (context transforms, key lookup, the model stream and its result, the
after hook) belong to a `Host`, an arbitrary function that says which of these calls throw;
listeners are told everything emitted so far. The error passes through every caller up to the
run. Every step of the loop throws exactly when the host has thrown, with an error the host
threw, and says what it leaves behind.

Two properties do not hold throughout, and the model says exactly where they do:

* a run delivers every prompt and every message it drained exactly when no listener throws on
  the path of one of its batches before the end of the batch's last message; the path, and so
  the condition, is known when the batch is drained (`Delivery.Loses`,
  `Agents.Agent.DeliversAllIff`). `AgentLoops.LoseQueuedMessage` runs the loop into a loss;
* a provider's message survives stripping and rebuilding exactly when the stripped events
  explain it: each block starts blank and is the concatenation of its deltas
  (`ProxyEvents.FinalMessageIff`, `ProxyEvents.RoundTripIff`). Among the repository's own
  providers, `packages/ai/src/providers/anthropic.ts` (lines 303-311) starts redacted thinking
  with text in it; `google.ts` (lines 184-193), `google-vertex.ts` (lines 202-209) and
  `google-gemini-cli.ts` (lines 655-665) start a call with its arguments filled in, and
  `anthropic.ts` (lines 313-322) fills them from the block's input; and
  `openai-responses-shared.ts` (lines 430-447) replaces text and thinking at their end. The
  equivalence speaks of the fields the events carry or the client keeps; `redacted`,
  `thoughtSignature` and `responseId` (`packages/ai/src/types.ts`, lines 150, 164, 196) are
  never sent and never survive.

Assumed of the surroundings: a stream has at most one `start`
(`packages/ai/src/types.ts`, lines 229-236) wherever a whole run is concerned, though not in
`Streaming`, which covers every stream; hooks and listeners do not change the shared
arrays; `reset()` is not called during a run.

## Model

| member | source | states |
|---|---|---|
| ToolSchedule.ScheduleIndependence | packages/agent/src/agent-loop.ts:417-438 | for every interleaving of executions and the finalizing loop, a finished phase has the same results and the same trace without partial updates, fixed by each call's own outcome; each call streamed exactly its updates, in order, before its end |
| ToolSchedule.ExecuteInv | packages/agent/src/agent-loop.ts:417-438 | at every moment of every interleaving the lasting trace and the results depend only on the loop's position, each call has streamed a prefix of its updates, and no update follows its call's end |
| ToolSchedule.StepInv | packages/agent/src/agent-loop.ts:417-438 | each single step of an execution or of the finalizing loop keeps those invariants |
| ToolSchedule.Progress | packages/agent/src/agent-loop.ts:422-435 | an unfinished concurrent phase always has a step that can be taken |
| ToolSchedule.StepWorks | packages/agent/src/agent-loop.ts:417-435 | every step uses up work, so every interleaving ends |
| Messages.CallsAreBlocks | packages/agent/src/agent-loop.ts:343 | the tool calls of a response are the call blocks of its content: at ascending positions, and every call block is among them |
| ToolExecution.ParallelIsPermutation | packages/agent/src/agent-loop.ts:401-435 | parallel mode delivers every call exactly once |
| ToolExecution.ParallelIsStablePartition | packages/agent/src/agent-loop.ts:350-438 | parallel results are the stable partition of the sequential ones: immediate outcomes first, then executed calls |
| ToolExecution.SourceOrderIff | packages/agent/src/types.ts:31-33 | parallel delivery is in source order if and only if no immediate outcome follows a prepared call |
| ToolExecution.SourceOrderCounterexample | packages/agent/src/agent-loop.ts:401-415 | a concrete response, a call that runs and then an unknown tool, whose results come in reverse order |
| ToolExecution.PickSound | packages/agent/src/agent-loop.ts:401-415 | each pass handles exactly the calls of its kind, in source order |
| ToolExecution.FindsFirst | packages/agent/src/agent-loop.ts:479-486 | the tool used is the first of its name, and none is found only if there is none |
| ToolExecution.RefusedFails | packages/agent/src/agent-loop.ts:472-522 | a call of no tool, or whose arguments its tool does not accept, or that beforeToolCall blocks or throws on, never runs its tool: its outcome is an error result with exactly that reason, or the default text |
| ToolExecution.RefusedIsBlind | packages/agent/src/agent-loop.ts:472-522 | the outcome of a refused call is the same in every two worlds that differ only in what tools do when they run and in afterToolCall |
| ToolExecution.AllowedRuns | packages/agent/src/agent-loop.ts:524-595 | a call that is accepted and not blocked runs the first tool of its name on the arguments the hook leaves; what it gives, a throw being an error, is its outcome, in which afterToolCall replaces exactly the fields it gives |
| ToolExecution.RefusedOrAllowed | packages/agent/src/agent-loop.ts:472-522 | a call is immediate iff it is rejected or blocked, and runs iff it is accepted and not blocked; every call is one of the two |
| ToolPhase.ScheduleStep | packages/agent/src/agent-loop.ts:417-435 | every step of every schedule emits an event the grammar accepts, and moves the monitor along |
| ToolPhase.PhaseCloses | packages/agent/src/agent-loop.ts:205-214 | after a tool phase the turn may end, and every call of the response has exactly one result |
| ToolPhase.StreamsWhatRuns | packages/agent/src/agent-loop.ts:524-559 | a call that runs streams exactly the partial results of its tool, in order, as updates of that call; a refused call streams nothing |
| ToolPhase.PhaseStreams | packages/agent/src/agent-loop.ts:350-438 | in either mode and under any scheduler the updates of a phase are an interleaving of what its calls stream, each call's in order, call by call in sequential mode, and none of a refused call |
| ToolPhase.ParallelResults | packages/agent/src/agent-loop.ts:398-437 | what the two passes collect is the parallel delivery order |
| Grammar.CompleteShape | packages/agent/src/agent-loop.ts:172-231 | a complete trace opens with agent_start and closes with the only agent_end, right after a turn_end without tool results; agent_end carries all message_end messages in order, the last of them the response of that turn_end |
| Grammar.TurnsAlternate | packages/agent/src/agent-loop.ts:172-214 | between two turn_starts there is a turn_end, and between two turn_ends a turn_start |
| Grammar.BracketsDoNotNest | packages/agent/src/agent-loop.ts:604-631 | between a message_start and its message_end only updates occur, whatever tools run |
| Grammar.TurnEndAnswersAll | packages/agent/src/agent-loop.ts:193-214 | in every accepted trace each turn_end reports one tool result per call block of its response's content, each id as often as it is called, and none for a response that is an error or was aborted |
| Grammar.StartedCallsAreBlocks | packages/agent/src/agent-loop.ts:190-206 | every tool call started in a turn is a call block of the response that its turn_end carries, and that response is neither an error nor aborted |
| Grammar.AlwaysAccounted | packages/agent/src/agent-loop.ts:360-435 | at every event each started call is running, or has its result message in delivery, or has its result: ids are conserved with multiplicity |
| Grammar.EndedIsTraced | packages/agent/src/agent-loop.ts:180-231 | the monitor's message list is the trace's message_end messages |
| Transcript.TranscriptIsEnded | packages/agent/src/agent.ts:491-518 | the folded transcript is the earlier one followed by the message_end messages |
| Transcript.PendingIsUnfinished | packages/agent/src/agent.ts:506-518 | for every trace, repeated ids included, an id is pending iff its latest start has no later end |
| Transcript.PendingEmptyAtTurnEnd | packages/agent/src/agent.ts:506-518 | in accepted traces no call is pending at turn_end or agent_end, and in sequential mode never more than one is |
| Transcript.PendingIsRunning | packages/agent/src/agent.ts:506-518 | every pending id belongs to a call that is still running |
| Transcript.StreamingIsOpenBracket | packages/agent/src/agent.ts:493-505 | streamingMessage is the message whose bracket is open, with its latest content, and absent otherwise |
| Transcript.ErrorIsLatest | packages/agent/src/agent.ts:520-524 | errorMessage is the error text of the latest turn whose response carries a non-empty one |
| Transcript.AgentState.ProcessEvent | packages/agent/src/agent.ts:491-530 | the object's state follows the reducer that the lemmas are about |
| PendingQueue.PendingMessageQueue.Enqueue | packages/agent/src/agent.ts:117-119 | appends, and keeps what was queued equal to what was drained followed by what waits |
| PendingQueue.PendingMessageQueue.Drain | packages/agent/src/agent.ts:125-138 | in mode all takes everything and leaves nothing; in mode one-at-a-time takes exactly the oldest message, if there is one; loses nothing and keeps order |
| PendingQueue.PendingMessageQueue.Clear | packages/agent/src/agent.ts:140-142 | drops what waits and nothing that was drained |
| PendingQueue.PendingMessageQueue.HasItems | packages/agent/src/agent.ts:121-123 | true iff something queued has not been drained |
| Streaming.StreamingNetsOneAppend | packages/agent/src/agent-loop.ts:273-330 | the context gains exactly the final message iff the stream has at most one start; every further start leaves one abandoned partial in front of it |
| Streaming.StreamTraceCounts | packages/agent/src/agent-loop.ts:276-330 | the trace gains one message_start per start (one if none), one update per update event after a start, and one message_end for the final message |
| Streaming.SlotAt | packages/agent/src/agent-loop.ts:277-303 | the entry a start has appended holds the partial of the latest event before the next start |
| Streaming.EmissionAt | packages/agent/src/agent-loop.ts:277-303 | every start, and every update after some start, emits one event with its own partial, in order; an update before any start emits nothing |
| RunLog.RequestsArePaired | packages/agent/src/agent-loop.ts:180-217 | at every model request each earlier response did not fail and stands in the context followed at once by its results: one tool result per call block of its content, each id as often as it is called |
| RunLog.FailureEndsRun | packages/agent/src/agent-loop.ts:194-198 | a response that is an error or was aborted has no results and is the last entry of its run; a finished run whose last entry is a response ended on such a one |
| RunLog.PollTakes | packages/agent/src/agent.ts:125-138 | every poll but the first takes everything that waits in mode all, and exactly the oldest message, if there is one, in mode one-at-a-time |
| RunLog.ContextIsPaired | packages/agent/src/agent-loop.ts:180-217 | at every request the context is the base and what the run added; read from the front, what it added is paired (each response followed by one block of its results, no result elsewhere) if and only if every batch the queues gave is |
| RunLog.FollowUpDiscipline | packages/agent/src/agent-loop.ts:216-224 | follow-ups are polled only right after a steering poll that found nothing waiting, after a response without a call block |
| RunLog.OneInjectionPerResponse | packages/agent/src/agent.ts:132-137 | in one-at-a-time mode at most one message enters between two requests |
| RunLog.TurnBound | packages/agent/src/agent-loop.ts:168-229 | responses number at most one, plus those whose content holds a call block, plus the queue messages drained after the first request |
| RunLog.WaitingIsPaidFor | packages/agent/src/agent-loop.ts:168-229 | while a run waits at a request, every response it has had is paid for by a response whose content holds a call block or by a drained message, so finite calls and finite queue input end a run |
| RunLog.RequestsArePaidFor | packages/agent/src/agent-loop.ts:168-229 | the stronger count that makes the bound inductive |
| RunLog.OriginsAccount | packages/agent/src/agent-loop.ts:180-224 | every message a run adds has one origin, and the messages of each origin are, in order, what was drained from that queue or what the model and the tools answered |
| Delivery.LosesIff | packages/agent/src/agent-loop.ts:180-188 | a run that has thrown loses a message iff some listener throws on the path of one of its batches before the end of the batch's last message |
| Delivery.SafeLosesNothing | packages/agent/src/agent-loop.ts:173-188 | a host whose listeners do not throw at agent_start, turn_start, message_start and message_end makes no batch of any run lose a message, whatever else throws |
| AgentLoops.LoseQueuedMessage | packages/agent/src/agent.ts:491-528 | an execution of the loop that loses a drained message: the listeners throw at its message_start, and it is in neither the queue nor the transcript |
| Awaiting.NothingThrewIff | packages/agent/src/agent.ts:524-528 | the recorded errors are empty iff no listener and no other outside call of the run threw |
| RunLog.FinishedEndsInResponse | packages/agent/src/agent-loop.ts:194-231 | a run that ended leaves a response as its last message |
| RunLog.StopsOnlyWhenIdle | packages/agent/src/agent-loop.ts:216-231 | a run that ends without a failure found both queues empty, after a response without a call block |
| AgentLoops.AgentLoop.EmitBoundary | packages/agent/src/agent-loop.ts:194-231 | turn_end and agent_end are emitted with the private context, the snapshot with newMessages, and the folded transcript all equal, which is recorded for that event |
| AgentLoops.AgentLoop.Emit | packages/agent/src/agent.ts:491-528 | the event is processed, then its listeners decide whether the emission throws |
| AgentLoops.AgentLoop.RunLoop | packages/agent/src/agent-loop.ts:155-232 | throws exactly when something outside has thrown; otherwise keeps the log's order, both queue accounts and the grammar, has every batch delivered, consumes the replies in order, and ends with agent_end carrying the new messages or waits at a request; has ended once there were more replies than replies with calls and queued messages; the first poll takes what its mode gives unless skipped; after a throw only the end of the newest batch is undelivered. That the two transcripts agree at each turn_end and agent_end is the precondition under which `EmitBoundary` emits them |
| AgentLoops.AgentLoop.RunTurns | packages/agent/src/agent-loop.ts:172-217 | the inner loop: throws exactly when something outside has thrown; stops only without tool results and pending messages, one reply consumed per turn |
| AgentLoops.AgentLoop.OpenTurn | packages/agent/src/agent-loop.ts:173-188 | turn_start except on the first turn, injection, and the request with the full context |
| AgentLoops.AgentLoop.Inject | packages/agent/src/agent-loop.ts:180-188 | pending messages enter the trace, the context and newMessages alike |
| AgentLoops.AgentLoop.Respond | packages/agent/src/agent-loop.ts:190-214 | one response and its tool results enter both lists, and turn_end reports them: tools run iff the response is no error, not aborted and holds a call block, and then every call block is answered |
| AgentLoops.AgentLoop.CloseTurn | packages/agent/src/agent-loop.ts:190-216 | the run ends, with agent_end and without polling, if and only if the response is an error or was aborted; otherwise steering is polled once |
| AgentLoops.AgentLoop.GetSteeringMessages | packages/agent/src/agent.ts:423-429 | takes everything in mode all, the oldest message in mode one-at-a-time, nothing on a skipped first poll, and records it |
| AgentLoops.AgentLoop.GetFollowUpMessages | packages/agent/src/agent.ts:430 | takes everything in mode all, the oldest message in mode one-at-a-time, and records it |
| AgentLoops.AgentLoop.PollFollowUps | packages/agent/src/agent-loop.ts:219-229 | follow-ups give another round of turns; without any the run may end |
| AgentLoops.AgentLoop.StreamAssistantResponse | packages/agent/src/agent-loop.ts:238-331 | for every stream, context and trace grow by what Streaming says; with at most one start as one bracket |
| AgentLoops.AgentLoop.HandleStreamEvent | packages/agent/src/agent-loop.ts:277-303 | a start appends, a later event overwrites the last slot, an event before any start is ignored |
| AgentLoops.AgentLoop.ExecuteToolCalls | packages/agent/src/agent-loop.ts:336-348 | in either mode the results of the tool phase, and nothing emitted but its events: call by call in sequential mode, the preparation pass and then a schedule that has come to its end in parallel mode |
| AgentLoops.AgentLoop.ExecuteToolCallsSequential | packages/agent/src/agent-loop.ts:350-388 | one result per call in source order, and the exact events: each call's start, its updates, its outcome |
| AgentLoops.AgentLoop.PrepareToolCalls | packages/agent/src/agent-loop.ts:401-415 | starts in source order, immediate outcomes at once, the rest left to run |
| AgentLoops.AgentLoop.RunConcurrently | packages/agent/src/agent-loop.ts:417-437 | under any scheduler the trace is that of a schedule of the small-step system, a finished one unless something outside threw, and then the results and the lasting trace are those of the calls; an error of a call's update listeners surfaces when the loop awaits that call |
| AgentLoops.AgentLoop.EmitToolCallOutcome | packages/agent/src/agent-loop.ts:604-631 | ends a running call and brackets its result message |
| AgentLoops.AgentLoop.ExecutePreparedToolCall | packages/agent/src/agent-loop.ts:524-559 | exactly the call's partial results are emitted, while the call runs, even if their listeners throw; a throwing tool becomes an error outcome |
| AgentLoops.AgentLoop.RunAgentLoop | packages/agent/src/agent-loop.ts:95-118 | a run from prompts: throws exactly when something outside has thrown, never in a host that never throws; complete trace when it ends, both transcripts equal, ended once finite input is used up; after a throw an accepted trace and at most the end of the newest batch undelivered |
| AgentLoops.AgentLoop.RunLosesIff | packages/agent/src/agent-loop.ts:155-232 | a run, however it ended, loses a message iff a listener throws on the path of one of its batches before the end of the batch's last message |
| AgentLoops.AgentLoop.QueuesConserved | packages/agent/src/agent-loop.ts:155-232 | everything queued was drained before the run, or stands in newMessages after the prompts in queue order, or still waits; every added message has one origin |
| AgentLoops.AgentLoop.CrashConserves | packages/agent/src/agent-loop.ts:155-232 | the same of a run that threw: everything drained was delivered or is in the lost end of the newest batch, and the transcript is the message_end messages |
| AgentLoops.AgentLoop.RunAgentLoopContinue | packages/agent/src/agent-loop.ts:120-143 | refused, with which error, iff the context is empty or ends in an assistant message; otherwise a run without prompts, which throws exactly when something outside has thrown |
| Agents.Agent.Prompt | packages/agent/src/agent.ts:312-320 | refused, changing nothing, iff a run is active; otherwise one run, which fails iff something outside it threw, and whose transcript is the fold of its trace and is accounted for by log, batches and queues (its agreement with the private context at boundaries is what `EmitBoundary` demands) |
| Agents.Agent.Continue | packages/agent/src/agent.ts:323-350 | exactly when it is refused, and why; everything that waits, or the oldest message, as the queue's mode says, becomes the prompts, with the first steering poll skipped after steering; the run fails iff something outside it threw |
| Agents.Agent.RunWithLifecycle | packages/agent/src/agent.ts:434-457 | fails iff something outside threw, with an error thrown there, and in a host that never throws completes or waits; after completion the trace is complete; after a throw the transcript is the message_end messages and then the failure; either way the agent is idle, its transcript ends in an assistant message, and the queue accounts hold |
| Agents.Agent.QueuesConserved | packages/agent/src/agent.ts:423-457 | everything queued was drained before the run, drained by it, or still waits; what it drained stands in the transcript, or, if the run threw, is missing at the end of the newest batch |
| Agents.Agent.DeliversAllIff | packages/agent/src/agent.ts:423-457 | a run delivers every prompt and drained message iff no listener throws on the path of one of its batches before the end of the batch's last message; always if listeners do not throw at the events that deliver messages |
| Agents.Agent.ErrorOfRun | packages/agent/src/agent.ts:434-524 | after a completed run errorMessage is the error text of its latest response that carries one, and absent if none does, whatever it was before |
| Agents.Agent.HandleRunFailure | packages/agent/src/agent.ts:459-474 | the transcript ends in an assistant message without text, marked as aborted or as an error, which carries the error, as errorMessage does, even if the listeners of its agent_end throw |
| Agents.Agent.FinishRun | packages/agent/src/agent.ts:476-482 | clears the runtime flags |
| Lifecycle.LifecycleSafety | packages/agent/src/agent.ts:312-482 | for every interleaving of calls, events, returns of complete runs and throws: never two runs, and between runs the agent is idle and, once a run has settled, its transcript ends in an assistant message |
| Lifecycle.RunsDoNotMix | packages/agent/src/agent.ts:312-482 | what is observed of one call is one unbroken stretch; the transcript is the initial one followed by what was observed, each run's messages in one block; a run that settled without a failure showed a complete trace |
| Lifecycle.RefusedForGood | packages/agent/src/agent.ts:313-325 | a call made while a run is active is refused for good and nothing of it ever shows |
| Lifecycle.ApplySafe | packages/agent/src/agent.ts:434-482 | every synchronous segment keeps the flags right and the transcript ending in a response between runs |
| LineFramer.FrameIsWhole | packages/agent/src/proxy.ts:154-180 | the lines handled incrementally are the newline-terminated lines of the whole text, and the tail stays behind |
| LineFramer.ChunkingInvariance | packages/agent/src/proxy.ts:154-180 | two cuttings of one text give the same lines |
| LineFramer.SplitConcat | packages/agent/src/proxy.ts:164-166 | splitting a concatenation depends on the first part only through its lines and its tail |
| LineFramer.SplitIsInverse | packages/agent/src/proxy.ts:165 | splitting loses nothing, and no piece holds a newline |
| LineFramer.JoinIsInverse | packages/agent/src/proxy.ts:165 | splitting undoes joining of newline-free lines |
| ProxyEvents.Reconstruction | packages/agent/src/proxy.ts:211-340 | each rebuilt block is the in-order concatenation of its own deltas since its latest start, with its signature, and for a call the parse of its JSON text, whatever order the events come in |
| ProxyEvents.JsonIsConcatenationIff | packages/agent/src/proxy.ts:279-312 | a call's JSON text is the concatenation of its deltas iff no delta came after its end, or what it had gathered by then was the word undefined itself |
| ProxyEvents.LateDeltaExample | packages/agent/src/proxy.ts:279-312 | a concrete sequence in which a delta after the end of its call is appended to the word undefined |
| ProxyEvents.InterleavingIndependence | packages/agent/src/proxy.ts:211-321 | a block depends only on the events of its own index |
| ProxyEvents.RebuildsIffAddressed | packages/agent/src/proxy.ts:223-306 | processing throws iff some delta, text end or thinking end addresses a block of another kind or none |
| ProxyEvents.FinalMessageIff | packages/agent/src/proxy.ts:33-57 | for arbitrary provider events the client ends with the provider's message iff the stripped events address blocks of their own kind and each block of the message started blank and is the concatenation of its deltas |
| ProxyEvents.FinalEventArrives | packages/agent/src/proxy.ts:323-332 | a provider's final event gives the client its stop reason and usage, and an error event its error text, and leaves the content |
| ProxyEvents.RoundTripIff | packages/agent/src/proxy.ts:33-57 | for arbitrary provider events the client pushes the same events, partial messages included, iff every event shows no more than was sent by then |
| ProxyEvents.RedactedThinkingIsLost | packages/ai/src/providers/anthropic.ts:303-311 | a thinking block that starts with text and gets no delta arrives blank |
| ProxyEvents.ReplacedTextIff | packages/ai/src/providers/openai-responses-shared.ts:430-447 | a text replaced at its end arrives as its deltas, and the message survives iff the replacement is their concatenation |
| ProxyEvents.FilledArgumentsHoldBack | packages/ai/src/providers/google.ts:184-193 | a call that starts with its arguments filled in shows more than was sent |
| ProxyEvents.FilledArgumentsArriveIff | packages/ai/src/providers/google.ts:184-200 | such a call arrives in the end iff parsing its one delta gives its arguments |
| ProxyStream.ProxyClient.ReadAll | packages/agent/src/proxy.ts:154-198 | what the client ends up with is a function of the text that was read and of how reading ended, also when a line throws, a check finds the abort signal set, or a read fails |
| ProxyStream.ProxyClient.ProcessProxyEvent | packages/agent/src/proxy.ts:211-340 | the shared message and the pushed event follow the event's processing; a throw changes nothing |
| ProxyStream.ProxyClient.HandleLine | packages/agent/src/proxy.ts:168-179 | one line: data lines are decoded, processed and pushed, others ignored |
| ProxyStream.ProxyClient.Push | packages/ai/src/utils/event-stream.ts:20-35 | nothing is delivered after a final event |
| ProxyStream.ThrownStays | packages/agent/src/proxy.ts:168-197 | after a throw the rest of the text has no effect |
| ProxyStream.DataIsTrimmed | packages/agent/src/proxy.ts:169-172 | the data of a line is what follows the prefix, without the white space around it |
| ProxyStream.NoDataIff | packages/agent/src/proxy.ts:169-171 | a line is passed over iff it lacks the prefix or only white space follows it |
| ProxyStream.BadLineStops | packages/agent/src/proxy.ts:168-197 | a data line that is no JSON, or whose event throws, stops reading with its error: what was rebuilt and pushed stays, and no later line has an effect |
| ProxyStream.StreamArrives | packages/agent/src/proxy.ts:154-198 | end to end, for every line encoding that decoding gives back: a text with one data line per event, in any chunks, with other lines between and any white space around the data, whose events address blocks of their own kind, gives the message rebuilt from the events and pushes their replay up to the first final event |
| ProxyStream.ProviderArrives | packages/agent/src/proxy.ts:33-198 | from provider to client, through stripping, encoding and any chunking: if every event of the provider shows no more than was sent by then, the client pushes the provider's events |
| ProxyStream.ClosedIsFinal | packages/agent/src/proxy.ts:182-198 | at most one final event is delivered, as the last one; a stream that threw, was aborted or could not be read on has one, and unless one came before it is an error event whose message keeps its content and carries the reason and the error text |
| Crawler.CrawlSite | lib/mcp-cli/wrappers.ts:339-405 | ends on every web; visits exactly the URLs within the depth limit, each once, at its shortest distance and in breadth-first order: the navigations come in the order of the first places (page, then link position) where their URLs stand; pages and broken links partition them; each broken link is blamed on the page where it was first found, one step nearer |
| Crawler.PushLinks | lib/mcp-cli/wrappers.ts:392-398 | queues exactly the unvisited same-origin links of a page above the depth limit, in page order and as often as the page holds them, one level deeper, within the work the page accounts for |
| Crawler.FrontAtDistance | lib/mcp-cli/wrappers.ts:355-360 | an unvisited item at the front of the queue is at its shortest distance |
| Crawler.Covered | lib/mcp-cli/wrappers.ts:355-399 | up to the front's level everything reachable is visited or queued |
| Crawler.VisitKeeps | lib/mcp-cli/wrappers.ts:360-398 | a visit keeps the frontier invariant |
| Crawler.FrontFirstFound | lib/mcp-cli/wrappers.ts:355-360 | an unvisited item at the front of the queue was found at the first place, on all pages visited, that holds its URL |
| Crawler.VisitInLine | lib/mcp-cli/wrappers.ts:360-398 | a visit keeps the queue in the order in which its items were found, behind everything visited, missing no link of a page above the depth limit |
| Crawler.SkipKeeps | lib/mcp-cli/wrappers.ts:359 | skipping an already visited item keeps it |
| Crawler.FrontIsWork | lib/mcp-cli/wrappers.ts:355-398 | every round uses up work, on cyclic and infinite webs alike |
| Crawler.FinishedExactly | lib/mcp-cli/wrappers.ts:355-401 | with an empty queue a URL is visited iff it is within the limit |
| Crawler.SameOriginExactly | lib/mcp-cli/wrappers.ts:382-388 | the filter keeps exactly the links that parse and share the base's origin |
| Crawler.KeptInOrder | lib/mcp-cli/wrappers.ts:382-388 | the kept links stand at ascending positions of the page's links, repeated ones included, and every link of the base's origin is kept |
| Crawler.SelectedInOrder | lib/mcp-cli/wrappers.ts:361-390 | the pages of the report, and its broken links, come in the order of their navigations, every one of them |
| Packer.PackTranscripts | scripts/session-transcripts.ts:196-241 | the files hold the transcripts in order, once each, every file valid, in the fewest files possible, numbered from zero |
| Packer.JoinedSplits | scripts/session-transcripts.ts:233 | a file's content is its transcripts in order with one empty line between two |
| Packer.MaximalIsOptimal | scripts/session-transcripts.ts:201-233 | a grouping none of whose files could take one more transcript uses the fewest files |
| Packer.StaysAhead | scripts/session-transcripts.ts:201-233 | after the same number of files no other valid grouping has placed more transcripts |

## Left out

- AgentLoops.AgentLoop.RunLoop: requires streams with at most one start event; `Streaming` says exactly what more starts do.
- Aliasing of the shared partial message: pushed proxy events carry it as it is when pushed, and later changes to the same object are not shown in earlier events; `runAgentLoopContinue` appending to its caller's own array is likewise not modelled.
- A stream that ends without a final event and whose `result()` never resolves: the model always has a result or throws.
- Executions still running in parallel when another throw ends their run, and tools that keep streaming after they have settled: their later updates change no state.
- The server that strips a provider's events is not part of the repository; `ProxyEvents.Strip` follows the event types of the client.
- Errors before the first read of the proxy stream (the request itself, a bad status): they end as a failed first read does.
- `reset()`, clearing queues through the agent, subscriptions and waiting for idle: thin forwarding.
- Timestamps, usage, costs, images and models: payload that steers nothing.
- JSON parsing and argument validation: parameters, possibly failing.
- Fetching, HTTP status, UTF-8 decoding and logging: input and output.
- Retries of navigation: whether a URL can be navigated and what it links to are fixed functions of the URL.
- Reading sessions, file names beyond their number, and the subagents of the packing script.
- The scoring, audit, readiness, monetization and judge code (formulas and rules over one record each), dashboards, configuration and the command line (input and output).
