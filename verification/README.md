# A verified model of the agent runtime, the proxy client, transcript packing and API tokens

This project models four parts of the repository in Dafny and proves what they promise:

* the agent runtime of `packages/agent` (`agent-loop.ts`, `agent.ts`): the two-level loop of turns, tool batches,
  steering and follow-up messages, the lifecycle events it emits, and the `Agent` that reduces those events into its
  state and owns the message queues;
* the proxy client (`proxy.ts`): the chunked read loop and the in-place reconstruction of a message;
* the packing loop of `scripts/session-transcripts.ts`;
* the base64url codec and the tokens of `api/src/middleware/auth.ts`.

`dafny verify dfyconfig.toml` checks everything.

## How the runtime is modelled

Objects that the source updates in place are classes: `MessageArray` (a JavaScript array that several owners can share),
`PendingMessageQueue`, `Agent`, `PartialMessage`, `ProxyClient`. The loops of the source are loops over them.

The outside world is an `Env` of oracles: the provider, the tools, all hooks, and what other callers do while the run is
suspended (`steer`, `followUp`, `abort`, mode switches, clears). Every oracle is a function of a logical clock that
advances at each await, so it may answer differently each time; a theorem that holds for all oracles holds for every
behaviour of the outside world. Concurrent tool calls are tasks that advance one step at a time, in the order of an
arbitrary scheduler; their termination is proved.

The events of a run are a ghost trace. `Agent.Valid()` says that the agent's state is the reduction of the trace, and that
in both queues what was accepted is what was delivered, is in flight and is queued, in this order. During a run it also
says that the abort signal is set exactly if other code has aborted the run since it began, and that a queue which nobody
has cleared since then has accepted exactly what other code enqueued, after what it had accepted before. `Oracles` defines
what other code enqueues, clears and aborts between two moments, so every await and every poll has an exact contract;
`AgentRuns.NothingIsForgotten` and `AgentRuns.UnabortedRuns` state what follows for whole runs.

The loop also keeps a ghost log with one record per turn. `RunLog.Run` says which logs the rules of the loop allow, and
the methods of `AgentLoop` and `AgentRuns` prove that the trace, the result, the context and the queue ledgers of every
run are those of such a log. Most theorems about whole runs are lemmas about `RunLog.Run`; `AgentRuns.Outcome` ties them
to `prompt()` and `continue()`. `Grammar` is an automaton for the events of a run that knows nothing of the loop;
`RunGrammar` proves that every log is in its language.

A run need not end, so it is observed for at most `limit` turns, for any `limit`. `AgentRuns.Observed` is what `prompt()`
and `continue()` promise: the outcome if the run ends within them, and otherwise the same agreement of trace,
transcript, result and ledgers with a log of `limit` turns. A run that goes on for `limit` turns has had at least
`limit - 1` causes to do so, continuing batches or drained messages; with fewer causes it has settled.

What the loop computes is told a second time without its own functions: `Messages.CallPositions` finds the tool-call
blocks of a message, `ToolAnswers` says what answers a call from the tools, the hooks and the execution alone,
`Streaming.ShowsResponse` what a response shows, and `CallStories.EveryBlockHasItsStory` follows every tool-call block of
every run from the block to the result message.

A parallel batch has a barrier: all calls start, and the refused ones end, before any call that is let through reports
anything (`packages/agent/README.md:104`). `CallIdentity` derives from it when the set of pending identifiers is the set
of running calls.

A tool event carries the position of its call in the batch, which the original events do not have. Without it a trace
could not tell two calls with the same identifier apart.

`Lifecycle` is a separate state machine for what the other modules exclude: listeners that throw, in any interleaving
with the callers of the agent. It shares the agent's state, its reducer and the actions of other code, and
`Lifecycle.IdleAgentsAreSafe` connects the two. It also follows the messages that a run has drained and not yet shown:
`Lifecycle.LostByAFailedTurn` says exactly which of them a failure loses.

## Assumptions

* Hooks documented as not throwing do not throw (`packages/agent/src/types.ts:145`, `:173`, `:206`). `beforeToolCall`,
  `afterToolCall`, argument preparation and tools may throw.
* Listeners do not throw, except in `Lifecycle`.
* A stream sends at most one `start` (`packages/ai/src/types.ts:350-357`).
* Nobody calls `reset()` or assigns `state.messages` during a run.
* The event grammar is a claim about runs that do not fail; `Lifecycle` says exactly when a failing run keeps it.
* HMAC verifies what it signed, and the JSON and text codecs of the platform are inverse to each other
  (`Token.Correct`, used by `Token.CreatedTokensVerify` only). `TextEncoder` returns arrays that span their buffers.
* Transcripts are not empty, as their headers guarantee (`scripts/session-transcripts.ts:186-188`).

## Where code and documentation differ

* `packages/agent/README.md:140` asks for a `user` or `toolResult` message at the end of the context of `continue()`.
  The code also accepts an assistant message there and then turns queued messages into prompts. `AgentRuns.Continue`
  follows the code.
* `agent_end` is documented as the final event of a run (`packages/agent/src/agent.ts:228`). After a listener throws at
  `agent_end`, the failure report emits another one (`Lifecycle.SecondAgentEnd`). `Lifecycle.NestingOfAFailedRun` says
  exactly which events may fail without breaking the nesting, and `Lifecycle.GrammarOfAFailedRun` that the whole grammar
  survives only a failure at the first `turn_start`.
* Drained messages live in the running loop alone (`packages/agent/src/agent-loop.ts:182-190`). If a listener throws
  before the `message_end` of such a message has been processed, it is in no queue and no transcript any more.
* `pendingToolCalls` is a set of identifiers. In a sequential batch it is the running call. In a parallel batch it is the
  set of running calls, at every moment and under every schedule, if and only if no call that is let through has the
  identifier of a later call (`CallIdentity.ParallelExactIffNoLaterTwin`; `CallIdentity.SharedIdsHideACall` has two
  calls that fail it under every schedule).
* The proxy client deletes `partialJson` at `toolcall_end`. A later delta is appended to the text "undefined".
  `ProxyMessage.ArgumentsRightIffReadCorrectly` says exactly when the arguments are the parse of the deltas, and
  `ProxyMessage.LateDeltaIsMisread` gives events for which they are not.
* `EventStream.result()` resolves at a terminal event only, and `streamProxy` ends its stream without a result
  (`packages/agent/src/proxy.ts:213`). A body that ends early without `done` or `error` leaves the caller waiting
  (`packages/agent/src/agent-loop.ts:359`). `ProxyStream.ProxyClient.StreamProxy` says exactly when the response settles.
* `base64UrlEncode` accepts a `Uint8Array` but encodes the whole buffer under it.
  `Base64Url.ViewsMustSpanTheirBuffer` says exactly when that is the same.

## Model

| member | source | states |
|---|---|---|
| `MessageQueue.PendingMessageQueue.Drain` | packages/agent/src/agent.ts:134-147 | a drain takes the oldest messages, all or one according to the mode, keeps the rest in order, and moves what it took to the in-flight part of the ledger |
| `MessageQueue.PendingMessageQueue.Enqueue` | packages/agent/src/agent.ts:126-128 | a message joins the end of the queue and of the accepted messages; the ledger still balances |
| `MessageQueue.PendingMessageQueue.Clear` | packages/agent/src/agent.ts:149-151 | a clear withdraws exactly what is still queued, never what is in flight or delivered |
| `MessageQueue.PendingMessageQueue.HasItems` | packages/agent/src/agent.ts:130-132 | tells whether anything is queued |
| `Runtime.Agent.constructor` | packages/agent/src/agent.ts:201-219 | a new agent is idle, with empty queues and the given transcript |
| `Runtime.Agent.Absorb` | packages/agent/src/agent.ts:509-547 | the state after an event is the reduction of the state before it |
| `Runtime.Agent.ProcessEvents` | packages/agent/src/agent.ts:509-556 | exactly this event is added to the trace, the state stays the reduction of the trace, no drained message moves, one await passes, both queues are what other code made of them in it, and the abort signal is set by an abort of other code and by nothing else |
| `Runtime.Agent.Perform` | packages/agent/src/agent.ts:246-301 | each action of another caller does exactly its own thing: enqueue at the end of its queue, clear it, switch its mode or abort; the other queue, the trace, the state and every drained message stay |
| `Runtime.Agent.Await` | packages/agent/src/agent.ts:553-555 | at an await exactly the actions of other code happen, in their order; unless a queue is cleared what it accepted grows by exactly what was enqueued |
| `Runtime.Agent.GetSteeringMessages` | packages/agent/src/agent.ts:440-446 | the first poll of a run that was started from steering messages returns nothing; any other poll takes exactly what the mode allows from the front of the queue, at most one message in one-at-a-time mode; what it returns is in flight, and what stays queued is exactly what other code makes of the rest |
| `Runtime.Agent.GetFollowUpMessages` | packages/agent/src/agent.ts:447 | the poll takes exactly what the mode allows from the front of the queue and puts it in flight; what stays queued is exactly what other code makes of the rest; the steering ledger is untouched |
| `Events.TranscriptIsEnded` | packages/agent/src/agent.ts:519-522 | for every trace the transcript grows by exactly the `message_end` payloads, in order |
| `Events.StreamingIsTheLatestShown` | packages/agent/src/agent.ts:511-522 | for every trace the streaming message is the one that the latest message event shows, and none if that event or `agent_end` ended it |
| `Events.ErrorIsTheLatestReported` | packages/agent/src/agent.ts:538-542 | for every trace the error of the agent is the one that the latest failed turn reported |
| `Streaming.EveryStreamIsOneMessage` | packages/agent/src/agent-loop.ts:310-367 | every stream that keeps its contract, with updates before the start, without a start, or without a terminal event, is shown as one start, updates, and one end with the final message |
| `Streaming.EveryUpdateIsShown` | packages/agent/src/agent-loop.ts:313-366 | everything that must be shown is: the start of the stream, every later update up to its first terminal event, in order, and the final message; without a start, the final message as start and end |
| `Streaming.StreamAssistantResponse` | packages/agent/src/agent-loop.ts:275-368 | the events show the provider's response completely, the context ends as before plus the final message, and at every emitted event it was the untouched old context plus the one message that the event shows |
| `Streaming.ConsumeStream` | packages/agent/src/agent-loop.ts:313-357 | the overwrites of the last element refine appending: the old prefix stays untouched at every step |
| `ToolExecution.PrepareToolCall` | packages/agent/src/agent-loop.ts:562-626 | the preflight emits nothing and decides by the tool, the arguments, the hook and the abort signal after the hook |
| `ToolExecution.ExecuteAndFinalize` | packages/agent/src/agent-loop.ts:628-708 | execution shows exactly the partial results of the tool and settles exactly this call: without a hook the result is the returned output, or an error exactly if the tool threw; a hook that throws makes it an error with that text; otherwise content, details, terminate and error mark are the hook's where it gives them and the execution's where not |
| `ToolAnswers.AnswerMeans` | packages/agent/src/agent-loop.ts:562-708 | what answers a call: an unknown tool, invalid arguments, a throwing hook, an abort and a block each refuse it with their own error, the first of them that applies; otherwise it is executed with the validated arguments, shows all partial results and is settled |
| `ToolAnswers.FindToolIsFirst` | packages/agent/src/agent-loop.ts:569 | a name means the first tool that has it, and none if no tool has it |
| `ToolAnswers.ModeIsAsWanted` | packages/agent/src/agent-loop.ts:380-388 | a batch runs one by one if and only if the configuration says so or some tool-call block means a tool marked sequential |
| `ToolExecution.ExecuteToolCallsSequential` | packages/agent/src/agent-loop.ts:395-449 | start, updates, end and result message of each call follow one another in source order; the answered calls are a nonempty prefix; no call but the first starts once the run is aborted, and the batch is cut short only by an abort |
| `ToolExecution.Preflight` | packages/agent/src/agent-loop.ts:459-500 | calls start in source order and refused calls end at once; no call but the first starts once the run is aborted, and the loop is cut short, after a nonempty prefix, only by an abort |
| `ToolExecution.RunTasks` | packages/agent/src/agent-loop.ts:502-504 | under any scheduler the started tasks all finish, and what was emitted is an interleaving of their steps |
| `ToolExecution.SomeScheduleFinishes` | packages/agent/src/agent-loop.ts:484-504 | any batch of tasks has a schedule under which all of them finish |
| `ToolExecution.StepsMakeProgress` | packages/agent/src/agent-loop.ts:484-496 | every step of an unfinished task decreases a measure, so no scheduler runs forever |
| `ToolExecution.ExecuteToolCallsParallel` | packages/agent/src/agent-loop.ts:451-516 | an interleaving that begins with the preflight of all calls, in which nothing starts later and each started call has its own start, updates and one end, followed by the result messages in source order; each call is answered, at moments after its own start, as `ToolAnswers.AnsweredAs` says |
| `ToolBatch.EveryInterleavingShows` | packages/agent/src/agent-loop.ts:484-504 | after any sequence of scheduling decisions the trace shows each task exactly as far as it got, starts in source order |
| `ToolBatch.CompleteInterleaving` | packages/agent/src/agent-loop.ts:502-510 | every complete interleaving gives each started call exactly its start, its updates and one end, and every start and every refusal comes before any update or other end |
| `ToolBatch.ScheduleIndependence` | packages/agent/src/agent-loop.ts:484-504 | no scheduling decision changes the result a call is going to have |
| `ToolBatch.AnyTwoSchedulesAgree` | packages/agent/src/agent-loop.ts:502-515 | any two complete interleavings of the same calls give the same ordered results and partial results |
| `RunLog.ModesAgree` | packages/agent/src/agent-loop.ts:373-388 | if nobody aborts the run by the end of either batch, the sequential and every parallel execution let the same calls through and give the same ordered results, partial results, result messages and stop decision |
| `ToolLifecycle.EndsPrecedeResults` | packages/agent/src/agent-loop.ts:494-510 | in parallel mode every end precedes the first result message |
| `ToolLifecycle.PendingIsOpen` | packages/agent/src/agent.ts:524-536 | no call is ever reported pending that has not started or has ended |
| `ToolLifecycle.PendingExactIffNoSharedEnd` | packages/agent/src/agent.ts:524-536 | the pending set is exactly the started and not ended calls throughout, if and only if no call ends while another open call has its identifier |
| `ToolLifecycle.DistinctIdsMakePendingExact` | packages/agent/src/agent.ts:524-536 | with distinct identifiers the pending set is exact at every moment of every interleaving |
| `CallIdentity.ParallelExactIffNoLaterTwin` | packages/agent/src/agent.ts:524-536 | the pending set of a parallel batch is exactly its running calls, throughout and whatever the schedule, if and only if no call that was let through has the identifier of a later started call |
| `CallIdentity.SequentialAlwaysExact` | packages/agent/src/agent.ts:524-536 | the pending set of a sequential batch is exactly the running call, whatever the identifiers |
| `CallIdentity.SharedIdsHideACall` | packages/agent/src/agent.ts:524-536 | two calls with one identifier that are both let through are misreported under every complete schedule |
| `ToolLifecycle.ParallelIsComplete` | packages/agent/src/agent-loop.ts:451-510 | after a parallel batch every call has gone through its start, its updates and its end |
| `ToolLifecycle.SequentialIsComplete` | packages/agent/src/agent-loop.ts:406-443 | the same after a sequential batch |
| `ToolLifecycle.NothingOpenWhenComplete` | packages/agent/src/agent-loop.ts:502-510 | after a batch no call is open |
| `ToolLifecycle.SequentialIsExclusive` | packages/agent/src/agent-loop.ts:406-443 | at every moment of a sequential batch at most one call is between its start and its end |
| `AgentLoop.ExecuteToolCalls` | packages/agent/src/agent-loop.ts:373-388 | the batch runs one by one if and only if the configuration asks for it or the first tool named by one of the calls is marked sequential, and answers its calls either way |
| `AgentLoop.InjectPending` | packages/agent/src/agent-loop.ts:182-190 | every drained message is emitted, enters the context and moves from in flight to delivered, once and in order |
| `AgentLoop.RunTurn` | packages/agent/src/agent-loop.ts:174-218 | a turn emits one turn block; its response is the provider's answer to the context with the injected messages, its batch answers the calls of that response; the context and the new messages grow by the same messages |
| `AgentLoop.PrepareNextTurn` | packages/agent/src/agent-loop.ts:220-239 | without a replacement context and tools stay; with one they are the replacement |
| `AgentLoop.AfterTurn` | packages/agent/src/agent-loop.ts:220-251 | after a turn that did not fail, and only then, both hooks are asked and their answers decide context, tools and stop |
| `AgentLoop.PollUnless` | packages/agent/src/agent-loop.ts:253 | unless the run ended the steering queue is polled; after an empty answer the queue holds exactly what other code left in it since |
| `AgentLoop.FollowUpPoll` | packages/agent/src/agent-loop.ts:256-262 | the run goes on if and only if a follow-up was taken; otherwise both queues hold exactly what other code left since their last polls |
| `AgentLoop.RunsEndWhen` | packages/agent/src/agent-loop.ts:196-268 | a run may end after a response that failed or was aborted, after a requested stop, or when every result of the last batch asks to stop, and only then |
| `AgentLoop.InnerLoop` | packages/agent/src/agent-loop.ts:174-254 | the loop invariant, and why the loop stops: the run ended, or nothing is left to continue with |
| `AgentLoop.RunLoop` | packages/agent/src/agent-loop.ts:155-269 | every run of the loop is a log allowed by the rules, its trace is the rendering of the log, its result the delivered messages, drained messages are all delivered at the end, and absent replacement the context array ends as start plus new messages; the first turn gets exactly what the first poll takes; unless a run failed or was stopped, each queue ends with exactly what other code left in it since its last poll, made two awaits before the end for follow-ups and three for steering |
| `AgentLoop.RunAgentLoop` | packages/agent/src/agent-loop.ts:95-118 | the same from `agent_start` on; the caller's array is never changed; the first turn gets what the first poll takes from the queue as other code left it while the prompts were emitted |
| `AgentLoop.RunAgentLoopContinue` | packages/agent/src/agent-loop.ts:120-143 | refused without messages or after an assistant message, with no event emitted; otherwise the run's messages are appended to the caller's own array |
| `AgentLoop.NextAgree` | packages/agent/src/agent-loop.ts:174-254 | one more turn keeps trace, result, context and tools in agreement with the log |
| `AgentLoop.FewCausesFinish` | packages/agent/src/agent-loop.ts:170-266 | a loop with more turns available than continuing batches and drained messages can cause has finished |
| `RunGrammar.GrammarOfARun` | packages/agent/src/agent-loop.ts:95-269 | every complete run is in the language of the automaton `Grammar.Read`: `agent_start`, one or more turns that neither overlap nor nest, each with exactly one response that alone may be streamed, tool events only between the response and the results, `turn_end` with the response and the results completed in that turn, and one final `agent_end` with all completed messages |
| `RunGrammar.NestedThroughout` | packages/agent/src/agent-loop.ts:95-269 | at every moment of a run messages lie inside turns and turns inside the run |
| `RunLog.RunEnds` | packages/agent/src/agent-loop.ts:170-268 | after every turn of every run the completed messages are exactly the delivered ones |
| `RunLog.TraceEnds` | packages/agent/src/agent-loop.ts:155-268 | the `message_end` payloads of a whole trace are the payload of its `agent_end` |
| `RunLog.TranscriptAgreement` | packages/agent/src/agent.ts:519-522 | after a run the transcript is the old one plus the payload of `agent_end`, nothing lost and nothing twice |
| `RunLog.NothingPendingAfterATurn` | packages/agent/src/agent.ts:524-536 | no call is pending after a turn, even if calls shared an identifier |
| `RunLog.PendingCallsAreTheOpenOnes` | packages/agent/src/agent.ts:524-536 | in every turn of a run the pending set is the set of started and not ended calls at every moment, if and only if the batch ran call by call or no call that was let through has the identifier of a later one |
| `RunLog.NoneHiddenByCalls` | packages/agent/src/agent.ts:524-536 | if other code does not abort the run by the end of the batch, this condition depends on the calls alone: a caller can evaluate it before the batch runs |
| `RunLog.ToolsSeeTheirMessage` | packages/agent/README.md:129 | at every moment of a tool batch the agent's transcript already contains the message that requested it |
| `RunLog.SequentialToolsRunAlone` | packages/agent/src/agent-loop.ts:380-388 | while a batch executes of which one tool-call block means a tool marked sequential, and always in sequential mode, at most one call of the whole run is between its start and its end |
| `RunLog.OtherToolsRunTogether` | packages/agent/src/agent-loop.ts:380-388 | every other batch with calls is a concurrent one |
| `RunLog.CallsArePairedWithResults` | packages/agent/src/agent-loop.ts:203-216 | at every later request each response of the run is followed at once by one result per tool-call block, same identifier and name, in the order of the blocks; by a nonempty prefix of them only if other code had aborted the run by the end of that batch |
| `RunLog.TurnResultsMatch` | packages/agent/src/agent-loop.ts:406-443 | the results of a turn that did not fail are one per tool-call block of its response, in order, in either mode, or a nonempty prefix if other code had aborted the run by the end of the batch |
| `Messages.CallsAreTheCallBlocks` | packages/agent/src/agent-loop.ts:203 | the calls of a message are all its tool-call blocks, in order |
| `CallStories.EveryBlockHasItsStory` | packages/agent/src/agent-loop.ts:203-216 | in every turn of every run that did not fail, each tool-call block, or under an abort each of the first ones, is answered as its tool, the hooks, the execution and the abort signal after its start demand; its events are its start, all partial results and its end with that answer, and its result message carries the same output and error mark |
| `RunLog.FailedResponsesEndTheRun` | packages/agent/src/agent-loop.ts:196-200 | a response with stop reason error or aborted is the last of its run, and none of its calls is executed |
| `RunLog.WhyTurnsFollow` | packages/agent/src/agent-loop.ts:174-262 | a turn follows another only for drained messages or because some result does not ask to stop; follow-ups wait until all do |
| `RunLog.NobodyAborted` | packages/agent/src/agent-loop.ts:373-516 | in a run that nobody aborts every turn that did not fail has one result per call, and with tools and hooks that answer as functions of the call these are the only possible ones |
| `RunLog.ContextIsDelivered` | packages/agent/src/agent-loop.ts:186-216 | without replacement the context is the start plus everything delivered |
| `RunLog.RequestsAreTheTranscript` | packages/agent/src/agent-loop.ts:186-199 | as long as the context is not replaced, what every request sends to the provider is the agent's own transcript of that moment |
| `RunLog.TurnBound` | packages/agent/src/agent-loop.ts:170-266 | the number of turns is at most one plus the continuing batches plus the messages drained from both queues |
| `RunLog.FollowUpsWaitTheirTurn` | packages/agent/src/agent-loop.ts:256-262 | steering has priority: a turn with follow-ups has no steering messages, and comes only after a turn without a continuing batch that neither failed nor was the last one wanted |
| `RunLog.DrainedMessagesAreInTheTranscript` | packages/agent/src/agent-loop.ts:182-190 | the transcript of a run contains the drained steering messages, and separately the follow-ups, each once and in queue order |
| `AgentRuns.InjectWithoutSnapshot` | packages/agent/src/agent.ts:414-420 | injected messages arrive once in the agent's transcript and once in the loop's context if these are different arrays, and every message arrives twice if they are the same one |
| `AgentRuns.CompleteRunsLeaveNothing` | packages/agent/src/agent.ts:494-500 | after every complete run the reduced state has no streaming message and no pending call |
| `AgentRuns.TranscriptSoFar` | packages/agent/src/agent.ts:519-522 | in the middle of a run, too, the transcript has grown by exactly the delivered messages |
| `AgentRuns.NothingIsForgotten` | packages/agent/src/agent.ts:122-152 | for each queue that nobody clears during the run, whatever else other code does: accepted before plus enqueued during the run is delivered followed by queued, in order; and unless the run failed or was stopped, what is still queued is exactly what was enqueued after the last poll |
| `AgentRuns.UnabortedRuns` | packages/agent/src/agent.ts:456-464 | only other code sets the abort signal: a run that nobody aborts, ended or observed for `limit` turns, leaves it unset, and each of its turns that did not fail has one result per call |
| `AgentRuns.RunPromptMessages` | packages/agent/src/agent.ts:386-400 | a run with prompts that ends within `limit` turns ends idle, with transcript, trace, result and both queue ledgers those of an allowed log, and each queue is as its last poll and other code left it; a longer run has the same trace, transcript, result so far and ledgers for its first `limit` turns, and at least `limit - 1` causes for them; drained prompts count as delivered |
| `AgentRuns.RunContinuation` | packages/agent/src/agent.ts:402-412 | the same for a run without prompts |
| `AgentRuns.Prompt` | packages/agent/src/agent.ts:327-335 | refused exactly during a run, and then nothing changes; otherwise a run with these prompts, ended or observed for `limit` turns as above, with at most one steering message per turn if the queue is in one-at-a-time mode and nobody changes that during the run |
| `AgentRuns.Continue` | packages/agent/src/agent.ts:338-365 | during a run it drains nothing; an empty transcript is refused; after a message that is not an assistant's the run goes on from it; after an assistant message drained steering messages, or else follow-ups, all or the first as the mode says, become delivered prompts, steering is then not polled again before the first response, and with both queues empty it is refused |
| `Lifecycle.EveryReachableStateIsSafe` | packages/agent/src/agent.ts:451-500 | after any sequence of calls, events, throwing listeners and failures there is at most one run, and `isStreaming` holds exactly while it is active |
| `Lifecycle.NextKeepsInv` | packages/agent/src/agent.ts:451-500 | every single action keeps this invariant |
| `Lifecycle.CallsDuringARunAreRefused` | packages/agent/src/agent.ts:327-341 | while any run exists, `prompt()` and `continue()` change nothing and drain nothing |
| `Lifecycle.RunsEmitWhileActive` | packages/agent/src/agent.ts:549-552 | a run never processes an event outside an active run |
| `Lifecycle.EveryEndSettlesIdle` | packages/agent/src/agent.ts:466-474 | however a run ends, also by a listener that throws during the failure report, the agent is idle with no streaming message and no pending call |
| `Lifecycle.FailureIsReported` | packages/agent/src/agent.ts:476-492 | an undisturbed failure report ends idle with the failure as last message and error, marked aborted exactly if the run was |
| `Lifecycle.NestingOfAFailedRun` | packages/agent/src/agent.ts:476-492 | for every run and every event of it: if a listener throws at that event the agent ends idle, and the events of the run with the failure report are properly nested if and only if it was a `turn_start`, a `message_end` or a tool event |
| `Lifecycle.GrammarOfAFailedRun` | packages/agent/src/agent.ts:476-492 | the failure report completes the whole grammar if and only if the listener threw at the first `turn_start` |
| `Lifecycle.SecondAgentEnd` | packages/agent/src/agent.ts:488-491 | a listener that throws at `agent_end` makes any run show two `agent_end` events |
| `Lifecycle.NothingVanishes` | packages/agent/src/agent-loop.ts:182-190 | after any sequence of calls, polls, events, throwing listeners and failures every drained message, counted with multiplicity, is in the transcript, in flight, or lost by a run that ended with it in flight |
| `Lifecycle.LostByAFailure` | packages/agent/src/agent-loop.ts:182-190 | a run that has drained messages and fails at any later event: they are what has reached the transcript followed by what is lost, and nothing is lost if and only if the injection is over |
| `Lifecycle.LostByAFailedTurn` | packages/agent/src/agent.ts:476-492 | the same for every turn of every run, from its polls on: a failure loses exactly the drained messages whose `message_end` has not been processed |
| `Lifecycle.IdleAgentsAreSafe` | packages/agent/src/agent.ts:451-464 | every idle agent, so also every new one, satisfies the invariants, and a prompt starts an active, executing run with an empty trace |
| `ProxyMessage.PartialMessage.Process` | packages/agent/src/proxy.ts:238-367 | it throws exactly if the event does not fit the latest start of its block, and then changes nothing; otherwise one block changes, the whole message stays the one its events define, and what it returns tells the event: starts and deltas as they are, ends with what their block holds, `done` as done and `error` as error |
| `ProxyMessage.FitsItsBlock` | packages/agent/src/proxy.ts:249-341 | deltas and the ends of texts and thoughts fit exactly if their block is there with their kind; everything else fits |
| `ProxyMessage.StepGivesContents` | packages/agent/src/proxy.ts:238-348 | updating one block per event gives the message defined by latest starts and concatenated deltas |
| `ProxyMessage.StrippedEventsRebuild` | packages/agent/src/proxy.ts:86-88 | after every prefix, however indices interleave, what the stripped events mean is the sender's own message |
| `ProxyMessage.KindOfBlock` | packages/agent/src/proxy.ts:245-319 | a block exists exactly if it was started, with the kind of its latest start |
| `ProxyMessage.OtherBlocks` | packages/agent/src/proxy.ts:245-348 | an event leaves every other block alone |
| `ProxyMessage.ToolArgumentsAreParsedDeltas` | packages/agent/src/proxy.ts:308-342 | before and after its end the arguments of a tool call are the parse of all deltas since its start, and empty if there were none, unless a delta came after a `toolcall_end` |
| `ProxyMessage.ArgumentsRightIffReadCorrectly` | packages/agent/src/proxy.ts:308-342 | for every parser the arguments are the parse of the deltas, if and only if no delta came after a `toolcall_end`, or the deltas before it spelled "undefined" |
| `ProxyMessage.LateDeltaIsMisread` | packages/agent/src/proxy.ts:308-342 | four events the client accepts after which the deltas are x followed by y, but the arguments are the parse of "undefined" followed by y |
| `ProxyStream.ChunkStep` | packages/agent/src/proxy.ts:191-193 | splitting the buffer with the next chunk finishes exactly the new lines of the whole text and carries its remainder |
| `ProxyStream.ProxyClient.HandleLine` | packages/agent/src/proxy.ts:196-206 | a line is dispatched exactly if it carries a nonempty payload |
| `ProxyStream.ProxyClient.ReadAll` | packages/agent/src/proxy.ts:183-211 | for every cut into chunks the dispatched payloads are those of all but the last line of the whole text, up to the first error or the abort |
| `ProxyStream.ProxyClient.Announce` | packages/ai/src/utils/event-stream.ts:21-36 | an event gets in unless a terminal one did, and the result is the terminal announcement if there is one |
| `ProxyStream.ProxyClient.StreamProxy` | packages/agent/src/proxy.ts:180-224 | message, announcements, reason and error are a function of the text that arrived, of how it ended and of whether it was aborted, never of the chunks; the accepted events are announced in order up to the first conclusion, each as it should; the result is done if that conclusion is `done` and an error if it is `error`, without one an error that ended the loop settles it as aborted or failed, and otherwise it stays pending |
| `ProxyStream.DispatchIsHeard` | packages/agent/src/proxy.ts:195-206 | dispatching announces exactly the accepted events that are not silent, in order, up to the first conclusion |
| `ProxyAnnouncements.SettlesExactlyIf` | packages/ai/src/utils/event-stream.ts:21-44 | the result settles if and only if an error ended the reading or an event concluded it |
| `ProxyAnnouncements.ReasonIsTheLatest` | packages/agent/src/proxy.ts:350-359 | the stop reason is that of the latest conclusion |
| `ProxyStream.UnfinishedLineIsDropped` | packages/agent/src/proxy.ts:192-193 | a last line without a line feed changes nothing |
| `ProxyStream.NothingIsLost` | packages/agent/src/proxy.ts:191-193 | finished lines and remainder give the text back |
| `ProxyStream.DispatchStopsAtFirstError` | packages/agent/src/proxy.ts:195-214 | the processed events are those of the payloads up to the first that does not parse or does not fit, and there the error is that payload's |
| `ProxyStream.TerminatedIffConcluded` | packages/agent/src/proxy.ts:195-206 | dispatching announces at most one terminal event, as the last, and it does so if and only if an accepted event concluded the response |
| `ProxyStream.FramesDeliverPayloads` | packages/agent/src/proxy.ts:196-199 | the payloads of framed payloads are the payloads |
| `ProxyStream.WireRoundTrip` | packages/agent/src/proxy.ts:86-88 | encoded, framed, cut, read and rebuilt, the events and the sender's message come back without error |
| `Packing.Pack` | scripts/session-transcripts.ts:196-241 | the files hold all transcripts in order, joined by blank lines, each group legal, and no legal split into consecutive groups has fewer |
| `Packing.StaysAhead` | scripts/session-transcripts.ts:201-231 | after every transcript no legal split needs fewer groups, and one with as many has at least as much in its last group |
| `Packing.OnlyOversizedFilesExceed` | scripts/session-transcripts.ts:212-228 | a file over the limit is a single oversized transcript |
| `Base64Url.Base64UrlEncode` | api/src/middleware/auth.ts:29-40 | the text is the unpadded encoding of section 5 of RFC 4648 |
| `Base64Url.ViewsMustSpanTheirBuffer` | api/src/middleware/auth.ts:30-31 | what is encoded of a view is its whole buffer, so the text is that of the view if and only if the view spans the buffer |
| `Base64Url.Base64UrlDecode` | api/src/middleware/auth.ts:42-52 | the bytes of the text, or none where the platform's decoder throws |
| `Base64Url.SextetAt` | api/src/middleware/auth.ts:36 | each character encodes the six bits that RFC 4648 assigns to its position |
| `Base64Url.EncodedAt` | api/src/middleware/auth.ts:29-40 | every character of an encoding stands for the six bits of its position |
| `Base64Url.UrlAlphabet` | api/src/middleware/auth.ts:37-38 | the alphabet is that of table 2 of RFC 4648 |
| `Base64Url.RestoredIsBtoa` | api/src/middleware/auth.ts:43-45 | the computed padding is exactly what was stripped |
| `Base64Url.RoundTrip` | api/src/middleware/auth.ts:29-52 | decoding the unpadded encoding of any bytes returns them |
| `Base64Url.AlphabetTextDecodes` | api/src/middleware/auth.ts:42-52 | a text of the alphabet decodes if and only if its length is not one more than a multiple of four |
| `Base64Url.Encoded` | api/src/middleware/auth.ts:36-39 | an encoding contains no dot, and its length is never one more than a multiple of four |
| `Token.CreatedTokensVerify` | api/src/middleware/auth.ts:62-120 | a created token verifies under its secret exactly until it expires, and then returns its user |
| `Token.VerifiesExactlyTheVouched` | api/src/middleware/auth.ts:62-96 | for every text: it verifies, with this outcome, if and only if it is three parts without dots, the last decodes to a signature that the platform accepts for the first two, the second decodes and parses to claims without expiry or not yet past it, and the outcome is those claims with their defaults |
| `Token.ForgedTokensAreRefused` | api/src/middleware/auth.ts:76-77 | whatever of a token is changed, or the secret, it is refused if the platform does not accept its signature |

## Left out

* AgentLoop.RunLoop: speaks of the first `limit` turns, for every `limit`, because a provider that always calls tools keeps the loop running forever.
* ToolExecution.EmitUpdates: awaits each partial result before the next, where the original awaits them together after the execution; other events may interleave in the parallel mode either way.
* Providers, `streamSimple`, API keys, `fetch`, readers and UTF-8 decoding: foreign calls; the model starts from responses and decoded text.
* `transformContext`, `convertToLlm` and the system prompt: part of the oracle that answers a request from the context.
* Timestamps, usage, cost, model and thinking level: no protocol content.
* `agentLoop` and `agentLoopContinue`: wrappers that forward events into an `EventStream`.
* The delivery of queued events to consumers of an `EventStream`; only which events get in is modelled.
* `reset()` and assignments to `state.messages` during a run, excluded by assumption.
* Partial results that a tool reports after its `execute` has returned.
* Parallel calls that go on after a listener threw: excluded by the assumption on listeners.
* The identity of a context that `prepareNextTurn` returns: it is taken to be an array of its own, not the agent's transcript.
* Tool, provider and hook code that changes messages in place.
* The events of the proxy client carry the message by reference, so consumers see later changes; the model gives the message after each event and does not capture that sharing.
* Content indices of proxy events that are negative or fractional.
* `parseStreamingJson` and `validateToolArguments`: uninterpreted functions.
* Server-sent events beyond lines that start with `data: `; the client implements a small part of section 9.2.6 of the WHATWG HTML standard and conformance is not claimed.
* Names of transcript files are their numbers; reading sessions, `--analyze` and console output.
* `importKey`, the HMAC itself, `JSON` and the Hono middleware around `verifyToken`; claims of a wrong type.
* The remaining packages (coding agent, terminal and web interfaces, model tables, API routes).
