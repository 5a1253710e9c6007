# agent-federation orchestration core, in Dafny

This project models the orchestration kernel of agent-federation, a system with two parts:

- A **master** agent loop interprets a user request. It can manage **worker** agents through a small set of tools, and it streams progress to observers over an **event bus**.
- A **worker runner** runs one worker agent on one task to completion.

Everything is modelled as immutable data and pure transitions. The modules are:

| module | file | models |
|---|---|---|
| `Types` | `types.dfy` | the status enums and their string values, the intention, the worker template and record, the master state and the aggregate federation state (`types.py`) |
| `State` | `state.dfy` | the state manager as a state machine over the worker map, the template registry and the FIFO completion queue (`state.py`) |
| `StateProps` | `state_props.dfy` | properties of the state manager over arbitrary call sequences |
| `Events` | `events.dfy` | the event kinds, `Event.create`, the convenience emitters, and the bus with subscribe, unsubscribe and in-order delivery (`events.py`) |
| `Stream` | `stream.dfy` | the reassembly of one streamed completion as a left fold, shared by `loop.py` and `runner.py` |
| `Transcript` | `transcript.dfy` | the conversation messages a loop turn appends, and the pairing of tool calls with tool results |
| `Schema` | `schema.dfy` | tool declarations as the completion service receives them |
| `Dispatch` | `dispatch.dfy` | the master's tool executor: the call/result event envelope, keyword binding, each handler's result text, and `MASTER_TOOLS` (`tools.py`) |
| `MasterLoop` | `master_loop.dfy` | the master's `run` loop: status changes, the transcript, and the `master_done` event (`loop.py`) |
| `WorkerRunner` | `worker_runner.dfy` | the worker's `run` loop: the tool filter, the per-turn request, the transcript, the events and the final agent status (`runner.py`) |
| `Wrappers`, `Seqs`, `JsonValue` | | `Option`/`Result`, sequence helpers modelling Python's `list.remove` and `str.join`, and JSON values |

The model treats these as parameters, because they are outside the code it models:

- **The completion service.** A run is given a list of streams, one per turn. If the list runs out before a turn without tool calls, the run is `Unfinished`.
- **The JSON parser.** It is a `Parser`, a function from text to an optional JSON value.
- **Fresh ids.** A spawn takes the new worker's id as an argument.
- **The worker tools' file-system bodies.** They are a function `io` over an abstract workspace, which a run threads through its tool calls.
- **Whether a bus handler raises.** This is a predicate over handlers and events.

`tools.py` calls a state and delegation interface that `state.py` does not provide. That interface includes `spawn_agent`, `get_agent`, `create_delegation`, `set_agent_result` and a worker runner. `tools.py` also imports an `IntentionType` that `types.py` does not define. The model therefore treats that interface as a record of functions over an abstract state (`Dispatch.Api`). It takes `IntentionType` to have exactly the three values the `delegate` declaration lists.

The model follows the code where the design documentation says otherwise:

- `assign_task` does not reject a worker that is already WORKING.
- The completion queue is read with a non-consuming peek (`get_completed_workers`) and a `pop_completed`. The documentation instead describes a consuming drain.
- Popping leaves the worker DONE; it does not reset it to IDLE.
- `emit` has no failure isolation. A raising handler stops delivery and propagates to the emitter.
- `delegate` runs the worker synchronously when a runner is configured.
- Unknown intentions and malformed tool arguments raise. The documentation says they come back as text.

## Model

| member | source | states |
|---|---|---|
| Types.WorkerStatusOf | src/shared/types.py:8-11 | lookup by value succeeds exactly for "idle", "working" and "done", and gives back the member with that value |
| Types.MasterStatusOf | src/shared/types.py:14-17 | lookup by value succeeds exactly for "idle", "thinking" and "calling_tool", and gives back the member with that value |
| Types.IntentionOf | src/shared/types.py:20-23 | lookup by value succeeds exactly for "return_to_user" and "review_by_master" |
| Types.EnumValuesRoundTrip | src/shared/types.py:8-23 | value and lookup are mutually inverse for all three enums |
| Types.NoPassToAgentIntention | src/shared/types.py:20-23 | the data model's intention has no pass-to-agent member |
| Types.NewWorker | src/shared/types.py:35-48 | a fresh record is IDLE with no task, intention or result, and is well formed |
| Types.NewFederationState | src/shared/types.py:58-65 | defaults: master idle with no tool, no workers, no templates, empty queue |
| State.NewStateManager | src/master/state.py:19-44 | exactly the templates general, coder and researcher, each stored under its own name; no workers; empty queue; the invariant holds |
| State.SetMasterStatus | src/master/state.py:48-51 | sets status and current tool together, changes nothing else, keeps the invariant |
| State.GetWorker | src/master/state.py:69-71 | a worker is returned exactly when one is registered under the id, and it is that record |
| State.SpawnWorker | src/master/state.py:73-87 | fails, changing nothing, exactly for an unregistered type, with the source's message; otherwise stores an IDLE blank record with that type's template under the fresh id, leaves other workers, the queue and the templates alone, and keeps the invariant |
| State.SpawnThenGet | src/master/state.py:69-87 | after a spawn the new id looks up the spawned record; every other id looks up what it did before |
| State.TerminateWorker | src/master/state.py:89-97 | succeeds exactly for a live id; removes the record and the first queue entry for it and nothing else; under the invariant the id leaves the queue entirely |
| State.AssignTask | src/master/state.py:101-116 | succeeds exactly for a live id, whatever its status; the worker becomes WORKING with the assigned task and intention and no result; the queue is untouched |
| State.CompleteTask | src/master/state.py:118-131 | succeeds exactly for a live id; the worker becomes DONE with the result and keeps its task; the id is appended to the queue only if absent, so it is queued exactly once |
| State.ClearWorker | src/master/state.py:133-148 | succeeds exactly for a live id; the worker becomes IDLE and blank and its queue entry goes |
| State.GetCompletedWorkers | src/master/state.py:152-158 | the live records of the queued ids in queue order; under the invariant one record per queue entry |
| State.PopFrom | src/master/state.py:160-167 | returns the first queued id naming a live DONE worker, with the queue after it; every entry skipped names no live DONE worker; none and an empty queue when there is no such entry |
| State.PopCompleted | src/master/state.py:160-167 | the returned worker is a live DONE record; workers are unchanged; the queue only shrinks, strictly when a worker is returned, and is empty when none is; the invariant is kept |
| StateProps.RunPreservesInv | src/master/state.py:73-167 | any sequence of state-manager calls keeps the queue duplicate-free and made of live ids, and every record well formed |
| StateProps.FreshManagerRunsKeepInv | src/master/state.py:19-167 | from a new state manager, every call sequence reaches a state satisfying the invariant |
| StateProps.OnlyAssignMakesWorking | src/master/state.py:101-116 | a worker becomes WORKING only through an assignment of that worker |
| StateProps.OnlyCompleteMakesDone | src/master/state.py:118-131 | a worker becomes DONE only through a completion of that worker |
| StateProps.AssignOverridesWorking | src/master/state.py:108-116 | assigning to a WORKING worker succeeds and replaces its task |
| StateProps.CompleteTwiceEnqueuesOnce | src/master/state.py:118-131 | a second completion leaves the queue as it was, with one entry for the worker, and overwrites the result |
| StateProps.PeekThenPop | src/master/state.py:152-167 | peeking consumes nothing: the next pop returns the head worker and drops only the head |
| StateProps.CompleteThenPopTwice | src/master/state.py:118-167 | after a completion the next pop returns that worker, still DONE with its result, and a second pop returns nothing |
| StateProps.ReassignedQueuedWorkerIsDropped | src/master/state.py:101-167 | a queued worker re-assigned before pickup is still listed by the peek, but the pop discards its entry without returning it |
| StateProps.SpawnCollisionReplaces | src/master/state.py:79-86 | a spawn under an id in use does not add a worker; it replaces the existing non-idle record |
| Events.MasterTextEvent | src/shared/events.py:71-72 | untagged `master_text` event whose payload is exactly the text |
| Events.MasterToolCallEvent | src/shared/events.py:74-75 | untagged event whose payload is exactly the tool name and input |
| Events.MasterToolResultEvent | src/shared/events.py:77-78 | untagged event whose payload is exactly the tool name and result |
| Events.MasterDoneEventWellFormed | src/master/loop.py:101 | `master_done` is untagged with an empty payload |
| Events.WorkerSpawnedEvent | src/shared/events.py:80-81 | tagged with the agent id; the payload is only the agent type |
| Events.WorkerTextEvent | src/shared/events.py:83-84 | tagged with the agent id; the payload is only the text |
| Events.WorkerToolCallEvent | src/shared/events.py:86-87 | tagged with the agent id; the payload is only the tool name and input |
| Events.WorkerDoneEvent | src/shared/events.py:89-90 | tagged with the agent id; the payload is only the result |
| Events.DelegationStartedEvent | src/shared/events.py:92-93 | the agent id becomes the tag and is absent from the payload, which holds the delegation id and task |
| Events.DelegationCompletedEvent | src/shared/events.py:95-96 | the agent id becomes the tag and is absent from the payload, which holds the delegation id and result |
| Events.StatusUpdateEvent | src/shared/events.py:98-99 | untagged event whose payload is only the message |
| Events.Create | src/shared/events.py:44-46 | the event has the given kind, tag and payload; given the kind's payload keys and a tag exactly for agent-scoped kinds, it is well formed |
| Events.NewBus | src/shared/events.py:57-58 | a new bus has no handlers |
| Events.NewBusCallsNothing | src/shared/events.py:57-68 | emitting on a new bus calls nothing and does not raise |
| Events.Subscribe | src/shared/events.py:60-61 | the handler is appended after the existing ones, which keep their order |
| Events.Unsubscribe | src/shared/events.py:63-64 | raises exactly when the handler is absent; otherwise removes its first occurrence only, keeping the order of the rest |
| Events.Deliver | src/shared/events.py:66-68 | handlers are called in list order, a prefix of the list; delivery stops at the first handler that raises and otherwise reaches every handler |
| Events.Emit | src/shared/events.py:66-68 | the handlers called are a prefix of the list; the emit raises exactly when some handler would, and then the last called is the first that raises |
| Events.EmitCallsEachEntryOnce | src/shared/events.py:66-68 | with no raising handler every list entry is called once, in order, so a handler subscribed twice is called twice |
| Events.EmitStopsAtFirstRaise | src/shared/events.py:66-68 | the handlers after the first raising one are not called and the emit raises |
| Events.UnsubscribedNotCalled | src/shared/events.py:66-68 | a handler not subscribed at emit time is never called |
| Events.UnsubscribeThenEmit | src/shared/events.py:63-68 | after unsubscribing a handler subscribed once, an emit does not reach it |
| Events.SubscribeThenEmit | src/shared/events.py:60-68 | a handler subscribed last is called last |
| Stream.FoldAppend | src/master/loop.py:119-150 | the fold over a concatenated stream is the fold of the second part from the state after the first |
| Stream.FoldText | src/master/loop.py:130-134 | the text is the concatenation of exactly the text deltas, in arrival order, and each is emitted once, in order |
| Stream.FoldCallsExtend | src/master/loop.py:139-150 | finished tool calls are only ever appended |
| Stream.ReassembleText | src/master/loop.py:106-152 | a completion's text is the concatenation of its text chunks, which are exactly the emitted ones |
| Stream.FoldTextDeltas | src/master/loop.py:130-134 | text deltas change only the text and the emitted chunks |
| Stream.FoldJsonDeltas | src/master/loop.py:135-137 | argument fragments are appended to the open call in arrival order |
| Stream.FoldBlock | src/master/loop.py:120-150 | one content block adds its text and chunks, or exactly one call whose input is the parse of its fragments; a tool block discards any call still open |
| Stream.ReassembleRendered | src/master/loop.py:106-152 | on any well-formed block sequence the fold returns the blocks' text, chunks, and calls in block order |
| Stream.StreamedArguments | src/master/loop.py:139-148 | fragmented arguments parse as their concatenation; empty arguments read as `{}`; unparsable ones give the empty object |
| Stream.RestartDiscardsOpenCall | src/master/loop.py:120-128 | a tool start while a call is open discards the open call |
| Stream.StrayEventsIgnored | src/master/loop.py:135-140 | a fragment or stop with no open call changes nothing |
| Stream.ParseInput | src/workers/runner.py:179-186 | empty argument text reads as the parse of `{}`; text that parses gives its value; anything else gives the empty object rather than an error |
| Stream.StepExtends | src/workers/runner.py:158-189 | one event only extends the text, the emitted chunks and the calls; it emits a chunk exactly when it is a text delta, and extends the text by exactly that chunk; it finishes a call exactly when it stops an open one |
| Stream.FoldExtends | src/master/loop.py:119-150 | the fold only extends the text, the chunks and the calls, by at most one chunk and one call per event |
| Stream.ReassembleEmitted | src/master/loop.py:106-152 | a completion's text is exactly its emitted chunks concatenated, and it has at most one call per stream event |
| Transcript.ToolUsesReadBack | src/master/loop.py:73-79 | the tool-use blocks read back as exactly the calls, in order |
| Transcript.AssistantTurn | src/master/loop.py:70-81 | an assistant message whose text block is present only for non-empty text, followed by the calls, which read back exactly |
| Transcript.ResultPartsReadBack | src/master/loop.py:84-92 | the result blocks read back as the calls' ids and the results, in call order |
| Transcript.ResultsTurn | src/master/loop.py:84-94 | a user message answering the calls' ids in order, carrying the results, and holding no tool uses |
| Transcript.Finish | src/master/loop.py:96-99 | the final text is appended as an assistant message only when non-empty |
| Transcript.RoundAnswered | src/master/loop.py:68-94 | a round's results turn answers its assistant turn |
| Transcript.PairedAppendRound | src/master/loop.py:68-95 | appending a round keeps every tool-using turn answered |
| Transcript.PairedFinish | src/master/loop.py:96-99 | the final turn keeps every tool-using turn answered |
| Transcript.PairedAppendNoCalls | src/master/loop.py:61 | appending a message without tool uses to an answered conversation keeps it answered |
| Dispatch.IntentionTypeOf | src/master/tools.py:204-206 | parses exactly the three declared values and gives back the member with that value; otherwise it raises |
| Dispatch.IntentionTypeRoundTrip | src/master/tools.py:204-206 | parsing a member's value gives back the member |
| Dispatch.Take | src/master/tools.py:182 | Python's `[:200]`: the prefix of length 200, or the whole text when it is no longer |
| Dispatch.TemplateLines | src/master/tools.py:150-153 | two lines per template, in order: "- name: description" after a newline, then the comma-joined tools |
| Dispatch.AgentLines | src/master/tools.py:161-165 | three lines per agent, in order: "- id (type)" after a newline, the status, the message count |
| Dispatch.ListAgentTypes | src/master/tools.py:145-154 | returns the fixed text exactly when there is no template, and otherwise the header and each template's lines joined by newlines; no state change and no event |
| Dispatch.ListRunningAgents | src/master/tools.py:156-166 | returns the fixed text exactly when no agent runs, and otherwise the header and each agent's lines joined by newlines; no state change and no event |
| Dispatch.DetailLines | src/master/tools.py:173-182 | the agent, type, status, creation, message-count and tools lines in that order, plus, for a non-empty last result, a seventh line holding its first 200 characters followed by "..." |
| Dispatch.GetAgentDetail | src/master/tools.py:168-183 | the not-found text exactly when the agent is unknown, and otherwise its detail lines joined by newlines; no state change and no event |
| Dispatch.SpawnAgent | src/master/tools.py:185-191 | on success the new state, one `worker_spawned` event and the spawned text; on a ValueError the failure text, no change and no event |
| Dispatch.Delegate | src/master/tools.py:193-233 | not-found text for an unknown agent; raises exactly for a known agent with an unknown intention; otherwise `delegation_started` comes first, and with no runner that is the only event and the text names the delegation |
| Dispatch.DelegateWithRunner | src/master/tools.py:218-231 | with a runner, the events are the start, the runner's, and the completion; the result is recorded on the agent and the delegation; the text is chosen by the intention |
| Dispatch.DelegationText | src/master/tools.py:225-231 | the intention's fixed prefix followed by the whole worker result |
| Dispatch.DelegationPrefixesIncomparable | src/master/tools.py:225-231 | no intention's prefix is a prefix of another intention's, whatever the agent ids |
| Dispatch.DelegationTextDecodes | src/master/tools.py:225-231 | the text determines the intention, and, for a given agent, the worker's result |
| Dispatch.TerminateAgent | src/master/tools.py:235-238 | the success text exactly when the state call succeeds, and the not-found text exactly when it fails |
| Dispatch.ClearAgentContext | src/master/tools.py:240-243 | the success text exactly when the state call succeeds, and the not-found text exactly when it fails |
| Dispatch.Bind | src/master/tools.py:140 | keyword binding succeeds exactly for an object naming only the handler's parameters, all strings, and every required one; the bound arguments are the input's |
| Dispatch.RunHandler | src/master/tools.py:136-140 | only `delegate` can raise; the three read-only handlers return, change nothing and emit nothing; terminate and clear return and emit nothing |
| Dispatch.Execute | src/master/tools.py:132-143 | the tool-call event always comes first; a returning call ends with the tool-result event carrying exactly the returned text |
| Dispatch.UnknownToolRunsNoHandler | src/master/tools.py:136-138 | an unknown name leaves the state alone and gives the unknown-tool text between the call and result events |
| Dispatch.ExecuteBracketsHandler | src/master/tools.py:132-143 | a known tool's outcome is its handler's, bracketed by the call event and, when it returns, the result event |
| Dispatch.MasterToolsMatchHandlers | src/master/tools.py:14-116 | the declared tools and the handlers agree name by name and in order; each declaration is well formed and declares exactly its handler's parameters, requiring exactly the required ones |
| Dispatch.MasterToolAgrees | src/master/tools.py:14-116 | one declaration has its handler's name, is well formed, declares exactly the handler's parameters and requires exactly the required ones |
| Dispatch.DelegateDeclaration | src/master/tools.py:61-87 | `delegate` requires agent_id, task and intention, and every allowed intention value parses |
| Dispatch.BindMatchesShape | src/master/tools.py:140 | for a string-property declaration of a handler's parameters, binding accepts exactly the inputs of the declared shape |
| Dispatch.BindAcceptsDeclaredShape | src/master/tools.py:132-143 | for every declared master tool, binding succeeds exactly on inputs conforming to the declaration's shape |
| Dispatch.ConformingCallReturns | src/master/tools.py:132-143 | a call conforming to its declaration, allowed values included, never raises |
| Dispatch.UndeclaredArgumentRaises | src/master/tools.py:140 | an undeclared argument makes the call raise |
| MasterLoop.SetStatus | src/master/loop.py:60 | the master status is the one set, recorded after the earlier ones; nothing else changes |
| MasterLoop.TextEvents | src/master/loop.py:130-134 | one `master_text` event per chunk, in order |
| MasterLoop.Turn | src/master/loop.py:66-102 | a turn ends the run exactly when the model asked for no tool, leaving the master IDLE with `master_done` last; a turn that goes on leaves it THINKING; events are only appended |
| MasterLoop.Loop | src/master/loop.py:65-102 | no turns leave the world as it was; a finished loop leaves the master IDLE, one cut off after some turns leaves it THINKING; events are only appended |
| MasterLoop.Run | src/master/loop.py:58-104 | a finished run leaves the master IDLE and an unfinished one THINKING; events are only appended; with no turns the conversation just gains the user message |
| MasterLoop.ExecuteCalls | src/master/loop.py:84-95 | before each call the status is CALLING_TOOL with its name; a batch in which nothing raises yields one result per call; statuses and events are only appended; the conversation is unchanged |
| MasterLoop.FinalTurn | src/master/loop.py:96-102 | a turn without calls ends the run with the turn's text, appended only when non-empty; the status becomes IDLE; the events are the chunks then `master_done` |
| MasterLoop.ToolTurnParts | src/master/loop.py:68-95 | a continuing tool turn is the assistant turn, the batch, the results turn and THINKING |
| MasterLoop.ToolTurnTranscript | src/master/loop.py:68-94 | a tool turn appends the assistant turn with the turn's text and calls, and the results turn answering it |
| MasterLoop.ToolTurnStatuses | src/master/loop.py:84-95 | a tool turn sets CALLING_TOOL per call in order and then THINKING; the text chunks are emitted before any call's events |
| MasterLoop.DelegateNoMasterDone | src/master/tools.py:193-233 | a delegation emits no `master_done` unless the runner does |
| MasterLoop.ExecuteNoMasterDone | src/master/tools.py:132-143 | the tool executor emits no `master_done` unless the runner does |
| MasterLoop.ExecutorQuiet | src/master/tools.py:132-143 | when the runner never reports `master_done`, neither does any tool call |
| MasterLoop.ScopedRunnerQuiet | src/master/tools.py:216-223 | a runner whose events all carry an agent id never reports the untagged `master_done` |
| MasterLoop.WorkerRunScoped | src/workers/runner.py:75-138 | every event of a worker run carries an agent id, so none is `master_done` |
| MasterLoop.ExecuteCallsNoMasterDone | src/master/loop.py:84-95 | a batch of calls through an executor that never reports `master_done` emits none |
| MasterLoop.TurnTranscriptStep | src/master/loop.py:66-102 | a turn that does not crash only appends to the conversation and keeps every tool-using turn answered |
| MasterLoop.TurnStatusStep | src/master/loop.py:66-102 | a turn that ends the run adds IDLE alone; a turn that continues adds only busy statuses |
| MasterLoop.TurnEventStep | src/master/loop.py:66-102 | a continuing turn adds no `master_done`; an ending turn adds exactly one, last |
| MasterLoop.LoopTranscript | src/master/loop.py:65-102 | a finished loop only appends to the conversation and keeps every tool-using turn answered |
| MasterLoop.LoopStatuses | src/master/loop.py:65-102 | a finished loop holds only busy statuses until its last, IDLE |
| MasterLoop.LoopEvents | src/master/loop.py:65-102 | a finished loop emits `master_done` exactly once, as its last event, when the executor emits none |
| MasterLoop.RunFinished | src/master/loop.py:58-104 | a finished run: the user message follows the earlier conversation; every tool-using turn is answered; the statuses go THINKING, stay busy, then end IDLE; exactly one `master_done`, and it is last |
| MasterLoop.RunFinishedScopedRunner | src/master/loop.py:58-104 | with a runner whose events all carry an agent id, as the worker runner's do, a finished run emits exactly one `master_done`, as its last event |
| WorkerRunner.WorkerToolsWellFormed | src/workers/runner.py:10-57 | each worker tool declaration is stored under its own name and is well formed |
| WorkerRunner.KnownNames | src/workers/runner.py:85 | the configured names that name a known tool, each taken from the configuration |
| WorkerRunner.ToolsFor | src/workers/runner.py:85 | the declarations of exactly the known configured names, in configured order |
| WorkerRunner.KnownNamesAppend | src/workers/runner.py:85 | the tool filter distributes over concatenation of the configured names |
| WorkerRunner.ToolsForMembership | src/workers/runner.py:85 | a name is sent exactly when it is configured and names a worker tool |
| WorkerRunner.DefaultTemplatesSendNoTools | src/master/state.py:23-44 | no default template names a worker tool, so such workers are sent no tools |
| WorkerRunner.ExecuteTool | src/workers/runner.py:193-232 | the names the hard-coded dispatch handles are exactly the declared worker tools, whose bodies act on the workspace; any other name gives the unknown-tool text and leaves the workspace alone |
| WorkerRunner.RunCalls | src/workers/runner.py:110-121 | one result per call |
| WorkerRunner.RunCallsAppend | src/workers/runner.py:110-121 | running two batches in turn is running their concatenation: the workspace flows from the first into the second and the results are concatenated |
| WorkerRunner.RunCallsInOrder | src/workers/runner.py:110-121 | each call's result is computed on the workspace left by exactly the calls before it, so a read sees an earlier write |
| WorkerRunner.UnknownCallsInert | src/workers/runner.py:232 | a batch of unknown tools leaves the workspace alone and answers each with the unknown-tool text |
| WorkerRunner.BuildRequest | src/workers/runner.py:148-155 | the tools field is present exactly when there are tools; the system prompt is the agent's; the token limit is 4096 |
| WorkerRunner.CallEvents | src/workers/runner.py:112-113 | one tagged `worker_tool_call` per call, in call order |
| WorkerRunner.FinalTurn | src/workers/runner.py:122-128 | a turn without calls ends with the turn's text, appended only when non-empty, and emits the chunks then `worker_done` with that text |
| WorkerRunner.ToolTurn | src/workers/runner.py:95-121 | a tool turn appends the assistant turn and the results turn answering it, with the results of running the calls in order on the workspace, passes the resulting workspace on, and emits the chunks then one call event per call |
| WorkerRunner.Turn | src/workers/runner.py:89-128 | a turn ends the run exactly when the model asked for no tool; it sends one request, keeps the agent, only appends events, and a final turn leaves the workspace alone |
| WorkerRunner.Loop | src/workers/runner.py:89-128 | no turns change nothing; each turn taken sends one request, all of them when the run is cut off; the agent is kept; requests and events are only appended |
| WorkerRunner.Start | src/workers/runner.py:75-87 | the agent becomes BUSY and is otherwise unchanged; the conversation is the assigned task alone; no request or event yet |
| WorkerRunner.Run | src/workers/runner.py:75-138 | the agent keeps its id and configuration; a finished run leaves it HAS_RESULT with the final text as last result after at most one request per turn; a cut-off run leaves it BUSY after one request per turn |
| WorkerRunner.ContinuePreservesSteady | src/workers/runner.py:95-121 | a tool turn keeps the run's invariant: task first, every tool use answered, requests consistent, events tagged and none `worker_done` |
| WorkerRunner.EndedSettled | src/workers/runner.py:122-128 | the final turn ends with `worker_done` as the only such event and the last one |
| WorkerRunner.LoopSteady | src/workers/runner.py:89-128 | whatever the turns, an unfinished loop stays steady and a finished one settles |
| WorkerRunner.RunFinished | src/workers/runner.py:75-138 | a finished run: the agent keeps its id and configuration and becomes HAS_RESULT with the final text as its last result; its conversation starts with the assigned task and answers every tool use; every request has the agent's prompt, starts with the assigned task and carries the same tools field; every event is tagged with the agent; `worker_done` is the only one and it is last |
| WorkerRunner.RunEventsTagged | src/workers/runner.py:75-138 | every event of a run, finished or not, is tagged with the agent |
| WorkerRunner.RunUnfinished | src/workers/runner.py:75-77 | a run cut off before its final turn leaves the agent BUSY and otherwise unchanged |

## Left out

- Timestamps: `created_at`, the event timestamp and the ISO creation text are plain values or absent, because clocks are not modelled.
- Id generation: `uuid4()[:8]` becomes a fresh-id argument to `State.SpawnWorker`, because randomness is not modelled.
- The completion service, network transport and model selection: they are abstracted as one stream-event list per turn.
- Transport errors inside a stream are not modelled.
- The worker tools' file-system bodies, including their error texts and the `KeyError` on a missing argument: they are the parameter `io` of `WorkerRunner.ExecuteTool`, a function from a workspace, a tool name and its input to the new workspace and the result text. The workspace is threaded through every call of a run, so the order of effects is modelled, but what each tool does to it is not.
- Concurrency, locking and background execution: the code runs delegation synchronously, and so does the model.
- `src/federation.py`, `main.py`, `run.py` and `src/ui/app.py` are not part of this model. This covers wiring, printing, the console event handler and the UI.
- Tool and property descriptions in `MASTER_TOOLS` and `WORKER_TOOLS` are not modelled. They are prose that does not affect behaviour.
- The system prompts' tool list (`list_worker_types`, `get_completed`, ...) differs from `MASTER_TOOLS`. Only `MASTER_TOOLS` is modelled, since that is what requests carry.
- The constructor mismatches are not modelled. `ToolExecutor(federation)` in `loop.py` does not match `ToolExecutor`'s constructor, and `tools.py` imports `IntentionType`, which `types.py` lacks. The executor is modelled on its own interface (`Dispatch.Api`).
- Dispatch.Bind: an argument value that is not a string is treated as a binding failure. Python would bind it. Most handlers only format it into an f-string, so `get_agent_detail` with `agent_id=5` answers "Agent not found: 5"; only `IntentionType(...)` in `delegate` would raise on it.
- Dispatch.Delegate: the contract states the cases with no runner and with an unknown intention. The runner case is stated by `Dispatch.DelegateWithRunner`.
- MasterLoop.RunFinished: "exactly one `master_done`" is stated for a runner that never reports a `master_done` itself. `MasterLoop.WorkerRunScoped` shows the worker runner is such a runner, and `MasterLoop.RunFinishedScopedRunner` concludes the property for every runner like it. The runner parameter of `Dispatch.Api` stays an abstract function rather than `WorkerRunner.Run` itself: `tools.py` hands it the agent its state interface returns, and the model does not identify that agent with the worker runner's `WorkerAgent`.
- MasterLoop.LoopEvents: holds for an executor that never emits `master_done`, which `MasterLoop.ExecutorQuiet` derives from the same condition on the runner as `MasterLoop.RunFinished`.
- MasterLoop.Turn, WorkerRunner.Turn, Dispatch.Execute: bus subscribers are assumed not to raise. Each emit appends its event to the log; what a raising subscriber does to one delivery is modelled separately by `Events.Emit`.
- Exceptions raised by the runner or the completion service inside a run are not modelled. An exception raised by a tool handler is modelled: it ends the master run as `Failed`.
