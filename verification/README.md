# A verified model of the agent runtime, its model catalog and its terminal layout

This project models six parts of the repository in Dafny and proves what they promise, for every input, every
run and every interleaving:

- the agent loop and the `Agent` class that owns it (`packages/agent/src/agent-loop.ts`, `packages/agent/src/agent.ts`),
  with the tool-declaration replay it relies on (`packages/ai/src/utils/transcript.ts`);
- the refresh and publication protocol of the model catalog, and header merging (`packages/ai/src/models.ts`);
- layout, clipping, scrolling and hit testing of the terminal interface (`packages/tui/src/layout.ts`,
  `packages/tui/src/components/stack.ts`, `packages/tui/src/components/scroll-view.ts`);
- the proxy stream client (`packages/agent/src/proxy.ts`);
- the transcript search index (`packages/tui/src/alt-screen-search.ts`);
- the cycle-safe JSON recogniser (`packages/chord/src/json.ts`).

`dafny verify dfyconfig.toml` checks everything.

## How the model is built

Where the source changes state step by step, the model is a class or a method with loops, and its contract ties the
new state to a function of the old one; the laws are then proved about those functions.  What the platform, users,
models and tools answer is a parameter:

- **Agent loop.**  A `TurnInput` scripts everything one turn asks for: messages queued meanwhile, the answers of
  `prepareNextTurn` and `prepareRequest`, the streamed response, the tools with their hooks and the order in which
  parallel calls make progress, the decision of `finishTurn`, and the context-status notes.  `Run` folds turns over a
  finite script; a script may end while the loop waits for an answer, so a statement about all scripts is a statement
  about every turn boundary of every run, finite or not.  Messages carry an `Origin` label that no operation reads; it
  only lets a theorem say which queue a transcript entry came from.
- **Catalog refresh.**  Code between two `await`s is one atomic action; `Step` is total and an action that is not
  enabled changes nothing, so a list of actions is an arbitrary interleaving.  The store's effect happens at some point
  between the start and the settlement of a mutation, and a mutation may fail before or after it.
- **Layout.**  A component's rendering is seen through the number of its rows and its columns at a width.  Stack sizes
  are computed by the modelled `allocateStackSizes`, so that they are natural numbers is proved and not assumed.
- **Proxy.**  JSON parsing, trimming and salvaging of incomplete JSON are functions of the platform; the end-to-end
  theorem asks of the server only that its JSON is one non-empty trimmed line that parses back to the event.
- **Search.**  Sequence stripping, segmentation, widths, query normalisation and the expression scan are functions of
  the platform; graphemes are non-empty and matches non-empty, ordered and disjoint.

## What the code does not keep, and exactly when it does

- *Replay after a declaration.*  The comment at `packages/agent/src/agent-loop.ts:349` says that replay always yields
  exactly `context.tools`.  It does if and only if no two executable tools share a name with different definitions
  (`Transcript.DeclarationReplaysExactly`), whatever the transcript and the pending messages.  With two such tools and an
  empty transcript the model is told of the second definition alone, while a call runs the first
  (`ToolBatchProofs.AmbiguousToolCounterexample`), and every further request adds one more system message
  (`Transcript.RedeclarationAddsNothing`).
- *Three equal views and the event grammar.*  A stream with two `start` events leaves an extra partial message in the
  context and an unclosed message in the trace (`LoopRuns.TwoStartsCounterexample`).  `LoopTrace.ViewsAgree`,
  `LoopTrace.RunFollowsGrammar` and `LoopRuns.EveryRunRebuilds` prove that this is the only way to break them.
- *Pending calls while a call reports.*  Every tool update lies between the start and the end of its call, for all ids
  (`LoopRuns.EveryRunBracketsCalls`).  The agent, however, keeps a set of ids: when two calls of a batch share an id, the
  end of one removes the id while the other still reports (`ToolBrackets.SharedIdCounterexample`).
  `ToolBatchProofs.UpdatesFindCallPending` gives the exact condition on the ids of the batch.
- *Redacted thinking over the proxy.*  No proxy event carries the `redacted` flag of a thinking block
  (packages/ai/src/types.ts:370-378, packages/agent/src/proxy.ts:36-59), so every redacted block arrives unredacted
  (`ProxyProofs.RedactedCounterexample`).  `ProxyProofs.RoundTrip` rebuilds exactly the content if and only if no block is
  redacted; `ProxyWire.MessageArrives` adds that the server must have set none of the fields that no event carries.

## Model

| member | source | states |
|---|---|---|
| Transcript.GetCurrentTools | packages/ai/src/utils/transcript.ts:58-66 | the nested delete and set loops over all system messages compute the left fold `Replay` |
| Transcript.ApplyReaches | packages/ai/src/utils/transcript.ts:150-168 | applying the computed delta gives a name the last of its current definitions, if and only if the name is not an ambiguous one for which that definition was already in force |
| Transcript.DeclareToolChanges | packages/agent/src/agent-loop.ts:352-394 | the search for the last system message, the baseline and the insertion compute `DeclareChanges` |
| Transcript.DeclaredReplay | packages/agent/src/agent-loop.ts:352-394 | replaying the context and the declared messages is applying the delta to the tools committed without the pending intent |
| Transcript.DeclarationReachesLast | packages/agent/src/agent-loop.ts:352-382 | the same for a whole declaration: replay gives a name the last of its executable definitions under that exact condition |
| Transcript.DeclarationReplaysExactly | packages/agent/src/agent-loop.ts:342-382 | for every context and pending list, replay after a declaration yields exactly the set of executable tools if and only if no two of them share a name with different definitions |
| Transcript.RedeclarationAddsNothing | packages/agent/src/agent-loop.ts:366-382 | declaring a second time with nothing pending adds nothing if and only if no two executable tools share a name with different definitions |
| Transcript.DeclarationKeepsPending | packages/agent/src/agent-loop.ts:372-381 | a declaration keeps every pending message of each origin, in order, up to the tool fields of system messages |
| Transcript.DeclarationPlace | packages/agent/src/agent-loop.ts:372-381 | a declaration rewrites only the tool fields of the last pending system message, or puts one new system message before everything pending |
| Events.ReduceMeans | packages/agent/src/agent.ts:565-612 | after any trace the agent holds every ended message in order, the message shown last, the calls whose last event is their start, and the last error of a turn |
| Events.ShownWhileOpen | packages/agent/src/agent.ts:565-578 | while the trace follows the grammar a streaming message is present exactly while a message is open |
| ToolBatch.ExecuteSequential | packages/agent/src/agent-loop.ts:547-601 | the sequential executor emits the events, messages and terminate flag of `Sequential` |
| ToolBatch.PreflightLoop | packages/agent/src/agent-loop.ts:613-661 | the preparation loop announces calls in order, settles immediate outcomes and stops after an abort |
| ToolBatch.RunTasks | packages/agent/src/agent-loop.ts:636-665 | any interleaving of starts, updates, settlements and ends of the prepared calls acts as the fold `ActAll` |
| ToolBatch.ExecuteParallel | packages/agent/src/agent-loop.ts:603-677 | the parallel executor emits the events, messages and terminate flag of `Parallel` for its schedule |
| ToolBatch.ExecuteToolCalls | packages/agent/src/agent-loop.ts:495-540 | truncated messages fail all calls, one sequential tool makes the batch sequential, everything else runs in parallel |
| ToolBatchProofs.ParallelOutcomes | packages/agent/src/agent-loop.ts:636-677 | under every schedule every call ends, and the results are the calls' own outcomes in source order |
| ToolBatchProofs.ParallelRefinesSequential | packages/agent/src/agent-loop.ts:547-677 | without an abort every schedule gives the tool-result messages and the terminate flag of the sequential batch |
| ToolBatchProofs.ScheduleIndependence | packages/agent/src/agent-loop.ts:603-677 | two schedules of one batch in which every call sees the same aborts at the same of its own steps give the same results |
| ToolBatchProofs.BatchAnswersPrefix | packages/agent/src/agent-loop.ts:495-677 | with an abort at any point the results answer a non-empty prefix of the calls in order; a truncated message has every call answered |
| ToolOutcomes.SequentialYields | packages/agent/src/agent-loop.ts:547-601 | calls are answered up to the first abort, each with the error that stopped it before its tool (missing, invalid, hook thrown, blocked, aborted) or with its execution's content, terminate and error flag, overridden field by field by the hook after it |
| ToolOutcomes.ParallelYields | packages/agent/src/agent-loop.ts:603-677 | the same under every schedule, with aborts between preparation and start |
| ToolOutcomes.MessagesSay | packages/agent/src/agent-loop.ts:900-913 | a result message carries the id, name, content and error flag of its result |
| ToolOutcomes.StoppedCallsNeverRun | packages/agent/src/agent-loop.ts:723-791 | the whole batch is the same whatever the tools, the hooks after them and the updates of stopped calls would have been |
| ToolOutcomes.SequentialReports | packages/agent/src/agent-loop.ts:793-834 | a sequential batch passes on exactly the updates its running calls report, in order |
| ToolOutcomes.ParallelReports | packages/agent/src/agent-loop.ts:793-834 | a parallel batch passes on exactly what a running call with an id of its own reports between its start and its settlement |
| ToolOutcomes.StoppedCallsAreSilent | packages/agent/src/agent-loop.ts:723-834 | no update carries an id of which every call was stopped before its tool |
| ToolOutcomes.BatchEnds | packages/agent/src/agent-loop.ts:890-898 | every answered call ends once, with the error flag of its result |
| ToolOutcomes.ExecutorChoice | packages/agent/src/agent-loop.ts:532-539 | a batch is sequential if and only if the loop is set to it or the first tool of some call's name asks for it |
| ToolOutcomes.BatchTerminates | packages/agent/src/agent-loop.ts:705-707 | a batch without aborts ends the run if and only if it has calls, is not truncated, and every call's tool, hook or block asks for it |
| ToolBatchProofs.BatchClean | packages/agent/src/agent-loop.ts:495-677 | every batch adds exactly its results to the agent's transcript, leaves no call pending and fits into an open turn |
| ToolBatchProofs.AmbiguousToolCounterexample | packages/agent/src/agent-loop.ts:730 | two definitions of one name over an empty transcript: the second is declared alone, and a call runs the first |
| ToolBatchProofs.UpdatesFindCallPending | packages/agent/src/agent.ts:580-592 | the agent lists the call as pending at every update, under every schedule, if and only if no running call shares its id with another running call or with one settled after it |
| Events.BracketedMeans | packages/agent/src/agent-loop.ts:613-671 | in a bracketed trace more calls of an id have started than ended before each of its updates and ends, and as many before each turn_end |
| ToolBrackets.ParallelBracketed | packages/agent/src/agent-loop.ts:603-677 | under every interleaving, for all ids and aborts, each update and end lies within its own call and every call that starts ends; the open calls are exactly the unfinished entries, counted with repetition |
| ToolBrackets.BatchBracketed | packages/agent/src/agent-loop.ts:495-677 | the same for truncated, sequential and parallel batches |
| ToolBrackets.RunBracketed | packages/agent/src/agent-loop.ts:162-340 | the same over whole runs, with no call open where a turn starts or ends |
| ToolBrackets.SharedIdCounterexample | packages/agent/src/agent.ts:580-592 | two concrete calls with one id: an update finds its id not pending, although its call is open |
| LoopViews.StreamExact | packages/agent/src/agent-loop.ts:400-486 | a stream with at most one start leaves exactly the final message in the context, whatever the updates |
| LoopViews.StreamLength | packages/agent/src/agent-loop.ts:428-486 | every further start of a stream leaves one more message in the context |
| LoopViews.StreamEffect | packages/agent/src/agent-loop.ts:428-486 | the agent gains exactly the final message from any stream, and the events bracket it if and only if there was at most one start |
| LoopViews.AgentRebuildsTranscript | packages/agent/src/agent.ts:565-612 | in every run the transcript rebuilt from events is the old one followed by the new messages, and no call is pending at any turn_end |
| LoopViews.StartRebuilt | packages/agent/src/agent-loop.ts:109-123 | both entry points start with a transcript that is rebuilt from their events |
| LoopTrace.RunFollowsGrammar | packages/agent/src/agent-loop.ts:162-340 | the trace is one agent_start, alternating turns around whole messages and tool events, and agent_end exactly at the exit, if and only if no used stream started twice |
| LoopTrace.StartParses | packages/agent/src/agent-loop.ts:116-148 | both entry points open the trace inside a first turn |
| LoopTrace.TurnRequests | packages/agent/src/agent-loop.ts:217-250 | a turn makes exactly one provider request, after its injected messages |
| LoopTrace.ViewsAgree | packages/agent/src/agent-loop.ts:218-286 | while no hook replaces the context, context, agent transcript and initial context plus new messages are equal at the end if and only if no stream started twice, and then at every request too |
| LoopTrace.StartAgrees | packages/agent/src/agent-loop.ts:109-150 | both entry points establish the three equal views |
| LoopTrace.RequestsDeclareTools | packages/agent/src/agent-loop.ts:218-249 | at every provider request of every run before which prepareRequest kept the context, replay yields exactly the executable tools if and only if those are unambiguous |
| LoopTrace.OneRequestPerTurn | packages/agent/src/agent-loop.ts:186-250 | a run adds one request per turn it takes, in order, to those made before |
| LoopTrace.NextRequestLaw | packages/agent/src/agent-loop.ts:252-337 | after a turn the run goes on if and only if it neither failed nor was ended and tool results remain, steering or a follow-up is queued, or this turn decided to continue; a satisfied continuation is not kept, and a failed or ended turn drains neither queue |
| TurnLaws.CallsAppend | packages/agent/src/agent-loop.ts:266 | the calls of two parts of a message are those of the first followed by those of the second |
| TurnLaws.CallsAreCallBlocks | packages/agent/src/agent-loop.ts:266 | the calls of a message are its call blocks, each as often as it occurs |
| TurnLaws.StreamShows | packages/agent/src/agent-loop.ts:428-486 | a stream shows its first partial, every later update and the final message, and nothing that comes before its start or after its end |
| TurnLaws.TurnOpens | packages/agent/src/agent-loop.ts:187-246 | a turn injects prepared messages, due steering and notes, declared, into the context prepareNextTurn gave, and requests with that or with the context prepareRequest gave |
| TurnLaws.TurnAnswersCalls | packages/agent/src/agent-loop.ts:266-297 | in a turn without failure and abort every call block is answered once and in order, in the new messages, the context and turn_end, by what its tool and hooks gave |
| TurnLaws.TurnContextExact | packages/agent/src/agent-loop.ts:249-286 | after a turn the context is that of its request followed by the reply and the results |
| TurnLaws.TurnAsksInOrder | packages/agent/src/agent-loop.ts:187-337 | a turn asks for preparation, steering, the request, the decision, and then steering, notes and follow-ups as the outcome demands, in this order |
| LoopQueues.QueuesConserved | packages/agent/src/agent-loop.ts:175-337 | over every run, delivered, due and queued messages of each queue are the initial ones followed by all arrivals, in order; the same for notes |
| LoopQueues.NothingStranded | packages/agent/src/agent-loop.ts:252-340 | a run that has left holds no drained but undelivered message |
| LoopQueues.NotesReachNextTurn | packages/agent/src/agent-loop.ts:207-213 | the notes of a turn are delivered in the next one, all and once, and the next turn's notes replace none of them |
| LoopQueues.NotesDoNotSteer | packages/agent/src/agent-loop.ts:176-213 | two runs that differ only in returned notes make the same polls, requests and decisions, take the same turns and exit alike |
| LoopQueues.SteeringOneAtATime | packages/agent/src/agent-loop.ts:204-209 | in one-at-a-time mode at most one steering message enters between consecutive requests of any run |
| LoopQueues.StartSpaced | packages/agent/src/agent.ts:394-405 | prompts with a steering message and a skipped first poll, or with none, start such a run |
| LoopQueues.StartLedger | packages/agent/src/agent-loop.ts:109-150 | a start accounts for its prompts and both queues |
| LoopRuns.EveryRunRebuilds | packages/agent/src/agent-loop.ts:101-340 | rebuilt transcript, empty pending set, grammar and equal views, with their exact condition, for every whole run from either entry point |
| LoopRuns.EveryRunBracketsCalls | packages/agent/src/agent-loop.ts:101-340 | in every run from either entry point each tool update and end lies between start and end of its call, and every call has ended when its turn ends |
| LoopRuns.TwoStartsCounterexample | packages/agent/src/agent-loop.ts:428-486 | a concrete run whose stream starts twice breaks the grammar and the equal views |
| LoopRuns.EveryRunConserves | packages/agent/src/agent-loop.ts:101-340 | on every exit path delivered followed by still queued is given followed by arrived, for steering, follow-ups and notes |
| LoopRuns.EveryRunDeclares | packages/agent/src/agent-loop.ts:101-249 | the declaration law at every request of every whole run from either entry point |
| LoopRuns.EveryRunSpacesSteering | packages/agent/src/agent-loop.ts:101-340 | in one-at-a-time mode at most one steering message enters between consecutive requests, and before the first, of every whole run |
| LoopRuns.EveryContinuationSpacesSteering | packages/agent/src/agent.ts:384-411 | so does every run that continue() starts |
| AgentRuntime.PendingMessageQueue.Enqueue | packages/agent/src/agent.ts:151-153 | a message joins at the end |
| AgentRuntime.PendingMessageQueue.Peek | packages/agent/src/agent.ts:159-163 | everything in mode "all", and the first message, if any, in one-at-a-time mode |
| AgentRuntime.PendingMessageQueue.Drain | packages/agent/src/agent.ts:165-169 | what is taken followed by what stays is what was queued |
| AgentRuntime.PendingMessageQueue.Clear | packages/agent/src/agent.ts:171-173 | the queue is empty afterwards |
| AgentRuntime.ContinueConserves | packages/agent/src/agent.ts:384-411 | continuing drains at most one queue, loses nothing, and in one-at-a-time mode opens with at most one steering message |
| AgentRuntime.PlanCases | packages/agent/src/agent.ts:384-411 | refused without talk or with nothing queued after an assistant message; otherwise resumes, or sends steering before follow-ups, as much as the mode takes, skipping the first poll only for steering |
| AgentRuntime.Agent.ProcessEvents | packages/agent/src/agent.ts:565-605 | the in-place state after an event is the reduction of the state before |
| AgentRuntime.Agent.InjectMessages | packages/agent/src/agent-loop.ts:217-224 | the injection loop adds the declared messages to context and new messages and announces each |
| AgentRuntime.Agent.StreamAssistantResponse | packages/agent/src/agent-loop.ts:400-486 | the streaming loop leaves the context and the trace of `StreamMessages` and `StreamEvents` |
| AgentRuntime.Agent.BeginTurn | packages/agent/src/agent-loop.ts:187-215 | preparation, second poll and attached notes |
| AgentRuntime.Agent.TakeResponse | packages/agent/src/agent-loop.ts:187-250 | the turn up to the end of the streamed response |
| AgentRuntime.Agent.CloseTurnWith | packages/agent/src/agent-loop.ts:265-297 | tool execution, results in context and new messages, end of the turn |
| AgentRuntime.Agent.PollAfterTurn | packages/agent/src/agent-loop.ts:304-317 | steering poll, notes, and the continuation dropped when another source satisfied it |
| AgentRuntime.Agent.TakeTurn | packages/agent/src/agent-loop.ts:186-318 | one iteration of the inner loop is the step `Turn`, up to the follow-up poll |
| AgentRuntime.Agent.RunLoop | packages/agent/src/agent-loop.ts:162-340 | the two nested loops end in the state, trace, queues and exit of `Run` |
| AgentRuntime.Agent.FinishRun | packages/agent/src/agent.ts:550-556 | the agent is idle with nothing streaming or pending, its transcript untouched |
| AgentRuntime.Agent.RunWithLifecycle | packages/agent/src/agent.ts:460-530 | a whole run over a snapshot of the agent's own transcript appends exactly the loop's new messages and leaves the loop's queues |
| AgentRuntime.Agent.ContinueRun | packages/agent/src/agent.ts:384-411 | continuing runs from steering, from follow-ups or from the transcript, or is refused and then changes nothing |
| ModelsRefreshProofs.StepInv | packages/ai/src/models.ts:281-377 | every atomic segment keeps the protocol invariant |
| ModelsRefreshProofs.AtMostOnePastItsWait | packages/ai/src/models.ts:356-377 | in every reachable state at most one publication of a provider is between its wait and its settlement |
| ModelsRefreshProofs.StepLegal | packages/ai/src/models.ts:357-370 | a store mutation starts and an update runs only while its generation is current and its signal is not aborted, and an update sees its own catalog in the store |
| ModelsRefreshProofs.EffectsInOrder | packages/ai/src/models.ts:332-377 | over any continuation generations of updates and of store mutations never decrease per provider |
| ModelsRefreshProofs.ReachableInOrder | packages/ai/src/models.ts:332-377 | so in every state reachable from a new instance |
| ModelsRefreshProofs.ReplacedProviderIsSafe | packages/ai/src/models.ts:281-296 | after setProvider, deleteProvider or clearProviders no earlier refresh of the provider ever starts a store mutation or runs an update |
| ModelsRefreshProofs.NeverStuck | packages/ai/src/models.ts:356-377 | while a provider has an unsettled publication, one of its publications can resume or only waits for the store |
| ModelsOutcomes.WakeUpOutcome | packages/ai/src/models.ts:358-369 | when its turn comes a live publication updates memory at once or starts its mutation, and a superseded or aborted one does nothing |
| ModelsOutcomes.TakeEffectOutcome | packages/ai/src/models.ts:361-365 | the mutation writes the publication's catalog, or deletes its provider's, and touches no other provider |
| ModelsOutcomes.StoreSettlesOutcome | packages/ai/src/models.ts:361-370 | after a mutation that succeeded a live publication updates memory; a failed one or one no longer live does not |
| ModelsOutcomes.RegistryOutcome | packages/ai/src/models.ts:281-289 | setting or deleting registers or removes exactly that provider, with a new generation and its running refresh aborted |
| ModelsOutcomes.ClearOutcome | packages/ai/src/models.ts:291-296 | clearing supersedes exactly the registered providers and running refreshes |
| ModelsOutcomes.BeginOutcome | packages/ai/src/models.ts:343-348 | a refresh has the new generation of its provider and a registered controller, and the one before it is aborted |
| ModelsOutcomes.FinishOutcome | packages/ai/src/models.ts:443-447 | a finished refresh removes its own controller and no other |
| ModelsOutcomes.PublishOutcome | packages/ai/src/models.ts:350-376 | a publication waits behind the tail of its chain and becomes the tail |
| ModelsOutcomes.AbortAndTidyOutcome | packages/ai/src/models.ts:371-375 | aborting a caller marks only that caller, and a settled publication leaves its chain only while it is still the tail |
| ModelsOutcomes.EveryPublicationAccounted | packages/ai/src/models.ts:350-377 | in every interleaving a publication is applied exactly when its update ran, at most once and after its own mutation; it is skipped only when no longer live and fails only in the store, so a live one whose store works has updated memory with its catalog stored |
| ModelsOutcomes.UndisturbedApplies | packages/ai/src/models.ts:357-370 | a live publication next in its chain whose store works ends applied, with the store as it asked |
| ModelsRuntime.ModelsImpl.SupersedeProviderRefresh | packages/ai/src/models.ts:332-341 | the generation grows by one and a running refresh is aborted and forgotten |
| ModelsRuntime.ModelsImpl.SetProvider | packages/ai/src/models.ts:281-284 | the step of the state machine, keeping its invariant |
| ModelsRuntime.ModelsImpl.DeleteProvider | packages/ai/src/models.ts:286-289 | the step of the state machine, keeping its invariant |
| ModelsRuntime.ModelsImpl.ClearProviders | packages/ai/src/models.ts:291-296 | the loop over providers and running refreshes supersedes each exactly once |
| ModelsRuntime.ModelsImpl.BeginProviderRefresh | packages/ai/src/models.ts:343-348 | a new current generation with its own controller |
| ModelsRuntime.ModelsImpl.FinishProviderRefresh | packages/ai/src/models.ts:443-447 | a refresh removes its controller only while it is still its own |
| ModelsRuntime.ModelsImpl.PublishProviderModels | packages/ai/src/models.ts:350-377 | a publication queues behind the tail of its provider's chain |
| ModelsRuntime.ModelsImpl.ResumePublication | packages/ai/src/models.ts:358-365 | the segment after the wait: give up when stale, start the mutation, or update at once |
| ModelsRuntime.ModelsImpl.StoreMutationSettled | packages/ai/src/models.ts:361-370 | the segment after the mutation: fail, give up when stale, or update |
| Headers.MergeHeaders | packages/ai/src/models.ts:250-264 | the nested delete and set loops compute `MergeOptional`, absent exactly when both sides are absent |
| Headers.MergeShape | packages/ai/src/models.ts:255-263 | the result is the base without what is overridden, followed by the last of each override |
| Headers.MergeOverrides | packages/ai/src/models.ts:250-264 | case-insensitive lookup gives the last matching override, or else the base value |
| Headers.MergeUnique | packages/ai/src/models.ts:250-264 | no two names differ only in case whenever that holds of the base (field names, section 5.1 of RFC 9110) |
| Headers.MergeAssociative | packages/ai/src/models.ts:250-264 | merging three layers is associative as ordered lists |
| Headers.LayeredPriority | packages/ai/src/models.ts:567-575 | request headers win over model headers, which win over auth headers, also when layers are absent |
| StackSizes.ClampSize | packages/tui/src/components/stack.ts:89-93 | the result lies in the entry's range and a size already in it is kept |
| StackSizes.DistributeRound | packages/tui/src/components/stack.ts:103-130 | one pass in place over the candidates is `Round` |
| StackSizes.DistributeInPlace | packages/tui/src/components/stack.ts:95-133 | the sharing loop ends and leaves `Distribute` of the sizes |
| StackSizes.DistributeMoves | packages/tui/src/components/stack.ts:95-133 | sizes move one way only, stay in range, entries without weight stay, and all of the amount is placed unless nothing can take more |
| StackSizes.AllocationFills | packages/tui/src/components/stack.ts:135-154 | the sizes fill the space exactly, or fall short with every growing entry at its maximum, or exceed it with every shrinking entry at its minimum |
| StackSizes.SizesStartFromBasis | packages/tui/src/components/stack.ts:141-147 | sizes start from the basis, or the rendered size without one, brought into range |
| StackSizes.TotalAppend | packages/tui/src/components/stack.ts:113-115 | the total weight of two lists of entries is the sum of theirs |
| StackSizes.TotalOne | packages/tui/src/components/stack.ts:113-115 | an entry that can still move counts with its growth, or its shrinking times its size |
| StackSizes.PassesAreFair | packages/tui/src/components/stack.ts:102-132 | sharing goes pass by pass; in each an entry gets a share of what is left in proportion to its weight, rounded down, at least one cell, within what is left and its range |
| LayoutPlacement.SpaceWithoutGaps | packages/tui/src/components/stack.ts:149 | entries and gaps make up the space available unless the gaps alone exceed it |
| Boxes.Intersect | packages/tui/src/layout.ts:60-66 | the result covers exactly the points of both rectangles |
| Boxes.UpdateClipsExact | packages/tui/src/layout.ts:101-104 | re-clipping makes every clip of the tree exact |
| Boxes.ClipsFromSkeleton | packages/tui/src/layout.ts:101-104 | recomputed clips depend on the rects alone, not on stale clips |
| Boxes.TranslateApart | packages/tui/src/layout.ts:96-99 | moving a tree keeps siblings disjoint |
| Layout.LayoutRect | packages/tui/src/layout.ts:106-247 | a component gets the frame it was given, or its natural height when none is imposed |
| LayoutPlacement.LayoutId | packages/tui/src/layout.ts:106-247 | a box stands for its component, and only scroll views carry a scroll position |
| LayoutPlacement.ColumnPlacement | packages/tui/src/layout.ts:172-197 | the first entry starts at the column's corner, each next one a gap after the end of the one before; heights share out an imposed height, and otherwise the column ends where its last entry ends and holds every entry |
| LayoutPlacement.RowPlacement | packages/tui/src/layout.ts:200-247 | the same along a row, widths sharing out its own; across, entries fill it, sit at its top or bottom, or leave margins that differ by at most one with the smaller above; without an imposed height it is as high as its highest entry |
| LayoutPlacement.ScrollPlacement | packages/tui/src/layout.ts:135-167 | content starts above the frame by the scroll position, at full height and the width the scrollbar leaves; the position follows the end or stays inside the content |
| LayoutProofs.LayoutClipExact | packages/tui/src/layout.ts:125-246 | every clip covers exactly the parent's clip within the box's rect, below any nesting of scroll views and for entries without width |
| LayoutProofs.LayoutEquivariant | packages/tui/src/layout.ts:106-247 | moving the frame moves every rect and changes no size or scroll position, whatever the clips, for arbitrarily nested stacks and scroll views |
| LayoutProofs.StaleOffsetHarmless | packages/tui/src/layout.ts:136-151 | laying content out at a stale offset and moving it gives the rects of laying it out at the settled offset |
| LayoutProofs.TwoPassesAreDirect | packages/tui/src/layout.ts:106-247 | rects equal those of a single pass that knows the content heights, and corresponding clips cover the same points |
| LayoutProofs.LayoutApart | packages/tui/src/layout.ts:187-246 | children of one box never overlap |
| LayoutProofs.UpdateLayoutSettles | packages/tui/src/components/scroll-view.ts:189-201 | the scroll position follows the end or stays where it fits, and a second update with the same heights changes nothing |
| LayoutProofs.SecondFrameSame | packages/tui/src/layout.ts:136-167 | laying out again after scroll views settled gives the same rects, scroll positions and clip points |
| HitTest.AllVisitsEveryBox | packages/tui/src/layout.ts:415-425 | the walk of the whole tree, against which pruning is measured, reaches every box by its path |
| HitTest.PrunedWalkIsFilter | packages/tui/src/layout.ts:417-421 | on exact clips the pruned walk finds the boxes, in order, that filtering the whole tree finds |
| HitTest.ScrollWalk | packages/tui/src/layout.ts:441-445 | the scroll-view walk is the box walk restricted to scroll views; its rect test drops none |
| HitTest.HitTestIsOneChain | packages/tui/src/layout.ts:410-449 | on every layout the hit test is one child-to-parent chain from the innermost box to the root, made of exactly the boxes under the point, and the scroll views found are those of the chain |
| LayoutRuntime.TranslateBox | packages/tui/src/layout.ts:96-99 | the recursive in-place move of box objects |
| LayoutRuntime.UpdateBoxClips | packages/tui/src/layout.ts:101-104 | the recursive in-place re-clipping of box objects |
| LayoutRuntime.AdoptChild | packages/tui/src/layout.ts:91-94 | a finished child is linked to its parent without sharing |
| LayoutRuntime.LayoutBoxes | packages/tui/src/layout.ts:106-247 | the objects built form exactly the laid-out tree, newly allocated, unshared and linked to their parents |
| LayoutRuntime.LayoutScroll | packages/tui/src/layout.ts:135-167 | lay out at the stale offset, settle, move, re-clip |
| LayoutRuntime.LayoutColumn | packages/tui/src/layout.ts:172-197 | the loop with the running row |
| LayoutRuntime.LayoutRow | packages/tui/src/layout.ts:200-247 | the loop with the running column, alignment and entries without width |
| LayoutRuntime.VisitBox | packages/tui/src/layout.ts:417-421 | the recursive walk collects the objects and depths of `Visit` |
| LayoutRuntime.GetLayoutBoxesAt | packages/tui/src/layout.ts:415-425 | the objects under a point in the order of `BoxesAt` |
| LayoutRuntime.FoundBoxesClimb | packages/tui/src/layout.ts:414-425 | each object found has the next one as its parent, and the last one is the root |
| Proxy.Put | packages/agent/src/proxy.ts:278-280 | assigning past the end of the content leaves holes and every other slot as it was |
| ProxyProofs.SplitJoin | packages/agent/src/proxy.ts:213-214 | splitting at newlines loses nothing and leaves no newline in a part |
| ProxyProofs.SplitAppend | packages/agent/src/proxy.ts:212-214 | complete lines of a prefix are complete lines of the whole text |
| ProxyProofs.HandleLines | packages/agent/src/proxy.ts:216-218 | lines are processed in order until one throws |
| ProxyProofs.StreamProxy | packages/agent/src/proxy.ts:187-262 | for every cut into chunks the read loop and the final flush process exactly the lines of the whole text; every read pushes a terminal event; one that fails or is aborted before a line throws ends with the message and one event that say why |
| ProxyProofs.OneTerminalVisible | packages/ai/src/utils/event-stream.ts:43-58 | a consumer sees exactly one terminal event, as the last one |
| ProxyProofs.FoldIsLocal | packages/agent/src/proxy.ts:270-381 | an interleaving folds without an exception if and only if each slot's own events do, and every slot ends as its own events leave it |
| ProxyProofs.DecodeBlock | packages/agent/src/proxy.ts:278-381 | start, any split into deltas and end of a block rebuild the block with no partial JSON left, a thinking block always unredacted |
| ProxyProofs.RoundTrip | packages/agent/src/proxy.ts:270-381 | for any content, any deltas and any interleaving that keeps each block's order the fold rebuilds the content with thinking unredacted, hence exactly the content if and only if no thinking block is redacted |
| ProxyProofs.RedactedCounterexample | packages/agent/src/proxy.ts:310-339 | one redacted thinking block sent whole arrives unredacted |
| ProxyWire.MessageArrives | packages/agent/src/proxy.ts:187-398 | a message sent as data lines arrives with its content unredacted, its stop reason, error, usage and level, whether it ends in done or in error, the terminal event last and the only one; it is the message the server held if and only if no thinking block is redacted and no field is set that no event carries |
| ProxyShown.EveryEventPushed | packages/agent/src/proxy.ts:192-203 | a consumer sees start, every block event in order and the end, nothing else, each block event with the message as far as it has come: the deltas so far, and for a tool call its id, name, salvaged arguments and partial JSON |
| ProxyShown.IgnoredEvents | packages/agent/src/proxy.ts:368-404 | an event of unknown type and the end of a call in another slot change nothing and are not seen |
| ProxyShown.RefusedEvents | packages/agent/src/proxy.ts:282-366 | a delta or an end for a slot of another kind throws its message and changes nothing else |
| ProxyShown.OddLines | packages/agent/src/proxy.ts:192-196 | other lines and empty data are skipped, data that is not JSON throws |
| ProxyShown.ReceiveEnds | packages/agent/src/proxy.ts:238-262 | a whole response ends with the server's terminal event or else with an error that says why |
| ProxyWire.PartialMessage.ProcessProxyEvent | packages/agent/src/proxy.ts:270-406 | the in-place update of the message is `Process`; a refused event and one of unknown type leave it as it was, the first throwing and the second ignored |
| SearchProofs.CorpusOrdered | packages/tui/src/alt-screen-search.ts:34-106 | spans are non-empty, ordered and disjoint in the text and on the screen |
| SearchProofs.CorpusTextIsWords | packages/tui/src/alt-screen-search.ts:34-106 | the corpus text is the runs of non-blank cells of all rows joined by single spaces |
| SearchProofs.FastPathInvisible | packages/tui/src/alt-screen-search.ts:52-80 | indexing ASCII lines by runs gives the text, and for every match the segments, of indexing them cell by cell |
| SearchProofs.SpansAreCells | packages/tui/src/alt-screen-search.ts:81-101 | the per-cell spans are the non-blank cells of the screen in reading order, each with its own slice of the text |
| SearchProofs.CellsOfLine | packages/tui/src/alt-screen-search.ts:52-86 | printable ASCII lines have one cell per character, other lines one per grapheme with the platform's width and blankness |
| SearchProofs.SegmentsExact | packages/tui/src/alt-screen-search.ts:126-142 | the segments of a match cover exactly the columns its spans reach and never touch each other |
| SearchProofs.MatchHighlightsItsCells | packages/tui/src/alt-screen-search.ts:116-148 | a screen position is covered if and only if it lies in a non-blank cell whose text the match touches |
| SearchProofs.OneEntryPerMatch | packages/tui/src/alt-screen-search.ts:120-146 | a match has one entry, its segments, exactly if it touches a span, and matches keep their order |
| SearchProofs.SearchAsksForMatches | packages/tui/src/alt-screen-search.ts:186-189 | a search answers with the matches of the normalised query in the corpus, and with nothing for a blank one |
| SearchIndex.BuildSearchCorpus | packages/tui/src/alt-screen-search.ts:34-106 | the loops with running length, column and pending separator build the specified corpus |
| SearchIndex.SegmentsOf | packages/tui/src/alt-screen-search.ts:126-142 | scanning from the span index with an early stop finds the segments of scanning all spans |
| SearchIndex.FindSearchCorpusMatches | packages/tui/src/alt-screen-search.ts:116-148 | the forward-moving span index gives every match the segments of the naive scan |
| SearchIndex.FindAltScreenSearchMatches | packages/tui/src/alt-screen-search.ts:186-189 | the uncached search is `Find` |
| SearchIndex.AltScreenSearchIndex.LinesChanged | packages/tui/src/alt-screen-search.ts:163-170 | the comparison loop reports exactly a difference to the cached lines |
| SearchIndex.AltScreenSearchIndex.Search | packages/tui/src/alt-screen-search.ts:156-184 | after any history the answer is the uncached one; it is unchanged exactly when lines and normalised query are, and is then the previous answer |
| JsonCheck.Check | packages/chord/src/json.ts:8-50 | accepts exactly the values whose unfolding fits under the depth bound and avoids the ancestors, and restores the ancestor set on every return |
| JsonCheck.IsJsonValue | packages/chord/src/json.ts:4-6 | accepts a value of any object graph if and only if it unfolds to a finite tree of depth at most 512 of locally valid nodes (section 3 of RFC 8259) |
| JsonCheck.JsonGrammar | packages/chord/src/json.ts:8-50 | the grammar level by level on values, elements and properties: finite atoms, arrays without holes, accessors, hidden elements or extra keys, plain objects without accessors, hidden properties or symbol keys, to depth 512 |
| JsonCheck.Deterministic | packages/chord/src/json.ts:8-50 | a value has at most one unfolding |
| JsonCheck.NotBelowItself | packages/chord/src/json.ts:15-16 | an unfolded node does not occur below itself, so the ancestor test rejects no finite tree |
| JsonCheck.CyclesRejected | packages/chord/src/json.ts:15-38 | a value from which a cycle can be reached is never accepted |
| JsonCheck.SharedMembersAccepted | packages/chord/src/json.ts:30-49 | two acceptable members of an array may share objects |

## Left out

- Runs in which a hook, a listener, `emit` or the stream function throws, and the closing events of `handleRunFailure` (packages/agent/src/agent.ts:532-548).
- AgentRuntime.Agent.ProcessEvents: the calls of the listeners and the exception outside an active run, which comes after the state was reduced, are not part of the contract.
- AgentRuntime.Agent.RunWithLifecycle: stated for runs that do not throw; the promise and the abort controller of the active run are not part of the state.
- ToolBatchProofs.ScheduleIndependence: whether a call sees an abort at each of its steps is fixed by its script, so it does not say what a schedule that moves the moment of an abort changes.
- Model and thinking-level changes, `transformContext`, `convertToLlm` and API keys: none of them changes the transcript the loop keeps.
- ProxyWire.MessageArrives: the timestamp, and the api, provider and model names, which the client sets itself, are not part of the message.
- Message text, timestamps, usage numbers, tool schemas and argument validation are opaque values or scripted answers.
- The `provider` closure of `createProvider` (packages/ai/src/models.ts), credential and auth resolution, and `raceWithAbortSignal`, which only decides when a caller stops waiting.
- The order of object keys that look like integers: headers are an ordered list, as they are for every other key.
- ProxyProofs.StreamProxy: the decoder's last flush holds at most replacement characters, so the chunking equation takes it to hold no newline; a status error before the body is a failed read.
- ProxyWire.PartialMessage.ProcessProxyEvent: content blocks are values in the message object, so that earlier events share their block object with later ones is not captured; nor is the message object shared between a pushed terminal event and the error path after it.
- LayoutRuntime.LayoutScroll: the settled scroll state is kept in the box; `LayoutProofs.Settle` says what the scroll view objects hold afterwards. A scroll view object placed twice in one tree is not captured.
- Layout.LayoutComponent: sizes and positions are integers; entries hidden for the viewport are dropped beforehand; the leaf's line offset and the choice of the primary scroll view are not part of the box.
- StackSizes.DistributeRound: weights are any real numbers and shares are exact quotients rounded down, where the program divides floating-point numbers; minimum and maximum sizes are natural numbers, as packages/tui/src/components/stack.ts:48-60 normalises them.
- Painting, scrollbars and terminal images in packages/tui/src/layout.ts.
- SearchIndex.AltScreenSearchIndex.Search: matches are values, so that callers share the cached match objects is not captured.
- Everything else of the repository: networking, files, processes, command lines, editors, key handling, generated catalogs, telemetry and evaluation. It would add platform code or easy members.
