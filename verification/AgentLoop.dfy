/** The agent loop as a step function over turns.

  Models `runAgentLoop`, `runAgentLoopContinue`, `runLoop` and `streamAssistantResponse` of
  `packages/agent/src/agent-loop.ts`. Everything the loop asks the outside world for during one
  turn is scripted in a `TurnInput`. A run over a finite script ends where the loop exits or where
  it waits for an answer that the script does not hold, so statements about all scripts are
  statements about every reachable turn boundary of every run, terminating or not. */
module AgentLoop {
  import opened Wrappers
  import opened Transcript
  import opened Events
  import opened ToolBatch

  // ----- queues -----

  datatype QueueMode = All | OneAtATime

  /** What a drain of a queue takes. */
  function Selected(queue: seq<Message>, mode: QueueMode): seq<Message> {
    if mode == All then queue else if queue == [] then [] else [queue[0]]
  }

  // ----- one streamed response -----

  datatype Reply = Reply(blocks: seq<Block>, stop: StopReason, error: Option<string>) {
    function ToMessage(): Message { Message(Model, Assistant(blocks, stop, error)) }
    predicate Failed() { stop == Error || stop == Aborted }
  }

  datatype StreamEvent = Started(partial: Reply) | Updated(partial: Reply) | Finished

  datatype Response = Response(events: seq<StreamEvent>, final: Reply)

  /** How often the stream starts a message before its first terminal event. */
  function Openings(events: seq<StreamEvent>): nat {
    if events == [] || events[0].Finished? then 0
    else (if events[0].Started? then 1 else 0) + Openings(events[1..])
  }

  /** What streaming emits; `added` says whether a partial message was already added. */
  function StreamEvents(events: seq<StreamEvent>, added: bool, final: Message): seq<Event>
    decreases events
  {
    if events == [] || events[0].Finished? then (if added then [] else [MessageStart(final)]) + [MessageEnd(final)]
    else if events[0].Started? then
      [MessageStart(events[0].partial.ToMessage())] + StreamEvents(events[1..], true, final)
    else (if added then [MessageUpdate(events[0].partial.ToMessage())] else []) + StreamEvents(events[1..], added, final)
  }

  /** What streaming does to the messages of the context. */
  function StreamMessages(messages: seq<Message>, events: seq<StreamEvent>, added: bool, final: Message): seq<Message>
    requires added ==> messages != []
    decreases events
  {
    if events == [] || events[0].Finished? then
      if added then messages[|messages| - 1 := final] else messages + [final]
    else if events[0].Started? then
      StreamMessages(messages + [events[0].partial.ToMessage()], events[1..], true, final)
    else if added then
      StreamMessages(messages[|messages| - 1 := events[0].partial.ToMessage()], events[1..], true, final)
    else StreamMessages(messages, events[1..], false, final)
  }

  function Calls(blocks: seq<Block>): seq<ToolCall> {
    if blocks == [] then [] else (if blocks[0].Call? then [blocks[0].call] else []) + Calls(blocks[1..])
  }

  // ----- the script of one turn -----

  /** Messages that users queue while a turn is under way, and the drain modes at that point. */
  datatype Arrivals = Arrivals(steering: seq<Message>, followUp: seq<Message>, steeringMode: QueueMode, followUpMode: QueueMode)

  datatype TurnUpdate = TurnUpdate(context: Option<Context>, messages: seq<Message>)

  datatype Decision = Undecided | Continue | End

  datatype TurnInput = TurnInput(
    before: Arrivals,              // queued before the turn starts
    update: TurnUpdate,            // prepareNextTurn
    request: Option<Context>,      // prepareRequest
    response: Response,            // the model
    tools: BatchScript,            // tools, their hooks and their schedule
    decision: Decision,            // finishTurn
    after: Arrivals,               // queued before the steering poll after the turn
    notes: seq<Message>,           // getContextStatusMessages
    idle: Arrivals)                // queued before the follow-up poll

  // ----- the state between turns -----

  datatype Exit = Failure | Decided | Natural

  /** What the loop asks for, in order. `emitted` and `delivered` are the numbers of events and of
    new messages at the time of a provider request. */
  datatype Control =
    | PolledSteering(got: seq<Message>)
    | PolledFollowUp(got: seq<Message>)
    | AskedPrepare
    | AskedRequest
    | Requested(context: Context, emitted: nat, delivered: nat)
    | AskedFinish(message: Message, results: seq<Message>)
    | AskedNotes(answer: seq<Message>)
    | Left(exit: Exit)

  datatype Loop = Loop(
    context: Context,
    produced: seq<Message>,           // newMessages
    pending: seq<Message>,         // pendingMessages
    notes: seq<Message>,           // pendingContextStatus
    more: bool,                    // hasMoreToolCalls
    continuing: bool,              // explicitContinuation
    started: bool,                 // lastCompletedTurn is set
    steering: seq<Message>,
    followUp: seq<Message>,
    events: seq<Event>,
    control: seq<Control>,
    exit: Option<Exit>)

  // ----- starting -----

  /** A run over `context` that opens with `messages` already declared. */
  function Open(context: Context, messages: seq<Message>, steering: seq<Message>, followUp: seq<Message>): Loop {
    Loop(context.(messages := context.messages + messages), messages, [], [], true, false, false, steering, followUp,
         [AgentStart, TurnStart] + Announce(messages), [], None)
  }

  function Poll(loop: Loop, mode: QueueMode): Loop {
    var got := Selected(loop.steering, mode);
    loop.(pending := got, steering := loop.steering[|got|..], control := loop.control + [PolledSteering(got)])
  }

  function FirstPoll(loop: Loop, skip: bool, mode: QueueMode): Loop {
    if skip then loop.(control := loop.control + [PolledSteering([])]) else Poll(loop, mode)
  }

  /** `runAgentLoop` up to its first turn; `skip` suppresses the first steering poll. */
  function StartPrompt(prompts: seq<Message>, context: Context, skip: bool, arrived: Arrivals): Loop {
    FirstPoll(Open(context, DeclareChanges(context, prompts), arrived.steering, arrived.followUp), skip, arrived.steeringMode)
  }

  /** `runAgentLoopContinue` up to its first turn. */
  function StartContinue(context: Context, arrived: Arrivals): Loop {
    FirstPoll(Open(context, [], arrived.steering, arrived.followUp), false, arrived.steeringMode)
  }

  // ----- one turn -----

  function Enqueue(loop: Loop, arrived: Arrivals): Loop {
    loop.(steering := loop.steering + arrived.steering, followUp := loop.followUp + arrived.followUp)
  }

  function Replaced(context: Context, replacement: Option<Context>): Context {
    if replacement.Some? then replacement.value else context
  }

  function Repolled(loop: Loop, mode: QueueMode): Loop {
    if loop.pending == [] then Poll(loop, mode) else loop
  }

  function Begin(loop: Loop, input: TurnInput): Loop {
    var queued := Enqueue(loop, input.before);
    if !queued.started then queued
    else
      var asked := queued.(context := Replaced(queued.context, input.update.context), control := queued.control + [AskedPrepare]);
      var polled := Repolled(asked, input.before.steeringMode);
      polled.(pending := polled.pending + polled.notes, notes := [], events := polled.events + [TurnStart])
  }

  function PreparedMessages(loop: Loop, input: TurnInput): seq<Message> {
    if loop.started then input.update.messages else []
  }

  function Inject(loop: Loop, prepared: seq<Message>): Loop {
    var messages := DeclareChanges(loop.context, prepared + loop.pending);
    loop.(context := loop.context.(messages := loop.context.messages + messages),
          produced := loop.produced + messages,
          events := loop.events + Announce(messages),
          pending := [])
  }

  function Respond(loop: Loop, input: TurnInput): Loop {
    var context := Replaced(loop.context, input.request);
    var final := input.response.final.ToMessage();
    loop.(context := context.(messages := StreamMessages(context.messages, input.response.events, false, final)),
          produced := loop.produced + [final],
          events := loop.events + StreamEvents(input.response.events, false, final),
          control := loop.control + [AskedRequest, Requested(context, |loop.events|, |loop.produced|)])
  }

  function RunTools(loop: Loop, input: TurnInput): Batch {
    var reply := input.response.final;
    Execute(loop.context.tools, Calls(reply.blocks), reply.stop == Length, input.tools)
  }

  /** Runs the tool calls and closes the turn. */
  function CloseTurn(loop: Loop, input: TurnInput): Loop {
    var reply := input.response.final;
    var calls := Calls(reply.blocks);
    var batch := if calls == [] then Batch([], []) else RunTools(loop, input);
    var results := batch.Messages();
    loop.(context := loop.context.(messages := loop.context.messages + results),
          produced := loop.produced + results,
          events := loop.events + batch.events + [TurnEnd(reply.ToMessage(), results)],
          control := loop.control + [AskedFinish(reply.ToMessage(), results)],
          more := calls != [] && !Terminates(reply.stop == Length, batch),
          started := true)
  }

  function Leave(loop: Loop, exit: Exit): Loop {
    loop.(events := loop.events + [AgentEnd(loop.produced)], control := loop.control + [Left(exit)], exit := Some(exit))
  }

  /** The polls after a turn that neither failed nor was ended. */
  function AfterTurn(loop: Loop, input: TurnInput): Loop {
    var polled := Poll(Enqueue(loop, input.after), input.after.steeringMode);
    polled.(notes := if input.notes != [] then input.notes else polled.notes,
            control := polled.control + [AskedNotes(input.notes)],
            continuing := input.decision == Continue && !(polled.more || polled.pending != []))
  }

  /** Follow-ups, the explicit continuation, or the end of the run. */
  function Idling(loop: Loop, input: TurnInput): Loop {
    var got := Selected(loop.followUp, input.idle.followUpMode);
    var polled := loop.(followUp := loop.followUp[|got|..], control := loop.control + [PolledFollowUp(got)]);
    if got != [] then polled.(continuing := false, pending := got, more := true)
    else if polled.continuing then polled.(continuing := false, more := true)
    else Leave(polled, Natural)
  }

  function Conclude(loop: Loop, input: TurnInput): Loop {
    if input.response.final.Failed() then
      var final := input.response.final.ToMessage();
      Leave(Enqueue(Enqueue(
        loop.(events := loop.events + [TurnEnd(final, [])], control := loop.control + [AskedFinish(final, [])], started := true),
        input.after), input.idle), Failure)
    else
      var closed := CloseTurn(loop, input);
      if input.decision == End then Leave(Enqueue(Enqueue(closed, input.after), input.idle), Decided)
      else
        var next := Enqueue(AfterTurn(closed, input), input.idle);
        if next.more || next.pending != [] then next else Idling(next, input)
  }

  function Injected(loop: Loop, input: TurnInput): Loop {
    Inject(Begin(loop, input), PreparedMessages(loop, input))
  }

  /** One iteration of the inner loop, up to the next one or the exit. */
  function Turn(loop: Loop, input: TurnInput): Loop {
    Conclude(Respond(Injected(loop, input), input), input)
  }

  function Run(loop: Loop, script: seq<TurnInput>): Loop
    decreases script
  {
    if script == [] || loop.exit.Some? then loop else Run(Turn(loop, script[0]), script[1..])
  }

  /** The part of a script that the run uses. */
  function Used(loop: Loop, script: seq<TurnInput>): seq<TurnInput>
    decreases script
  {
    if script == [] || loop.exit.Some? then [] else [script[0]] + Used(Turn(loop, script[0]), script[1..])
  }
}
