/** The stateful agent: its queues, its event reducer, and the loop as it mutates them.

  Models `packages/agent/src/agent.ts` and the imperative body of `runLoop` in
  `packages/agent/src/agent-loop.ts`. */
module AgentRuntime {
  import opened Wrappers
  import opened Transcript
  import opened Events
  import opened ToolBatch
  import opened AgentLoop
  import opened LoopViews
  import opened LoopTrace
  import opened LoopQueues

  class PendingMessageQueue {
    var messages: seq<Message>
    var mode: QueueMode

    constructor (mode: QueueMode)
      ensures messages == [] && this.mode == mode
    {
      this.messages, this.mode := [], mode;
    }

    method Enqueue(message: Message)
      modifies this`messages
      ensures messages == old(messages) + [message]
    {
      messages := messages + [message];
    }

    method Peek() returns (selected: seq<Message>)
      ensures selected == Selected(messages, mode)
      ensures mode == All ==> selected == messages
      ensures mode == OneAtATime ==> selected == if messages == [] then [] else [messages[0]]
    {
      if mode == All {
        return messages;
      }
      selected := if messages == [] then [] else [messages[0]];
    }

    method Drain() returns (drained: seq<Message>)
      modifies this`messages
      ensures drained == Selected(old(messages), mode)
      ensures drained + messages == old(messages)
    {
      drained := Peek();
      messages := messages[|drained|..];
    }

    method Clear()
      modifies this`messages
      ensures messages == []
    {
      messages := [];
    }
  }

  /** What `continue()` does with an idle agent. */
  datatype Plan =
    | Reject(reason: string)
    | PromptWith(prompts: seq<Message>, skipFirstPoll: bool, steering: seq<Message>, followUp: seq<Message>)
    | Resume

  function PlanContinue(messages: seq<Message>, steering: seq<Message>, steeringMode: QueueMode,
                        followUp: seq<Message>, followUpMode: QueueMode): Plan
  {
    if forall i :: 0 <= i < |messages| ==> messages[i].IsSystem() then Reject("No messages to continue from")
    else if !messages[|messages| - 1].body.Assistant? then Resume
    else
      var steered := Selected(steering, steeringMode);
      var followed := Selected(followUp, followUpMode);
      if steered != [] then PromptWith(steered, true, steering[|steered|..], followUp)
      else if followed != [] then PromptWith(followed, false, steering, followUp[|followed|..])
      else Reject("Cannot continue from message role: assistant")
  }

  /** What `continue()` does, case by case: it needs something other than system messages; after anything
    but an assistant message it resumes; after one it sends steering first, then follow-ups, as much
    as the drain mode takes, skipping the first poll only for steering. */
  lemma PlanCases(messages: seq<Message>, steering: seq<Message>, steeringMode: QueueMode, followUp: seq<Message>, followUpMode: QueueMode)
    ensures var plan := PlanContinue(messages, steering, steeringMode, followUp, followUpMode);
            var talked := exists i :: 0 <= i < |messages| && !messages[i].IsSystem();
            && (!talked ==> plan.Reject?)
            && (talked && !messages[|messages| - 1].body.Assistant? ==> plan.Resume?)
            && (talked && messages[|messages| - 1].body.Assistant? && steering != [] ==>
                  && plan.PromptWith? && plan.skipFirstPoll && plan.prompts + plan.steering == steering && plan.followUp == followUp
                  && |plan.prompts| == if steeringMode == All then |steering| else 1)
            && (talked && messages[|messages| - 1].body.Assistant? && steering == [] && followUp != [] ==>
                  && plan.PromptWith? && !plan.skipFirstPoll && plan.prompts + plan.followUp == followUp && plan.steering == []
                  && |plan.prompts| == if followUpMode == All then |followUp| else 1)
            && (talked && messages[|messages| - 1].body.Assistant? && steering == [] && followUp == [] ==> plan.Reject?)
  {
  }

  /** Continuing drains one queue and nothing else: what it sends and what it leaves is what was
    queued, and in one-at-a-time mode the run starts with at most one steering message. */
  lemma ContinueConserves(messages: seq<Message>, steering: seq<Message>, followUp: seq<Message>,
                          steeringMode: QueueMode, followUpMode: QueueMode, origin: Origin)
    requires Labelled(steering, Steering) && Labelled(followUp, FollowUp) && (origin == Steering || origin == FollowUp)
    ensures var plan := PlanContinue(messages, steering, steeringMode, followUp, followUpMode);
            plan.PromptWith? ==>
              && From(plan.prompts, origin) + Taken(Arrivals(plan.steering, plan.followUp, steeringMode, followUpMode), origin)
                 == Taken(Arrivals(steering, followUp, steeringMode, followUpMode), origin)
              && Labelled(plan.steering, Steering) && Labelled(plan.followUp, FollowUp)
              && (steeringMode == OneAtATime ==> |From(plan.prompts, Steering)| + (if plan.skipFirstPoll then 0 else 1) <= 1)
  {
    hide From, Labelled, Selected;
    SelectedLedger(steering, steeringMode, Steering, origin);
    SelectedLedger(followUp, followUpMode, FollowUp, origin);
    SelectedLedger(followUp, followUpMode, FollowUp, Steering);
    SelectedOne(steering);
  }

  class Agent {
    var messages: seq<Message>
    var tools: seq<AgentTool>
    var streamingMessage: Option<Message>
    var pendingToolCalls: set<string>
    var errorMessage: Option<string>
    var isStreaming: bool
    var running: bool
    const steering: PendingMessageQueue
    const followUp: PendingMessageQueue
    ghost var origin: View             // the view at the start of the run
    ghost var trace: seq<Event>        // the events of the run so far

    ghost function Now(): View
      reads this
    {
      View(messages, streamingMessage, pendingToolCalls, errorMessage)
    }

    /** The state is the fold of the run's events. */
    ghost predicate Valid()
      reads this
    {
      steering != followUp && Now() == ReduceAll(origin, trace)
    }

    constructor (messages: seq<Message>, tools: seq<AgentTool>, steeringMode: QueueMode, followUpMode: QueueMode)
      ensures Valid() && fresh(steering) && fresh(followUp) && !running && !isStreaming
      ensures this.messages == messages && this.tools == tools && pendingToolCalls == {} && trace == []
      ensures steering.messages == [] && followUp.messages == []
    {
      this.messages, this.tools := messages, tools;
      streamingMessage, pendingToolCalls, errorMessage := None, {}, None;
      isStreaming, running := false, false;
      steering := new PendingMessageQueue(steeringMode);
      followUp := new PendingMessageQueue(followUpMode);
      origin, trace := View(messages, None, {}, None), [];
    }

    /** Reduces the state for one event. */
    method ProcessEvents(event: Event)
      requires Valid()
      modifies this`messages, this`streamingMessage, this`pendingToolCalls, this`errorMessage, this`trace
      ensures Valid() && trace == old(trace) + [event]
      ensures Now() == Reduce(old(Now()), event)
    {
      ghost var before := Now();
      match event {
        case MessageStart(message) => streamingMessage := Some(message);
        case MessageUpdate(message) => streamingMessage := Some(message);
        case MessageEnd(message) =>
          streamingMessage := None;
          messages := messages + [message];
        case ToolStart(id) => pendingToolCalls := pendingToolCalls + {id};
        case ToolEnd(id, _) => pendingToolCalls := pendingToolCalls - {id};
        case TurnEnd(message, _) =>
          if message.body.Assistant? && message.body.error.Some? && message.body.error.value != "" {
            errorMessage := message.body.error;
          }
        case AgentEnd(_) => streamingMessage := None;
        case _ =>
      }
      ReduceAppend(origin, trace, [event]);
      assert [event][1..] == [];
      assert ReduceAll(before, [event]) == Reduce(before, event);
      trace := trace + [event];
    }

    method EmitAll(events: seq<Event>)
      requires Valid()
      modifies this`messages, this`streamingMessage, this`pendingToolCalls, this`errorMessage, this`trace
      ensures Valid() && trace == old(trace) + events
    {
      for i := 0 to |events|
        invariant Valid() && trace == old(trace) + events[..i]
      {
        ProcessEvents(events[i]);
        assert events[..i + 1] == events[..i] + [events[i]];
      }
      assert events[..|events|] == events;
    }

    /** What users do while the loop waits: queue messages and choose drain modes. */
    method Arrive(arrived: Arrivals)
      requires steering != followUp
      modifies steering, followUp
      ensures steering.messages == old(steering.messages) + arrived.steering && steering.mode == arrived.steeringMode
      ensures followUp.messages == old(followUp.messages) + arrived.followUp && followUp.mode == arrived.followUpMode
    {
      steering.mode, followUp.mode := arrived.steeringMode, arrived.followUpMode;
      for i := 0 to |arrived.steering|
        invariant steering.messages == old(steering.messages) + arrived.steering[..i] && steering.mode == arrived.steeringMode
        invariant followUp.messages == old(followUp.messages) && followUp.mode == arrived.followUpMode
      {
        steering.Enqueue(arrived.steering[i]);
      }
      for i := 0 to |arrived.followUp|
        invariant steering.messages == old(steering.messages) + arrived.steering && steering.mode == arrived.steeringMode
        invariant followUp.messages == old(followUp.messages) + arrived.followUp[..i] && followUp.mode == arrived.followUpMode
      {
        followUp.Enqueue(arrived.followUp[i]);
      }
    }

    /** Adds declared messages to the context and to the new messages, with their events. */
    method InjectMessages(context: Context, produced: seq<Message>, pending: seq<Message>)
      returns (context': Context, produced': seq<Message>)
      requires Valid()
      modifies this`messages, this`streamingMessage, this`pendingToolCalls, this`errorMessage, this`trace
      ensures Valid()
      ensures var declared := DeclareChanges(context, pending);
              && context' == context.(messages := context.messages + declared)
              && produced' == produced + declared
              && trace == old(trace) + Announce(declared)
    {
      hide DeclareChanges;
      var declared := DeclareToolChanges(context, pending);
      context', produced' := context, produced;
      for i := 0 to |declared|
        invariant Valid()
        invariant context' == context.(messages := context.messages + declared[..i])
        invariant produced' == produced + declared[..i]
        invariant trace == old(trace) + Announce(declared[..i])
      {
        assert declared[..i + 1] == declared[..i] + [declared[i]];
        AnnounceAppend(declared[..i], declared[i]);
        ProcessEvents(MessageStart(declared[i]));
        ProcessEvents(MessageEnd(declared[i]));
        context' := context'.(messages := context'.messages + [declared[i]]);
        produced' := produced' + [declared[i]];
      }
      assert declared[..|declared|] == declared;
    }

    /** Streams one response into the context. */
    method StreamAssistantResponse(messages: seq<Message>, response: Response) returns (messages': seq<Message>)
      requires Valid()
      modifies this`messages, this`streamingMessage, this`pendingToolCalls, this`errorMessage, this`trace
      ensures Valid()
      ensures messages' == StreamMessages(messages, response.events, false, response.final.ToMessage())
      ensures trace == old(trace) + StreamEvents(response.events, false, response.final.ToMessage())
    {
      messages' := messages;
      var final := response.final.ToMessage();
      var addedPartial := false;
      var i := 0;
      while i < |response.events| && !response.events[i].Finished?
        invariant 0 <= i <= |response.events|
        invariant Valid()
        invariant addedPartial ==> messages' != []
        invariant StreamMessages(messages, response.events, false, final) == StreamMessages(messages', response.events[i..], addedPartial, final)
        invariant old(trace) + StreamEvents(response.events, false, final) == trace + StreamEvents(response.events[i..], addedPartial, final)
      {
        var event := response.events[i];
        assert response.events[i..][0] == event && response.events[i..][1..] == response.events[i + 1..];
        if event.Started? {
          messages' := messages' + [event.partial.ToMessage()];
          addedPartial := true;
          ProcessEvents(MessageStart(event.partial.ToMessage()));
        } else if addedPartial {
          messages' := messages'[|messages'| - 1 := event.partial.ToMessage()];
          ProcessEvents(MessageUpdate(event.partial.ToMessage()));
        }
        i := i + 1;
      }
      if addedPartial {
        messages' := messages'[|messages'| - 1 := final];
      } else {
        messages' := messages' + [final];
        ProcessEvents(MessageStart(final));
      }
      ProcessEvents(MessageEnd(final));
    }

    /** The queues and the emitted events are those of a loop state. */
    ghost predicate Matches(loop: Loop)
      reads this, steering, followUp
    {
      Valid() && steering.messages == loop.steering && followUp.messages == loop.followUp && trace == loop.events
    }

    /** The top of the inner loop: prepare the next turn, poll again, attach the notes. */
    method BeginTurn(context: Context, pending: seq<Message>, status: seq<Message>, started: bool, input: TurnInput, ghost loop: Loop)
      returns (context': Context, prepared: seq<Message>, pending': seq<Message>, status': seq<Message>)
      requires Matches(loop) && context == loop.context && pending == loop.pending && status == loop.notes && started == loop.started
      modifies this`messages, this`streamingMessage, this`pendingToolCalls, this`errorMessage, this`trace, steering, followUp
      ensures var begun := Begin(loop, input);
              && Matches(begun) && context' == begun.context && pending' == begun.pending && status' == begun.notes
              && prepared == PreparedMessages(loop, input)
    {
      context', prepared, pending', status' := context, [], pending, status;
      Arrive(input.before);
      if started {
        if input.update.context.Some? {
          context' := input.update.context.value;
        }
        prepared := input.update.messages;
        if |pending'| == 0 {
          pending' := steering.Drain();
        }
        if |status'| > 0 {
          pending' := pending' + status';
          status' := [];
        }
        ProcessEvents(TurnStart);
      }
    }

    /** After the response: run the tools and close the turn. */
    method CloseTurnWith(context: Context, produced: seq<Message>, input: TurnInput, ghost loop: Loop)
      returns (context': Context, produced': seq<Message>, hasMoreToolCalls: bool)
      requires Matches(loop) && context == loop.context && produced == loop.produced
      modifies this`messages, this`streamingMessage, this`pendingToolCalls, this`errorMessage, this`trace
      ensures var closed := CloseTurn(loop, input);
              && Matches(closed) && context' == closed.context && produced' == closed.produced && hasMoreToolCalls == closed.more
    {
      hide Execute, Terminates;
      var reply := input.response.final;
      var toolCalls := Calls(reply.blocks);
      var toolResults: seq<Message> := [];
      hasMoreToolCalls := false;
      ghost var batch := if toolCalls == [] then Batch([], []) else RunTools(loop, input);
      if |toolCalls| > 0 {
        var events, messages, terminate := ExecuteToolCalls(context.tools, toolCalls, reply.stop == Length, input.tools);
        EmitAll(events);
        toolResults := messages;
        hasMoreToolCalls := !terminate;
      }
      assert trace == loop.events + batch.events && toolResults == batch.Messages();
      context' := context.(messages := context.messages + toolResults);
      produced' := produced + toolResults;
      ProcessEvents(TurnEnd(reply.ToMessage(), toolResults));
    }

    /** From the top of the inner loop to the end of the streamed response. */
    method TakeResponse(context: Context, produced: seq<Message>, pending: seq<Message>, status: seq<Message>, started: bool,
                        answer: TurnInput, ghost loop: Loop)
      returns (context': Context, produced': seq<Message>, status': seq<Message>)
      requires Matches(loop) && context == loop.context && produced == loop.produced && pending == loop.pending
      requires status == loop.notes && started == loop.started
      modifies this`messages, this`streamingMessage, this`pendingToolCalls, this`errorMessage, this`trace, steering, followUp
      ensures var responded := Respond(Injected(loop, answer), answer);
              && Matches(responded) && context' == responded.context && produced' == responded.produced && status' == responded.notes
    {
      hide Begin, Inject, Respond, DeclareChanges, StreamEvents, StreamMessages, Announce, ReduceAll;
      var prepared, pending';
      context', prepared, pending', status' := BeginTurn(context, pending, status, started, answer, loop);
      BeginKeeps(loop, answer);
      ghost var begun := Begin(loop, answer);
      context', produced' := InjectMessages(context', produced, prepared + pending');
      InjectShape(begun, prepared);
      if answer.request.Some? {
        context' := answer.request.value;
      }
      var messages := StreamAssistantResponse(context'.messages, answer.response);
      context' := context'.(messages := messages);
      produced' := produced' + [answer.response.final.ToMessage()];
      RespondShape(Inject(begun, prepared), answer);
    }

    /** The polls after a turn that neither failed nor was ended. */
    method PollAfterTurn(status: seq<Message>, hasMoreToolCalls: bool, answer: TurnInput, ghost loop: Loop)
      returns (pending': seq<Message>, status': seq<Message>, explicitContinuation: bool)
      requires Matches(loop) && status == loop.notes && hasMoreToolCalls == loop.more
      modifies steering, followUp
      ensures var next := Enqueue(AfterTurn(loop, answer), answer.idle);
              && Matches(next) && pending' == next.pending && status' == next.notes && explicitContinuation == next.continuing
      ensures followUp.mode == answer.idle.followUpMode
    {
      hide ReduceAll;
      status' := status;
      explicitContinuation := answer.decision == Continue;
      Arrive(answer.after);
      pending' := steering.Drain();
      if |answer.notes| > 0 {
        status' := answer.notes;
      }
      if hasMoreToolCalls || |pending'| > 0 {
        explicitContinuation := false;
      }
      Arrive(answer.idle);
    }

    /** One iteration of the inner loop. */
    method TakeTurn(context: Context, produced: seq<Message>, pending: seq<Message>, status: seq<Message>, started: bool,
                    answer: TurnInput, ghost loop: Loop)
      returns (context': Context, produced': seq<Message>, pending': seq<Message>, status': seq<Message>,
               hasMoreToolCalls: bool, explicitContinuation: bool, exit: Option<Exit>)
      requires Matches(loop) && context == loop.context && produced == loop.produced && pending == loop.pending
      requires status == loop.notes && started == loop.started && loop.exit.None?
      modifies this`messages, this`streamingMessage, this`pendingToolCalls, this`errorMessage, this`trace, steering, followUp
      ensures exit.Some? ==>
                var after := Turn(loop, answer); Matches(after) && produced' == after.produced && exit == after.exit
      ensures exit.None? ==>
                var next := Scheduled(loop, answer);
                && Matches(next) && !answer.response.final.Failed() && answer.decision != End
                && context' == next.context && produced' == next.produced && pending' == next.pending && status' == next.notes
                && hasMoreToolCalls == next.more && explicitContinuation == next.continuing && next.started && next.exit.None?
                && followUp.mode == answer.idle.followUpMode
    {
      hide Begin, Injected, Respond, CloseTurn, ReduceAll, AfterTurn;
      context', produced', status' := TakeResponse(context, produced, pending, status, started, answer, loop);
      pending', hasMoreToolCalls, explicitContinuation := [], false, false;
      ghost var responded := Respond(Injected(loop, answer), answer);
      RespondedShape(loop, answer);
      if answer.response.final.stop == Error || answer.response.final.stop == Aborted {
        ProcessEvents(TurnEnd(answer.response.final.ToMessage(), []));
        ProcessEvents(AgentEnd(produced'));
        Arrive(answer.after);
        Arrive(answer.idle);
        exit := Some(Failure);
        return;
      }
      context', produced', hasMoreToolCalls := CloseTurnWith(context', produced', answer, responded);
      CloseTurnKeeps(responded, answer);
      AfterTurnKeeps(CloseTurn(responded, answer), answer);
      if answer.decision == End {
        ProcessEvents(AgentEnd(produced'));
        Arrive(answer.after);
        Arrive(answer.idle);
        exit := Some(Decided);
        return;
      }
      pending', status', explicitContinuation := PollAfterTurn(status', hasMoreToolCalls, answer, CloseTurn(responded, answer));
      exit := None;
    }

    /** The nested loops of a run. It returns when the run leaves, or without an exit where the next
      answer of the outside world is missing from the script. */
    method RunLoop(initialContext: Context, initialMessages: seq<Message>, skipFirstPoll: bool, script: seq<TurnInput>, ghost start: Loop)
      returns (newMessages: seq<Message>, exit: Option<Exit>, ghost end: Loop)
      requires Matches(start) && initialContext == start.context && initialMessages == start.produced
      requires start.pending == [] && start.notes == [] && start.more && !start.continuing && !start.started && start.exit.None?
      modifies this`messages, this`streamingMessage, this`pendingToolCalls, this`errorMessage, this`trace, steering, followUp
      ensures end == Run(FirstPoll(start, skipFirstPoll, old(steering.mode)), script)
      ensures Matches(end) && newMessages == end.produced && exit == end.exit
    {
      hide Turn, Scheduled, ReduceAll, Idling, FirstPoll, Selected;
      var context := initialContext;
      newMessages, exit := initialMessages, None;
      var started, explicitContinuation := false, false;
      var pendingMessages: seq<Message> := [];
      if !skipFirstPoll {
        pendingMessages := steering.Drain();
      }
      var pendingStatus: seq<Message> := [];
      ghost var first := FirstPoll(start, skipFirstPoll, old(steering.mode));
      FirstPollShape(start, skipFirstPoll, old(steering.mode));
      end := first;
      var i := 0;
      assert script[0..] == script;
      while true
        invariant 0 <= i <= |script|
        invariant Matches(end) && end.exit.None? && Run(first, script) == Run(end, script[i..])
        invariant context == end.context && newMessages == end.produced && pendingMessages == end.pending && pendingStatus == end.notes
        invariant started == end.started && end.more && explicitContinuation == end.continuing
        decreases |script| - i
      {
        var hasMoreToolCalls := true;
        ghost var before := i;
        ghost var latest: TurnInput :| true;
        while hasMoreToolCalls || |pendingMessages| > 0
          invariant before <= i <= |script| && (i == before ==> hasMoreToolCalls)
          invariant Matches(end) && end.exit.None?
          invariant context == end.context && newMessages == end.produced && pendingMessages == end.pending && pendingStatus == end.notes
          invariant started == end.started && hasMoreToolCalls == end.more && explicitContinuation == end.continuing
          invariant if hasMoreToolCalls || |pendingMessages| > 0 then Run(first, script) == Run(end, script[i..])
                    else Run(first, script) == Run(Idling(end, latest), script[i..]) && followUp.mode == latest.idle.followUpMode
          decreases |script| - i
        {
          if i == |script| {
            assert script[i..] == [];
            exit := None;
            return;
          }
          assert script[i..][0] == script[i] && script[i..][1..] == script[i + 1..];
          latest := script[i];
          TurnSchedules(end, latest);
          context, newMessages, pendingMessages, pendingStatus, hasMoreToolCalls, explicitContinuation, exit :=
            TakeTurn(context, newMessages, pendingMessages, pendingStatus, started, script[i], end);
          i := i + 1;
          if exit.Some? {
            end := Turn(end, latest);
            return;
          }
          started := true;
          end := Scheduled(end, latest);
        }

        var followUpMessages := followUp.Drain();
        IdlingShape(end, latest);
        end := Idling(end, latest);
        if |followUpMessages| > 0 {
          explicitContinuation := false;
          pendingMessages := followUpMessages;
          continue;
        }
        if explicitContinuation {
          explicitContinuation := false;
          continue;
        }
        break;
      }
      ProcessEvents(AgentEnd(newMessages));
      exit := Some(Natural);
    }

    method FinishRun()
      modifies this
      ensures !running && !isStreaming && streamingMessage == None && pendingToolCalls == {}
      ensures messages == old(messages) && tools == old(tools) && errorMessage == old(errorMessage)
      ensures Valid() <== steering != followUp
    {
      isStreaming, streamingMessage, pendingToolCalls, running := false, None, {}, false;
      origin, trace := Now(), [];
    }

    /** The events before the first turn. */
    method OpenTrace(initial: seq<Message>)
      requires Valid() && trace == []
      modifies this`messages, this`streamingMessage, this`pendingToolCalls, this`errorMessage, this`trace
      ensures Valid() && trace == [AgentStart, TurnStart] + Announce(initial)
    {
      hide Announce;
      ProcessEvents(AgentStart);
      ProcessEvents(TurnStart);
      EmitAll(Announce(initial));
    }

    /** Runs the loop from prompts, or from the transcript as it is when there are none. A run that
      waits for a missing answer stays active. */
    method RunWithLifecycle(prompts: Option<seq<Message>>, skipFirstPoll: bool, script: seq<TurnInput>)
      returns (newMessages: seq<Message>, exit: Option<Exit>, ghost end: Loop)
      requires Valid() && !running && pendingToolCalls == {}
      modifies this, steering, followUp
      ensures Valid() && running == exit.None? && pendingToolCalls == {} && tools == old(tools)
      ensures var context := Context(old(messages), tools);
              var arrived := Arrivals(old(steering.messages), old(followUp.messages), old(steering.mode), old(followUp.mode));
              end == Run(if prompts.Some? then StartPrompt(prompts.value, context, skipFirstPoll, arrived)
                         else FirstPoll(Open(context, [], arrived.steering, arrived.followUp), skipFirstPoll, arrived.steeringMode), script)
      ensures newMessages == end.produced && exit == end.exit
      ensures messages == old(messages) + newMessages
      ensures steering.messages == end.steering && followUp.messages == end.followUp
    {
      hide Run, ReduceAll, DeclareChanges, Announce;
      running, isStreaming, streamingMessage, errorMessage := true, true, None, None;
      origin, trace := Now(), [];
      ReduceNothing(origin);
      var context := Context(messages, tools);
      var initial: seq<Message> := [];
      if prompts.Some? {
        initial := DeclareToolChanges(context, prompts.value);
      }
      ghost var start := Open(context, initial, steering.messages, followUp.messages);
      OpenRebuilt(origin, context, initial, steering.messages, followUp.messages);
      OpenTrace(initial);
      newMessages, exit, end := RunLoop(context.(messages := context.messages + initial), initial, skipFirstPoll, script, start);
      FirstPollShape(start, skipFirstPoll, old(steering.mode));
      AgentRebuildsTranscript(origin, FirstPoll(start, skipFirstPoll, old(steering.mode)), script);
      if exit.Some? {
        FinishRun();
      }
    }

    /** Continues an idle agent; `None` as new messages means that the request was refused. */
    method ContinueRun(script: seq<TurnInput>) returns (newMessages: Option<seq<Message>>, ghost plan: Plan)
      requires Valid() && (running || pendingToolCalls == {})
      modifies this, steering, followUp
      ensures Valid() && tools == old(tools)
      ensures plan == if old(running) then Reject("Agent is already processing. Wait for completion before continuing.")
                      else PlanContinue(old(messages), old(steering.messages), old(steering.mode), old(followUp.messages), old(followUp.mode))
      ensures newMessages.None? <==> plan.Reject?
      ensures newMessages.None? ==> messages == old(messages) && steering.messages == old(steering.messages) && followUp.messages == old(followUp.messages)
      ensures newMessages.Some? ==> messages == old(messages) + newMessages.value
      ensures plan.PromptWith? ==>
                var arrived := Arrivals(plan.steering, plan.followUp, old(steering.mode), old(followUp.mode));
                newMessages.value == Run(StartPrompt(plan.prompts, Context(old(messages), tools), plan.skipFirstPoll, arrived), script).produced
      ensures plan.Resume? ==>
                var arrived := Arrivals(old(steering.messages), old(followUp.messages), old(steering.mode), old(followUp.mode));
                newMessages.value == Run(StartContinue(Context(old(messages), tools), arrived), script).produced
    {
      hide Run, StartPrompt, ReduceAll;
      newMessages := None;
      plan := if running then Reject("Agent is already processing. Wait for completion before continuing.")
              else PlanContinue(messages, steering.messages, steering.mode, followUp.messages, followUp.mode);
      if running || forall i :: 0 <= i < |messages| ==> messages[i].IsSystem() {
        return;
      }
      if messages[|messages| - 1].body.Assistant? {
        var queuedSteering := steering.Drain();
        if |queuedSteering| > 0 {
          var produced, _, _ := RunWithLifecycle(Some(queuedSteering), true, script);
          return Some(produced), plan;
        }
        var queuedFollowUps := followUp.Drain();
        if |queuedFollowUps| > 0 {
          var produced, _, _ := RunWithLifecycle(Some(queuedFollowUps), false, script);
          return Some(produced), plan;
        }
        return;
      }
      var produced, _, _ := RunWithLifecycle(None, false, script);
      return Some(produced), plan;
    }
  }

  /** The state of the inner loop after an iteration that did not return. */
  function Scheduled(loop: Loop, input: TurnInput): Loop {
    Enqueue(AfterTurn(CloseTurn(Respond(Injected(loop, input), input), input), input), input.idle)
  }

  lemma TurnSchedules(loop: Loop, input: TurnInput)
    ensures !input.response.final.Failed() && input.decision != End ==>
              var next := Scheduled(loop, input);
              Turn(loop, input) == if next.more || next.pending != [] then next else Idling(next, input)
  {
    hide Injected, Respond, CloseTurn, AfterTurn, Idling;
  }

  lemma ReduceNothing(view: View)
    ensures ReduceAll(view, []) == view
  {
  }

  lemma FirstPollShape(loop: Loop, skip: bool, mode: QueueMode)
    ensures var got := Selected(loop.steering, mode);
            var polled := FirstPoll(loop, skip, mode);
            polled == loop.(pending := if skip then loop.pending else got,
                            steering := if skip then loop.steering else loop.steering[|got|..], control := polled.control)
  {
  }

  lemma AfterTurnKeeps(loop: Loop, input: TurnInput)
    ensures var after := AfterTurn(loop, input);
            && after.context == loop.context && after.produced == loop.produced && after.more == loop.more
            && after.started == loop.started && after.exit == loop.exit
  {
  }

  lemma IdlingShape(loop: Loop, input: TurnInput)
    ensures var got := Selected(loop.followUp, input.idle.followUpMode);
            var after := Idling(loop, input);
            && after.followUp == loop.followUp[|got|..] && after.steering == loop.steering && after.context == loop.context
            && after.produced == loop.produced && after.notes == loop.notes && after.started == loop.started
            && (if got != [] || loop.continuing then
                  && after.exit == loop.exit && after.events == loop.events && after.more && !after.continuing
                  && after.pending == (if got != [] then got else loop.pending)
                else after.exit == Some(Natural) && after.events == loop.events + [AgentEnd(loop.produced)])
  {
  }

  lemma RespondedShape(loop: Loop, input: TurnInput)
    ensures var responded := Respond(Injected(loop, input), input);
            responded.pending == [] && responded.exit == loop.exit && responded.followUp == loop.followUp + input.before.followUp
  {
    hide DeclareChanges, StreamEvents, StreamMessages, Announce;
  }

  lemma InjectShape(loop: Loop, prepared: seq<Message>)
    ensures var declared := DeclareChanges(loop.context, prepared + loop.pending);
            Inject(loop, prepared) == loop.(context := loop.context.(messages := loop.context.messages + declared),
                                            produced := loop.produced + declared, events := loop.events + Announce(declared), pending := [])
  {
  }

  lemma RespondShape(loop: Loop, input: TurnInput)
    ensures var context := Replaced(loop.context, input.request);
            var final := input.response.final.ToMessage();
            Respond(loop, input) == loop.(context := context.(messages := StreamMessages(context.messages, input.response.events, false, final)),
                                          produced := loop.produced + [final],
                                          events := loop.events + StreamEvents(input.response.events, false, final),
                                          control := Respond(loop, input).control)
  {
  }
}
