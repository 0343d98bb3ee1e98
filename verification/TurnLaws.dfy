/** What a turn does, stated on what it was given and what it leaves: the messages it injects, the
  request it makes, the stream it shows, the calls it answers and the questions it asks. */
module TurnLaws {
  import opened Wrappers
  import opened Transcript
  import opened Events
  import opened ToolBatch
  import opened ToolBatchProofs
  import opened ToolOutcomes
  import opened AgentLoop
  import opened LoopViews
  import opened LoopTrace

  // ----- the calls of a message -----

  lemma {:induction false} CallsAppend(left: seq<Block>, right: seq<Block>)
    ensures Calls(left + right) == Calls(left) + Calls(right)
  {
    if left == [] {
      assert left + right == right;
    } else {
      assert (left + right)[0] == left[0] && (left + right)[1..] == left[1..] + right;
      CallsAppend(left[1..], right);
    }
  }

  lemma CallsOne(block: Block)
    ensures Calls([block]) == if block.Call? then [block.call] else []
  {
    assert [block][1..] == [];
  }

  /** The calls of a message are its call blocks, each as often as it occurs. */
  lemma {:induction false} CallsAreCallBlocks(blocks: seq<Block>, call: ToolCall)
    ensures call in Calls(blocks) <==> Call(call) in blocks
    ensures multiset(Calls(blocks))[call] == multiset(blocks)[Call(call)]
  {
    if blocks != [] {
      CallsAreCallBlocks(blocks[1..], call);
      CallsOne(blocks[0]);
      assert blocks == [blocks[0]] + blocks[1..];
      CallsAppend([blocks[0]], blocks[1..]);
      assert multiset(blocks) == multiset([blocks[0]]) + multiset(blocks[1..]);
      assert multiset(Calls(blocks)) == multiset(Calls([blocks[0]])) + multiset(Calls(blocks[1..]));
    }
  }

  // ----- what a stream shows -----

  function UpdatesFrom(partials: seq<Reply>): seq<StreamEvent> {
    seq(|partials|, i requires 0 <= i < |partials| => Updated(partials[i]))
  }

  function ShownUpdates(partials: seq<Reply>): seq<Event> {
    seq(|partials|, i requires 0 <= i < |partials| => MessageUpdate(partials[i].ToMessage()))
  }

  lemma {:induction false} StreamUpdates(partials: seq<Reply>, rest: seq<StreamEvent>, added: bool, final: Message)
    ensures StreamEvents(UpdatesFrom(partials) + rest, added, final)
         == (if added then ShownUpdates(partials) else []) + StreamEvents(rest, added, final)
    decreases partials
  {
    hide Reply.ToMessage, StreamEvents;
    var events := UpdatesFrom(partials) + rest;
    if partials == [] {
      assert events == rest;
      assert (if added then ShownUpdates(partials) else []) == [];
    } else {
      assert events[0] == Updated(partials[0]) && events[1..] == UpdatesFrom(partials[1..]) + rest;
      StreamUpdates(partials[1..], rest, added, final);
      StreamOne(events, added, final);
      if added {
        var first, more := [MessageUpdate(partials[0].ToMessage())], ShownUpdates(partials[1..]);
        assert ShownUpdates(partials) == first + more;
        Associate(first, more, StreamEvents(rest, added, final));
      }
    }
  }

  lemma Associate(one: seq<Event>, two: seq<Event>, three: seq<Event>)
    ensures one + two + three == one + (two + three)
  {
  }

  lemma StreamOne(events: seq<StreamEvent>, added: bool, final: Message)
    requires events != [] && events[0].Updated?
    ensures StreamEvents(events, added, final)
         == if added then [MessageUpdate(events[0].partial.ToMessage())] + StreamEvents(events[1..], added, final)
            else StreamEvents(events[1..], added, final)
  {
    hide Reply.ToMessage;
  }

  /** A stream shows its first partial as the start, every update after that, and the final message as
    the end; what comes before the start or after the end of the stream is not shown. */
  lemma StreamShows(early: seq<Reply>, opening: Reply, partials: seq<Reply>, rest: seq<StreamEvent>, final: Message)
    requires rest == [] || rest[0].Finished?
    ensures StreamEvents(UpdatesFrom(early) + ([Started(opening)] + (UpdatesFrom(partials) + rest)), false, final)
         == [MessageStart(opening.ToMessage())] + ShownUpdates(partials) + [MessageEnd(final)]
    ensures StreamEvents(UpdatesFrom(early) + rest, false, final) == [MessageStart(final), MessageEnd(final)]
  {
    var tail := UpdatesFrom(partials) + rest;
    var shown := [Started(opening)] + tail;
    StreamUpdates(early, shown, false, final);
    StreamUpdates(early, rest, false, final);
    assert shown[0] == Started(opening) && shown[1..] == tail;
    StreamUpdates(partials, rest, true, final);
    assert StreamEvents(rest, true, final) == [MessageEnd(final)];
    assert [] + [MessageEnd(final)] == [MessageEnd(final)];
  }

  // ----- what a turn injects and requests -----

  /** The context that a turn works on. */
  function GivenContext(loop: Loop, input: TurnInput): Context {
    if loop.started && input.update.context.Some? then input.update.context.value else loop.context
  }

  /** Everything that waits for the turn: prepared messages, steering drained before or just now, notes. */
  function Waiting(loop: Loop, input: TurnInput): seq<Message> {
    if !loop.started then loop.pending
    else
      var queue := loop.steering + input.before.steering;
      var steering := if loop.pending != [] then loop.pending
                      else if input.before.steeringMode == All then queue
                      else if queue == [] then [] else [queue[0]];
      input.update.messages + steering + loop.notes
  }

  /** A turn injects everything that waits for it, with the tool changes declared, into the context it
    was given, announces it, and requests with that context or with the one `prepareRequest` gave. */
  lemma TurnOpens(loop: Loop, input: TurnInput)
    ensures var given := GivenContext(loop, input);
            var injected := DeclareChanges(given, Waiting(loop, input));
            && Injected(loop, input).produced == loop.produced + injected
            && Injected(loop, input).context == given.(messages := given.messages + injected)
            && Injected(loop, input).events == loop.events + (if loop.started then [TurnStart] else []) + Announce(injected)
            && RequestOf(loop, input).context ==
               if input.request.Some? then input.request.value else given.(messages := given.messages + injected)
  {
    hide DeclareChanges, Announce;
    var begun := Begin(loop, input);
    assert PreparedMessages(loop, input) + begun.pending == Waiting(loop, input);
    assert begun.events == loop.events + if loop.started then [TurnStart] else [];
  }

  // ----- what a turn answers -----

  /** A tool-result message that reports what a call yielded. */
  ghost predicate AnswersCall(tools: seq<AgentTool>, call: ToolCall, script: CallScript, truncated: bool, message: Message) {
    exists result: Finalized ::
      && (if truncated then result.call == call && result.isError else Yields(tools, call, script, false, result))
      && message.body == ToolResult(call.id, call.name,
           if result.output.content.Some? then result.output.content.value else "", result.isError)
  }

  ghost predicate NoAbort(scripts: seq<CallScript>, count: nat) {
    forall i :: 0 <= i < count ==> !ScriptOf(scripts, i).abortedAfter && !ScriptOf(scripts, i).abortedAtStart
  }

  lemma BatchAnswersAll(tools: seq<AgentTool>, calls: seq<ToolCall>, truncated: bool, script: BatchScript)
    requires NoAbort(script.scripts, |calls|)
    ensures var messages := Execute(tools, calls, truncated, script).Messages();
            && |messages| == |calls|
            && forall i :: 0 <= i < |calls| ==> AnswersCall(tools, calls[i], ScriptOf(script.scripts, i), truncated, messages[i])
  {
    hide Sequential, Parallel, FailAll, Yields, ResultMessages;
    var batch := Execute(tools, calls, truncated, script);
    FailAllAnswersAll(calls);
    SequentialYields(tools, calls, script.scripts);
    ParallelYields(tools, calls, script.scripts, script.schedule);
    assert |batch.finals| == |calls|;
    if calls == [] { NoMessages(batch); } else { MessagesSay(batch, 0); }
    forall i | 0 <= i < |calls|
      ensures |batch.Messages()| == |calls| && AnswersCall(tools, calls[i], ScriptOf(script.scripts, i), truncated, batch.Messages()[i])
    {
      MessagesSay(batch, i);
      if truncated {
        assert CallsOf(batch.finals)[i] == batch.finals[i].call;
      } else {
        YieldsEither(tools, calls[i], ScriptOf(script.scripts, i), batch.finals[i]);
      }
      YieldsCall(tools, calls[i], ScriptOf(script.scripts, i), batch.finals[i]);
    }
  }

  lemma NoMessages(batch: Batch)
    requires batch.finals == []
    ensures batch.Messages() == []
  {
  }

  lemma YieldsCall(tools: seq<AgentTool>, call: ToolCall, script: CallScript, result: Finalized)
    ensures Yields(tools, call, script, false, result) ==> result.call == call
  {
  }

  lemma YieldsEither(tools: seq<AgentTool>, call: ToolCall, script: CallScript, result: Finalized)
    requires !script.abortedAtStart
    ensures Yields(tools, call, script, true, result) <==> Yields(tools, call, script, false, result)
  {
  }

  /** Every call of a reply is answered, once each and in order: in the new messages, in the context and in
    the turn_end event, by what its tool and hooks gave it. */
  lemma TurnAnswersCalls(loop: Loop, input: TurnInput)
    requires loop.exit.None? && !input.response.final.Failed()
    requires NoAbort(input.tools.scripts, |Calls(input.response.final.blocks)|)
    ensures var reply := input.response.final;
            var calls := Calls(reply.blocks);
            var tools := RequestOf(loop, input).context.tools;
            var after := Turn(loop, input);
            && |after.produced| > |calls| && |after.context.messages| >= |calls|
            && var results := after.produced[|after.produced| - |calls|..];
            && after.produced[|after.produced| - |calls| - 1] == reply.ToMessage()
            && after.context.messages[|after.context.messages| - |calls|..] == results
            && TurnEnd(reply.ToMessage(), results) in after.events
            && forall i :: 0 <= i < |calls| ==>
                 AnswersCall(tools, calls[i], ScriptOf(input.tools.scripts, i), reply.stop == Length, results[i])
  {
    hide Execute, StreamEvents, StreamMessages, Begin, Inject, Conclude, AnswersCall, Terminates, Calls, NoAbort;
    var reply := input.response.final;
    var calls := Calls(reply.blocks);
    var responded := Respond(Injected(loop, input), input);
    var batch := if calls == [] then Batch([], []) else RunTools(responded, input);
    var results := batch.Messages();
    var tools := RequestOf(loop, input).context.tools;
    BatchAnswersAll(tools, calls, reply.stop == Length, input.tools);
    if calls == [] { NoMessages(batch); }
    StillRunning(loop, input);
    ConcludeShape(responded, input);
    ClosedBy(responded, input, results);
    var after := Turn(loop, input);
    assert after.produced == responded.produced + results;
    assert after.produced[|after.produced| - |calls|..] == results;
    assert after.context.messages[|after.context.messages| - |calls|..] == results;
  }

  lemma StillRunning(loop: Loop, input: TurnInput)
    ensures Respond(Injected(loop, input), input).exit == loop.exit
  {
    hide StreamEvents, StreamMessages, DeclareChanges;
  }

  lemma ClosedBy(loop: Loop, input: TurnInput, results: seq<Message>)
    requires var calls := Calls(input.response.final.blocks);
             results == (if calls == [] then Batch([], []) else RunTools(loop, input)).Messages()
    ensures var closed := CloseTurn(loop, input);
            && closed.produced == loop.produced + results
            && closed.context == loop.context.(messages := loop.context.messages + results)
            && TurnEnd(input.response.final.ToMessage(), results) in closed.events
  {
    hide RunTools, Terminates;
    var closed := CloseTurn(loop, input);
    assert closed.events[|closed.events| - 1] == TurnEnd(input.response.final.ToMessage(), results);
  }

  /** With at most one start, the context after a turn is that of its request, the reply and the results. */
  lemma TurnContextExact(loop: Loop, input: TurnInput)
    requires loop.exit.None? && Openings(input.response.events) <= 1
    ensures var request := RequestOf(loop, input);
            var after := Turn(loop, input);
            && after.context.tools == request.context.tools
            && request.delivered <= |after.produced|
            && after.context.messages == request.context.messages + after.produced[request.delivered..]
            && after.produced[request.delivered..] != [] && after.produced[request.delivered] == input.response.final.ToMessage()
            && (input.response.final.Failed() ==> |after.produced| == request.delivered + 1)
  {
    hide Execute, StreamEvents, StreamMessages, Begin, Inject, Conclude, Terminates;
    var injected := Injected(loop, input);
    var responded := Respond(injected, input);
    var final := input.response.final.ToMessage();
    StillRunning(loop, input);
    StreamExact(RequestOf(loop, input).context.messages, input.response.events, false, final);
    ConcludeShape(responded, input);
    var calls := Calls(input.response.final.blocks);
    var results := (if calls == [] then Batch([], []) else RunTools(responded, input)).Messages();
    ClosedBy(responded, input, results);
    var after := Turn(loop, input);
    var added := if input.response.final.Failed() then [] else results;
    Extended(injected.produced, final, added);
    Extended(RequestOf(loop, input).context.messages, final, added);
    assert after.produced == injected.produced + [final] + added;
  }

  lemma Extended(before: seq<Message>, one: Message, more: seq<Message>)
    ensures var all := before + [one] + more;
            all == before + ([one] + more) && all[|before|..] == [one] + more && (more == [] ==> all == before + [one])
  {
  }

  // ----- what a turn asks, in order -----

  function Drained(queue: seq<Message>, mode: QueueMode): seq<Message> {
    if mode == All || queue == [] then queue else [queue[0]]
  }

  /** The questions before the request. */
  function OpeningQuestions(loop: Loop, input: TurnInput): seq<Control> {
    if !loop.started then []
    else if loop.pending != [] then [AskedPrepare]
    else [AskedPrepare, PolledSteering(Drained(loop.steering + input.before.steering, input.before.steeringMode))]
  }

  /** The questions after the turn: none after a failure or a decision to end; otherwise steering and
    notes, and follow-ups only when nothing else goes on. */
  ghost predicate ClosingQuestions(input: TurnInput, asked: seq<Control>, exit: Option<Exit>) {
    if input.response.final.Failed() then asked == [Left(Failure)] && exit == Some(Failure)
    else if input.decision == End then asked == [Left(Decided)] && exit == Some(Decided)
    else
      && |asked| >= 2 && asked[0].PolledSteering? && asked[1] == AskedNotes(input.notes)
      && (asked[0].got != [] ==> |asked| == 2)
      && (|asked| > 2 ==> asked[2].PolledFollowUp?)
      && (|asked| > 2 && (asked[2].got != [] || input.decision == Continue) ==> |asked| == 3)
      && (|asked| > 2 && asked[2].got == [] && input.decision != Continue ==> asked[2..] == [asked[2], Left(Natural)])
      && (exit.Some? <==> |asked| == 4) && (exit.Some? ==> exit == Some(Natural))
  }

  /** A turn asks for preparation and steering, for the request, for the decision, and then as the outcome
    demands, in this order. */
  lemma TurnAsksInOrder(loop: Loop, input: TurnInput)
    requires loop.exit.None?
    ensures var after := Turn(loop, input);
            var opening := loop.control + OpeningQuestions(loop, input) + [AskedRequest, RequestOf(loop, input)];
            && opening <= after.control
            && |after.control| > |opening|
            && after.control[|opening|].AskedFinish? && after.control[|opening|].message == input.response.final.ToMessage()
            && ClosingQuestions(input, after.control[|opening| + 1..], after.exit)
  {
    hide Execute, StreamEvents, StreamMessages, DeclareChanges, Announce, Terminates, ClosingQuestions;
    var begun := Begin(loop, input);
    var injected := Injected(loop, input);
    var responded := Respond(injected, input);
    var after := Turn(loop, input);
    var opening := loop.control + OpeningQuestions(loop, input) + [AskedRequest, RequestOf(loop, input)];
    assert begun.control == loop.control + OpeningQuestions(loop, input);
    assert injected.control == begun.control && injected.exit.None?;
    assert responded.control == opening;
    ConcludeAsks(responded, input);
  }

  lemma AfterTurnAsks(loop: Loop, input: TurnInput)
    ensures var after := AfterTurn(loop, input);
            && after.control == loop.control + [PolledSteering(after.pending), AskedNotes(input.notes)]
            && after.exit == loop.exit
            && after.continuing == (input.decision == Continue && !after.more && after.pending == [])
  {
  }

  lemma IdlingAsks(loop: Loop, input: TurnInput)
    requires loop.exit.None?
    ensures var after := Idling(loop, input);
            var got := Selected(loop.followUp, input.idle.followUpMode);
            && (after.exit.None? <==> got != [] || loop.continuing)
            && (after.exit.None? ==> after.control == loop.control + [PolledFollowUp(got)])
            && (after.exit.Some? ==> after.exit == Some(Natural) && after.control == loop.control + [PolledFollowUp(got), Left(Natural)])
  {
  }

  lemma Dropped(before: seq<Control>, one: Control, after: seq<Control>)
    ensures var all := before + [one] + after;
            before <= all && |all| > |before| && all[|before|] == one && all[|before| + 1..] == after
  {
  }

  lemma ScheduleAsks(loop: Loop, input: TurnInput)
    requires loop.exit.None? && !input.response.final.Failed() && input.decision != End
    ensures var next := Enqueue(AfterTurn(loop, input), input.idle);
            var after := if next.more || next.pending != [] then next else Idling(next, input);
            loop.control <= after.control && ClosingQuestions(input, after.control[|loop.control|..], after.exit)
  {
    hide AfterTurn, Idling, Selected;
    AfterTurnAsks(loop, input);
    var next := Enqueue(AfterTurn(loop, input), input.idle);
    var asked := [PolledSteering(next.pending), AskedNotes(input.notes)];
    if next.more || next.pending != [] {
      assert next.control[|loop.control|..] == asked;
    } else {
      IdlingAsks(next, input);
      var after := Idling(next, input);
      var got := Selected(next.followUp, input.idle.followUpMode);
      if after.exit.None? {
        assert after.control[|loop.control|..] == asked + [PolledFollowUp(got)];
      } else {
        assert after.control[|loop.control|..] == asked + [PolledFollowUp(got), Left(Natural)];
      }
    }
  }

  lemma ConcludeAsks(loop: Loop, input: TurnInput)
    requires loop.exit.None?
    ensures var after := Conclude(loop, input);
            && loop.control <= after.control && |after.control| > |loop.control|
            && after.control[|loop.control|].AskedFinish? && after.control[|loop.control|].message == input.response.final.ToMessage()
            && ClosingQuestions(input, after.control[|loop.control| + 1..], after.exit)
  {
    hide CloseTurn, AfterTurn, Idling;
    var after := Conclude(loop, input);
    CloseTurnKeeps(loop, input);
    var closed := CloseTurn(loop, input);
    if input.response.final.Failed() {
      Dropped(loop.control, AskedFinish(input.response.final.ToMessage(), []), [Left(Failure)]);
    } else if input.decision == End {
      assert closed.control == loop.control + [closed.control[|loop.control|]];
      Dropped(loop.control, closed.control[|loop.control|], [Left(Decided)]);
    } else {
      ScheduleAsks(closed, input);
      assert |closed.control| == |loop.control| + 1;
    }
  }
}
