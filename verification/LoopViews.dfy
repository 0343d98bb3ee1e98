/** Whole-run theorems about transcripts and events: the three views of the transcript agree, the
  event trace follows its grammar, and no tool call is pending when a turn ends. */
module LoopViews {
  import opened Wrappers
  import opened Transcript
  import opened Events
  import opened ToolBatch
  import opened ToolBatchProofs
  import opened AgentLoop

  // ----- one streamed response -----

  lemma {:induction false} StreamLength(messages: seq<Message>, events: seq<StreamEvent>, added: bool, final: Message)
    requires added ==> messages != []
    ensures var opens := Openings(events);
            |StreamMessages(messages, events, added, final)| == |messages| + (if added || opens > 0 then opens else 1)
    decreases events
  {
    if events != [] && !events[0].Finished? {
      if events[0].Started? {
        StreamLength(messages + [events[0].partial.ToMessage()], events[1..], true, final);
      } else if added {
        StreamLength(messages[|messages| - 1 := events[0].partial.ToMessage()], events[1..], true, final);
      } else {
        StreamLength(messages, events[1..], false, final);
      }
    }
  }

  lemma {:induction false} StreamExact(messages: seq<Message>, events: seq<StreamEvent>, added: bool, final: Message)
    requires added ==> messages != []
    requires Openings(events) + (if added then 1 else 0) <= 1
    ensures StreamMessages(messages, events, added, final) ==
            (if added then messages[..|messages| - 1] else messages) + [final]
    decreases events
  {
    if events == [] || events[0].Finished? {
      if added {
        assert messages[|messages| - 1 := final] == messages[..|messages| - 1] + [final];
      }
    } else if events[0].Started? {
      var next := messages + [events[0].partial.ToMessage()];
      StreamExact(next, events[1..], true, final);
      assert next[..|next| - 1] == messages;
    } else if added {
      var next := messages[|messages| - 1 := events[0].partial.ToMessage()];
      StreamExact(next, events[1..], true, final);
      assert next[..|next| - 1] == messages[..|messages| - 1];
    } else {
      StreamExact(messages, events[1..], false, final);
    }
  }

  /** Only messages and tools, nothing that opens or closes a turn or the run. */
  ghost predicate Inner(events: seq<Event>) {
    forall i :: 0 <= i < |events| ==> !events[i].TurnEnd? && !events[i].TurnStart? && !events[i].AgentStart? && !events[i].AgentEnd?
  }

  lemma {:induction false} StreamEffect(view: View, events: seq<StreamEvent>, added: bool, final: Message)
    ensures var after := ReduceAll(view, StreamEvents(events, added, final));
            after.messages == view.messages + [final] && after.pendingCalls == view.pendingCalls && after.error == view.error
    ensures Parse(if added then InMessage else InTurn, StreamEvents(events, added, final)) ==
            if Openings(events) + (if added then 1 else 0) <= 1 then InTurn else Broken
    ensures Inner(StreamEvents(events, added, final))
    decreases events
  {
    var all := StreamEvents(events, added, final);
    if events == [] || events[0].Finished? {
      if added {
        assert all == [MessageEnd(final)];
        assert all[1..] == [];
      } else {
        assert [final][1..] == [];
        assert all == Announce([final]);
        AnnounceEffect(view, [final]);
      }
    } else {
      var rest := StreamEvents(events[1..], added || events[0].Started?, final);
      if all == rest {
        StreamEffect(view, events[1..], added, final);
      } else {
        assert all[1..] == rest;
        StreamEffect(Reduce(view, all[0]), events[1..], added || events[0].Started?, final);
        if events[0].Started? && added {
          BrokenStays(rest);
        }
      }
    }
  }

  // ----- tool batches are inner events -----

  lemma {:induction false} AnnounceInner(messages: seq<Message>)
    ensures Inner(Announce(messages))
  {
    if messages != [] {
      AnnounceInner(messages[1..]);
    }
  }

  lemma {:induction false} SequentialInner(tools: seq<AgentTool>, calls: seq<ToolCall>, scripts: seq<CallScript>)
    ensures Inner(Sequential(tools, calls, scripts).events)
    decreases calls
  {
    if calls != [] {
      SequentialInner(tools, calls[1..], Rest(scripts));
      AnnounceInner([ResultMessage(RunAlone(tools, calls[0], Head(scripts)).0)]);
    }
  }

  lemma {:induction false} FailAllInner(calls: seq<ToolCall>)
    ensures Inner(FailAll(calls).events)
  {
    if calls != [] {
      FailAllInner(calls[1..]);
      AnnounceInner([ResultMessage(Failed(calls[0], TRUNCATED))]);
    }
  }

  lemma ParallelInner(tools: seq<AgentTool>, calls: seq<ToolCall>, scripts: seq<CallScript>, schedule: seq<Action>)
    ensures Inner(Parallel(tools, calls, scripts, schedule).events)
  {
    var flight := Preflight(tools, calls, scripts);
    var all := schedule + Drain(|flight.entries|);
    PreflightTools(tools, calls, scripts);
    ActAllInFlight(View([], None, {}, None), flight.entries, Slots(flight.entries), all);
    AnnounceInner(Parallel(tools, calls, scripts, schedule).Messages());
    InnerAppend(flight.events, ActAll(flight.entries, Slots(flight.entries), all).events);
    InnerAppend(flight.events + ActAll(flight.entries, Slots(flight.entries), all).events,
                Announce(Parallel(tools, calls, scripts, schedule).Messages()));
  }

  lemma InnerAppend(left: seq<Event>, right: seq<Event>)
    requires Inner(left) && Inner(right)
    ensures Inner(left + right)
  {
  }

  lemma BatchInner(tools: seq<AgentTool>, calls: seq<ToolCall>, truncated: bool, script: BatchScript)
    ensures Inner(Execute(tools, calls, truncated, script).events)
  {
    if truncated {
      FailAllInner(calls);
    } else if script.sequential || HasSequentialTool(tools, calls) {
      SequentialInner(tools, calls, script.scripts);
    } else {
      ParallelInner(tools, calls, script.scripts, script.schedule);
    }
  }

  // ----- the agent's transcript -----

  /** No tool call is pending when a turn ends. */
  ghost predicate QuietTurnEnds(view: View, events: seq<Event>) {
    forall k :: 0 <= k < |events| && events[k].TurnEnd? ==> ReduceAll(view, events[..k]).pendingCalls == {}
  }

  lemma QuietInner(view: View, events: seq<Event>, inner: seq<Event>)
    requires QuietTurnEnds(view, events) && Inner(inner)
    ensures QuietTurnEnds(view, events + inner)
  {
    forall k | 0 <= k < |events + inner| && (events + inner)[k].TurnEnd?
      ensures ReduceAll(view, (events + inner)[..k]).pendingCalls == {}
    {
      assert (events + inner)[..k] == events[..k];
    }
  }

  lemma QuietOne(view: View, events: seq<Event>, event: Event)
    requires QuietTurnEnds(view, events)
    requires event.TurnEnd? ==> ReduceAll(view, events).pendingCalls == {}
    ensures QuietTurnEnds(view, events + [event])
  {
    forall k | 0 <= k < |events + [event]| && (events + [event])[k].TurnEnd?
      ensures ReduceAll(view, (events + [event])[..k]).pendingCalls == {}
    {
      if k == |events| {
        assert (events + [event])[..k] == events;
      } else {
        assert (events + [event])[..k] == events[..k];
      }
    }
  }

  /** Folding the events into the agent's view yields the old transcript followed by the new
    messages, and leaves no tool call pending. */
  ghost predicate Rebuilt(view: View, loop: Loop) {
    var now := ReduceAll(view, loop.events);
    && now.messages == view.messages + loop.produced
    && now.pendingCalls == {}
    && QuietTurnEnds(view, loop.events)
  }

  lemma RebuiltEvent(view: View, loop: Loop, event: Event, next: Loop)
    requires Rebuilt(view, loop)
    requires next.events == loop.events + [event] && next.produced == loop.produced
    requires !event.MessageEnd? && !event.ToolStart?
    ensures Rebuilt(view, next)
  {
    hide DeclareChanges, Execute, StreamEvents, StreamMessages, Announce;
    ReduceAppend(view, loop.events, [event]);
    assert [event][1..] == [];
    assert ReduceAll(ReduceAll(view, loop.events), [event]) == Reduce(ReduceAll(view, loop.events), event);
    QuietOne(view, loop.events, event);
  }

  lemma BeginRebuilt(view: View, loop: Loop, input: TurnInput)
    requires Rebuilt(view, loop)
    ensures Rebuilt(view, Begin(loop, input))
  {
    hide DeclareChanges, Execute, StreamEvents, StreamMessages, Announce;
    if loop.started {
      RebuiltEvent(view, loop, TurnStart, Begin(loop, input));
    }
  }

  lemma InjectRebuilt(view: View, loop: Loop, prepared: seq<Message>)
    requires Rebuilt(view, loop)
    ensures Rebuilt(view, Inject(loop, prepared))
  {
    hide DeclareChanges, Execute, StreamEvents, StreamMessages, Announce;
    var messages := DeclareChanges(loop.context, prepared + loop.pending);
    ReduceAppend(view, loop.events, Announce(messages));
    AnnounceEffect(ReduceAll(view, loop.events), messages);
    AnnounceInner(messages);
    QuietInner(view, loop.events, Announce(messages));
    assert (view.messages + loop.produced) + messages == view.messages + (loop.produced + messages);
  }

  lemma RespondRebuilt(view: View, loop: Loop, input: TurnInput)
    requires Rebuilt(view, loop)
    ensures Rebuilt(view, Respond(loop, input))
  {
    hide DeclareChanges, Execute, StreamEvents, StreamMessages, Announce;
    var final := input.response.final.ToMessage();
    var events := StreamEvents(input.response.events, false, final);
    ReduceAppend(view, loop.events, events);
    StreamEffect(ReduceAll(view, loop.events), input.response.events, false, final);
    QuietInner(view, loop.events, events);
    assert (view.messages + loop.produced) + [final] == view.messages + (loop.produced + [final]);
  }

  lemma CloseTurnRebuilt(view: View, loop: Loop, input: TurnInput)
    requires Rebuilt(view, loop)
    ensures Rebuilt(view, CloseTurn(loop, input))
  {
    hide DeclareChanges, Execute, StreamEvents, StreamMessages, Announce;
    var reply := input.response.final;
    var calls := Calls(reply.blocks);
    var batch := if calls == [] then Batch([], []) else RunTools(loop, input);
    var now := ReduceAll(view, loop.events);
    ReduceAppend(view, loop.events, batch.events);
    if calls == [] {
      assert now.messages + [] == now.messages;
    } else {
      BatchClean(now, loop.context.tools, calls, reply.stop == Length, input.tools);
      BatchInner(loop.context.tools, calls, reply.stop == Length, input.tools);
    }
    QuietInner(view, loop.events, batch.events);
    assert (view.messages + loop.produced) + batch.Messages() == view.messages + (loop.produced + batch.Messages());
    var ran := loop.(events := loop.events + batch.events, produced := loop.produced + batch.Messages());
    RebuiltEvent(view, ran, TurnEnd(reply.ToMessage(), batch.Messages()), CloseTurn(loop, input));
  }

  lemma CloseTurnKeeps(loop: Loop, input: TurnInput)
    ensures var closed := CloseTurn(loop, input);
            && closed.exit == loop.exit && closed.started && closed.pending == loop.pending && closed.notes == loop.notes
            && closed.steering == loop.steering && closed.followUp == loop.followUp
            && closed.context.tools == loop.context.tools
            && closed.control == loop.control + [AskedFinish(input.response.final.ToMessage(), closed.produced[|loop.produced|..])]
  {
    hide Execute, Terminates;
  }

  /** How a turn ends: what `Conclude` does after the tools ran. */
  lemma ConcludeShape(loop: Loop, input: TurnInput)
    requires loop.exit.None?
    ensures var after := Conclude(loop, input);
            var final := input.response.final.ToMessage();
            var closed := CloseTurn(loop, input);
            if input.response.final.Failed() then
              && after.context == loop.context && after.produced == loop.produced && after.exit.Some?
              && after.events == loop.events + [TurnEnd(final, [])] + [AgentEnd(loop.produced)]
            else
              && after.context == closed.context && after.produced == closed.produced && after.started
              && after.events == closed.events + if after.exit.Some? then [AgentEnd(closed.produced)] else []
  {
    hide CloseTurn;
    CloseTurnKeeps(loop, input);
  }

  lemma ConcludeRebuilt(view: View, loop: Loop, input: TurnInput)
    requires Rebuilt(view, loop) && loop.exit.None?
    ensures Rebuilt(view, Conclude(loop, input))
  {
    hide Conclude, CloseTurn;
    var after := Conclude(loop, input);
    ConcludeShape(loop, input);
    if input.response.final.Failed() {
      var final := input.response.final.ToMessage();
      var ended := loop.(events := loop.events + [TurnEnd(final, [])]);
      RebuiltEvent(view, loop, TurnEnd(final, []), ended);
      RebuiltEvent(view, ended, AgentEnd(loop.produced), after);
    } else {
      CloseTurnRebuilt(view, loop, input);
      if after.exit.Some? {
        RebuiltEvent(view, CloseTurn(loop, input), AgentEnd(CloseTurn(loop, input).produced), after);
      } else {
        assert after.events == CloseTurn(loop, input).events;
      }
    }
  }

  lemma TurnRebuilt(view: View, loop: Loop, input: TurnInput)
    requires Rebuilt(view, loop) && loop.exit.None?
    ensures Rebuilt(view, Turn(loop, input))
  {
    hide DeclareChanges, Execute, StreamEvents, StreamMessages, Announce;
    BeginRebuilt(view, loop, input);
    InjectRebuilt(view, Begin(loop, input), PreparedMessages(loop, input));
    RespondRebuilt(view, Injected(loop, input), input);
    ConcludeRebuilt(view, Respond(Injected(loop, input), input), input);
  }

  lemma OpenRebuilt(view: View, context: Context, messages: seq<Message>, steering: seq<Message>, followUp: seq<Message>)
    requires view.pendingCalls == {}
    ensures Rebuilt(view, Open(context, messages, steering, followUp))
  {
    var opening := [AgentStart, TurnStart];
    assert opening[1..] == [TurnStart] && opening[1..][1..] == [];
    assert ReduceAll(view, opening) == ReduceAll(view, opening[1..]) == view;
    ReduceAppend(view, opening, Announce(messages));
    AnnounceEffect(view, messages);
    AnnounceInner(messages);
    QuietInner(view, opening, Announce(messages));
  }

  /** In every run, for every stream, hook, queue and tool behaviour: the transcript that the agent
    rebuilds from events is its old transcript followed by the loop's new messages, and its set of
    pending tool calls is empty at every turn_end and at every turn boundary. */
  lemma {:induction false} AgentRebuildsTranscript(view: View, loop: Loop, script: seq<TurnInput>)
    requires Rebuilt(view, loop)
    ensures Rebuilt(view, Run(loop, script))
    decreases script
  {
    hide DeclareChanges, Execute, StreamEvents, StreamMessages, Announce;
    if script != [] && loop.exit.None? {
      TurnRebuilt(view, loop, script[0]);
      AgentRebuildsTranscript(view, Turn(loop, script[0]), script[1..]);
    }
  }

  lemma StartRebuilt(view: View, prompts: seq<Message>, context: Context, skip: bool, arrived: Arrivals)
    requires view.pendingCalls == {}
    ensures Rebuilt(view, StartPrompt(prompts, context, skip, arrived))
    ensures Rebuilt(view, StartContinue(context, arrived))
  {
    OpenRebuilt(view, context, DeclareChanges(context, prompts), arrived.steering, arrived.followUp);
    OpenRebuilt(view, context, [], arrived.steering, arrived.followUp);
  }
}
