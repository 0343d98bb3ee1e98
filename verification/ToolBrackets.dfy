/** Every tool update and every end lies within its own call, under every interleaving and for all
  call ids, also when calls share one. */
module ToolBrackets {
  import opened Wrappers
  import opened Transcript
  import opened Events
  import opened ToolBatch
  import opened ToolBatchProofs
  import opened AgentLoop
  import opened LoopViews

  ghost predicate MessageEvents(events: seq<Event>) {
    forall i :: 0 <= i < |events| ==> events[i].MessageStart? || events[i].MessageUpdate? || events[i].MessageEnd?
  }

  /** The events of messages touch no call. */
  lemma {:induction false} NoToolEvents(open: multiset<string>, events: seq<Event>)
    requires MessageEvents(events)
    ensures Bracketed(open, events) && OpenAfterAll(open, events) == open
    decreases events
  {
    if events != [] { NoToolEvents(open, events[1..]); }
  }

  lemma {:induction false} AnnounceBracketed(open: multiset<string>, messages: seq<Message>)
    ensures Bracketed(open, Announce(messages)) && OpenAfterAll(open, Announce(messages)) == open
  {
    AnnounceNoTools(messages);
    NoToolEvents(open, Announce(messages));
  }

  lemma {:induction false} AnnounceNoTools(messages: seq<Message>)
    ensures MessageEvents(Announce(messages))
  {
    if messages != [] { AnnounceNoTools(messages[1..]); }
  }

  // ----- one call after the other -----

  lemma {:induction false} UpdatesBracketed(open: multiset<string>, call: ToolCall, partials: seq<string>)
    requires call.id in open
    ensures Bracketed(open, Updates(call, partials)) && OpenAfterAll(open, Updates(call, partials)) == open
    decreases partials
  {
    if partials != [] {
      assert Updates(call, partials)[1..] == Updates(call, partials[1..]);
      UpdatesBracketed(open, call, partials[1..]);
    }
  }

  lemma SingleEvent(open: multiset<string>, event: Event)
    ensures OpenAfterAll(open, [event]) == OpenAfter(open, event)
    ensures Bracketed(open, [event]) <==> Fits(open, event)
  {
    assert [event][1..] == [];
    assert OpenAfterAll(OpenAfter(open, event), []) == OpenAfter(open, event);
    assert Bracketed(OpenAfter(open, event), []);
  }

  lemma CallBracketed(open: multiset<string>, finalized: Finalized, partials: seq<string>)
    ensures var events := CallEvents(finalized, Updates(finalized.call, partials));
            Bracketed(open, events) && OpenAfterAll(open, events) == open
  {
    hide Bracketed, OpenAfterAll, Announce, Updates;
    var start, end := ToolStart(finalized.call.id), EndOf(finalized);
    var updates, result := Updates(finalized.call, partials), Announce([ResultMessage(finalized)]);
    var started := OpenAfter(open, start);
    SingleEvent(open, start);
    BracketedAppend(open, [start], updates);
    UpdatesBracketed(started, finalized.call, partials);
    BracketedAppend(open, [start] + updates, [end]);
    SingleEvent(started, end);
    assert started - multiset{finalized.call.id} == open;
    BracketedAppend(open, [start] + updates + [end], result);
    AnnounceBracketed(open, [ResultMessage(finalized)]);
  }

  lemma {:induction false} SequentialBracketed(open: multiset<string>, tools: seq<AgentTool>, calls: seq<ToolCall>, scripts: seq<CallScript>)
    ensures Bracketed(open, Sequential(tools, calls, scripts).events)
    ensures OpenAfterAll(open, Sequential(tools, calls, scripts).events) == open
    decreases calls
  {
    hide CallEvents, Prepare;
    if calls != [] {
      var (finalized, updates) := RunAlone(tools, calls[0], Head(scripts));
      var partials := if Prepare(tools, calls[0], Head(scripts)).Immediate? then [] else Head(scripts).updates;
      RunAloneAnswers(tools, calls[0], Head(scripts));
      assert updates == Updates(finalized.call, partials);
      CallBracketed(open, finalized, partials);
      if Head(scripts).abortedAfter {
        BracketedAppend(open, CallEvents(finalized, updates), []);
      } else {
        SequentialBracketed(open, tools, calls[1..], Rest(scripts));
        BracketedAppend(open, CallEvents(finalized, updates), Sequential(tools, calls[1..], Rest(scripts)).events);
      }
    }
  }

  lemma {:induction false} FailAllBracketed(open: multiset<string>, calls: seq<ToolCall>)
    ensures Bracketed(open, FailAll(calls).events) && OpenAfterAll(open, FailAll(calls).events) == open
  {
    hide CallEvents;
    if calls != [] {
      var finalized := Failed(calls[0], TRUNCATED);
      assert Updates(finalized.call, []) == [];
      CallBracketed(open, finalized, []);
      FailAllBracketed(open, calls[1..]);
      BracketedAppend(open, CallEvents(finalized, []), FailAll(calls[1..]).events);
    }
  }

  // ----- concurrent calls -----

  /** The ids of the entries that have not ended, one for each entry. */
  function Unfinished(entries: seq<Entry>, slots: seq<Slot>): multiset<string>
    requires |slots| == |entries|
  {
    if entries == [] then multiset{}
    else if slots[0].Done? then Unfinished(entries[1..], slots[1..])
    else multiset{entries[0].Id()} + Unfinished(entries[1..], slots[1..])
  }

  lemma TakeOne(one: multiset<string>, two: multiset<string>, id: string)
    requires id in two
    ensures id in one + two && one + two - multiset{id} == one + (two - multiset{id})
  {
  }

  lemma PutOne(open: multiset<string>, id: string)
    ensures multiset{id} + open - multiset{id} == open
  {
  }

  lemma {:induction false} UnfinishedUpdate(entries: seq<Entry>, slots: seq<Slot>, i: nat, slot: Slot)
    requires i < |slots| == |entries| && !slots[i].Done?
    ensures entries[i].Id() in Unfinished(entries, slots)
    ensures Unfinished(entries, slots[i := slot]) ==
            if slot.Done? then Unfinished(entries, slots) - multiset{entries[i].Id()} else Unfinished(entries, slots)
    decreases entries
  {
    hide Entry.Id;
    var rest := Unfinished(entries[1..], slots[1..]);
    if i == 0 {
      assert slots[0 := slot][1..] == slots[1..];
      PutOne(rest, entries[0].Id());
    } else {
      assert slots[i := slot][1..] == slots[1..][i - 1 := slot] && slots[i := slot][0] == slots[0];
      UnfinishedUpdate(entries[1..], slots[1..], i - 1, slot);
      if !slots[0].Done? { TakeOne(multiset{entries[0].Id()}, rest, entries[i].Id()); }
    }
  }

  lemma {:induction false} AllDone(entries: seq<Entry>, slots: seq<Slot>)
    requires |slots| == |entries| && forall i :: 0 <= i < |slots| ==> slots[i].Done?
    ensures Unfinished(entries, slots) == multiset{}
    decreases entries
  {
    if entries != [] { AllDone(entries[1..], slots[1..]); }
  }

  lemma NoneUnfinished(open: multiset<string>)
    ensures Slots([]) == [] && open + Unfinished([], []) == open
  {
  }

  lemma UnfinishedCons(entry: Entry, rest: seq<Entry>)
    ensures Unfinished([entry] + rest, Slots([entry] + rest)) ==
            if entry.Ready? then Unfinished(rest, Slots(rest)) else multiset{entry.Id()} + Unfinished(rest, Slots(rest))
  {
    hide Entry.Id;
    assert ([entry] + rest)[1..] == rest && Slots([entry] + rest)[1..] == Slots(rest);
  }

  lemma {:induction false} PreflightBracketed(open: multiset<string>, tools: seq<AgentTool>, calls: seq<ToolCall>, scripts: seq<CallScript>)
    ensures var flight := Preflight(tools, calls, scripts);
            && Bracketed(open, flight.events)
            && OpenAfterAll(open, flight.events) == open + Unfinished(flight.entries, Slots(flight.entries))
    decreases calls
  {
    hide EntryFor, EntryEvents, Bracketed, OpenAfterAll, Entry.Id, Unfinished;
    if calls == [] {
      NoToolEvents(open, []);
      NoneUnfinished(open);
    } else {
      var flight := Preflight(tools, calls, scripts);
      var entry := EntryFor(tools, calls[0], Head(scripts));
      var rest := if Head(scripts).abortedAfter then Flight([], []) else Preflight(tools, calls[1..], Rest(scripts));
      var next := if entry.Ready? then open else open + multiset{entry.Id()};
      EntryBracketed(open, entry);
      if Head(scripts).abortedAfter {
        NoToolEvents(next, []);
        NoneUnfinished(next);
      } else {
        PreflightBracketed(next, tools, calls[1..], Rest(scripts));
      }
      BracketedAppend(open, EntryEvents(entry), rest.events);
      UnfinishedCons(entry, rest.entries);
      var later := Unfinished(rest.entries, Slots(rest.entries));
      assert open + multiset{entry.Id()} + later == open + (multiset{entry.Id()} + later);
    }
  }

  lemma EntryBracketed(open: multiset<string>, entry: Entry)
    ensures Bracketed(open, EntryEvents(entry))
    ensures OpenAfterAll(open, EntryEvents(entry)) == if entry.Ready? then open else open + multiset{entry.Id()}
  {
    hide Bracketed, OpenAfterAll;
    var start := ToolStart(entry.Id());
    SingleEvent(open, start);
    if entry.Ready? {
      BracketedAppend(open, [start], [EndOf(entry.finalized)]);
      SingleEvent(OpenAfter(open, start), EndOf(entry.finalized));
      assert open + multiset{entry.Id()} - multiset{entry.Id()} == open;
    } else {
      assert [start] + [] == [start];
    }
  }

  /** One action: the open calls are the unfinished entries before and after it. */
  lemma ActBracketed(entries: seq<Entry>, slots: seq<Slot>, action: Action)
    requires |slots| == |entries|
    ensures var one := Act(entries, slots, action);
            && |one.slots| == |entries|
            && Bracketed(Unfinished(entries, slots), one.events)
            && OpenAfterAll(Unfinished(entries, slots), one.events) == Unfinished(entries, one.slots)
  {
    hide Unfinished, Bracketed, OpenAfterAll, Act, Entry.Id, Entry.Outcome;
    var open := Unfinished(entries, slots);
    var one := Act(entries, slots, action);
    var i := action.task;
    ActShape(entries, slots, action);
    NoToolEvents(open, []);
    if one != Progress(slots, []) {
      UnfinishedUpdate(entries, slots, i, one.slots[i]);
      if one.events != [] { SingleEvent(open, one.events[0]); }
    }
  }

  lemma {:induction false} ActAllBracketed(entries: seq<Entry>, slots: seq<Slot>, schedule: seq<Action>)
    requires |slots| == |entries|
    ensures var all := ActAll(entries, slots, schedule);
            && Bracketed(Unfinished(entries, slots), all.events)
            && OpenAfterAll(Unfinished(entries, slots), all.events) == Unfinished(entries, all.slots)
    decreases schedule
  {
    hide Act, Unfinished;
    if schedule != [] {
      var one := Act(entries, slots, schedule[0]);
      ActBracketed(entries, slots, schedule[0]);
      ActAllBracketed(entries, one.slots, schedule[1..]);
      BracketedAppend(Unfinished(entries, slots), one.events, ActAll(entries, one.slots, schedule[1..]).events);
    }
  }

  lemma ParallelBracketed(tools: seq<AgentTool>, calls: seq<ToolCall>, scripts: seq<CallScript>, schedule: seq<Action>)
    ensures var events := Parallel(tools, calls, scripts, schedule).events;
            Bracketed(multiset{}, events) && OpenAfterAll(multiset{}, events) == multiset{}
  {
    hide Bracketed, OpenAfterAll, Preflight, ActAll, Unfinished, Announce, Drain;
    var none: multiset<string> := multiset{};
    var flight := Preflight(tools, calls, scripts);
    var entries := flight.entries;
    var all := ActAll(entries, Slots(entries), schedule + Drain(|entries|));
    var batch := Parallel(tools, calls, scripts, schedule);
    PreflightBracketed(none, tools, calls, scripts);
    assert none + Unfinished(entries, Slots(entries)) == Unfinished(entries, Slots(entries));
    ActAllBracketed(entries, Slots(entries), schedule + Drain(|entries|));
    ParallelOutcomes(tools, calls, scripts, schedule);
    AllDone(entries, all.slots);
    BracketedAppend(none, flight.events, all.events);
    BracketedAppend(none, flight.events + all.events, Announce(batch.Messages()));
    AnnounceBracketed(none, batch.Messages());
  }

  /** In every batch, under every schedule, with any aborts and any ids: each update and each end
    lies within a call that has started and not ended, and every call that started ends. */
  lemma BatchBracketed(tools: seq<AgentTool>, calls: seq<ToolCall>, truncated: bool, script: BatchScript)
    ensures var events := Execute(tools, calls, truncated, script).events;
            Bracketed(multiset{}, events) && OpenAfterAll(multiset{}, events) == multiset{}
  {
    hide Bracketed, OpenAfterAll, Sequential, FailAll, Parallel;
    if truncated {
      FailAllBracketed(multiset{}, calls);
    } else if script.sequential || HasSequentialTool(tools, calls) {
      SequentialBracketed(multiset{}, tools, calls, script.scripts);
    } else {
      ParallelBracketed(tools, calls, script.scripts, script.schedule);
    }
  }

  // ----- whole runs -----

  lemma {:induction false} StreamNoTools(events: seq<StreamEvent>, added: bool, final: Message)
    ensures MessageEvents(StreamEvents(events, added, final))
    decreases events
  {
    if events != [] && !events[0].Finished? {
      var all, rest := StreamEvents(events, added, final), StreamEvents(events[1..], added || events[0].Started?, final);
      StreamNoTools(events[1..], added || events[0].Started?, final);
      assert all == rest || (all[1..] == rest && (all[0].MessageStart? || all[0].MessageUpdate?));
    }
  }

  /** The trace so far brackets every call, and none is open. */
  ghost predicate CallsClosed(events: seq<Event>) {
    Bracketed(multiset{}, events) && OpenAfterAll(multiset{}, events) == multiset{}
  }

  lemma ClosedAppend(events: seq<Event>, more: seq<Event>)
    requires CallsClosed(events) && CallsClosed(more)
    ensures CallsClosed(events + more)
  {
    BracketedAppend(multiset{}, events, more);
  }

  lemma ClosedOne(events: seq<Event>, event: Event)
    requires CallsClosed(events) && !event.ToolStart? && !event.ToolUpdate? && !event.ToolEnd?
    ensures CallsClosed(events + [event])
  {
    SingleEvent(multiset{}, event);
    ClosedAppend(events, [event]);
  }

  lemma InjectedClosed(loop: Loop, input: TurnInput)
    requires CallsClosed(loop.events)
    ensures CallsClosed(Injected(loop, input).events)
  {
    hide DeclareChanges, Announce, CallsClosed;
    var begun := Begin(loop, input);
    if loop.started { ClosedOne(loop.events, TurnStart); }
    var messages := DeclareChanges(begun.context, PreparedMessages(loop, input) + begun.pending);
    AnnounceClosed(messages);
    ClosedAppend(begun.events, Announce(messages));
  }

  lemma AnnounceClosed(messages: seq<Message>)
    ensures CallsClosed(Announce(messages))
  {
    AnnounceBracketed(multiset{}, messages);
  }

  lemma RespondClosed(loop: Loop, input: TurnInput)
    requires CallsClosed(loop.events)
    ensures CallsClosed(Respond(loop, input).events)
  {
    hide StreamEvents, StreamMessages;
    var final := input.response.final.ToMessage();
    StreamNoTools(input.response.events, false, final);
    NoToolEvents(multiset{}, StreamEvents(input.response.events, false, final));
    ClosedAppend(loop.events, StreamEvents(input.response.events, false, final));
  }

  lemma CloseTurnClosed(loop: Loop, input: TurnInput)
    requires CallsClosed(loop.events)
    ensures CallsClosed(CloseTurn(loop, input).events)
  {
    hide Execute, Terminates;
    var reply := input.response.final;
    var calls := Calls(reply.blocks);
    var batch := if calls == [] then Batch([], []) else RunTools(loop, input);
    if calls != [] { BatchBracketed(loop.context.tools, calls, reply.stop == Length, input.tools); }
    ClosedAppend(loop.events, batch.events);
    ClosedOne(loop.events + batch.events, TurnEnd(reply.ToMessage(), batch.Messages()));
  }

  lemma ConcludeClosed(loop: Loop, input: TurnInput)
    requires CallsClosed(loop.events) && loop.exit.None?
    ensures CallsClosed(Conclude(loop, input).events)
  {
    hide Conclude, CloseTurn, CallsClosed;
    ConcludeShape(loop, input);
    if input.response.final.Failed() {
      var final := input.response.final.ToMessage();
      ClosedOne(loop.events, TurnEnd(final, []));
      ClosedOne(loop.events + [TurnEnd(final, [])], AgentEnd(loop.produced));
    } else {
      CloseTurnClosed(loop, input);
      var closed := CloseTurn(loop, input);
      ClosedOne(closed.events, AgentEnd(closed.produced));
      assert closed.events + [] == closed.events;
    }
  }

  /** Over every run: each tool update and each end lies within its call, every call that starts ends
    in its own turn, whatever the ids, the schedules, the aborts and the streams. */
  lemma {:induction false} RunBracketed(loop: Loop, script: seq<TurnInput>)
    requires CallsClosed(loop.events)
    ensures CallsClosed(Run(loop, script).events)
    decreases script
  {
    hide CallsClosed, Begin, Inject, Respond, Conclude;
    if script != [] && loop.exit.None? {
      var injected := Injected(loop, script[0]);
      InjectedClosed(loop, script[0]);
      RespondClosed(injected, script[0]);
      InjectedRuns(loop, script[0]);
      ConcludeClosed(Respond(injected, script[0]), script[0]);
      RunBracketed(Turn(loop, script[0]), script[1..]);
    }
  }

  lemma InjectedRuns(loop: Loop, input: TurnInput)
    ensures Respond(Injected(loop, input), input).exit == loop.exit
  {
    hide DeclareChanges, StreamEvents, StreamMessages;
  }

  lemma StartBracketed(prompts: seq<Message>, context: Context, skip: bool, arrived: Arrivals)
    ensures CallsClosed(StartPrompt(prompts, context, skip, arrived).events)
    ensures CallsClosed(StartContinue(context, arrived).events)
  {
    hide DeclareChanges;
    var opening := [AgentStart, TurnStart];
    assert opening[1..] == [TurnStart] && opening[1..][1..] == [];
    assert CallsClosed(opening) by { assert Bracketed(multiset{}, opening[1..]); }
    var messages := DeclareChanges(context, prompts);
    AnnounceClosed(messages);
    ClosedAppend(opening, Announce(messages));
    assert opening + Announce([]) == opening;
  }

  // ----- what shared ids do break -----

  const READ := AgentTool(Tool("read", "reads a file"), false)

  const READ_TWICE := [ToolCall("1", "read", "a"), ToolCall("1", "read", "b")]

  /** Two running calls with one id: the second ends, and the next update of the first finds its id
    no longer among the agent's pending calls, although its own call is open. */
  lemma SharedIdCounterexample()
    ensures var schedule := [Start(0), Start(1), Settle(1), Finish(1), Report(0, "")];
            var events := Parallel([READ], READ_TWICE, [], schedule).events;
            !UpdatesPending({}, events) && Bracketed(multiset{}, events)
  {
    hide UpdatesPending, Bracketed, OpenAfterAll, Parallel;
    var schedule := [Start(0), Start(1), Settle(1), Finish(1), Report(0, "")];
    ReadTwiceEntries();
    var entries := Preflight([READ], READ_TWICE, []).entries;
    assert Shared(entries, 0, 1);
    var overtaking := SharedIdBreaks([READ], READ_TWICE, [], 0, 1);
    assert Starts(2) == [Start(0), Start(1)] by { assert Starts(1) == [Start(0)]; }
    assert overtaking == schedule;
    ParallelBracketed([READ], READ_TWICE, [], schedule);
  }

  lemma ReadTwiceEntries()
    ensures Preflight([READ], READ_TWICE, []).entries
         == [Task(READ_TWICE[0], DEFAULT_SCRIPT), Task(READ_TWICE[1], DEFAULT_SCRIPT)]
  {
    assert FindTool([READ], "read") == Some(READ);
    assert READ_TWICE[1..] == [READ_TWICE[1]] && READ_TWICE[1..][1..] == [];
    assert Preflight([READ], READ_TWICE[1..], []).entries == [Task(READ_TWICE[1], DEFAULT_SCRIPT)];
  }
}
