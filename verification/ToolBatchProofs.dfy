/** What every tool batch guarantees, for every schedule of its tasks. */
module ToolBatchProofs {
  import opened Wrappers
  import opened Transcript
  import opened Events
  import opened ToolBatch

  // ----- results do not depend on the schedule -----

  function Outcomes(entries: seq<Entry>): seq<Finalized> {
    seq(|entries|, i requires 0 <= i < |entries| => entries[i].Outcome())
  }

  /** A finished slot holds the outcome of its own entry, only tasks can be unfinished, and only
    tasks that reach their tool are running. */
  ghost predicate Sound(entries: seq<Entry>, slots: seq<Slot>) {
    && |slots| == |entries|
    && (forall i :: 0 <= i < |slots| && slots[i].Done? ==> slots[i].finalized == entries[i].Outcome())
    && (forall i :: 0 <= i < |slots| && entries[i].Ready? ==> slots[i].Done?)
    && (forall i :: 0 <= i < |slots| && (slots[i].Running? || slots[i].Settled?) ==> entries[i].Runs())
  }

  lemma {:induction false} ActAllSound(entries: seq<Entry>, slots: seq<Slot>, schedule: seq<Action>)
    requires Sound(entries, slots)
    ensures Sound(entries, ActAll(entries, slots, schedule).slots)
    ensures forall i :: 0 <= i < |slots| && slots[i].Done? ==> ActAll(entries, slots, schedule).slots[i].Done?
    decreases schedule
  {
    if schedule != [] {
      ActAllSound(entries, Act(entries, slots, schedule[0]).slots, schedule[1..]);
    }
  }

  lemma ActKeepsLength(entries: seq<Entry>, slots: seq<Slot>, action: Action)
    requires |slots| == |entries|
    ensures |Act(entries, slots, action).slots| == |slots|
  {
  }

  /** An action does nothing, moves one unfinished entry on silently, reports for one, or ends one. */
  lemma ActShape(entries: seq<Entry>, slots: seq<Slot>, action: Action)
    requires |slots| == |entries|
    ensures var one := Act(entries, slots, action);
            var i := action.task;
            one == Progress(slots, [])
            || (&& i < |entries| == |one.slots| && !slots[i].Done? && one.slots == slots[i := one.slots[i]]
                && if one.slots[i].Done? then one.events == [ToolEnd(entries[i].Id(), entries[i].Outcome().isError)]
                   else one.events == [] || (action.Report? && one.events == [ToolUpdate(entries[i].Id(), action.partial)]))
  {
    var i := action.task;
    if i < |entries| && entries[i].Task? { OutcomeId(entries[i]); }
  }

  lemma OutcomeId(entry: Entry)
    requires entry.Task?
    ensures entry.Outcome().call.id == entry.Id()
  {
  }

  lemma {:induction false} ActAllAppend(entries: seq<Entry>, slots: seq<Slot>, left: seq<Action>, right: seq<Action>)
    requires |slots| == |entries|
    ensures var middle := ActAll(entries, slots, left);
            var after := ActAll(entries, middle.slots, right);
            ActAll(entries, slots, left + right) == Progress(after.slots, middle.events + after.events)
    decreases left
  {
    hide Act;
    if left == [] {
      assert left + right == right;
    } else {
      assert (left + right)[1..] == left[1..] + right;
      ActKeepsLength(entries, slots, left[0]);
      ActAllAppend(entries, Act(entries, slots, left[0]).slots, left[1..], right);
    }
  }

  lemma DrainOne(entries: seq<Entry>, slots: seq<Slot>, task: nat)
    requires Sound(entries, slots) && task < |entries|
    ensures ActAll(entries, slots, [Start(task), Settle(task), Finish(task)]).slots[task].Done?
  {
    var steps := [Start(task), Settle(task), Finish(task)];
    var first := Act(entries, slots, steps[0]).slots;
    var second := Act(entries, first, steps[1]).slots;
    var third := Act(entries, second, steps[2]).slots;
    assert steps[1..] == [Settle(task), Finish(task)];
    assert steps[1..][1..] == [Finish(task)];
    assert steps[1..][1..][1..] == [];
    assert ActAll(entries, second, [Finish(task)]).slots == third;
    assert ActAll(entries, first, steps[1..]).slots == third;
  }

  lemma {:induction false} DrainFinishes(entries: seq<Entry>, slots: seq<Slot>, count: nat)
    requires Sound(entries, slots) && count <= |entries|
    ensures forall i :: 0 <= i < count ==> ActAll(entries, slots, Drain(count)).slots[i].Done?
  {
    if count > 0 {
      var last := [Start(count - 1), Settle(count - 1), Finish(count - 1)];
      DrainFinishes(entries, slots, count - 1);
      ActAllSound(entries, slots, Drain(count - 1));
      ActAllAppend(entries, slots, Drain(count - 1), last);
      var middle := ActAll(entries, slots, Drain(count - 1)).slots;
      ActAllSound(entries, middle, last);
      DrainOne(entries, middle, count - 1);
    }
  }

  lemma {:induction false} CollectOutcomes(entries: seq<Entry>, slots: seq<Slot>)
    requires Sound(entries, slots)
    requires forall i :: 0 <= i < |slots| ==> slots[i].Done?
    ensures Collect(slots) == Outcomes(entries)
  {
    if slots != [] {
      CollectOutcomes(entries[1..], slots[1..]);
      assert Outcomes(entries) == [entries[0].Outcome()] + Outcomes(entries[1..]);
    }
  }

  /** The finished slots of a parallel batch, for any schedule. */
  lemma ParallelOutcomes(tools: seq<AgentTool>, calls: seq<ToolCall>, scripts: seq<CallScript>, schedule: seq<Action>)
    ensures var entries := Preflight(tools, calls, scripts).entries;
            && Parallel(tools, calls, scripts, schedule).finals == Outcomes(entries)
            && forall i :: 0 <= i < |entries| ==> ActAll(entries, Slots(entries), schedule + Drain(|entries|)).slots[i].Done?
  {
    var entries := Preflight(tools, calls, scripts).entries;
    var slots := Slots(entries);
    var middle := ActAll(entries, slots, schedule).slots;
    ActAllSound(entries, slots, schedule);
    ActAllAppend(entries, slots, schedule, Drain(|entries|));
    DrainFinishes(entries, middle, |entries|);
    ActAllSound(entries, middle, Drain(|entries|));
    CollectOutcomes(entries, ActAll(entries, middle, Drain(|entries|)).slots);
  }

  /** The signal is never raised while the batch runs. */
  ghost predicate NeverAborted(scripts: seq<CallScript>) {
    forall i :: 0 <= i < |scripts| ==>
      !scripts[i].abortedDuringHook && !scripts[i].abortedBeforeRun && !scripts[i].abortedAtStart && !scripts[i].abortedAfter
  }

  lemma {:induction false} PreflightMatchesSequential(tools: seq<AgentTool>, calls: seq<ToolCall>, scripts: seq<CallScript>)
    requires NeverAborted(scripts)
    ensures Outcomes(Preflight(tools, calls, scripts).entries) == Sequential(tools, calls, scripts).finals
    decreases calls
  {
    if calls != [] {
      PreflightMatchesSequential(tools, calls[1..], Rest(scripts));
      var entry := EntryFor(tools, calls[0], Head(scripts));
      var rest := Preflight(tools, calls[1..], Rest(scripts)).entries;
      assert Outcomes([entry] + rest) == [entry.Outcome()] + Outcomes(rest);
    }
  }

  /** Parallel refines sequential: without an abort, every schedule of the calls gives the tool
    results and the terminate flag of running the calls one after the other. */
  lemma ParallelRefinesSequential(tools: seq<AgentTool>, calls: seq<ToolCall>, scripts: seq<CallScript>, schedule: seq<Action>)
    requires NeverAborted(scripts)
    ensures Parallel(tools, calls, scripts, schedule).Messages() == Sequential(tools, calls, scripts).Messages()
    ensures ShouldTerminate(Parallel(tools, calls, scripts, schedule).finals) == ShouldTerminate(Sequential(tools, calls, scripts).finals)
  {
    ParallelOutcomes(tools, calls, scripts, schedule);
    PreflightMatchesSequential(tools, calls, scripts);
  }

  /** Two schedules of one batch differ only in the order of tool events. Whether a call sees an abort
    at each of its steps is part of its script, so both schedules see the same aborts: this does
    not say what happens when a schedule moves the moment of an abort. */
  lemma ScheduleIndependence(tools: seq<AgentTool>, calls: seq<ToolCall>, scripts: seq<CallScript>, one: seq<Action>, other: seq<Action>)
    ensures Parallel(tools, calls, scripts, one).finals == Parallel(tools, calls, scripts, other).finals
  {
    ParallelOutcomes(tools, calls, scripts, one);
    ParallelOutcomes(tools, calls, scripts, other);
  }

  // ----- results answer a prefix of the calls -----

  function CallsOf(finals: seq<Finalized>): seq<ToolCall> {
    seq(|finals|, i requires 0 <= i < |finals| => finals[i].call)
  }

  ghost predicate AnswersPrefix(finals: seq<Finalized>, calls: seq<ToolCall>) {
    CallsOf(finals) <= calls && (calls != [] ==> finals != [])
  }

  /** One more answered call in front of a prefix, or of an aborted batch. */
  lemma AnswersCons(first: Finalized, rest: seq<Finalized>, calls: seq<ToolCall>)
    requires calls != [] && first.call == calls[0]
    requires rest == [] || AnswersPrefix(rest, calls[1..])
    ensures AnswersPrefix([first] + rest, calls)
    ensures CallsOf(rest) == calls[1..] ==> CallsOf([first] + rest) == calls
  {
    assert CallsOf([first] + rest) == [calls[0]] + CallsOf(rest);
    assert calls == [calls[0]] + calls[1..];
  }

  lemma RunAloneAnswers(tools: seq<AgentTool>, call: ToolCall, script: CallScript)
    ensures RunAlone(tools, call, script).0.call == call
    ensures EntryFor(tools, call, script).Outcome().call == call
  {
  }

  lemma {:induction false} SequentialAnswersPrefix(tools: seq<AgentTool>, calls: seq<ToolCall>, scripts: seq<CallScript>)
    ensures AnswersPrefix(Sequential(tools, calls, scripts).finals, calls)
    ensures NeverAborted(scripts) ==> CallsOf(Sequential(tools, calls, scripts).finals) == calls
    decreases calls
  {
    hide RunAlone, CallEvents;
    if calls != [] {
      var first := RunAlone(tools, calls[0], Head(scripts)).0;
      var rest := if Head(scripts).abortedAfter then [] else Sequential(tools, calls[1..], Rest(scripts)).finals;
      SequentialAnswersPrefix(tools, calls[1..], Rest(scripts));
      RunAloneAnswers(tools, calls[0], Head(scripts));
      AnswersCons(first, rest, calls);
      assert Sequential(tools, calls, scripts).finals == [first] + rest;
    }
  }

  lemma OutcomesCons(entry: Entry, rest: seq<Entry>)
    ensures Outcomes([entry] + rest) == [entry.Outcome()] + Outcomes(rest)
    ensures rest == [] ==> Outcomes(rest) == []
  {
    hide Entry.Outcome;
  }

  lemma NothingAnswered()
    ensures AnswersPrefix(Outcomes([]), [])
  {
  }

  lemma {:induction false} PreflightAnswersPrefix(tools: seq<AgentTool>, calls: seq<ToolCall>, scripts: seq<CallScript>)
    ensures AnswersPrefix(Outcomes(Preflight(tools, calls, scripts).entries), calls)
    decreases calls
  {
    hide EntryFor, EntryEvents, Entry.Outcome, Outcomes, AnswersPrefix, CallsOf;
    if calls == [] {
      NothingAnswered();
    } else {
      var entry := EntryFor(tools, calls[0], Head(scripts));
      var rest := if Head(scripts).abortedAfter then [] else Preflight(tools, calls[1..], Rest(scripts)).entries;
      PreflightAnswersPrefix(tools, calls[1..], Rest(scripts));
      RunAloneAnswers(tools, calls[0], Head(scripts));
      OutcomesCons(entry, rest);
      AnswersCons(entry.Outcome(), Outcomes(rest), calls);
    }
  }

  lemma {:induction false} FailAllAnswersAll(calls: seq<ToolCall>)
    ensures CallsOf(FailAll(calls).finals) == calls
    ensures forall i :: 0 <= i < |calls| ==> FailAll(calls).finals[i].isError
  {
    if calls != [] {
      FailAllAnswersAll(calls[1..]);
      var finals := FailAll(calls).finals;
      assert CallsOf(finals) == [calls[0]] + CallsOf(finals[1..]);
    }
  }

  /** With an abort at any point, either executor answers a non-empty prefix of the calls, in
    source order; every call of a truncated message is answered with an error. */
  lemma BatchAnswersPrefix(tools: seq<AgentTool>, calls: seq<ToolCall>, truncated: bool, script: BatchScript)
    ensures AnswersPrefix(Execute(tools, calls, truncated, script).finals, calls)
    ensures truncated ==> CallsOf(Execute(tools, calls, truncated, script).finals) == calls
  {
    FailAllAnswersAll(calls);
    SequentialAnswersPrefix(tools, calls, script.scripts);
    PreflightAnswersPrefix(tools, calls, script.scripts);
    ParallelOutcomes(tools, calls, script.scripts, script.schedule);
  }

  // ----- the events of a batch -----

  /** What the events of a batch do to an agent whose turn is open and has no pending call. */
  ghost predicate CleanBatch(view: View, batch: Batch) {
    var after := ReduceAll(view, batch.events);
    && after.messages == view.messages + batch.Messages()
    && after.pendingCalls == {}
    && after.error == view.error
    && Parse(InTurn, batch.events) == InTurn
  }

  lemma {:induction false} ToolEventsParse(events: seq<Event>)
    requires forall i :: 0 <= i < |events| ==> events[i].ToolStart? || events[i].ToolUpdate? || events[i].ToolEnd?
    ensures Parse(InTurn, events) == InTurn
  {
    if events != [] {
      ToolEventsParse(events[1..]);
    }
  }

  lemma {:induction false} ToolEventsKeep(view: View, events: seq<Event>)
    requires forall i :: 0 <= i < |events| ==> events[i].ToolStart? || events[i].ToolUpdate? || events[i].ToolEnd?
    ensures ReduceAll(view, events) == view.(pendingCalls := ReduceAll(view, events).pendingCalls)
    decreases events
  {
    if events != [] {
      ToolEventsKeep(Reduce(view, events[0]), events[1..]);
    }
  }

  lemma {:induction false} UpdatesKeep(view: View, call: ToolCall, partials: seq<string>)
    ensures ReduceAll(view, Updates(call, partials)) == view
    ensures call.id in view.pendingCalls ==> UpdatesPending(view.pendingCalls, Updates(call, partials))
    decreases partials
  {
    if partials != [] {
      assert Updates(call, partials)[1..] == Updates(call, partials[1..]);
      UpdatesKeep(view, call, partials[1..]);
    }
  }

  /** One call on its own: start, updates, end, result message. */
  lemma CallEventsEffect(view: View, finalized: Finalized, updates: seq<Event>, partials: seq<string>)
    requires updates == Updates(finalized.call, partials)
    requires view.pendingCalls == {}
    ensures ReduceAll(view, CallEvents(finalized, updates)).messages == view.messages + [ResultMessage(finalized)]
    ensures ReduceAll(view, CallEvents(finalized, updates)).pendingCalls == {}
    ensures ReduceAll(view, CallEvents(finalized, updates)).error == view.error
    ensures Parse(InTurn, CallEvents(finalized, updates)) == InTurn
    ensures UpdatesPending({}, CallEvents(finalized, updates))
  {
    var start, end, result := [ToolStart(finalized.call.id)], [EndOf(finalized)], Announce([ResultMessage(finalized)]);
    var started := Reduce(view, start[0]);
    assert start[1..] == [] && end[1..] == [];
    ReduceAppend(view, start, updates);
    UpdatesKeep(started, finalized.call, partials);
    ReduceAppend(view, start + updates, end);
    ReduceAppend(view, start + updates + end, result);
    var ended := Reduce(started, end[0]);
    assert ended == view;
    AnnounceEffect(ended, [ResultMessage(finalized)]);
    ToolEventsParse(start + updates + end);
    ParseAppend(InTurn, start + updates + end, result);
    UpdatesAppend(view, start, updates);
    UpdatesAppend(view, start + updates, end);
    UpdatesAppend(view, start + updates + end, result);
    assert UpdatesPending(started.pendingCalls, end) by { assert UpdatesPending({}, end[1..]); }
    assert UpdatesPending({}, start) by { assert UpdatesPending(started.pendingCalls, start[1..]); }
  }

  lemma EmptyClean(view: View)
    requires view.pendingCalls == {}
    ensures CleanBatch(view, Batch([], [])) && UpdatesPending({}, [])
  {
    assert view.messages + [] == view.messages;
  }

  lemma {:induction false} SequentialClean(view: View, tools: seq<AgentTool>, calls: seq<ToolCall>, scripts: seq<CallScript>)
    requires view.pendingCalls == {}
    ensures CleanBatch(view, Sequential(tools, calls, scripts))
    ensures UpdatesPending({}, Sequential(tools, calls, scripts).events)
    decreases calls
  {
    hide CallEvents, Parse, UpdatesPending, Prepare, ReduceAll, CleanBatch;
    var batch := Sequential(tools, calls, scripts);
    if calls == [] {
      EmptyClean(view);
    } else {
      var (finalized, updates) := RunAlone(tools, calls[0], Head(scripts));
      var partials := if Prepare(tools, calls[0], Head(scripts)).Immediate? then [] else Head(scripts).updates;
      var rest := if Head(scripts).abortedAfter then Batch([], []) else Sequential(tools, calls[1..], Rest(scripts));
      var first := CallEvents(finalized, updates);
      assert updates == Updates(finalized.call, partials);
      CallEventsEffect(view, finalized, updates, partials);
      var middle := ReduceAll(view, first);
      if Head(scripts).abortedAfter {
        EmptyClean(middle);
      } else {
        SequentialClean(middle, tools, calls[1..], Rest(scripts));
      }
      Joined(view, first, ResultMessage(finalized), rest, batch);
    }
  }

  lemma Joined(view: View, first: seq<Event>, message: Message, rest: Batch, batch: Batch)
    requires view.pendingCalls == {}
    requires batch.events == first + rest.events && batch.Messages() == [message] + rest.Messages()
    requires var middle := ReduceAll(view, first);
             middle.messages == view.messages + [message] && middle.pendingCalls == {} && middle.error == view.error
    requires Parse(InTurn, first) == InTurn && UpdatesPending({}, first)
    requires CleanBatch(ReduceAll(view, first), rest) && UpdatesPending({}, rest.events)
    ensures CleanBatch(view, batch) && UpdatesPending({}, batch.events)
  {
    ReduceAppend(view, first, rest.events);
    ParseAppend(InTurn, first, rest.events);
    UpdatesAppend(view, first, rest.events);
    assert (view.messages + [message]) + rest.Messages() == view.messages + batch.Messages();
  }

  lemma {:induction false} FailAllClean(view: View, calls: seq<ToolCall>)
    requires view.pendingCalls == {}
    ensures CleanBatch(view, FailAll(calls))
    ensures UpdatesPending({}, FailAll(calls).events)
    decreases calls
  {
    var batch := FailAll(calls);
    if calls == [] {
      assert view.messages + [] == view.messages;
    } else {
      var finalized := Failed(calls[0], TRUNCATED);
      var first := CallEvents(finalized, []);
      assert [] == Updates(finalized.call, []);
      CallEventsEffect(view, finalized, [], []);
      FailAllClean(ReduceAll(view, first), calls[1..]);
      Joined(view, first, ResultMessage(finalized), FailAll(calls[1..]), batch);
    }
  }

  // ----- parallel tasks: pending calls are calls still in flight -----

  ghost predicate InFlight(entries: seq<Entry>, slots: seq<Slot>, pending: set<string>) {
    && |slots| == |entries|
    && forall id :: id in pending ==> exists i :: 0 <= i < |entries| && !slots[i].Done? && entries[i].Id() == id
  }

  lemma {:induction false} PreflightTools(tools: seq<AgentTool>, calls: seq<ToolCall>, scripts: seq<CallScript>)
    ensures forall i :: 0 <= i < |Preflight(tools, calls, scripts).events| ==>
              Preflight(tools, calls, scripts).events[i].ToolStart? || Preflight(tools, calls, scripts).events[i].ToolEnd?
    decreases calls
  {
    if calls != [] {
      PreflightTools(tools, calls[1..], Rest(scripts));
    }
  }

  lemma EntryEventsEffect(view: View, entry: Entry)
    ensures ReduceAll(view, EntryEvents(entry)) ==
            view.(pendingCalls := if entry.Ready? then view.pendingCalls - {entry.Id()} else view.pendingCalls + {entry.Id()})
  {
    var events := EntryEvents(entry);
    assert ReduceAll(view, events) == ReduceAll(Reduce(view, events[0]), events[1..]);
    if entry.Ready? {
      assert events[1..] == [EndOf(entry.finalized)];
      assert events[1..][1..] == [];
      assert ReduceAll(view, events) == Reduce(Reduce(view, events[0]), events[1]);
      assert (view.pendingCalls + {entry.Id()}) - {entry.Id()} == view.pendingCalls - {entry.Id()};
    } else {
      assert events[1..] == [];
    }
  }

  /** After preflight only the ids of tasks are pending, besides what was pending before. */
  lemma {:induction false} PreflightPending(view: View, tools: seq<AgentTool>, calls: seq<ToolCall>, scripts: seq<CallScript>)
    ensures var flight := Preflight(tools, calls, scripts);
            forall id :: id in ReduceAll(view, flight.events).pendingCalls ==>
              id in view.pendingCalls || exists i :: 0 <= i < |flight.entries| && flight.entries[i].Task? && flight.entries[i].Id() == id
    decreases calls
  {
    if calls != [] {
      var flight := Preflight(tools, calls, scripts);
      var entry := EntryFor(tools, calls[0], Head(scripts));
      var rest := if Head(scripts).abortedAfter then Flight([], []) else Preflight(tools, calls[1..], Rest(scripts));
      ReduceAppend(view, EntryEvents(entry), rest.events);
      EntryEventsEffect(view, entry);
      var middle := ReduceAll(view, EntryEvents(entry));
      if !Head(scripts).abortedAfter {
        PreflightPending(middle, tools, calls[1..], Rest(scripts));
      }
      assert flight.entries[0] == entry;
      forall id | id in ReduceAll(view, flight.events).pendingCalls && id !in view.pendingCalls
        ensures exists i :: 0 <= i < |flight.entries| && flight.entries[i].Task? && flight.entries[i].Id() == id
      {
        if id !in middle.pendingCalls {
          var i :| 0 <= i < |rest.entries| && rest.entries[i].Task? && rest.entries[i].Id() == id;
          assert flight.entries[i + 1] == rest.entries[i];
        }
      }
    }
  }

  lemma ActInFlight(view: View, entries: seq<Entry>, slots: seq<Slot>, action: Action)
    requires InFlight(entries, slots, view.pendingCalls)
    ensures var one := Act(entries, slots, action);
            InFlight(entries, one.slots, ReduceAll(view, one.events).pendingCalls)
  {
    var one := Act(entries, slots, action);
    var after := ReduceAll(view, one.events).pendingCalls;
    if |one.events| == 1 {
      assert one.events[1..] == [];
      assert ReduceAll(view, one.events) == Reduce(view, one.events[0]);
    }
    forall id | id in after
      ensures exists i :: 0 <= i < |entries| && !one.slots[i].Done? && entries[i].Id() == id
    {
      var i :| 0 <= i < |entries| && !slots[i].Done? && entries[i].Id() == id;
      assert !one.slots[i].Done?;
    }
  }

  lemma {:induction false} ActAllInFlight(view: View, entries: seq<Entry>, slots: seq<Slot>, schedule: seq<Action>)
    requires InFlight(entries, slots, view.pendingCalls)
    ensures var all := ActAll(entries, slots, schedule);
            && InFlight(entries, all.slots, ReduceAll(view, all.events).pendingCalls)
            && forall i :: 0 <= i < |all.events| ==> all.events[i].ToolUpdate? || all.events[i].ToolEnd?
    decreases schedule
  {
    if schedule != [] {
      var one := Act(entries, slots, schedule[0]);
      var rest := ActAll(entries, one.slots, schedule[1..]);
      ActInFlight(view, entries, slots, schedule[0]);
      ReduceAppend(view, one.events, rest.events);
      ActAllInFlight(ReduceAll(view, one.events), entries, one.slots, schedule[1..]);
    }
  }

  lemma ParallelClean(view: View, tools: seq<AgentTool>, calls: seq<ToolCall>, scripts: seq<CallScript>, schedule: seq<Action>)
    requires view.pendingCalls == {}
    ensures CleanBatch(view, Parallel(tools, calls, scripts, schedule))
  {
    var flight := Preflight(tools, calls, scripts);
    var entries := flight.entries;
    var progress := ActAll(entries, Slots(entries), schedule + Drain(|entries|));
    var batch := Parallel(tools, calls, scripts, schedule);
    var result := Announce(batch.Messages());
    ParallelOutcomes(tools, calls, scripts, schedule);
    PreflightPending(view, tools, calls, scripts);
    PreflightTools(tools, calls, scripts);
    var flown := ReduceAll(view, flight.events);
    forall id | id in flown.pendingCalls
      ensures exists i :: 0 <= i < |entries| && !Slots(entries)[i].Done? && entries[i].Id() == id
    {
      var i :| 0 <= i < |entries| && entries[i].Task? && entries[i].Id() == id;
      assert !Slots(entries)[i].Done?;
    }
    ActAllInFlight(flown, entries, Slots(entries), schedule + Drain(|entries|));
    ReduceAppend(view, flight.events, progress.events);
    ReduceAppend(view, flight.events + progress.events, result);
    var acted := ReduceAll(flown, progress.events);
    assert acted.pendingCalls == {};
    ToolEventsKeep(view, flight.events + progress.events);
    ToolEventsParse(flight.events + progress.events);
    ParseAppend(InTurn, flight.events + progress.events, result);
    AnnounceEffect(acted, batch.Messages());
  }

  /** Every batch, under every schedule and any abort: the agent gains exactly the result messages,
    no call stays pending, and the events fit into an open turn. */
  lemma BatchClean(view: View, tools: seq<AgentTool>, calls: seq<ToolCall>, truncated: bool, script: BatchScript)
    requires view.pendingCalls == {}
    ensures CleanBatch(view, Execute(tools, calls, truncated, script))
  {
    if truncated {
      FailAllClean(view, calls);
    } else if script.sequential || HasSequentialTool(tools, calls) {
      SequentialClean(view, tools, calls, script.scripts);
    } else {
      ParallelClean(view, tools, calls, script.scripts, script.schedule);
    }
  }

  // ----- parallel tasks: the agent lists a call as pending when it reports -----

  /** A running task shares its id with no other entry, except an entry that preflight settled
    before it was announced. */
  ghost predicate Exclusive(entries: seq<Entry>) {
    forall i, j :: 0 <= i < |entries| && 0 <= j < |entries| && i != j && entries[i].Runs() && entries[j].Id() == entries[i].Id()
      ==> j < i && entries[j].Ready?
  }

  /** Every task that can still report is pending. */
  ghost predicate Covered(entries: seq<Entry>, slots: seq<Slot>, pending: set<string>) {
    && |slots| == |entries|
    && forall i :: 0 <= i < |entries| && entries[i].Runs() && !slots[i].Done? ==> entries[i].Id() in pending
  }

  lemma {:induction false} PreflightCovers(view: View, tools: seq<AgentTool>, calls: seq<ToolCall>, scripts: seq<CallScript>)
    requires Exclusive(Preflight(tools, calls, scripts).entries)
    ensures var flight := Preflight(tools, calls, scripts);
            && UpdatesPending(view.pendingCalls, flight.events)
            && (forall i :: 0 <= i < |flight.entries| && flight.entries[i].Runs()
                  ==> flight.entries[i].Id() in ReduceAll(view, flight.events).pendingCalls)
            && (forall id :: id in view.pendingCalls && (forall i :: 0 <= i < |flight.entries| ==> flight.entries[i].Id() != id)
                  ==> id in ReduceAll(view, flight.events).pendingCalls)
    decreases calls
  {
    if calls != [] {
      var flight := Preflight(tools, calls, scripts);
      var entry := EntryFor(tools, calls[0], Head(scripts));
      var rest := if Head(scripts).abortedAfter then Flight([], []) else Preflight(tools, calls[1..], Rest(scripts));
      var first := EntryEvents(entry);
      assert flight.entries[0] == entry;
      assert flight.entries[1..] == rest.entries;
      forall i, j | 0 <= i < |rest.entries| && 0 <= j < |rest.entries| && i != j && rest.entries[i].Runs() && rest.entries[j].Id() == rest.entries[i].Id()
        ensures j < i && rest.entries[j].Ready?
      {
        assert flight.entries[i + 1] == rest.entries[i] && flight.entries[j + 1] == rest.entries[j];
      }
      ReduceAppend(view, first, rest.events);
      EntryEventsEffect(view, entry);
      NoUpdates(view.pendingCalls, first);
      UpdatesAppend(view, first, rest.events);
      var middle := ReduceAll(view, first);
      if !Head(scripts).abortedAfter {
        PreflightCovers(middle, tools, calls[1..], Rest(scripts));
      }
      forall i | 0 <= i < |flight.entries| && flight.entries[i].Runs()
        ensures flight.entries[i].Id() in ReduceAll(view, flight.events).pendingCalls
      {
        if i == 0 {
          assert forall j :: 0 <= j < |rest.entries| ==> flight.entries[j + 1] == rest.entries[j];
          assert forall j :: 0 <= j < |rest.entries| ==> rest.entries[j].Id() != entry.Id();
        } else {
          assert flight.entries[i] == rest.entries[i - 1];
        }
      }
      forall id | id in view.pendingCalls && (forall i :: 0 <= i < |flight.entries| ==> flight.entries[i].Id() != id)
        ensures id in ReduceAll(view, flight.events).pendingCalls
      {
        assert forall j :: 0 <= j < |rest.entries| ==> flight.entries[j + 1] == rest.entries[j];
      }
    }
  }

  lemma {:induction false} NoUpdates(pending: set<string>, events: seq<Event>)
    requires forall i :: 0 <= i < |events| ==> !events[i].ToolUpdate?
    ensures UpdatesPending(pending, events)
    decreases events
  {
    if events != [] {
      NoUpdates(Reduce(View([], None, pending, None), events[0]).pendingCalls, events[1..]);
    }
  }

  lemma {:induction false} ActAllCovers(view: View, entries: seq<Entry>, slots: seq<Slot>, schedule: seq<Action>)
    requires Exclusive(entries) && Covered(entries, slots, view.pendingCalls) && Sound(entries, slots)
    ensures UpdatesPending(view.pendingCalls, ActAll(entries, slots, schedule).events)
    decreases schedule
  {
    if schedule != [] {
      var one := Act(entries, slots, schedule[0]);
      var rest := ActAll(entries, one.slots, schedule[1..]);
      var middle := ReduceAll(view, one.events);
      if |one.events| == 1 {
        assert one.events[1..] == [];
        assert UpdatesPending(Reduce(View([], None, view.pendingCalls, None), one.events[0]).pendingCalls, []);
      }
      assert UpdatesPending(view.pendingCalls, one.events);
      StillCovered(view, entries, slots, schedule[0]);
      UpdatesAppend(view, one.events, rest.events);
      RunningRuns(entries, slots, schedule[0]);
      ActAllCovers(middle, entries, one.slots, schedule[1..]);
    }
  }

  lemma RunningRuns(entries: seq<Entry>, slots: seq<Slot>, action: Action)
    requires Sound(entries, slots)
    ensures Sound(entries, Act(entries, slots, action).slots)
  {
  }

  lemma StillCovered(view: View, entries: seq<Entry>, slots: seq<Slot>, action: Action)
    requires Exclusive(entries) && Covered(entries, slots, view.pendingCalls) && Sound(entries, slots)
    ensures var one := Act(entries, slots, action); Covered(entries, one.slots, ReduceAll(view, one.events).pendingCalls)
  {
    var one := Act(entries, slots, action);
    if |one.events| == 1 {
      assert one.events[1..] == [];
      assert ReduceAll(view, one.events) == Reduce(view, one.events[0]);
    }
  }

  lemma ExclusiveCovers(tools: seq<AgentTool>, calls: seq<ToolCall>, scripts: seq<CallScript>, schedule: seq<Action>)
    requires Exclusive(Preflight(tools, calls, scripts).entries)
    ensures UpdatesPending({}, Parallel(tools, calls, scripts, schedule).events)
  {
    var view := View([], None, {}, None);
    var flight := Preflight(tools, calls, scripts);
    var entries := flight.entries;
    var all := schedule + Drain(|entries|);
    var progress := ActAll(entries, Slots(entries), all);
    var result := Announce(Parallel(tools, calls, scripts, schedule).Messages());
    PreflightCovers(view, tools, calls, scripts);
    var flown := ReduceAll(view, flight.events);
    ActAllCovers(flown, entries, Slots(entries), all);
    UpdatesAppend(view, flight.events, progress.events);
    UpdatesAppend(view, flight.events + progress.events, result);
    AnnounceEffect(ReduceAll(view, flight.events + progress.events), Parallel(tools, calls, scripts, schedule).Messages());
  }

  // ----- a schedule that breaks the bracket of a shared id -----

  function Starts(count: nat): seq<Action> {
    if count == 0 then [] else Starts(count - 1) + [Start(count - 1)]
  }

  lemma {:induction false} StartsRun(entries: seq<Entry>, count: nat)
    requires count <= |entries|
    ensures var slots := ActAll(entries, Slots(entries), Starts(count)).slots;
            && (forall i :: 0 <= i < count && entries[i].Runs() ==> slots[i].Running?)
            && (forall i :: 0 <= i < count && !entries[i].Runs() ==> slots[i].Done?)
            && (forall i :: count <= i < |entries| ==> slots[i] == Slots(entries)[i])
  {
    hide ActAll;
    ActAllNothing(entries, Slots(entries));
    if count > 0 {
      StartsRun(entries, count - 1);
      var before := ActAll(entries, Slots(entries), Starts(count - 1)).slots;
      ActAllAppend(entries, Slots(entries), Starts(count - 1), [Start(count - 1)]);
      ActOne(entries, before, Start(count - 1));
    }
  }

  lemma ActAllNothing(entries: seq<Entry>, slots: seq<Slot>)
    requires |slots| == |entries|
    ensures ActAll(entries, slots, []).slots == slots
  {
  }

  lemma ActOne(entries: seq<Entry>, slots: seq<Slot>, action: Action)
    requires |slots| == |entries|
    ensures ActAll(entries, slots, [action]).slots == Act(entries, slots, action).slots
  {
    assert [action][1..] == [];
    assert ActAll(entries, Act(entries, slots, action).slots, []).slots == Act(entries, slots, action).slots;
  }

  /** A finished task is not pending, even when it shares its id. */
  ghost predicate Released(entries: seq<Entry>, slots: seq<Slot>, pending: set<string>) {
    && |slots| == |entries|
    && forall i :: 0 <= i < |entries| && entries[i].Task? && slots[i].Done? ==> entries[i].Id() !in pending
  }

  lemma ActReleases(view: View, entries: seq<Entry>, slots: seq<Slot>, action: Action)
    requires Released(entries, slots, view.pendingCalls) && Sound(entries, slots)
    ensures var one := Act(entries, slots, action);
            var after := ReduceAll(view, one.events).pendingCalls;
            Released(entries, one.slots, after) && Sound(entries, one.slots) && after <= view.pendingCalls
  {
    var one := Act(entries, slots, action);
    if |one.events| == 1 {
      assert one.events[1..] == [];
      assert ReduceAll(view, one.events) == Reduce(view, one.events[0]);
    }
    RunningRuns(entries, slots, action);
  }

  lemma {:induction false} ActAllReleases(view: View, entries: seq<Entry>, slots: seq<Slot>, schedule: seq<Action>)
    requires Released(entries, slots, view.pendingCalls) && Sound(entries, slots)
    ensures var all := ActAll(entries, slots, schedule);
            && Released(entries, all.slots, ReduceAll(view, all.events).pendingCalls)
            && ReduceAll(view, all.events).pendingCalls <= view.pendingCalls
    decreases schedule
  {
    hide Act, Released;
    if schedule != [] {
      var one := Act(entries, slots, schedule[0]);
      ActReleases(view, entries, slots, schedule[0]);
      var rest := ActAll(entries, one.slots, schedule[1..]);
      ReduceAppend(view, one.events, rest.events);
      ActAllReleases(ReduceAll(view, one.events), entries, one.slots, schedule[1..]);
    }
  }

  /** Whether an id is pending after the entries were announced in order. */
  function Fate(entries: seq<Entry>, id: string, pending: bool): bool
    decreases entries
  {
    if entries == [] then pending
    else Fate(entries[1..], id, if entries[0].Id() == id then entries[0].Task? else pending)
  }

  lemma {:induction false} PreflightFate(view: View, tools: seq<AgentTool>, calls: seq<ToolCall>, scripts: seq<CallScript>, id: string)
    ensures var flight := Preflight(tools, calls, scripts);
            id in ReduceAll(view, flight.events).pendingCalls <==> Fate(flight.entries, id, id in view.pendingCalls)
    decreases calls
  {
    if calls != [] {
      var entry := EntryFor(tools, calls[0], Head(scripts));
      var rest := if Head(scripts).abortedAfter then Flight([], []) else Preflight(tools, calls[1..], Rest(scripts));
      ReduceAppend(view, EntryEvents(entry), rest.events);
      EntryEventsEffect(view, entry);
      assert ([entry] + rest.entries)[1..] == rest.entries;
      if !Head(scripts).abortedAfter {
        PreflightFate(ReduceAll(view, EntryEvents(entry)), tools, calls[1..], Rest(scripts), id);
      }
    }
  }

  lemma {:induction false} SettledLast(entries: seq<Entry>, id: string, pending: bool, i: int)
    requires -1 <= i && exists k :: i < k < |entries| && entries[k].Id() == id
    requires forall k :: i < k < |entries| && entries[k].Id() == id ==> entries[k].Ready?
    ensures !Fate(entries, id, pending)
    decreases entries
  {
    var rest := entries[1..];
    var now := if entries[0].Id() == id then entries[0].Task? else pending;
    if j :| 0 <= j < |rest| && rest[j].Id() == id && j > i - 1 {
      assert forall k :: 0 <= k < |rest| ==> rest[k] == entries[k + 1];
      SettledLast(rest, id, now, if i < 0 then -1 else i - 1);
    } else {
      assert forall k :: 1 <= k < |entries| ==> entries[k] == rest[k - 1];
      assert i == -1 && entries[0].Id() == id;
      NotAnnounced(rest, id, now);
    }
  }

  lemma {:induction false} NotAnnounced(entries: seq<Entry>, id: string, pending: bool)
    requires forall k :: 0 <= k < |entries| ==> entries[k].Id() != id
    ensures Fate(entries, id, pending) == pending
  {
    if entries != [] {
      NotAnnounced(entries[1..], id, pending);
    }
  }

  /** A running task and another call with its id that ends while it runs. */
  ghost predicate Shared(entries: seq<Entry>, i: nat, j: nat) {
    && i < |entries| && j < |entries| && i != j && entries[i].Runs() && entries[j].Id() == entries[i].Id()
    && (entries[j].Task? || (i < j && forall k :: 0 <= k < |entries| && k != i && entries[k].Id() == entries[i].Id() ==> entries[k].Ready?))
  }

  function Overtake(entries: seq<Entry>, j: nat): seq<Action>
    requires j < |entries|
  {
    Starts(|entries|) + if entries[j].Task? then [Settle(j), Finish(j)] else []
  }

  lemma OvertakenRuns(entries: seq<Entry>, i: nat, j: nat)
    requires Shared(entries, i, j)
    ensures var slots := ActAll(entries, Slots(entries), Overtake(entries, j)).slots;
            slots[i].Running? && (entries[j].Task? ==> slots[j].Done?)
  {
    var slots := Slots(entries);
    var ending := if entries[j].Task? then [Settle(j), Finish(j)] else [];
    StartsRun(entries, |entries|);
    ActAllSound(entries, slots, Starts(|entries|));
    ActAllAppend(entries, slots, Starts(|entries|), ending);
    EndingOf(entries, ActAll(entries, slots, Starts(|entries|)).slots, i, j, ending);
  }

  lemma OvertakenReleased(view: View, tools: seq<AgentTool>, calls: seq<ToolCall>, scripts: seq<CallScript>, i: nat, j: nat)
    requires view.pendingCalls == {} && Shared(Preflight(tools, calls, scripts).entries, i, j)
    ensures var flight := Preflight(tools, calls, scripts);
            var ready := ActAll(flight.entries, Slots(flight.entries), Overtake(flight.entries, j));
            flight.entries[i].Id() !in ReduceAll(ReduceAll(view, flight.events), ready.events).pendingCalls
  {
    var flight := Preflight(tools, calls, scripts);
    var entries := flight.entries;
    OvertakenRuns(entries, i, j);
    ActAllReleases(ReduceAll(view, flight.events), entries, Slots(entries), Overtake(entries, j));
    if entries[j].Ready? {
      PreflightFate(view, tools, calls, scripts, entries[i].Id());
      SettledLast(entries, entries[i].Id(), false, i);
    }
  }

  /** A report of a task whose id is not pending. */
  lemma LateReportBreaks(view: View, entries: seq<Entry>, slots: seq<Slot>, i: nat, rest: seq<Action>)
    requires |slots| == |entries| && i < |entries| && entries[i].Task? && slots[i].Running? && entries[i].Id() !in view.pendingCalls
    ensures !UpdatesPending(view.pendingCalls, ActAll(entries, slots, [Report(i, "")] + rest).events)
  {
    var events := ActAll(entries, slots, [Report(i, "")] + rest).events;
    assert ([Report(i, "")] + rest)[0] == Report(i, "");
    assert events[0] == ToolUpdate(entries[i].Id(), "");
  }

  lemma SharedIdBreaks(tools: seq<AgentTool>, calls: seq<ToolCall>, scripts: seq<CallScript>, i: nat, j: nat) returns (schedule: seq<Action>)
    requires Shared(Preflight(tools, calls, scripts).entries, i, j)
    ensures schedule == Overtake(Preflight(tools, calls, scripts).entries, j) + [Report(i, "")]
    ensures !UpdatesPending({}, Parallel(tools, calls, scripts, schedule).events)
  {
    hide ActAll, ReduceAll, Preflight, Drain, Announce, UpdatesPending, Overtake;
    var view := View([], None, {}, None);
    var flight := Preflight(tools, calls, scripts);
    var entries := flight.entries;
    var slots := Slots(entries);
    var before := Overtake(entries, j);
    schedule := before + [Report(i, "")];
    OvertakenRuns(entries, i, j);
    OvertakenReleased(view, tools, calls, scripts, i, j);
    var flown := ReduceAll(view, flight.events);
    var ready := ActAll(entries, slots, before);
    LateReportBreaks(ReduceAll(flown, ready.events), entries, ready.slots, i, Drain(|entries|));
    var tail := [Report(i, "")] + Drain(|entries|);
    assert schedule + Drain(|entries|) == before + tail;
    ActAllAppend(entries, slots, before, tail);
    var rest := ActAll(entries, ready.slots, tail);
    UpdatesAppend(flown, ready.events, rest.events);
    UpdatesAppend(view, flight.events, ready.events + rest.events);
    UpdatesAppend(view, flight.events + (ready.events + rest.events), Announce(Parallel(tools, calls, scripts, schedule).Messages()));
  }

  lemma EndingOf(entries: seq<Entry>, slots: seq<Slot>, i: nat, j: nat, ending: seq<Action>)
    requires Sound(entries, slots) && i < |entries| && j < |entries| && i != j && slots[i].Running?
    requires entries[j].Task? ==> slots[j].Running? || slots[j].Done?
    requires ending == if entries[j].Task? then [Settle(j), Finish(j)] else []
    ensures ActAll(entries, slots, ending).slots[i].Running?
    ensures entries[j].Task? ==> ActAll(entries, slots, ending).slots[j].Done?
  {
    if entries[j].Task? {
      var first := Act(entries, slots, Settle(j)).slots;
      var second := Act(entries, first, Finish(j)).slots;
      assert ending[1..] == [Finish(j)] && ending[1..][1..] == [];
      assert ActAll(entries, first, ending[1..]).slots == second;
    }
  }

  /** The agent lists the call as pending at every update, under every schedule, if and only if no
    running task shares its id with a task or with a call settled after it: the agent keeps a set
    of ids, so the end of either call removes the id. */
  lemma UpdatesFindCallPending(tools: seq<AgentTool>, calls: seq<ToolCall>, scripts: seq<CallScript>)
    ensures (forall schedule :: UpdatesPending({}, Parallel(tools, calls, scripts, schedule).events))
            <==> Exclusive(Preflight(tools, calls, scripts).entries)
  {
    var entries := Preflight(tools, calls, scripts).entries;
    if Exclusive(entries) {
      forall schedule ensures UpdatesPending({}, Parallel(tools, calls, scripts, schedule).events) {
        ExclusiveCovers(tools, calls, scripts, schedule);
      }
    } else {
      var i, j :| 0 <= i < |entries| && 0 <= j < |entries| && i != j && entries[i].Runs() && entries[j].Id() == entries[i].Id()
        && !(j < i && entries[j].Ready?);
      if k :| 0 <= k < |entries| && k != i && entries[k].Id() == entries[i].Id() && entries[k].Task? {
        var schedule := SharedIdBreaks(tools, calls, scripts, i, k);
      } else {
        var schedule := SharedIdBreaks(tools, calls, scripts, i, j);
      }
    }
  }

  // ----- what is declared and what runs -----

  const FIRST_BASH := Tool("bash", "v1")

  const SECOND_BASH := Tool("bash", "v2")

  /** Two definitions of one name, none declared before. */
  const TWO_BASHES := Context([], [AgentTool(FIRST_BASH, false), AgentTool(SECOND_BASH, false)])

  /** The declaration tells the model of the second definition alone, while a call runs the first. */
  lemma AmbiguousToolCounterexample()
    ensures var declared := Replay([], TWO_BASHES.messages + DeclareChanges(TWO_BASHES, []));
            && declared == [SECOND_BASH]
            && FindTool(TWO_BASHES.tools, "bash") == Some(AgentTool(FIRST_BASH, false))
            && !Declares(TWO_BASHES.(messages := DeclareChanges(TWO_BASHES, [])))
  {
    var current := Declarations(TWO_BASHES.tools);
    var both := [FIRST_BASH, SECOND_BASH];
    assert current == both && both[1..] == [SECOND_BASH] && both[1..][1..] == [];
    assert TWO_BASHES.messages + [] == [];
    assert Committed(TWO_BASHES, []) == [];
    assert Additions([], both[1..]) == [SECOND_BASH];
    assert ToolStateChanges([], current) == Changes(both, []);
    DeclaredReplay(TWO_BASHES, []);
    assert Put([], FIRST_BASH) == [FIRST_BASH] && Put([FIRST_BASH], SECOND_BASH) == [SECOND_BASH] by {
      assert [FIRST_BASH][1..] == [];
    }
    assert PutAll([FIRST_BASH], [SECOND_BASH]) == [SECOND_BASH] by { assert [SECOND_BASH][1..] == []; }
    assert PutAll([], both) == [SECOND_BASH];
    assert TWO_BASHES.messages + DeclareChanges(TWO_BASHES, []) == DeclareChanges(TWO_BASHES, []);
    assert FIRST_BASH in current;
  }
}
