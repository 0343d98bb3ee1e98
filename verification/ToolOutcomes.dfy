/** What the calls of a batch yield, stated against what their tools and hooks answered: which calls
  run, what their results say, what they report meanwhile, and when the batch ends the run. */
module ToolOutcomes {
  import opened Wrappers
  import opened Transcript
  import opened Events
  import opened ToolBatch
  import opened ToolBatchProofs

  function ScriptOf(scripts: seq<CallScript>, i: nat): CallScript {
    if i < |scripts| then scripts[i] else DEFAULT_SCRIPT
  }

  // ----- calls that never reach their tool -----

  predicate Missing(tools: seq<AgentTool>, call: ToolCall) {
    forall j :: 0 <= j < |tools| ==> tools[j].declaration.name != call.name
  }

  /** The hook was asked and let the signal or a block stop the call. */
  predicate StoppedByHook(script: CallScript) {
    script.before.HookThrows? || (script.before.Answers? && (script.abortedDuringHook || script.before.block.Some?))
  }

  predicate Stopped(tools: seq<AgentTool>, call: ToolCall, script: CallScript) {
    Missing(tools, call) || script.invalid.Some? || StoppedByHook(script) || script.abortedBeforeRun
  }

  /** An error with a text and no wish to end the run. */
  predicate ErrorWith(result: Finalized, text: string) {
    result.isError && result.output == Output(Some(text), None)
  }

  /** A call that does not reach its tool says why. */
  ghost predicate Explained(tools: seq<AgentTool>, call: ToolCall, script: CallScript, result: Finalized) {
    && (Missing(tools, call) ==> ErrorWith(result, "Tool " + call.name + " not found"))
    && (!Missing(tools, call) && script.invalid.Some? ==> ErrorWith(result, script.invalid.value))
    && (!Missing(tools, call) && script.invalid.None? && StoppedByHook(script) ==>
          && (script.before.HookThrows? ==> ErrorWith(result, script.before.reason))
          && (script.before.Answers? && script.abortedDuringHook ==> ErrorWith(result, "Operation aborted"))
          && (script.before.Answers? && !script.abortedDuringHook && script.before.block.Some? ==>
                var block := script.before.block.value;
                && result.isError
                && result.output.content == Some(if block.reason == "" then "Tool execution was blocked" else block.reason)
                && result.output.terminate == if block.terminate then Some(true) else None))
    && (!Missing(tools, call) && script.invalid.None? && !StoppedByHook(script) && script.abortedBeforeRun ==>
          ErrorWith(result, "Operation aborted"))
  }

  /** What the tool answered: its output, or an error with the text it threw. */
  function Answer(execution: Execution): Output {
    match execution
    case Returns(output) => output
    case Throws(reason) => Output(Some(reason), None)
  }

  /** A call that ran has the result of its execution, replaced field by field where the hook after it
    says so. */
  ghost predicate Executed(script: CallScript, result: Finalized) {
    match script.after
    case AfterThrows(reason) => ErrorWith(result, reason)
    case Keeps => result.output == Answer(script.execution) && result.isError == script.execution.Throws?
    case Overrides(content, terminate, isError) =>
      && result.output.content == (if content.Some? then content else Answer(script.execution).content)
      && result.output.terminate == (if terminate.Some? then terminate else Answer(script.execution).terminate)
      && result.isError == (if isError.Some? then isError.value else script.execution.Throws?)
  }

  /** The result that a call must have; in a parallel batch an abort may also come between the
    preparation of a call and its start. */
  ghost predicate Yields(tools: seq<AgentTool>, call: ToolCall, script: CallScript, concurrent: bool, result: Finalized) {
    && result.call == call
    && (Stopped(tools, call, script) ==> Explained(tools, call, script, result))
    && (!Stopped(tools, call, script) && concurrent && script.abortedAtStart ==> ErrorWith(result, "Operation aborted"))
    && (!Stopped(tools, call, script) && !(concurrent && script.abortedAtStart) ==> Executed(script, result))
  }

  /** Calls are answered up to the first one after which the executor sees an abort. */
  ghost predicate UpToAbort(calls: seq<ToolCall>, scripts: seq<CallScript>, answered: nat) {
    && answered <= |calls|
    && (calls != [] ==> answered > 0)
    && (forall j :: 0 <= j < answered - 1 ==> !ScriptOf(scripts, j).abortedAfter)
    && (0 < answered < |calls| ==> ScriptOf(scripts, answered - 1).abortedAfter)
  }

  lemma {:induction false} FoundUnlessMissing(tools: seq<AgentTool>, call: ToolCall)
    ensures FindTool(tools, call.name).None? <==> Missing(tools, call)
  {
    if tools != [] {
      FoundUnlessMissing(tools[1..], call);
      if Missing(tools[1..], call) && tools[0].declaration.name != call.name {
        forall j | 0 <= j < |tools| ensures tools[j].declaration.name != call.name {
          if j > 0 { assert tools[j] == tools[1..][j - 1]; }
        }
      }
      if Missing(tools, call) {
        forall j | 0 <= j < |tools[1..]| ensures tools[1..][j].declaration.name != call.name {
          assert tools[1..][j] == tools[j + 1];
        }
      }
    }
  }

  lemma AloneYields(tools: seq<AgentTool>, call: ToolCall, script: CallScript)
    ensures Yields(tools, call, script, false, RunAlone(tools, call, script).0)
    ensures Yields(tools, call, script, true, EntryFor(tools, call, script).Outcome())
    ensures EntryFor(tools, call, script).Task? <==> !Stopped(tools, call, script)
    ensures EntryFor(tools, call, script).Task? ==> EntryFor(tools, call, script) == Task(call, script)
  {
    FoundUnlessMissing(tools, call);
  }

  lemma ScriptStep(scripts: seq<CallScript>, i: nat)
    requires i > 0
    ensures ScriptOf(scripts, i) == ScriptOf(Rest(scripts), i - 1)
  {
  }

  lemma {:induction false} UpToAbortStep(calls: seq<ToolCall>, scripts: seq<CallScript>, answered: nat)
    requires calls != []
    requires if Head(scripts).abortedAfter then answered == 0 else UpToAbort(calls[1..], Rest(scripts), answered)
    ensures UpToAbort(calls, scripts, answered + 1)
  {
    assert ScriptOf(scripts, 0) == Head(scripts);
    forall j | 0 <= j < answered ensures !ScriptOf(scripts, j).abortedAfter {
      if j > 0 { ScriptStep(scripts, j); }
    }
    if 0 < answered { ScriptStep(scripts, answered); }
  }

  /** One after the other: each answered call has the result its tool and hooks gave it. */
  lemma {:induction false} SequentialYields(tools: seq<AgentTool>, calls: seq<ToolCall>, scripts: seq<CallScript>)
    ensures var finals := Sequential(tools, calls, scripts).finals;
            && UpToAbort(calls, scripts, |finals|)
            && forall i :: 0 <= i < |finals| ==> Yields(tools, calls[i], ScriptOf(scripts, i), false, finals[i])
    decreases calls
  {
    hide RunAlone, Yields, CallEvents;
    if calls != [] {
      var first := RunAlone(tools, calls[0], Head(scripts)).0;
      var rest := if Head(scripts).abortedAfter then [] else Sequential(tools, calls[1..], Rest(scripts)).finals;
      var finals := Sequential(tools, calls, scripts).finals;
      assert finals == [first] + rest;
      AloneYields(tools, calls[0], Head(scripts));
      SequentialYields(tools, calls[1..], Rest(scripts));
      UpToAbortStep(calls, scripts, |rest|);
      forall i | 0 <= i < |finals| ensures Yields(tools, calls[i], ScriptOf(scripts, i), false, finals[i]) {
        if i > 0 {
          ScriptStep(scripts, i);
          assert calls[1..][i - 1] == calls[i] && finals[i] == rest[i - 1];
        }
      }
    }
  }

  /** What preparation looks at: the calls up to the first abort, each on its own. */
  lemma {:induction false} PreflightEntries(tools: seq<AgentTool>, calls: seq<ToolCall>, scripts: seq<CallScript>)
    ensures var entries := Preflight(tools, calls, scripts).entries;
            && UpToAbort(calls, scripts, |entries|)
            && forall i :: 0 <= i < |entries| ==> entries[i] == EntryFor(tools, calls[i], ScriptOf(scripts, i))
    decreases calls
  {
    hide EntryFor, EntryEvents;
    if calls != [] {
      var first := EntryFor(tools, calls[0], Head(scripts));
      var rest := if Head(scripts).abortedAfter then [] else Preflight(tools, calls[1..], Rest(scripts)).entries;
      var entries := Preflight(tools, calls, scripts).entries;
      assert entries == [first] + rest;
      PreflightEntries(tools, calls[1..], Rest(scripts));
      UpToAbortStep(calls, scripts, |rest|);
      forall i | 0 <= i < |entries| ensures entries[i] == EntryFor(tools, calls[i], ScriptOf(scripts, i)) {
        if i > 0 {
          ScriptStep(scripts, i);
          assert calls[1..][i - 1] == calls[i] && entries[i] == rest[i - 1];
        }
      }
    }
  }

  /** Under every schedule: the same, with aborts between preparation and start. */
  lemma ParallelYields(tools: seq<AgentTool>, calls: seq<ToolCall>, scripts: seq<CallScript>, schedule: seq<Action>)
    ensures var finals := Parallel(tools, calls, scripts, schedule).finals;
            && UpToAbort(calls, scripts, |finals|)
            && forall i :: 0 <= i < |finals| ==> Yields(tools, calls[i], ScriptOf(scripts, i), true, finals[i])
  {
    hide Parallel, Yields, Preflight, ActAll, Slots, Drain, EntryFor, Entry.Outcome;
    ParallelOutcomes(tools, calls, scripts, schedule);
    PreflightEntries(tools, calls, scripts);
    var finals := Parallel(tools, calls, scripts, schedule).finals;
    forall i | 0 <= i < |finals| ensures Yields(tools, calls[i], ScriptOf(scripts, i), true, finals[i]) {
      AloneYields(tools, calls[i], ScriptOf(scripts, i));
    }
  }

  /** The result messages say what the results are. */
  lemma MessagesSay(batch: Batch, i: nat)
    requires i < |batch.finals|
    ensures var result := batch.finals[i];
            && |batch.Messages()| == |batch.finals|
            && batch.Messages()[i].body == ToolResult(result.call.id, result.call.name,
                 if result.output.content.Some? then result.output.content.value else "", result.isError)
  {
  }

  // ----- what a stopped call does not depend on -----

  /** Two scripts of a call that differ at most in what a stopped call never asks for. */
  ghost predicate Agree(tools: seq<AgentTool>, call: ToolCall, one: CallScript, other: CallScript) {
    || one == other
    || (&& Stopped(tools, call, one)
        && other == one.(execution := other.execution, after := other.after, updates := other.updates, abortedAtStart := other.abortedAtStart))
  }

  ghost predicate AllAgree(tools: seq<AgentTool>, calls: seq<ToolCall>, one: seq<CallScript>, other: seq<CallScript>) {
    forall i :: 0 <= i < |calls| ==> Agree(tools, calls[i], ScriptOf(one, i), ScriptOf(other, i))
  }

  lemma AgreeTail(tools: seq<AgentTool>, calls: seq<ToolCall>, one: seq<CallScript>, other: seq<CallScript>)
    requires calls != [] && AllAgree(tools, calls, one, other)
    ensures Agree(tools, calls[0], Head(one), Head(other))
    ensures AllAgree(tools, calls[1..], Rest(one), Rest(other))
  {
    assert ScriptOf(one, 0) == Head(one) && ScriptOf(other, 0) == Head(other);
    forall i | 0 <= i < |calls[1..]| ensures Agree(tools, calls[1..][i], ScriptOf(Rest(one), i), ScriptOf(Rest(other), i)) {
      ScriptStep(one, i + 1);
      ScriptStep(other, i + 1);
      assert Agree(tools, calls[i + 1], ScriptOf(one, i + 1), ScriptOf(other, i + 1));
    }
  }

  lemma AloneAgrees(tools: seq<AgentTool>, call: ToolCall, one: CallScript, other: CallScript)
    requires Agree(tools, call, one, other)
    ensures RunAlone(tools, call, one) == RunAlone(tools, call, other)
    ensures EntryFor(tools, call, one) == EntryFor(tools, call, other)
    ensures one.abortedAfter == other.abortedAfter
  {
    FoundUnlessMissing(tools, call);
  }

  lemma {:induction false} SequentialIgnoresStopped(tools: seq<AgentTool>, calls: seq<ToolCall>, one: seq<CallScript>, other: seq<CallScript>)
    requires AllAgree(tools, calls, one, other)
    ensures Sequential(tools, calls, one) == Sequential(tools, calls, other)
    decreases calls
  {
    hide RunAlone, CallEvents, AllAgree, Agree;
    if calls != [] {
      AgreeTail(tools, calls, one, other);
      AloneAgrees(tools, calls[0], Head(one), Head(other));
      SequentialIgnoresStopped(tools, calls[1..], Rest(one), Rest(other));
    }
  }

  lemma {:induction false} PreflightIgnoresStopped(tools: seq<AgentTool>, calls: seq<ToolCall>, one: seq<CallScript>, other: seq<CallScript>)
    requires AllAgree(tools, calls, one, other)
    ensures Preflight(tools, calls, one) == Preflight(tools, calls, other)
    decreases calls
  {
    hide EntryFor, EntryEvents, AllAgree, Agree;
    if calls != [] {
      AgreeTail(tools, calls, one, other);
      AloneAgrees(tools, calls[0], Head(one), Head(other));
      PreflightIgnoresStopped(tools, calls[1..], Rest(one), Rest(other));
    }
  }

  /** A call that is missing, invalid, blocked or aborted before it runs never asks its tool, the hook
    after it or for updates: the whole batch is the same whatever those would answer. */
  lemma StoppedCallsNeverRun(tools: seq<AgentTool>, calls: seq<ToolCall>, truncated: bool, one: BatchScript, other: BatchScript)
    requires one.sequential == other.sequential && one.schedule == other.schedule
    requires AllAgree(tools, calls, one.scripts, other.scripts)
    ensures Execute(tools, calls, truncated, one) == Execute(tools, calls, truncated, other)
  {
    hide Sequential, Preflight, ActAll, AllAgree;
    SequentialIgnoresStopped(tools, calls, one.scripts, other.scripts);
    PreflightIgnoresStopped(tools, calls, one.scripts, other.scripts);
  }

  // ----- updates -----

  function UpdatesOf(events: seq<Event>, id: string): seq<string> {
    if events == [] then []
    else if events[0].ToolUpdate? && events[0].callId == id then [events[0].partial] + UpdatesOf(events[1..], id)
    else UpdatesOf(events[1..], id)
  }

  lemma {:induction false} UpdatesOfAppend(left: seq<Event>, right: seq<Event>, id: string)
    ensures UpdatesOf(left + right, id) == UpdatesOf(left, id) + UpdatesOf(right, id)
  {
    if left == [] {
      assert left + right == right;
    } else {
      assert (left + right)[0] == left[0] && (left + right)[1..] == left[1..] + right;
      UpdatesOfAppend(left[1..], right, id);
    }
  }

  lemma {:induction false} NoUpdatesOf(events: seq<Event>, id: string)
    requires forall i :: 0 <= i < |events| ==> !events[i].ToolUpdate?
    ensures UpdatesOf(events, id) == []
  {
    if events != [] { NoUpdatesOf(events[1..], id); }
  }

  lemma {:induction false} UpdatesOfUpdates(call: ToolCall, partials: seq<string>, id: string)
    ensures UpdatesOf(Updates(call, partials), id) == if call.id == id then partials else []
  {
    if partials != [] {
      assert Updates(call, partials)[1..] == Updates(call, partials[1..]);
      UpdatesOfUpdates(call, partials[1..], id);
    }
  }

  lemma {:induction false} AnnounceNoUpdates(messages: seq<Message>)
    ensures forall i :: 0 <= i < |Announce(messages)| ==> !Announce(messages)[i].ToolUpdate?
  {
    if messages != [] { AnnounceNoUpdates(messages[1..]); }
  }

  lemma CallUpdates(finalized: Finalized, partials: seq<string>, id: string)
    ensures UpdatesOf(CallEvents(finalized, Updates(finalized.call, partials)), id) == if finalized.call.id == id then partials else []
  {
    hide UpdatesOf, Announce, Updates;
    var updates, result := Updates(finalized.call, partials), Announce([ResultMessage(finalized)]);
    var start, end := [ToolStart(finalized.call.id)], [EndOf(finalized)];
    UpdatesOfAppend(start, updates, id);
    UpdatesOfAppend(start + updates, end, id);
    UpdatesOfAppend(start + updates + end, result, id);
    NoUpdatesOf(start, id);
    NoUpdatesOf(end, id);
    AnnounceNoUpdates([ResultMessage(finalized)]);
    NoUpdatesOf(result, id);
    UpdatesOfUpdates(finalized.call, partials, id);
  }

  /** What the calls with an id report, one call after the other. */
  function Reported(tools: seq<AgentTool>, calls: seq<ToolCall>, scripts: seq<CallScript>, id: string): seq<string>
    decreases calls
  {
    if calls == [] then []
    else
      var rest := if Head(scripts).abortedAfter then [] else Reported(tools, calls[1..], Rest(scripts), id);
      if calls[0].id == id && !Stopped(tools, calls[0], Head(scripts)) then Head(scripts).updates + rest else rest
  }

  /** A sequential batch passes on exactly what its running calls report, in order. */
  lemma {:induction false} SequentialReports(tools: seq<AgentTool>, calls: seq<ToolCall>, scripts: seq<CallScript>, id: string)
    ensures UpdatesOf(Sequential(tools, calls, scripts).events, id) == Reported(tools, calls, scripts, id)
    decreases calls
  {
    hide UpdatesOf, CallEvents, RunAlone, Stopped, Updates;
    if calls == [] {
      NoUpdatesOf([], id);
    } else {
      var first := RunAlone(tools, calls[0], Head(scripts));
      var partials := if Stopped(tools, calls[0], Head(scripts)) then [] else Head(scripts).updates;
      var rest := if Head(scripts).abortedAfter then [] else Sequential(tools, calls[1..], Rest(scripts)).events;
      AloneReports(tools, calls[0], Head(scripts));
      CallUpdates(first.0, partials, id);
      if Head(scripts).abortedAfter { NoUpdatesOf([], id); } else { SequentialReports(tools, calls[1..], Rest(scripts), id); }
      UpdatesOfAppend(CallEvents(first.0, first.1), rest, id);
    }
  }

  lemma AloneReports(tools: seq<AgentTool>, call: ToolCall, script: CallScript)
    ensures var (result, updates) := RunAlone(tools, call, script);
            result.call == call && updates == Updates(call, if Stopped(tools, call, script) then [] else script.updates)
  {
    FoundUnlessMissing(tools, call);
    assert Updates(call, []) == [];
  }

  datatype Phase = Before | During | Over

  /** What a running call reports in a schedule: after it starts and before it settles. */
  function Accepted(schedule: seq<Action>, i: nat, phase: Phase): seq<string>
    decreases schedule
  {
    if schedule == [] then []
    else if schedule[0].task != i then Accepted(schedule[1..], i, phase)
    else
      match schedule[0]
      case Start(_) => Accepted(schedule[1..], i, if phase == Before then During else phase)
      case Report(_, partial) =>
        if phase == During then [partial] + Accepted(schedule[1..], i, phase) else Accepted(schedule[1..], i, phase)
      case Settle(_) => Accepted(schedule[1..], i, if phase == During then Over else phase)
      case Finish(_) => Accepted(schedule[1..], i, phase)
  }

  function PhaseOf(slot: Slot): Phase {
    match slot
    case Waiting => Before
    case Running => During
    case _ => Over
  }

  /** No other task has the id of this one. */
  ghost predicate OwnId(entries: seq<Entry>, i: nat) {
    i < |entries| && entries[i].Runs() && forall j :: 0 <= j < |entries| && j != i && entries[j].Task? ==> entries[j].Id() != entries[i].Id()
  }

  lemma ActReports(entries: seq<Entry>, slots: seq<Slot>, action: Action, i: nat)
    requires |slots| == |entries| && OwnId(entries, i)
    ensures var one := Act(entries, slots, action);
            && |one.slots| == |entries|
            && PhaseOf(one.slots[i]) ==
               (if action.task != i then PhaseOf(slots[i])
                else if action.Start? && PhaseOf(slots[i]) == Before then During
                else if action.Settle? && PhaseOf(slots[i]) == During then Over else PhaseOf(slots[i]))
            && UpdatesOf(one.events, entries[i].Id()) ==
               if action.task == i && action.Report? && PhaseOf(slots[i]) == During then [action.partial] else []
  {
    var one := Act(entries, slots, action);
    if one.events != [] { assert one.events[1..] == []; }
  }

  lemma {:induction false} ActAllReports(entries: seq<Entry>, slots: seq<Slot>, schedule: seq<Action>, i: nat)
    requires i < |slots| == |entries| && OwnId(entries, i)
    ensures UpdatesOf(ActAll(entries, slots, schedule).events, entries[i].Id()) == Accepted(schedule, i, PhaseOf(slots[i]))
    decreases schedule
  {
    hide Act, OwnId, UpdatesOf, PhaseOf, Entry.Id;
    var id := entries[i].Id();
    if schedule == [] {
      NoUpdatesOf([], id);
    } else {
      var one := Act(entries, slots, schedule[0]);
      ActReports(entries, slots, schedule[0], i);
      ActAllReports(entries, one.slots, schedule[1..], i);
      UpdatesOfAppend(one.events, ActAll(entries, one.slots, schedule[1..]).events, id);
    }
  }

  lemma {:induction false} AcceptedAppend(schedule: seq<Action>, more: seq<Action>, i: nat, phase: Phase)
    requires forall k :: 0 <= k < |more| ==> !more[k].Report?
    ensures Accepted(schedule + more, i, phase) == Accepted(schedule, i, phase)
    decreases |schedule| + |more|
  {
    if schedule != [] {
      assert (schedule + more)[0] == schedule[0] && (schedule + more)[1..] == schedule[1..] + more;
      AcceptedAppend(schedule[1..], more, i, phase);
      AcceptedAppend(schedule[1..], more, i, During);
      AcceptedAppend(schedule[1..], more, i, Over);
    } else {
      assert schedule + more == more;
      if more != [] {
        assert [] + more[1..] == more[1..];
        AcceptedAppend([], more[1..], i, phase);
        AcceptedAppend([], more[1..], i, During);
        AcceptedAppend([], more[1..], i, Over);
      }
    }
  }

  lemma {:induction false} DrainSilent(count: nat)
    ensures forall k :: 0 <= k < |Drain(count)| ==> !Drain(count)[k].Report?
  {
    if count > 0 { DrainSilent(count - 1); }
  }

  ghost predicate Quiet(events: seq<Event>) {
    forall k :: 0 <= k < |events| ==> !events[k].ToolUpdate?
  }

  lemma QuietAppend(left: seq<Event>, right: seq<Event>)
    requires Quiet(left) && Quiet(right)
    ensures Quiet(left + right)
  {
  }

  lemma EntryQuiet(entry: Entry)
    ensures Quiet(EntryEvents(entry))
  {
  }

  lemma {:induction false} PreflightQuiet(tools: seq<AgentTool>, calls: seq<ToolCall>, scripts: seq<CallScript>)
    ensures Quiet(Preflight(tools, calls, scripts).events)
    decreases calls
  {
    hide EntryFor, EntryEvents;
    if calls != [] {
      var entry := EntryFor(tools, calls[0], Head(scripts));
      var rest := if Head(scripts).abortedAfter then [] else Preflight(tools, calls[1..], Rest(scripts)).events;
      PreflightQuiet(tools, calls[1..], Rest(scripts));
      EntryQuiet(entry);
      QuietAppend(EntryEvents(entry), rest);
    }
  }

  /** A parallel batch passes on exactly what a running call with an id of its own reports between its
    start and its settlement, in order. */
  lemma ParallelReports(tools: seq<AgentTool>, calls: seq<ToolCall>, scripts: seq<CallScript>, schedule: seq<Action>, i: nat)
    requires OwnId(Preflight(tools, calls, scripts).entries, i)
    ensures i < |calls| && !Stopped(tools, calls[i], ScriptOf(scripts, i))
    ensures UpdatesOf(Parallel(tools, calls, scripts, schedule).events, calls[i].id) == Accepted(schedule, i, Before)
  {
    hide UpdatesOf, Preflight, ActAll, Announce, Accepted, Drain, EntryFor, Stopped, Yields;
    var flight := Preflight(tools, calls, scripts);
    var entries := flight.entries;
    var drained := schedule + Drain(|entries|);
    var all := ActAll(entries, Slots(entries), drained);
    var batch := Parallel(tools, calls, scripts, schedule);
    PreflightEntries(tools, calls, scripts);
    AloneYields(tools, calls[i], ScriptOf(scripts, i));
    var id := calls[i].id;
    PreflightQuiet(tools, calls, scripts);
    NoUpdatesOf(flight.events, id);
    ActAllReports(entries, Slots(entries), drained, i);
    DrainSilent(|entries|);
    AcceptedAppend(schedule, Drain(|entries|), i, Before);
    AnnounceNoUpdates(batch.Messages());
    NoUpdatesOf(Announce(batch.Messages()), id);
    UpdatesOfAppend(flight.events, all.events, id);
    UpdatesOfAppend(flight.events + all.events, Announce(batch.Messages()), id);
  }

  // ----- a stopped call reports nothing -----

  /** Some call with this id reaches its tool. */
  ghost predicate Reaches(tools: seq<AgentTool>, calls: seq<ToolCall>, scripts: seq<CallScript>, id: string) {
    exists i :: 0 <= i < |calls| && calls[i].id == id && !Stopped(tools, calls[i], ScriptOf(scripts, i))
  }

  lemma {:induction false} ReportedReaches(tools: seq<AgentTool>, calls: seq<ToolCall>, scripts: seq<CallScript>, id: string)
    requires !Reaches(tools, calls, scripts, id)
    ensures Reported(tools, calls, scripts, id) == []
    decreases calls
  {
    hide Stopped;
    if calls != [] {
      assert ScriptOf(scripts, 0) == Head(scripts);
      forall i | 0 <= i < |calls[1..]| && calls[1..][i].id == id ensures Stopped(tools, calls[1..][i], ScriptOf(Rest(scripts), i)) {
        ScriptStep(scripts, i + 1);
        assert calls[i + 1].id == id;
      }
      ReportedReaches(tools, calls[1..], Rest(scripts), id);
    }
  }

  lemma {:induction false} ActAllSilent(entries: seq<Entry>, slots: seq<Slot>, schedule: seq<Action>, id: string)
    requires |slots| == |entries| && forall i :: 0 <= i < |entries| && entries[i].Task? ==> entries[i].Id() != id
    ensures UpdatesOf(ActAll(entries, slots, schedule).events, id) == []
    decreases schedule
  {
    hide UpdatesOf, Entry.Id;
    if schedule == [] {
      NoUpdatesOf([], id);
    } else {
      var one := Act(entries, slots, schedule[0]);
      ActSilent(entries, slots, schedule[0], id);
      ActAllSilent(entries, one.slots, schedule[1..], id);
      UpdatesOfAppend(one.events, ActAll(entries, one.slots, schedule[1..]).events, id);
    }
  }

  lemma ActSilent(entries: seq<Entry>, slots: seq<Slot>, action: Action, id: string)
    requires |slots| == |entries| && forall i :: 0 <= i < |entries| && entries[i].Task? ==> entries[i].Id() != id
    ensures UpdatesOf(Act(entries, slots, action).events, id) == []
  {
    var events := Act(entries, slots, action).events;
    if events != [] { assert events[1..] == []; }
  }

  /** No update carries an id of which every call is missing, invalid, blocked or aborted beforehand. */
  lemma StoppedCallsAreSilent(tools: seq<AgentTool>, calls: seq<ToolCall>, truncated: bool, script: BatchScript, id: string)
    requires !Reaches(tools, calls, script.scripts, id)
    ensures UpdatesOf(Execute(tools, calls, truncated, script).events, id) == []
  {
    hide UpdatesOf, Sequential, Parallel, FailAll, Reaches, Reported;
    if truncated {
      FailAllSilent(calls, id);
    } else if script.sequential || HasSequentialTool(tools, calls) {
      SequentialReports(tools, calls, script.scripts, id);
      ReportedReaches(tools, calls, script.scripts, id);
    } else {
      ParallelSilent(tools, calls, script.scripts, script.schedule, id);
    }
  }

  lemma {:induction false} FailAllSilent(calls: seq<ToolCall>, id: string)
    ensures UpdatesOf(FailAll(calls).events, id) == []
  {
    hide UpdatesOf, CallEvents, Updates;
    if calls == [] {
      NoUpdatesOf([], id);
    } else {
      var finalized := Failed(calls[0], TRUNCATED);
      CallUpdates(finalized, [], id);
      NoPartials(finalized.call);
      FailAllSilent(calls[1..], id);
      UpdatesOfAppend(CallEvents(finalized, []), FailAll(calls[1..]).events, id);
    }
  }

  lemma NoPartials(call: ToolCall)
    ensures Updates(call, []) == []
  {
  }

  lemma ParallelSilent(tools: seq<AgentTool>, calls: seq<ToolCall>, scripts: seq<CallScript>, schedule: seq<Action>, id: string)
    requires !Reaches(tools, calls, scripts, id)
    ensures UpdatesOf(Parallel(tools, calls, scripts, schedule).events, id) == []
  {
    hide UpdatesOf, Preflight, ActAll, Announce, Drain, EntryFor, Stopped, Yields;
    var flight := Preflight(tools, calls, scripts);
    var entries := flight.entries;
    var all := ActAll(entries, Slots(entries), schedule + Drain(|entries|));
    var batch := Parallel(tools, calls, scripts, schedule);
    PreflightEntries(tools, calls, scripts);
    forall i | 0 <= i < |entries| && entries[i].Task? ensures entries[i].Id() != id {
      AloneYields(tools, calls[i], ScriptOf(scripts, i));
    }
    PreflightQuiet(tools, calls, scripts);
    NoUpdatesOf(flight.events, id);
    ActAllSilent(entries, Slots(entries), schedule + Drain(|entries|), id);
    AnnounceNoUpdates(batch.Messages());
    NoUpdatesOf(Announce(batch.Messages()), id);
    UpdatesOfAppend(flight.events, all.events, id);
    UpdatesOfAppend(flight.events + all.events, Announce(batch.Messages()), id);
  }

  // ----- ends -----

  /** The ends of calls, each with its error flag. */
  function Ends(events: seq<Event>): seq<(string, bool)> {
    if events == [] then []
    else if events[0].ToolEnd? then [(events[0].callId, events[0].isError)] + Ends(events[1..])
    else Ends(events[1..])
  }

  lemma {:induction false} EndsAppend(left: seq<Event>, right: seq<Event>)
    ensures Ends(left + right) == Ends(left) + Ends(right)
  {
    if left == [] {
      assert left + right == right;
    } else {
      assert (left + right)[0] == left[0] && (left + right)[1..] == left[1..] + right;
      EndsAppend(left[1..], right);
    }
  }

  lemma {:induction false} NoEnds(events: seq<Event>)
    requires forall i :: 0 <= i < |events| ==> !events[i].ToolEnd?
    ensures Ends(events) == []
  {
    if events != [] { NoEnds(events[1..]); }
  }

  /** The ends that the results call for. */
  function EndsFor(finals: seq<Finalized>): seq<(string, bool)> {
    if finals == [] then [] else [(finals[0].call.id, finals[0].isError)] + EndsFor(finals[1..])
  }

  lemma CallEnds(finalized: Finalized, partials: seq<string>)
    ensures Ends(CallEvents(finalized, Updates(finalized.call, partials))) == [(finalized.call.id, finalized.isError)]
  {
    hide Announce;
    var updates, result := Updates(finalized.call, partials), Announce([ResultMessage(finalized)]);
    var start, end := [ToolStart(finalized.call.id)], [EndOf(finalized)];
    EndsAppend(start, updates);
    EndsAppend(start + updates, end);
    EndsAppend(start + updates + end, result);
    NoEnds(start);
    NoEnds(updates);
    assert end[1..] == [];
    AnnounceNoEnds([ResultMessage(finalized)]);
    NoEnds(result);
  }

  lemma {:induction false} AnnounceNoEnds(messages: seq<Message>)
    ensures forall i :: 0 <= i < |Announce(messages)| ==> !Announce(messages)[i].ToolEnd?
  {
    if messages != [] { AnnounceNoEnds(messages[1..]); }
  }

  lemma {:induction false} SequentialEnds(tools: seq<AgentTool>, calls: seq<ToolCall>, scripts: seq<CallScript>)
    ensures Ends(Sequential(tools, calls, scripts).events) == EndsFor(Sequential(tools, calls, scripts).finals)
    decreases calls
  {
    hide CallEvents, RunAlone, Stopped, Updates;
    if calls != [] {
      var (first, updates) := RunAlone(tools, calls[0], Head(scripts));
      var rest := if Head(scripts).abortedAfter then Batch([], []) else Sequential(tools, calls[1..], Rest(scripts));
      AloneReports(tools, calls[0], Head(scripts));
      CallEnds(first, if Stopped(tools, calls[0], Head(scripts)) then [] else Head(scripts).updates);
      SequentialEnds(tools, calls[1..], Rest(scripts));
      EndsAppend(CallEvents(first, updates), rest.events);
      assert ([first] + rest.finals)[1..] == rest.finals;
    }
  }

  lemma {:induction false} FailAllEnds(calls: seq<ToolCall>)
    ensures Ends(FailAll(calls).events) == EndsFor(FailAll(calls).finals)
  {
    hide CallEvents;
    if calls != [] {
      var finalized := Failed(calls[0], TRUNCATED);
      NoPartials(finalized.call);
      CallEnds(finalized, []);
      FailAllEnds(calls[1..]);
      EndsAppend(CallEvents(finalized, []), FailAll(calls[1..]).events);
      assert ([finalized] + FailAll(calls[1..]).finals)[1..] == FailAll(calls[1..]).finals;
    }
  }

  /** The ends still to come. */
  function Pending(entries: seq<Entry>, slots: seq<Slot>): multiset<(string, bool)>
    requires |slots| == |entries|
  {
    if entries == [] then multiset{}
    else if slots[0].Done? then Pending(entries[1..], slots[1..])
    else multiset{(entries[0].Id(), entries[0].Outcome().isError)} + Pending(entries[1..], slots[1..])
  }

  lemma {:induction false} PendingUpdate(entries: seq<Entry>, slots: seq<Slot>, i: nat, slot: Slot)
    requires i < |slots| == |entries| && !slots[i].Done?
    ensures var end := (entries[i].Id(), entries[i].Outcome().isError);
            Pending(entries, slots) == if slot.Done? then multiset{end} + Pending(entries, slots[i := slot]) else Pending(entries, slots[i := slot])
    decreases entries
  {
    hide Entry.Id, Entry.Outcome;
    if i == 0 {
      assert slots[0 := slot][1..] == slots[1..];
    } else {
      assert slots[i := slot][1..] == slots[1..][i - 1 := slot] && slots[i := slot][0] == slots[0];
      PendingUpdate(entries[1..], slots[1..], i - 1, slot);
    }
  }

  lemma ActEnds(entries: seq<Entry>, slots: seq<Slot>, action: Action)
    requires |slots| == |entries|
    ensures var one := Act(entries, slots, action);
            && |one.slots| == |entries|
            && multiset(Ends(one.events)) + Pending(entries, one.slots) == Pending(entries, slots)
  {
    hide Pending, Act, Entry.Id, Entry.Outcome;
    var one := Act(entries, slots, action);
    ActShape(entries, slots, action);
    if one.events != [] { assert one.events[1..] == []; }
    if one != Progress(slots, []) { PendingUpdate(entries, slots, action.task, one.slots[action.task]); }
  }

  lemma {:induction false} ActAllEnds(entries: seq<Entry>, slots: seq<Slot>, schedule: seq<Action>)
    requires |slots| == |entries|
    ensures var all := ActAll(entries, slots, schedule);
            multiset(Ends(all.events)) + Pending(entries, all.slots) == Pending(entries, slots)
    decreases schedule
  {
    hide Act, Pending, Ends;
    if schedule == [] {
      NoEnds([]);
    } else {
      var one := Act(entries, slots, schedule[0]);
      ActEnds(entries, slots, schedule[0]);
      var rest := ActAll(entries, one.slots, schedule[1..]);
      ActAllEnds(entries, one.slots, schedule[1..]);
      EndsAppend(one.events, rest.events);
      assert multiset(Ends(one.events) + Ends(rest.events)) == multiset(Ends(one.events)) + multiset(Ends(rest.events));
    }
  }

  lemma {:induction false} NonePending(entries: seq<Entry>, slots: seq<Slot>)
    requires |slots| == |entries| && forall i :: 0 <= i < |slots| ==> slots[i].Done?
    ensures Pending(entries, slots) == multiset{}
    decreases entries
  {
    if entries != [] { NonePending(entries[1..], slots[1..]); }
  }

  lemma {:induction false} PreflightEnds(tools: seq<AgentTool>, calls: seq<ToolCall>, scripts: seq<CallScript>)
    ensures var flight := Preflight(tools, calls, scripts);
            multiset(Ends(flight.events)) + Pending(flight.entries, Slots(flight.entries)) == multiset(EndsFor(Outcomes(flight.entries)))
    decreases calls
  {
    hide EntryFor, EntryEvents, Entry.Id, Entry.Outcome, Pending, Ends;
    if calls == [] {
      NothingEnds();
    } else {
      var entry := EntryFor(tools, calls[0], Head(scripts));
      var rest := if Head(scripts).abortedAfter then Flight([], []) else Preflight(tools, calls[1..], Rest(scripts));
      if Head(scripts).abortedAfter {
        NothingEnds();
      } else {
        PreflightEnds(tools, calls[1..], Rest(scripts));
      }
      EntryNamesCall(tools, calls[0], Head(scripts));
      EntryEnds(entry, rest.entries);
      EndsAppend(EntryEvents(entry), rest.events);
      Shuffle(Ends(EntryEvents(entry)), Ends(rest.events), Pending([entry] + rest.entries, Slots([entry] + rest.entries)),
              multiset{(entry.Id(), entry.Outcome().isError)}, Pending(rest.entries, Slots(rest.entries)));
    }
  }

  lemma Shuffle<T>(one: seq<T>, two: seq<T>, all: multiset<T>, own: multiset<T>, rest: multiset<T>)
    requires multiset(one) + all == own + rest
    ensures multiset(one + two) + all == own + (multiset(two) + rest)
  {
    assert multiset(one + two) == multiset(one) + multiset(two);
    assert multiset(one) + multiset(two) + all == (multiset(one) + all) + multiset(two);
    assert own + rest + multiset(two) == own + (multiset(two) + rest);
  }

  lemma NothingEnds()
    ensures Slots([]) == [] && Outcomes([]) == [] && multiset(Ends([])) + Pending([], []) == multiset(EndsFor([]))
  {
  }

  lemma EntryNamesCall(tools: seq<AgentTool>, call: ToolCall, script: CallScript)
    ensures var entry := EntryFor(tools, call, script); entry.Outcome().call.id == entry.Id()
  {
  }

  lemma EntryEnds(entry: Entry, rest: seq<Entry>)
    requires entry.Outcome().call.id == entry.Id()
    ensures var all := [entry] + rest;
            && multiset(Ends(EntryEvents(entry))) + Pending(all, Slots(all))
               == multiset{(entry.Id(), entry.Outcome().isError)} + Pending(rest, Slots(rest))
            && multiset(EndsFor(Outcomes(all))) == multiset{(entry.Id(), entry.Outcome().isError)} + multiset(EndsFor(Outcomes(rest)))
  {
    var all := [entry] + rest;
    assert all[1..] == rest && Slots(all)[1..] == Slots(rest);
    assert Outcomes(all)[1..] == Outcomes(rest);
    var events := EntryEvents(entry);
    assert events[1..] == if entry.Ready? then [EndOf(entry.finalized)] else [];
    if entry.Ready? { assert events[1..][1..] == []; }
    assert Ends(events) == Ends(events[1..]) == if entry.Ready? then [(entry.Id(), entry.Outcome().isError)] else [];
    assert Pending(all, Slots(all)) == if entry.Ready? then Pending(rest, Slots(rest))
                                       else multiset{(entry.Id(), entry.Outcome().isError)} + Pending(rest, Slots(rest));
    var first := [(entry.Id(), entry.Outcome().isError)];
    assert EndsFor(Outcomes(all)) == first + EndsFor(Outcomes(rest));
  }

  /** Every batch ends each answered call once, with the error flag of its result; in source order
    unless the calls run concurrently. */
  lemma BatchEnds(tools: seq<AgentTool>, calls: seq<ToolCall>, truncated: bool, script: BatchScript)
    ensures var batch := Execute(tools, calls, truncated, script);
            multiset(Ends(batch.events)) == multiset(EndsFor(batch.finals))
  {
    hide Sequential, FailAll, Parallel, Ends, EndsFor;
    if truncated {
      FailAllEnds(calls);
    } else if script.sequential || HasSequentialTool(tools, calls) {
      SequentialEnds(tools, calls, script.scripts);
    } else {
      ParallelEnds(tools, calls, script.scripts, script.schedule);
    }
  }

  lemma ParallelEnds(tools: seq<AgentTool>, calls: seq<ToolCall>, scripts: seq<CallScript>, schedule: seq<Action>)
    ensures var batch := Parallel(tools, calls, scripts, schedule);
            multiset(Ends(batch.events)) == multiset(EndsFor(batch.finals))
  {
    hide Ends, EndsFor, Preflight, ActAll, Pending, Announce, Drain;
    var flight := Preflight(tools, calls, scripts);
    var entries := flight.entries;
    var all := ActAll(entries, Slots(entries), schedule + Drain(|entries|));
    var batch := Parallel(tools, calls, scripts, schedule);
    ParallelOutcomes(tools, calls, scripts, schedule);
    PreflightEnds(tools, calls, scripts);
    ActAllEnds(entries, Slots(entries), schedule + Drain(|entries|));
    NonePending(entries, all.slots);
    AnnounceNoEnds(batch.Messages());
    NoEnds(Announce(batch.Messages()));
    EndsAppend(flight.events, all.events);
    EndsAppend(flight.events + all.events, Announce(batch.Messages()));
    assert multiset(Ends(flight.events) + Ends(all.events)) == multiset(Ends(flight.events)) + multiset(Ends(all.events));
  }

  // ----- which executor, and whether the batch ends the run -----

  /** The tool that a call gets: the first one of its name. */
  ghost predicate Gets(tools: seq<AgentTool>, call: ToolCall, j: nat) {
    && j < |tools| && tools[j].declaration.name == call.name
    && forall k :: 0 <= k < j ==> tools[k].declaration.name != call.name
  }

  lemma {:induction false} FindsFirst(tools: seq<AgentTool>, call: ToolCall, j: nat)
    requires Gets(tools, call, j)
    ensures FindTool(tools, call.name) == Some(tools[j])
  {
    if j > 0 {
      assert tools[0].declaration.name != call.name;
      assert Gets(tools[1..], call, j - 1) by {
        assert forall k :: 0 <= k < j - 1 ==> tools[1..][k] == tools[k + 1];
      }
      FindsFirst(tools[1..], call, j - 1);
    }
  }

  lemma {:induction false} FindsSome(tools: seq<AgentTool>, call: ToolCall) returns (j: nat)
    requires FindTool(tools, call.name).Some?
    ensures Gets(tools, call, j)
  {
    if tools[0].declaration.name == call.name {
      j := 0;
    } else {
      var rest := FindsSome(tools[1..], call);
      j := rest + 1;
      forall k | 0 <= k < j ensures tools[k].declaration.name != call.name {
        if k > 0 { assert tools[k] == tools[1..][k - 1]; }
      }
    }
  }

  /** A batch runs one call after the other if and only if the loop is set to, or some call gets a tool
    that asks for it. */
  lemma ExecutorChoice(tools: seq<AgentTool>, calls: seq<ToolCall>, script: BatchScript)
    ensures (script.sequential || exists i: nat, j: nat :: i < |calls| && Gets(tools, calls[i], j) && tools[j].sequential)
            ==> Execute(tools, calls, false, script) == Sequential(tools, calls, script.scripts)
    ensures !(script.sequential || exists i: nat, j: nat :: i < |calls| && Gets(tools, calls[i], j) && tools[j].sequential)
            ==> Execute(tools, calls, false, script) == Parallel(tools, calls, script.scripts, script.schedule)
  {
    hide Sequential, Parallel, FindTool;
    if i: nat, j: nat :| i < |calls| && Gets(tools, calls[i], j) && tools[j].sequential {
      FindsFirst(tools, calls[i], j);
    }
    if HasSequentialTool(tools, calls) {
      var i :| 0 <= i < |calls| && FindTool(tools, calls[i].name).Some? && FindTool(tools, calls[i].name).value.sequential;
      var j := FindsSome(tools, calls[i]);
      FindsFirst(tools, calls[i], j);
      assert Gets(tools, calls[i], j) && tools[j].sequential;
    }
  }

  /** What the tool and the hooks of a call answered asks for the end of the run. */
  ghost predicate AsksToEnd(tools: seq<AgentTool>, call: ToolCall, script: CallScript) {
    if Stopped(tools, call, script) then
      && !Missing(tools, call) && script.invalid.None?
      && script.before.Answers? && !script.abortedDuringHook && script.before.block.Some? && script.before.block.value.terminate
    else
      match script.after
      case AfterThrows(_) => false
      case Keeps => script.execution.Returns? && script.execution.output.terminate == Some(true)
      case Overrides(_, terminate, _) =>
        if terminate.Some? then terminate.value else script.execution.Returns? && script.execution.output.terminate == Some(true)
  }

  lemma YieldsTerminate(tools: seq<AgentTool>, call: ToolCall, script: CallScript, concurrent: bool, result: Finalized)
    requires Yields(tools, call, script, concurrent, result) && !(concurrent && script.abortedAtStart)
    ensures result.output.terminate == Some(true) <==> AsksToEnd(tools, call, script)
  {
  }

  /** A batch in which no call saw an abort after it ends the run if and only if it has calls and every
    one of them asks for it; a truncated one never does. */
  lemma BatchTerminates(tools: seq<AgentTool>, calls: seq<ToolCall>, truncated: bool, script: BatchScript)
    requires forall i :: 0 <= i < |calls| ==> !ScriptOf(script.scripts, i).abortedAfter && !ScriptOf(script.scripts, i).abortedAtStart
    ensures Terminates(truncated, Execute(tools, calls, truncated, script))
            <==> !truncated && calls != [] && forall i :: 0 <= i < |calls| ==> AsksToEnd(tools, calls[i], ScriptOf(script.scripts, i))
  {
    hide Sequential, Parallel, AsksToEnd, Yields;
    if !truncated {
      var finals := Execute(tools, calls, truncated, script).finals;
      var concurrent := !(script.sequential || HasSequentialTool(tools, calls));
      SequentialYields(tools, calls, script.scripts);
      ParallelYields(tools, calls, script.scripts, script.schedule);
      assert |finals| == |calls|;
      forall i | 0 <= i < |calls|
        ensures finals[i].output.terminate == Some(true) <==> AsksToEnd(tools, calls[i], ScriptOf(script.scripts, i))
      {
        YieldsTerminate(tools, calls[i], ScriptOf(script.scripts, i), concurrent, finals[i]);
      }
    }
  }
}
