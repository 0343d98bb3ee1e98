/** Running the tool calls of one assistant message.

  Models the batch executors of `packages/agent/src/agent-loop.ts`. Tools, hooks and the abort
  signal are scripted: a `CallScript` says what each of them answers for one call. Parallel
  execution is a machine driven by an arbitrary schedule of task actions. */
module ToolBatch {
  import opened Wrappers
  import opened Transcript
  import opened Events

  /** A tool result; `terminate` asks the loop to stop after the batch. */
  datatype Output = Output(content: Option<string>, terminate: Option<bool>)

  datatype Blocked = Blocked(reason: string, terminate: bool)

  datatype Before = NoHook | HookThrows(reason: string) | Answers(block: Option<Blocked>)

  datatype Execution = Returns(output: Output) | Throws(reason: string)

  datatype After = Keeps | AfterThrows(reason: string)
    | Overrides(content: Option<string>, terminate: Option<bool>, isError: Option<bool>)

  datatype CallScript = CallScript(
    invalid: Option<string>,      // preparing or validating the arguments throws
    before: Before,
    abortedDuringHook: bool,      // signal state after beforeToolCall
    abortedBeforeRun: bool,       // signal state at the end of preparation
    abortedAtStart: bool,         // signal state when a parallel task starts
    updates: seq<string>,         // partial results reported while running alone
    execution: Execution,
    after: After,
    abortedAfter: bool)           // signal state when the executor looks at it after the call

  const DEFAULT_SCRIPT :=
    CallScript(None, NoHook, false, false, false, [], Returns(Output(None, None)), Keeps, false)

  function Head(scripts: seq<CallScript>): CallScript { if scripts == [] then DEFAULT_SCRIPT else scripts[0] }

  function Rest(scripts: seq<CallScript>): seq<CallScript> { if scripts == [] then [] else scripts[1..] }

  datatype Finalized = Finalized(call: ToolCall, output: Output, isError: bool)

  datatype Preparation = Immediate(finalized: Finalized) | Runnable

  function ErrorOutput(reason: string): Output { Output(Some(reason), None) }

  function Failed(call: ToolCall, reason: string): Finalized { Finalized(call, ErrorOutput(reason), true) }

  function FindTool(tools: seq<AgentTool>, name: string): Option<AgentTool> {
    if tools == [] then None
    else if tools[0].declaration.name == name then Some(tools[0])
    else FindTool(tools[1..], name)
  }

  function Prepare(tools: seq<AgentTool>, call: ToolCall, script: CallScript): Preparation {
    if FindTool(tools, call.name).None? then Immediate(Failed(call, "Tool " + call.name + " not found"))
    else if script.invalid.Some? then Immediate(Failed(call, script.invalid.value))
    else if script.before.HookThrows? then Immediate(Failed(call, script.before.reason))
    else if script.before.Answers? && script.abortedDuringHook then Immediate(Failed(call, "Operation aborted"))
    else if script.before.Answers? && script.before.block.Some? then
      var block := script.before.block.value;
      var reason := if block.reason == "" then "Tool execution was blocked" else block.reason;
      Immediate(Finalized(call, Output(Some(reason), if block.terminate then Some(true) else None), true))
    else if script.abortedBeforeRun then Immediate(Failed(call, "Operation aborted"))
    else Runnable
  }

  function Finalize(call: ToolCall, script: CallScript): Finalized {
    var output := if script.execution.Returns? then script.execution.output else ErrorOutput(script.execution.reason);
    var isError := script.execution.Throws?;
    match script.after
    case Keeps => Finalized(call, output, isError)
    case AfterThrows(reason) => Failed(call, reason)
    case Overrides(content, terminate, error) =>
      Finalized(call,
                Output(if content.Some? then content else output.content,
                       if terminate.Some? then terminate else output.terminate),
                if error.Some? then error.value else isError)
  }

  function ResultMessage(finalized: Finalized): Message {
    Message(ToolRun,
            ToolResult(finalized.call.id, finalized.call.name,
                       if finalized.output.content.Some? then finalized.output.content.value else "",
                       finalized.isError))
  }

  function ResultMessages(finals: seq<Finalized>): seq<Message> {
    seq(|finals|, i requires 0 <= i < |finals| => ResultMessage(finals[i]))
  }

  predicate ShouldTerminate(finals: seq<Finalized>) {
    |finals| > 0 && forall i :: 0 <= i < |finals| ==> finals[i].output.terminate == Some(true)
  }

  function EndOf(finalized: Finalized): Event { ToolEnd(finalized.call.id, finalized.isError) }

  datatype Batch = Batch(events: seq<Event>, finals: seq<Finalized>) {
    function Messages(): seq<Message> { ResultMessages(finals) }
  }

  // ----- one call after the other -----

  function Updates(call: ToolCall, partials: seq<string>): seq<Event> {
    seq(|partials|, i requires 0 <= i < |partials| => ToolUpdate(call.id, partials[i]))
  }

  function RunAlone(tools: seq<AgentTool>, call: ToolCall, script: CallScript): (r: (Finalized, seq<Event>)) {
    var preparation := Prepare(tools, call, script);
    if preparation.Immediate? then (preparation.finalized, [])
    else (Finalize(call, script), Updates(call, script.updates))
  }

  function CallEvents(finalized: Finalized, updates: seq<Event>): seq<Event> {
    [ToolStart(finalized.call.id)] + updates + [EndOf(finalized)] + Announce([ResultMessage(finalized)])
  }

  function Sequential(tools: seq<AgentTool>, calls: seq<ToolCall>, scripts: seq<CallScript>): Batch
    decreases calls
  {
    if calls == [] then Batch([], [])
    else
      var (finalized, updates) := RunAlone(tools, calls[0], Head(scripts));
      var rest := if Head(scripts).abortedAfter then Batch([], []) else Sequential(tools, calls[1..], Rest(scripts));
      Batch(CallEvents(finalized, updates) + rest.events, [finalized] + rest.finals)
  }

  // ----- all calls of a truncated message fail -----

  const TRUNCATED := "the response hit the output token limit"

  function FailAll(calls: seq<ToolCall>): Batch {
    if calls == [] then Batch([], [])
    else
      var finalized := Failed(calls[0], TRUNCATED);
      var rest := FailAll(calls[1..]);
      Batch(CallEvents(finalized, []) + rest.events, [finalized] + rest.finals)
  }

  // ----- preflight, then concurrent tasks -----

  datatype Entry = Ready(finalized: Finalized) | Task(task: ToolCall, script: CallScript) {
    function Id(): string { if Ready? then finalized.call.id else task.id }

    /** A task that reaches the tool. */
    predicate Runs() { Task? && !script.abortedAtStart }

    /** What this entry yields, whatever the other tasks do. */
    function Outcome(): Finalized {
      if Ready? then finalized
      else if script.abortedAtStart then Failed(task, "Operation aborted")
      else Finalize(task, script)
    }
  }

  datatype Flight = Flight(events: seq<Event>, entries: seq<Entry>)

  function EntryFor(tools: seq<AgentTool>, call: ToolCall, script: CallScript): Entry {
    var preparation := Prepare(tools, call, script);
    if preparation.Immediate? then Ready(preparation.finalized) else Task(call, script)
  }

  function EntryEvents(entry: Entry): seq<Event> {
    [ToolStart(entry.Id())] + if entry.Ready? then [EndOf(entry.finalized)] else []
  }

  function Preflight(tools: seq<AgentTool>, calls: seq<ToolCall>, scripts: seq<CallScript>): Flight
    decreases calls
  {
    if calls == [] then Flight([], [])
    else
      var entry := EntryFor(tools, calls[0], Head(scripts));
      var rest := if Head(scripts).abortedAfter then Flight([], []) else Preflight(tools, calls[1..], Rest(scripts));
      Flight(EntryEvents(entry) + rest.events, [entry] + rest.entries)
  }

  datatype Slot = Waiting | Running | Settled | Done(finalized: Finalized)

  /** What running calls can do, in any order. An action that is not possible has no effect; in
    particular an update reported after the tool settled is dropped. */
  datatype Action = Start(task: nat) | Report(task: nat, partial: string) | Settle(task: nat) | Finish(task: nat)

  function Slots(entries: seq<Entry>): seq<Slot> {
    seq(|entries|, i requires 0 <= i < |entries| => if entries[i].Ready? then Done(entries[i].finalized) else Waiting)
  }

  datatype Progress = Progress(slots: seq<Slot>, events: seq<Event>)

  function Act(entries: seq<Entry>, slots: seq<Slot>, action: Action): Progress
    requires |slots| == |entries|
  {
    var i := action.task;
    if i >= |entries| || entries[i].Ready? then Progress(slots, [])
    else
      match action
      case Start(_) =>
        if !slots[i].Waiting? then Progress(slots, [])
        else if entries[i].script.abortedAtStart then
          Progress(slots[i := Done(entries[i].Outcome())], [EndOf(entries[i].Outcome())])
        else Progress(slots[i := Running], [])
      case Report(_, partial) =>
        Progress(slots, if slots[i].Running? then [ToolUpdate(entries[i].Id(), partial)] else [])
      case Settle(_) => Progress(if slots[i].Running? then slots[i := Settled] else slots, [])
      case Finish(_) =>
        if slots[i].Settled? then Progress(slots[i := Done(entries[i].Outcome())], [EndOf(entries[i].Outcome())])
        else Progress(slots, [])
  }

  function ActAll(entries: seq<Entry>, slots: seq<Slot>, schedule: seq<Action>): (r: Progress)
    requires |slots| == |entries|
    ensures |r.slots| == |entries|
    decreases schedule
  {
    if schedule == [] then Progress(slots, [])
    else
      var one := Act(entries, slots, schedule[0]);
      var rest := ActAll(entries, one.slots, schedule[1..]);
      Progress(rest.slots, one.events + rest.events)
  }

  /** Lets every task that a schedule left unfinished run to its end. */
  function Drain(count: nat): seq<Action> {
    if count == 0 then [] else Drain(count - 1) + [Start(count - 1), Settle(count - 1), Finish(count - 1)]
  }

  function Collect(slots: seq<Slot>): seq<Finalized> {
    if slots == [] then []
    else (if slots[0].Done? then [slots[0].finalized] else []) + Collect(slots[1..])
  }

  /** A parallel batch whose tasks follow `schedule` and are then drained, so that every schedule
    stands for a completed batch. */
  function Parallel(tools: seq<AgentTool>, calls: seq<ToolCall>, scripts: seq<CallScript>, schedule: seq<Action>): Batch {
    var flight := Preflight(tools, calls, scripts);
    var progress := ActAll(flight.entries, Slots(flight.entries), schedule + Drain(|flight.entries|));
    var finals := Collect(progress.slots);
    Batch(flight.events + progress.events + Announce(ResultMessages(finals)), finals)
  }

  // ----- choosing an executor -----

  datatype BatchScript = BatchScript(sequential: bool, scripts: seq<CallScript>, schedule: seq<Action>)

  predicate HasSequentialTool(tools: seq<AgentTool>, calls: seq<ToolCall>) {
    exists i :: 0 <= i < |calls| && FindTool(tools, calls[i].name).Some? && FindTool(tools, calls[i].name).value.sequential
  }

  function Execute(tools: seq<AgentTool>, calls: seq<ToolCall>, truncated: bool, script: BatchScript): Batch {
    if truncated then FailAll(calls)
    else if script.sequential || HasSequentialTool(tools, calls) then Sequential(tools, calls, script.scripts)
    else Parallel(tools, calls, script.scripts, script.schedule)
  }

  function Terminates(truncated: bool, batch: Batch): bool {
    !truncated && ShouldTerminate(batch.finals)
  }

  // ----- the executors as loops -----

  function Join(left: Batch, right: Batch): Batch {
    Batch(left.events + right.events, left.finals + right.finals)
  }

  lemma JoinMoves(done: Batch, one: Batch, rest: Batch)
    ensures Join(done, Join(one, rest)) == Join(Join(done, one), rest)
  {
    assert done.events + (one.events + rest.events) == (done.events + one.events) + rest.events;
    assert done.finals + (one.finals + rest.finals) == (done.finals + one.finals) + rest.finals;
  }

  method ExecuteSequential(tools: seq<AgentTool>, calls: seq<ToolCall>, scripts: seq<CallScript>)
    returns (events: seq<Event>, messages: seq<Message>, terminate: bool)
    ensures var batch := Sequential(tools, calls, scripts);
            events == batch.events && messages == batch.Messages() && terminate == ShouldTerminate(batch.finals)
  {
    hide CallEvents;
    events, messages := [], [];
    var finals: seq<Finalized> := [];
    var remaining := scripts;
    var aborted := false;
    var i := 0;
    assert calls[0..] == calls;
    while i < |calls| && !aborted
      invariant 0 <= i <= |calls|
      invariant messages == ResultMessages(finals)
      invariant Sequential(tools, calls, scripts) ==
                Join(Batch(events, finals), if aborted then Batch([], []) else Sequential(tools, calls[i..], remaining))
      decreases |calls| - i, !aborted
    {
      var script := Head(remaining);
      var preparation := Prepare(tools, calls[i], script);
      var finalized, updates;
      if preparation.Immediate? {
        finalized, updates := preparation.finalized, [];
      } else {
        finalized, updates := Finalize(calls[i], script), Updates(calls[i], script.updates);
      }
      assert calls[i..][1..] == calls[i + 1..];
      ghost var one := Batch(CallEvents(finalized, updates), [finalized]);
      JoinMoves(Batch(events, finals), one,
                if script.abortedAfter then Batch([], []) else Sequential(tools, calls[i + 1..], Rest(remaining)));
      events := events + CallEvents(finalized, updates);
      finals := finals + [finalized];
      messages := messages + [ResultMessage(finalized)];
      aborted := script.abortedAfter;
      remaining := Rest(remaining);
      i := i + 1;
    }
    assert calls[|calls|..] == [];
    assert Join(Batch(events, finals), Batch([], [])) == Batch(events, finals);
    terminate := ShouldTerminate(finals);
  }

  method ExecuteParallel(tools: seq<AgentTool>, calls: seq<ToolCall>, scripts: seq<CallScript>, schedule: seq<Action>)
    returns (events: seq<Event>, messages: seq<Message>, terminate: bool)
    ensures var batch := Parallel(tools, calls, scripts, schedule);
            events == batch.events && messages == batch.Messages() && terminate == ShouldTerminate(batch.finals)
  {
    hide Preflight, ActAll, Drain, ShouldTerminate;
    var flightEvents, entries := PreflightLoop(tools, calls, scripts);
    var slots, taskEvents := RunTasks(entries, schedule + Drain(|entries|));
    var finals := Collect(slots);
    messages := [];
    var announced: seq<Event> := [];
    for i := 0 to |finals|
      invariant messages == ResultMessages(finals[..i])
      invariant announced == Announce(messages)
    {
      assert ResultMessages(finals[..i + 1]) == ResultMessages(finals[..i]) + [ResultMessage(finals[i])];
      AnnounceAppend(messages, ResultMessage(finals[i]));
      messages := messages + [ResultMessage(finals[i])];
      announced := announced + [MessageStart(ResultMessage(finals[i])), MessageEnd(ResultMessage(finals[i]))];
    }
    assert finals[..|finals|] == finals;
    events := flightEvents + taskEvents + announced;
    terminate := ShouldTerminate(finals);
  }

  method PreflightLoop(tools: seq<AgentTool>, calls: seq<ToolCall>, scripts: seq<CallScript>)
    returns (events: seq<Event>, entries: seq<Entry>)
    ensures Flight(events, entries) == Preflight(tools, calls, scripts)
  {
    events, entries := [], [];
    var remaining := scripts;
    var aborted := false;
    var i := 0;
    while i < |calls| && !aborted
      invariant 0 <= i <= |calls|
      invariant var rest := if aborted then Flight([], []) else Preflight(tools, calls[i..], remaining);
                Preflight(tools, calls, scripts) == Flight(events + rest.events, entries + rest.entries)
      decreases |calls| - i, !aborted
    {
      var script := Head(remaining);
      var entry := EntryFor(tools, calls[i], script);
      assert calls[i..][1..] == calls[i + 1..];
      ghost var tail := if script.abortedAfter then Flight([], []) else Preflight(tools, calls[i + 1..], Rest(remaining));
      assert events + (EntryEvents(entry) + tail.events) == (events + EntryEvents(entry)) + tail.events;
      assert entries + ([entry] + tail.entries) == (entries + [entry]) + tail.entries;
      events := events + EntryEvents(entry);
      entries := entries + [entry];
      aborted := script.abortedAfter;
      remaining := Rest(remaining);
      i := i + 1;
    }
    assert calls[|calls|..] == [];
  }

  method RunTasks(entries: seq<Entry>, schedule: seq<Action>) returns (slots: seq<Slot>, events: seq<Event>)
    ensures Progress(slots, events) == ActAll(entries, Slots(entries), schedule)
  {
    slots, events := Slots(entries), [];
    for i := 0 to |schedule|
      invariant |slots| == |entries|
      invariant var rest := ActAll(entries, slots, schedule[i..]);
                ActAll(entries, Slots(entries), schedule) == Progress(rest.slots, events + rest.events)
    {
      var one := Act(entries, slots, schedule[i]);
      assert schedule[i..][1..] == schedule[i + 1..];
      ghost var rest := ActAll(entries, one.slots, schedule[i + 1..]);
      assert events + (one.events + rest.events) == (events + one.events) + rest.events;
      slots := one.slots;
      events := events + one.events;
    }
  }

  method ExecuteToolCalls(tools: seq<AgentTool>, calls: seq<ToolCall>, truncated: bool, script: BatchScript)
    returns (events: seq<Event>, messages: seq<Message>, terminate: bool)
    ensures var batch := Execute(tools, calls, truncated, script);
            events == batch.events && messages == batch.Messages() && terminate == Terminates(truncated, batch)
  {
    if truncated {
      var batch := FailAll(calls);
      return batch.events, batch.Messages(), false;
    }
    if script.sequential || HasSequentialTool(tools, calls) {
      events, messages, terminate := ExecuteSequential(tools, calls, script.scripts);
    } else {
      events, messages, terminate := ExecuteParallel(tools, calls, script.scripts, script.schedule);
    }
  }
}
