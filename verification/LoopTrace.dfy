/** Whole-run theorems about requests and the event grammar. */
module LoopTrace {
  import opened Wrappers
  import opened Transcript
  import opened Events
  import opened ToolBatch
  import opened ToolBatchProofs
  import opened AgentLoop
  import opened LoopViews

  // ----- the grammar of a whole run -----

  function Expected(loop: Loop): Phase {
    if loop.exit.Some? then Closed else if loop.started then Between else InTurn
  }

  lemma ParseOne(phase: Phase, events: seq<Event>, event: Event)
    ensures Parse(phase, events + [event]) == Next(Parse(phase, events), event)
  {
    ParseAppend(phase, events, [event]);
    assert [event][1..] == [];
    assert Parse(Parse(phase, events), [event]) == Next(Parse(phase, events), event);
  }

  lemma InjectedParse(loop: Loop, input: TurnInput)
    requires loop.exit.None?
    ensures Parse(Idle, loop.events) == Expected(loop) ==> Parse(Idle, Injected(loop, input).events) == InTurn
    ensures Parse(Idle, loop.events) == Broken ==> Parse(Idle, Injected(loop, input).events) == Broken
  {
    hide DeclareChanges, Execute, StreamEvents, StreamMessages, Announce;
    var begun := Begin(loop, input);
    if loop.started {
      ParseOne(Idle, loop.events, TurnStart);
    }
    var messages := DeclareChanges(begun.context, PreparedMessages(loop, input) + begun.pending);
    ParseAppend(Idle, begun.events, Announce(messages));
    AnnounceEffect(View([], None, {}, None), messages);
    BrokenStays(Announce(messages));
  }

  lemma RespondParse(loop: Loop, input: TurnInput)
    ensures Parse(Idle, loop.events) == InTurn ==>
              Parse(Idle, Respond(loop, input).events) == if Openings(input.response.events) <= 1 then InTurn else Broken
    ensures Parse(Idle, loop.events) == Broken ==> Parse(Idle, Respond(loop, input).events) == Broken
  {
    hide DeclareChanges, Execute, StreamEvents, StreamMessages, Announce;
    var final := input.response.final.ToMessage();
    ParseAppend(Idle, loop.events, StreamEvents(input.response.events, false, final));
    StreamEffect(View([], None, {}, None), input.response.events, false, final);
    BrokenStays(StreamEvents(input.response.events, false, final));
  }

  lemma CloseTurnParse(loop: Loop, input: TurnInput)
    ensures Parse(Idle, loop.events) == InTurn ==> Parse(Idle, CloseTurn(loop, input).events) == Between
    ensures Parse(Idle, loop.events) == Broken ==> Parse(Idle, CloseTurn(loop, input).events) == Broken
  {
    hide DeclareChanges, Execute, StreamEvents, StreamMessages, Announce;
    var reply := input.response.final;
    var calls := Calls(reply.blocks);
    var batch := if calls == [] then Batch([], []) else RunTools(loop, input);
    ParseAppend(Idle, loop.events, batch.events);
    if calls != [] {
      BatchClean(View([], None, {}, None), loop.context.tools, calls, reply.stop == Length, input.tools);
    }
    BrokenStays(batch.events);
    ParseOne(Idle, loop.events + batch.events, TurnEnd(reply.ToMessage(), batch.Messages()));
  }

  lemma ConcludeParse(loop: Loop, input: TurnInput)
    requires loop.exit.None?
    ensures Parse(Idle, loop.events) == InTurn ==> Parse(Idle, Conclude(loop, input).events) == Expected(Conclude(loop, input))
    ensures Parse(Idle, loop.events) == Broken ==> Parse(Idle, Conclude(loop, input).events) == Broken
  {
    hide Conclude, CloseTurn, Parse;
    ConcludeShape(loop, input);
    if input.response.final.Failed() {
      var final := input.response.final.ToMessage();
      ParseOne(Idle, loop.events, TurnEnd(final, []));
      ParseOne(Idle, loop.events + [TurnEnd(final, [])], AgentEnd(loop.produced));
    } else {
      CloseTurnParse(loop, input);
      var closed := CloseTurn(loop, input);
      ParseOne(Idle, closed.events, AgentEnd(closed.produced));
      assert closed.events + [] == closed.events;
    }
  }

  /** Every stream of the script opens its message at most once. */
  ghost predicate SingleOpenings(script: seq<TurnInput>) {
    forall i :: 0 <= i < |script| ==> Openings(script[i].response.events) <= 1
  }

  lemma SingleTail(script: seq<TurnInput>)
    requires script != []
    ensures SingleOpenings(script) <==> Openings(script[0].response.events) <= 1 && SingleOpenings(script[1..])
  {
    assert forall i :: 1 <= i < |script| ==> script[i] == script[1..][i - 1];
  }

  lemma TurnParse(loop: Loop, input: TurnInput)
    requires loop.exit.None?
    ensures Parse(Idle, loop.events) == Expected(loop) ==>
              Parse(Idle, Turn(loop, input).events) ==
              if Openings(input.response.events) <= 1 then Expected(Turn(loop, input)) else Broken
    ensures Parse(Idle, loop.events) == Broken ==> Parse(Idle, Turn(loop, input).events) == Broken
  {
    hide DeclareChanges, Execute, StreamEvents, StreamMessages, Announce;
    var injected := Injected(loop, input);
    InjectedParse(loop, input);
    RespondParse(injected, input);
    ConcludeParse(Respond(injected, input), input);
  }

  lemma {:induction false} BrokenRun(loop: Loop, script: seq<TurnInput>)
    requires Parse(Idle, loop.events) == Broken
    ensures Parse(Idle, Run(loop, script).events) == Broken
    decreases script
  {
    hide DeclareChanges, Execute, StreamEvents, StreamMessages, Announce;
    if script != [] && loop.exit.None? {
      TurnParse(loop, script[0]);
      BrokenRun(Turn(loop, script[0]), script[1..]);
    }
  }

  /** The trace of a whole run: one agent_start, alternating turn_start and turn_end around whole
    messages and tool events, and agent_end exactly when the run has left. This holds if and only
    if no stream that the run used opened its message twice. */
  lemma {:induction false} RunFollowsGrammar(loop: Loop, script: seq<TurnInput>)
    requires Parse(Idle, loop.events) == Expected(loop)
    ensures Parse(Idle, Run(loop, script).events) ==
            if SingleOpenings(Used(loop, script)) then Expected(Run(loop, script)) else Broken
    decreases script
  {
    hide DeclareChanges, Execute, StreamEvents, StreamMessages, Announce;
    if script != [] && loop.exit.None? {
      var next := Turn(loop, script[0]);
      TurnParse(loop, script[0]);
      var used := Used(loop, script);
      assert used[1..] == Used(next, script[1..]);
      SingleTail(used);
      if Openings(script[0].response.events) <= 1 {
        RunFollowsGrammar(next, script[1..]);
      } else {
        BrokenRun(next, script[1..]);
      }
    }
  }

  lemma StartParses(prompts: seq<Message>, context: Context, skip: bool, arrived: Arrivals)
    ensures var loop := StartPrompt(prompts, context, skip, arrived); Parse(Idle, loop.events) == Expected(loop)
    ensures var loop := StartContinue(context, arrived); Parse(Idle, loop.events) == Expected(loop)
  {
    var opening := [AgentStart, TurnStart];
    assert opening[1..] == [TurnStart] && opening[1..][1..] == [];
    assert Parse(Idle, opening) == Parse(Opened, opening[1..]) == InTurn;
    var messages := DeclareChanges(context, prompts);
    ParseAppend(Idle, opening, Announce(messages));
    AnnounceEffect(View([], None, {}, None), messages);
    assert opening + Announce([]) == opening;
  }

  // ----- provider requests -----

  function Requests(control: seq<Control>): seq<Control> {
    if control == [] then []
    else if control[0].Requested? then [control[0]] + Requests(control[1..])
    else Requests(control[1..])
  }

  lemma {:induction false} RequestsAppend(left: seq<Control>, right: seq<Control>)
    ensures Requests(left + right) == Requests(left) + Requests(right)
  {
    if left == [] {
      assert left + right == right;
    } else {
      assert (left + right)[0] == left[0] && (left + right)[1..] == left[1..] + right;
      RequestsAppend(left[1..], right);
    }
  }

  lemma {:induction false} NoRequests(control: seq<Control>)
    requires forall i :: 0 <= i < |control| ==> !control[i].Requested?
    ensures Requests(control) == []
  {
    if control != [] {
      NoRequests(control[1..]);
    }
  }

  function RequestOf(loop: Loop, input: TurnInput): Control {
    var injected := Injected(loop, input);
    Requested(Replaced(injected.context, input.request), |injected.events|, |injected.produced|)
  }

  /** `after` extends `before` and asked for other things than provider requests. */
  ghost predicate Grows(before: Loop, after: Loop) {
    && before.events <= after.events && before.produced <= after.produced
    && Requests(after.control) == Requests(before.control)
  }

  lemma GrowsBy(before: Loop, after: Loop, added: seq<Control>)
    requires before.events <= after.events && before.produced <= after.produced
    requires after.control == before.control + added
    requires forall i :: 0 <= i < |added| ==> !added[i].Requested?
    ensures Grows(before, after)
  {
    hide DeclareChanges, Execute, StreamEvents, StreamMessages, Announce;
    NoRequests(added);
    RequestsAppend(before.control, added);
  }

  lemma InjectedGrows(loop: Loop, input: TurnInput)
    ensures Grows(loop, Injected(loop, input))
  {
    hide DeclareChanges, Execute, StreamEvents, StreamMessages, Announce;
    var begun := Begin(loop, input);
    var polled := if loop.pending == [] then [PolledSteering(Selected(loop.steering + input.before.steering, input.before.steeringMode))] else [];
    var added := if loop.started then [AskedPrepare] + polled else [];
    assert begun.control == loop.control + added;
    GrowsBy(loop, begun, added);
    GrowsBy(begun, Injected(loop, input), []);
  }

  lemma LeaveGrows(loop: Loop, exit: Exit)
    ensures Grows(loop, Leave(loop, exit))
  {
    hide DeclareChanges, Execute, StreamEvents, StreamMessages, Announce;
    GrowsBy(loop, Leave(loop, exit), [Left(exit)]);
  }

  lemma IdlingGrows(loop: Loop, input: TurnInput)
    ensures Grows(loop, Idling(loop, input))
  {
    hide DeclareChanges, Execute, StreamEvents, StreamMessages, Announce;
    var got := Selected(loop.followUp, input.idle.followUpMode);
    var polled := loop.(followUp := loop.followUp[|got|..], control := loop.control + [PolledFollowUp(got)]);
    GrowsBy(loop, polled, [PolledFollowUp(got)]);
    LeaveGrows(polled, Natural);
  }

  lemma CloseTurnGrows(loop: Loop, input: TurnInput)
    ensures Grows(loop, CloseTurn(loop, input))
  {
    hide DeclareChanges, Execute, StreamEvents, StreamMessages, Announce;
    var closed := CloseTurn(loop, input);
    GrowsBy(loop, closed, [closed.control[|loop.control|]]);
  }

  lemma AfterTurnGrows(loop: Loop, input: TurnInput)
    ensures Grows(loop, AfterTurn(loop, input))
  {
    hide DeclareChanges, Execute, StreamEvents, StreamMessages, Announce;
    var polled := Poll(Enqueue(loop, input.after), input.after.steeringMode);
    GrowsBy(loop, polled, [polled.control[|loop.control|]]);
    GrowsBy(polled, AfterTurn(loop, input), [AskedNotes(input.notes)]);
  }

  lemma ConcludeGrows(loop: Loop, input: TurnInput)
    ensures Grows(loop, Conclude(loop, input))
  {
    hide DeclareChanges, Execute, StreamEvents, StreamMessages, Announce;
    if input.response.final.Failed() {
      var final := input.response.final.ToMessage();
      var ended := loop.(events := loop.events + [TurnEnd(final, [])], control := loop.control + [AskedFinish(final, [])], started := true);
      GrowsBy(loop, ended, [AskedFinish(final, [])]);
      LeaveGrows(Enqueue(Enqueue(ended, input.after), input.idle), Failure);
    } else {
      var closed := CloseTurn(loop, input);
      CloseTurnGrows(loop, input);
      if input.decision == End {
        LeaveGrows(Enqueue(Enqueue(closed, input.after), input.idle), Decided);
      } else {
        AfterTurnGrows(closed, input);
        IdlingGrows(Enqueue(AfterTurn(closed, input), input.idle), input);
      }
    }
  }

  /** A turn makes exactly one provider request, after injecting and before anything else. */
  lemma TurnRequests(loop: Loop, input: TurnInput)
    ensures Requests(Turn(loop, input).control) == Requests(loop.control) + [RequestOf(loop, input)]
    ensures loop.events <= Injected(loop, input).events <= Turn(loop, input).events
    ensures loop.produced <= Injected(loop, input).produced <= Turn(loop, input).produced
  {
    hide DeclareChanges, Execute, StreamEvents, StreamMessages, Announce;
    var injected := Injected(loop, input);
    var responded := Respond(injected, input);
    InjectedGrows(loop, input);
    var asked := [AskedRequest, RequestOf(loop, input)];
    assert asked[1..] == [RequestOf(loop, input)] && asked[1..][1..] == [];
    assert Requests(asked) == Requests(asked[1..]) == [RequestOf(loop, input)];
    RequestsAppend(injected.control, asked);
    ConcludeGrows(responded, input);
  }

  // ----- the loop's context -----

  /** No hook replaces the context. */
  ghost predicate NoSwap(script: seq<TurnInput>) {
    forall i :: 0 <= i < |script| ==> script[i].update.context.None? && script[i].request.None?
  }

  /** Partial messages that streams leave behind in the context. */
  function Surplus(script: seq<TurnInput>): nat {
    if script == [] then 0
    else
      var opens := Openings(script[0].response.events);
      (if opens > 0 then opens - 1 else 0) + Surplus(script[1..])
  }

  lemma InjectedContext(loop: Loop, input: TurnInput, base: seq<Message>)
    requires input.update.context.None?
    ensures |Injected(loop, input).context.messages| - |Injected(loop, input).produced| == |loop.context.messages| - |loop.produced|
    ensures loop.context.messages == base + loop.produced ==>
              Injected(loop, input).context.messages == base + Injected(loop, input).produced
  {
    hide DeclareChanges, Execute, StreamEvents, StreamMessages, Announce;
    var begun := Begin(loop, input);
    var messages := DeclareChanges(begun.context, PreparedMessages(loop, input) + begun.pending);
    assert (base + loop.produced) + messages == base + (loop.produced + messages);
  }

  lemma ConcludeContext(loop: Loop, input: TurnInput, base: seq<Message>)
    requires loop.exit.None?
    ensures |Conclude(loop, input).context.messages| - |Conclude(loop, input).produced| == |loop.context.messages| - |loop.produced|
    ensures loop.context.messages == base + loop.produced ==>
              Conclude(loop, input).context.messages == base + Conclude(loop, input).produced
  {
    hide Conclude, Execute, Terminates;
    ConcludeShape(loop, input);
    if !input.response.final.Failed() {
      var calls := Calls(input.response.final.blocks);
      var results := (if calls == [] then Batch([], []) else RunTools(loop, input)).Messages();
      assert (base + loop.produced) + results == base + (loop.produced + results);
    }
  }

  lemma TurnContext(loop: Loop, input: TurnInput, base: seq<Message>)
    requires loop.exit.None? && input.update.context.None? && input.request.None?
    ensures |Turn(loop, input).context.messages| - |Turn(loop, input).produced|
            == |loop.context.messages| - |loop.produced| + Surplus([input])
    ensures loop.context.messages == base + loop.produced && Openings(input.response.events) <= 1 ==>
              Turn(loop, input).context.messages == base + Turn(loop, input).produced
  {
    hide DeclareChanges, Execute, StreamEvents, StreamMessages, Announce;
    var injected := Injected(loop, input);
    var responded := Respond(injected, input);
    var final := input.response.final.ToMessage();
    InjectedContext(loop, input, base);
    StreamLength(injected.context.messages, input.response.events, false, final);
    assert [input][1..] == [];
    assert Surplus([input][1..]) == 0;
    if Openings(input.response.events) <= 1 {
      StreamExact(injected.context.messages, input.response.events, false, final);
      assert (base + injected.produced) + [final] == base + (injected.produced + [final]);
    }
    ConcludeContext(responded, input, base);
  }

  /** The context, the agent and the list of new messages agree at every provider request. */
  ghost predicate RequestsAgree(view: View, loop: Loop) {
    var requests := Requests(loop.control);
    forall k :: 0 <= k < |requests| ==>
      && requests[k].Requested?
      && requests[k].emitted <= |loop.events|
      && requests[k].delivered <= |loop.produced|
      && requests[k].context.messages == view.messages + loop.produced[..requests[k].delivered]
      && requests[k].context.messages == ReduceAll(view, loop.events[..requests[k].emitted]).messages
  }

  lemma RequestsAgreeAppend(view: View, before: Loop, after: Loop, request: Control)
    requires RequestsAgree(view, before) && request.Requested?
    requires before.events <= after.events && before.produced <= after.produced
    requires request.emitted <= |after.events| && request.delivered <= |after.produced|
    requires request.context.messages == view.messages + after.produced[..request.delivered]
    requires request.context.messages == ReduceAll(view, after.events[..request.emitted]).messages
    requires Requests(after.control) == Requests(before.control) + [request]
    ensures RequestsAgree(view, after)
  {
    hide Requests, ReduceAll;
    var earlier, requests := Requests(before.control), Requests(after.control);
    forall k | 0 <= k < |earlier|
      ensures requests[k] == earlier[k]
      ensures after.events[..earlier[k].emitted] == before.events[..earlier[k].emitted]
      ensures after.produced[..earlier[k].delivered] == before.produced[..earlier[k].delivered]
    {
    }
  }

  lemma TurnRequestsAgree(view: View, loop: Loop, input: TurnInput)
    requires Rebuilt(view, loop) && RequestsAgree(view, loop)
    requires loop.context.messages == view.messages + loop.produced
    requires input.update.context.None? && input.request.None?
    ensures RequestsAgree(view, Turn(loop, input))
  {
    hide Turn, RequestsAgree, DeclareChanges;
    var next := Turn(loop, input);
    var injected := Injected(loop, input);
    TurnRequests(loop, input);
    InjectedContext(loop, input, view.messages);
    BeginRebuilt(view, loop, input);
    InjectRebuilt(view, Begin(loop, input), PreparedMessages(loop, input));
    assert next.events[..|injected.events|] == injected.events;
    assert next.produced[..|injected.produced|] == injected.produced;
    RequestsAgreeAppend(view, loop, next, RequestOf(loop, input));
  }

  /** Three views of the transcript agree. In a run whose hooks never replace the context, the loop's
    context is (initial context ++ new messages), which is what the agent rebuilt from events, if
    and only if no stream opened its message twice; and then the three also agree at every
    provider request. */
  lemma {:induction false} ViewsAgree(view: View, loop: Loop, script: seq<TurnInput>)
    requires Rebuilt(view, loop) && RequestsAgree(view, loop)
    requires loop.context.messages == view.messages + loop.produced
    requires NoSwap(script)
    ensures Rebuilt(view, Run(loop, script))
    ensures Run(loop, script).context.messages == view.messages + Run(loop, script).produced
            <==> SingleOpenings(Used(loop, script))
    ensures SingleOpenings(Used(loop, script)) ==> RequestsAgree(view, Run(loop, script))
    decreases script
  {
    hide Turn, Rebuilt, RequestsAgree;
    AgentRebuildsTranscript(view, loop, script);
    if script != [] && loop.exit.None? {
      var input := script[0];
      var next := Turn(loop, input);
      var used := Used(loop, script);
      assert used[0] == input && used[1..] == Used(next, script[1..]);
      TurnContext(loop, input, view.messages);
      TurnRebuilt(view, loop, input);
      TurnRequestsAgree(view, loop, input);
      SingleTail(used);
      if Openings(input.response.events) <= 1 {
        ViewsAgree(view, next, script[1..]);
      } else {
        assert [input][1..] == [];
        ContextNeverShrinks(next, script[1..]);
      }
    }
  }

  lemma {:induction false} ContextNeverShrinks(loop: Loop, script: seq<TurnInput>)
    requires NoSwap(script)
    ensures |Run(loop, script).context.messages| - |Run(loop, script).produced| >= |loop.context.messages| - |loop.produced|
    decreases script
  {
    hide DeclareChanges, Execute, StreamEvents, StreamMessages, Announce;
    if script != [] && loop.exit.None? {
      TurnContext(loop, script[0], []);
      ContextNeverShrinks(Turn(loop, script[0]), script[1..]);
    }
  }

  /** Both ways of starting a run meet the premises of `ViewsAgree`. */
  lemma StartAgrees(view: View, prompts: seq<Message>, context: Context, skip: bool, arrived: Arrivals)
    requires view.pendingCalls == {} && view.messages == context.messages
    ensures var loop := StartPrompt(prompts, context, skip, arrived);
            Rebuilt(view, loop) && RequestsAgree(view, loop) && loop.context.messages == view.messages + loop.produced
    ensures var loop := StartContinue(context, arrived);
            Rebuilt(view, loop) && RequestsAgree(view, loop) && loop.context.messages == view.messages + loop.produced
  {
    StartRebuilt(view, prompts, context, skip, arrived);
    NoRequests(StartPrompt(prompts, context, skip, arrived).control);
    NoRequests(StartContinue(context, arrived).control);
  }

  lemma BeginKeeps(loop: Loop, input: TurnInput)
    ensures Begin(loop, input).exit == loop.exit && Begin(loop, input).started == loop.started && Begin(loop, input).produced == loop.produced
  {
  }

  // ----- how many requests, and what they declare -----

  /** The requests that a run adds. */
  function NewRequests(loop: Loop, script: seq<TurnInput>): seq<Control>
    decreases script
  {
    if script == [] || loop.exit.Some? then [] else [RequestOf(loop, script[0])] + NewRequests(Turn(loop, script[0]), script[1..])
  }

  lemma Regroup(one: seq<Control>, two: seq<Control>, three: seq<Control>)
    ensures one + two + three == one + (two + three)
  {
  }

  /** A run makes one provider request per turn it takes. */
  lemma {:induction false} OneRequestPerTurn(loop: Loop, script: seq<TurnInput>)
    ensures Requests(Run(loop, script).control) == Requests(loop.control) + NewRequests(loop, script)
    ensures |NewRequests(loop, script)| == |Used(loop, script)|
    decreases script
  {
    hide Turn, RequestOf, Requests;
    if script == [] || loop.exit.Some? {
    } else {
      var next := Turn(loop, script[0]);
      TurnRequests(loop, script[0]);
      OneRequestPerTurn(next, script[1..]);
      Regroup(Requests(loop.control), [RequestOf(loop, script[0])], NewRequests(next, script[1..]));
    }
  }

  /** Replaying the transcript of a request yields exactly the executable tools if and only if no two of
    them share a name with different definitions, unless `prepareRequest` swapped the context. */
  ghost predicate DeclaresExactly(input: TurnInput, request: Control) {
    && request.Requested?
    && (input.request.None? ==> (Declares(request.context) <==> Unambiguous(request.context.tools)))
  }

  lemma TurnDeclares(loop: Loop, input: TurnInput)
    ensures DeclaresExactly(input, RequestOf(loop, input))
  {
    hide DeclareChanges, Execute, StreamEvents, StreamMessages, Announce;
    var begun := Begin(loop, input);
    DeclarationReplaysExactly(begun.context, PreparedMessages(loop, input) + begun.pending);
  }

  /** So it is at every provider request of every run. */
  lemma {:induction false} RequestsDeclareTools(loop: Loop, script: seq<TurnInput>)
    ensures |NewRequests(loop, script)| == |Used(loop, script)|
    ensures forall k :: 0 <= k < |Used(loop, script)| ==> DeclaresExactly(Used(loop, script)[k], NewRequests(loop, script)[k])
    decreases script
  {
    hide Turn, RequestOf, DeclaresExactly;
    if script != [] && loop.exit.None? {
      var next := Turn(loop, script[0]);
      TurnDeclares(loop, script[0]);
      RequestsDeclareTools(next, script[1..]);
    }
  }

  /** The three sources of a next request, from what the turn's answers and the queues hold. */
  ghost predicate ToolsRemain(loop: Loop, input: TurnInput) {
    var responded := Respond(Injected(loop, input), input);
    var calls := Calls(input.response.final.blocks);
    calls != [] && !Terminates(input.response.final.stop == Length, RunTools(responded, input))
  }

  function SteeringQueued(loop: Loop, input: TurnInput): seq<Message> {
    Begin(loop, input).steering + input.after.steering
  }

  function FollowUpQueued(loop: Loop, input: TurnInput): seq<Message> {
    loop.followUp + input.before.followUp + input.after.followUp + input.idle.followUp
  }

  /** Next-request law: after a turn the run goes on if and only if the turn neither failed nor was
    ended and tool results remain, or a steering message is queued, or a follow-up is queued, or
    the turn's own decision was to continue. Only the latest decision counts, so a continuation
    that another source satisfied adds no request later. A failed or ended turn drains neither
    queue. */
  lemma NextRequestLaw(loop: Loop, input: TurnInput)
    requires loop.exit.None?
    ensures Turn(loop, input).exit.None? <==>
            && input.response.final.stop != Error && input.response.final.stop != Aborted
            && input.decision != End
            && (ToolsRemain(loop, input) || SteeringQueued(loop, input) != [] || FollowUpQueued(loop, input) != []
                || input.decision == Continue)
    ensures Turn(loop, input).exit.None? ==> Turn(loop, input).more || Turn(loop, input).pending != []
    ensures !Turn(loop, input).continuing || Turn(loop, input).exit.Some?
    ensures input.response.final.stop == Error || input.response.final.stop == Aborted || input.decision == End ==>
              var after := Turn(loop, input);
              && after.exit == Some(if input.response.final.stop == Error || input.response.final.stop == Aborted then Failure else Decided)
              && after.steering == SteeringQueued(loop, input) + input.idle.steering
              && after.followUp == FollowUpQueued(loop, input)
              && after.pending == []
  {
    hide DeclareChanges, Execute, StreamEvents, StreamMessages, Announce;
    var responded := Respond(Injected(loop, input), input);
    assert responded.steering == Begin(loop, input).steering;
    assert responded.followUp == loop.followUp + input.before.followUp;
    if !input.response.final.Failed() && input.decision != End {
      var next := Enqueue(AfterTurn(CloseTurn(responded, input), input), input.idle);
      assert next.pending != [] <==> SteeringQueued(loop, input) != [];
      assert next.followUp == FollowUpQueued(loop, input);
      assert next.more == ToolsRemain(loop, input);
    }
  }
}
