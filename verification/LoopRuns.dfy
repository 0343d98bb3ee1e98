/** The laws of the loop, put together for whole runs from either entry point. */
module LoopRuns {
  import opened Wrappers
  import opened Transcript
  import opened Events
  import opened ToolBatch
  import opened AgentLoop
  import opened LoopViews
  import opened LoopTrace
  import opened LoopQueues
  import opened ToolBrackets
  import AgentRuntime

  /** How a run starts: with prompts, or by continuing the transcript. */
  datatype Entry = WithPrompts(prompts: seq<Message>, skipFirstPoll: bool) | Continuing

  function Started(entry: Entry, context: Context, arrived: Arrivals): Loop {
    if entry.WithPrompts? then StartPrompt(entry.prompts, context, entry.skipFirstPoll, arrived)
    else StartContinue(context, arrived)
  }

  function Prompts(entry: Entry): seq<Message> { if entry.WithPrompts? then entry.prompts else [] }

  /**
   * Every run of an agent over its own transcript, whatever the model, the
   * tools, the hooks and the queues answer: the agent's transcript grows by
   * exactly the run's new messages and no tool call stays pending; the trace
   * follows the grammar if and only if every stream opened its message at most
   * once; and, while no hook replaces the context, so the loop's own context
   * is the agent's transcript if and only if that holds.
   */
  lemma EveryRunRebuilds(view: View, entry: Entry, context: Context, arrived: Arrivals, script: seq<TurnInput>)
    requires view.pendingCalls == {} && view.messages == context.messages
    ensures var start := Started(entry, context, arrived);
            var end := Run(start, script);
            var single := SingleOpenings(Used(start, script));
            && ReduceAll(view, end.events).messages == context.messages + end.produced
            && ReduceAll(view, end.events).pendingCalls == {}
            && QuietTurnEnds(view, end.events)
            && Parse(Idle, end.events) == (if single then Expected(end) else Broken)
            && (NoSwap(script) ==> (end.context.messages == context.messages + end.produced <==> single))
            && (NoSwap(script) && single ==> RequestsAgree(view, end))
  {
    hide Run, Used, StartPrompt, StartContinue, RequestsAgree, SingleOpenings;
    var start := Started(entry, context, arrived);
    var skip := entry.WithPrompts? && entry.skipFirstPoll;
    StartParses(Prompts(entry), context, skip, arrived);
    StartAgrees(view, Prompts(entry), context, skip, arrived);
    RunFollowsGrammar(start, script);
    AgentRebuildsTranscript(view, start, script);
    if NoSwap(script) { ViewsAgree(view, start, script); }
  }

  /**
   * In every run from either entry point each tool update and each end lies
   * between the start and the end of its call: at any point of the trace more
   * calls with its id have started than have ended.  When a turn ends, every
   * call that started has ended.
   */
  lemma EveryRunBracketsCalls(entry: Entry, context: Context, arrived: Arrivals, script: seq<TurnInput>, k: nat, id: string)
    requires k < |Run(Started(entry, context, arrived), script).events|
    ensures var events := Run(Started(entry, context, arrived), script).events;
            && ((events[k].ToolUpdate? || events[k].ToolEnd?) && events[k].callId == id ==>
                  StartsOf(events[..k], id) > EndsOf(events[..k], id))
            && (events[k].TurnEnd? ==> StartsOf(events[..k], id) == EndsOf(events[..k], id))
  {
    hide Run, StartPrompt, StartContinue, StartsOf, EndsOf, Bracketed;
    var start := Started(entry, context, arrived);
    StartBracketed(Prompts(entry), context, entry.WithPrompts? && entry.skipFirstPoll, arrived);
    RunBracketed(start, script);
    BracketedMeans(Run(start, script).events, k, id);
  }

  const HELLO := Reply([Text("hello")], Stop, None)

  const NO_ARRIVALS := Arrivals([], [], All, All)

  const STARTED_TWICE := Response([StreamEvent.Started(HELLO), StreamEvent.Started(HELLO)], HELLO)

  /** A turn whose stream starts its message twice. */
  const DOUBLE_START := TurnInput(NO_ARRIVALS, TurnUpdate(None, []), None, STARTED_TWICE, BatchScript(false, [], []), End,
                                  NO_ARRIVALS, [], NO_ARRIVALS)

  lemma OpensTwice(loop: Loop)
    requires loop.exit.None?
    ensures !SingleOpenings(Used(loop, [DOUBLE_START]))
  {
    hide Turn;
    assert Used(loop, [DOUBLE_START])[0] == DOUBLE_START;
    var events := STARTED_TWICE.events;
    assert events[1..] == [events[1]] && events[1..][1..] == [];
    assert Openings(events) == 2 by { assert Openings(events[1..]) == 1; }
  }

  /** One such turn breaks the grammar and the equal views. */
  lemma TwoStartsCounterexample()
    ensures var end := Run(StartContinue(Context([], []), NO_ARRIVALS), [DOUBLE_START]);
            Parse(Idle, end.events) == Broken && end.context.messages != end.produced
  {
    hide Run, StartContinue, Used, Parse, ReduceAll, SingleOpenings;
    var start := Started(Continuing, Context([], []), NO_ARRIVALS);
    var end := Run(start, [DOUBLE_START]);
    EveryRunRebuilds(View([], None, {}, None), Continuing, Context([], []), NO_ARRIVALS, [DOUBLE_START]);
    StartsOpen(Continuing, Context([], []), NO_ARRIVALS);
    OpensTwice(start);
    assert [] + end.produced == end.produced;
  }

  /**
   * On every exit path, what a run delivered from a queue followed by what it
   * left there is what it was given followed by what arrived meanwhile, in
   * order, up to the tool fields of system messages; notes included.
   */
  lemma EveryRunConserves(entry: Entry, context: Context, arrived: Arrivals, script: seq<TurnInput>, origin: Origin)
    requires Queued(origin) && LabelledArrivals(arrived) && LabelledScript(script)
    ensures var start := Started(entry, context, arrived);
            var end := Run(start, script);
            end.exit.Some? ==>
              From(end.produced, origin) + From(Held(end, origin), origin)
              == From(Prompts(entry), origin) + Taken(arrived, origin) + AllGains(Used(start, script), origin)
  {
    hide Run, Used, StartPrompt, StartContinue, From, AllGains;
    var start := Started(entry, context, arrived);
    var skip := entry.WithPrompts? && entry.skipFirstPoll;
    var end := Run(start, script);
    StartLedger(Prompts(entry), context, skip, arrived, origin);
    FromNone(origin);
    QueuesConserved(start, script, origin);
    StartsOpen(entry, context, arrived);
    NothingStranded(start, script);
    if end.exit.Some? {
      assert Due(end, origin) == [];
      assert [] + Kept(end, origin) == Kept(end, origin);
      assert [] + Taken(arrived, origin) == Taken(arrived, origin);
    }
  }

  /**
   * At every provider request of every run from either entry point, unless
   * `prepareRequest` swapped the context just before it, replaying the
   * transcript yields exactly the executable tools if and only if those are
   * unambiguous.
   */
  lemma EveryRunDeclares(entry: Entry, context: Context, arrived: Arrivals, script: seq<TurnInput>)
    ensures var start := Started(entry, context, arrived);
            var used, requests := Used(start, script), Requests(Run(start, script).control);
            && |requests| == |used|
            && forall k :: 0 <= k < |used| ==> DeclaresExactly(used[k], requests[k])
  {
    hide Run, Used, NewRequests, DeclaresExactly;
    var start := Started(entry, context, arrived);
    OneRequestPerTurn(start, script);
    RequestsDeclareTools(start, script);
    NoRequestsYet(entry, context, arrived);
    assert [] + NewRequests(start, script) == NewRequests(start, script);
  }

  lemma NoRequestsYet(entry: Entry, context: Context, arrived: Arrivals)
    ensures Requests(Started(entry, context, arrived).control) == []
  {
    var start := Started(entry, context, arrived);
    assert |start.control| == 1 && start.control[1..] == [];
  }

  /**
   * In one-at-a-time mode at most one steering message enters between
   * consecutive provider requests of every run, and before the first one,
   * when the prompts hold none or hold one and the first poll is skipped.
   */
  lemma EveryRunSpacesSteering(entry: Entry, context: Context, arrived: Arrivals, script: seq<TurnInput>)
    requires LabelledArrivals(arrived) && LabelledScript(script)
    requires arrived.steeringMode == OneAtATime && OneAtATimeScript(script)
    requires |From(Prompts(entry), Steering)| + (if entry.WithPrompts? && entry.skipFirstPoll then 0 else 1) <= 1
    ensures Spaced(Run(Started(entry, context, arrived), script))
  {
    hide Run, StartPrompt, StartContinue, Spaced, From;
    StartSpaced(Prompts(entry), context, entry.WithPrompts? && entry.skipFirstPoll, arrived);
    SteeringOneAtATime(Started(entry, context, arrived), script);
  }

  /** `continue()` always starts such a run: it drains at most one steering message and then skips the
    first poll. */
  lemma EveryContinuationSpacesSteering(context: Context, steering: seq<Message>, followUp: seq<Message>, followUpMode: QueueMode,
                                        script: seq<TurnInput>)
    requires Labelled(steering, Steering) && Labelled(followUp, FollowUp) && LabelledScript(script) && OneAtATimeScript(script)
    ensures var plan := AgentRuntime.PlanContinue(context.messages, steering, OneAtATime, followUp, followUpMode);
            && (plan.PromptWith? ==>
                  Spaced(Run(StartPrompt(plan.prompts, context, plan.skipFirstPoll,
                                         Arrivals(plan.steering, plan.followUp, OneAtATime, followUpMode)), script)))
            && (plan.Resume? ==> Spaced(Run(StartContinue(context, Arrivals(steering, followUp, OneAtATime, followUpMode)), script)))
  {
    hide Run, StartPrompt, StartContinue, Spaced, From, Labelled, AgentRuntime.PlanContinue;
    var plan := AgentRuntime.PlanContinue(context.messages, steering, OneAtATime, followUp, followUpMode);
    AgentRuntime.ContinueConserves(context.messages, steering, followUp, OneAtATime, followUpMode, Steering);
    FromNone(Steering);
    if plan.PromptWith? {
      EveryRunSpacesSteering(WithPrompts(plan.prompts, plan.skipFirstPoll), context,
                             Arrivals(plan.steering, plan.followUp, OneAtATime, followUpMode), script);
    } else if plan.Resume? {
      EveryRunSpacesSteering(Continuing, context, Arrivals(steering, followUp, OneAtATime, followUpMode), script);
    }
  }

  lemma StartsOpen(entry: Entry, context: Context, arrived: Arrivals)
    ensures Started(entry, context, arrived).exit.None?
  {
  }
}
