/** The events a run emits, the state `Agent` rebuilds from them, and their grammar.

  Models `AgentEvent` and the reducer `processEvents` of `packages/agent/src/agent.ts`. */
module Events {
  import opened Wrappers
  import opened Transcript

  datatype Event =
    | AgentStart
    | AgentEnd(messages: seq<Message>)
    | TurnStart
    | TurnEnd(message: Message, results: seq<Message>)
    | MessageStart(message: Message)
    | MessageUpdate(message: Message)
    | MessageEnd(message: Message)
    | ToolStart(callId: string)
    | ToolUpdate(callId: string, partial: string)
    | ToolEnd(callId: string, isError: bool)

  /** The part of the agent's state that events determine. */
  datatype View = View(messages: seq<Message>, streaming: Option<Message>, pendingCalls: set<string>, error: Option<string>)

  function Reduce(view: View, event: Event): View {
    match event
    case MessageStart(message) => view.(streaming := Some(message))
    case MessageUpdate(message) => view.(streaming := Some(message))
    case MessageEnd(message) => view.(streaming := None, messages := view.messages + [message])
    case ToolStart(id) => view.(pendingCalls := view.pendingCalls + {id})
    case ToolEnd(id, _) => view.(pendingCalls := view.pendingCalls - {id})
    case TurnEnd(message, _) =>
      if message.body.Assistant? && message.body.error.Some? && message.body.error.value != "" then view.(error := message.body.error)
      else view
    case AgentEnd(_) => view.(streaming := None)
    case _ => view
  }

  function ReduceAll(view: View, events: seq<Event>): View
    decreases events
  {
    if events == [] then view else ReduceAll(Reduce(view, events[0]), events[1..])
  }

  lemma {:induction false} ReduceAppend(view: View, left: seq<Event>, right: seq<Event>)
    ensures ReduceAll(view, left + right) == ReduceAll(ReduceAll(view, left), right)
    decreases left
  {
    if left == [] {
      assert left + right == right;
    } else {
      assert (left + right)[1..] == left[1..] + right;
      ReduceAppend(Reduce(view, left[0]), left[1..], right);
    }
  }

  // ----- the grammar of a run -----

  /** agent_start (turn_start (message | tool event)* turn_end)+ agent_end, where a message is
    message_start message_update* message_end. */
  datatype Phase = Idle | Opened | InTurn | InMessage | Between | Closed | Broken

  function Next(phase: Phase, event: Event): Phase {
    match event
    case AgentStart => if phase == Idle then Opened else Broken
    case TurnStart => if phase == Opened || phase == Between then InTurn else Broken
    case MessageStart(_) => if phase == InTurn then InMessage else Broken
    case MessageUpdate(_) => if phase == InMessage then InMessage else Broken
    case MessageEnd(_) => if phase == InMessage then InTurn else Broken
    case ToolStart(_) => if phase == InTurn then InTurn else Broken
    case ToolUpdate(_, _) => if phase == InTurn then InTurn else Broken
    case ToolEnd(_, _) => if phase == InTurn then InTurn else Broken
    case TurnEnd(_, _) => if phase == InTurn then Between else Broken
    case AgentEnd(_) => if phase == Between then Closed else Broken
  }

  function Parse(phase: Phase, events: seq<Event>): Phase
    decreases events
  {
    if events == [] then phase else Parse(Next(phase, events[0]), events[1..])
  }

  lemma {:induction false} ParseAppend(phase: Phase, left: seq<Event>, right: seq<Event>)
    ensures Parse(phase, left + right) == Parse(Parse(phase, left), right)
    decreases left
  {
    if left == [] {
      assert left + right == right;
    } else {
      assert (left + right)[1..] == left[1..] + right;
      ParseAppend(Next(phase, left[0]), left[1..], right);
    }
  }

  lemma {:induction false} BrokenStays(events: seq<Event>)
    ensures Parse(Broken, events) == Broken
  {
    if events != [] {
      BrokenStays(events[1..]);
    }
  }

  // ----- calls that have started and not ended -----

  /** The calls open after an event. Calls that share an id are counted apart, unlike in the agent's
    set of pending ids. */
  function OpenAfter(open: multiset<string>, event: Event): multiset<string> {
    match event
    case ToolStart(id) => open + multiset{id}
    case ToolEnd(id, _) => open - multiset{id}
    case _ => open
  }

  predicate Fits(open: multiset<string>, event: Event) {
    match event
    case ToolUpdate(id, _) => id in open
    case ToolEnd(id, _) => id in open
    case AgentStart => open == multiset{}
    case AgentEnd(_) => open == multiset{}
    case TurnStart => open == multiset{}
    case TurnEnd(_, _) => open == multiset{}
    case _ => true
  }

  function OpenAfterAll(open: multiset<string>, events: seq<Event>): multiset<string>
    decreases events
  {
    if events == [] then open else OpenAfterAll(OpenAfter(open, events[0]), events[1..])
  }

  /** Every update and every end of a tool call belongs to a call that has started and not ended, and
    no call is open where a turn or the run starts or ends. */
  predicate Bracketed(open: multiset<string>, events: seq<Event>)
    decreases events
  {
    events != [] ==>
      && Fits(open, events[0])
      && Bracketed(OpenAfter(open, events[0]), events[1..])
  }

  lemma {:induction false} BracketedAppend(open: multiset<string>, left: seq<Event>, right: seq<Event>)
    ensures OpenAfterAll(open, left + right) == OpenAfterAll(OpenAfterAll(open, left), right)
    ensures Bracketed(open, left + right) <==> Bracketed(open, left) && Bracketed(OpenAfterAll(open, left), right)
    decreases left
  {
    if left == [] {
      assert left + right == right;
    } else {
      assert (left + right)[0] == left[0] && (left + right)[1..] == left[1..] + right;
      BracketedAppend(OpenAfter(open, left[0]), left[1..], right);
    }
  }

  /** How often a call id was started, and ended. */
  function StartsOf(events: seq<Event>, id: string): nat {
    if events == [] then 0
    else (if events[0].ToolStart? && events[0].callId == id then 1 else 0) + StartsOf(events[1..], id)
  }

  function EndsOf(events: seq<Event>, id: string): nat {
    if events == [] then 0
    else (if events[0].ToolEnd? && events[0].callId == id then 1 else 0) + EndsOf(events[1..], id)
  }

  lemma {:induction false} OpenCounts(open: multiset<string>, events: seq<Event>, id: string)
    requires Bracketed(open, events)
    ensures OpenAfterAll(open, events)[id] == open[id] + StartsOf(events, id) - EndsOf(events, id)
    decreases events
  {
    if events != [] {
      OpenCounts(OpenAfter(open, events[0]), events[1..], id);
    }
  }

  /** Brackets in plain terms: before every update and every end of an id, more calls with that id
    have started than have ended, and before every end of a turn as many have ended as started. */
  lemma BracketedMeans(events: seq<Event>, k: nat, id: string)
    requires Bracketed(multiset{}, events) && k < |events|
    ensures (events[k].ToolUpdate? || events[k].ToolEnd?) && events[k].callId == id ==>
              StartsOf(events[..k], id) > EndsOf(events[..k], id)
    ensures events[k].TurnEnd? ==> StartsOf(events[..k], id) == EndsOf(events[..k], id)
  {
    assert events == events[..k] + events[k..];
    BracketedAppend(multiset{}, events[..k], events[k..]);
    OpenCounts(multiset{}, events[..k], id);
  }

  // ----- calls that the agent lists as pending -----

  /** Every tool update arrives while the agent lists its call as pending. */
  predicate UpdatesPending(pendingCalls: set<string>, events: seq<Event>)
    decreases events
  {
    events != [] ==>
      && (events[0].ToolUpdate? ==> events[0].callId in pendingCalls)
      && UpdatesPending(Reduce(View([], None, pendingCalls, None), events[0]).pendingCalls, events[1..])
  }

  lemma {:induction false} UpdatesAppend(view: View, left: seq<Event>, right: seq<Event>)
    ensures UpdatesPending(view.pendingCalls, left + right) <==>
            UpdatesPending(view.pendingCalls, left) && UpdatesPending(ReduceAll(view, left).pendingCalls, right)
    decreases left
  {
    if left == [] {
      assert left + right == right;
    } else {
      assert (left + right)[1..] == left[1..] + right;
      UpdatesAppend(Reduce(view, left[0]), left[1..], right);
    }
  }

  // ----- whole messages -----

  /** Start and end events of messages that are not streamed. */
  function Announce(messages: seq<Message>): seq<Event> {
    if messages == [] then [] else [MessageStart(messages[0]), MessageEnd(messages[0])] + Announce(messages[1..])
  }

  lemma {:induction false} AnnounceAppend(messages: seq<Message>, message: Message)
    ensures Announce(messages + [message]) == Announce(messages) + [MessageStart(message), MessageEnd(message)]
  {
    if messages == [] {
      assert messages + [message] == [message];
      assert [message][1..] == [];
    } else {
      assert (messages + [message])[1..] == messages[1..] + [message];
      AnnounceAppend(messages[1..], message);
    }
  }

  lemma {:induction false} AnnounceEffect(view: View, messages: seq<Message>)
    ensures var after := ReduceAll(view, Announce(messages));
            && after.messages == view.messages + messages
            && after.pendingCalls == view.pendingCalls
            && after.error == view.error
    ensures Parse(InTurn, Announce(messages)) == InTurn
    ensures UpdatesPending(view.pendingCalls, Announce(messages))
    decreases messages
  {
    if messages != [] {
      var pair := [MessageStart(messages[0]), MessageEnd(messages[0])];
      var rest := Announce(messages[1..]);
      assert pair[1..] == [MessageEnd(messages[0])] && pair[1..][1..] == [];
      ReduceAppend(view, pair, rest);
      ParseAppend(InTurn, pair, rest);
      UpdatesAppend(view, pair, rest);
      var middle := view.(streaming := None, messages := view.messages + [messages[0]]);
      assert ReduceAll(view, pair) == ReduceAll(Reduce(view, pair[0]), pair[1..]) == middle;
      assert Parse(InTurn, pair) == Parse(InMessage, pair[1..]) == InTurn;
      assert UpdatesPending(view.pendingCalls, pair) by {
        assert UpdatesPending(view.pendingCalls, pair[1..]) by {
          assert UpdatesPending(view.pendingCalls, pair[1..][1..]);
        }
      }
      AnnounceEffect(middle, messages[1..]);
      assert middle.messages + messages[1..] == view.messages + messages;
    } else {
      assert view.messages + messages == view.messages;
    }
  }

  // ----- what the reduced state means, read from the end of the trace -----

  /** The messages that ended. */
  function EndedMessages(events: seq<Event>): seq<Message> {
    if events == [] then []
    else
      var init, last := events[..|events| - 1], events[|events| - 1];
      if last.MessageEnd? then EndedMessages(init) + [last.message] else EndedMessages(init)
  }

  /** The message shown last, unless it ended or the run did; `None` when no event says so. */
  function ShownLast(events: seq<Event>): Option<Option<Message>> {
    if events == [] then None
    else
      var last := events[|events| - 1];
      if last.MessageStart? || last.MessageUpdate? then Some(Some(last.message))
      else if last.MessageEnd? || last.AgentEnd? then Some(None)
      else ShownLast(events[..|events| - 1])
  }

  /** Whether the last event of a call is its start; `before` when it has none. */
  function StartedLast(events: seq<Event>, id: string, before: bool): bool {
    if events == [] then before
    else
      var last := events[|events| - 1];
      if last.ToolStart? && last.callId == id then true
      else if last.ToolEnd? && last.callId == id then false
      else StartedLast(events[..|events| - 1], id, before)
  }

  /** The error of the last turn that ended with one. */
  function ErrorLast(events: seq<Event>): Option<string> {
    if events == [] then None
    else
      var last := events[|events| - 1];
      if last.TurnEnd? && last.message.body.Assistant? && last.message.body.error.Some? && last.message.body.error != Some("")
      then last.message.body.error
      else ErrorLast(events[..|events| - 1])
  }

  /** The agent's state after any trace: every ended message in order, the message being shown, the calls
    whose last event is their start, and the last error of a turn. */
  lemma {:induction false} ReduceMeans(view: View, events: seq<Event>)
    ensures var after := ReduceAll(view, events);
            && after.messages == view.messages + EndedMessages(events)
            && after.streaming == (if ShownLast(events).Some? then ShownLast(events).value else view.streaming)
            && (forall id :: id in after.pendingCalls <==> StartedLast(events, id, id in view.pendingCalls))
            && after.error == (if ErrorLast(events).Some? then ErrorLast(events) else view.error)
    decreases |events|
  {
    hide ReduceAll;
    if events == [] {
      ReduceNone(view);
      assert view.messages + [] == view.messages;
    } else {
      var init, last := events[..|events| - 1], events[|events| - 1];
      ReduceMeans(view, init);
      ReduceLast(view, events);
      if last.MessageEnd? { assert view.messages + EndedMessages(init) + [last.message] == view.messages + (EndedMessages(init) + [last.message]); }
    }
  }

  lemma ReduceNone(view: View)
    ensures ReduceAll(view, []) == view
  {
  }

  lemma ReduceLast(view: View, events: seq<Event>)
    requires events != []
    ensures ReduceAll(view, events) == Reduce(ReduceAll(view, events[..|events| - 1]), events[|events| - 1])
  {
    var init, last := events[..|events| - 1], events[|events| - 1];
    ReduceAppend(view, init, [last]);
    assert events == init + [last] && [last][1..] == [];
    assert ReduceAll(ReduceAll(view, init), [last]) == Reduce(ReduceAll(view, init), last);
  }

  /** While the trace follows the grammar, a message is shown exactly while one is open. */
  lemma {:induction false} ShownWhileOpen(view: View, phase: Phase, events: seq<Event>)
    requires phase != Broken && (view.streaming.Some? <==> phase == InMessage)
    ensures Parse(phase, events) != Broken ==> (ReduceAll(view, events).streaming.Some? <==> Parse(phase, events) == InMessage)
    decreases events
  {
    if events != [] {
      if Next(phase, events[0]) == Broken {
        BrokenStays(events[1..]);
      } else {
        ShownWhileOpen(Reduce(view, events[0]), Next(phase, events[0]), events[1..]);
      }
    }
  }
}
