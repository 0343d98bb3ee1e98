/** Whole-run theorems about the message queues and the context-status notes. */
module LoopQueues {
  import opened Transcript
  import opened Events
  import opened ToolBatch
  import opened AgentLoop
  import opened LoopViews
  import opened LoopTrace

  // ----- provenance labels -----

  ghost predicate Labelled(messages: seq<Message>, origin: Origin) {
    forall i :: 0 <= i < |messages| ==> messages[i].origin == origin
  }

  ghost predicate LabelledArrivals(arrived: Arrivals) {
    Labelled(arrived.steering, Steering) && Labelled(arrived.followUp, FollowUp)
  }

  /** Every message of the script is labelled with the source it comes from. */
  ghost predicate LabelledInput(input: TurnInput) {
    && LabelledArrivals(input.before) && LabelledArrivals(input.after) && LabelledArrivals(input.idle)
    && Labelled(input.update.messages, Prepared)
    && Labelled(input.notes, Note)
  }

  ghost predicate LabelledScript(script: seq<TurnInput>) {
    forall i :: 0 <= i < |script| ==> LabelledInput(script[i])
  }

  /** Queues and notes hold only their own messages, and notes exist only after a first turn. */
  ghost predicate Tidy(loop: Loop) {
    && Labelled(loop.steering, Steering) && Labelled(loop.followUp, FollowUp) && Labelled(loop.notes, Note)
    && (!loop.started ==> loop.notes == [])
  }

  lemma {:induction false} FromOther(messages: seq<Message>, own: Origin, origin: Origin)
    requires Labelled(messages, own) && own != origin
    ensures From(messages, origin) == []
  {
    if messages != [] {
      FromOther(messages[1..], own, origin);
    }
  }

  // ----- conservation -----

  predicate Queued(origin: Origin) { origin == Steering || origin == FollowUp || origin == Note }

  function Held(loop: Loop, origin: Origin): seq<Message> {
    match origin
    case Steering => loop.steering
    case FollowUp => loop.followUp
    case Note => loop.notes
    case _ => []
  }

  /** Delivered, about to be delivered, still queued. */
  function Delivered(loop: Loop, origin: Origin): seq<Message> { From(loop.produced, origin) }

  function Due(loop: Loop, origin: Origin): seq<Message> { From(loop.pending, origin) }

  function Kept(loop: Loop, origin: Origin): seq<Message> { From(Held(loop, origin), origin) }

  function Ledger(loop: Loop, origin: Origin): seq<Message> {
    Delivered(loop, origin) + (Due(loop, origin) + Kept(loop, origin))
  }

  function Taken(arrived: Arrivals, origin: Origin): seq<Message> {
    From(match origin
         case Steering => arrived.steering
         case FollowUp => arrived.followUp
         case _ => [], origin)
  }

  lemma EnqueueLedger(loop: Loop, arrived: Arrivals, origin: Origin)
    requires Queued(origin) && Tidy(loop) && LabelledArrivals(arrived)
    ensures Tidy(Enqueue(loop, arrived))
    ensures Kept(Enqueue(loop, arrived), origin) == Kept(loop, origin) + Taken(arrived, origin)
  {
    FromAppend(loop.steering, arrived.steering, origin);
    FromAppend(loop.followUp, arrived.followUp, origin);
  }

  /** A drain of a queue keeps its order. */
  lemma SelectedLedger(queue: seq<Message>, mode: QueueMode, own: Origin, origin: Origin)
    requires Labelled(queue, own)
    ensures var got := Selected(queue, mode);
            && Labelled(got, own) && Labelled(queue[|got|..], own)
            && From(got, origin) + From(queue[|got|..], origin) == From(queue, origin)
            && (own != origin ==> From(got, origin) == [])
  {
    var got := Selected(queue, mode);
    assert queue == got + queue[|got|..];
    FromAppend(got, queue[|got|..], origin);
    if own != origin {
      FromOther(got, own, origin);
    }
  }

  lemma PollLedger(loop: Loop, mode: QueueMode, origin: Origin)
    requires Queued(origin) && Tidy(loop)
    ensures Tidy(Poll(loop, mode))
    ensures Due(Poll(loop, mode), origin) + Kept(Poll(loop, mode), origin) == Kept(loop, origin)
  {
    SelectedLedger(loop.steering, mode, Steering, origin);
  }

  lemma FromNone(origin: Origin)
    ensures From([], origin) == []
  {
  }

  lemma RepollLedger(loop: Loop, mode: QueueMode, origin: Origin)
    requires Queued(origin) && Tidy(loop)
    ensures var polled := Repolled(loop, mode);
            && Tidy(polled) && polled.notes == loop.notes && polled.produced == loop.produced
            && Due(polled, origin) + Kept(polled, origin) == Due(loop, origin) + Kept(loop, origin)
            && (origin == Note ==> Due(polled, origin) == Due(loop, origin))
  {
    hide From;
    if loop.pending == [] {
      FromNone(origin);
      PollLedger(loop, mode, origin);
      SelectedLedger(loop.steering, mode, Steering, origin);
    }
  }

  lemma BeginShape(loop: Loop, input: TurnInput)
    ensures var begun := Begin(loop, input);
            var polled := Repolled(Enqueue(loop, input.before), input.before.steeringMode);
            var now := if loop.started then polled else Enqueue(loop, input.before);
            && begun.steering == now.steering && begun.followUp == now.followUp && begun.started == loop.started
            && begun.pending == now.pending + (if loop.started then loop.notes else [])
            && begun.notes == (if loop.started then [] else loop.notes)
  {
  }

  lemma BeginLedger(loop: Loop, input: TurnInput, origin: Origin)
    requires Queued(origin) && Tidy(loop) && LabelledInput(input)
    ensures Tidy(Begin(loop, input)) && Begin(loop, input).notes == []
    ensures Due(Begin(loop, input), origin) + Kept(Begin(loop, input), origin)
            == Due(loop, origin) + Kept(loop, origin) + Taken(input.before, origin)
  {
    hide From, Begin, Repolled, Enqueue;
    var queued := Enqueue(loop, input.before);
    var polled := Repolled(queued, input.before.steeringMode);
    var begun := Begin(loop, input);
    EnqueueKeeps(loop, input.before);
    EnqueueLedger(loop, input.before, origin);
    RepollLedger(queued, input.before.steeringMode, origin);
    BeginShape(loop, input);
    FromNone(origin);
    if loop.started {
      FromAppend(polled.pending, loop.notes, origin);
      if origin == Note {
        assert Taken(input.before, Note) == [];
      } else {
        FromOther(loop.notes, Note, origin);
        assert Due(begun, origin) == Due(polled, origin) && Kept(begun, origin) == Kept(polled, origin);
        assert Due(loop, origin) + (Kept(loop, origin) + Taken(input.before, origin)) == Due(loop, origin) + Kept(loop, origin) + Taken(input.before, origin);
      }
    } else {
      assert begun.pending == queued.pending;
    }
  }

  lemma EnqueueKeeps(loop: Loop, arrived: Arrivals)
    ensures Enqueue(loop, arrived) == loop.(steering := Enqueue(loop, arrived).steering, followUp := Enqueue(loop, arrived).followUp)
  {
  }

  lemma InjectLedger(loop: Loop, prepared: seq<Message>, origin: Origin)
    requires Queued(origin) && Labelled(prepared, Prepared)
    ensures Delivered(Inject(loop, prepared), origin) == Delivered(loop, origin) + Due(loop, origin)
    ensures Kept(Inject(loop, prepared), origin) == Kept(loop, origin)
  {
    hide From, DeclareChanges;
    DeclarationKeepsPending(loop.context, prepared + loop.pending, origin);
    FromAppend(prepared, loop.pending, origin);
    FromOther(prepared, Prepared, origin);
    FromAppend(loop.produced, DeclareChanges(loop.context, prepared + loop.pending), origin);
  }

  lemma RespondLedger(loop: Loop, input: TurnInput, origin: Origin)
    requires Queued(origin)
    ensures Delivered(Respond(loop, input), origin) == Delivered(loop, origin)
  {
    var final := input.response.final.ToMessage();
    FromAppend(loop.produced, [final], origin);
    FromOther([final], Model, origin);
  }

  lemma CloseTurnLedger(loop: Loop, input: TurnInput, origin: Origin)
    requires Queued(origin)
    ensures Delivered(CloseTurn(loop, input), origin) == Delivered(loop, origin)
  {
    var calls := Calls(input.response.final.blocks);
    var results := (if calls == [] then Batch([], []) else RunTools(loop, input)).Messages();
    ResultsLabelled(if calls == [] then [] else RunTools(loop, input).finals);
    FromAppend(loop.produced, results, origin);
    FromOther(results, ToolRun, origin);
  }

  lemma ResultsLabelled(finals: seq<Finalized>)
    ensures Labelled(ResultMessages(finals), ToolRun)
  {
  }

  lemma AfterTurnLedger(loop: Loop, input: TurnInput, origin: Origin)
    requires Queued(origin) && Tidy(loop) && LabelledInput(input) && loop.notes == [] && loop.started
    ensures Tidy(AfterTurn(loop, input))
    ensures Due(AfterTurn(loop, input), origin) + Kept(AfterTurn(loop, input), origin) ==
            Kept(loop, origin) + (if origin == Note then From(input.notes, Note) else Taken(input.after, origin))
  {
    var queued := Enqueue(loop, input.after);
    EnqueueLedger(loop, input.after, origin);
    PollLedger(queued, input.after.steeringMode, origin);
    SelectedLedger(queued.steering, input.after.steeringMode, Steering, origin);
  }

  lemma IdlingLedger(loop: Loop, input: TurnInput, origin: Origin)
    requires Queued(origin) && Tidy(loop) && loop.pending == []
    ensures Tidy(Idling(loop, input))
    ensures Due(Idling(loop, input), origin) + Kept(Idling(loop, input), origin) == Kept(loop, origin)
  {
    SelectedLedger(loop.followUp, input.idle.followUpMode, FollowUp, origin);
  }

  /** The notes that the hook was asked for during a turn. */
  function NotesOf(input: TurnInput): seq<Message> {
    if input.response.final.Failed() || input.decision == End then [] else input.notes
  }

  function LateGains(input: TurnInput, origin: Origin): seq<Message> {
    if origin == Note then From(NotesOf(input), Note) else Taken(input.after, origin) + Taken(input.idle, origin)
  }

  /** What a turn adds to each ledger. */
  function Gains(input: TurnInput, origin: Origin): seq<Message> {
    Taken(input.before, origin) + LateGains(input, origin)
  }

  lemma LeaveLedger(loop: Loop, input: TurnInput, exit: Exit, origin: Origin)
    requires Queued(origin) && Tidy(loop) && LabelledInput(input) && loop.pending == []
    requires NotesOf(input) == []
    ensures var left := Leave(Enqueue(Enqueue(loop, input.after), input.idle), exit);
            Tidy(left) && left.pending == [] && Due(left, origin) + Kept(left, origin) == Kept(loop, origin) + LateGains(input, origin)
  {
    hide From, Enqueue;
    var once := Enqueue(loop, input.after);
    var twice := Enqueue(once, input.idle);
    FromNone(origin);
    EnqueueKeeps(loop, input.after);
    EnqueueKeeps(once, input.idle);
    EnqueueLedger(loop, input.after, origin);
    EnqueueLedger(once, input.idle, origin);
    assert Kept(Leave(twice, exit), origin) == Kept(loop, origin) + Taken(input.after, origin) + Taken(input.idle, origin);
  }

  lemma ScheduleLedger(loop: Loop, input: TurnInput, origin: Origin)
    requires Queued(origin) && Tidy(loop) && LabelledInput(input) && loop.notes == [] && loop.started
    requires !input.response.final.Failed() && input.decision != End
    ensures var next := Enqueue(AfterTurn(loop, input), input.idle);
            && Tidy(next)
            && Due(next, origin) + Kept(next, origin) == Kept(loop, origin) + LateGains(input, origin)
  {
    hide From, AfterTurn;
    var after := AfterTurn(loop, input);
    FromNone(origin);
    AfterTurnLedger(loop, input, origin);
    EnqueueLedger(after, input.idle, origin);
    assert Due(after, origin) + (Kept(after, origin) + Taken(input.idle, origin)) == (Due(after, origin) + Kept(after, origin)) + Taken(input.idle, origin);
    assert Kept(loop, origin) + Taken(input.after, origin) + Taken(input.idle, origin) == Kept(loop, origin) + (Taken(input.after, origin) + Taken(input.idle, origin));
  }

  lemma ConcludeLedger(loop: Loop, input: TurnInput, origin: Origin)
    requires Queued(origin) && Tidy(loop) && LabelledInput(input) && loop.pending == [] && loop.notes == []
    ensures Tidy(Conclude(loop, input))
    ensures Due(Conclude(loop, input), origin) + Kept(Conclude(loop, input), origin) == Kept(loop, origin) + LateGains(input, origin)
  {
    hide From, CloseTurn, AfterTurn, Idling;
    CloseTurnKeeps(loop, input);
    if input.response.final.Failed() {
      var final := input.response.final.ToMessage();
      var ended := loop.(events := loop.events + [TurnEnd(final, [])], control := loop.control + [AskedFinish(final, [])], started := true);
      LeaveLedger(ended, input, Failure, origin);
    } else if input.decision == End {
      LeaveLedger(CloseTurn(loop, input), input, Decided, origin);
    } else {
      var closed := CloseTurn(loop, input);
      ScheduleLedger(closed, input, origin);
      var next := Enqueue(AfterTurn(closed, input), input.idle);
      if !(next.more || next.pending != []) {
        FromNone(origin);
        IdlingLedger(next, input, origin);
      }
    }
  }

  lemma TurnDelivers(loop: Loop, input: TurnInput, origin: Origin)
    requires Queued(origin) && LabelledInput(input) && loop.exit.None?
    ensures Delivered(Turn(loop, input), origin) == Delivered(loop, origin) + Due(Begin(loop, input), origin)
    ensures Delivered(Injected(loop, input), origin) == Delivered(loop, origin) + Due(Begin(loop, input), origin)
  {
    hide From, Begin, Conclude, CloseTurn;
    var injected := Injected(loop, input);
    var responded := Respond(injected, input);
    BeginKeeps(loop, input);
    InjectLedger(Begin(loop, input), PreparedMessages(loop, input), origin);
    RespondLedger(injected, input, origin);
    CloseTurnLedger(responded, input, origin);
    ConcludeShape(responded, input);
  }

  lemma InjectedTidy(loop: Loop, input: TurnInput)
    requires Tidy(Begin(loop, input)) && Begin(loop, input).notes == []
    ensures var responded := Respond(Injected(loop, input), input);
            && Tidy(responded) && responded.notes == [] && responded.pending == []
            && forall origin :: Held(responded, origin) == Held(Begin(loop, input), origin)
  {
    hide Begin, DeclareChanges;
  }

  lemma TurnLedger(loop: Loop, input: TurnInput, origin: Origin)
    requires Queued(origin) && Tidy(loop) && LabelledInput(input) && loop.exit.None?
    ensures Tidy(Turn(loop, input))
    ensures Ledger(Turn(loop, input), origin) == Ledger(loop, origin) + Gains(input, origin)
  {
    hide From, Begin, Conclude, Respond, Inject, LateGains;
    var begun := Begin(loop, input);
    var responded := Respond(Injected(loop, input), input);
    BeginLedger(loop, input, origin);
    InjectedTidy(loop, input);
    ConcludeLedger(responded, input, origin);
    TurnDelivers(loop, input, origin);
    assert Kept(responded, origin) == Kept(begun, origin);
    Balance(Delivered(loop, origin), Due(begun, origin), Kept(begun, origin), LateGains(input, origin),
            Due(Turn(loop, input), origin) + Kept(Turn(loop, input), origin),
            Due(loop, origin) + Kept(loop, origin), Taken(input.before, origin));
  }

  lemma Balance<T>(delivered: seq<T>, due: seq<T>, kept: seq<T>, late: seq<T>, rest: seq<T>, held: seq<T>, early: seq<T>)
    requires due + kept == held + early && rest == kept + late
    ensures (delivered + due) + rest == (delivered + held) + (early + late)
  {
    assert (delivered + due) + rest == delivered + (due + kept) + late;
    assert (delivered + held) + (early + late) == delivered + (held + early) + late;
  }

  /** What a script adds to a queue, or returns as notes. */
  function AllGains(script: seq<TurnInput>, origin: Origin): seq<Message> {
    if script == [] then [] else Gains(script[0], origin) + AllGains(script[1..], origin)
  }

  /** Queue conservation: over every run and on every exit path, what was delivered, followed by what
    is about to be delivered, followed by what is still queued, is exactly what was there at the
    start followed by what arrived, in order, up to the tool fields of system messages. The same
    holds for the notes that the hook returned, so none is overwritten, lost or delivered twice. */
  lemma {:induction false} QueuesConserved(loop: Loop, script: seq<TurnInput>, origin: Origin)
    requires Queued(origin) && Tidy(loop) && LabelledScript(script)
    ensures Tidy(Run(loop, script))
    ensures Ledger(Run(loop, script), origin) == Ledger(loop, origin) + AllGains(Used(loop, script), origin)
    decreases script
  {
    hide Ledger, Turn, Gains;
    if script != [] && loop.exit.None? {
      var next := Turn(loop, script[0]);
      assert LabelledInput(script[0]);
      TurnLedger(loop, script[0], origin);
      QueuesConserved(next, script[1..], origin);
      assert Used(loop, script)[1..] == Used(next, script[1..]);
    }
  }

  /** When a run has left, nothing is about to be delivered any more. */
  lemma {:induction false} NothingStranded(loop: Loop, script: seq<TurnInput>)
    requires loop.exit.None?
    ensures Run(loop, script).exit.Some? ==> Run(loop, script).pending == []
    decreases script
  {
    if script != [] {
      hide Conclude, Begin;
      var next := Turn(loop, script[0]);
      BeginKeeps(loop, script[0]);
      LeavesEmpty(Respond(Injected(loop, script[0]), script[0]), script[0]);
      if next.exit.None? {
        NothingStranded(next, script[1..]);
      }
    }
  }

  lemma LeavesEmpty(loop: Loop, input: TurnInput)
    requires loop.pending == [] && loop.exit.None?
    ensures Conclude(loop, input).exit.Some? ==> Conclude(loop, input).pending == []
  {
    hide CloseTurn;
    CloseTurnKeeps(loop, input);
  }

  /** Notes queued after a turn are delivered in the next one, all of them and once; that turn's own
    notes wait for the turn after. */
  lemma NotesReachNextTurn(loop: Loop, input: TurnInput)
    requires Tidy(loop) && LabelledInput(input) && Due(loop, Note) == [] && loop.exit.None?
    ensures Delivered(Turn(loop, input), Note) == Delivered(loop, Note) + From(loop.notes, Note)
    ensures Due(Turn(loop, input), Note) == []
    ensures From(Turn(loop, input).notes, Note) == From(NotesOf(input), Note)
  {
    hide From, Begin, Conclude, Respond, Inject;
    var begun := Begin(loop, input);
    var responded := Respond(Injected(loop, input), input);
    FromNone(Note);
    BeginLedger(loop, input, Note);
    TurnDelivers(loop, input, Note);
    InjectedTidy(loop, input);
    ConcludeLedger(responded, input, Note);
    PendingHasNoNotes(responded, input);
    assert Kept(begun, Note) == [] && Kept(responded, Note) == [] && Taken(input.before, Note) == [];
    assert Due(begun, Note) + [] == Due(begun, Note);
    assert [] + From(loop.notes, Note) + [] == From(loop.notes, Note);
    assert [] + Kept(Turn(loop, input), Note) == Kept(Turn(loop, input), Note);
  }

  lemma PendingHasNoNotes(loop: Loop, input: TurnInput)
    requires loop.pending == [] && Tidy(loop) && LabelledInput(input)
    ensures Due(Conclude(loop, input), Note) == []
  {
    hide From, Conclude;
    FromNone(Note);
    SelectedLedger(loop.steering + input.after.steering, input.after.steeringMode, Steering, Note);
    SelectedLedger(loop.followUp + input.after.followUp + input.idle.followUp, input.idle.followUpMode, FollowUp, Note);
    PendingSource(loop, input);
  }

  lemma PendingSource(loop: Loop, input: TurnInput)
    requires loop.pending == []
    ensures var pending := Conclude(loop, input).pending;
            || pending == []
            || pending == Selected(loop.steering + input.after.steering, input.after.steeringMode)
            || pending == Selected(loop.followUp + input.after.followUp + input.idle.followUp, input.idle.followUpMode)
  {
    hide CloseTurn, Selected;
    CloseTurnKeeps(loop, input);
  }

  // ----- one steering message at a time -----

  /** Where the gap before the k-th request starts: at the previous request, or at the start. */
  function Gap(requests: seq<Control>, k: nat): nat
    requires k <= |requests|
  {
    if k == 0 || !requests[k - 1].Requested? then 0 else requests[k - 1].delivered
  }

  function LastDelivered(loop: Loop): nat {
    var requests := Requests(loop.control);
    Gap(requests, |requests|)
  }

  /** At most one steering message enters between consecutive provider requests. */
  ghost predicate Spaced(loop: Loop) {
    var requests := Requests(loop.control);
    forall k :: 0 <= k < |requests| ==>
      && requests[k].Requested?
      && Gap(requests, k) <= requests[k].delivered <= |loop.produced|
      && |From(loop.produced[Gap(requests, k)..requests[k].delivered], Steering)| <= 1
  }

  /** What has entered since the last request, together with what is about to. */
  ghost predicate AtMostOneWaiting(loop: Loop) {
    && LastDelivered(loop) <= |loop.produced|
    && |From(loop.produced[LastDelivered(loop)..], Steering)| + |From(loop.pending, Steering)| <= 1
    && (loop.started ==> From(loop.produced[LastDelivered(loop)..], Steering) == [])
  }

  lemma SelectedOne(queue: seq<Message>)
    ensures |From(Selected(queue, OneAtATime), Steering)| <= 1
  {
    var got := Selected(queue, OneAtATime);
    if got != [] {
      assert got[1..] == [];
      assert From(got[1..], Steering) == [];
    }
  }

  lemma BeginOne(loop: Loop, input: TurnInput)
    requires Tidy(loop) && LabelledInput(input) && AtMostOneWaiting(loop)
    requires input.before.steeringMode == OneAtATime
    ensures |From(loop.produced[LastDelivered(loop)..], Steering)| + |Due(Begin(loop, input), Steering)| <= 1
  {
    hide From, Selected, LastDelivered;
    if loop.started {
      var queued := loop.steering + input.before.steering;
      SelectedOne(queued);
      var got := if loop.pending == [] then Selected(queued, OneAtATime) else loop.pending;
      FromAppend(got, loop.notes, Steering);
      FromOther(loop.notes, Note, Steering);
      assert Begin(loop, input).pending == got + loop.notes;
    }
  }

  lemma ConcludeOne(loop: Loop, input: TurnInput)
    requires loop.pending == [] && Tidy(loop) && LabelledInput(input)
    requires input.after.steeringMode == OneAtATime
    ensures |Due(Conclude(loop, input), Steering)| <= 1
  {
    hide From, Conclude, Selected;
    FromNone(Steering);
    SelectedOne(loop.steering + input.after.steering);
    SelectedLedger(loop.followUp + input.after.followUp + input.idle.followUp, input.idle.followUpMode, FollowUp, Steering);
    PendingSource(loop, input);
  }

  /** Appending a request whose gap holds at most one steering message keeps the spacing. */
  lemma SliceOfPrefix(left: seq<Message>, right: seq<Message>, from: nat, end: nat)
    requires left <= right && from <= end <= |left|
    ensures right[from..end] == left[from..end]
  {
  }

  lemma SpacedAppend(before: Loop, after: Loop, request: Control)
    requires Spaced(before) && request.Requested? && LastDelivered(before) <= |before.produced| <= request.delivered <= |after.produced|
    requires before.produced <= after.produced
    requires Requests(after.control) == Requests(before.control) + [request]
    requires |From(after.produced[LastDelivered(before)..request.delivered], Steering)| <= 1
    ensures Spaced(after)
  {
    hide From, Requests;
    var requests, earlier := Requests(after.control), Requests(before.control);
    forall k | 0 <= k < |requests|
      ensures requests[k].Requested? && Gap(requests, k) <= requests[k].delivered <= |after.produced|
      ensures |From(after.produced[Gap(requests, k)..requests[k].delivered], Steering)| <= 1
    {
      if k < |earlier| {
        assert Gap(requests, k) == Gap(earlier, k) && requests[k] == earlier[k];
        SliceOfPrefix(before.produced, after.produced, Gap(earlier, k), earlier[k].delivered);
      } else {
        assert Gap(requests, k) == LastDelivered(before);
      }
    }
  }

  lemma TurnSpaced(loop: Loop, input: TurnInput)
    requires Tidy(loop) && LabelledInput(input) && Spaced(loop) && AtMostOneWaiting(loop) && loop.exit.None?
    requires input.before.steeringMode == OneAtATime && input.after.steeringMode == OneAtATime
    ensures Spaced(Turn(loop, input)) && AtMostOneWaiting(Turn(loop, input))
  {
    hide From, Spaced, Begin, Conclude, Respond, Inject, Requests;
    var injected := Injected(loop, input);
    var next := Turn(loop, input);
    TurnRequests(loop, input);
    TurnDelivers(loop, input, Steering);
    Entered(loop.produced, injected.produced, next.produced, LastDelivered(loop), Due(Begin(loop, input), Steering));
    BeginOne(loop, input);
    SpacedAppend(loop, next, RequestOf(loop, input));
    BeginLedger(loop, input, Steering);
    InjectedTidy(loop, input);
    ConcludeOne(Respond(injected, input), input);
    assert LastDelivered(next) == |injected.produced|;
  }

  /** Messages that entered between two lengths of a growing list. */
  lemma Entered(before: seq<Message>, injected: seq<Message>, after: seq<Message>, last: nat, due: seq<Message>)
    requires before <= injected <= after && last <= |before|
    requires From(injected, Steering) == From(before, Steering) + due
    requires From(after, Steering) == From(injected, Steering)
    ensures From(after[last..|injected|], Steering) == From(before[last..], Steering) + due
    ensures From(after[|injected|..], Steering) == []
  {
    hide From;
    SplitFrom(before, last, Steering);
    SplitFrom(injected, last, Steering);
    SplitFrom(after, |injected|, Steering);
    assert after[..|injected|] == injected;
    assert after[last..|injected|] == injected[last..];
    assert injected[..last] == before[..last];
    Cancel(From(before[..last], Steering), From(injected[last..], Steering), From(before[last..], Steering) + due);
    assert From(before[..last], Steering) + (From(before[last..], Steering) + due) == From(before, Steering) + due;
  }

  lemma Cancel<T>(prefix: seq<T>, left: seq<T>, right: seq<T>)
    requires prefix + left == prefix + right
    ensures left == right
  {
    assert left == (prefix + left)[|prefix|..];
    assert right == (prefix + right)[|prefix|..];
  }

  lemma SplitFrom(messages: seq<Message>, at: nat, origin: Origin)
    requires at <= |messages|
    ensures From(messages, origin) == From(messages[..at], origin) + From(messages[at..], origin)
  {
    assert messages == messages[..at] + messages[at..];
    FromAppend(messages[..at], messages[at..], origin);
  }

  ghost predicate OneAtATimeScript(script: seq<TurnInput>) {
    forall i :: 0 <= i < |script| ==> script[i].before.steeringMode == OneAtATime && script[i].after.steeringMode == OneAtATime
  }

  /** In one-at-a-time mode at most one steering message enters between consecutive provider
    requests of a run, including the first. */
  lemma {:induction false} SteeringOneAtATime(loop: Loop, script: seq<TurnInput>)
    requires Tidy(loop) && LabelledScript(script) && OneAtATimeScript(script) && Spaced(loop) && AtMostOneWaiting(loop)
    ensures Spaced(Run(loop, script))
    decreases script
  {
    if script != [] && loop.exit.None? {
      assert LabelledInput(script[0]);
      TurnLedger(loop, script[0], Steering);
      TurnSpaced(loop, script[0]);
      SteeringOneAtATime(Turn(loop, script[0]), script[1..]);
    }
  }

  /** Runs start with at most one steering message: either the prompts hold none, or they are one
    drained steering message and the first poll is skipped. */
  lemma StartSpaced(prompts: seq<Message>, context: Context, skip: bool, arrived: Arrivals)
    requires LabelledArrivals(arrived) && arrived.steeringMode == OneAtATime
    requires |From(prompts, Steering)| + (if skip then 0 else 1) <= 1
    ensures var loop := StartPrompt(prompts, context, skip, arrived); Tidy(loop) && Spaced(loop) && AtMostOneWaiting(loop)
    ensures var loop := StartContinue(context, arrived); Tidy(loop) && Spaced(loop) && AtMostOneWaiting(loop)
  {
    hide From, DeclareChanges;
    FromNone(Steering);
    DeclarationKeepsPending(context, prompts, Steering);
    SelectedOne(arrived.steering);
    var one, other := StartPrompt(prompts, context, skip, arrived), StartContinue(context, arrived);
    NoRequests(one.control);
    NoRequests(other.control);
    assert one.produced[0..] == one.produced;
  }

  /** A prompt run accounts for its prompts and its queues. */
  lemma StartLedger(prompts: seq<Message>, context: Context, skip: bool, arrived: Arrivals, origin: Origin)
    requires Queued(origin) && LabelledArrivals(arrived)
    ensures var loop := StartPrompt(prompts, context, skip, arrived);
            Tidy(loop) && Ledger(loop, origin) == From(prompts, origin) + Taken(arrived, origin)
    ensures var loop := StartContinue(context, arrived);
            Tidy(loop) && Ledger(loop, origin) == Taken(arrived, origin)
  {
    hide From, DeclareChanges, FirstPoll;
    DeclarationKeepsPending(context, prompts, origin);
    OpenLedger(context, DeclareChanges(context, prompts), skip, arrived, origin);
    OpenLedger(context, [], false, arrived, origin);
    FromNone(origin);
    assert [] + Taken(arrived, origin) == Taken(arrived, origin);
  }

  lemma OpenLedger(context: Context, messages: seq<Message>, skip: bool, arrived: Arrivals, origin: Origin)
    requires Queued(origin) && LabelledArrivals(arrived)
    ensures var loop := FirstPoll(Open(context, messages, arrived.steering, arrived.followUp), skip, arrived.steeringMode);
            Tidy(loop) && Ledger(loop, origin) == From(messages, origin) + Taken(arrived, origin)
  {
    hide From, Announce;
    var loop := Open(context, messages, arrived.steering, arrived.followUp);
    FromNone(origin);
    PollLedger(loop, arrived.steeringMode, origin);
    assert [] + Kept(loop, origin) == Kept(loop, origin);
  }

  // ----- notes do not steer the run -----

  /** The same question, apart from message contents that notes may change. */
  ghost predicate AlikeControl(one: Control, other: Control) {
    || one == other
    || (one.AskedNotes? && other.AskedNotes?)
    || (one.Requested? && other.Requested? && one.context.tools == other.context.tools)
  }

  ghost predicate AlikeControls(one: seq<Control>, other: seq<Control>) {
    |one| == |other| && forall i :: 0 <= i < |one| ==> AlikeControl(one[i], other[i])
  }

  /** Equal but for transcripts, notes and events. */
  ghost predicate Alike(one: Loop, other: Loop) {
    && one.more == other.more && one.continuing == other.continuing && one.started == other.started
    && one.steering == other.steering && one.followUp == other.followUp && one.exit == other.exit
    && one.context.tools == other.context.tools
    && one.pending == other.pending
    && AlikeControls(one.control, other.control)
  }

  /** The same answers, apart from the notes. */
  ghost predicate SameButNotes(one: TurnInput, other: TurnInput) {
    one.(notes := []) == other.(notes := [])
  }

  lemma AlikeAppend(one: seq<Control>, other: seq<Control>, more: seq<Control>, more': seq<Control>)
    requires AlikeControls(one, other) && AlikeControls(more, more')
    ensures AlikeControls(one + more, other + more')
  {
  }

  lemma InjectedAlike(one: Loop, other: Loop, input: TurnInput, input': TurnInput)
    requires Alike(one, other) && SameButNotes(input, input')
    ensures Alike(Injected(one, input), Injected(other, input'))
  {
    var begun, begun' := Begin(one, input), Begin(other, input');
    if one.started {
      var polled := if one.pending == [] then [PolledSteering(Selected(one.steering + input.before.steering, input.before.steeringMode))] else [];
      assert begun.control == one.control + ([AskedPrepare] + polled);
      assert begun'.control == other.control + ([AskedPrepare] + polled);
      AlikeAppend(one.control, other.control, [AskedPrepare] + polled, [AskedPrepare] + polled);
    }
    assert begun.steering == begun'.steering && begun.followUp == begun'.followUp && begun.context.tools == begun'.context.tools;
    InjectKeeps(begun, PreparedMessages(one, input));
    InjectKeeps(begun', PreparedMessages(other, input'));
  }

  lemma InjectKeeps(loop: Loop, prepared: seq<Message>)
    ensures var after := Inject(loop, prepared);
            after == loop.(context := loop.context.(messages := after.context.messages), produced := after.produced, events := after.events, pending := [])
  {
  }

  lemma CloseTurnAlike(one: Loop, other: Loop, input: TurnInput, input': TurnInput)
    requires Alike(one, other) && SameButNotes(input, input')
    ensures Alike(CloseTurn(one, input), CloseTurn(other, input'))
  {
    assert RunTools(one, input) == RunTools(other, input');
    var closed, closed' := CloseTurn(one, input), CloseTurn(other, input');
    var asked := closed.control[|one.control|];
    AlikeAppend(one.control, other.control, [asked], [asked]);
  }

  lemma AfterTurnAlike(one: Loop, other: Loop, input: TurnInput, input': TurnInput)
    requires Alike(one, other) && SameButNotes(input, input')
    ensures Alike(AfterTurn(one, input), AfterTurn(other, input'))
  {
    var got := Selected(one.steering + input.after.steering, input.after.steeringMode);
    AlikeAppend(one.control, other.control, [PolledSteering(got)], [PolledSteering(got)]);
    AlikeAppend(one.control + [PolledSteering(got)], other.control + [PolledSteering(got)], [AskedNotes(input.notes)], [AskedNotes(input'.notes)]);
  }

  lemma LeaveAlike(one: Loop, other: Loop, exit: Exit)
    requires Alike(one, other)
    ensures Alike(Leave(one, exit), Leave(other, exit))
  {
    AlikeAppend(one.control, other.control, [Left(exit)], [Left(exit)]);
  }

  lemma IdlingAlike(one: Loop, other: Loop, input: TurnInput, input': TurnInput)
    requires Alike(one, other) && SameButNotes(input, input')
    ensures Alike(Idling(one, input), Idling(other, input'))
  {
    var got := Selected(one.followUp, input.idle.followUpMode);
    AlikeAppend(one.control, other.control, [PolledFollowUp(got)], [PolledFollowUp(got)]);
    var polled := one.(followUp := one.followUp[|got|..], control := one.control + [PolledFollowUp(got)]);
    var polled' := other.(followUp := other.followUp[|got|..], control := other.control + [PolledFollowUp(got)]);
    LeaveAlike(polled, polled', Natural);
  }

  lemma EnqueueAlike(one: Loop, other: Loop, arrived: Arrivals)
    requires Alike(one, other)
    ensures Alike(Enqueue(one, arrived), Enqueue(other, arrived))
  {
  }

  lemma ConcludeAlike(one: Loop, other: Loop, input: TurnInput, input': TurnInput)
    requires Alike(one, other) && SameButNotes(input, input')
    ensures Alike(Conclude(one, input), Conclude(other, input'))
  {
    if input.response.final.Failed() {
      var final := input.response.final.ToMessage();
      AlikeAppend(one.control, other.control, [AskedFinish(final, [])], [AskedFinish(final, [])]);
      var ended := one.(events := one.events + [TurnEnd(final, [])], control := one.control + [AskedFinish(final, [])], started := true);
      var ended' := other.(events := other.events + [TurnEnd(final, [])], control := other.control + [AskedFinish(final, [])], started := true);
      EnqueueAlike(ended, ended', input.after);
      EnqueueAlike(Enqueue(ended, input.after), Enqueue(ended', input.after), input.idle);
      LeaveAlike(Enqueue(Enqueue(ended, input.after), input.idle), Enqueue(Enqueue(ended', input.after), input.idle), Failure);
    } else {
      var closed, closed' := CloseTurn(one, input), CloseTurn(other, input');
      CloseTurnAlike(one, other, input, input');
      if input.decision == End {
        EnqueueAlike(closed, closed', input.after);
        EnqueueAlike(Enqueue(closed, input.after), Enqueue(closed', input.after), input.idle);
        LeaveAlike(Enqueue(Enqueue(closed, input.after), input.idle), Enqueue(Enqueue(closed', input.after), input.idle), Decided);
      } else {
        AfterTurnAlike(closed, closed', input, input');
        EnqueueAlike(AfterTurn(closed, input), AfterTurn(closed', input'), input.idle);
        IdlingAlike(Enqueue(AfterTurn(closed, input), input.idle), Enqueue(AfterTurn(closed', input'), input.idle), input, input');
      }
    }
  }

  lemma RespondAlike(one: Loop, other: Loop, input: TurnInput, input': TurnInput)
    requires Alike(one, other) && SameButNotes(input, input')
    ensures Alike(Respond(one, input), Respond(other, input'))
  {
    var left, right := Respond(one, input), Respond(other, input');
    var asked := [AskedRequest, Requested(Replaced(one.context, input.request), |one.events|, |one.produced|)];
    var asked' := [AskedRequest, Requested(Replaced(other.context, input.request), |other.events|, |other.produced|)];
    AlikeAppend(one.control, other.control, asked, asked');
  }

  lemma TurnAlike(one: Loop, other: Loop, input: TurnInput, input': TurnInput)
    requires Alike(one, other) && SameButNotes(input, input')
    ensures Alike(Turn(one, input), Turn(other, input'))
  {
    InjectedAlike(one, other, input, input');
    RespondAlike(Injected(one, input), Injected(other, input'), input, input');
    ConcludeAlike(Respond(Injected(one, input), input), Respond(Injected(other, input'), input'), input, input');
  }

  /** Context-status notes do not steer control: two runs with the same model, tool, hook and queue
    answers that differ only in the returned notes ask for the same things in the same order, make
    the same requests and leave in the same way with the same queues. */
  lemma {:induction false} NotesDoNotSteer(one: Loop, other: Loop, script: seq<TurnInput>, script': seq<TurnInput>)
    requires Alike(one, other) && |script| == |script'|
    requires forall i :: 0 <= i < |script| ==> SameButNotes(script[i], script'[i])
    ensures Alike(Run(one, script), Run(other, script'))
    ensures |Used(one, script)| == |Used(other, script')|
    decreases script
  {
    hide Turn;
    if script != [] && one.exit.None? {
      assert SameButNotes(script[0], script'[0]);
      TurnAlike(one, other, script[0], script'[0]);
      NotesDoNotSteer(Turn(one, script[0]), Turn(other, script'[0]), script[1..], script'[1..]);
    }
  }
}
