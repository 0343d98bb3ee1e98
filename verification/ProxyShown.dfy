/** What a consumer sees while a proxied message streams in, and what happens to lines, events and reads
  that go wrong (packages/agent/src/proxy.ts). */
module ProxyShown {
  import opened Wrappers
  import opened Helpers
  import opened Proxy
  import opened ProxyProofs
  import opened ProxyWire

  // ----- one block after some of its events -----

  /** What a block shows after `n` of its events: nothing, the deltas so far, or what arrives of it. A tool
    call shows the id and the name of its start, the deltas so far as partial JSON, and the arguments
    salvaged from that. */
  function Shown(block: Block, how: Encoding, n: nat, salvage: string -> string): Option<Block>
    requires n <= |how.deltas| + 2
  {
    if n == 0 then None
    else if n == |how.deltas| + 2 then Some(if block.Thinking? then block.(redacted := false) else block)
    else
      var sofar := Concat(how.deltas[..n - 1]);
      match block
      case Text(_, _) => Some(Text(sofar, None))
      case Thinking(_, _, _) => Some(Thinking(sofar, None, false))
      case ToolCall(_, _) =>
        Some(ToolCall(Call(how.id, how.name, if n == 1 then "{}" else salvage(sofar), None, None), Some(sofar)))
  }

  lemma EncodeLength(index: nat, block: Block, how: Encoding)
    ensures |Encode(index, block, how)| == |how.deltas| + 2
    ensures forall n :: 0 <= n < |how.deltas| + 2 ==> Encode(index, block, how)[n].IsBlock() && Encode(index, block, how)[n].index == index
  {
  }

  /** Every event of a block changes what the block shows. */
  lemma EventShows(index: nat, block: Block, how: Encoding, n: nat, salvage: string -> string)
    requires Fits(block, how) && n < |how.deltas| + 2
    ensures |Encode(index, block, how)| == |how.deltas| + 2 && Encode(index, block, how)[n].IsBlock()
    ensures var change := SlotChange(Shown(block, how, n, salvage), Encode(index, block, how)[n], salvage);
            change.Changed? && Shown(block, how, n + 1, salvage) == Some(change.block)
  {
    EncodeLength(index, block, how);
    var deltas := how.deltas;
    if 0 < n <= |deltas| {
      assert deltas[..n] == deltas[..n - 1] + [deltas[n - 1]];
      ConcatLast(deltas[..n - 1], deltas[n - 1]);
    }
    if n == |deltas| + 1 { assert deltas[..n - 1] == deltas; }
  }

  lemma {:induction false} FoldSlotLast(events: seq<ProxyEvent>, event: ProxyEvent, slot: Option<Block>, salvage: string -> string)
    requires forall i :: 0 <= i < |events| ==> events[i].IsBlock()
    requires event.IsBlock() && FoldSlot(events, slot, salvage).Some?
    ensures forall i :: 0 <= i < |events + [event]| ==> (events + [event])[i].IsBlock()
    ensures var change := SlotChange(FoldSlot(events, slot, salvage).value, event, salvage);
            change.Changed? ==> FoldSlot(events + [event], slot, salvage) == Some(Some(change.block))
    decreases events
  {
    hide SlotChange;
    var all := events + [event];
    if events == [] {
      assert all == [event] && all[1..] == [];
    } else {
      assert all[0] == events[0] && all[1..] == events[1..] + [event];
      var change := SlotChange(slot, events[0], salvage);
      FoldSlotLast(events[1..], event, if change.Changed? then Some(change.block) else slot, salvage);
    }
  }

  lemma {:induction false} PrefixFolds(index: nat, block: Block, how: Encoding, n: nat, salvage: string -> string)
    requires Fits(block, how) && n <= |Encode(index, block, how)|
    ensures n <= |how.deltas| + 2
    ensures forall i :: 0 <= i < n ==> Encode(index, block, how)[..n][i].IsBlock()
    ensures FoldSlot(Encode(index, block, how)[..n], None, salvage) == Some(Shown(block, how, n, salvage))
    decreases n
  {
    hide Shown, Encode;
    var events := Encode(index, block, how);
    EncodeLength(index, block, how);
    if n == 0 {
      ShownNothing(block, how, salvage);
    } else {
      PrefixFolds(index, block, how, n - 1, salvage);
      assert events[..n] == events[..n - 1] + [events[n - 1]];
      EventShows(index, block, how, n - 1, salvage);
      FoldSlotLast(events[..n - 1], events[n - 1], None, salvage);
    }
  }

  lemma ShownNothing(block: Block, how: Encoding, salvage: string -> string)
    ensures Shown(block, how, 0, salvage) == None
  {
  }

  // ----- the whole message after some of its events -----

  lemma {:induction false} ProjectAppend(left: seq<ProxyEvent>, right: seq<ProxyEvent>, index: nat)
    ensures Project(left + right, index) == Project(left, index) + Project(right, index)
  {
    if left == [] {
      assert left + right == right;
    } else {
      assert (left + right)[0] == left[0] && (left + right)[1..] == left[1..] + right;
      ProjectAppend(left[1..], right, index);
    }
  }

  /** How many events of a block came among the first k. */
  function Came(events: seq<ProxyEvent>, k: nat, index: nat): nat
    requires k <= |events|
  {
    |Project(events[..k], index)|
  }

  lemma CameIsPrefix(events: seq<ProxyEvent>, blocks: seq<Block>, how: seq<Encoding>, k: nat, index: nat)
    requires Interleaves(events, blocks, how) && k <= |events| && index < |blocks|
    ensures var encoded := Encode(index, blocks[index], how[index]);
            && Came(events, k, index) <= |encoded| == |how[index].deltas| + 2
            && Project(events[..k], index) == encoded[..Came(events, k, index)]
  {
    hide Encode, Fits;
    assert events == events[..k] + events[k..];
    ProjectAppend(events[..k], events[k..], index);
    EncodeLength(index, blocks[index], how[index]);
  }

  /** After the first k events the message holds, block for block, what these show. */
  ghost predicate Shows(partial: Partial, events: seq<ProxyEvent>, blocks: seq<Block>, how: seq<Encoding>, k: nat, salvage: string -> string)
    requires k <= |events| && |how| == |blocks|
  {
    && partial == EMPTY.(content := partial.content)
    && forall i: nat :: Get(partial.content, i) ==
         if i < |blocks| && Came(events, k, i) <= |how[i].deltas| + 2 then Shown(blocks[i], how[i], Came(events, k, i), salvage) else None
  }

  lemma PrefixShows(events: seq<ProxyEvent>, blocks: seq<Block>, how: seq<Encoding>, k: nat, salvage: string -> string)
    requires Interleaves(events, blocks, how) && k <= |events|
    ensures Fold(events[..k], EMPTY, salvage).Next?
    ensures Shows(Fold(events[..k], EMPTY, salvage).partial, events, blocks, how, k, salvage)
    ensures forall i :: 0 <= i < |blocks| ==> Came(events, k, i) <= |how[i].deltas| + 2
  {
    hide Encode, Fits, Shown, Project, Fold;
    var prefix := events[..k];
    forall index: nat
      ensures SlotFolds(prefix, [], salvage, index)
      ensures index < |blocks| ==> Came(events, k, index) <= |how[index].deltas| + 2
      ensures SlotAfter(prefix, [], salvage, index) == if index < |blocks| then Shown(blocks[index], how[index], Came(events, k, index), salvage) else None
    {
      ProjectBlocks(prefix, index);
      if index < |blocks| {
        CameIsPrefix(events, blocks, how, k, index);
        PrefixFolds(index, blocks[index], how[index], Came(events, k, index), salvage);
      } else {
        ProjectNothing(prefix, |blocks|, index);
      }
    }
    FoldIsLocal(prefix, |blocks|, EMPTY, salvage);
  }

  /** The event that comes next is the next one of its block, so it changes the message and is passed on. */
  lemma NextForwarded(events: seq<ProxyEvent>, blocks: seq<Block>, how: seq<Encoding>, k: nat, salvage: string -> string)
    requires Interleaves(events, blocks, how) && k < |events|
    ensures Fold(events[..k], EMPTY, salvage).Next?
    ensures var next := Process(events[k], Fold(events[..k], EMPTY, salvage).partial, salvage); next.Next? && next.forwarded
  {
    hide Encode, Fits, Shown, Fold, SlotChange;
    PrefixShows(events, blocks, how, k, salvage);
    var index := events[k].index;
    CameIsPrefix(events, blocks, how, k, index);
    CameIsPrefix(events, blocks, how, k + 1, index);
    var n := Came(events, k, index);
    assert events[..k + 1] == events[..k] + [events[k]];
    ProjectAppend(events[..k], [events[k]], index);
    ProjectOne(events[k]);
    var encoded := Encode(index, blocks[index], how[index]);
    assert encoded[..n + 1] == encoded[..n] + [events[k]];
    assert encoded[n] == encoded[..n + 1][n] == events[k];
    EventShows(index, blocks[index], how[index], n, salvage);
  }

  lemma ProjectOne(event: ProxyEvent)
    requires event.IsBlock()
    ensures Project([event], event.index) == [event]
  {
    assert [event][1..] == [];
  }

  lemma {:induction false} PrefixOutputs(events: seq<ProxyEvent>, blocks: seq<Block>, how: seq<Encoding>, k: nat, salvage: string -> string)
    requires Interleaves(events, blocks, how) && k <= |events|
    ensures var outputs := Outputs(events[..k], EMPTY, salvage);
            && |outputs| == k
            && forall j :: 0 <= j < k ==> outputs[j].event == events[j] && Shows(outputs[j].partial, events, blocks, how, j + 1, salvage)
    decreases k
  {
    hide Interleaves, Process, Shows, Fold, Outputs;
    if k == 0 {
      NoOutputs(salvage);
    } else {
      var one, last := events[..k - 1], events[k - 1];
      PrefixOutputs(events, blocks, how, k - 1, salvage);
      NextForwarded(events, blocks, how, k - 1, salvage);
      PrefixShows(events, blocks, how, k, salvage);
      assert events[..k] == one + [last];
      FoldAppend(one, [last], EMPTY, salvage);
      OneOutput(last, Fold(one, EMPTY, salvage).partial, salvage);
    }
  }

  lemma NoOutputs(salvage: string -> string)
    ensures Outputs([], EMPTY, salvage) == []
  {
  }

  lemma OneOutput(event: ProxyEvent, partial: Partial, salvage: string -> string)
    requires Process(event, partial, salvage).Next? && Process(event, partial, salvage).forwarded
    ensures Outputs([event], partial, salvage) == [Output(event, Process(event, partial, salvage).partial)]
    ensures Fold([event], partial, salvage) == Next(Process(event, partial, salvage).partial, true)
  {
    hide Process;
    assert [event][1..] == [];
  }

  /**
   * A consumer sees every event of the message, in order and nothing else:
   * the start, each block event with the message as far as it has come, and
   * the end with the whole message.
   */
  lemma EveryEventPushed(events: seq<ProxyEvent>, blocks: seq<Block>, how: seq<Encoding>, end: ProxyEvent,
                         platform: Platform, json: ProxyEvent -> string)
    requires Agrees(platform, json) && Interleaves(events, blocks, how) && end.Terminal()
    ensures var pushed := Receive(Wire(Sent(events, end), json), platform).pushed;
            && |pushed| == |events| + 2
            && pushed[0] == Output(Start, EMPTY)
            && (forall k :: 0 <= k < |events| ==>
                  pushed[k + 1].event == events[k] && Shows(pushed[k + 1].partial, events, blocks, how, k + 1, platform.salvage))
            && pushed[|events| + 1].event == end
  {
    hide ProcessLines, Lines, Wire, WireLines, Interleaves, Agrees, Fold, Outputs, Filled, AllArrived, Unredacted, Shows;
    var salvage := platform.salvage;
    LinesOfWire(Sent(events, end), platform, json);
    RoundTrip(events, blocks, how, salvage);
    OneEvent(Start, EMPTY, salvage);
    var before := Fold(events, EMPTY, salvage).partial;
    OneEvent(end, before, salvage);
    FoldAppend([Start], events, EMPTY, salvage);
    FoldAppend([Start] + events, [end], EMPTY, salvage);
    ProcessWire(Sent(events, end), FRESH, platform, json);
    assert events[..|events|] == events;
    PrefixOutputs(events, blocks, how, |events|, salvage);
    var outputs := Outputs(events, EMPTY, salvage);
    var client := ProcessLines(Lines(Wire(Sent(events, end), json)), FRESH, platform);
    var last := Output(end, Process(end, before, salvage).partial);
    Sandwich(Output(Start, EMPTY), outputs, last);
    assert client.pushed == [] + ([Output(Start, EMPTY)] + outputs + [last]);
    assert client.pushed[|events| + 1].event.Terminal();
    assert client.SawTerminal();
  }

  lemma Sandwich(first: Output, middle: seq<Output>, last: Output)
    ensures var all := [] + ([first] + middle + [last]);
            && |all| == |middle| + 2 && all[0] == first && all[|middle| + 1] == last
            && forall k :: 0 <= k < |middle| ==> all[k + 1] == middle[k]
  {
  }

  // ----- what is not passed on -----

  /** The slot that an event names holds a block of its kind. */
  ghost predicate Suits(event: ProxyEvent, content: seq<Option<Block>>)
    requires event.IsBlock()
  {
    var slot := Get(content, event.index);
    && slot.Some?
    && ((event.TextDelta? || event.TextEnd?) ==> slot.value.Text?)
    && ((event.ThinkingDelta? || event.ThinkingEnd?) ==> slot.value.Thinking?)
    && ((event.CallDelta? || event.CallEnd?) ==> slot.value.ToolCall?)
  }

  /** An event of unknown type, and the end of a tool call in a slot that holds none, change nothing and are
    not seen. */
  lemma IgnoredEvents(event: ProxyEvent, client: Client, salvage: string -> string)
    requires event.Unknown? || (event.CallEnd? && !Suits(event, client.partial.content))
    ensures Handle(event, client, salvage) == client
  {
    assert client.pushed + [] == client.pushed;
  }

  /** A delta, or an end of text or thinking, in a slot of another kind throws and changes nothing else. */
  lemma RefusedEvents(event: ProxyEvent, client: Client, salvage: string -> string)
    requires event.TextDelta? || event.TextEnd? || event.ThinkingDelta? || event.ThinkingEnd? || event.CallDelta?
    requires !Suits(event, client.partial.content)
    ensures Handle(event, client, salvage) == client.(thrown := Some(
              match event
              case TextDelta(_, _) => "Received text_delta for non-text content"
              case TextEnd(_, _) => "Received text_end for non-text content"
              case ThinkingDelta(_, _) => "Received thinking_delta for non-thinking content"
              case ThinkingEnd(_, _) => "Received thinking_end for non-thinking content"
              case _ => "Received toolcall_delta for non-toolCall content"))
  {
    hide Put;
  }

  /** Lines that are not data lines or hold no data are skipped, and data that is not JSON throws. */
  lemma OddLines(line: string, client: Client, platform: Platform)
    ensures !("data: " <= line) ==> ProcessLine(line, client, platform) == client
    ensures "data: " <= line && platform.trim(line[6..]) == "" ==> ProcessLine(line, client, platform) == client
    ensures "data: " <= line && platform.trim(line[6..]) != "" && platform.parse(platform.trim(line[6..])).None? ==>
              ProcessLine(line, client, platform).thrown.Some? && ProcessLine(line, client, platform) == client.(thrown := ProcessLine(line, client, platform).thrown)
  {
  }

  /** How a read that arrives whole ends: with the server's own terminal event, or else with an error that says
    why, and the message says the same. */
  lemma ReceiveEnds(text: string, platform: Platform)
    ensures var read, end := ProcessLines(Lines(text), FRESH, platform), Receive(text, platform);
            var ended := exists i :: 0 <= i < |read.pushed| && read.pushed[i].event.Terminal();
            if read.thrown.None? && ended then end == read
            else
              var reason := if read.thrown.Some? then read.thrown.value
                            else "Connection closed by proxy server before the response completed";
              && end.partial == read.partial.(stop := Error, error := Some(reason))
              && end.pushed == read.pushed + [Output(Failed(Error, Some(reason), "", None), end.partial)]
  {
    hide ProcessLines, Lines;
  }
}
