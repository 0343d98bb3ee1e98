/** From the server's message to the client's: the encoded events go over the wire as `data:` lines, are
  cut into chunks, and come back as the same message (packages/agent/src/proxy.ts). */
module ProxyWire {
  import opened Wrappers
  import opened Helpers
  import opened Proxy
  import opened ProxyProofs

  /** The JSON the server writes is one trimmed, non-empty line, and parsing gives the event back. */
  ghost predicate Agrees(platform: Platform, json: ProxyEvent -> string) {
    forall e :: OneLine(json(e)) && json(e) != "" && platform.trim(json(e)) == json(e) && platform.parse(json(e)) == Some(e)
  }

  function Wire(events: seq<ProxyEvent>, json: ProxyEvent -> string): string {
    if events == [] then "" else PREFIX + json(events[0]) + "\n" + Wire(events[1..], json)
  }

  function WireLines(events: seq<ProxyEvent>, json: ProxyEvent -> string): seq<string> {
    if events == [] then [] else [PREFIX + json(events[0])] + WireLines(events[1..], json)
  }

  lemma {:induction false} LinesOfWire(events: seq<ProxyEvent>, platform: Platform, json: ProxyEvent -> string)
    requires Agrees(platform, json)
    ensures Lines(Wire(events, json)) == WireLines(events, json)
    ensures Split(Wire(events, json)) == WireLines(events, json) + [""]
  {
    if events != [] {
      LinesOfWire(events[1..], platform, json);
      var line := PREFIX + json(events[0]);
      assert OneLine(line);
      SplitLine(line, Wire(events[1..], json));
      var parts := Split(Wire(events, json));
      assert parts == [line] + (WireLines(events[1..], json) + [""]);
      assert parts == WireLines(events, json) + [""];
      assert parts[..|parts| - 1] == WireLines(events, json);
    }
  }

  /** What is pushed for a list of events that fold without an exception. */
  function Outputs(events: seq<ProxyEvent>, partial: Partial, salvage: string -> string): seq<Output> {
    if events == [] then []
    else
      var one := Process(events[0], partial, salvage);
      if one.Throw? then []
      else if one.forwarded then [Output(events[0], one.partial)] + Outputs(events[1..], one.partial, salvage)
      else Outputs(events[1..], one.partial, salvage)
  }

  lemma LineOfEvent(event: ProxyEvent, client: Client, platform: Platform, json: ProxyEvent -> string)
    requires Agrees(platform, json)
    ensures ProcessLine(PREFIX + json(event), client, platform) == Handle(event, client, platform.salvage)
  {
    var line := PREFIX + json(event);
    assert PREFIX <= line && line[|PREFIX|..] == json(event);
  }

  lemma {:induction false} ProcessWire(events: seq<ProxyEvent>, client: Client, platform: Platform, json: ProxyEvent -> string)
    requires Agrees(platform, json) && client.thrown.None?
    requires Fold(events, client.partial, platform.salvage).Next?
    ensures ProcessLines(WireLines(events, json), client, platform)
         == Client(Fold(events, client.partial, platform.salvage).partial,
                   client.pushed + Outputs(events, client.partial, platform.salvage), None)
    decreases events
  {
    hide Process, ProcessLine, Agrees;
    if events == [] {
      assert client.pushed + [] == client.pushed;
    } else {
      LineOfEvent(events[0], client, platform, json);
      var lines := WireLines(events, json);
      assert lines[0] == PREFIX + json(events[0]) && lines[1..] == WireLines(events[1..], json);
      var next := Handle(events[0], client, platform.salvage);
      ProcessWire(events[1..], next, platform, json);
      var one := Process(events[0], client.partial, platform.salvage);
      var rest := Outputs(events[1..], one.partial, platform.salvage);
      if one.forwarded {
        assert client.pushed + [Output(events[0], one.partial)] + rest == client.pushed + ([Output(events[0], one.partial)] + rest);
      } else {
        assert client.pushed + [] == client.pushed;
      }
    }
  }

  lemma {:induction false} FoldAppend(one: seq<ProxyEvent>, two: seq<ProxyEvent>, partial: Partial, salvage: string -> string)
    requires Fold(one, partial, salvage).Next?
    ensures Fold(one + two, partial, salvage) == Fold(two, Fold(one, partial, salvage).partial, salvage)
    ensures Outputs(one + two, partial, salvage)
         == Outputs(one, partial, salvage) + Outputs(two, Fold(one, partial, salvage).partial, salvage)
    decreases one
  {
    hide Process;
    if one == [] {
      assert one + two == two;
    } else {
      assert (one + two)[0] == one[0] && (one + two)[1..] == one[1..] + two;
      FoldAppend(one[1..], two, Process(one[0], partial, salvage).partial, salvage);
    }
  }

  lemma {:induction false} OutputsNotTerminal(events: seq<ProxyEvent>, partial: Partial, salvage: string -> string)
    requires forall i :: 0 <= i < |events| ==> !events[i].Terminal()
    ensures forall i :: 0 <= i < |Outputs(events, partial, salvage)| ==> !Outputs(events, partial, salvage)[i].event.Terminal()
    decreases events
  {
    hide Process;
    if events != [] && Process(events[0], partial, salvage).Next? {
      OutputsNotTerminal(events[1..], Process(events[0], partial, salvage).partial, salvage);
    }
  }

  /** What a server sends for a message: a start, its blocks in any interleaving, and the end. */
  function Sent(events: seq<ProxyEvent>, end: ProxyEvent): seq<ProxyEvent> {
    [Start] + events + [end]
  }

  /**
   * The client ends with the content block for block, every thinking block
   * unredacted, and with the stop reason, error, usage and level, the
   * terminal event last and no exception.  This is the message the server
   * held if and only if no thinking block was redacted and the server set
   * none of the fields that no event carries.  Together with `StreamProxy`
   * it holds for every way of cutting the response into chunks.
   */
  lemma MessageArrives(events: seq<ProxyEvent>, blocks: seq<Block>, how: seq<Encoding>, end: ProxyEvent, unsent: Option<string>,
                       platform: Platform, json: ProxyEvent -> string)
    requires Agrees(platform, json) && Interleaves(events, blocks, how) && end.Terminal()
    ensures var client := Receive(Wire(Sent(events, end), json), platform);
            var held := Partial(Filled(blocks), end.reason, if end.Done? then None else end.error, end.usage, end.level, unsent);
            var message := held.(content := Filled(AllArrived(blocks)), unsent := None);
            && client.thrown.None? && client.partial == message
            && client.pushed != [] && client.pushed[|client.pushed| - 1] == Output(end, message)
            && (forall i :: 0 <= i < |client.pushed| - 1 ==> !client.pushed[i].event.Terminal())
            && (client.partial == held <==> Unredacted(blocks) && unsent == None)
  {
    hide ProcessLines, Lines, Wire, WireLines, Interleaves, Agrees, Fold, Outputs, Filled, AllArrived, Unredacted;
    UnredactedArrive(blocks);
    var salvage := platform.salvage;
    var message := Partial(Filled(AllArrived(blocks)), end.reason, if end.Done? then None else end.error, end.usage, end.level, None);
    var before := EMPTY.(content := Filled(AllArrived(blocks)));
    LinesOfWire(Sent(events, end), platform, json);
    RoundTrip(events, blocks, how, salvage);
    OneEvent(Start, EMPTY, salvage);
    OneEvent(end, before, salvage);
    FoldAppend([Start], events, EMPTY, salvage);
    FoldAppend([Start] + events, [end], EMPTY, salvage);
    ProcessWire(Sent(events, end), FRESH, platform, json);
    var quiet := Outputs([Start] + events, EMPTY, salvage);
    NoTerminalWithin(events, blocks, how);
    OutputsNotTerminal([Start] + events, EMPTY, salvage);
    var client := ProcessLines(Lines(Wire(Sent(events, end), json)), FRESH, platform);
    assert client == Client(message, [] + (quiet + [Output(end, message)]), None);
    assert client.pushed[|quiet|] == Output(end, message);
    assert client.SawTerminal();
  }

  lemma NoTerminalWithin(events: seq<ProxyEvent>, blocks: seq<Block>, how: seq<Encoding>)
    requires Interleaves(events, blocks, how)
    ensures forall i :: 0 <= i < |[Start] + events| ==> !([Start] + events)[i].Terminal()
  {
    hide Encode, Fits;
    forall i | 0 <= i < |[Start] + events| ensures !([Start] + events)[i].Terminal() {
      if i > 0 { assert events[i - 1].IsBlock(); }
    }
  }

  lemma OneEvent(event: ProxyEvent, partial: Partial, salvage: string -> string)
    requires event.Start? || event.Terminal()
    ensures var after := Process(event, partial, salvage).partial;
            && Fold([event], partial, salvage) == Next(after, true)
            && Outputs([event], partial, salvage) == [Output(event, after)]
            && after == if event.Start? then partial
                        else partial.(stop := event.reason, error := if event.Done? then partial.error else event.error,
                                      usage := event.usage, level := Or(event.level, partial.level))
  {
    assert [event][1..] == [];
  }

  // ---- The message object the client updates in place ----

  class PartialMessage {
    var content: seq<Option<Block>>
    var stopReason: StopReason
    var errorMessage: Option<string>
    var usage: string
    var providerThinkingLevel: Option<string>

    constructor ()
      ensures View() == EMPTY
    {
      content, stopReason, errorMessage, usage, providerThinkingLevel := [], Pending, None, "", None;
    }

    ghost function View(): Partial
      reads this
    {
      Partial(content, stopReason, errorMessage, usage, providerThinkingLevel, None)
    }

    /** Assigning an element of the sparse content array. */
    method SetBlock(index: nat, block: Block)
      modifies this`content
      ensures content == Put(old(content), index, Some(block))
    {
      while |content| <= index
        invariant |old(content)| <= |content|
        invariant |content| <= Max(index + 1, |old(content)|)
        invariant content == old(content) + seq(|content| - |old(content)|, _ => None)
        decreases index + 1 - |content|
      {
        content := content + [None];
      }
      ghost var padded := content;
      content := content[index := Some(block)];
      SetPadded(old(content), padded, index, block);
    }

    /** The outcome of an event, as this object and the two results show it. */
    ghost predicate Reports(outcome: Outcome, before: Partial, forwarded: bool, thrown: Option<string>)
      reads this
    {
      match outcome
      case Next(after, passed) => View() == after && forwarded == passed && thrown == None
      case Throw(reason) => View() == before && !forwarded && thrown == Some(reason)
    }

    method ProcessText(event: ProxyEvent, salvage: string -> string) returns (forwarded: bool, thrown: Option<string>)
      requires event.TextStart? || event.TextDelta? || event.TextEnd?
      modifies this`content
      ensures Reports(Process(event, old(View()), salvage), old(View()), forwarded, thrown)
    {
      hide Put;
      forwarded, thrown := true, None;
      if event.TextStart? {
        SetBlock(event.index, Text("", None));
      } else if event.index < |content| && content[event.index].Some? && content[event.index].value.Text? {
        var block := content[event.index].value;
        if event.TextDelta? {
          SetBlock(event.index, Text(block.text + event.delta, block.signature));
        } else {
          SetBlock(event.index, Text(block.text, event.signature));
        }
      } else {
        forwarded, thrown := false, Some(if event.TextDelta? then "Received text_delta for non-text content"
                                         else "Received text_end for non-text content");
      }
    }

    method ProcessThinking(event: ProxyEvent, salvage: string -> string) returns (forwarded: bool, thrown: Option<string>)
      requires event.ThinkingStart? || event.ThinkingDelta? || event.ThinkingEnd?
      modifies this`content
      ensures Reports(Process(event, old(View()), salvage), old(View()), forwarded, thrown)
    {
      hide Put;
      forwarded, thrown := true, None;
      if event.ThinkingStart? {
        SetBlock(event.index, Thinking("", None, false));
      } else if event.index < |content| && content[event.index].Some? && content[event.index].value.Thinking? {
        var block := content[event.index].value;
        if event.ThinkingDelta? {
          SetBlock(event.index, Thinking(block.text + event.delta, block.signature, block.redacted));
        } else {
          SetBlock(event.index, Thinking(block.text, event.signature, block.redacted));
        }
      } else {
        forwarded, thrown := false, Some(if event.ThinkingDelta? then "Received thinking_delta for non-thinking content"
                                         else "Received thinking_end for non-thinking content");
      }
    }

    method ProcessCall(event: ProxyEvent, salvage: string -> string) returns (forwarded: bool, thrown: Option<string>)
      requires event.CallStart? || event.CallDelta? || event.CallEnd?
      modifies this`content
      ensures Reports(Process(event, old(View()), salvage), old(View()), forwarded, thrown)
    {
      hide Put;
      forwarded, thrown := true, None;
      if event.CallStart? {
        SetBlock(event.index, ToolCall(Call(event.id, event.name, "{}", None, None), Some("")));
      } else if event.index < |content| && content[event.index].Some? && content[event.index].value.ToolCall? {
        var block := content[event.index].value;
        if event.CallDelta? {
          var json := (if block.partialJson.Some? then block.partialJson.value else "undefined") + event.delta;
          SetBlock(event.index, ToolCall(block.call.(arguments := salvage(json)), Some(json)));
        } else {
          var merged := event.call.(thoughtSignature := Or(event.call.thoughtSignature, block.call.thoughtSignature),
                                    namespace := Or(event.call.namespace, block.call.namespace));
          SetBlock(event.index, ToolCall(merged, None));
        }
      } else {
        forwarded, thrown := false, if event.CallDelta? then Some("Received toolcall_delta for non-toolCall content") else None;
      }
    }

    /** Apply one event to the message in place, or throw and leave it as it was. */
    method ProcessProxyEvent(event: ProxyEvent, salvage: string -> string) returns (forwarded: bool, thrown: Option<string>)
      modifies this
      ensures Reports(Process(event, old(View()), salvage), old(View()), forwarded, thrown)
    {
      hide Put, SlotChange;
      forwarded, thrown := true, None;
      match event {
        case Start =>
        case Unknown(_) => forwarded := false;
        case TextStart(_) => forwarded, thrown := ProcessText(event, salvage);
        case TextDelta(_, _) => forwarded, thrown := ProcessText(event, salvage);
        case TextEnd(_, _) => forwarded, thrown := ProcessText(event, salvage);
        case ThinkingStart(_) => forwarded, thrown := ProcessThinking(event, salvage);
        case ThinkingDelta(_, _) => forwarded, thrown := ProcessThinking(event, salvage);
        case ThinkingEnd(_, _) => forwarded, thrown := ProcessThinking(event, salvage);
        case CallStart(_, _, _) => forwarded, thrown := ProcessCall(event, salvage);
        case CallDelta(_, _) => forwarded, thrown := ProcessCall(event, salvage);
        case CallEnd(_, _) => forwarded, thrown := ProcessCall(event, salvage);
        case Done(reason, used, level) =>
          stopReason, usage := reason, used;
          if level.Some? { providerThinkingLevel := level; }
        case Failed(reason, error, used, level) =>
          stopReason, errorMessage, usage := reason, error, used;
          if level.Some? { providerThinkingLevel := level; }
      }
    }
  }

  lemma SetPadded(content: seq<Option<Block>>, padded: seq<Option<Block>>, index: nat, block: Block)
    requires |padded| == Max(index + 1, |content|)
    requires padded == content + seq(|padded| - |content|, _ => None)
    ensures padded[index := Some(block)] == Put(content, index, Some(block))
  {
  }
}
