/** Chunking is invisible, every read ends with a terminal event, and the fold inverts the server's
  encoding of a message. */
module ProxyProofs {
  import opened Wrappers
  import opened Helpers
  import opened Proxy

  // ----- splitting -----

  /** Split undoes Join on lines without newlines, and Join undoes Split. */
  lemma {:induction false} SplitJoin(text: string)
    ensures Join(Split(text)) == text
    ensures forall i :: 0 <= i < |Split(text)| ==> OneLine(Split(text)[i])
  {
    if text == "" {
    } else {
      var rest := Split(text[1..]);
      SplitJoin(text[1..]);
      var parts := Split(text);
      if text[0] == '\n' {
        assert parts[1..] == rest;
        assert "" + "\n" + Join(rest) == text;
      } else {
        assert parts[0] == [text[0]] + rest[0] && parts[1..] == rest[1..];
        forall i | 0 <= i < |parts| ensures OneLine(parts[i]) {
          if i > 0 {
            assert parts[i] == rest[i];
          }
        }
        if |rest| > 1 {
          assert Join(parts) == [text[0]] + rest[0] + "\n" + Join(rest[1..]);
          assert Join(rest) == rest[0] + "\n" + Join(rest[1..]);
          assert [text[0]] + rest[0] + "\n" + Join(rest[1..]) == [text[0]] + (rest[0] + "\n" + Join(rest[1..]));
        }
      }
    }
  }

  lemma {:induction false} SplitLine(line: string, rest: string)
    requires OneLine(line)
    ensures Split(line + "\n" + rest) == [line] + Split(rest)
    ensures Split(line) == [line]
  {
    if line == "" {
      assert "" + "\n" + rest == "\n" + rest;
      assert ("\n" + rest)[1..] == rest;
    } else {
      SplitLine(line[1..], rest);
      var whole := line + "\n" + rest;
      assert whole[1..] == line[1..] + "\n" + rest;
      assert [line[0]] + line[1..] == line;
    }
  }

  /** Cutting off the last element behind a new first one. */
  lemma FrontCons<T>(first: T, rest: seq<T>, more: seq<T>)
    requires rest != []
    ensures ([first] + rest)[..|rest|] + more == [first] + (rest[..|rest| - 1] + more)
  {
    assert ([first] + rest)[..|rest|] == [first] + rest[..|rest| - 1];
  }

  /** Splitting a text in two and splitting the parts. */
  lemma {:induction false} SplitAppend(left: string, right: string)
    ensures var parts := Split(left);
            Split(left + right) == parts[..|parts| - 1] + Split(parts[|parts| - 1] + right)
  {
    hide Split;
    if left == "" {
      SplitEmpty();
      assert left + right == right && "" + right == right;
    } else {
      var c, text := left[0], left[1..];
      assert [c] + text == left && [c] + (text + right) == left + right;
      SplitAppend(text, right);
      SplitCons(c, text);
      SplitCons(c, text + right);
      SplitStep(c, Split(text), right, Split(text + right));
    }
  }

  lemma SplitStep(c: char, rest: seq<string>, right: string, whole: seq<string>)
    requires rest != [] && whole != []
    requires whole == rest[..|rest| - 1] + Split(rest[|rest| - 1] + right)
    ensures var parts := if c == '\n' then [""] + rest else [[c] + rest[0]] + rest[1..];
            (if c == '\n' then [""] + whole else [[c] + whole[0]] + whole[1..])
            == parts[..|parts| - 1] + Split(parts[|parts| - 1] + right)
  {
    hide Split;
    var more := Split(rest[|rest| - 1] + right);
    if c == '\n' {
      FrontCons("", rest, more);
    } else if |rest| > 1 {
      FrontCons([c] + rest[0], rest[1..], more);
      assert whole[1..] == rest[1..][..|rest| - 2] + more;
    } else {
      assert whole == more;
      SplitCons(c, rest[0] + right);
      assert [c] + rest[0] + right == [c] + (rest[0] + right);
    }
  }

  lemma SplitEmpty()
    ensures Split("") == [""]
  {
  }

  /** One more character in front. */
  lemma SplitCons(c: char, text: string)
    ensures var rest := Split(text);
            Split([c] + text) == if c == '\n' then [""] + rest else [[c] + rest[0]] + rest[1..]
  {
    assert ([c] + text)[0] == c && ([c] + text)[1..] == text;
  }

  lemma {:induction false} LinesAppend(lines: seq<string>, more: seq<string>, client: Client, platform: Platform)
    ensures ProcessLines(lines + more, client, platform) == ProcessLines(more, ProcessLines(lines, client, platform), platform)
    decreases lines
  {
    if lines == [] {
      assert lines + more == more;
    } else if client.thrown.None? {
      assert (lines + more)[1..] == lines[1..] + more;
      LinesAppend(lines[1..], more, ProcessLine(lines[0], client, platform), platform);
    }
  }

  // ----- the read loop -----

  /** A read yields text or fails; `aborted` is the state of the signal when it returns. */
  datatype Read = Chunk(text: string, aborted: bool) | ReadFails(reason: string)

  /** A response that arrives without an abort or a failure. */
  ghost predicate Smooth(pieces: seq<Read>) {
    forall i :: 0 <= i < |pieces| ==> pieces[i].Chunk? && !pieces[i].aborted
  }

  function Received(pieces: seq<Read>): string {
    if pieces == [] then "" else (if pieces[0].Chunk? then pieces[0].text else "") + Received(pieces[1..])
  }

  /** The lines of a buffer followed by more text: those complete in the buffer come first. */
  lemma BufferedLines(buffer: string, text: string)
    ensures var parts := Split(buffer);
            Lines(buffer + text) == parts[..|parts| - 1] + Lines(parts[|parts| - 1] + text)
  {
    hide Split;
    var parts := Split(buffer);
    SplitAppend(buffer, text);
    LinesBehind(parts[..|parts| - 1], Split(parts[|parts| - 1] + text));
  }

  /** What is processed of some parts: all but the last one, and that unless it is empty. */
  function Processed(parts: seq<string>): seq<string>
    requires parts != []
  {
    parts[..|parts| - 1] + if parts[|parts| - 1] == "" then [] else [parts[|parts| - 1]]
  }

  lemma LinesBehind(front: seq<string>, parts: seq<string>)
    requires parts != []
    ensures Processed(front + parts) == front + Processed(parts)
  {
    assert (front + parts)[..|front + parts| - 1] == front + parts[..|parts| - 1];
  }

  /** A line that is left over at the end is a line of its own. */
  lemma LastLine(buffer: string, client: Client, platform: Platform)
    requires OneLine(buffer) && client.thrown.None?
    ensures ProcessLines(Lines(buffer), client, platform) == if buffer == "" then client else ProcessLine(buffer, client, platform)
  {
    hide ProcessLine;
    SplitLine(buffer, "");
    if buffer == "" {
      assert Lines(buffer) == [];
    } else {
      assert Lines(buffer) == [buffer];
      assert [buffer][1..] == [];
    }
  }

  lemma Stopped(lines: seq<string>, client: Client, platform: Platform)
    requires client.thrown.Some?
    ensures ProcessLines(lines, client, platform) == client
  {
  }

  lemma CloseIsTerminal(client: Client, aborted: bool)
    ensures Close(client, aborted).SawTerminal()
  {
    var closed := Close(client, aborted);
    if closed != client {
      assert closed.pushed[|client.pushed|].event.Terminal();
    }
  }

  /** The loop over the complete lines of a buffer. */
  method HandleLines(lines: seq<string>, client: Client, platform: Platform) returns (after: Client)
    ensures after == ProcessLines(lines, client, platform)
  {
    hide ProcessLine;
    after := client;
    assert lines[0..] == lines;
    var i := 0;
    while i < |lines| && after.thrown.None?
      invariant 0 <= i <= |lines|
      invariant ProcessLines(lines, client, platform) == ProcessLines(lines[i..], after, platform)
      decreases |lines| - i, after.thrown.None?
    {
      assert lines[i..][0] == lines[i] && lines[i..][1..] == lines[i + 1..];
      after := ProcessLine(lines[i], after, platform);
      i := i + 1;
    }
  }

  /** The first read that does not deliver text: it fails, or the signal is found aborted. */
  ghost predicate TroubleAt(pieces: seq<Read>, i: nat) {
    i < |pieces| && Smooth(pieces[..i]) && (pieces[i].ReadFails? || pieces[i].aborted)
  }

  function LastPart(text: string): string { Split(text)[|Split(text)| - 1] }

  /** The client after the complete lines of a text. */
  function AfterLines(text: string, platform: Platform): Client {
    ProcessLines(Split(text)[..|Split(text)| - 1], FRESH, platform)
  }

  /** A read that ends early: the message and one last event say why. */
  ghost predicate EndsEarly(end: Client, before: Client, stop: StopReason, reason: string) {
    && end.partial == before.partial.(stop := stop, error := Some(reason))
    && end.pushed == before.pushed + [Output(Failed(stop, Some(reason), "", None), end.partial)]
  }

  lemma AfterMoreLines(text: string, chunk: string, platform: Platform)
    ensures var parts := Split(LastPart(text) + chunk);
            && LastPart(text + chunk) == parts[|parts| - 1]
            && AfterLines(text + chunk, platform) == ProcessLines(parts[..|parts| - 1], AfterLines(text, platform), platform)
  {
    hide Split, ProcessLines;
    var front := Split(text)[..|Split(text)| - 1];
    var parts := Split(LastPart(text) + chunk);
    SplitAppend(text, chunk);
    assert Split(text + chunk)[..|Split(text + chunk)| - 1] == front + parts[..|parts| - 1];
    LinesAppend(front, parts[..|parts| - 1], FRESH, platform);
  }

  lemma {:induction false} ReceivedLast(pieces: seq<Read>, i: nat)
    requires i < |pieces| && pieces[i].Chunk?
    ensures Received(pieces[..i + 1]) == Received(pieces[..i]) + pieces[i].text
    decreases i
  {
    var one, two := pieces[..i + 1], pieces[..i];
    if i == 0 {
      assert one[1..] == [] && two == [];
      assert pieces[0].text + "" == "" + pieces[0].text;
    } else {
      ReceivedLast(pieces[1..], i - 1);
      assert one[1..] == pieces[1..][..i] && two[1..] == pieces[1..][..i - 1];
      assert pieces[1..][i - 1] == pieces[i];
    }
  }

  /** What one line threw stays thrown. */
  lemma {:induction false} ThrownStays(pieces: seq<Read>, i: nat, k: nat, platform: Platform)
    requires i <= k <= |pieces| && Smooth(pieces[..k]) && AfterLines(Received(pieces[..i]), platform).thrown.Some?
    ensures AfterLines(Received(pieces[..k]), platform).thrown.Some?
    decreases k
  {
    hide AfterLines, Split, ProcessLines, Received;
    if i < k {
      assert pieces[..k][..k - 1] == pieces[..k - 1] && pieces[..k][k - 1] == pieces[k - 1];
      ThrownStays(pieces, i, k - 1, platform);
      ReceivedLast(pieces, k - 1);
      var text := Received(pieces[..k - 1]);
      AfterMoreLines(text, pieces[k - 1].text, platform);
      var parts := Split(LastPart(text) + pieces[k - 1].text);
      Stopped(parts[..|parts| - 1], AfterLines(text, platform), platform);
    }
  }

  lemma OneTrouble(pieces: seq<Read>, i: nat, k: nat)
    requires TroubleAt(pieces, i) && TroubleAt(pieces, k)
    ensures i == k
  {
  }

  lemma SmoothMore(pieces: seq<Read>, i: nat)
    requires i < |pieces| && Smooth(pieces[..i]) && pieces[i].Chunk? && !pieces[i].aborted
    ensures Smooth(pieces[..i + 1])
  {
    assert forall j :: 0 <= j < i ==> pieces[..i + 1][j] == pieces[..i][j];
  }

  /** The read loop: all complete lines of what arrives, until a line throws or a read does not deliver. */
  method ReadChunks(pieces: seq<Read>, platform: Platform)
    returns (client: Client, buffer: string, i: nat, aborted: bool, ghost before: Client)
    ensures i <= |pieces| && Smooth(pieces[..i]) && OneLine(buffer)
    ensures before == AfterLines(Received(pieces[..i]), platform) && buffer == LastPart(Received(pieces[..i]))
    ensures i < |pieces| && !TroubleAt(pieces, i) ==> before.thrown.Some?
    ensures client == before || (TroubleAt(pieces, i) && before.thrown.None?)
    ensures TroubleAt(pieces, i) && before.thrown.None? ==>
              && aborted == pieces[i].Chunk?
              && client == before.(thrown := Some(if pieces[i].Chunk? then "Request aborted by user" else pieces[i].reason))
    ensures aborted ==> TroubleAt(pieces, i)
  {
    hide Split, ProcessLines, Received, AfterLines, LastPart;
    client, buffer, aborted, i := FRESH, "", false, 0;
    before := FRESH;
    assert pieces[..0] == [];
    NothingRead(platform);
    while i < |pieces| && client.thrown.None?
      invariant 0 <= i <= |pieces| && Smooth(pieces[..i]) && OneLine(buffer) && !aborted
      invariant client == before == AfterLines(Received(pieces[..i]), platform) && buffer == LastPart(Received(pieces[..i]))
      decreases |pieces| - i
    {
      if pieces[i].ReadFails? {
        client := client.(thrown := Some(pieces[i].reason));
        return;
      } else if pieces[i].aborted {
        aborted := true;
        client := client.(thrown := Some("Request aborted by user"));
        return;
      }
      ReceivedLast(pieces, i);
      AfterMoreLines(Received(pieces[..i]), pieces[i].text, platform);
      SplitJoin(buffer + pieces[i].text);
      SmoothMore(pieces, i);
      var lines := Split(buffer + pieces[i].text);
      buffer := lines[|lines| - 1];
      client := HandleLines(lines[..|lines| - 1], client, platform);
      before := client;
      i := i + 1;
    }
  }

  lemma NothingRead(platform: Platform)
    ensures Received([]) == "" && LastPart("") == "" && AfterLines("", platform) == FRESH
  {
  }

  /** What was read completely, and the rest, make the lines of the whole text. */
  lemma WholeText(pieces: seq<Read>, flush: string, platform: Platform)
    requires OneLine(flush) && OneLine(LastPart(Received(pieces)))
    ensures var before, rest := AfterLines(Received(pieces), platform), LastPart(Received(pieces)) + flush;
            ProcessLines(Lines(Received(pieces) + flush), FRESH, platform)
            == if before.thrown.Some? then before else if rest == "" then before else ProcessLine(rest, before, platform)
  {
    hide Split, ProcessLines, ProcessLine, Received, Lines;
    var text := Received(pieces);
    var before, rest := AfterLines(text, platform), LastPart(text) + flush;
    BufferedLines(text, flush);
    LinesAppend(Split(text)[..|Split(text)| - 1], Lines(rest), FRESH, platform);
    if before.thrown.Some? { Stopped(Lines(rest), before, platform); } else { LastLine(rest, before, platform); }
  }

  /** The read loop with its buffer. Whatever way the text is cut into chunks, a smooth read processes
    exactly the lines of the whole text; and every read, smooth, aborted or failed, pushes a
    terminal event. `flush` is what the decoder still holds at the end, less than a line. A read that
    fails or is aborted before a line throws ends with an event that says so. */
  method StreamProxy(pieces: seq<Read>, flush: string, abortedAtEnd: bool, abortedAtCatch: bool, platform: Platform) returns (client: Client)
    ensures client.SawTerminal()
    ensures Smooth(pieces) && OneLine(flush) && !abortedAtEnd && !abortedAtCatch ==>
              client == Receive(Received(pieces) + flush, platform)
    ensures forall i: nat :: TroubleAt(pieces, i) && AfterLines(Received(pieces[..i]), platform).thrown.None? ==>
              EndsEarly(client, AfterLines(Received(pieces[..i]), platform), if pieces[i].Chunk? || abortedAtCatch then Aborted else Error,
                        if pieces[i].Chunk? then "Request aborted by user" else pieces[i].reason)
    ensures Smooth(pieces) && abortedAtEnd && AfterLines(Received(pieces), platform).thrown.None? ==>
              EndsEarly(client, AfterLines(Received(pieces), platform), Aborted, "Request aborted by user")
  {
    hide Split, Lines, ProcessLines, ProcessLine, Received, AfterLines, LastPart;
    var buffer, i, aborted;
    ghost var before;
    client, buffer, i, aborted, before := ReadChunks(pieces, platform);
    forall k: nat | TroubleAt(pieces, k) && AfterLines(Received(pieces[..k]), platform).thrown.None? ensures k == i && TroubleAt(pieces, i) {
      if k < i { assert pieces[..i][k] == pieces[k]; }
      if before.thrown.Some? && i <= k { ThrownStays(pieces, i, k, platform); }
      if TroubleAt(pieces, i) { OneTrouble(pieces, i, k); }
    }
    if client.thrown.None? {
      assert pieces[..i] == pieces;
      if abortedAtEnd {
        aborted := true;
        client := client.(thrown := Some("Request aborted by user"));
      } else {
        if OneLine(flush) { WholeText(pieces, flush, platform); }
        buffer := buffer + flush;
        if buffer != "" {
          client := ProcessLine(buffer, client, platform);
        }
      }
    } else if Smooth(pieces) {
      NoTrouble(pieces, i);
      ThrownStays(pieces, i, |pieces|, platform) by { assert pieces[..|pieces|] == pieces; }
      if OneLine(flush) { LinesStop(pieces, i, flush, platform); }
      assert pieces[..|pieces|] == pieces;
    }
    CloseIsTerminal(client, aborted || abortedAtCatch);
    client := Close(client, aborted || abortedAtCatch);
  }

  lemma NoTrouble(pieces: seq<Read>, i: nat)
    requires Smooth(pieces)
    ensures !TroubleAt(pieces, i)
  {
  }

  /** Once a line threw, the rest of the text changes nothing. */
  lemma LinesStop(pieces: seq<Read>, i: nat, flush: string, platform: Platform)
    requires i <= |pieces| && Smooth(pieces) && AfterLines(Received(pieces[..i]), platform).thrown.Some?
    ensures ProcessLines(Lines(Received(pieces) + flush), FRESH, platform) == AfterLines(Received(pieces[..i]), platform)
  {
    hide Split, ProcessLines, Received, Lines;
    var text, rest := Received(pieces[..i]), Received(pieces[i..]);
    ReceivedAppend(pieces[..i], pieces[i..]);
    assert pieces == pieces[..i] + pieces[i..];
    BufferedLines(text, rest + flush);
    assert text + rest + flush == text + (rest + flush);
    LinesAppend(Split(text)[..|Split(text)| - 1], Lines(LastPart(text) + (rest + flush)), FRESH, platform);
    Stopped(Lines(LastPart(text) + (rest + flush)), AfterLines(text, platform), platform);
  }

  lemma {:induction false} ReceivedAppend(left: seq<Read>, right: seq<Read>)
    ensures Received(left + right) == Received(left) + Received(right)
  {
    if left == [] {
      assert left + right == right;
    } else {
      assert (left + right)[0] == left[0] && (left + right)[1..] == left[1..] + right;
      ReceivedAppend(left[1..], right);
    }
  }

  /** What a consumer of the event stream sees: everything up to the first terminal event. */
  function Visible(pushed: seq<Output>): seq<Output> {
    if pushed == [] then [] else if pushed[0].event.Terminal() then [pushed[0]] else [pushed[0]] + Visible(pushed[1..])
  }

  /** A consumer sees exactly one terminal event, and it is the last thing it sees. */
  lemma {:induction false} OneTerminalVisible(pushed: seq<Output>)
    requires exists i :: 0 <= i < |pushed| && pushed[i].event.Terminal()
    ensures var seen := Visible(pushed);
            && seen != [] && seen[|seen| - 1].event.Terminal()
            && (forall i :: 0 <= i < |seen| - 1 ==> !seen[i].event.Terminal())
            && seen <= pushed
  {
    if !pushed[0].event.Terminal() {
      var i :| 0 <= i < |pushed| && pushed[i].event.Terminal();
      assert pushed[1..][i - 1].event.Terminal();
      OneTerminalVisible(pushed[1..]);
    }
  }

  // ----- folding block events -----

  function Fold(events: seq<ProxyEvent>, partial: Partial, salvage: string -> string): Outcome
    decreases events
  {
    if events == [] then Next(partial, true)
    else
      var one := Process(events[0], partial, salvage);
      if one.Throw? then one else Fold(events[1..], one.partial, salvage)
  }

  /** The events that name a slot. */
  function Project(events: seq<ProxyEvent>, index: nat): seq<ProxyEvent> {
    if events == [] then []
    else if events[0].IsBlock() && events[0].index == index then [events[0]] + Project(events[1..], index)
    else Project(events[1..], index)
  }

  /** Folding the events of one slot on their own; `None` means that one of them is refused. */
  function FoldSlot(events: seq<ProxyEvent>, slot: Option<Block>, salvage: string -> string): Option<Option<Block>>
    requires forall i :: 0 <= i < |events| ==> events[i].IsBlock()
    decreases events
  {
    if events == [] then Some(slot)
    else
      match SlotChange(slot, events[0], salvage)
      case Kept => FoldSlot(events[1..], slot, salvage)
      case Changed(block) => FoldSlot(events[1..], Some(block), salvage)
      case Refused(_) => None
  }

  ghost predicate Blocks(events: seq<ProxyEvent>, count: nat) {
    forall i :: 0 <= i < |events| ==> events[i].IsBlock() && events[i].index < count
  }

  lemma {:induction false} ProjectBlocks(events: seq<ProxyEvent>, index: nat)
    ensures forall i :: 0 <= i < |Project(events, index)| ==> Project(events, index)[i].IsBlock()
  {
    if events != [] {
      ProjectBlocks(events[1..], index);
    }
  }

  /** A slot's events can be folded. */
  ghost predicate SlotFolds(events: seq<ProxyEvent>, content: seq<Option<Block>>, salvage: string -> string, index: nat) {
    ProjectBlocks(events, index);
    FoldSlot(Project(events, index), Get(content, index), salvage).Some?
  }

  /** Locality: whatever the interleaving, the fold succeeds if and only if the events of every slot
    fold on their own, and then every slot holds what its own events make of it. */
  lemma {:induction false} FoldIsLocal(events: seq<ProxyEvent>, count: nat, partial: Partial, salvage: string -> string)
    requires Blocks(events, count) && |partial.content| <= count
    ensures Fold(events, partial, salvage).Next? <==> forall index: nat :: SlotFolds(events, partial.content, salvage, index)
    ensures Fold(events, partial, salvage).Next? ==>
              var after := Fold(events, partial, salvage).partial;
              && after == partial.(content := after.content) && |after.content| <= count
              && forall index: nat :: SlotFolds(events, partial.content, salvage, index) && SlotAfter(events, partial.content, salvage, index) == Get(after.content, index)
    decreases events
  {
    if events == [] {
      assert forall index: nat :: Project(events, index) == [];
    } else {
      var event, rest := events[0], events[1..];
      var change := SlotChange(Get(partial.content, event.index), event, salvage);
      if change.Refused? {
        assert !SlotFolds(events, partial.content, salvage, event.index);
      } else {
        var next := Process(event, partial, salvage).partial;
        FoldIsLocal(rest, count, next, salvage);
        forall index: nat
          ensures SlotFolds(events, partial.content, salvage, index) <==> SlotFolds(rest, next.content, salvage, index)
          ensures SlotFolds(rest, next.content, salvage, index) ==>
                    SlotAfter(events, partial.content, salvage, index) == SlotAfter(rest, next.content, salvage, index)
        {
          SlotStep(events, partial, salvage, index);
        }
      }
    }
  }

  function SlotAfter(events: seq<ProxyEvent>, content: seq<Option<Block>>, salvage: string -> string, index: nat): Option<Block>
    requires SlotFolds(events, content, salvage, index)
  {
    ProjectBlocks(events, index);
    FoldSlot(Project(events, index), Get(content, index), salvage).value
  }

  lemma SlotStep(events: seq<ProxyEvent>, partial: Partial, salvage: string -> string, index: nat)
    requires events != [] && events[0].IsBlock() && Process(events[0], partial, salvage).Next?
    ensures var next := Process(events[0], partial, salvage).partial;
            && (SlotFolds(events, partial.content, salvage, index) <==> SlotFolds(events[1..], next.content, salvage, index))
            && (SlotFolds(events[1..], next.content, salvage, index) ==>
                  SlotAfter(events, partial.content, salvage, index) == SlotAfter(events[1..], next.content, salvage, index))
  {
    var next := Process(events[0], partial, salvage).partial;
    ProjectBlocks(events, index);
    ProjectBlocks(events[1..], index);
    if events[0].index == index {
      assert Project(events, index)[1..] == Project(events[1..], index);
    } else {
      assert Get(next.content, index) == Get(partial.content, index);
    }
  }

  // ----- encoding one block -----

  function TextDeltas(index: nat, deltas: seq<string>): seq<ProxyEvent> {
    seq(|deltas|, i requires 0 <= i < |deltas| => TextDelta(index, deltas[i]))
  }

  function ThinkingDeltas(index: nat, deltas: seq<string>): seq<ProxyEvent> {
    seq(|deltas|, i requires 0 <= i < |deltas| => ThinkingDelta(index, deltas[i]))
  }

  function CallDeltas(index: nat, deltas: seq<string>): seq<ProxyEvent> {
    seq(|deltas|, i requires 0 <= i < |deltas| => CallDelta(index, deltas[i]))
  }

  /** The ways a server may send one block: a start, its string cut into any deltas, and an end. The
    start and the deltas of a tool call may say anything, since its end carries the whole call. */
  datatype Encoding = Encoding(deltas: seq<string>, id: string, name: string)

  function Encode(index: nat, block: Block, how: Encoding): seq<ProxyEvent> {
    match block
    case Text(_, signature) => [TextStart(index)] + TextDeltas(index, how.deltas) + [TextEnd(index, signature)]
    case Thinking(_, signature, _) => [ThinkingStart(index)] + ThinkingDeltas(index, how.deltas) + [ThinkingEnd(index, signature)]
    case ToolCall(call, _) => [CallStart(index, how.id, how.name)] + CallDeltas(index, how.deltas) + [CallEnd(index, call)]
  }

  /** The deltas add up to the text, and a finished tool call has no leftover JSON. */
  ghost predicate Fits(block: Block, how: Encoding) {
    match block
    case Text(text, _) => Concat(how.deltas) == text
    case Thinking(text, _, _) => Concat(how.deltas) == text
    case ToolCall(_, partialJson) => partialJson.None?
  }

  lemma {:induction false} FoldTextDeltas(index: nat, deltas: seq<string>, end: ProxyEvent, before: string, signature: Option<string>, salvage: string -> string)
    requires end == TextEnd(index, signature)
    ensures FoldSlot(TextDeltas(index, deltas) + [end], Some(Text(before, None)), salvage) == Some(Some(Text(before + Concat(deltas), signature)))
    decreases deltas
  {
    var events := TextDeltas(index, deltas) + [end];
    if deltas == [] {
      assert events == [end] && events[1..] == [];
      assert before + "" == before;
    } else {
      assert events[0] == TextDelta(index, deltas[0]);
      assert events[1..] == TextDeltas(index, deltas[1..]) + [end];
      FoldTextDeltas(index, deltas[1..], end, before + deltas[0], signature, salvage);
      assert before + deltas[0] + Concat(deltas[1..]) == before + Concat(deltas);
    }
  }

  lemma {:induction false} FoldThinkingDeltas(index: nat, deltas: seq<string>, end: ProxyEvent, before: string, signature: Option<string>, salvage: string -> string)
    requires end == ThinkingEnd(index, signature)
    ensures FoldSlot(ThinkingDeltas(index, deltas) + [end], Some(Thinking(before, None, false)), salvage) ==
            Some(Some(Thinking(before + Concat(deltas), signature, false)))
    decreases deltas
  {
    var events := ThinkingDeltas(index, deltas) + [end];
    if deltas == [] {
      assert events == [end] && events[1..] == [];
      assert before + "" == before;
    } else {
      assert events[0] == ThinkingDelta(index, deltas[0]);
      assert events[1..] == ThinkingDeltas(index, deltas[1..]) + [end];
      FoldThinkingDeltas(index, deltas[1..], end, before + deltas[0], signature, salvage);
      assert before + deltas[0] + Concat(deltas[1..]) == before + Concat(deltas);
    }
  }

  lemma {:induction false} FoldCallDeltas(index: nat, deltas: seq<string>, end: ProxyEvent, slot: Block, salvage: string -> string)
    requires end.CallEnd? && end.index == index
    requires slot.ToolCall? && slot.call.thoughtSignature.None? && slot.call.namespace.None?
    ensures FoldSlot(CallDeltas(index, deltas) + [end], Some(slot), salvage) == Some(Some(ToolCall(end.call, None)))
    decreases deltas
  {
    var events := CallDeltas(index, deltas) + [end];
    if deltas == [] {
      assert events == [end] && events[1..] == [];
    } else {
      assert events[0] == CallDelta(index, deltas[0]);
      assert events[1..] == CallDeltas(index, deltas[1..]) + [end];
      FoldCallDeltas(index, deltas[1..], end, SlotChange(Some(slot), events[0], salvage).block, salvage);
    }
  }

  predicate Redacted(block: Block) { block.Thinking? && block.redacted }

  /** What arrives of a block: no event says that thinking was redacted. */
  function Arrived(block: Block): Block {
    if block.Thinking? then block.(redacted := false) else block
  }

  /** Folding the encoding of a block gives the block back, except that it is never redacted. */
  lemma DecodeBlock(index: nat, block: Block, how: Encoding, salvage: string -> string)
    requires Fits(block, how)
    ensures FoldSlot(Encode(index, block, how), None, salvage) == Some(Some(Arrived(block)))
  {
    var events := Encode(index, block, how);
    match block {
      case Text(text, signature) =>
        assert events[1..] == TextDeltas(index, how.deltas) + [TextEnd(index, signature)];
        FoldTextDeltas(index, how.deltas, TextEnd(index, signature), "", signature, salvage);
        assert "" + Concat(how.deltas) == text;
      case Thinking(text, signature, _) =>
        assert events[1..] == ThinkingDeltas(index, how.deltas) + [ThinkingEnd(index, signature)];
        FoldThinkingDeltas(index, how.deltas, ThinkingEnd(index, signature), "", signature, salvage);
        assert "" + Concat(how.deltas) == text;
      case ToolCall(call, _) =>
        assert events[1..] == CallDeltas(index, how.deltas) + [CallEnd(index, call)];
        FoldCallDeltas(index, how.deltas, CallEnd(index, call), ToolCall(Call(how.id, how.name, "{}", None, None), Some("")), salvage);
    }
  }

  // ----- the round trip -----

  function Filled(blocks: seq<Block>): seq<Option<Block>> {
    seq(|blocks|, i requires 0 <= i < |blocks| => Some(blocks[i]))
  }

  function AllArrived(blocks: seq<Block>): seq<Block> {
    seq(|blocks|, i requires 0 <= i < |blocks| => Arrived(blocks[i]))
  }

  ghost predicate Unredacted(blocks: seq<Block>) {
    forall i :: 0 <= i < |blocks| ==> !Redacted(blocks[i])
  }

  lemma UnredactedArrive(blocks: seq<Block>)
    ensures Filled(AllArrived(blocks)) == Filled(blocks) <==> Unredacted(blocks)
  {
    forall i | 0 <= i < |blocks|
      ensures Filled(AllArrived(blocks))[i] == Filled(blocks)[i] <==> !Redacted(blocks[i])
    {
      assert Filled(AllArrived(blocks))[i] == Some(Arrived(blocks[i])) && Filled(blocks)[i] == Some(blocks[i]);
    }
  }

  /** `events` is some interleaving of the encodings of the blocks. */
  ghost predicate Interleaves(events: seq<ProxyEvent>, blocks: seq<Block>, how: seq<Encoding>) {
    && |how| == |blocks|
    && Blocks(events, |blocks|)
    && forall i :: 0 <= i < |blocks| ==> Fits(blocks[i], how[i]) && Project(events, i) == Encode(i, blocks[i], how[i])
  }

  lemma {:induction false} ProjectNothing(events: seq<ProxyEvent>, count: nat, index: nat)
    requires Blocks(events, count) && index >= count
    ensures Project(events, index) == []
  {
    if events != [] {
      ProjectNothing(events[1..], count, index);
    }
  }

  /** Proxy round trip: for any content, any split of its strings into deltas and any interleaving that
    keeps the order within each block, the fold rebuilds that content with every thinking block
    unredacted. So it rebuilds exactly that content if and only if no thinking block was redacted. */
  lemma RoundTrip(events: seq<ProxyEvent>, blocks: seq<Block>, how: seq<Encoding>, salvage: string -> string)
    requires Interleaves(events, blocks, how)
    ensures Fold(events, EMPTY, salvage).Next?
    ensures Fold(events, EMPTY, salvage).partial == EMPTY.(content := Filled(AllArrived(blocks)))
    ensures Fold(events, EMPTY, salvage).partial.content == Filled(blocks) <==> Unredacted(blocks)
  {
    UnredactedArrive(blocks);
    forall index: nat
      ensures SlotFolds(events, [], salvage, index)
      ensures SlotAfter(events, [], salvage, index) == Get(Filled(AllArrived(blocks)), index)
    {
      ProjectBlocks(events, index);
      if index < |blocks| {
        DecodeBlock(index, blocks[index], how[index], salvage);
      } else {
        ProjectNothing(events, |blocks|, index);
      }
    }
    FoldIsLocal(events, |blocks|, EMPTY, salvage);
    var content := Fold(events, EMPTY, salvage).partial.content;
    SameContent(content, Filled(AllArrived(blocks)));
  }

  /** The code loses the flag: one redacted block, sent whole, comes back unredacted. */
  lemma RedactedCounterexample(salvage: string -> string)
    ensures var block := Thinking("[Reasoning redacted]", Some("payload"), true);
            var events := [ThinkingStart(0), ThinkingDelta(0, block.text), ThinkingEnd(0, block.signature)];
            && Interleaves(events, [block], [Encoding([block.text], "", "")])
            && Fold(events, EMPTY, salvage).partial.content == [Some(block.(redacted := false))]
  {
    var block := Thinking("[Reasoning redacted]", Some("payload"), true);
    var how := Encoding([block.text], "", "");
    var events := [ThinkingStart(0), ThinkingDelta(0, block.text), ThinkingEnd(0, block.signature)];
    assert how.deltas[1..] == [] && Concat(how.deltas) == block.text + "";
    assert Encode(0, block, how) == events;
    ProjectAll(events, 0);
    RoundTrip(events, [block], [how], salvage);
    assert Filled(AllArrived([block])) == [Some(block.(redacted := false))];
  }

  lemma {:induction false} ProjectAll(events: seq<ProxyEvent>, index: nat)
    requires forall i :: 0 <= i < |events| ==> events[i].IsBlock() && events[i].index == index
    ensures Project(events, index) == events
  {
    if events != [] { ProjectAll(events[1..], index); }
  }

  lemma SameContent(one: seq<Option<Block>>, other: seq<Option<Block>>)
    requires |one| <= |other| && forall i :: 0 <= i < |other| ==> other[i].Some?
    requires forall i: nat :: Get(one, i) == Get(other, i)
    ensures one == other
  {
    if other != [] {
      assert Get(one, |other| - 1) == Get(other, |other| - 1) == other[|other| - 1];
    }
    forall i | 0 <= i < |one| ensures one[i] == other[i] {
      assert Get(one, i) == Get(other, i);
    }
  }
}
