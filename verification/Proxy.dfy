/** The proxy stream client of `packages/agent/src/proxy.ts`: an incremental line splitter and an event
  fold that rebuilds the message from which the server stripped the partial content. */
module Proxy {
  import opened Wrappers

  datatype Call = Call(id: string, name: string, arguments: string, thoughtSignature: Option<string>, namespace: Option<string>)

  /** A content block; a tool call under construction also holds its raw JSON. */
  datatype Block =
    | Text(text: string, signature: Option<string>)
    | Thinking(text: string, signature: Option<string>, redacted: bool)
    | ToolCall(call: Call, partialJson: Option<string>)

  datatype StopReason = Pending | Stop | Length | ToolUse | Aborted | Error

  datatype ProxyEvent =
    | Start
    | Unknown(kind: string)
    | TextStart(index: nat) | TextDelta(index: nat, delta: string) | TextEnd(index: nat, signature: Option<string>)
    | ThinkingStart(index: nat) | ThinkingDelta(index: nat, delta: string) | ThinkingEnd(index: nat, signature: Option<string>)
    | CallStart(index: nat, id: string, name: string) | CallDelta(index: nat, delta: string) | CallEnd(index: nat, call: Call)
    | Done(reason: StopReason, usage: string, level: Option<string>)
    | Failed(reason: StopReason, error: Option<string>, usage: string, level: Option<string>)
  {
    predicate IsBlock() { !Start? && !Unknown? && !Terminal() }
    predicate Terminal() { Done? || Failed? }
  }

  /** The message under construction. The content is a sparse array: a slot may be empty. `unsent`
    stands for the fields that no event carries: response id, response model, raw stop reason,
    diagnostics, end-turn flag and deferred handle. */
  datatype Partial = Partial(content: seq<Option<Block>>, stop: StopReason, error: Option<string>, usage: string,
                             level: Option<string>, unsent: Option<string>)

  const EMPTY := Partial([], Pending, None, "", None, None)

  /** What the platform does with strings: JSON parsing, trimming, and salvaging arguments from
    incomplete JSON. */
  datatype Platform = Platform(parse: string -> Option<ProxyEvent>, trim: string -> string, salvage: string -> string)

  // ----- one event -----

  function Get(content: seq<Option<Block>>, i: nat): Option<Block> {
    if i < |content| then content[i] else None
  }

  /** Assigning an array element; assigning past the end leaves holes. */
  function Put(content: seq<Option<Block>>, i: nat, block: Option<Block>): (after: seq<Option<Block>>)
    ensures i < |after| && |after| == if i < |content| then |content| else i + 1
    ensures forall k: nat :: Get(after, k) == if k == i then block else Get(content, k)
  {
    if i < |content| then content[i := block]
    else content + seq(i - |content|, _ => None) + [block]
  }

  datatype Change = Kept | Changed(block: Block) | Refused(reason: string)

  function Or<T>(value: Option<T>, other: Option<T>): Option<T> {
    if value.Some? then value else other
  }

  /** What a block event does to the slot it names. */
  function SlotChange(slot: Option<Block>, event: ProxyEvent, salvage: string -> string): Change
    requires event.IsBlock()
  {
    match event
    case TextStart(_) => Changed(Text("", None))
    case TextDelta(_, delta) =>
      if slot.Some? && slot.value.Text? then Changed(Text(slot.value.text + delta, slot.value.signature))
      else Refused("Received text_delta for non-text content")
    case TextEnd(_, signature) =>
      if slot.Some? && slot.value.Text? then Changed(Text(slot.value.text, signature))
      else Refused("Received text_end for non-text content")
    case ThinkingStart(_) => Changed(Thinking("", None, false))
    case ThinkingDelta(_, delta) =>
      if slot.Some? && slot.value.Thinking? then Changed(Thinking(slot.value.text + delta, slot.value.signature, slot.value.redacted))
      else Refused("Received thinking_delta for non-thinking content")
    case ThinkingEnd(_, signature) =>
      if slot.Some? && slot.value.Thinking? then Changed(Thinking(slot.value.text, signature, slot.value.redacted))
      else Refused("Received thinking_end for non-thinking content")
    case CallStart(_, id, name) => Changed(ToolCall(Call(id, name, "{}", None, None), Some("")))
    case CallDelta(_, delta) =>
      if slot.Some? && slot.value.ToolCall? then
        var json := (if slot.value.partialJson.Some? then slot.value.partialJson.value else "undefined") + delta;
        Changed(ToolCall(slot.value.call.(arguments := salvage(json)), Some(json)))
      else Refused("Received toolcall_delta for non-toolCall content")
    case CallEnd(_, call) =>
      if slot.Some? && slot.value.ToolCall? then
        Changed(ToolCall(call.(thoughtSignature := Or(call.thoughtSignature, slot.value.call.thoughtSignature),
                               namespace := Or(call.namespace, slot.value.call.namespace)), None))
      else Kept
  }

  /** The result of an event: the message, whether the event is passed on, or an exception. */
  datatype Outcome = Next(partial: Partial, forwarded: bool) | Throw(reason: string)

  function Process(event: ProxyEvent, partial: Partial, salvage: string -> string): Outcome {
    match event
    case Start => Next(partial, true)
    case Unknown(_) => Next(partial, false)
    case Done(reason, usage, level) =>
      Next(partial.(stop := reason, usage := usage, level := Or(level, partial.level)), true)
    case Failed(reason, error, usage, level) =>
      Next(partial.(stop := reason, error := error, usage := usage, level := Or(level, partial.level)), true)
    case _ =>
      match SlotChange(Get(partial.content, event.index), event, salvage)
      case Kept => Next(partial, false)
      case Changed(block) => Next(partial.(content := Put(partial.content, event.index, Some(block))), true)
      case Refused(reason) => Throw(reason)
  }

  // ----- lines -----

  /** Splitting at newlines; the result is never empty. */
  function Split(text: string): (parts: seq<string>)
    ensures parts != []
  {
    if text == "" then [""]
    else
      var rest := Split(text[1..]);
      if text[0] == '\n' then [""] + rest else [[text[0]] + rest[0]] + rest[1..]
  }

  function Join(parts: seq<string>): string {
    if parts == [] then "" else if |parts| == 1 then parts[0] else parts[0] + "\n" + Join(parts[1..])
  }

  predicate OneLine(line: string) { '\n' !in line }

  /** What the client processes: every complete line, and the rest if it is not empty. */
  function Lines(text: string): seq<string> {
    var parts := Split(text);
    parts[..|parts| - 1] + if parts[|parts| - 1] == "" then [] else [parts[|parts| - 1]]
  }

  // ----- the client -----

  datatype Output = Output(event: ProxyEvent, partial: Partial)

  /** Reading a response: the message, the events pushed so far, and an exception if one was thrown. */
  datatype Client = Client(partial: Partial, pushed: seq<Output>, thrown: Option<string>) {
    predicate SawTerminal() { exists i :: 0 <= i < |pushed| && pushed[i].event.Terminal() }
  }

  const PREFIX := "data: "

  function Handle(event: ProxyEvent, client: Client, salvage: string -> string): Client {
    match Process(event, client.partial, salvage)
    case Throw(reason) => client.(thrown := Some(reason))
    case Next(partial, forwarded) =>
      client.(partial := partial, pushed := client.pushed + if forwarded then [Output(event, partial)] else [])
  }

  function ProcessLine(line: string, client: Client, platform: Platform): Client {
    if !(PREFIX <= line) then client
    else
      var data := platform.trim(line[|PREFIX|..]);
      if data == "" then client
      else
        var event := platform.parse(data);
        if event.None? then client.(thrown := Some("invalid JSON")) else Handle(event.value, client, platform.salvage)
  }

  /** Lines are processed until one throws. */
  function ProcessLines(lines: seq<string>, client: Client, platform: Platform): Client
    decreases lines
  {
    if lines == [] || client.thrown.Some? then client
    else ProcessLines(lines[1..], ProcessLine(lines[0], client, platform), platform)
  }

  const CLOSED := "Connection closed by proxy server before the response completed"

  /** The end of a read: an exception or a missing terminal event becomes an error event. */
  function Close(client: Client, aborted: bool): Client {
    if client.thrown.Some? then
      var reason := if aborted then Aborted else Error;
      var partial := client.partial.(stop := reason, error := client.thrown);
      client.(partial := partial, pushed := client.pushed + [Output(Failed(reason, client.thrown, "", None), partial)])
    else if client.SawTerminal() then client
    else
      var partial := client.partial.(stop := Error, error := Some(CLOSED));
      client.(partial := partial, pushed := client.pushed + [Output(Failed(Error, Some(CLOSED), "", None), partial)])
  }

  const FRESH := Client(EMPTY, [], None)

  /** What a whole response text yields when nothing aborts the read. */
  function Receive(text: string, platform: Platform): Client {
    Close(ProcessLines(Lines(text), FRESH, platform), false)
  }
}
