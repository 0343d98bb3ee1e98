/** Messages, tool declarations and their replay.

  Models the message side of `packages/agent/src/agent-loop.ts` together with the
  replay helpers of `packages/ai/src/utils/transcript.ts`. */
module Transcript {
  import opened Wrappers

  /** What the model is told about a tool: a name and a definition. */
  datatype Tool = Tool(name: string, definition: string)

  /** What the runtime can execute. */
  datatype AgentTool = AgentTool(declaration: Tool, sequential: bool)

  datatype ToolCall = ToolCall(id: string, name: string, arguments: string)

  datatype Block = Text(text: string) | Call(call: ToolCall)

  datatype StopReason = Pending | Stop | Length | ToolUse | Error | Aborted | Deferred

  /** Who handed a message to the loop. No operation reads this label; it only lets
    a theorem say which messages of the transcript came from which queue. */
  datatype Origin = Prompt | Steering | FollowUp | Note | Prepared | Declared | Model | ToolRun

  datatype Body =
    | System(text: string, added: seq<Tool>, removed: seq<string>)
    | Assistant(blocks: seq<Block>, stop: StopReason, error: Option<string>)
    | ToolResult(callId: string, toolName: string, content: string, isError: bool)
    | Other(role: string, text: string)

  datatype Message = Message(origin: Origin, body: Body) {
    predicate IsSystem() { body.System? }
  }

  datatype Context = Context(messages: seq<Message>, tools: seq<AgentTool>)

  // ----- tool lists: the values of an insertion-ordered map -----

  function Delete(tools: seq<Tool>, name: string): seq<Tool> {
    if tools == [] then []
    else if tools[0].name == name then Delete(tools[1..], name)
    else [tools[0]] + Delete(tools[1..], name)
  }

  function Put(tools: seq<Tool>, tool: Tool): seq<Tool> {
    if tools == [] then [tool]
    else if tools[0].name == tool.name then [tool] + Delete(tools[1..], tool.name)
    else [tools[0]] + Put(tools[1..], tool)
  }

  /** The last entry with a name, which is what `new Map(entries)` keeps. */
  function Lookup(tools: seq<Tool>, name: string): Option<Tool> {
    if tools == [] then None
    else
      var last := tools[|tools| - 1];
      if last.name == name then Some(last) else Lookup(tools[..|tools| - 1], name)
  }

  function DeleteAll(tools: seq<Tool>, names: seq<string>): seq<Tool>
    decreases names
  {
    if names == [] then tools else DeleteAll(Delete(tools, names[0]), names[1..])
  }

  function PutAll(tools: seq<Tool>, added: seq<Tool>): seq<Tool>
    decreases added
  {
    if added == [] then tools else PutAll(Put(tools, added[0]), added[1..])
  }

  function ReplayOne(tools: seq<Tool>, message: Message): seq<Tool> {
    if message.IsSystem() then PutAll(DeleteAll(tools, message.body.removed), message.body.added) else tools
  }

  /** The tools declared after every system message was applied in order. */
  function Replay(tools: seq<Tool>, messages: seq<Message>): seq<Tool>
    decreases messages
  {
    if messages == [] then tools else Replay(ReplayOne(tools, messages[0]), messages[1..])
  }

  // ----- comparing two tool states -----

  datatype Changes = Changes(added: seq<Tool>, removed: seq<string>)

  function Additions(previous: seq<Tool>, current: seq<Tool>): seq<Tool> {
    if current == [] then []
    else
      var rest := Additions(previous, current[1..]);
      if Lookup(previous, current[0].name) == Some(current[0]) then rest else [current[0]] + rest
  }

  function Removals(previous: seq<Tool>, current: seq<Tool>): seq<string> {
    if previous == [] then []
    else
      var rest := Removals(previous[1..], current);
      if Lookup(current, previous[0].name) == Some(previous[0]) then rest else [previous[0].name] + rest
  }

  function ToolStateChanges(previous: seq<Tool>, current: seq<Tool>): Changes {
    Changes(Additions(previous, current), Removals(previous, current))
  }

  function Declarations(tools: seq<AgentTool>): seq<Tool> {
    seq(|tools|, i requires 0 <= i < |tools| => tools[i].declaration)
  }

  // ----- declaring changes -----

  function WithChanges(message: Message, changes: Changes): Message
    requires message.IsSystem()
  {
    message.(body := message.body.(added := changes.added, removed := changes.removed))
  }

  const NO_CHANGES := Changes([], [])

  /** Index of the last system message, or -1. */
  function LastSystem(messages: seq<Message>): (index: int)
    ensures -1 <= index < |messages|
    ensures index >= 0 ==> messages[index].IsSystem()
    ensures forall k :: index < k < |messages| ==> !messages[k].IsSystem()
  {
    if messages == [] then -1
    else if messages[|messages| - 1].IsSystem() then |messages| - 1
    else LastSystem(messages[..|messages| - 1])
  }

  /** Index of the first message that is not a system message, or the length. */
  function FirstNonSystem(messages: seq<Message>): nat {
    if messages == [] || !messages[0].IsSystem() then 0 else 1 + FirstNonSystem(messages[1..])
  }

  function DeclareChanges(context: Context, pending: seq<Message>): seq<Message> {
    var index := LastSystem(pending);
    var baseline := if index >= 0 then pending[index := WithChanges(pending[index], NO_CHANGES)] else pending;
    var changes := ToolStateChanges(Replay([], context.messages + baseline), Declarations(context.tools));
    if index >= 0 then
      if changes == NO_CHANGES && pending[index].body.added == [] && pending[index].body.removed == [] then pending
      else baseline[index := WithChanges(pending[index], changes)]
    else if changes == NO_CHANGES then pending
    else
      var update := Message(Declared, System("", changes.added, changes.removed));
      [update] + pending
  }

  // ----- the loops -----

  method GetCurrentTools(messages: seq<Message>) returns (tools: seq<Tool>)
    ensures tools == Replay([], messages)
  {
    tools := [];
    for i := 0 to |messages|
      invariant Replay([], messages) == Replay(tools, messages[i..])
    {
      var message := messages[i];
      assert messages[i..][1..] == messages[i + 1..];
      if message.IsSystem() {
        ghost var before := tools;
        for k := 0 to |message.body.removed|
          invariant DeleteAll(before, message.body.removed) == DeleteAll(tools, message.body.removed[k..])
        {
          assert message.body.removed[k..][1..] == message.body.removed[k + 1..];
          tools := Delete(tools, message.body.removed[k]);
        }
        ghost var between := tools;
        for k := 0 to |message.body.added|
          invariant PutAll(between, message.body.added) == PutAll(tools, message.body.added[k..])
        {
          assert message.body.added[k..][1..] == message.body.added[k + 1..];
          tools := Put(tools, message.body.added[k]);
        }
      }
    }
  }

  method DeclareToolChanges(context: Context, pendingMessages: seq<Message>) returns (declared: seq<Message>)
    ensures declared == DeclareChanges(context, pendingMessages)
  {
    var systemIndex := -1;
    var i := |pendingMessages| - 1;
    while i >= 0 && systemIndex == -1
      invariant -1 <= i < |pendingMessages|
      invariant systemIndex == -1 ==> LastSystem(pendingMessages) == LastSystem(pendingMessages[..i + 1])
      invariant systemIndex != -1 ==> systemIndex == LastSystem(pendingMessages)
      decreases i
    {
      assert pendingMessages[..i + 1][..i] == pendingMessages[..i];
      if pendingMessages[i].IsSystem() {
        systemIndex := i;
      }
      i := i - 1;
    }
    assert pendingMessages[..|pendingMessages|] == pendingMessages;
    var baseline := pendingMessages;
    if systemIndex != -1 {
      baseline := pendingMessages[systemIndex := WithChanges(pendingMessages[systemIndex], NO_CHANGES)];
    }
    var current := GetCurrentTools(context.messages + baseline);
    var changes := ToolStateChanges(current, Declarations(context.tools));
    var settled := changes.added == [] && changes.removed == [];
    if systemIndex != -1 {
      var pending := pendingMessages[systemIndex];
      if settled && pending.body.added == [] && pending.body.removed == [] {
        return pendingMessages;
      }
      return baseline[systemIndex := WithChanges(pending, changes)];
    }
    if settled {
      return pendingMessages;
    }
    var update := Message(Declared, System("", changes.added, changes.removed));
    var insertIndex := FirstNonSystem(pendingMessages);
    declared := pendingMessages[..insertIndex] + [update] + pendingMessages[insertIndex..];
  }

  // ----- facts about tool lists -----

  predicate UniqueNames(tools: seq<Tool>) {
    forall i, j :: 0 <= i < j < |tools| ==> tools[i].name != tools[j].name
  }

  predicate Names(tools: seq<Tool>, name: string) {
    exists i :: 0 <= i < |tools| && tools[i].name == name
  }

  lemma {:induction false} LookupIsMember(tools: seq<Tool>, name: string)
    ensures Lookup(tools, name).Some? <==> Names(tools, name)
    ensures Lookup(tools, name).Some? ==> Lookup(tools, name).value in tools && Lookup(tools, name).value.name == name
  {
    if tools != [] {
      var init := tools[..|tools| - 1];
      LookupIsMember(init, name);
      if Names(tools, name) && tools[|tools| - 1].name != name {
        var i :| 0 <= i < |tools| && tools[i].name == name;
        assert init[i].name == name;
      }
      if Names(init, name) {
        var i :| 0 <= i < |init| && init[i].name == name;
        assert tools[i].name == name;
      }
    }
  }

  lemma {:induction false} LookupAppend(left: seq<Tool>, right: seq<Tool>, name: string)
    ensures Lookup(left + right, name) == if Names(right, name) then Lookup(right, name) else Lookup(left, name)
  {
    if right == [] {
      assert left + right == left;
    } else {
      var init := right[..|right| - 1];
      assert (left + right)[..|left + right| - 1] == left + init;
      LookupAppend(left, init, name);
      LookupIsMember(right, name);
      LookupIsMember(init, name);
    }
  }

  lemma {:induction false} LookupCons(tools: seq<Tool>, name: string)
    requires tools != []
    ensures Lookup(tools, name) ==
            if Names(tools[1..], name) then Lookup(tools[1..], name)
            else if tools[0].name == name then Some(tools[0]) else None
  {
    LookupAppend([tools[0]], tools[1..], name);
    assert [tools[0]] + tools[1..] == tools;
    assert [tools[0]][..0] == [];
  }

  lemma {:induction false} DeleteEffect(tools: seq<Tool>, gone: string, name: string)
    ensures Names(Delete(tools, gone), name) <==> Names(tools, name) && name != gone
    ensures Lookup(Delete(tools, gone), name) == if name == gone then None else Lookup(tools, name)
  {
    LookupIsMember(Delete(tools, gone), name);
    if tools != [] {
      DeleteEffect(tools[1..], gone, name);
      LookupCons(tools, name);
      LookupIsMember(tools, name);
      LookupIsMember(tools[1..], name);
      var rest := Delete(tools[1..], gone);
      LookupIsMember(rest, name);
      if tools[0].name != gone {
        LookupCons([tools[0]] + rest, name);
        assert ([tools[0]] + rest)[1..] == rest;
      }
    }
  }

  lemma {:induction false} DeleteKeepsUnique(tools: seq<Tool>, gone: string)
    requires UniqueNames(tools)
    ensures UniqueNames(Delete(tools, gone))
  {
    if tools != [] {
      DeleteKeepsUnique(tools[1..], gone);
      DeleteEffect(tools[1..], gone, tools[0].name);
      assert !Names(tools[1..], tools[0].name);
      var rest := Delete(tools[1..], gone);
      assert forall i :: 0 <= i < |rest| ==> rest[i].name != tools[0].name;
    }
  }

  lemma {:induction false} PutEffect(tools: seq<Tool>, tool: Tool, name: string)
    ensures Names(Put(tools, tool), name) <==> Names(tools, name) || name == tool.name
    ensures Lookup(Put(tools, tool), name) == if name == tool.name then Some(tool) else Lookup(tools, name)
  {
    var result := Put(tools, tool);
    LookupIsMember(result, name);
    if tools == [] {
      assert result[..0] == [];
    } else {
      LookupCons(tools, name);
      LookupIsMember(tools, name);
      LookupCons(result, name);
      if tools[0].name == tool.name {
        DeleteEffect(tools[1..], tool.name, name);
        assert result[1..] == Delete(tools[1..], tool.name);
      } else {
        PutEffect(tools[1..], tool, name);
        assert result[1..] == Put(tools[1..], tool);
      }
    }
  }

  lemma {:induction false} PutKeepsUnique(tools: seq<Tool>, tool: Tool)
    requires UniqueNames(tools)
    ensures UniqueNames(Put(tools, tool))
  {
    if tools != [] {
      if tools[0].name == tool.name {
        DeleteKeepsUnique(tools[1..], tool.name);
        DeleteEffect(tools[1..], tool.name, tool.name);
        var rest := Delete(tools[1..], tool.name);
        assert forall i :: 0 <= i < |rest| ==> rest[i].name != tool.name;
      } else {
        PutKeepsUnique(tools[1..], tool);
        PutEffect(tools[1..], tool, tools[0].name);
        assert !Names(tools[1..], tools[0].name);
        var rest := Put(tools[1..], tool);
        assert forall i :: 0 <= i < |rest| ==> rest[i].name != tools[0].name;
      }
    }
  }

  lemma {:induction false} DeleteAllEffect(tools: seq<Tool>, names: seq<string>, name: string)
    ensures Lookup(DeleteAll(tools, names), name) == if name in names then None else Lookup(tools, name)
    ensures UniqueNames(tools) ==> UniqueNames(DeleteAll(tools, names))
    decreases names
  {
    if names != [] {
      DeleteEffect(tools, names[0], name);
      if UniqueNames(tools) {
        DeleteKeepsUnique(tools, names[0]);
      }
      DeleteAllEffect(Delete(tools, names[0]), names[1..], name);
    }
  }

  lemma {:induction false} PutAllEffect(tools: seq<Tool>, added: seq<Tool>, name: string)
    ensures Lookup(PutAll(tools, added), name) == if Names(added, name) then Lookup(added, name) else Lookup(tools, name)
    ensures UniqueNames(tools) ==> UniqueNames(PutAll(tools, added))
    decreases added
  {
    if added != [] {
      PutEffect(tools, added[0], name);
      if UniqueNames(tools) {
        PutKeepsUnique(tools, added[0]);
      }
      PutAllEffect(Put(tools, added[0]), added[1..], name);
      LookupCons(added, name);
      LookupIsMember(added, name);
      LookupIsMember(added[1..], name);
    }
  }

  lemma {:induction false} ReplayUnique(tools: seq<Tool>, messages: seq<Message>)
    requires UniqueNames(tools)
    ensures UniqueNames(Replay(tools, messages))
    decreases messages
  {
    if messages != [] {
      if messages[0].IsSystem() {
        DeleteAllEffect(tools, messages[0].body.removed, "");
        PutAllEffect(DeleteAll(tools, messages[0].body.removed), messages[0].body.added, "");
      }
      ReplayUnique(ReplayOne(tools, messages[0]), messages[1..]);
    }
  }

  lemma {:induction false} ReplayAppend(tools: seq<Tool>, left: seq<Message>, right: seq<Message>)
    ensures Replay(tools, left + right) == Replay(Replay(tools, left), right)
    decreases left
  {
    if left == [] {
      assert left + right == right;
    } else {
      assert (left + right)[1..] == left[1..] + right;
      ReplayAppend(ReplayOne(tools, left[0]), left[1..], right);
    }
  }

  lemma {:induction false} ReplayNonSystem(tools: seq<Tool>, messages: seq<Message>)
    requires forall i :: 0 <= i < |messages| ==> !messages[i].IsSystem()
    ensures Replay(tools, messages) == tools
  {
    if messages != [] {
      ReplayNonSystem(tools, messages[1..]);
    }
  }

  // ----- comparing and applying -----

  /** A name whose entries in `tools` are not all the same definition. */
  predicate Ambiguous(tools: seq<Tool>, name: string) {
    exists i, j :: 0 <= i < |tools| && 0 <= j < |tools| && tools[i].name == name == tools[j].name && tools[i] != tools[j]
  }

  lemma {:induction false} AdditionsEffect(previous: seq<Tool>, current: seq<Tool>, name: string)
    ensures forall t :: t in Additions(previous, current) <==> t in current && Lookup(previous, t.name) != Some(t)
    ensures Lookup(previous, name) != Lookup(current, name) && Names(current, name)
            ==> Lookup(Additions(previous, current), name) == Lookup(current, name)
  {
    if current != [] {
      var rest := Additions(previous, current[1..]);
      AdditionsEffect(previous, current[1..], name);
      LookupCons(current, name);
      LookupIsMember(current[1..], name);
      LookupIsMember(rest, name);
      var result := Additions(previous, current);
      if result != rest {
        LookupCons(result, name);
        assert result[1..] == rest;
      }
      assert forall t :: t in current <==> t == current[0] || t in current[1..];
      if Lookup(previous, name) != Lookup(current, name) && Names(current, name) {
        if Names(current[1..], name) {
          var t := Lookup(current[1..], name).value;
          assert t in rest;
          NamesMember(rest, t);
        } else {
          assert forall t :: t in rest ==> t in current[1..];
          assert !Names(rest, name);
        }
      }
    }
  }

  lemma NamesMember(tools: seq<Tool>, tool: Tool)
    requires tool in tools
    ensures Names(tools, tool.name)
  {
    var i :| 0 <= i < |tools| && tools[i] == tool;
    assert tools[i].name == tool.name;
  }

  lemma {:induction false} RemovalsEffect(previous: seq<Tool>, current: seq<Tool>, name: string)
    requires UniqueNames(previous)
    ensures name in Removals(previous, current) <==> Lookup(previous, name).Some? && Lookup(current, name) != Lookup(previous, name)
  {
    if previous != [] {
      RemovalsEffect(previous[1..], current, name);
      LookupCons(previous, name);
      LookupIsMember(previous[1..], name);
      if previous[0].name == name {
        assert !Names(previous[1..], name);
      }
    }
  }

  function Apply(tools: seq<Tool>, changes: Changes): seq<Tool> {
    PutAll(DeleteAll(tools, changes.removed), changes.added)
  }

  /** Applying the computed delta reaches the current definition of a name exactly when that
    name is not an ambiguous one whose last definition was already in force. */
  lemma ApplyReaches(previous: seq<Tool>, current: seq<Tool>, name: string)
    requires UniqueNames(previous)
    ensures Lookup(Apply(previous, ToolStateChanges(previous, current)), name) == Lookup(current, name)
            <==> !(Ambiguous(current, name) && Lookup(previous, name) == Lookup(current, name))
  {
    var changes := ToolStateChanges(previous, current);
    DeleteAllEffect(previous, changes.removed, name);
    PutAllEffect(DeleteAll(previous, changes.removed), changes.added, name);
    RemovalsEffect(previous, current, name);
    AdditionsEffect(previous, current, name);
    LookupIsMember(current, name);
    LookupIsMember(changes.added, name);
    if Names(current, name) {
      var last := Lookup(current, name).value;
      if Lookup(previous, name) == Some(last) {
        if Names(changes.added, name) {
          var added := Lookup(changes.added, name).value;
          assert added in current && added != last;
          assert Ambiguous(current, name);
        } else if Ambiguous(current, name) {
          AmbiguousDiffers(current, name, last);
          var other :| other in current && other.name == name && other != last;
          assert other in changes.added;
          NamesMember(changes.added, other);
          assert false;
        }
      }
    } else {
      if Names(changes.added, name) {
        NamesMember(current, Lookup(changes.added, name).value);
        assert false;
      }
      assert !Ambiguous(current, name);
    }
  }

  lemma AmbiguousDiffers(tools: seq<Tool>, name: string, tool: Tool)
    requires Ambiguous(tools, name)
    ensures exists other :: other in tools && other.name == name && other != tool
  {
    var i, j :| 0 <= i < |tools| && 0 <= j < |tools| && tools[i].name == name == tools[j].name && tools[i] != tools[j];
    assert tools[i] in tools && tools[j] in tools;
  }

  // ----- the declaration law -----

  /** The transcript a declaration is computed against: the context and the pending messages with
    the tool fields of the last pending system message cleared. */
  function Committed(context: Context, pending: seq<Message>): seq<Tool> {
    var index := LastSystem(pending);
    Replay([], context.messages + (if index >= 0 then pending[index := WithChanges(pending[index], NO_CHANGES)] else pending))
  }

  /** The transcript declares exactly the executable tools. */
  ghost predicate Declares(context: Context) {
    forall tool :: tool in Replay([], context.messages) <==> tool in Declarations(context.tools)
  }

  lemma DeclaredReplay(context: Context, pending: seq<Message>)
    ensures Replay([], context.messages + DeclareChanges(context, pending)) ==
            Apply(Committed(context, pending), ToolStateChanges(Committed(context, pending), Declarations(context.tools)))
  {
    hide ToolStateChanges, PutAll, DeleteAll;
    var index := LastSystem(pending);
    var committed := Committed(context, pending);
    var changes := ToolStateChanges(committed, Declarations(context.tools));
    var start := Replay([], context.messages);
    var out := DeclareChanges(context, pending);
    ReplayAppend([], context.messages, out);
    if index >= 0 {
      var cleared := WithChanges(pending[index], NO_CHANGES);
      var baseline := pending[index := cleared];
      ReplayAppend([], context.messages, baseline);
      ReplaySplit(start, baseline, index);
      assert baseline[..index] == pending[..index] && baseline[index + 1..] == pending[index + 1..];
      var before := Replay(start, pending[..index]);
      ReplayNonSystem(before, pending[index + 1..]);
      ApplyNothing(before);
      assert ReplayOne(before, cleared) == before;
      assert committed == before;
      var last := if out == pending then pending[index] else WithChanges(pending[index], changes);
      assert out == pending[index := last];
      ReplaySplit(start, out, index);
      assert out[..index] == pending[..index] && out[index + 1..] == pending[index + 1..];
      ReplayNonSystem(ReplayOne(before, last), pending[index + 1..]);
    } else {
      ReplayAppend([], context.messages, pending);
      ReplayNonSystem(start, pending);
      if changes != NO_CHANGES {
        var update := Message(Declared, System("", changes.added, changes.removed));
        assert out[1..] == pending;
        ReplayNonSystem(ReplayOne(start, update), pending);
      } else {
        ApplyNothing(committed);
      }
    }
  }

  lemma ApplyNothing(tools: seq<Tool>)
    ensures Apply(tools, NO_CHANGES) == tools
  {
  }

  lemma ReplaySplit(tools: seq<Tool>, messages: seq<Message>, index: nat)
    requires index < |messages|
    ensures Replay(tools, messages) ==
            Replay(ReplayOne(Replay(tools, messages[..index]), messages[index]), messages[index + 1..])
  {
    assert messages == messages[..index] + messages[index..];
    ReplayAppend(tools, messages[..index], messages[index..]);
    assert messages[index..][1..] == messages[index + 1..];
  }

  /** Replaying a declaration gives a name the last of its executable definitions if and only if the
    name is not an ambiguous one whose last definition was already in force. */
  lemma DeclarationReachesLast(context: Context, pending: seq<Message>, name: string)
    ensures Lookup(Replay([], context.messages + DeclareChanges(context, pending)), name) == Lookup(Declarations(context.tools), name)
            <==> !(Ambiguous(Declarations(context.tools), name)
                   && Lookup(Committed(context, pending), name) == Lookup(Declarations(context.tools), name))
  {
    var current := Declarations(context.tools);
    var committed := Committed(context, pending);
    DeclaredReplay(context, pending);
    var index := LastSystem(pending);
    ReplayUnique([], context.messages + (if index >= 0 then pending[index := WithChanges(pending[index], NO_CHANGES)] else pending));
    ApplyReaches(committed, current, name);
  }

  /** No two executable tools share a name with different definitions. */
  ghost predicate Unambiguous(tools: seq<AgentTool>) {
    forall name :: !Ambiguous(Declarations(tools), name)
  }

  lemma UniqueDefinition(tools: seq<Tool>, tool: Tool)
    requires UniqueNames(tools)
    ensures tool in tools <==> Lookup(tools, tool.name) == Some(tool)
  {
    LookupIsMember(tools, tool.name);
    if tool in tools {
      assert !Ambiguous(tools, tool.name);
      OnlyDefinition(tools, tool);
    }
  }

  /** Replaying a declaration yields exactly the executable tools if and only if no two of them share a
    name with different definitions, whatever the transcript and the pending messages. */
  lemma DeclarationReplaysExactly(context: Context, pending: seq<Message>)
    ensures Declares(context.(messages := context.messages + DeclareChanges(context, pending))) <==> Unambiguous(context.tools)
  {
    hide Replay, DeclareChanges;
    var current := Declarations(context.tools);
    var declared := Replay([], context.messages + DeclareChanges(context, pending));
    ReplayUnique([], context.messages + DeclareChanges(context, pending));
    if Unambiguous(context.tools) {
      forall tool ensures tool in declared <==> tool in current {
        DeclarationReachesLast(context, pending, tool.name);
        UniqueDefinition(declared, tool);
        LookupIsMember(current, tool.name);
        if tool in current { OnlyDefinition(current, tool); }
      }
    } else {
      var name :| Ambiguous(current, name);
      var i, j :| 0 <= i < |current| && 0 <= j < |current| && current[i].name == name == current[j].name && current[i] != current[j];
      UniqueDefinition(declared, current[i]);
      UniqueDefinition(declared, current[j]);
      assert current[i] in current && current[j] in current;
    }
  }

  /** With unambiguous tools, declaring again with nothing pending adds nothing; with ambiguous ones it
    always adds another message. */
  lemma RedeclarationAddsNothing(context: Context, pending: seq<Message>)
    ensures var after := context.(messages := context.messages + DeclareChanges(context, pending));
            DeclareChanges(after, []) == [] <==> Unambiguous(context.tools)
  {
    var after := context.(messages := context.messages + DeclareChanges(context, pending));
    var current := Declarations(context.tools);
    var declared := Replay([], after.messages);
    assert after.messages + [] == after.messages;
    ReplayUnique([], after.messages);
    if Unambiguous(context.tools) {
      forall name ensures Lookup(declared, name) == Lookup(current, name) {
        DeclarationReachesLast(context, pending, name);
      }
      NothingToChange(declared, current);
    } else {
      var name :| Ambiguous(current, name);
      var tool := if Lookup(declared, name).Some? then Lookup(declared, name).value else Tool(name, "");
      if Lookup(declared, name).Some? {
        AmbiguousDiffers(current, name, tool);
        var other :| other in current && other.name == name && other != tool;
        AdditionsEffect(declared, current, name);
        assert other in Additions(declared, current);
      } else {
        var i :| 0 <= i < |current| && current[i].name == name;
        AdditionsEffect(declared, current, name);
        assert current[i] in Additions(declared, current);
      }
    }
  }

  lemma OnlyDefinition(tools: seq<Tool>, tool: Tool)
    requires tool in tools && !Ambiguous(tools, tool.name)
    ensures Lookup(tools, tool.name) == Some(tool)
  {
    LookupIsMember(tools, tool.name);
    NamesMember(tools, tool);
    var found := Lookup(tools, tool.name).value;
    var i :| 0 <= i < |tools| && tools[i] == tool;
    var j :| 0 <= j < |tools| && tools[j] == found;
    assert tools[i].name == tools[j].name;
  }

  lemma NothingToChange(previous: seq<Tool>, current: seq<Tool>)
    requires UniqueNames(previous)
    requires forall name :: Lookup(previous, name) == Lookup(current, name)
    requires forall name :: !Ambiguous(current, name)
    ensures ToolStateChanges(previous, current) == NO_CHANGES
  {
    var changes := ToolStateChanges(previous, current);
    if changes.added != [] {
      var tool := changes.added[0];
      AdditionsEffect(previous, current, tool.name);
      assert tool in changes.added;
      OnlyDefinition(current, tool);
      assert false;
    }
    if changes.removed != [] {
      RemovalsEffect(previous, current, changes.removed[0]);
      assert false;
    }
  }

  // ----- declarations keep the pending messages -----

  /** The messages with an origin, without the tool fields that a declaration may rewrite. */
  function From(messages: seq<Message>, origin: Origin): seq<Message> {
    if messages == [] then []
    else (if messages[0].origin == origin then [Stripped(messages[0])] else []) + From(messages[1..], origin)
  }

  function Stripped(message: Message): Message {
    if message.IsSystem() then WithChanges(message, NO_CHANGES) else message
  }

  lemma {:induction false} FromAppend(left: seq<Message>, right: seq<Message>, origin: Origin)
    ensures From(left + right, origin) == From(left, origin) + From(right, origin)
  {
    if left == [] {
      assert left + right == right;
    } else {
      assert (left + right)[1..] == left[1..] + right;
      FromAppend(left[1..], right, origin);
    }
  }

  lemma {:induction false} FromUpdate(messages: seq<Message>, index: nat, message: Message, origin: Origin)
    requires index < |messages|
    requires Stripped(message) == Stripped(messages[index])
    ensures From(messages[index := message], origin) == From(messages, origin)
  {
    if index == 0 {
      assert messages[0 := message][1..] == messages[1..];
    } else {
      assert messages[index := message][1..] == messages[1..][index - 1 := message];
      FromUpdate(messages[1..], index - 1, message, origin);
    }
  }

  /** A declaration neither drops, duplicates, reorders nor edits a pending message, apart from
    the tool fields of system messages. */
  lemma DeclarationKeepsPending(context: Context, pending: seq<Message>, origin: Origin)
    requires origin != Declared
    ensures From(DeclareChanges(context, pending), origin) == From(pending, origin)
  {
    var index := LastSystem(pending);
    var out := DeclareChanges(context, pending);
    if index >= 0 {
      assert Stripped(out[index]) == Stripped(pending[index]);
      assert out == pending[index := out[index]];
      FromUpdate(pending, index, out[index], origin);
    } else if out != pending {
      assert out[1..] == pending;
    }
  }

  /** Where a declaration goes: into the last pending system message, or else into one new system message
    before everything pending. Nothing else changes. */
  lemma DeclarationPlace(context: Context, pending: seq<Message>)
    ensures var out := DeclareChanges(context, pending);
            if exists k :: 0 <= k < |pending| && pending[k].IsSystem() then
              && |out| == |pending|
              && forall k :: 0 <= k < |pending| ==>
                   (out[k] == pending[k]
                    || (&& pending[k].IsSystem() && (forall j :: k < j < |pending| ==> !pending[j].IsSystem())
                        && out[k].IsSystem() && out[k].origin == pending[k].origin && out[k].body.text == pending[k].body.text))
            else
              || out == pending
              || (out != [] && out[0].IsSystem() && out[0].body.text == "" && out[0].origin == Declared && out[1..] == pending)
  {
    hide Replay, ToolStateChanges;
  }
}
