/**
 Another agent's rounds as a watcher is sent them, src/foreign-rounds.ts: a
 transcript, with only the results of the watcher's own calls left as results.
 */
module ForeignRounds {
  import opened Options

  /** `raw` marks a text block with a provider-native item. */
  datatype Block =
    | Thinking
    | RedactedThinking
    | ToolUse(id: string, name: string, input: string)
    | ToolResult(toolUseId: string, toolName: Option<string>, content: string, isError: bool)
    | Text(text: string, raw: bool)
    | OtherBlock(kind: string, data: string)

  datatype Message = Message(participant: string, content: seq<Block>)

  /** The latest call with an id, still unanswered. */
  datatype Call = Call(own: bool, name: string)

  type Calls = map<string, Call>

  /** How a call, or a result of the named tool, reads as a line; its wording isn't modelled. */
  type Line = (string, Block) -> string

  const NOTHING_SAID := "[no text]"
  const A_TOOL := "a tool"

  // --------------------------------------------------------------------------
  // One row
  // --------------------------------------------------------------------------

  /** A row's blocks so far, the calls still unanswered, and whether any block changed. */
  datatype Row = Row(out: seq<Block>, calls: Calls, changed: bool)

  predicate AnswersOwn(calls: Calls, id: string) {
    id in calls && calls[id].own
  }

  function NameOf(b: Block, calls: Calls): string
    requires b.ToolResult?
  {
    b.toolName.Or(if b.toolUseId in calls then calls[b.toolUseId].name else A_TOOL)
  }

  function BlockAsSent(row: Row, b: Block, line: Line): Row {
    match b
    case Thinking => row.(changed := true)
    case RedactedThinking => row.(changed := true)
    case ToolUse(_, name, _) => Row(row.out + [Text(line(name, b), false)], row.calls, true)
    case ToolResult(id, _, _, _) =>
      if AnswersOwn(row.calls, id) then Row(row.out + [b], row.calls - {id}, row.changed)
      else Row(row.out + [Text(line(NameOf(b, row.calls), b), false)], row.calls, true)
    case Text(text, raw) =>
      if !raw then row.(out := row.out + [b])
      else Row(row.out + if text != "" then [Text(text, false)] else [], row.calls, true)
    case OtherBlock(_, _) => row.(out := row.out + [b])
  }

  function RowAsSent(content: seq<Block>, calls: Calls, line: Line): Row {
    if content == [] then Row([], calls, false)
    else BlockAsSent(RowAsSent(content[..|content| - 1], calls, line), content[|content| - 1], line)
  }

  function Content(content: seq<Block>, row: Row): seq<Block> {
    if !row.changed then content else if row.out != [] then row.out else [Text(NOTHING_SAID, false)]
  }

  /** A row of another agent's as the watcher is sent it; a result of one of its own calls takes that call's entry. */
  method ForeignRowAsSent(content: seq<Block>, calls: Calls, line: Line) returns (sent: seq<Block>, left: Calls)
    ensures var row := RowAsSent(content, calls, line);
      sent == Content(content, row) && left == row.calls
  {
    var out: seq<Block>, changed := [], false;
    left := calls;
    for i := 0 to |content|
      invariant Row(out, left, changed) == RowAsSent(content[..i], calls, line)
    {
      assert content[..i + 1][..i] == content[..i];
      match content[i]
      case Thinking => changed := true;
      case RedactedThinking => changed := true;
      case ToolUse(_, name, _) =>
        changed := true;
        out := out + [Text(line(name, content[i]), false)];
      case ToolResult(id, _, _, _) =>
        if id in left && left[id].own {
          left := left - {id};
          out := out + [content[i]];
        } else {
          changed := true;
          out := out + [Text(line(NameOf(content[i], left), content[i]), false)];
        }
      case Text(text, raw) =>
        if !raw {
          out := out + [content[i]];
        } else {
          changed := true;
          if |text| > 0 { out := out + [Text(text, false)]; }
        }
      case OtherBlock(_, _) => out := out + [content[i]];
    }
    assert content[..|content|] == content;
    if !changed { return content, left; }
    return if |out| > 0 then out else [Text(NOTHING_SAID, false)], left;
  }

  // --------------------------------------------------------------------------
  // A request
  // --------------------------------------------------------------------------

  function WithCalls(calls: Calls, content: seq<Block>, own: bool): Calls {
    if content == [] then calls
    else
      var before, b := WithCalls(calls, content[..|content| - 1], own), content[|content| - 1];
      if b.ToolUse? then before[b.id := Call(own, b.name)] else before
  }

  function ResultIds(content: seq<Block>): set<string> {
    set b | b in content && b.ToolResult? :: b.toolUseId
  }

  datatype Passed = Passed(out: seq<Message>, calls: Calls)

  /** One message, after the calls before it: its own calls first, then its results, each of which answers its id. */
  function MessageAsSent(p: Passed, m: Message, own: bool, line: Line): Passed {
    var calls := WithCalls(p.calls, m.content, own);
    var row := RowAsSent(m.content, calls, line);
    var content, left := if own then m.content else Content(m.content, row), if own then calls else row.calls;
    Passed(p.out + [Message(m.participant, content)], left - ResultIds(m.content))
  }

  function Transcribed(messages: seq<Message>, isOwn: string -> bool, line: Line): (p: Passed)
    ensures |p.out| == |messages|
  {
    if messages == [] then Passed([], map[])
    else
      var n := |messages| - 1;
      MessageAsSent(Transcribed(messages[..n], isOwn, line), messages[n], isOwn(messages[n].participant), line)
  }

  method SetCalls(calls: Calls, content: seq<Block>, own: bool) returns (r: Calls)
    ensures r == WithCalls(calls, content, own)
  {
    r := calls;
    for i := 0 to |content|
      invariant r == WithCalls(calls, content[..i], own)
    {
      assert content[..i + 1][..i] == content[..i];
      if content[i].ToolUse? { r := r[content[i].id := Call(own, content[i].name)]; }
    }
    assert content[..|content|] == content;
  }

  method TranscribeForeignRounds(messages: seq<Message>, isOwn: string -> bool, line: Line) returns (out: seq<Message>)
    ensures out == Transcribed(messages, isOwn, line).out
  {
    out := [];
    var latest: Calls := map[];
    for i := 0 to |messages|
      invariant Passed(out, latest) == Transcribed(messages[..i], isOwn, line)
    {
      hide RowAsSent, WithCalls;
      assert messages[..i + 1][..i] == messages[..i];
      var m := messages[i];
      var own := isOwn(m.participant);
      latest := SetCalls(latest, m.content, own);
      var content := m.content;
      if !own { content, latest := ForeignRowAsSent(m.content, latest, line); }
      latest := latest - ResultIds(m.content);
      out := out + [Message(m.participant, content)];
    }
    assert messages[..|messages|] == messages;
  }

  // --------------------------------------------------------------------------
  // What no foreign row still holds
  // --------------------------------------------------------------------------

  /**
   What a transcript holds: no thinking, no call, no provider-native item; results only of the watcher's own calls.
   */
  predicate Plain(b: Block) {
    !b.Thinking? && !b.RedactedThinking? && !b.ToolUse? && !(b.Text? && b.raw)
  }

  lemma PlainText(text: string)
    ensures Plain(Text(text, false))
  {
  }

  lemma {:induction false} RowIsPlain(content: seq<Block>, calls: Calls, line: Line)
    ensures var row := RowAsSent(content, calls, line);
      (forall b | b in row.out :: Plain(b)) && (!row.changed ==> row.out == content) && (row.changed ==> content != [])
  {
    if content != [] {
      var n := |content| - 1;
      RowIsPlain(content[..n], calls, line);
      hide RowAsSent, AnswersOwn, NameOf;
      assert content == content[..n] + [content[n]];
    }
  }

  /** The blocks that leave something for the watcher to read: all but thinking, and native items with no text. */
  function Carrying(content: seq<Block>): seq<Block> {
    if content == [] then []
    else
      var b := content[|content| - 1];
      Carrying(content[..|content| - 1])
        + if b.Thinking? || b.RedactedThinking? || (b.Text? && b.raw && b.text == "") then [] else [b]
  }

  /** What one of those blocks goes as: itself, its text alone, or the line it reads as. */
  ghost predicate Says(x: Block, b: Block, line: Line) {
    match b
    case ToolUse(_, name, _) => x == Text(line(name, b), false)
    case ToolResult(_, toolName, _, _) =>
      x == b || exists name: string :: (toolName.Some? ==> name == toolName.value) && x == Text(line(name, b), false)
    case Text(text, _) => x == Text(text, false)
    case _ => x == b
  }

  ghost predicate SaysAll(out: seq<Block>, all: seq<Block>, line: Line) {
    |out| == |all| && forall k | 0 <= k < |all| :: Says(out[k], all[k], line)
  }

  lemma SaysOneMore(out: seq<Block>, all: seq<Block>, x: Block, b: Block, line: Line)
    requires SaysAll(out, all, line) && Says(x, b, line)
    ensures SaysAll(out + [x], all + [b], line)
  {
    hide Says;
  }

  lemma BlockSays(row: Row, b: Block, all: seq<Block>, line: Line)
    requires SaysAll(row.out, all, line)
    ensures SaysAll(BlockAsSent(row, b, line).out, all + Carrying([b]), line)
  {
    var out := BlockAsSent(row, b, line).out;
    assert [b][..0] == [] && Carrying([]) == [];
    if Carrying([b]) == [] {
      assert all + [] == all && out == row.out;
    } else {
      var x := out[|row.out|];
      assert out == row.out + [x];
      if b.ToolResult? && x != b { assert x == Text(line(NameOf(b, row.calls), b), false); }
      assert Says(x, b, line);
      SaysOneMore(row.out, all, x, b, line);
    }
  }

  lemma {:induction false} RowSaysAll(content: seq<Block>, calls: Calls, line: Line)
    ensures SaysAll(RowAsSent(content, calls, line).out, Carrying(content), line)
  {
    hide SaysAll, BlockAsSent;
    if content == [] {
      assert SaysAll([], [], line) by { NothingToSay(line); }
    } else {
      var n := |content| - 1;
      RowSaysAll(content[..n], calls, line);
      BlockSays(RowAsSent(content[..n], calls, line), content[n], Carrying(content[..n]), line);
      CarryingThen(content);
    }
  }

  lemma CarryingThen(content: seq<Block>)
    requires content != []
    ensures var n := |content| - 1; Carrying(content) == Carrying(content[..n]) + Carrying([content[n]])
  {
    var b := content[|content| - 1];
    assert [b][..0] == [] && Carrying([]) == [];
  }

  lemma NothingToSay(line: Line)
    ensures SaysAll([], [], line)
  {
  }

  lemma {:induction false} CountKept(messages: seq<Message>, isOwn: string -> bool, line: Line, i: nat)
    requires i < |messages|
    ensures var out, m := Transcribed(messages, isOwn, line).out[i], messages[i];
      var before := Transcribed(messages[..i], isOwn, line).calls;
      out == MessageAsSent(Passed([], before), m, isOwn(m.participant), line).out[0]
  {
    hide RowAsSent, WithCalls;
    var n := |messages| - 1;
    if i < n {
      CountKept(messages[..n], isOwn, line, i);
      assert messages[..n][..i] == messages[..i];
    }
  }

  /**
   No foreign message keeps thinking or a call, own messages go as stored, and no message that holds anything becomes
   empty.
   */
  lemma ForeignIsPlain(messages: seq<Message>, isOwn: string -> bool, line: Line, i: nat)
    requires i < |messages|
    ensures var out, m := Transcribed(messages, isOwn, line).out[i], messages[i];
      && out.participant == m.participant && (out.content == [] <==> m.content == [])
      && (if isOwn(m.participant) then out == m else forall b | b in out.content :: Plain(b))
  {
    hide RowAsSent, WithCalls, Transcribed, Plain;
    var m := messages[i];
    CountKept(messages, isOwn, line, i);
    assert Plain(Text(NOTHING_SAID, false)) by { PlainText(NOTHING_SAID); }
    RowIsPlain(m.content, WithCalls(Transcribed(messages[..i], isOwn, line).calls, m.content, false), line);
  }
  /**
   A foreign message says all it holds, in order: one block for each that leaves something to read, or, where none does,
   that nothing was said.
   */
  lemma ForeignSaysAll(messages: seq<Message>, isOwn: string -> bool, line: Line, i: nat)
    requires i < |messages| && !isOwn(messages[i].participant) && messages[i].content != []
    ensures
      var out, all := Transcribed(messages, isOwn, line).out[i].content, Carrying(messages[i].content);
      if all == [] then out == [Text(NOTHING_SAID, false)] else SaysAll(out, all, line)
  {
    hide RowAsSent, WithCalls, Transcribed, Says, Carrying;
    var m := messages[i];
    var calls := WithCalls(Transcribed(messages[..i], isOwn, line).calls, m.content, false);
    CountKept(messages, isOwn, line, i);
    RowSaysAll(m.content, calls, line);
    RowIsPlain(m.content, calls, line);
  }
}
