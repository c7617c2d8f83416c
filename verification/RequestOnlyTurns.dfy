/**
 Request-only turns, src/silent-heartbeat.ts: user turns a request ends on that
 the store never holds, rendered again by every later compile from the stamps
 of the rows that replied to them.
 */
module RequestOnlyTurns {
  import opened Options

  /** What the provider made unique in a response: a tool_use id, a thinking signature, or redacted thinking. */
  datatype Key = ToolUseKey(id: string) | ThinkingKey(signature: string) | RedactedKey(data: string)

  datatype Block =
    | Text(text: string)
    | ToolUse(id: string)
    | ToolResult(toolUseId: string)
    | Thinking(signature: string)
    | Redacted(data: string)

  datatype Message = Message(participant: string, content: seq<Block>)

  datatype TickId = TickId(serverId: string, eventId: string)

  /**
   `metadata.silentHeartbeat`: the tick, the agent whose turn wrote the row, and the separator its request rendered.
   */
  datatype TickStamp = TickStamp(tick: TickId, agentName: string, separator: Option<string>)

  /** `metadata.promptedBy`: the one prompt a reply followed. */
  datatype Prompt = Prompt(turn: nat, text: string)

  /** A stored row; `injection` marks a stored context injection of this agent's. */
  datatype StoredRow = StoredRow(
    participant: string, content: seq<Block>, tick: Option<TickStamp>, promptedBy: Option<Prompt>, injection: bool)

  datatype Tick = Tick(tick: TickId, text: string)

  datatype Index = Index(ticks: map<Key, Tick>, prompts: map<Key, Prompt>)

  const SEPARATOR := "[heartbeat] separator"
  const LEGACY_SEPARATOR := "[heartbeat] tick"
  const CONTINUE_ROW := "[heartbeat] continue"
  const USER := "user"

  function RequestOnlyTurn(text: string): Message {
    Message(USER, [Text(text)])
  }

  function KeyOf(b: Block): Option<Key> {
    match b
    case ToolUse(id) => if id == "" then None else Some(ToolUseKey(id))
    case Thinking(signature) => if signature == "" then None else Some(ThinkingKey(signature))
    case Redacted(data) => if data == "" then None else Some(RedactedKey(data))
    case _ => None
  }

  function IdentityKeys(content: seq<Block>): seq<Key> {
    if content == [] then []
    else (if KeyOf(content[0]).Some? then [KeyOf(content[0]).value] else []) + IdentityKeys(content[1..])
  }

  /** A reply is known by each id, signature and redacted payload in it that isn't empty. */
  lemma {:induction false} IdentityKeysAre(content: seq<Block>, k: Key)
    ensures k in IdentityKeys(content) <==>
      match k
      case ToolUseKey(id) => id != "" && ToolUse(id) in content
      case ThinkingKey(signature) => signature != "" && Thinking(signature) in content
      case RedactedKey(data) => data != "" && Redacted(data) in content
  {
    if content != [] { IdentityKeysAre(content[1..], k); }
  }

  // --------------------------------------------------------------------------
  // The index of stamped rows
  // --------------------------------------------------------------------------

  /** The tick an agent's own stamped row belongs to. */
  function TickOf(row: StoredRow): Option<Tick> {
    if row.tick.Some? && row.tick.value.agentName == row.participant
    then Some(Tick(row.tick.value.tick, row.tick.value.separator.Or(LEGACY_SEPARATOR)))
    else None
  }

  function WithKeys<V>(m: map<Key, V>, keys: seq<Key>, v: V): map<Key, V>
    decreases |keys|
  {
    if keys == [] then m else WithKeys(m[keys[0] := v], keys[1..], v)
  }

  /**
   `own` are the participants that are the agent's own voice: its name, and those a derived agent inherited rows of.
   */
  function IndexRow(index: Index, row: StoredRow, own: set<string>): Index {
    if row.participant !in own then index
    else
      var keys := IdentityKeys(row.content);
      Index(if TickOf(row).Some? then WithKeys(index.ticks, keys, TickOf(row).value) else index.ticks,
            if row.promptedBy.Some? then WithKeys(index.prompts, keys, row.promptedBy.value) else index.prompts)
  }

  function IndexOf(rows: seq<StoredRow>, own: set<string>): Index {
    if rows == [] then Index(map[], map[]) else IndexRow(IndexOf(rows[..|rows| - 1], own), rows[|rows| - 1], own)
  }

  method SetAll<V>(m: map<Key, V>, keys: seq<Key>, v: V) returns (r: map<Key, V>)
    ensures r == WithKeys(m, keys, v)
  {
    r := m;
    for i := 0 to |keys|
      invariant WithKeys(r, keys[i..], v) == WithKeys(m, keys, v)
    {
      assert keys[i..][1..] == keys[i + 1..];
      r := r[keys[i] := v];
    }
  }

  method IndexRequestOnlyRows(stored: seq<StoredRow>, own: set<string>) returns (index: Index)
    ensures index == IndexOf(stored, own)
  {
    var ticks: map<Key, Tick>, prompts: map<Key, Prompt> := map[], map[];
    for i := 0 to |stored|
      invariant Index(ticks, prompts) == IndexOf(stored[..i], own)
    {
      assert stored[..i + 1][..i] == stored[..i];
      var row := stored[i];
      if row.participant in own {
        var keys := IdentityKeys(row.content);
        if TickOf(row).Some? { ticks := SetAll(ticks, keys, TickOf(row).value); }
        if row.promptedBy.Some? { prompts := SetAll(prompts, keys, row.promptedBy.value); }
      }
    }
    assert stored[..|stored|] == stored;
    return Index(ticks, prompts);
  }

  // --------------------------------------------------------------------------
  // Rendering a compiled window
  // --------------------------------------------------------------------------

  function FirstIn<V>(m: map<Key, V>, keys: seq<Key>): Option<V> {
    if keys == [] then None else if keys[0] in m then Some(m[keys[0]]) else FirstIn(m, keys[1..])
  }

  /** What a rendered window is made of: the compiled messages, and the turns put before some of them. */
  datatype Item =
    | Separator(tick: TickId, text: string)
    | PromptTurn(turn: nat, text: string)
    | Compiled(message: Message)
  {
    function AsSent(): Message {
      match this
      case Compiled(message) => message
      case Separator(_, text) => RequestOnlyTurn(text)
      case PromptTurn(_, text) => RequestOnlyTurn(text)
    }
  }

  datatype Rendered = Rendered(items: seq<Item>, separated: set<TickId>, prompted: set<nat>)

  function Messages(items: seq<Item>): (messages: seq<Message>)
    ensures |messages| == |items|
  {
    seq(|items|, i requires 0 <= i < |items| => items[i].AsSent())
  }

  /** One compiled message, with the turns its reply's tick and prompt put before it where no earlier message did. */
  function Put(r: Rendered, message: Message, tick: Option<Tick>, prompt: Option<Prompt>): Rendered {
    var opens := tick.Some? && tick.value.tick !in r.separated;
    var prompts := prompt.Some? && prompt.value.turn !in r.prompted;
    Rendered(r.items + (if opens then [Separator(tick.value.tick, tick.value.text)] else [])
                     + (if prompts then [PromptTurn(prompt.value.turn, prompt.value.text)] else [])
                     + [Compiled(message)],
             r.separated + if opens then {tick.value.tick} else {},
             r.prompted + if prompts then {prompt.value.turn} else {})
  }

  const EMPTY := Rendered([], {}, {})

  function Render(messages: seq<Message>, index: Index, name: string): Rendered {
    if messages == [] then EMPTY
    else
      var before, m := Render(messages[..|messages| - 1], index, name), messages[|messages| - 1];
      var keys := if m.participant == name then IdentityKeys(m.content) else [];
      Put(before, m, FirstIn(index.ticks, keys), FirstIn(index.prompts, keys))
  }

  /** One message pushed, after the turns put before it. */
  method Push(out: seq<Message>, separated: set<TickId>, prompted: set<nat>, message: Message, tick: Option<Tick>,
              prompt: Option<Prompt>, ghost before: Rendered)
    returns (longer: seq<Message>, ticks: set<TickId>, turns: set<nat>)
    requires out == Messages(before.items) && separated == before.separated && prompted == before.prompted
    ensures var r := Put(before, message, tick, prompt);
      longer == Messages(r.items) && ticks == r.separated && turns == r.prompted
  {
    longer, ticks, turns := out, separated, prompted;
    if tick.Some? && tick.value.tick !in separated {
      ticks := ticks + {tick.value.tick};
      longer := longer + [RequestOnlyTurn(tick.value.text)];
    }
    if prompt.Some? && prompt.value.turn !in prompted {
      turns := turns + {prompt.value.turn};
      longer := longer + [RequestOnlyTurn(prompt.value.text)];
    }
    longer := longer + [message];
  }

  method RenderRequestOnlyRows(messages: seq<Message>, index: Index, name: string)
    returns (out: seq<Message>, separated: set<TickId>)
    ensures out == Messages(Render(messages, index, name).items) && separated == Render(messages, index, name).separated
  {
    hide Put, FirstIn, Messages;
    out, separated := [], {};
    var prompted := {};
    if index.ticks == map[] && index.prompts == map[] {
      NothingToRender(messages, index, name);
      return messages, {};
    }
    assert out == Messages(EMPTY.items);
    for i := 0 to |messages|
      invariant var r := Render(messages[..i], index, name);
        out == Messages(r.items) && separated == r.separated && prompted == r.prompted
    {
      assert messages[..i + 1][..i] == messages[..i];
      var keys := if messages[i].participant == name then IdentityKeys(messages[i].content) else [];
      out, separated, prompted := Push(out, separated, prompted, messages[i], FirstIn(index.ticks, keys),
                                       FirstIn(index.prompts, keys), Render(messages[..i], index, name));
    }
    assert messages[..|messages|] == messages;
  }

  lemma {:induction false} NothingToRender(messages: seq<Message>, index: Index, name: string)
    requires index.ticks == map[] && index.prompts == map[]
    ensures Messages(Render(messages, index, name).items) == messages && Render(messages, index, name).separated == {}
  {
    hide Put, Messages, FirstIn, IdentityKeys;
    if messages != [] {
      var n := |messages| - 1;
      NothingToRender(messages[..n], index, name);
      var keys := if messages[n].participant == name then IdentityKeys(messages[n].content) else [];
      NoneIn(index.ticks, keys);
      NoneIn(index.prompts, keys);
      PutPlain(Render(messages[..n], index, name), messages[n]);
      assert messages == messages[..n] + [messages[n]];
    } else {
      assert Messages([]) == [] by { NoMessages(); }
    }
  }

  lemma NoMessages()
    ensures Messages([]) == []
  {
  }

  lemma PutPlain(r: Rendered, message: Message)
    ensures Messages(Put(r, message, None, None).items) == Messages(r.items) + [message]
    ensures Put(r, message, None, None).separated == r.separated && Put(r, message, None, None).prompted == r.prompted
  {
  }

  lemma {:induction false} NoneIn<V>(m: map<Key, V>, keys: seq<Key>)
    requires forall k | k in keys :: k !in m
    ensures FirstIn(m, keys).None?
  {
    if keys != [] { NoneIn(m, keys[1..]); }
  }

  // --------------------------------------------------------------------------
  // A request
  // --------------------------------------------------------------------------

  function CompiledRows(rows: seq<StoredRow>): seq<Message> {
    seq(|rows|, i requires 0 <= i < |rows| => Message(rows[i].participant, rows[i].content))
  }

  /** The stored context injections the window ends on. */
  function InjectionTail(rows: seq<StoredRow>): (tail: nat)
    ensures tail <= |rows|
  {
    if rows == [] || !rows[|rows| - 1].injection then 0 else 1 + InjectionTail(rows[..|rows| - 1])
  }

  function Before(messages: seq<Message>, tail: nat): Option<Message> {
    if |messages| <= tail then None else Some(messages[|messages| - 1 - tail])
  }

  /**
   The prompt a reply continues when what it is sent ends on `content`: that of the reply whose tools it holds results
   of.
   */
  function ToolLoopPrompt(content: seq<Block>, prompts: map<Key, Prompt>): Option<Prompt> {
    if content == [] then None
    else if content[0].ToolResult? && ToolUseKey(content[0].toolUseId) in prompts
    then Some(prompts[ToolUseKey(content[0].toolUseId)])
    else ToolLoopPrompt(content[1..], prompts)
  }

  method FindToolLoopPrompt(last: Option<Message>, index: Index) returns (prompt: Option<Prompt>)
    ensures prompt == if last.None? then None else ToolLoopPrompt(last.value.content, index.prompts)
  {
    if last.None? { return None; }
    var content := last.value.content;
    for i := 0 to |content|
      invariant ToolLoopPrompt(content, index.prompts) == ToolLoopPrompt(content[i..], index.prompts)
    {
      if content[i].ToolResult? && ToolUseKey(content[i].toolUseId) in index.prompts {
        return Some(index.prompts[ToolUseKey(content[i].toolUseId)]);
      }
      assert content[i..][1..] == content[i + 1..];
    }
    return None;
  }

  /** A request's messages, the turn it ends on if any, and the prompt its reply follows. */
  datatype Request = Request(messages: seq<Message>, trailing: seq<Message>, prompt: Option<Prompt>)
  {
    function Sent(): seq<Message> {
      messages + trailing
    }
  }

  /** The request a window makes: `silent` is the tick it is for, `turn` the id a new [Continue] takes. */
  function RequestFor(rows: seq<StoredRow>, name: string, silent: Option<TickId>, turn: nat): Request {
    var index := IndexOf(rows, {name});
    var rendered := Render(CompiledRows(rows), index, name);
    var messages, tail := Messages(rendered.items), InjectionTail(rows);
    var last := Before(messages, tail);
    if silent.Some? && silent.value !in rendered.separated then Request(messages, [RequestOnlyTurn(SEPARATOR)], None)
    else if last.Some? && last.value.participant == name then
      Request(messages, [RequestOnlyTurn(CONTINUE_ROW)], Some(Prompt(turn, CONTINUE_ROW)))
    else Request(messages, [], if last.None? then None else ToolLoopPrompt(last.value.content, index.prompts))
  }

  /** The row a request's reply stores, stamped with the tick it is for and the prompt it follows. */
  function ReplyTo(r: Request, name: string, silent: Option<TickId>, content: seq<Block>): StoredRow {
    StoredRow(name, content, if silent.Some? then Some(TickStamp(silent.value, name, Some(SEPARATOR))) else None,
      r.prompt, false)
  }
}
