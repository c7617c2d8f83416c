/** What rendering request-only turns keeps: earlier requests, as prefixes of every later one. */
module RequestPrefixes {
  import opened Options
  import opened RequestOnlyTurns

  // --------------------------------------------------------------------------
  // Any window and any index
  // --------------------------------------------------------------------------

  function Erased(items: seq<Item>): seq<Message> {
    if items == [] then []
    else Erased(items[..|items| - 1]) + if items[|items| - 1].Compiled? then [items[|items| - 1].message] else []
  }

  /** Two items that don't render one request-only turn twice. */
  predicate OnceEach(a: Item, b: Item) {
    && (a.Separator? && b.Separator? ==> a.tick != b.tick)
    && (a.PromptTurn? && b.PromptTurn? ==> a.turn != b.turn)
  }

  ghost predicate TurnsOnce(items: seq<Item>) {
    forall i, j {:trigger OnceEach(items[i], items[j])} | 0 <= i < j < |items| :: OnceEach(items[i], items[j])
  }

  ghost predicate Noted(r: Rendered) {
    forall x | x in r.items :: (x.Separator? ==> x.tick in r.separated) && (x.PromptTurn? ==> x.turn in r.prompted)
  }

  lemma ItemThen(items: seq<Item>, x: Item)
    ensures Erased(items + [x]) == Erased(items) + if x.Compiled? then [x.message] else []
    ensures TurnsOnce(items) && (forall y | y in items :: OnceEach(y, x)) ==> TurnsOnce(items + [x])
  {
    assert (items + [x])[..|items|] == items;
    if TurnsOnce(items) && forall y | y in items :: OnceEach(y, x) {
      var longer := items + [x];
      forall i, j | 0 <= i < j < |longer| ensures OnceEach(longer[i], longer[j]) {
        if j < |items| { assert OnceEach(items[i], items[j]); } else { assert longer[i] in items; }
      }
    }
  }

  function PutItem(r: Rendered, x: Item): Rendered {
    Rendered(r.items + [x], r.separated + if x.Separator? then {x.tick} else {},
      r.prompted + if x.PromptTurn? then {x.turn} else {})
  }

  lemma PutItemKeeps(r: Rendered, x: Item)
    requires TurnsOnce(r.items) && Noted(r)
    requires (x.Separator? ==> x.tick !in r.separated) && (x.PromptTurn? ==> x.turn !in r.prompted)
    ensures TurnsOnce(PutItem(r, x).items) && Noted(PutItem(r, x))
  {
    ItemThen(r.items, x);
  }

  lemma PutKeeps(r: Rendered, message: Message, tick: Option<Tick>, prompt: Option<Prompt>)
    requires TurnsOnce(r.items) && Noted(r)
    ensures var v := Put(r, message, tick, prompt);
      TurnsOnce(v.items) && Noted(v) && Erased(v.items) == Erased(r.items) + [message]
  {
    hide Erased, TurnsOnce, Noted;
    var a, b := r, r;
    if tick.Some? && tick.value.tick !in r.separated {
      a := PutItem(r, Separator(tick.value.tick, tick.value.text));
      PutItemKeeps(r, Separator(tick.value.tick, tick.value.text));
      ItemThen(r.items, Separator(tick.value.tick, tick.value.text));
    }
    b := a;
    if prompt.Some? && prompt.value.turn !in r.prompted {
      b := PutItem(a, PromptTurn(prompt.value.turn, prompt.value.text));
      PutItemKeeps(a, PromptTurn(prompt.value.turn, prompt.value.text));
      ItemThen(a.items, PromptTurn(prompt.value.turn, prompt.value.text));
    }
    PutItemKeeps(b, Compiled(message));
    ItemThen(b.items, Compiled(message));
    var v := Put(r, message, tick, prompt);
    assert v.items == b.items + [Compiled(message)];
    assert v == PutItem(b, Compiled(message));
  }

  lemma NothingRendered()
    ensures TurnsOnce([]) && Noted(EMPTY) && Erased([]) == []
  {
  }

  /**
   Whatever the index, each request-only turn renders at most once, and erasing them gives back the compiled messages.
   */
  lemma {:induction false} RenderedOnceAndErased(messages: seq<Message>, index: Index, name: string)
    ensures var r := Render(messages, index, name);
      TurnsOnce(r.items) && Noted(r) && Erased(r.items) == messages
  {
    hide Put, Erased, TurnsOnce, Noted, FirstIn, IdentityKeys;
    if messages == [] {
      NothingRendered();
    } else {
      var n := |messages| - 1;
      RenderedOnceAndErased(messages[..n], index, name);
      var keys := if messages[n].participant == name then IdentityKeys(messages[n].content) else [];
      PutKeeps(Render(messages[..n], index, name), messages[n], FirstIn(index.ticks, keys),
        FirstIn(index.prompts, keys));
      assert messages == messages[..n] + [messages[n]];
    }
  }

  // --------------------------------------------------------------------------
  // The index of rows whose keys are unique
  // --------------------------------------------------------------------------

  ghost predicate NewKeys(rows: seq<StoredRow>, own: string, keys: seq<Key>) {
    forall r, k | r in rows && r.participant == own && k in keys :: k !in IdentityKeys(r.content)
  }

  /** No two of the agent's rows share a key: the provider made each unique. */
  ghost predicate KeysUnique(rows: seq<StoredRow>, own: string) {
    rows != [] ==>
      var last := rows[|rows| - 1];
      KeysUnique(rows[..|rows| - 1], own)
      && (last.participant == own ==> NewKeys(rows[..|rows| - 1], own, IdentityKeys(last.content)))
  }

  lemma {:induction false} WithKeysAre<V>(m: map<Key, V>, keys: seq<Key>, v: V)
    ensures forall k :: k in WithKeys(m, keys, v) <==> k in m || k in keys
    ensures forall k | k in WithKeys(m, keys, v) :: WithKeys(m, keys, v)[k] == if k in keys then v else m[k]
    decreases |keys|
  {
    if keys != [] { WithKeysAre(m[keys[0] := v], keys[1..], v); }
  }

  function OwnTick(row: StoredRow, own: string): Option<Tick> {
    if row.participant == own && IdentityKeys(row.content) != [] then TickOf(row) else None
  }

  function OwnPrompt(row: StoredRow, own: string): Option<Prompt> {
    if row.participant == own && IdentityKeys(row.content) != [] then row.promptedBy else None
  }

  ghost predicate KeyOfRow(rows: seq<StoredRow>, own: string, k: Key) {
    exists r :: r in rows && r.participant == own && k in IdentityKeys(r.content)
  }

  /** Every key indexed is some own row's, and is indexed as that row is stamped. */
  ghost predicate IndexedBy(rows: seq<StoredRow>, own: string, index: Index) {
    && (forall k | k in index.ticks || k in index.prompts :: KeyOfRow(rows, own, k))
    && (forall r | r in rows && r.participant == own ::
      && IndexedAs(index.ticks, IdentityKeys(r.content), TickOf(r))
      && IndexedAs(index.prompts, IdentityKeys(r.content), r.promptedBy))
  }

  /** Where the keys `r` is known by are in `m`, as `v`, or nowhere where it has none. */
  predicate IndexedAs<V(==)>(m: map<Key, V>, keys: seq<Key>, v: Option<V>) {
    forall k | k in keys :: (k in m <==> v.Some?) && (k in m ==> Some(m[k]) == v)
  }

  lemma WithKeysIndexed<V>(m: map<Key, V>, keys: seq<Key>, added: seq<Key>, v: Option<V>, was: Option<V>)
    requires IndexedAs(m, keys, was) && forall k | k in keys :: k !in added
    ensures IndexedAs(if v.Some? then WithKeys(m, added, v.value) else m, keys, was)
  {
    if v.Some? { WithKeysAre(m, added, v.value); }
  }

  lemma NewKeysIndexed<V>(m: map<Key, V>, added: seq<Key>, v: Option<V>)
    requires forall k | k in added :: k !in m
    ensures IndexedAs(if v.Some? then WithKeys(m, added, v.value) else m, added, v)
    ensures forall k | k in (if v.Some? then WithKeys(m, added, v.value) else m) :: k in m || k in added
  {
    if v.Some? { WithKeysAre(m, added, v.value); }
  }

  lemma IndexRowIs(rows: seq<StoredRow>, row: StoredRow, own: string, index: Index)
    requires IndexedBy(rows, own, index) && (row.participant == own ==> NewKeys(rows, own, IdentityKeys(row.content)))
    ensures IndexedBy(rows + [row], own, IndexRow(index, row, {own}))
  {
    hide IdentityKeys, TickOf, WithKeys, IndexedAs;
    var after, keys, longer := IndexRow(index, row, {own}), IdentityKeys(row.content), rows + [row];
    assert forall r | r in longer :: r in rows || r == row;
    assert row in longer && forall r | r in rows :: r in longer;
    if row.participant == own {
      NewKeysIndexed(index.ticks, keys, TickOf(row));
      NewKeysIndexed(index.prompts, keys, row.promptedBy);
      forall r | r in rows && r.participant == own
        ensures IndexedAs(after.ticks, IdentityKeys(r.content), TickOf(r))
          && IndexedAs(after.prompts, IdentityKeys(r.content), r.promptedBy)
      {
        WithKeysIndexed(index.ticks, IdentityKeys(r.content), keys, TickOf(row), TickOf(r));
        WithKeysIndexed(index.prompts, IdentityKeys(r.content), keys, row.promptedBy, r.promptedBy);
      }
    }
    forall k | k in after.ticks || k in after.prompts ensures KeyOfRow(longer, own, k) {
      if k in index.ticks || k in index.prompts {
        var r :| r in rows && r.participant == own && k in IdentityKeys(r.content);
        assert r in longer;
      }
    }
  }

  lemma {:induction false} IndexIs(rows: seq<StoredRow>, own: string)
    requires KeysUnique(rows, own)
    ensures IndexedBy(rows, own, IndexOf(rows, {own}))
  {
    if rows != [] {
      var n := |rows| - 1;
      IndexIs(rows[..n], own);
      IndexRowIs(rows[..n], rows[n], own, IndexOf(rows[..n], {own}));
      assert rows[..n] + [rows[n]] == rows;
    }
  }

  lemma {:induction false} AllIn<V>(m: map<Key, V>, keys: seq<Key>, v: V)
    requires keys != [] && keys[0] in m && m[keys[0]] == v
    ensures FirstIn(m, keys) == Some(v)
  {
  }

  // --------------------------------------------------------------------------
  // The window as its rows' own stamps render it
  // --------------------------------------------------------------------------

  function Direct(rows: seq<StoredRow>, own: string): Rendered {
    if rows == [] then EMPTY
    else
      var last := rows[|rows| - 1];
      Put(Direct(rows[..|rows| - 1], own), Message(last.participant, last.content), OwnTick(last, own),
        OwnPrompt(last, own))
  }

  lemma RowLookup(rows: seq<StoredRow>, row: StoredRow, own: string, index: Index)
    requires IndexedBy(rows, own, index) && row in rows && row.participant == own
    ensures FirstIn(index.ticks, IdentityKeys(row.content)) == OwnTick(row, own)
    ensures FirstIn(index.prompts, IdentityKeys(row.content)) == OwnPrompt(row, own)
  {
    var keys := IdentityKeys(row.content);
    if keys != [] {
      assert keys[0] in keys;
      if TickOf(row).None? { NoneIn(index.ticks, keys); }
      if row.promptedBy.None? { NoneIn(index.prompts, keys); }
    }
  }

  lemma {:induction false} RenderIsDirect(rows: seq<StoredRow>, own: string, index: Index, n: nat)
    requires n <= |rows| && IndexedBy(rows, own, index)
    ensures Render(CompiledRows(rows)[..n], index, own) == Direct(rows[..n], own)
    decreases n
  {
    if n > 0 {
      hide FirstIn, IdentityKeys, OwnTick, OwnPrompt, Put, IndexedBy;
      RenderIsDirect(rows, own, index, n - 1);
      var messages, row := CompiledRows(rows)[..n], rows[n - 1];
      assert messages[..n - 1] == CompiledRows(rows)[..n - 1];
      assert rows[..n][..n - 1] == rows[..n - 1];
      assert messages[n - 1] == Message(row.participant, row.content);
      if row.participant == own { RowLookup(rows, row, own, index); }
    }
  }

  lemma RequestIsDirect(rows: seq<StoredRow>, own: string, silent: Option<TickId>, turn: nat)
    requires KeysUnique(rows, own)
    ensures RequestFor(rows, own, silent, turn).messages == Messages(Direct(rows, own).items)
    ensures Render(CompiledRows(rows), IndexOf(rows, {own}), own) == Direct(rows, own)
  {
    IndexIs(rows, own);
    RenderIsDirect(rows, own, IndexOf(rows, {own}), |rows|);
    assert CompiledRows(rows)[..|rows|] == CompiledRows(rows);
    assert rows[..|rows|] == rows;
  }

  lemma {:induction false} StampsRendered(rows: seq<StoredRow>, own: string)
    ensures forall r | r in rows && OwnPrompt(r, own).Some? ::
      OwnPrompt(r, own).value.turn in Direct(rows, own).prompted
    ensures forall t | t in Direct(rows, own).prompted :: exists r ::
      r in rows && r.promptedBy.Some? && r.promptedBy.value.turn == t
  {
    if rows != [] {
      var n := |rows| - 1;
      StampsRendered(rows[..n], own);
      assert rows == rows[..n] + [rows[n]];
      forall t | t in Direct(rows, own).prompted
        ensures exists r :: r in rows && r.promptedBy.Some? && r.promptedBy.value.turn == t
      {
        if t in Direct(rows[..n], own).prompted {
          var r :| r in rows[..n] && r.promptedBy.Some? && r.promptedBy.value.turn == t;
          assert r in rows;
        } else {
          assert rows[n] in rows;
        }
      }
    }
  }

  lemma {:induction false} LoopPromptIsIndexed(content: seq<Block>, prompts: map<Key, Prompt>)
    ensures ToolLoopPrompt(content, prompts).Some? ==>
      exists k :: k in prompts && prompts[k] == ToolLoopPrompt(content, prompts).value
  {
    if content != [] { LoopPromptIsIndexed(content[1..], prompts); }
  }

  // --------------------------------------------------------------------------
  // A reply stored after its request
  // --------------------------------------------------------------------------

  ghost predicate NewTurn(rows: seq<StoredRow>, turn: nat) {
    forall r | r in rows && r.promptedBy.Some? :: r.promptedBy.value.turn != turn
  }

  lemma DirectThen(rows: seq<StoredRow>, x: StoredRow, own: string)
    ensures Direct(rows + [x], own) == Put(Direct(rows, own), Message(x.participant, x.content), OwnTick(x, own),
      OwnPrompt(x, own))
  {
    assert (rows + [x])[..|rows|] == rows;
  }

  lemma PutMessages(r: Rendered, message: Message, tick: Option<Tick>, prompt: Option<Prompt>)
    ensures Messages(Put(r, message, tick, prompt).items) == Messages(r.items)
      + (if tick.Some? && tick.value.tick !in r.separated then [RequestOnlyTurn(tick.value.text)] else [])
      + (if prompt.Some? && prompt.value.turn !in r.prompted then [RequestOnlyTurn(prompt.value.text)] else [])
      + [message]
  {
  }

  /** A tool loop's prompt is already rendered, before the reply that called the tools or an earlier one of the loop. */
  lemma LoopPromptRendered(rows: seq<StoredRow>, own: string, content: seq<Block>)
    requires KeysUnique(rows, own)
    ensures var prompt := ToolLoopPrompt(content, IndexOf(rows, {own}).prompts);
      prompt.Some? ==> prompt.value.turn in Direct(rows, own).prompted
  {
    var index := IndexOf(rows, {own});
    var prompt := ToolLoopPrompt(content, index.prompts);
    IndexIs(rows, own);
    StampsRendered(rows, own);
    LoopPromptIsIndexed(content, index.prompts);
    if prompt.Some? {
      var k :| k in index.prompts && index.prompts[k] == prompt.value;
      var r :| r in rows && r.participant == own && k in IdentityKeys(r.content);
      assert OwnPrompt(r, own) == prompt;
    }
  }

  /** What a request ends on, and what its reply follows, by what the window's rendering already holds. */
  ghost predicate EndsAs(request: Request, d: Rendered, silent: Option<TickId>, turn: nat) {
    if silent.Some? && silent.value !in d.separated
    then request.trailing == [RequestOnlyTurn(SEPARATOR)] && request.prompt.None?
    else
      || (request.trailing == [RequestOnlyTurn(CONTINUE_ROW)] && request.prompt == Some(Prompt(turn, CONTINUE_ROW)))
      || (request.trailing == [] && (request.prompt.Some? ==> request.prompt.value.turn in d.prompted))
  }

  lemma RequestEnds(rows: seq<StoredRow>, own: string, silent: Option<TickId>, turn: nat)
    requires KeysUnique(rows, own)
    ensures EndsAs(RequestFor(rows, own, silent, turn), Direct(rows, own), silent, turn)
  {
    var request := RequestFor(rows, own, silent, turn);
    RequestIsDirect(rows, own, silent, turn);
    var last := Before(request.messages, InjectionTail(rows));
    if last.Some? { LoopPromptRendered(rows, own, last.value.content); }
    hide Direct, Messages, IndexOf, KeysUnique, InjectionTail, ToolLoopPrompt;
  }

  /** A tool loop's prompt is the one indexed for the first result whose call is known, and there is none otherwise. */
  lemma {:induction false} LoopPromptIsFirst(content: seq<Block>, prompts: map<Key, Prompt>)
    ensures ToolLoopPrompt(content, prompts).None? ==> forall i | 0 <= i < |content| :: !Continues(content[i], prompts)
    ensures ToolLoopPrompt(content, prompts).Some? ==> exists i | 0 <= i < |content| ::
      && Continues(content[i], prompts)
      && ToolLoopPrompt(content, prompts) == Some(prompts[ToolUseKey(content[i].toolUseId)])
      && forall j | 0 <= j < i :: !Continues(content[j], prompts)
  {
    if content != [] && !Continues(content[0], prompts) {
      LoopPromptIsFirst(content[1..], prompts);
      if ToolLoopPrompt(content, prompts).Some? {
        var i :| 0 <= i < |content[1..]| && Continues(content[1..][i], prompts)
          && ToolLoopPrompt(content[1..], prompts) == Some(prompts[ToolUseKey(content[1..][i].toolUseId)])
          && forall j | 0 <= j < i :: !Continues(content[1..][j], prompts);
        assert Continues(content[i + 1], prompts);
        forall j | 0 <= j < i + 1 ensures !Continues(content[j], prompts) {
          if j > 0 { assert content[j] == content[1..][j - 1]; }
        }
      }
    } else if content != [] {
      assert Continues(content[0], prompts);
    }
  }

  predicate Continues(b: Block, prompts: map<Key, Prompt>) {
    b.ToolResult? && ToolUseKey(b.toolUseId) in prompts
  }

  lemma {:induction false} InjectionsEnd(rows: seq<StoredRow>)
    ensures var n := |rows| - InjectionTail(rows);
      (forall k | n <= k < |rows| :: rows[k].injection) && (n > 0 ==> !rows[n - 1].injection)
  {
    if rows != [] && rows[|rows| - 1].injection { InjectionsEnd(rows[..|rows| - 1]); }
  }

  /**
   A request ends on the separator exactly where it is for a tick the window doesn't render, and otherwise on [Continue]
   exactly where the last message ahead of the injections is the agent's own: a request never ends on that.
   */
  lemma RequestEndsOn(rows: seq<StoredRow>, own: string, silent: Option<TickId>, turn: nat)
    ensures
      var request, n := RequestFor(rows, own, silent, turn), InjectionTail(rows);
      var separated := Render(CompiledRows(rows), IndexOf(rows, {own}), own).separated;
      var opens := silent.Some? && silent.value !in separated;
      var last := Before(request.messages, n);
      && (forall k | |rows| - n <= k < |rows| :: rows[k].injection) && (n < |rows| ==> !rows[|rows| - n - 1].injection)
      && (request.trailing == [RequestOnlyTurn(SEPARATOR)] <==> opens)
      && (request.trailing == [RequestOnlyTurn(CONTINUE_ROW)] <==>
        !opens && last.Some? && last.value.participant == own)
      && (!opens && !(last.Some? && last.value.participant == own) ==> request.trailing == [])
  {
    InjectionsEnd(rows);
    TurnsDiffer();
    hide IndexOf, Render, InjectionTail, ToolLoopPrompt, CompiledRows, Messages, RequestOnlyTurn, Before;
  }

  lemma TurnsDiffer()
    ensures RequestOnlyTurn(SEPARATOR) != RequestOnlyTurn(CONTINUE_ROW)
  {
    assert SEPARATOR[12] != CONTINUE_ROW[12];
  }

  /** And a request that ends on no turn continues a prompt exactly where it answers a call of a reply that has one. */
  lemma RequestContinues(rows: seq<StoredRow>, own: string, silent: Option<TickId>, turn: nat)
    ensures
      var request, prompts := RequestFor(rows, own, silent, turn), IndexOf(rows, {own}).prompts;
      var last := Before(request.messages, InjectionTail(rows));
      request.trailing == [] && last.Some? ==>
        (request.prompt.Some? <==> exists b :: b in last.value.content && Continues(b, prompts))
  {
    var last, prompts := Before(RequestFor(rows, own, silent, turn).messages, InjectionTail(rows)),
      IndexOf(rows, {own}).prompts;
    if last.Some? { HasLoopPrompt(last.value.content, prompts); }
    hide IndexOf, Render, InjectionTail, ToolLoopPrompt, CompiledRows, Messages, RequestOnlyTurn, Before;
  }

  lemma HasLoopPrompt(content: seq<Block>, prompts: map<Key, Prompt>)
    ensures ToolLoopPrompt(content, prompts).Some? <==> exists b :: b in content && Continues(b, prompts)
  {
    hide Continues, ToolLoopPrompt;
    LoopPromptIsFirst(content, prompts);
    if ToolLoopPrompt(content, prompts).Some? {
      var i :| 0 <= i < |content| && Continues(content[i], prompts);
      assert content[i] in content;
    }
  }

  lemma OwnStamps(row: StoredRow, own: string, silent: Option<TickId>)
    requires row.participant == own
    requires row.tick == if silent.Some? then Some(TickStamp(silent.value, own, Some(SEPARATOR))) else None
    ensures OwnTick(row, own) ==
      if IdentityKeys(row.content) == [] || silent.None? then None else Some(Tick(silent.value, SEPARATOR))
    ensures OwnPrompt(row, own) == if IdentityKeys(row.content) == [] then None else row.promptedBy
  {
    hide IdentityKeys;
  }

  /** Others' rows render as they are, and open no turn. */
  lemma {:induction false} OthersRender(rows: seq<StoredRow>, others: seq<StoredRow>, own: string)
    requires forall r | r in others :: r.participant != own
    ensures var d, before := Direct(rows + others, own), Direct(rows, own);
      && d.separated == before.separated && d.prompted == before.prompted
      && Messages(d.items) == Messages(before.items) + CompiledRows(others)
    decreases |others|
  {
    hide Direct, Put, Messages, CompiledRows;
    if others == [] {
      assert rows + others == rows;
      assert CompiledRows(others) == [] by { CompiledThen([], others); }
    } else {
      var n := |others| - 1;
      var before, last := rows + others[..n], others[n];
      assert rows + others == before + [last];
      OthersRender(rows, others[..n], own);
      DirectThen(before, last, own);
      PutPlain(Direct(before, own), Message(last.participant, last.content));
      CompiledThen(others[..n], [last]);
      assert others == others[..n] + [last];
    }
  }

  lemma CompiledThen(a: seq<StoredRow>, b: seq<StoredRow>)
    ensures CompiledRows(a + b) == CompiledRows(a) + CompiledRows(b)
    ensures |b| == 1 ==> CompiledRows(b) == [Message(b[0].participant, b[0].content)]
    ensures b == [] ==> CompiledRows(b) == []
  {
  }

  lemma NewTurnUnrendered(rows: seq<StoredRow>, own: string, turn: nat)
    requires NewTurn(rows, turn)
    ensures turn !in Direct(rows, own).prompted
  {
    StampsRendered(rows, own);
  }

  /**
   A reply a compile can recognise goes right after exactly the turn its request ended on, wherever others' rows stored
   meanwhile leave it; one it can't, after none.
   */
  lemma ReplyFollowsItsTurn(
    rows: seq<StoredRow>, between: seq<StoredRow>, own: string, silent: Option<TickId>, turn: nat, content: seq<Block>)
    requires KeysUnique(rows, own) && NewTurn(rows, turn) && forall r | r in between :: r.participant != own
    ensures
      var request := RequestFor(rows, own, silent, turn);
      var x := ReplyTo(request, own, silent, content);
      var trailing := if IdentityKeys(content) == [] then [] else request.trailing;
      Messages(Direct(rows + between + [x], own).items)
        == Messages(Direct(rows, own).items) + CompiledRows(between) + trailing + [Message(own, content)]
  {
    hide Direct, Put, Messages, RequestFor, IdentityKeys, KeysUnique, NewTurn, OwnTick, OwnPrompt, CompiledRows;
    var request, d := RequestFor(rows, own, silent, turn), Direct(rows + between, own);
    var x := ReplyTo(request, own, silent, content);
    NewTurnUnrendered(rows, own, turn);
    OthersRender(rows, between, own);
    RequestEnds(rows, own, silent, turn);
    DirectThen(rows + between, x, own);
    OwnStamps(x, own, silent);
    PutMessages(d, Message(own, content), OwnTick(x, own), OwnPrompt(x, own));
  }

  // --------------------------------------------------------------------------
  // Every run that only appends
  // --------------------------------------------------------------------------

  /** A request whose reply is awaited: the window had its first `from` rows. */
  datatype Asked = Asked(request: Request, silent: Option<TickId>, turn: nat, from: nat)

  datatype Run = Run(rows: seq<StoredRow>, asked: Option<Asked>)
  {
    /** What was stored since the request awaiting its reply. */
    function Between(): seq<StoredRow> {
      if asked.Some? && asked.value.from <= |rows| then rows[asked.value.from..] else []
    }
  }

  datatype Step =
    /** A row of anyone else's: a message, tool results, a clock, an injection. */
    | Arrives(row: StoredRow)
    /** A request, in place of one still without a reply, if any. */
    | Ask(silent: Option<TickId>, turn: nat)
    /** Its reply stored. */
    | Reply(content: seq<Block>)

  ghost predicate CanStep(run: Run, own: string, s: Step) {
    match s
    case Arrives(row) => row.participant != own
    case Ask(_, turn) => NewTurn(run.rows, turn)
    case Reply(content) => run.asked.Some? && NewKeys(run.rows, own, IdentityKeys(content))
  }

  function Next(run: Run, own: string, s: Step): Run
    requires s.Reply? ==> run.asked.Some?
  {
    match s
    case Arrives(row) => run.(rows := run.rows + [row])
    case Ask(silent, turn) =>
      run.(asked := Some(Asked(RequestFor(run.rows, own, silent, turn), silent, turn, |run.rows|)))
    case Reply(content) => Run(run.rows + [ReplyTo(run.asked.value.request, own, run.asked.value.silent, content)],
      None)
  }

  ghost predicate CanRun(run: Run, own: string, steps: seq<Step>)
    decreases |steps|
  {
    steps == [] || (CanStep(run, own, steps[0]) && CanRun(Next(run, own, steps[0]), own, steps[1..]))
  }

  ghost predicate RunOk(run: Run, own: string) {
    && KeysUnique(run.rows, own)
    && (run.asked.Some? ==>
         var a := run.asked.value;
         && a.from <= |run.rows| && KeysUnique(run.rows[..a.from], own) && NewTurn(run.rows[..a.from], a.turn)
         && a.request == RequestFor(run.rows[..a.from], own, a.silent, a.turn)
         && forall r | r in run.Between() :: r.participant != own)
  }

  /** A request sent; and one answered, with whether every later request begins with it. */
  datatype Sent = Opened(messages: seq<Message>) | Answered(messages: seq<Message>, kept: bool)

  /**
   Whether later requests begin with one: it ended on no turn of its own; or its reply came straight after it and can be
   told by a key; or what came in between is that very turn, stored as a message.
   */
  predicate IsKept(request: Request, between: seq<StoredRow>, content: seq<Block>) {
    || request.trailing == []
    || (between == [] && IdentityKeys(content) != [])
    || (between != [] && request.trailing == [Message(between[0].participant, between[0].content)])
  }

  function SentBy(run: Run, own: string, s: Step): seq<Sent>
    requires s.Reply? ==> run.asked.Some?
  {
    match s
    case Arrives(_) => []
    case Ask(silent, turn) => [Opened(RequestFor(run.rows, own, silent, turn).Sent())]
    case Reply(content) => [Answered(run.asked.value.request.Sent(),
      IsKept(run.asked.value.request, run.Between(), content))]
  }

  /** The requests of a run, as they are sent and as they are answered. */
  ghost function Requests(run: Run, own: string, steps: seq<Step>): seq<Sent>
    requires RunOk(run, own) && CanRun(run, own, steps)
    decreases |steps|
  {
    if steps == [] then []
    else
      NextOk(run, own, steps[0]);
      SentBy(run, own, steps[0]) + Requests(Next(run, own, steps[0]), own, steps[1..])
  }

  lemma NextOk(run: Run, own: string, s: Step)
    requires RunOk(run, own) && CanStep(run, own, s)
    ensures RunOk(Next(run, own, s), own)
  {
    hide RequestFor, IdentityKeys;
    var rows := run.rows;
    match s
    case Arrives(row) =>
      assert (rows + [row])[..|rows|] == rows;
      if run.asked.Some? {
        var from := run.asked.value.from;
        assert (rows + [row])[..from] == rows[..from] && (rows + [row])[from..] == rows[from..] + [row];
      }
    case Ask(_, _) =>
      assert rows[..|rows|] == rows;
    case Reply(content) =>
      assert Next(run, own, s).rows[..|rows|] == rows;
  }

  lemma DirectGrows(run: Run, own: string, s: Step)
    requires RunOk(run, own) && CanStep(run, own, s)
    ensures Messages(Direct(run.rows, own).items) <= Messages(Direct(Next(run, own, s).rows, own).items)
  {
    hide Direct, Put, Messages, RequestFor, RunOk;
    if !s.Ask? {
      var x := Next(run, own, s).rows[|run.rows|];
      DirectThen(run.rows, x, own);
      PutMessages(Direct(run.rows, own), Message(x.participant, x.content), OwnTick(x, own), OwnPrompt(x, own));
    }
  }

  /** What a window's rendering begins with, every request from then on begins with; and what it doesn't, none does. */
  lemma {:induction false} RequestsKeep(run: Run, own: string, steps: seq<Step>, kept: seq<Message>)
    requires RunOk(run, own) && CanRun(run, own, steps) && |kept| <= |Direct(run.rows, own).items|
    ensures forall s | s in Requests(run, own, steps) && s.Opened? ::
      kept <= s.messages <==> kept <= Messages(Direct(run.rows, own).items)
    decreases |steps|
  {
    hide RunOk;
    if steps != [] {
      var rest := Next(run, own, steps[0]);
      NextOk(run, own, steps[0]);
      DirectGrows(run, own, steps[0]);
      if steps[0].Ask? { RequestIsDirect(run.rows, own, steps[0].silent, steps[0].turn) by { RowsUnique(run, own); } }
      RequestsKeep(rest, own, steps[1..], kept);
      hide Direct, RequestFor, Messages;
      var now, later := Messages(Direct(run.rows, own).items), Messages(Direct(rest.rows, own).items);
      assert kept <= later <==> kept <= now;
    }
  }

  lemma RowsUnique(run: Run, own: string)
    requires RunOk(run, own)
    ensures KeysUnique(run.rows, own)
  {
  }

  predicate Keeps(earlier: Sent, later: Sent) {
    earlier.messages <= later.messages
  }

  /** An answered request is a prefix of every request sent after its reply, or of none. */
  ghost predicate PrefixesWhereKept(sent: seq<Sent>) {
    forall i, j {:trigger Keeps(sent[i], sent[j])} | 0 <= i < j < |sent| && sent[i].Answered? && sent[j].Opened? ::
      Keeps(sent[i], sent[j]) <==> sent[i].kept
  }

  lemma ReplyKeeps(run: Run, own: string, content: seq<Block>)
    requires own != USER && RunOk(run, own) && CanStep(run, own, Reply(content))
    ensures
      var sent := SentBy(run, own, Reply(content))[0];
      var after := Messages(Direct(Next(run, own, Reply(content)).rows, own).items);
      |sent.messages| <= |after| && (sent.kept <==> sent.messages <= after)
  {
    hide Direct, Messages, RequestFor, IdentityKeys, KeysUnique, NewKeys, NewTurn;
    var a := run.asked.value;
    var before, between := run.rows[..a.from], run.Between();
    assert run.rows == before + between;
    ReplyFollowsItsTurn(before, between, own, a.silent, a.turn, content);
    RequestIsDirect(before, own, a.silent, a.turn);
    RequestEnds(before, own, a.silent, a.turn);
    Follows(a.request.messages, a.request.trailing, between, Message(own, content), IdentityKeys(content) != []);
  }

  lemma Follows(sent: seq<Message>, trailing: seq<Message>, between: seq<StoredRow>, reply: Message, keyed: bool)
    requires trailing == [] || (|trailing| == 1 && trailing[0].participant != reply.participant)
    ensures var after := sent + CompiledRows(between) + (if keyed then trailing else []) + [reply];
      && |sent + trailing| <= |after|
      && (sent + trailing <= after <==>
           || trailing == [] || (between == [] && keyed)
           || (between != [] && trailing == [Message(between[0].participant, between[0].content)]))
  {
    var after := sent + CompiledRows(between) + (if keyed then trailing else []) + [reply];
    if trailing != [] {
      assert sent + trailing <= after <==> after[|sent|] == trailing[0];
      assert after[|sent|] == if between != [] then CompiledRows(between)[0] else if keyed then trailing[0] else reply;
    }
  }

  /**
   In a run that only appends, an answered request is a prefix of every request sent after its reply exactly where it
   ended on no turn of its own, or its reply holds a key and nothing was stored between them, or what was is that turn:
   across silent ticks, [Continue] turns and tool loops.
   */
  lemma {:induction false} RequestsArePrefixes(run: Run, own: string, steps: seq<Step>)
    requires own != USER && RunOk(run, own) && CanRun(run, own, steps)
    ensures PrefixesWhereKept(Requests(run, own, steps))
    decreases |steps|
  {
    hide Direct, RequestFor, Messages, RunOk, IdentityKeys, PrefixesWhereKept;
    if steps != [] {
      var next := Next(run, own, steps[0]);
      NextOk(run, own, steps[0]);
      RequestsArePrefixes(next, own, steps[1..]);
      var rest := Requests(next, own, steps[1..]);
      match steps[0]
      case Arrives(_) =>
        assert Requests(run, own, steps) == rest;
      case Ask(silent, turn) =>
        OneMore(Opened(RequestFor(run.rows, own, silent, turn).Sent()), rest);
      case Reply(content) =>
        ReplyKeeps(run, own, content);
        var first := SentBy(run, own, steps[0])[0];
        RequestsKeep(next, own, steps[1..], first.messages);
        OneMore(first, rest);
    } else {
      NoRequests();
    }
  }

  lemma NoRequests()
    ensures PrefixesWhereKept([])
  {
  }

  lemma OneMore(first: Sent, rest: seq<Sent>)
    requires first.Answered? ==> forall s | s in rest && s.Opened? :: first.messages <= s.messages <==> first.kept
    requires PrefixesWhereKept(rest)
    ensures PrefixesWhereKept([first] + rest)
  {
    var sent := [first] + rest;
    forall i, j | 0 <= i < j < |sent| && sent[i].Answered? && sent[j].Opened?
      ensures Keeps(sent[i], sent[j]) <==> sent[i].kept
    {
      if i > 0 {
        assert Keeps(rest[i - 1], rest[j - 1]) <==> rest[i - 1].kept;
      } else {
        assert rest[j - 1] in rest;
      }
    }
  }
}
