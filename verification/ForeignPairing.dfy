/** Which results a transcript leaves, and that transcribing it again changes nothing. */
module ForeignPairing {
  import opened Options
  import opened ForeignRounds

  // --------------------------------------------------------------------------
  // The call a result answers
  // --------------------------------------------------------------------------

  predicate HasCall(content: seq<Block>, id: string) {
    exists b :: b in content && b.ToolUse? && b.id == id
  }

  predicate HasResult(content: seq<Block>, id: string) {
    exists b :: b in content && b.ToolResult? && b.toolUseId == id
  }

  predicate Touches(m: Message, id: string) {
    HasCall(m.content, id) || HasResult(m.content, id)
  }

  /**
   Message `p` is an own round that calls with this id, and nothing in it or after it answers or calls with it again.
   */
  ghost predicate OpenOwnCall(messages: seq<Message>, isOwn: string -> bool, p: nat, id: string) {
    && p < |messages| && isOwn(messages[p].participant) && HasCall(messages[p].content, id)
    && !HasResult(messages[p].content, id) && forall k | p < k < |messages| :: !Touches(messages[k], id)
  }

  /**
   Result `j` of foreign message `i` answers an own call: the nearest call before it with its id, which no result
   between answers.
   */
  ghost predicate AnswersOwnCall(messages: seq<Message>, isOwn: string -> bool, i: nat, j: nat)
    requires i < |messages| && j < |messages[i].content| && messages[i].content[j].ToolResult?
  {
    var id := messages[i].content[j].toolUseId;
    && !HasCall(messages[i].content, id) && !HasResult(messages[i].content[..j], id)
    && exists p: nat :: OpenOwnCall(messages[..i], isOwn, p, id)
  }

  lemma {:induction false} WithCallsAre(calls: Calls, content: seq<Block>, own: bool, id: string)
    ensures var after := WithCalls(calls, content, own);
      if HasCall(content, id) then id in after && after[id].own == own
      else (id in after <==> id in calls) && (id in calls ==> after[id] == calls[id])
  {
    if content != [] {
      var n := |content| - 1;
      assert content == content[..n] + [content[n]];
      assert HasCall(content, id) <==> HasCall(content[..n], id) || (content[n].ToolUse? && content[n].id == id);
      WithCallsAre(calls, content[..n], own, id);
    }
  }

  /** A row takes the entries of the own calls its results answer, and no others. */
  lemma {:induction false} RowTakes(content: seq<Block>, calls: Calls, line: Line, id: string)
    ensures var left := RowAsSent(content, calls, line).calls;
      && (AnswersOwn(left, id) <==> AnswersOwn(calls, id) && !HasResult(content, id))
      && (id in left ==> id in calls && left[id] == calls[id])
  {
    if content != [] {
      var n := |content| - 1;
      assert content == content[..n] + [content[n]];
      assert HasResult(content, id) <==>
        HasResult(content[..n], id) || (content[n].ToolResult? && content[n].toolUseId == id);
      RowTakes(content[..n], calls, line, id);
    }
  }

  lemma OpenThen(messages: seq<Message>, isOwn: string -> bool, id: string)
    requires messages != []
    ensures var n := |messages| - 1;
      var content := messages[n].content;
      (exists p: nat :: OpenOwnCall(messages, isOwn, p, id)) <==>
      (!HasResult(content, id)
       && if HasCall(content, id) then isOwn(messages[n].participant)
          else exists p: nat :: OpenOwnCall(messages[..n], isOwn, p, id))
  {
    hide HasCall, HasResult;
    var n := |messages| - 1;
    if exists p: nat :: OpenOwnCall(messages, isOwn, p, id) {
      var p: nat :| OpenOwnCall(messages, isOwn, p, id);
      if p < n {
        assert !Touches(messages[n], id);
        assert OpenOwnCall(messages[..n], isOwn, p, id);
      }
    }
    if !HasResult(messages[n].content, id) && HasCall(messages[n].content, id) && isOwn(messages[n].participant) {
      assert OpenOwnCall(messages, isOwn, n, id);
    }
    if !Touches(messages[n], id) && exists p: nat :: OpenOwnCall(messages[..n], isOwn, p, id) {
      var p: nat :| OpenOwnCall(messages[..n], isOwn, p, id);
      assert OpenOwnCall(messages, isOwn, p, id);
    }
  }

  lemma LatestThen(before: Passed, m: Message, own: bool, line: Line, id: string)
    ensures AnswersOwn(MessageAsSent(before, m, own, line).calls, id) <==>
      !HasResult(m.content, id) && if HasCall(m.content, id) then own else AnswersOwn(before.calls, id)
  {
    WithCallsAre(before.calls, m.content, own, id);
    RowTakes(m.content, WithCalls(before.calls, m.content, own), line, id);
    assert id in ResultIds(m.content) <==> HasResult(m.content, id);
    hide RowAsSent, WithCalls, ResultIds, HasCall, HasResult;
  }

  /** An id is open for an own call exactly where the nearest call or result with it is one. */
  lemma {:induction false} OpenAre(messages: seq<Message>, isOwn: string -> bool, line: Line, id: string)
    ensures AnswersOwn(Transcribed(messages, isOwn, line).calls, id) <==>
      exists p: nat :: OpenOwnCall(messages, isOwn, p, id)
  {
    hide HasCall, HasResult, MessageAsSent;
    if messages != [] {
      var n := |messages| - 1;
      OpenAre(messages[..n], isOwn, line, id);
      OpenThen(messages, isOwn, id);
      LatestThen(Transcribed(messages[..n], isOwn, line), messages[n], isOwn(messages[n].participant), line, id);
    }
  }

  function Results(blocks: seq<Block>): seq<Block> {
    if blocks == [] then []
    else Results(blocks[..|blocks| - 1]) + if blocks[|blocks| - 1].ToolResult? then [blocks[|blocks| - 1]] else []
  }

  /** The results of a foreign message, up to its `n`th block, that answer own calls. */
  ghost function OwnResults(messages: seq<Message>, isOwn: string -> bool, i: nat, n: nat): seq<Block>
    requires i < |messages| && n <= |messages[i].content|
  {
    if n == 0 then []
    else
      var b := messages[i].content[n - 1];
      OwnResults(messages, isOwn, i, n - 1)
        + if b.ToolResult? && AnswersOwnCall(messages, isOwn, i, n - 1) then [b] else []
  }

  lemma ResultsThen(blocks: seq<Block>, x: Block)
    ensures Results(blocks + [x]) == Results(blocks) + if x.ToolResult? then [x] else []
  {
    assert (blocks + [x])[..|blocks|] == blocks;
  }

  lemma NoResults()
    ensures Results([]) == []
  {
  }

  lemma BlockResults(row: Row, b: Block, line: Line)
    ensures Results(BlockAsSent(row, b, line).out) ==
      Results(row.out) + if b.ToolResult? && AnswersOwn(row.calls, b.toolUseId) then [b] else []
  {
    var out := BlockAsSent(row, b, line).out;
    if out != row.out {
      assert out == row.out + [out[|row.out|]];
      ResultsThen(row.out, out[|row.out|]);
    }
  }

  lemma AnswersAre(messages: seq<Message>, isOwn: string -> bool, line: Line, i: nat, j: nat)
    requires i < |messages| && j < |messages[i].content| && messages[i].content[j].ToolResult?
    ensures var content := messages[i].content;
      var calls := WithCalls(Transcribed(messages[..i], isOwn, line).calls, content, false);
      AnswersOwn(RowAsSent(content[..j], calls, line).calls, content[j].toolUseId) <==>
        AnswersOwnCall(messages, isOwn, i, j)
  {
    var content, before := messages[i].content, Transcribed(messages[..i], isOwn, line).calls;
    var calls, id := WithCalls(before, content, false), content[j].toolUseId;
    OpenAre(messages[..i], isOwn, line, id);
    WithCallsAre(before, content, false, id);
    RowTakes(content[..j], calls, line, id);
    hide Transcribed, WithCalls, RowAsSent, HasCall, HasResult, OpenOwnCall;
  }

  lemma {:induction false} RowResults(messages: seq<Message>, isOwn: string -> bool, line: Line, i: nat, n: nat)
    requires i < |messages| && n <= |messages[i].content|
    ensures var before := Transcribed(messages[..i], isOwn, line).calls;
      var calls := WithCalls(before, messages[i].content, false);
      Results(RowAsSent(messages[i].content[..n], calls, line).out) == OwnResults(messages, isOwn, i, n)
    decreases n
  {
    hide Results, WithCalls, Transcribed, AnswersOwnCall, AnswersOwn, BlockAsSent;
    if n == 0 {
      assert messages[i].content[..0] == [] && Results([]) == [] by { NoResults(); }
    } else {
      RowResults(messages, isOwn, line, i, n - 1);
      var content := messages[i].content;
      var calls, b := WithCalls(Transcribed(messages[..i], isOwn, line).calls, content, false), content[n - 1];
      assert content[..n][..n - 1] == content[..n - 1];
      BlockResults(RowAsSent(content[..n - 1], calls, line), b, line);
      if b.ToolResult? { AnswersAre(messages, isOwn, line, i, n - 1); }
    }
  }

  /**
   The results left in a foreign message are exactly those that answer the watcher's own calls, each the nearest
   unanswered one with its id.
   */
  lemma KeptAnswerOwnCalls(messages: seq<Message>, isOwn: string -> bool, line: Line, i: nat)
    requires i < |messages| && !isOwn(messages[i].participant)
    ensures Results(Transcribed(messages, isOwn, line).out[i].content)
      == OwnResults(messages, isOwn, i, |messages[i].content|)
  {
    hide WithCalls, RowAsSent, AnswersOwnCall, AnswersOwn, Plain;
    var content := messages[i].content;
    var calls := WithCalls(Transcribed(messages[..i], isOwn, line).calls, content, false);
    CountKept(messages, isOwn, line, i);
    RowResults(messages, isOwn, line, i, |content|);
    assert content[..|content|] == content;
    RowIsPlain(content, calls, line);
    assert Results([Text(NOTHING_SAID, false)]) == [] by { ResultsThen([], Text(NOTHING_SAID, false)); }
  }

  /** A call keeps at most one result: of two with one id in a message, the later answers none. */
  lemma OneInAMessage(messages: seq<Message>, isOwn: string -> bool, i: nat, j: nat, l: nat)
    requires i < |messages| && j < l < |messages[i].content| && messages[i].content[j].ToolResult?
      && messages[i].content[l].ToolResult?
    requires messages[i].content[j].toolUseId == messages[i].content[l].toolUseId
    ensures !AnswersOwnCall(messages, isOwn, i, l)
  {
    assert messages[i].content[..l][j] in messages[i].content[..l];
  }

  /** And between two messages whose results with one id answer own calls, there is another own call. */
  lemma OneResultEach(messages: seq<Message>, isOwn: string -> bool, i: nat, j: nat, k: nat, l: nat) returns (p: nat)
    requires i < |messages| && j < |messages[i].content| && messages[i].content[j].ToolResult?
      && AnswersOwnCall(messages, isOwn, i, j)
    requires i < k < |messages| && l < |messages[k].content| && messages[k].content[l].ToolResult?
      && AnswersOwnCall(messages, isOwn, k, l)
    requires messages[i].content[j].toolUseId == messages[k].content[l].toolUseId && !isOwn(messages[i].participant)
    ensures i < p < k && isOwn(messages[p].participant)
      && HasCall(messages[p].content, messages[k].content[l].toolUseId)
  {
    var id := messages[k].content[l].toolUseId;
    p :| OpenOwnCall(messages[..k], isOwn, p, id);
    assert messages[i].content[j] in messages[i].content;
    assert HasResult(messages[i].content, id);
    assert messages[..k][i] == messages[i];
    assert p < i ==> !Touches(messages[..k][i], id);
  }

  // --------------------------------------------------------------------------
  // A second pass
  // --------------------------------------------------------------------------

  /** Every own call open in `a` is open in `b`, alike. */
  ghost predicate Covers(a: Calls, b: Calls) {
    forall id | AnswersOwn(a, id) :: id in b && b[id] == a[id]
  }

  lemma BlockTwice(once: Row, twice: Row, b: Block, line: Line)
    requires Covers(once.calls, twice.calls) && twice == Row(once.out, twice.calls, false)
    ensures var after := BlockAsSent(once, b, line);
      after.out == once.out ==> Covers(after.calls, twice.calls)
    ensures var after := BlockAsSent(once, b, line);
      after.out != once.out ==> |after.out| == |once.out| + 1 && after.out == once.out + [after.out[|once.out|]]
    ensures var after := BlockAsSent(once, b, line);
      after.out != once.out ==>
        var again := BlockAsSent(twice, after.out[|once.out|], line);
        again == Row(after.out, again.calls, false) && Covers(after.calls, again.calls)
  {
  }

  lemma {:induction false} RowTwice(content: seq<Block>, a: Calls, b: Calls, line: Line)
    requires Covers(a, b)
    ensures var once := RowAsSent(content, a, line);
      var twice := RowAsSent(once.out, b, line);
      twice == Row(once.out, twice.calls, false) && Covers(once.calls, twice.calls)
  {
    hide BlockAsSent, Covers;
    if content != [] {
      var n := |content| - 1;
      RowTwice(content[..n], a, b, line);
      var once, after := RowAsSent(content[..n], a, line), RowAsSent(content, a, line);
      BlockTwice(once, RowAsSent(once.out, b, line), content[n], line);
      if after.out != once.out { assert after.out[..|after.out| - 1] == once.out; }
    }
  }

  lemma {:induction false} NoCallsToSet(calls: Calls, content: seq<Block>)
    requires forall b | b in content :: !b.ToolUse?
    ensures WithCalls(calls, content, false) == calls
  {
    if content != [] { NoCallsToSet(calls, content[..|content| - 1]); }
  }

  lemma {:induction false} RowResultsAreIn(content: seq<Block>, calls: Calls, line: Line)
    ensures forall b | b in RowAsSent(content, calls, line).out && b.ToolResult? :: b in content
  {
    if content != [] { RowResultsAreIn(content[..|content| - 1], calls, line); }
  }

  lemma MessageTwice(p: Passed, q: Passed, m: Message, own: bool, line: Line)
    requires Covers(p.calls, q.calls)
    ensures var once := MessageAsSent(p, m, own, line);
      var sent := once.out[|p.out|];
      var twice := MessageAsSent(q, sent, own, line);
      sent.participant == m.participant && twice.out == q.out + [sent] && Covers(once.calls, twice.calls)
  {
    var a, b := WithCalls(p.calls, m.content, own), WithCalls(q.calls, m.content, own);
    forall id: string { WithCallsAre(p.calls, m.content, own, id); }
    forall id: string { WithCallsAre(q.calls, m.content, own, id); }
    if own {
      SameCalls(p.calls, q.calls, m.content);
    } else {
      assert Covers(a, q.calls);
      ForeignTwice(a, q.calls, m.content, line);
    }
  }

  lemma {:induction false} SameCalls(a: Calls, b: Calls, content: seq<Block>)
    requires Covers(a, b)
    ensures Covers(WithCalls(a, content, true), WithCalls(b, content, true))
  {
    if content != [] { SameCalls(a, b, content[..|content| - 1]); }
  }

  lemma ForeignTwice(a: Calls, b: Calls, content: seq<Block>, line: Line)
    requires Covers(a, b)
    ensures var row := RowAsSent(content, a, line);
      var sent := Content(content, row);
      var again := RowAsSent(sent, WithCalls(b, sent, false), line);
      Content(sent, again) == sent && Covers(row.calls - ResultIds(content), again.calls - ResultIds(sent))
  {
    var row := RowAsSent(content, a, line);
    var sent := Content(content, row);
    RowIsPlain(content, a, line);
    RowTwice(content, a, b, line);
    RowResultsAreIn(content, a, line);
    assert ResultIds(sent) <= ResultIds(content);
    NoCallsToSet(b, sent);
    if row.out == [] && row.changed {
      assert [Text(NOTHING_SAID, false)][..0] == [];
      assert RowAsSent(sent, b, line).calls == b;
    }
  }

  /** Transcribing a transcript again changes nothing. */
  lemma {:induction false} TwiceIsOnce(messages: seq<Message>, isOwn: string -> bool, line: Line)
    ensures var once := Transcribed(messages, isOwn, line);
      var twice := Transcribed(once.out, isOwn, line);
      twice.out == once.out && Covers(once.calls, twice.calls)
  {
    hide RowAsSent, WithCalls, Covers;
    assert Covers(map[], map[]) by { NoneOpen(); }
    if messages != [] {
      var n := |messages| - 1;
      TwiceIsOnce(messages[..n], isOwn, line);
      var before := Transcribed(messages[..n], isOwn, line);
      var once := Transcribed(messages, isOwn, line);
      assert once.out[..n] == before.out;
      MessageTwice(before, Transcribed(before.out, isOwn, line), messages[n], isOwn(messages[n].participant), line);
      assert once.out == before.out + [once.out[n]];
    }
  }

  lemma NoneOpen()
    ensures Covers(map[], map[])
  {
  }
}
