/**
 The chunked line splitter of src/line-reader.ts: lines end at CR LF, CR or LF,
 wherever the chunks happen to be cut, and one longer than the limit ends the
 reading.
 */
module LineReader {
  const LF := '\n'
  const CR := '\r'

  datatype Event = Line(line: string) | TooLong | End

  datatype State = State(partial: string, afterCr: bool, stopped: bool, events: seq<Event>)

  predicate Terminates(c: char) {
    c == LF || c == CR
  }

  // --------------------------------------------------------------------------
  // The whole text, split at once
  // --------------------------------------------------------------------------

  /** Where a text's first line ends. */
  function LineEnd(text: string): (e: nat)
    ensures e <= |text| && (e < |text| ==> Terminates(text[e])) && forall i | 0 <= i < e :: !Terminates(text[i])
  {
    if text == [] || Terminates(text[0]) then 0 else 1 + LineEnd(text[1..])
  }

  /** Where the next line starts. */
  function Past(text: string, e: nat): (n: nat)
    requires e < |text|
    ensures e < n <= |text|
  {
    if text[e] == CR && e + 1 < |text| && text[e + 1] == LF then e + 2 else e + 1
  }

  /** What a whole text reads as. */
  function Split(text: string, max: nat): seq<Event>
    decreases |text|
  {
    var e := LineEnd(text);
    if e > max then [TooLong]
    else if e == |text| then (if e > 0 then [Line(text)] else []) + [End]
    else [Line(text[..e])] + Split(text[Past(text, e)..], max)
  }

  /** A line of a text, and what ends it there. */
  datatype Full = Full(text: string, ending: string)

  function Written(lines: seq<Full>, last: string): string {
    if lines == [] then last else lines[0].text + (lines[0].ending + Written(lines[1..], last))
  }

  predicate Unbroken(text: string) {
    forall i | 0 <= i < |text| :: !Terminates(text[i])
  }

  /** Lines with no terminator inside, each ended by one: a CR that isn't the start of a CR LF. */
  predicate Proper(lines: seq<Full>, last: string) {
    if lines == [] then Unbroken(last)
    else
      var rest := Written(lines[1..], last);
      Unbroken(lines[0].text) && Ends(lines[0].ending, rest) && Proper(lines[1..], last)
  }

  /** Each of those lines as given, up to the first too long, and the end. */
  function Given(lines: seq<Full>, last: string, max: nat): seq<Event> {
    if lines == [] then (if |last| > max then [TooLong] else (if last != "" then [Line(last)] else []) + [End])
    else if |lines[0].text| > max then [TooLong]
    else [Line(lines[0].text)] + Given(lines[1..], last, max)
  }

  predicate Ends(ending: string, rest: string) {
    ending == [CR, LF] || ending == [LF] || (ending == [CR] && !([LF] <= rest))
  }

  lemma FirstLine(line: string, ending: string, rest: string)
    requires Unbroken(line) && Ends(ending, rest)
    ensures var text, e := line + (ending + rest), |line|;
      LineEnd(text) == e < |text| && text[..e] == line && text[Past(text, e)..] == rest
  {
    var text, e := line + (ending + rest), |line|;
    assert text[e..] == ending + rest;
    assert text[e] == ending[0];
    forall i | 0 <= i < e ensures !Terminates(text[i]) { assert text[i] == line[i]; }
    if e + 1 < |text| { assert text[e + 1] == (ending + rest)[1]; }
    assert Past(text, e) == e + |ending|;
    assert text[e + |ending|..] == (ending + rest)[|ending|..];
  }

  /** What is written as lines reads as those lines. */
  lemma {:induction false} WrittenIsRead(lines: seq<Full>, last: string, max: nat)
    requires Proper(lines, last)
    ensures Split(Written(lines, last), max) == Given(lines, last, max)
  {
    hide Split, Past, LineEnd, Ends;
    var text := Written(lines, last);
    SplitIs(text, max);
    if lines != [] {
      FirstLine(lines[0].text, lines[0].ending, Written(lines[1..], last));
      WrittenIsRead(lines[1..], last, max);
    } else {
      UnbrokenEnds(last);
    }
  }

  lemma UnbrokenEnds(text: string)
    requires Unbroken(text)
    ensures LineEnd(text) == |text|
  {
  }

  // --------------------------------------------------------------------------
  // A character at a time
  // --------------------------------------------------------------------------

  function Refused(s: State): State {
    State("", false, true, s.events + [TooLong])
  }

  function Read(s: State, c: char, max: nat): State {
    if s.stopped then s
    else if s.afterCr && c == LF then s.(afterCr := false)
    else if Terminates(c) then State("", c == CR, false, s.events + [Line(s.partial)])
    else if |s.partial| + 1 > max then Refused(s)
    else State(s.partial + [c], false, false, s.events)
  }

  function ReadAll(s: State, text: string, max: nat): State {
    if text == [] then s else Read(ReadAll(s, text[..|text| - 1], max), text[|text| - 1], max)
  }

  function Ended(s: State): State {
    if s.stopped then s
    else State("", s.afterCr, true, s.events + (if s.partial != "" then [Line(s.partial)] else []) + [End])
  }

  lemma {:induction false} ReadTwo(s: State, a: string, b: string, max: nat)
    ensures ReadAll(s, a + b, max) == ReadAll(ReadAll(s, a, max), b, max)
  {
    if b == [] {
      assert a + b == a;
    } else {
      assert (a + b)[..|a + b| - 1] == a + b[..|b| - 1];
      ReadTwo(s, a, b[..|b| - 1], max);
    }
  }

  lemma {:induction false} ReadPlain(s: State, text: string, max: nat)
    requires !s.stopped && |s.partial| <= max && (forall i | 0 <= i < |text| :: !Terminates(text[i])) && text != []
    ensures ReadAll(s, text, max) ==
      if |s.partial| + |text| > max then Refused(s) else State(s.partial + text, false, false, s.events)
  {
    var n := |text| - 1;
    assert text == text[..n] + [text[n]];
    if n > 0 {
      ReadPlain(s, text[..n], max);
      assert s.partial + text[..n] + [text[n]] == s.partial + text;
    } else {
      assert text[..n] == [];
    }
  }

  lemma {:induction false} StoppedStays(s: State, text: string, max: nat)
    requires s.stopped
    ensures ReadAll(s, text, max) == s
  {
    if text != [] { StoppedStays(s, text[..|text| - 1], max); }
  }

  lemma ReadOne(s: State, c: char, max: nat)
    ensures ReadAll(s, [c], max) == Read(s, c, max)
  {
    assert [c][..0] == [];
    assert ReadAll(s, [c][..0], max) == s;
  }

  /** A carriage return matters to the next character only where that is a line feed. */
  lemma AfterCrMatters(s: State, text: string, max: nat)
    requires !s.stopped && text != [] && text[0] != LF
    ensures ReadAll(s, text, max) == ReadAll(s.(afterCr := false), text, max)
  {
    assert text == [text[0]] + text[1..];
    ReadTwo(s, [text[0]], text[1..], max);
    ReadTwo(s.(afterCr := false), [text[0]], text[1..], max);
    ReadOne(s, text[0], max);
    ReadOne(s.(afterCr := false), text[0], max);
  }

  function At(events: seq<Event>, afterCr: bool): State {
    State("", afterCr, false, events)
  }

  /** Where a terminator leaves the reading: the line given, and a carriage return remembered only at the very end. */
  function AfterLine(s: State, text: string, e: nat): State
    requires e < |text|
  {
    State("", text[e] == CR && e + 1 == |text|, false, s.events + [Line(s.partial + text[..e])])
  }

  lemma ReadToTerminator(s: State, text: string, e: nat, max: nat)
    requires e < |text| && Terminates(text[e]) && forall i | 0 <= i < e :: !Terminates(text[i])
    requires !s.stopped && !s.afterCr && |s.partial| <= max
    ensures ReadAll(s, text[..e + 1], max) ==
      if |s.partial| + e > max then Refused(s)
        else State("", text[e] == CR, false, s.events + [Line(s.partial + text[..e])])
  {
    var plain := text[..e];
    assert text[..e + 1] == plain + [text[e]];
    ReadTwo(s, plain, [text[e]], max);
    ReadOne(ReadAll(s, plain, max), text[e], max);
    if e > 0 { ReadPlain(s, plain, max); } else { assert plain == [] && s.partial + plain == s.partial; }
  }

  /** A line read up to and past its terminator: whatever follows is read as from a new line. */
  lemma LineRead(s: State, text: string, e: nat, max: nat)
    requires e < |text| && Terminates(text[e]) && forall i | 0 <= i < e :: !Terminates(text[i])
    requires !s.stopped && !s.afterCr && |s.partial| <= max
    ensures ReadAll(s, text, max) ==
      if |s.partial| + e > max then Refused(s) else ReadAll(AfterLine(s, text, e), text[Past(text, e)..], max)
  {
    var done := text[e + 1..];
    ReadToTerminator(s, text, e, max);
    assert text == text[..e + 1] + done;
    ReadTwo(s, text[..e + 1], done, max);
    if |s.partial| + e > max {
      StoppedStays(Refused(s), done, max);
    } else if text[e] == CR && done != [] {
      var after := State("", true, false, s.events + [Line(s.partial + text[..e])]);
      if done[0] == LF {
        assert done == [LF] + done[1..];
        ReadTwo(after, [LF], done[1..], max);
        ReadOne(after, LF, max);
        assert text[Past(text, e)..] == done[1..];
      } else {
        AfterCrMatters(after, done, max);
      }
    }
  }

  /** Read a character at a time, a text gives what splitting it whole does. */
  lemma {:induction false} ReadIsSplit(events: seq<Event>, text: string, max: nat)
    ensures Ended(ReadAll(At(events, false), text, max)).events == events + Split(text, max)
    decreases |text|
  {
    hide ReadAll, Split;
    var e, start := LineEnd(text), At(events, false);
    SplitIs(text, max);
    if e < |text| {
      LineRead(start, text, e, max);
      if e <= max {
        var rest := text[Past(text, e)..];
        ReadIsSplit(events + [Line(text[..e])], rest, max);
        AfterLineIs(start, text, e, max);
        assert events + [Line(text[..e])] + Split(rest, max) == events + Split(text, max);
      }
    } else {
      RestIsSplit(events, text, max);
    }
  }

  lemma SplitIs(text: string, max: nat)
    ensures var e := LineEnd(text);
      if e > max then Split(text, max) == [TooLong]
      else if e == |text| then Split(text, max) == (if e > 0 then [Line(text)] else []) + [End]
      else Split(text, max) == [Line(text[..e])] + Split(text[Past(text, e)..], max)
  {
  }

  lemma AfterLineIs(s: State, text: string, e: nat, max: nat)
    requires e < |text| && s.partial == ""
    ensures var rest := text[Past(text, e)..];
      Ended(ReadAll(AfterLine(s, text, e), rest, max)).events == Ended(ReadAll(At(s.events + [Line(text[..e])], false),
        rest, max)).events
  {
    assert "" + text[..e] == text[..e];
  }

  lemma RestIsSplit(events: seq<Event>, text: string, max: nat)
    requires LineEnd(text) == |text|
    ensures Ended(ReadAll(At(events, false), text, max)).events == events + Split(text, max)
  {
    if text != [] {
      ReadPlain(At(events, false), text, max);
      assert "" + text == text;
      assert |text| <= max ==> events + [Line(text)] + [End] == events + Split(text, max);
    }
  }

  // --------------------------------------------------------------------------
  // The reader
  // --------------------------------------------------------------------------

  class LineReader {
    const maxChars: nat
    var partial: string
    var lineEndedAtCr: bool
    var stopped: bool
    /** The calls made to the handlers. */
    var events: seq<Event>

    ghost function Now(): State
      reads this
    {
      State(partial, lineEndedAtCr, stopped, events)
    }

    ghost predicate Valid()
      reads this
    {
      |partial| <= maxChars && (stopped ==> partial == "")
    }

    constructor (maxChars: nat)
      ensures Valid() && this.maxChars == maxChars && Now() == At([], false)
    {
      this.maxChars := maxChars;
      partial, lineEndedAtCr, stopped, events := "", false, false, [];
    }

    method Refuse()
      modifies this
      ensures Now() == State("", old(lineEndedAtCr), true, old(events) + [TooLong])
    {
      stopped := true;
      partial := "";
      events := events + [TooLong];
    }

    /** One chunk, decoded. */
    method Take(text: string)
      requires Valid() && !stopped
      modifies this
      ensures Valid() && Now() == ReadAll(old(Now()), text, maxChars)
    {
      hide ReadAll, Past;
      var from := 0;
      assert text[0..] == text;
      if lineEndedAtCr && |text| > 0 {
        lineEndedAtCr := false;
        if text[0] == LF {
          from := 1;
          FeedSkipped(old(Now()), text, maxChars);
        } else {
          AfterCrMatters(old(Now()), text, maxChars);
        }
      }
      var i := from;
      while i < |text|
        invariant Valid() && !stopped && from <= i <= |text| && (lineEndedAtCr ==> from == |text|)
        invariant forall k | from <= k < i :: !Terminates(text[k])
        invariant ReadAll(Now(), text[from..], maxChars) == old(ReadAll(Now(), text, maxChars))
      {
        if text[i] == LF || text[i] == CR {
          LineRead(Now(), text[from..], i - from, maxChars);
          PastFrom(text, from, i);
          if |partial| + (i - from) > maxChars { Refuse(); return; }
          assert text[from..i] == text[from..][..i - from];
          var line := partial + text[from..i];
          partial := "";
          if text[i] == CR {
            if i + 1 == |text| { lineEndedAtCr := true; }
            else if text[i + 1] == LF { i := i + 1; }
          }
          from := i + 1;
          events := events + [Line(line)];
        }
        i := i + 1;
      }
      RestRead(Now(), text[from..], maxChars);
      if |partial| + (|text| - from) > maxChars { Refuse(); return; }
      partial := partial + text[from..];
    }

    /** The end of the input, with whatever the decoder still held. */
    method OnStreamEnd(held: string)
      requires Valid() && !stopped
      modifies this
      ensures Valid() && stopped && events == Ended(ReadAll(old(Now()), held, maxChars)).events
    {
      Take(held);
      if !stopped && |partial| > 0 {
        events := events + [Line(partial)];
        partial := "";
      }
      if stopped { return; }
      stopped := true;
      events := events + [End];
    }
  }

  lemma FeedSkipped(s: State, text: string, max: nat)
    requires !s.stopped && s.afterCr && text != [] && text[0] == LF
    ensures ReadAll(s, text, max) == ReadAll(s.(afterCr := false), text[1..], max)
  {
    assert text == [LF] + text[1..];
    ReadTwo(s, [LF], text[1..], max);
    ReadOne(s, LF, max);
  }

  lemma PastFrom(text: string, from: nat, i: nat)
    requires from <= i < |text|
    ensures text[from..][Past(text[from..], i - from)..] == text[Past(text, i)..]
    ensures Past(text, i) == if text[i] == CR && i + 1 < |text| && text[i + 1] == LF then i + 2 else i + 1
  {
  }

  /** What is left of a chunk, with no terminator in it. */
  lemma RestRead(s: State, text: string, max: nat)
    requires !s.stopped && |s.partial| <= max && (s.afterCr ==> text == []) && forall k | 0 <= k < |text| ::
      !Terminates(text[k])
    ensures ReadAll(s, text, max) == if |s.partial| + |text| > max then Refused(s) else s.(partial := s.partial + text)
  {
    if text != [] { ReadPlain(s, text, max); } else { assert s.partial + text == s.partial; }
  }

  function Joined(chunks: seq<string>): string {
    if chunks == [] then "" else Joined(chunks[..|chunks| - 1]) + chunks[|chunks| - 1]
  }

  /**
   However a text is cut into chunks, reading them gives the lines of the whole text split at once, and stops too long
   where that does.
   */
  method ReadLines(chunks: seq<string>, maxChars: nat) returns (events: seq<Event>)
    ensures events == Split(Joined(chunks), maxChars)
  {
    var reader := new LineReader(maxChars);
    ghost var start := At([], false);
    for i := 0 to |chunks|
      invariant fresh(reader) && reader.Valid() && reader.maxChars == maxChars
      invariant reader.Now() == ReadAll(start, Joined(chunks[..i]), maxChars)
    {
      assert chunks[..i + 1][..i] == chunks[..i];
      ReadTwo(start, Joined(chunks[..i]), chunks[i], maxChars);
      if reader.stopped {
        StoppedStays(reader.Now(), chunks[i], maxChars);
      } else {
        reader.Take(chunks[i]);
      }
    }
    assert chunks[..|chunks|] == chunks;
    ReadIsSplit([], Joined(chunks), maxChars);
    if !reader.stopped { reader.OnStreamEnd(""); }
    return reader.events;
  }
}
