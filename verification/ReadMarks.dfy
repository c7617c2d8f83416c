/**
 Read marks, src/read-marks.ts: how far an agent had read when a mark was
 taken, and which stored rows a mark covers, in a window that is the record
 (legacy mode) and in one written down since.
 */
module ReadMarks {
  import opened Options
  import opened Audience
  import opened Windows
  import opened WindowRuns

  /** The branch, the store's head, and the window's index length when the manager was in presented mode. */
  datatype Mark = Mark(branch: string, head: nat, length: Option<nat>)

  datatype Cover = Covered | NotCovered | Doubt

  /** What a mark is read against. A window that can't be read (its reads throw) can't say where it held a row. */
  datatype Reader = Reader(branch: string, window: Window, readable: bool)

  function ReadMarkOf(branch: string, w: Window): Mark {
    Mark(branch, w.head, if w.presented then Some(w.length) else None)
  }

  /**
   The ordinal of the window's first row that a cut at `through` wouldn't keep, or the index length when it keeps them
   all.
   */
  function WindowLengthAt(entries: seq<Entry>, length: nat, through: int): nat {
    if entries == [] then length
    else if entries[0].since > through then entries[0].ordinal
    else WindowLengthAt(entries[1..], length, through)
  }

  lemma {:induction false} WindowLengthAtIs(entries: seq<Entry>, length: nat, through: int, low: nat)
    requires low <= |entries|
    requires forall i | 0 <= i < low :: entries[i].since <= through
    requires low < |entries| ==> entries[low].since > through
    ensures WindowLengthAt(entries, length, through) == if low < |entries| then entries[low].ordinal else length
    decreases low
  {
    if low > 0 {
      forall i | 0 <= i < low - 1 ensures entries[1..][i].since <= through { assert entries[1..][i] == entries[i + 1]; }
      if low < |entries| { assert entries[1..][low - 1] == entries[low]; }
      WindowLengthAtIs(entries[1..], length, through, low - 1);
    }
  }

  /** The binary search over the window's branch sequences, which only grow along it. */
  method FindWindowLengthAt(w: Window, through: int) returns (length: nat)
    requires Ok(w)
    ensures length == WindowLengthAt(w.entries, w.length, through)
  {
    var low, high := 0, |w.entries|;
    while low < high
      invariant 0 <= low <= high <= |w.entries|
      invariant forall i | 0 <= i < low :: w.entries[i].since <= through
      invariant forall i | high <= i < |w.entries| :: w.entries[i].since > through
    {
      var middle := (low + high) / 2;
      if w.entries[middle].since <= through {
        forall i | 0 <= i <= middle ensures w.entries[i].since <= through {
          assert i < middle ==> Ahead(w.entries[i], w.entries[middle]);
        }
        low := middle + 1;
      } else {
        forall i | middle <= i < |w.entries| ensures w.entries[i].since > through {
          assert middle < i ==> Ahead(w.entries[middle], w.entries[i]);
        }
        high := middle;
      }
    }
    WindowLengthAtIs(w.entries, w.length, through, low);
    length := if low == |w.entries| then w.length else w.entries[low].ordinal;
  }

  /** Whether the window holds the row below `length`. */
  predicate StandsBelow(w: Window, id: nat, length: nat) {
    exists i | 0 <= i < |w.entries| :: w.entries[i].id == id && w.entries[i].ordinal < length
  }

  function ByOrdinal(w: Window, row: Row, length: nat): Cover {
    if StandsBelow(w, row.id, length) then Covered else NotCovered
  }

  /** How a mark taken in legacy mode covers through `through`. */
  function LegacyCover(reader: Reader, row: Row, through: int): Cover {
    if !reader.window.presented then if row.sequence <= through then Covered else NotCovered
    else if row.sequence > through then NotCovered
    else if !reader.readable then Doubt
    else ByOrdinal(reader.window, row, WindowLengthAt(reader.window.entries, reader.window.length, through))
  }

  function Min(a: int, b: int): int { if a <= b then a else b }

  /** Whether a mark covers a row; `across` is the last sequence the mark's branch and the reader's share. */
  function CoverTest(mark: Option<Mark>, reader: Reader, across: Option<nat>, row: Row): Cover {
    match mark
    case None => Doubt
    case Some(m) =>
      if reader.branch != m.branch then
        if across.None? || m.length.Some? then Doubt else LegacyCover(reader, row, Min(m.head, across.value))
      else match m.length
        case None => LegacyCover(reader, row, m.head)
        case Some(length) => if !reader.window.presented then Doubt else ByOrdinal(reader.window, row, length)
  }

  /** Whether `a` was taken at or after `b`, two marks of one branch. */
  predicate AtOrAfter(a: Mark, b: Mark) {
    if a.length.Some? && b.length.Some? && a.length != b.length then a.length.value > b.length.value
      else a.head >= b.head
  }

  // --------------------------------------------------------------------------
  // What a mark covers, by what the window held
  // --------------------------------------------------------------------------

  /** The row has the same place in `w` as it had in `past`. */
  ghost predicate StillStands(past: Window, w: Window, id: nat) {
    exists e :: e in past.entries && e in w.entries && e.id == id
  }

  lemma LengthAtSplits(w: Window, through: int, e: Entry)
    requires Ok(w) && e in w.entries
    ensures e.ordinal < WindowLengthAt(w.entries, w.length, through) <==> e.since <= through
  {
    LengthAtSplitsIn(w.entries, w.length, through, e);
  }

  lemma {:induction false} LengthAtSplitsIn(entries: seq<Entry>, length: nat, through: int, e: Entry)
    requires InWindowOrder(entries) && e in entries && forall x | x in entries :: x.ordinal < length
    ensures e.ordinal < WindowLengthAt(entries, length, through) <==> e.since <= through
  {
    if entries[0].since > through {
      var i :| 0 <= i < |entries| && entries[i] == e;
      if i > 0 { assert Ahead(entries[0], entries[i]); }
    } else if |entries| == 1 {
    } else {
      var rest := entries[1..];
      forall i, j | 0 <= i < j < |rest| ensures Ahead(rest[i], rest[j]) {
        assert Ahead(entries[i + 1], entries[j + 1]);
      }
      LengthAtSplitsIn(rest, length, through, rest[0]);
      if e == entries[0] {
        assert Ahead(entries[0], entries[1]);
        FirstPastIsInside(rest, length, through);
      } else {
        LengthAtSplitsIn(rest, length, through, e);
      }
    }
  }

  lemma {:induction false} FirstPastIsInside(entries: seq<Entry>, length: nat, through: int)
    requires entries != [] && InWindowOrder(entries) && forall x | x in entries :: x.ordinal < length
    ensures WindowLengthAt(entries, length, through) >= entries[0].ordinal
  {
    if entries[0].since <= through && |entries| > 1 {
      var rest := entries[1..];
      forall i, j | 0 <= i < j < |rest| ensures Ahead(rest[i], rest[j]) {
        assert Ahead(entries[i + 1], entries[j + 1]);
      }
      assert Ahead(entries[0], entries[1]);
      FirstPastIsInside(rest, length, through);
    }
  }

  lemma OnePlace(w: Window, a: Entry, b: Entry)
    requires Ok(w) && a in w.entries && b in w.entries && a.id == b.id
    ensures a == b
  {
    var i :| 0 <= i < |w.entries| && w.entries[i] == a;
    var j :| 0 <= j < |w.entries| && w.entries[j] == b;
    assert i < j ==> Ahead(w.entries[i], w.entries[j]);
    assert j < i ==> Ahead(w.entries[j], w.entries[i]);
  }

  /** A mark taken in presented mode covers exactly the rows that still stand where the window held them at the mark. */
  lemma PresentedMarkCovers(branch: string, a: Window, steps: seq<WindowStep>, row: Row)
    requires Ok(a) && a.presented && CanRun(a, steps)
    ensures CoverTest(Some(ReadMarkOf(branch, a)), Reader(branch, Run(a, steps), true), None, row) == Covered
      <==> StillStands(a, Run(a, steps), row.id)
  {
    var w := Run(a, steps);
    RunGrew(a, steps);
    if StandsBelow(w, row.id, a.length) {
      var i :| 0 <= i < |w.entries| && w.entries[i].id == row.id && w.entries[i].ordinal < a.length;
      assert w.entries[i] in a.entries;
    }
    if StillStands(a, w, row.id) {
      var e :| e in a.entries && e in w.entries && e.id == row.id;
      var i :| 0 <= i < |w.entries| && w.entries[i] == e;
      var j :| 0 <= j < |a.entries| && a.entries[j] == e;
    }
  }

  /** The branch sequence the write-down gives a row is that of the last shard of its body. */
  lemma {:induction false} BodyEndIsOfTheBody(rows: seq<Row>, i: nat) returns (k: nat)
    requires InRecordOrder(rows) && i < |rows|
    ensures i <= k < |rows| && rows[k].body == rows[i].body && rows[k].sequence == BodyEnd(rows, i)
    decreases |rows| - i
  {
    k := i;
    if i + 1 < |rows| && rows[i + 1].body == rows[i].body {
      k := BodyEndIsOfTheBody(rows, i + 1);
    }
  }

  /** A place of the write-down is one a cut at an earlier head keeps exactly when its row was stored by then. */
  lemma WrittenDownSince(a: Window, d: Window, e: Entry)
    requires Ok(a) && Ok(d) && !d.presented && Grew(a, d) && e in WrittenDown(d).entries
    ensures e.since <= a.head <==> e.id < a.ids
    ensures e.since <= d.head && e.id in RowIds(d.rows)
  {
    var i :| 0 <= i < |d.rows| && e == WrittenDown(d).entries[i];
    var k := BodyEndIsOfTheBody(d.rows, i);
    assert d.rows[i] in d.rows && d.rows[k] in d.rows;
    assert i < k ==> Before(d.rows[i], d.rows[k]);
    assert d.rows[i].id == e.id;
  }

  lemma CoveredStands(a: Window, legacy: Window, w: Window, row: Row, i: nat)
    requires Ok(a) && Ok(legacy) && !legacy.presented && Ok(w) && Grew(a, legacy) && Grew(WrittenDown(legacy), w)
    requires i < |w.entries| && w.entries[i].id == row.id
    requires w.entries[i].ordinal < WindowLengthAt(w.entries, w.length, a.head)
    ensures StillStands(WrittenDown(legacy), w, row.id)
  {
    LengthAtSplits(w, a.head, w.entries[i]);
    assert w.entries[i] in WrittenDown(legacy).entries;
  }

  lemma StandingIsCovered(a: Window, legacy: Window, w: Window, row: Row)
    requires Ok(a) && Ok(legacy) && !legacy.presented && Ok(w) && Grew(a, legacy)
    requires row in a.rows && StillStands(WrittenDown(legacy), w, row.id)
    ensures StandsBelow(w, row.id, WindowLengthAt(w.entries, w.length, a.head))
  {
    var e :| e in WrittenDown(legacy).entries && e in w.entries && e.id == row.id;
    WrittenDownSince(a, legacy, e);
    LengthAtSplits(w, a.head, e);
    var i :| 0 <= i < |w.entries| && w.entries[i] == e;
  }

  lemma LegacyCovers(branch: string, a: Window, legacy: Window, w: Window, row: Row)
    requires Ok(a) && Ok(legacy) && Ok(w) && !a.presented && !legacy.presented
    requires Grew(a, legacy) && Grew(WrittenDown(legacy), w) && Grew(a, w)
    requires row in w.rows
    ensures
      var covered := CoverTest(Some(ReadMarkOf(branch, a)), Reader(branch, w, true), None, row) == Covered;
      covered <==> row in a.rows && StillStands(WrittenDown(legacy), w, row.id)
  {
    hide InRecordOrder, InWindowOrder, StillStands, WindowLengthAt;
    var length := WindowLengthAt(w.entries, w.length, a.head);
    assert row.sequence <= a.head <==> row in a.rows;
    if row in a.rows {
      if StandsBelow(w, row.id, length) {
        var i :| 0 <= i < |w.entries| && w.entries[i].id == row.id && w.entries[i].ordinal < length;
        CoveredStands(a, legacy, w, row, i);
      }
      if StillStands(WrittenDown(legacy), w, row.id) {
        StandingIsCovered(a, legacy, w, row);
      }
    }
  }

  /**
   Once the window is written down, a mark taken while it was the record covers exactly the rows the window held then
   (those stored by the mark) that still stand where the write-down put them, whatever was presented, taken out or
   removed since.
   */
  lemma LegacyMarkCovers(branch: string, a: Window, before: seq<WindowStep>, after: seq<WindowStep>, row: Row)
    requires Ok(a) && CanRun(a, before) && !Run(a, before).presented
    requires CanRun(Step(Run(a, before), WriteDown), after)
    requires row in Run(Step(Run(a, before), WriteDown), after).rows
    ensures
      var d := Step(Run(a, before), WriteDown);
      var w := Run(d, after);
      var covered := CoverTest(Some(ReadMarkOf(branch, a)), Reader(branch, w, true), None, row) == Covered;
      covered <==> row in a.rows && StillStands(d, w, row.id)
  {
    hide Ok, CanRun;
    var legacy := Run(a, before);
    var d := Step(legacy, WriteDown);
    RunGrew(a, before);
    RunGrew(d, after);
    StepGrew(legacy, WriteDown);
    GrewOn(a, legacy, d);
    GrewOn(a, d, Run(d, after));
    LegacyCovers(branch, a, legacy, Run(d, after), row);
  }

  /** While the window is still the record, a mark covers exactly the rows that were stored by it. */
  lemma LegacyMarkInLegacy(branch: string, a: Window, steps: seq<WindowStep>, row: Row)
    requires Ok(a) && CanRun(a, steps) && !Run(a, steps).presented && row in Run(a, steps).rows
    ensures CoverTest(Some(ReadMarkOf(branch, a)), Reader(branch, Run(a, steps), true), None, row) == Covered <==>
      row in a.rows
  {
    RunGrew(a, steps);
    assert !a.presented;
    if row in a.rows { assert row.sequence <= a.head; }
  }

  /** A legacy mark covers a place by whether a cut at `through` keeps it: the shortcut by sequence never disagrees. */
  lemma CoversThrough(w: Window, row: Row, through: int, e: Entry)
    requires Ok(w) && w.presented && e in w.entries && e.id == row.id && row.sequence <= e.since
    ensures LegacyCover(Reader("", w, true), row, through) == Covered <==> e.since <= through
  {
    LengthAtSplits(w, through, e);
    var length := WindowLengthAt(w.entries, w.length, through);
    var i :| 0 <= i < |w.entries| && w.entries[i] == e;
    if StandsBelow(w, row.id, length) {
      var j :| 0 <= j < |w.entries| && w.entries[j].id == row.id && w.entries[j].ordinal < length;
      OnePlace(w, w.entries[j], e);
    }
  }

  // --------------------------------------------------------------------------
  // Later marks
  // --------------------------------------------------------------------------

  /** A mark taken later covers every row an earlier one still covers, whichever modes the two were taken in. */
  lemma LaterMarkCoversMore(branch: string, a: Window, first: seq<WindowStep>, second: seq<WindowStep>, row: Row)
    requires Ok(a) && CanRun(a, first) && CanRun(Run(a, first), second)
    ensures
      var b := Run(a, first);
      var now := Reader(branch, Run(b, second), true);
      CoverTest(Some(ReadMarkOf(branch, a)), now, None, row) == Covered && row in now.window.rows ==>
        CoverTest(Some(ReadMarkOf(branch, b)), now, None, row) == Covered
  {
    var b := Run(a, first);
    var w := Run(b, second);
    RunGrew(a, first);
    RunGrew(b, second);
    if w.presented && !a.presented && row in w.rows && row.sequence <= a.head {
      var length := WindowLengthAt(w.entries, w.length, a.head);
      if StandsBelow(w, row.id, length) {
        var i :| 0 <= i < |w.entries| && w.entries[i].id == row.id && w.entries[i].ordinal < length;
        var e := w.entries[i];
        LengthAtSplits(w, a.head, e);
        LengthAtSplits(w, b.head, e);
        if b.presented {
          assert e in b.entries;
          var j :| 0 <= j < |b.entries| && b.entries[j] == e;
        }
      }
    }
  }
}
