/**
 The contract of the context manager that the presentation index and the read
 marks are written against: a record that grows, a window over it kept by
 ordinals that are fresh and never move, and the index length, exclusive and
 only growing on a branch.
 */
module Windows {
  import opened Options
  import opened Audience

  /**
   One row's place in a window. `since` is its branch sequence: the sequence a cut has to reach to keep the row there.
   */
  datatype Entry = Entry(id: nat, ordinal: nat, since: nat)

  /**
   One reader's window on one branch. `rows` is its record, and no row stored in it later takes an id below `ids` or a
   body number below `bodies`. While not `presented`, the window is the record itself.
   */
  datatype Window = Window(
    rows: seq<Row>, ids: nat, bodies: nat, head: nat, presented: bool, entries: seq<Entry>, length: nat,
      undone: set<nat>)

  function Ids(entries: seq<Entry>): set<nat> {
    set i | 0 <= i < |entries| :: entries[i].id
  }

  function RowIds(rows: seq<Row>): set<nat> {
    set i | 0 <= i < |rows| :: rows[i].id
  }

  predicate Before(a: Row, b: Row) {
    a.sequence < b.sequence && a.id < b.id && a.body <= b.body
  }

  /** Rows in record order: sequences and ids strictly increase, and bodies are numbered as they were stored. */
  ghost predicate InRecordOrder(rows: seq<Row>) {
    forall i, j {:trigger Before(rows[i], rows[j])} | 0 <= i < j < |rows| :: Before(rows[i], rows[j])
  }

  predicate Ahead(a: Entry, b: Entry) {
    a.ordinal < b.ordinal && a.since <= b.since && a.id != b.id
  }

  ghost predicate InWindowOrder(entries: seq<Entry>) {
    forall i, j {:trigger Ahead(entries[i], entries[j])} | 0 <= i < j < |entries| :: Ahead(entries[i], entries[j])
  }

  ghost predicate Ok(w: Window) {
    && InRecordOrder(w.rows)
    && (forall i | 0 <= i < |w.rows| ::
      w.rows[i].sequence <= w.head && w.rows[i].body < w.bodies && w.rows[i].id < w.ids)
    && InWindowOrder(w.entries)
    && (forall i | 0 <= i < |w.entries| :: w.entries[i].ordinal < w.length && w.entries[i].since <= w.head)
    && Ids(w.entries) <= RowIds(w.rows)
    && w.undone !! Ids(w.entries)
    && (!w.presented ==> w.entries == [] && w.length == 0 && w.undone == {})
  }

  /** getUnpresentedMessages over `rows`: those neither in the window nor undone. */
  function OutRows(rows: seq<Row>, gone: set<nat>): (out: seq<Row>)
    ensures forall i | 0 <= i < |out| :: out[i] in rows && out[i].id !in gone
    ensures forall r | r in rows && r.id !in gone :: r in out
  {
    if rows == [] then []
    else (if rows[0].id in gone then [] else [rows[0]]) + OutRows(rows[1..], gone)
  }

  function Unpresented(w: Window): seq<Row> {
    OutRows(w.rows, Ids(w.entries) + w.undone)
  }

  lemma {:induction false} OutRowsInOrder(rows: seq<Row>, gone: set<nat>)
    requires InRecordOrder(rows)
    ensures InRecordOrder(OutRows(rows, gone))
  {
    if rows != [] {
      OutRowsInOrder(rows[1..], gone);
      var out := OutRows(rows[1..], gone);
      forall i | 0 <= i < |out| ensures Before(rows[0], out[i]) {
        var k :| 0 <= k < |rows[1..]| && rows[1..][k] == out[i];
        assert Before(rows[0], rows[k + 1]);
      }
    }
  }

  lemma {:induction false} OutRowsAppend(a: seq<Row>, b: seq<Row>, gone: set<nat>)
    ensures OutRows(a + b, gone) == OutRows(a, gone) + OutRows(b, gone)
  {
    if a == [] {
      assert a + b == b;
    } else {
      assert (a + b)[1..] == a[1..] + b;
      OutRowsAppend(a[1..], b, gone);
    }
  }

  // --------------------------------------------------------------------------
  // What a manager does
  // --------------------------------------------------------------------------

  /** One body's rows stored at the end of the record. */
  ghost predicate Storable(w: Window, body: seq<Row>) {
    && body != []
    && InRecordOrder(body)
    && (forall i | 0 <= i < |body| :: w.head < body[i].sequence && body[i].body == w.bodies)
    && (forall i | 0 <= i < |body| :: w.ids <= body[i].id)
    && (forall i | 0 <= i < |body| :: body[i].id !in w.undone)
  }

  function Stored(w: Window, body: seq<Row>): Window
    requires body != []
  {
    w.(rows := w.rows + body, ids := body[|body| - 1].id + 1, bodies := w.bodies + 1, head := body[|body| - 1].sequence)
  }

  /** Another write of the store's: the head moves, the window doesn't. */
  function Touched(w: Window): Window {
    w.(head := w.head + 1)
  }

  /** The sequence of the last shard of the body row `i` belongs to. */
  function BodyEnd(rows: seq<Row>, i: nat): (s: nat)
    requires i < |rows|
    ensures InRecordOrder(rows) ==> rows[i].sequence <= s
    decreases |rows| - i
  {
    assert InRecordOrder(rows) && i + 1 < |rows| ==> Before(rows[i], rows[i + 1]);
    if i + 1 < |rows| && rows[i + 1].body == rows[i].body then BodyEnd(rows, i + 1) else rows[i].sequence
  }

  /** presentRows([]) in legacy mode: the record written down as the window, in record order. */
  function WrittenDown(w: Window): Window
    requires !w.presented
  {
    w.(presented := true, head := w.head + 1, length := |w.rows|,
       entries := seq(|w.rows|, i requires 0 <= i < |w.rows| => Entry(w.rows[i].id, i, BodyEnd(w.rows, i))))
  }

  ghost predicate Presentable(w: Window, ids: seq<nat>) {
    && w.presented
    && (forall i, j | 0 <= i < j < |ids| :: ids[i] != ids[j])
    && (forall i | 0 <= i < |ids| :: ids[i] in RowIds(w.rows) && ids[i] !in Ids(w.entries))
  }

  /** presentRows: each row takes the next ordinal, all of them by one write. */
  function Presented(w: Window, ids: seq<nat>): Window {
    w.(head := w.head + 1, length := w.length + |ids|, undone := w.undone - (set i | 0 <= i < |ids| :: ids[i]),
       entries := w.entries + seq(|ids|, i requires 0 <= i < |ids| => Entry(ids[i], w.length + i, w.head + 1)))
  }

  function Without(entries: seq<Entry>, ids: set<nat>): (out: seq<Entry>)
    ensures forall i | 0 <= i < |out| :: out[i] in entries && out[i].id !in ids
    ensures forall e | e in entries && e.id !in ids :: e in out
  {
    if entries == [] then []
    else (if entries[0].id in ids then [] else [entries[0]]) + Without(entries[1..], ids)
  }

  /** retractRows: the rows leave their places and no other ordinal moves; the index may take `grow` places for it. */
  function Retracted(w: Window, ids: set<nat>, undone: bool, grow: nat): Window {
    w.(head := w.head + 1, length := w.length + grow, entries := Without(w.entries, ids),
       undone := if undone then w.undone + (Ids(w.entries) * ids) else w.undone)
  }

  /** Rows removed from the record, and from the window with it. */
  function Removed(w: Window, ids: set<nat>): Window {
    w.(head := w.head + 1, rows := OutRows(w.rows, ids), entries := Without(w.entries, ids))
  }

  lemma {:induction false} WithoutInOrder(entries: seq<Entry>, ids: set<nat>)
    requires InWindowOrder(entries)
    ensures InWindowOrder(Without(entries, ids))
  {
    if entries != [] {
      WithoutInOrder(entries[1..], ids);
      var out := Without(entries[1..], ids);
      forall i | 0 <= i < |out| ensures Ahead(entries[0], out[i]) {
        var k :| 0 <= k < |entries[1..]| && entries[1..][k] == out[i];
        assert Ahead(entries[0], entries[k + 1]);
      }
    }
  }

  lemma BodyEndGrows(rows: seq<Row>, i: nat, j: nat)
    requires InRecordOrder(rows) && i <= j < |rows|
    ensures BodyEnd(rows, i) <= BodyEnd(rows, j)
    ensures BodyEnd(rows, j) <= rows[|rows| - 1].sequence
    decreases |rows| - i
  {
    if i + 1 < |rows| {
      assert Before(rows[i], rows[i + 1]);
      if i < j {
        BodyEndGrows(rows, i + 1, j);
      } else {
        BodyEndGrows(rows, i + 1, i + 1);
      }
    }
  }

  /** The body of row `i` ends at `sequence`: that of its last row, every later row being of a later body. */
  ghost predicate EndsBodyAt(rows: seq<Row>, i: nat, sequence: nat)
    requires i < |rows|
  {
    exists j | i <= j < |rows| :: rows[j].body == rows[i].body && rows[j].sequence == sequence
      && forall k | j < k < |rows| :: rows[i].body < rows[k].body
  }

  lemma {:induction false} BodyEndIs(rows: seq<Row>, i: nat)
    requires InRecordOrder(rows) && i < |rows|
    ensures EndsBodyAt(rows, i, BodyEnd(rows, i))
    decreases |rows| - i
  {
    if i + 1 < |rows| && rows[i + 1].body == rows[i].body {
      BodyEndIs(rows, i + 1);
    } else {
      forall k | i < k < |rows| ensures rows[i].body < rows[k].body {
        assert Before(rows[i], rows[i + 1]);
        if i + 1 < k { assert Before(rows[i + 1], rows[k]); }
      }
    }
  }

  lemma StoredOk(w: Window, body: seq<Row>)
    requires Ok(w) && Storable(w, body)
    ensures Ok(Stored(w, body))
  {
    var v := Stored(w, body);
    forall x | x in RowIds(w.rows) ensures x in RowIds(v.rows) {
      var i :| 0 <= i < |w.rows| && w.rows[i].id == x;
      assert v.rows[i].id == x;
    }
    forall i, j | 0 <= i < j < |v.rows| ensures Before(v.rows[i], v.rows[j]) {
      if j < |w.rows| {
        assert Before(w.rows[i], w.rows[j]);
      } else if i >= |w.rows| {
        assert Before(body[i - |w.rows|], body[j - |w.rows|]);
      }
    }
    assert forall i | 0 <= i < |body| :: i == |body| - 1 || Before(body[i], body[|body| - 1]);
  }

  lemma WrittenDownOk(w: Window)
    requires Ok(w) && !w.presented
    ensures Ok(WrittenDown(w)) && Ids(WrittenDown(w).entries) == RowIds(w.rows)
  {
    var v := WrittenDown(w);
    forall i, j | 0 <= i < j < |v.entries| ensures Ahead(v.entries[i], v.entries[j]) {
      BodyEndGrows(w.rows, i, j);
      assert Before(w.rows[i], w.rows[j]);
    }
    forall i | 0 <= i < |v.entries| ensures v.entries[i].since <= v.head {
      BodyEndGrows(w.rows, i, i);
    }
    EntriesListRows(w.rows, v.entries);
  }

  lemma EntriesListRows(rows: seq<Row>, entries: seq<Entry>)
    requires |entries| == |rows| && forall i | 0 <= i < |rows| :: entries[i].id == rows[i].id
    ensures Ids(entries) == RowIds(rows)
  {
    forall i | 0 <= i < |rows| ensures rows[i].id in Ids(entries) { assert entries[i].id in Ids(entries); }
  }

  /** Written down, each row stands at its own place in the record, kept by a cut that reaches its body's end. */
  lemma WrittenDownAt(w: Window, i: nat)
    requires Ok(w) && !w.presented && i < |w.rows|
    ensures var entries := WrittenDown(w).entries;
      && |entries| == |w.rows| && entries[i].id == w.rows[i].id && entries[i].ordinal == i
      && EndsBodyAt(w.rows, i, entries[i].since)
  {
    BodyEndIs(w.rows, i);
  }

  lemma PresentedOk(w: Window, ids: seq<nat>)
    requires Ok(w) && Presentable(w, ids)
    ensures Ok(Presented(w, ids))
    ensures Ids(Presented(w, ids).entries) == Ids(w.entries) + set i | 0 <= i < |ids| :: ids[i]
  {
    var v := Presented(w, ids);
    PresentedIds(w, ids);
    forall i, j | 0 <= i < j < |v.entries| ensures Ahead(v.entries[i], v.entries[j]) {
      if j < |w.entries| {
        assert Ahead(w.entries[i], w.entries[j]);
      } else if i < |w.entries| {
        assert w.entries[i].id in Ids(w.entries) && v.entries[j].id == ids[j - |w.entries|];
      } else {
        assert v.entries[i].id == ids[i - |w.entries|] && v.entries[j].id == ids[j - |w.entries|];
      }
    }
  }

  lemma PresentedIds(w: Window, ids: seq<nat>)
    ensures Ids(Presented(w, ids).entries) == Ids(w.entries) + set i | 0 <= i < |ids| :: ids[i]
  {
    var v := Presented(w, ids);
    forall x | x in Ids(w.entries) ensures x in Ids(v.entries) {
      var i :| 0 <= i < |w.entries| && w.entries[i].id == x;
      assert v.entries[i].id == x;
    }
    forall i | 0 <= i < |ids| ensures ids[i] in Ids(v.entries) {
      assert v.entries[|w.entries| + i].id == ids[i];
    }
  }

  lemma RetractedOk(w: Window, ids: set<nat>, undone: bool, grow: nat)
    requires Ok(w) && w.presented
    ensures Ok(Retracted(w, ids, undone, grow))
    ensures Ids(Retracted(w, ids, undone, grow).entries) == Ids(w.entries) - ids
  {
    WithoutInOrder(w.entries, ids);
    WithoutIds(w.entries, ids);
  }

  lemma WithoutIds(entries: seq<Entry>, ids: set<nat>)
    ensures Ids(Without(entries, ids)) == Ids(entries) - ids
  {
    var out := Without(entries, ids);
    forall x | x in Ids(entries) - ids ensures x in Ids(out) {
      var i :| 0 <= i < |entries| && entries[i].id == x;
      assert entries[i] in out;
      var j :| 0 <= j < |out| && out[j] == entries[i];
      assert out[j].id == x;
    }
    forall x | x in Ids(out) ensures x in Ids(entries) - ids {
      var j :| 0 <= j < |out| && out[j].id == x;
      var i :| 0 <= i < |entries| && entries[i] == out[j];
      assert entries[i].id == x;
    }
  }

  lemma RemovedOk(w: Window, ids: set<nat>)
    requires Ok(w)
    ensures Ok(Removed(w, ids))
    ensures Ids(Removed(w, ids).entries) == Ids(w.entries) - ids
  {
    WithoutInOrder(w.entries, ids);
    WithoutIds(w.entries, ids);
    OutRowsInOrder(w.rows, ids);
    var v := Removed(w, ids);
    forall x | x in Ids(v.entries) ensures x in RowIds(v.rows) {
      var i :| 0 <= i < |w.rows| && w.rows[i].id == x;
      assert w.rows[i] in v.rows;
      var j :| 0 <= j < |v.rows| && v.rows[j] == w.rows[i];
      assert v.rows[j].id == x;
    }
    assert v.entries == [] || w.presented;
  }
}
