/**
 The scan of a reader's unpresented rows (AgentPresentation.pending), as a
 function of the listing it walks, and why it may start after a memo's mark.
 */
module PendingScan {
  import opened Options
  import opened Audience
  import opened Windows

  /** What a scan weighs by: the reader, whether it takes arrivals, and the arrivals a rollback holds out of it. */
  datatype Weigh = Weigh(facts: ReaderFacts, arrivals: bool, held: set<nat>)

  /** How many rows the first body of a listing has there: its run of rows with one body number (continuesBody). */
  function GroupLen(u: seq<Row>): (n: nat)
    requires u != []
    ensures 1 <= n <= |u|
  {
    if |u| == 1 || u[0].body != u[1].body then 1 else 1 + GroupLen(u[1..])
  }

  predicate IsHeld(body: seq<Row>, w: Weigh)
    requires body != []
  {
    BearingOf(body[0], w.facts) == Arrival && exists i | 0 <= i < |body| :: body[i].id in w.held
  }

  /** A body the reader is owed: its own, or an arrival no hold keeps out. A body is weighed by its first row. */
  predicate Owed(body: seq<Row>, w: Weigh)
    requires body != []
  {
    BearingOf(body[0], w.facts) != Elsewhere && !IsHeld(body, w)
  }

  /** A body this scan returns. */
  predicate Taken(body: seq<Row>, w: Weigh)
    requires body != []
  {
    Owed(body, w) && (BearingOf(body[0], w.facts) == Arrival ==> w.arrivals)
  }

  /** What the first body of a listing adds to a scan. */
  function First(u: seq<Row>, w: Weigh): seq<seq<Row>>
    requires u != []
  {
    if Taken(u[..GroupLen(u)], w) then [u[..GroupLen(u)]] else []
  }

  /** The bodies a scan of the whole listing `u` returns, in record order. */
  function Scan(u: seq<Row>, w: Weigh): seq<seq<Row>> {
    if u == [] then []
    else
      First(u, w) + Scan(u[GroupLen(u)..], w)
  }

  function FirstOwed(u: seq<Row>, w: Weigh): Option<nat> {
    if u == [] then None
    else
      var n := GroupLen(u);
      if Owed(u[..n], w) then Some(u[0].sequence) else FirstOwed(u[n..], w)
  }

  /** getUnpresentedMessages({ afterSequence: from }) of a listing in record order. */
  function After(u: seq<Row>, from: int): seq<Row> {
    if u == [] || u[0].sequence > from then u else After(u[1..], from)
  }

  function Upto(u: seq<Row>, from: int): seq<Row> {
    if u == [] || u[0].sequence > from then [] else [u[0]] + Upto(u[1..], from)
  }

  function Max(a: int, b: int): int { if a < b then b else a }

  /** The mark a scan of `u` from `from` leaves: just before the first body owed, or past every row it walked. */
  function Next(u: seq<Row>, from: int, w: Weigh): int {
    match FirstOwed(u, w)
    case Some(s) => Max(from, s - 1)
    case None => if u == [] then from else Max(from, u[|u| - 1].sequence)
  }

  // --------------------------------------------------------------------------
  // What a mark says
  // --------------------------------------------------------------------------

  predicate Passable(r: Row, facts: ReaderFacts, held: set<nat>) {
    BearingOf(r, facts) == Elsewhere || (BearingOf(r, facts) == Arrival && r.id in held)
  }

  /** Every row at or below the mark is nothing to a scan that leaves `held` out, and the mark cuts no body in two. */
  ghost predicate Passed(u: seq<Row>, from: int, facts: ReaderFacts, held: set<nat>) {
    && (forall i | 0 <= i < |u| && u[i].sequence <= from :: Passable(u[i], facts, held))
    && CutsNoBody(u, from)
  }

  predicate Apart(a: Row, b: Row, from: int) {
    a.sequence <= from < b.sequence ==> a.body < b.body
  }

  ghost predicate CutsNoBody(u: seq<Row>, from: int) {
    forall i, j {:trigger Apart(u[i], u[j], from)} | 0 <= i < j < |u| :: Apart(u[i], u[j], from)
  }

  /** A body's shards were stored together with one stamp, so they are one thing to the reader and to a hold. */
  ghost predicate Alike(u: seq<Row>, facts: ReaderFacts, held: set<nat>) {
    forall i, j {:trigger OneThing(u[i], u[j], facts, held)} | 0 <= i < j < |u| :: OneThing(u[i], u[j], facts, held)
  }

  predicate OneThing(a: Row, b: Row, facts: ReaderFacts, held: set<nat>) {
    a.body == b.body ==> BearingOf(a, facts) == BearingOf(b, facts) && (a.id in held <==> b.id in held)
  }

  /** Whether `held` names a shard of a body, among the rows of `u`. */
  predicate Names(u: seq<Row>, body: nat, held: set<nat>) {
    exists i | 0 <= i < |u| :: u[i].body == body && u[i].id in held
  }

  /** The rows of the bodies that `held` names a shard of, each body whole. */
  function NamedWhole(u: seq<Row>, held: set<nat>): set<nat> {
    set i | 0 <= i < |u| && Names(u, u[i].body, held) :: u[i].id
  }

  lemma {:induction false} GroupIsOneBody(u: seq<Row>)
    requires u != []
    ensures forall i | 0 <= i < GroupLen(u) :: u[i].body == u[0].body
    ensures GroupLen(u) < |u| ==> u[GroupLen(u)].body != u[0].body
  {
    if |u| > 1 && u[0].body == u[1].body {
      GroupIsOneBody(u[1..]);
      forall i | 0 <= i < GroupLen(u) ensures u[i].body == u[0].body {
        if i > 0 { assert u[i] == u[1..][i - 1]; }
      }
    }
  }

  lemma {:induction false} GroupLenIs(u: seq<Row>, n: nat)
    requires 1 <= n <= |u|
    requires forall i | 0 <= i < n :: u[i].body == u[0].body
    requires n < |u| ==> u[n].body != u[0].body
    ensures GroupLen(u) == n
  {
    if n > 1 {
      assert u[1].body == u[0].body;
      forall i | 0 <= i < n - 1 ensures u[1..][i].body == u[1..][0].body { assert u[1..][i] == u[i + 1]; }
      if n < |u| { assert u[1..][n - 1] == u[n]; }
      GroupLenIs(u[1..], n - 1);
    }
  }

  lemma GroupOfTwoParts(a: seq<Row>, b: seq<Row>)
    requires a != [] && (b != [] ==> a[|a| - 1].body != b[0].body)
    ensures GroupLen(a + b) == GroupLen(a)
  {
    var n := GroupLen(a);
    GroupIsOneBody(a);
    if n < |a| { assert (a + b)[n] == a[n]; }
      else if b != [] { assert (a + b)[n] == b[0] && a[n - 1].body == a[0].body; }
    GroupLenIs(a + b, n);
  }

  lemma Associative<T>(x: seq<T>, y: seq<T>, z: seq<T>)
    ensures x + (y + z) == (x + y) + z
  {
  }

  lemma {:induction false} ScanOfTwoParts(a: seq<Row>, b: seq<Row>, w: Weigh)
    requires a != [] && b != [] ==> a[|a| - 1].body != b[0].body
    ensures Scan(a + b, w) == Scan(a, w) + Scan(b, w)
    decreases |a|
  {
    hide Taken;
    if a == [] {
      assert a + b == b;
    } else {
      var n := GroupLen(a);
      GroupOfTwoParts(a, b);
      assert First(a + b, w) == First(a, w) by { assert (a + b)[..n] == a[..n]; }
      assert Scan((a + b)[n..], w) == Scan(a[n..], w) + Scan(b, w) by {
        assert (a + b)[n..] == a[n..] + b;
        ScanOfTwoParts(a[n..], b, w);
      }
      Associative(First(a, w), Scan(a[n..], w), Scan(b, w));
    }
  }

  lemma CutFirst(u: seq<Row>, from: int)
    requires u != [] && u[0].sequence <= from && u[1..] == Upto(u[1..], from) + After(u[1..], from)
    ensures u == Upto(u, from) + After(u, from) && Upto(u, from) == [u[0]] + Upto(u[1..], from)
      && After(u, from) == After(u[1..], from)
  {
    assert u == [u[0]] + u[1..];
    Associative([u[0]], Upto(u[1..], from), After(u[1..], from));
  }

  lemma {:induction false} CutAt(u: seq<Row>, from: int)
    requires InRecordOrder(u)
    ensures u == Upto(u, from) + After(u, from)
    ensures forall i | 0 <= i < |Upto(u, from)| :: Upto(u, from)[i].sequence <= from
    ensures forall i | 0 <= i < |After(u, from)| :: After(u, from)[i].sequence > from
  {
    if u != [] {
      if u[0].sequence > from {
        forall i | 0 < i < |u| ensures u[i].sequence > from { assert Before(u[0], u[i]); }
      } else {
        RestInOrder(u, 1);
        hide InRecordOrder;
        CutAt(u[1..], from);
        CutFirst(u, from);
      }
    }
  }

  /**
   A scan that starts after `from` returns what a scan of the whole listing does exactly when the rows at or below
   it hold nothing to take, given that the cut falls between bodies.
   */
  lemma ScanAfterIsWholeScan(u: seq<Row>, from: int, w: Weigh)
    requires InRecordOrder(u) && CutsNoBody(u, from)
    ensures Scan(After(u, from), w) == Scan(u, w) <==> Scan(Upto(u, from), w) == []
  {
    CutAt(u, from);
    var a, b := Upto(u, from), After(u, from);
    if a != [] && b != [] {
      assert a[|a| - 1] == u[|a| - 1] && b[0] == u[|a|];
      assert Apart(u[|a| - 1], u[|a|], from);
    }
    ScanOfTwoParts(a, b, w);
    if Scan(b, w) == Scan(u, w) {
      assert |Scan(u, w)| == |Scan(a, w)| + |Scan(b, w)|;
    }
  }

  // --------------------------------------------------------------------------
  // The mark a scan leaves
  // --------------------------------------------------------------------------

  lemma UnowedIsPassable(v: seq<Row>, w: Weigh)
    requires v != [] && Alike(v, w.facts, w.held) && !Owed(v[..GroupLen(v)], w)
    ensures forall i | 0 <= i < GroupLen(v) :: Passable(v[i], w.facts, w.held)
  {
    hide BearingOf;
    var n := GroupLen(v);
    GroupIsOneBody(v);
    forall i | 0 <= i < n ensures Passable(v[i], w.facts, w.held) {
      if i > 0 { assert OneThing(v[0], v[i], w.facts, w.held); }
      if IsHeld(v[..n], w) {
        var k :| 0 <= k < n && v[..n][k].id in w.held;
        if k > 0 { assert OneThing(v[0], v[k], w.facts, w.held); }
      }
    }
  }

  /** Every row of `v` before sequence `s` is passable, and is of an earlier body than those from `s` on. */
  ghost predicate PassedBefore(v: seq<Row>, s: int, w: Weigh) {
    && (forall i | 0 <= i < |v| && v[i].sequence < s :: Passable(v[i], w.facts, w.held))
    && CutsNoBody(v, s - 1)
  }

  lemma RestInOrder(v: seq<Row>, n: nat)
    requires InRecordOrder(v) && n <= |v|
    ensures InRecordOrder(v[n..])
  {
    forall i, j | 0 <= i < j < |v[n..]| ensures Before(v[n..][i], v[n..][j]) { assert Before(v[n + i], v[n + j]); }
  }

  lemma RestAlike(v: seq<Row>, n: nat, facts: ReaderFacts, held: set<nat>)
    requires Alike(v, facts, held) && n <= |v|
    ensures Alike(v[n..], facts, held)
  {
    hide BearingOf;
    var rest := v[n..];
    forall i, j | 0 <= i < j < |rest| ensures OneThing(rest[i], rest[j], facts, held) {
      assert OneThing(v[n + i], v[n + j], facts, held);
    }
  }

  lemma {:induction false} PassedBeforeFirstOwed(v: seq<Row>, w: Weigh)
    requires InRecordOrder(v) && Alike(v, w.facts, w.held)
    ensures FirstOwed(v, w).None? ==> forall i | 0 <= i < |v| :: Passable(v[i], w.facts, w.held)
    ensures FirstOwed(v, w).Some? ==> PassedBefore(v, FirstOwed(v, w).value, w)
    ensures FirstOwed(v, w).Some? ==> exists i :: 0 <= i < |v| && v[i].sequence == FirstOwed(v, w).value
    decreases |v|
  {
    hide BearingOf, Owed, Passable;
    if v != [] {
      var n := GroupLen(v);
      if Owed(v[..n], w) {
        forall i | 0 < i < |v| ensures v[0].sequence < v[i].sequence { assert Before(v[0], v[i]); }
      } else {
        UnowedIsPassable(v, w);
        RestInOrder(v, n);
        RestAlike(v, n, w.facts, w.held);
        PassedBeforeFirstOwed(v[n..], w);
        PassedBeforeLater(v, n, FirstOwed(v, w), w);
      }
    }
  }

  lemma PassedBeforeLater(v: seq<Row>, n: nat, s: Option<nat>, w: Weigh)
    requires InRecordOrder(v) && v != [] && n == GroupLen(v)
    requires forall i | 0 <= i < n :: Passable(v[i], w.facts, w.held)
    requires s.None? ==> forall i | 0 <= i < |v[n..]| :: Passable(v[n..][i], w.facts, w.held)
    requires s.Some? ==> PassedBefore(v[n..], s.value, w) && exists i ::
      0 <= i < |v[n..]| && v[n..][i].sequence == s.value
    ensures s.None? ==> forall i | 0 <= i < |v| :: Passable(v[i], w.facts, w.held)
    ensures s.Some? ==> PassedBefore(v, s.value, w) && exists i :: 0 <= i < |v| && v[i].sequence == s.value
  {
    hide Passable;
    var rest := v[n..];
    forall i | n <= i < |v| && (s.None? || v[i].sequence < s.value) ensures Passable(v[i], w.facts, w.held) {
      assert v[i] == rest[i - n];
    }
    if s.Some? {
      var k :| 0 <= k < |rest| && rest[k].sequence == s.value;
      assert v[n + k] == rest[k];
      forall i, j | 0 <= i < j < |v| ensures Apart(v[i], v[j], s.value - 1) {
        if v[i].sequence < s.value <= v[j].sequence {
          BodiesApart(v, n, n + k, i, j);
          if i >= n { assert Apart(rest[i - n], rest[j - n], s.value - 1); }
        }
      }
    }
  }

  /** A row at or past one of a later body lies past the first body too. */
  lemma BodiesApart(v: seq<Row>, n: nat, k: nat, i: nat, j: nat)
    requires InRecordOrder(v) && v != [] && n == GroupLen(v) <= k < |v|
    requires i < j < |v| && v[k].sequence <= v[j].sequence
    ensures n <= j
    ensures i < n ==> v[i].body < v[j].body
  {
    GroupIsOneBody(v);
    assert j < k ==> Before(v[j], v[k]);
    if i < n {
      assert Before(v[i], v[n]);
      if n < j { assert Before(v[n], v[j]); }
    }
  }

  lemma NextFromRest(u: seq<Row>, k: nat, from: int, next: int, w: Weigh)
    requires k <= |u| && from <= next
    requires forall i | 0 <= i < k :: u[i].sequence <= from
    requires forall i | k <= i < |u| :: from < u[i].sequence
    requires Passed(u, from, w.facts, w.held) && PassedBefore(u[k..], next + 1, w)
    ensures Passed(u, next, w.facts, w.held)
  {
    hide Passable;
    forall i | 0 <= i < |u| && u[i].sequence <= next ensures Passable(u[i], w.facts, w.held) {
      if i >= k { assert u[i] == u[k..][i - k]; }
    }
    forall i, j | 0 <= i < j < |u| ensures Apart(u[i], u[j], next) {
      if i >= k { assert Apart(u[k..][i - k], u[k..][j - k], next); } else { assert Apart(u[i], u[j], from); }
    }
  }

  lemma NextPassesRest(v: seq<Row>, from: int, w: Weigh)
    requires InRecordOrder(v) && Alike(v, w.facts, w.held)
    requires forall i | 0 <= i < |v| :: from < v[i].sequence
    ensures PassedBefore(v, Next(v, from, w) + 1, w)
    ensures from <= Next(v, from, w)
    ensures Next(v, from, w) == from || exists i :: 0 <= i < |v| && Next(v, from, w) <= v[i].sequence
  {
    hide BearingOf, Passable;
    PassedBeforeFirstOwed(v, w);
    if FirstOwed(v, w).None? && v != [] {
      var last := |v| - 1;
      forall i | 0 <= i < |v| ensures v[i].sequence <= v[last].sequence {
        if i < last { assert Before(v[i], v[last]); }
      }
    }
  }

  lemma {:induction false} FirstOwedStops(v: seq<Row>, w: Weigh)
    ensures FirstOwed(v, w).Some? ==> exists i ::
      0 <= i < |v| && v[i].sequence == FirstOwed(v, w).value && !Passable(v[i], w.facts, w.held)
    decreases |v|
  {
    hide BearingOf;
    if v != [] && !Owed(v[..GroupLen(v)], w) {
      var rest := v[GroupLen(v)..];
      FirstOwedStops(rest, w);
      if FirstOwed(rest, w).Some? {
        var i :| 0 <= i < |rest| && rest[i].sequence == FirstOwed(rest, w).value
          && !Passable(rest[i], w.facts, w.held);
        assert v[GroupLen(v) + i] == rest[i];
      }
    }
  }

  /** And no mark that accounts for what it passes goes further: every row such a one passes, this one does. */
  lemma NextIsFarthest(v: seq<Row>, from: int, w: Weigh, mark: int)
    requires InRecordOrder(v) && Passed(v, mark, w.facts, w.held)
    ensures forall i | 0 <= i < |v| && v[i].sequence <= mark :: v[i].sequence <= Next(v, from, w)
  {
    hide BearingOf, Passable;
    FirstOwedStops(v, w);
    forall i | 0 <= i < |v| && v[i].sequence <= mark ensures v[i].sequence <= Next(v, from, w) {
      if FirstOwed(v, w).None? {
        assert i < |v| - 1 ==> Before(v[i], v[|v| - 1]);
      }
    }
  }

  lemma PassedBeforeWider(v: seq<Row>, s: int, w: Weigh, wide: set<nat>)
    requires PassedBefore(v, s, w) && forall i | 0 <= i < |v| :: v[i].id in w.held ==> v[i].id in wide
    ensures PassedBefore(v, s, w.(held := wide))
  {
    hide BearingOf, CutsNoBody;
  }

  lemma AfterIs(u: seq<Row>, from: int) returns (k: nat)
    requires InRecordOrder(u)
    ensures k <= |u| && After(u, from) == u[k..]
    ensures forall i | 0 <= i < |u| :: i < k <==> u[i].sequence <= from
  {
    k := |Upto(u, from)|;
    CutAt(u, from);
    forall i | 0 <= i < |u| ensures i < k <==> u[i].sequence <= from {
      if i < k { assert u[i] == Upto(u, from)[i]; } else { assert u[i] == After(u, from)[i - k]; }
    }
  }

  /**
   The mark a scan leaves is as good as the one it started from: `wide`, which every body the scan's hold names a shard
   of lies in whole, still accounts for what it passes.
   */
  lemma NextIsPassed(u: seq<Row>, from: int, w: Weigh, wide: set<nat>)
    requires InRecordOrder(u) && Alike(u, w.facts, {}) && Passed(u, from, w.facts, wide)
    requires forall r | r in u && Names(u, r.body, w.held) :: r.id in wide
    ensures Passed(u, Next(After(u, from), from, w), w.facts, wide)
    ensures Next(After(u, from), from, w) >= from
    ensures Next(After(u, from), from, w) == from || exists i ::
      0 <= i < |u| && Next(After(u, from), from, w) <= u[i].sequence
  {
    hide BearingOf, Passable, FirstOwed, PassedBefore, Passed, Alike, InRecordOrder, Names, NamedWhole, Upto, After;
    var v := After(u, from);
    var k := AfterIs(u, from);
    RestInOrder(u, k);
    RestAlike(u, k, w.facts, {});
    forall i | 0 <= i < |v| ensures v[i] == u[k + i] && from < v[i].sequence { }
    var whole := w.(held := NamedWhole(v, w.held));
    NamedWholeAlike(v, w.facts, w.held);
    NamedWholeScans(v, w);
    NextPassesRest(v, from, whole);
    forall i | 0 <= i < |v| && v[i].id in whole.held ensures v[i].id in wide { NamedInMore(v, u, w.held, v[i]); }
    PassedBeforeWider(v, Next(v, from, w) + 1, whole, wide);
    NextFromRest(u, k, from, Next(v, from, w), w.(held := wide));
  }

  // --------------------------------------------------------------------------
  // What a scan returns, row by row
  // --------------------------------------------------------------------------

  function Flatten(bodies: seq<seq<Row>>): seq<Row> {
    if bodies == [] then [] else bodies[0] + Flatten(bodies[1..])
  }

  predicate RowTaken(r: Row, w: Weigh) {
    && BearingOf(r, w.facts) != Elsewhere
    && (BearingOf(r, w.facts) == Arrival ==> w.arrivals && r.id !in w.held)
  }

  function TakenRows(u: seq<Row>, w: Weigh): seq<Row> {
    if u == [] then [] else (if RowTaken(u[0], w) then [u[0]] else []) + TakenRows(u[1..], w)
  }

  lemma {:induction false} TakenRowsAre(u: seq<Row>, w: Weigh)
    ensures forall r :: r in TakenRows(u, w) <==> r in u && RowTaken(r, w)
  {
    hide RowTaken;
    if u != [] {
      TakenRowsAre(u[1..], w);
      assert u == [u[0]] + u[1..];
    }
  }

  lemma {:induction false} TakenRowsInOrder(u: seq<Row>, w: Weigh)
    requires InRecordOrder(u)
    ensures InRecordOrder(TakenRows(u, w))
    ensures forall i | 0 <= i < |TakenRows(u, w)| :: TakenRows(u, w)[i] in u && RowTaken(TakenRows(u, w)[i], w)
  {
    hide RowTaken;
    if u != [] {
      RestInOrder(u, 1);
      TakenRowsInOrder(u[1..], w);
      var rest := TakenRows(u[1..], w);
      forall i | 0 <= i < |rest| ensures Before(u[0], rest[i]) && rest[i] in u {
        var k :| 0 <= k < |u[1..]| && u[1..][k] == rest[i];
        assert Before(u[0], u[k + 1]);
      }
    }
  }

  lemma {:induction false} TakenRowsOfTwo(a: seq<Row>, b: seq<Row>, w: Weigh)
    ensures TakenRows(a + b, w) == TakenRows(a, w) + TakenRows(b, w)
  {
    hide RowTaken;
    if a == [] {
      assert a + b == b;
    } else {
      assert (a + b)[1..] == a[1..] + b;
      TakenRowsOfTwo(a[1..], b, w);
    }
  }

  lemma {:induction false} TakenRowsAllOrNone(g: seq<Row>, w: Weigh, all: bool)
    requires forall i | 0 <= i < |g| :: RowTaken(g[i], w) == all
    ensures TakenRows(g, w) == if all then g else []
  {
    hide RowTaken;
    if g != [] {
      forall i | 0 <= i < |g[1..]| ensures RowTaken(g[1..][i], w) == all { assert g[1..][i] == g[i + 1]; }
      TakenRowsAllOrNone(g[1..], w, all);
    }
  }

  lemma FirstRowsTaken(u: seq<Row>, w: Weigh)
    requires u != [] && Alike(u, w.facts, w.held)
    ensures TakenRows(u[..GroupLen(u)], w) == if Taken(u[..GroupLen(u)], w) then u[..GroupLen(u)] else []
  {
    hide BearingOf;
    var n := GroupLen(u);
    var g := u[..n];
    GroupIsOneBody(u);
    forall i | 0 <= i < n ensures OneThing(u[0], u[i], w.facts, w.held) { }
    forall i | 0 <= i < n ensures RowTaken(g[i], w) == Taken(g, w) {
      assert g[i] == u[i] && g[0] == u[0];
      if exists k :: 0 <= k < |g| && g[k].id in w.held {
        var k :| 0 <= k < |g| && g[k].id in w.held;
        assert OneThing(u[0], u[k], w.facts, w.held) && OneThing(u[0], u[i], w.facts, w.held);
      }
    }
    TakenRowsAllOrNone(g, w, Taken(g, w));
  }

  /** A scan of a listing returns, body by body, its rows that are the reader's own or arrivals it takes. */
  lemma {:induction false} FlattenScan(u: seq<Row>, w: Weigh)
    requires Alike(u, w.facts, w.held)
    ensures Flatten(Scan(u, w)) == TakenRows(u, w)
    decreases |u|
  {
    hide BearingOf, Taken;
    if u != [] {
      var n := GroupLen(u);
      FirstRowsTaken(u, w);
      RestAlike(u, n, w.facts, w.held);
      FlattenScan(u[n..], w);
      TakenRowsOfTwo(u[..n], u[n..], w);
      assert u == u[..n] + u[n..];
      FlattenOfTwo(First(u, w), Scan(u[n..], w));
    }
  }

  lemma {:induction false} FlattenOfTwo(a: seq<seq<Row>>, b: seq<seq<Row>>)
    ensures Flatten(a + b) == Flatten(a) + Flatten(b)
  {
    if a == [] {
      assert a + b == b;
    } else {
      assert (a + b)[1..] == a[1..] + b;
      FlattenOfTwo(a[1..], b);
      Associative(a[0], Flatten(a[1..]), Flatten(b));
    }
  }

  lemma {:induction false} ScanBodiesNonEmpty(u: seq<Row>, w: Weigh)
    ensures forall i | 0 <= i < |Scan(u, w)| :: Scan(u, w)[i] != []
    decreases |u|
  {
    hide Taken;
    if u != [] {
      ScanBodiesNonEmpty(u[GroupLen(u)..], w);
    }
  }

  lemma FlattenEmpty(bodies: seq<seq<Row>>)
    requires forall i | 0 <= i < |bodies| :: bodies[i] != []
    ensures Flatten(bodies) == [] <==> bodies == []
  {
  }

  // --------------------------------------------------------------------------
  // A hold that names some shards of a body
  // --------------------------------------------------------------------------

  lemma SameIdSameRow(u: seq<Row>, a: Row, b: Row)
    requires InRecordOrder(u) && a in u && b in u && a.id == b.id
    ensures a == b
  {
    var i :| 0 <= i < |u| && u[i] == a;
    var j :| 0 <= j < |u| && u[j] == b;
    assert i < j ==> Before(u[i], u[j]);
    assert j < i ==> Before(u[j], u[i]);
  }

  lemma InNamedWhole(u: seq<Row>, held: set<nat>, r: Row)
    requires InRecordOrder(u) && r in u
    ensures r.id in NamedWhole(u, held) <==> Names(u, r.body, held)
  {
    if r.id in NamedWhole(u, held) {
      var i :| 0 <= i < |u| && Names(u, u[i].body, held) && u[i].id == r.id;
      SameIdSameRow(u, r, u[i]);
    }
  }

  lemma NamesInMore(a: seq<Row>, b: seq<Row>, body: nat, held: set<nat>)
    requires Names(a, body, held) && forall r | r in a && r.body == body :: r in b
    ensures Names(b, body, held)
  {
    var i :| 0 <= i < |a| && a[i].body == body && a[i].id in held;
    assert a[i] in b;
  }

  lemma NamedInMore(v: seq<Row>, u: seq<Row>, held: set<nat>, r: Row)
    requires InRecordOrder(v) && r in v && r.id in NamedWhole(v, held) && forall x | x in v :: x in u
    ensures r in u && Names(u, r.body, held)
  {
    InNamedWhole(v, held, r);
    NamesInMore(v, u, r.body, held);
  }

  lemma NamedWholeAlike(u: seq<Row>, facts: ReaderFacts, held: set<nat>)
    requires InRecordOrder(u) && Alike(u, facts, {})
    ensures Alike(u, facts, NamedWhole(u, held))
  {
    hide BearingOf, Names, NamedWhole;
    forall i, j | 0 <= i < j < |u| ensures OneThing(u[i], u[j], facts, NamedWhole(u, held)) {
      assert OneThing(u[i], u[j], facts, {});
      InNamedWhole(u, held, u[i]);
      InNamedWhole(u, held, u[j]);
    }
  }

  /** A hold is of whole bodies to a scan, whichever of their shards it names. */
  lemma NamedWholeScans(u: seq<Row>, w: Weigh)
    requires InRecordOrder(u)
    ensures Scan(u, w) == Scan(u, w.(held := NamedWhole(u, w.held)))
    ensures FirstOwed(u, w) == FirstOwed(u, w.(held := NamedWhole(u, w.held)))
  {
    forall i | 0 <= i < |u| ensures u[i].id in NamedWhole(u, w.held) <==> Names(u, u[i].body, w.held) {
      InNamedWhole(u, w.held, u[i]);
    }
    SameHeldBodies(u, w, NamedWhole(u, w.held));
  }

  /** Which bodies of a listing the first body's rows, and the rest's, are. */
  lemma RestIsOtherBodies(u: seq<Row>)
    requires InRecordOrder(u) && u != []
    ensures forall i | 0 <= i < |u| :: i < GroupLen(u) <==> u[i].body == u[0].body
  {
    GroupIsOneBody(u);
    var n := GroupLen(u);
    forall i | n <= i < |u| ensures u[i].body != u[0].body {
      assert Before(u[n - 1], u[n]);
      if n < i { assert Before(u[n], u[i]); }
    }
  }

  lemma {:induction false} SameHeldBodies(u: seq<Row>, w: Weigh, whole: set<nat>)
    requires InRecordOrder(u)
    requires forall i | 0 <= i < |u| :: u[i].id in whole <==> Names(u, u[i].body, w.held)
    ensures Scan(u, w) == Scan(u, w.(held := whole))
    ensures FirstOwed(u, w) == FirstOwed(u, w.(held := whole))
    decreases |u|
  {
    hide BearingOf;
    if u != [] {
      var n := GroupLen(u);
      var g, rest := u[..n], u[n..];
      RestIsOtherBodies(u);
      RestInOrder(u, n);
      assert IsHeld(g, w) == IsHeld(g, w.(held := whole)) by {
        if k :| 0 <= k < n && u[k].id in w.held {
          assert g[k] == u[k] && Names(u, u[0].body, w.held) && u[0].id in whole;
        }
        if k :| 0 <= k < n && u[k].id in whole {
          var j :| 0 <= j < |u| && u[j].body == u[k].body && u[j].id in w.held;
          assert g[j] == u[j];
        }
      }
      forall i | 0 <= i < |rest| ensures rest[i].id in whole <==> Names(rest, rest[i].body, w.held) {
        assert rest[i] == u[n + i];
        if Names(u, rest[i].body, w.held) {
          var j :| 0 <= j < |u| && u[j].body == rest[i].body && u[j].id in w.held;
          assert rest[j - n] == u[j];
        }
      }
      SameHeldBodies(rest, w, whole);
    }
  }

  /**
   A scan from a mark returns what a scan of the whole listing does exactly where no arrival at or below the mark is of
   a body the hold names no listed shard of, given that `wide` accounts for what the mark passed.
   */
  lemma ScanAfterExactly(u: seq<Row>, from: int, w: Weigh, wide: set<nat>)
    requires InRecordOrder(u) && Alike(u, w.facts, {}) && Passed(u, from, w.facts, wide)
    ensures Scan(After(u, from), w) == Scan(u, w) <==>
      (w.arrivals ==> forall r | r in u && r.sequence <= from && BearingOf(r, w.facts) == Arrival ::
        Names(u, r.body, w.held))
  {
    hide BearingOf, Alike, Scan, Names, NamedWhole, TakenRows, InRecordOrder;
    var a := Upto(u, from);
    assert a == u[..|a|] && (forall r :: r in a <==> r in u && r.sequence <= from) by { UptoIs(u, from); }
    FrontInOrder(u, |a|);
    FrontAlike(u, |a|, w.facts);
    ScanAfterIsWholeScan(u, from, w);
    var whole := w.(held := NamedWhole(a, w.held));
    NamedWholeScans(a, w);
    NamedWholeAlike(a, w.facts, w.held);
    FlattenScan(a, whole);
    ScanBodiesNonEmpty(a, whole);
    FlattenEmpty(Scan(a, whole));
    TakenRowsAre(a, whole);
    assert TakenRows(a, whole) == [] <==> forall r | r in a :: !RowTaken(r, whole) by {
      if TakenRows(a, whole) != [] { assert TakenRows(a, whole)[0] in TakenRows(a, whole); }
    }
    forall r | r in a
      ensures RowTaken(r, whole) <==> w.arrivals && BearingOf(r, w.facts) == Arrival && !Names(u, r.body, w.held)
    {
      InNamedWhole(a, w.held, r);
      NamesBelow(u, a, from, r, w.held);
      var i :| 0 <= i < |u| && u[i] == r;
      assert Passable(u[i], w.facts, wide);
    }
  }

  /** A mark that cuts no body leaves all of a body's listed shards on one side. */
  lemma NamesBelow(u: seq<Row>, a: seq<Row>, from: int, r: Row, held: set<nat>)
    requires InRecordOrder(u) && CutsNoBody(u, from) && r in a
    requires forall r :: r in a <==> r in u && r.sequence <= from
    ensures Names(a, r.body, held) <==> Names(u, r.body, held)
  {
    if Names(a, r.body, held) { NamesInMore(a, u, r.body, held); }
    if Names(u, r.body, held) {
      forall x | x in u && x.body == r.body ensures x in a {
        var i :| 0 <= i < |u| && u[i] == r;
        var j :| 0 <= j < |u| && u[j] == x;
        if i < j { assert Apart(u[i], u[j], from); } else if j < i { assert Before(u[j], u[i]); }
      }
      NamesInMore(u, a, r.body, held);
    }
  }

  lemma UptoIs(u: seq<Row>, from: int)
    requires InRecordOrder(u)
    ensures |Upto(u, from)| <= |u| && Upto(u, from) == u[..|Upto(u, from)|]
    ensures forall r :: r in Upto(u, from) <==> r in u && r.sequence <= from
  {
    hide InRecordOrder;
    CutAt(u, from);
    var a, b := Upto(u, from), After(u, from);
    forall r | r in u && r.sequence <= from ensures r in a { assert r in a + b; }
  }

  lemma FrontInOrder(u: seq<Row>, n: nat)
    requires InRecordOrder(u) && n <= |u|
    ensures InRecordOrder(u[..n])
  {
    forall i, j | 0 <= i < j < n ensures Before(u[..n][i], u[..n][j]) { assert Before(u[i], u[j]); }
  }

  lemma FrontAlike(u: seq<Row>, n: nat, facts: ReaderFacts)
    requires Alike(u, facts, {}) && n <= |u|
    ensures Alike(u[..n], facts, {})
  {
    hide BearingOf;
    forall i, j | 0 <= i < j < n ensures OneThing(u[..n][i], u[..n][j], facts, {}) {
      assert OneThing(u[i], u[j], facts, {});
    }
  }
}
