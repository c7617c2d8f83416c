/**
 The scan memo of src/presentation.ts over whole runs: appends, presentations,
 retractions, removals, branch moves, rebases, registrations and a rollback's
 hold. In every reachable state a scan from the memo's mark returns what a scan
 of every unpresented row would, but for what a hold of part of a body misses.
 */
module PresentationMemo {
  import opened Options
  import opened Audience
  import opened Windows
  import opened PendingScan

  /** Where a scan of one manager's unpresented rows may start; -1 stands for the source's -Infinity. */
  datatype Memo = Memo(generation: nat, branch: string, length: nat, facts: ReaderFacts, scanFrom: int, heldFrom: int)

  /** The arrivals a rollback keeps out of the window at rest, on the branch it left the store on. */
  datatype Hold = Hold(branch: string, ids: set<nat>)

  /** One agent's manager (a window per branch) with what the presentation module keeps for it. */
  datatype World = World(
    branch: string, windows: map<string, Window>, facts: ReaderFacts, generation: nat, memo: Option<Memo>,
      hold: Option<Hold>)
  {
    function Current(): Window
      requires branch in windows
    {
      windows[branch]
    }

    /** The hold a scan at rest leaves out: the current branch's. */
    function Held(atRest: bool): set<nat> {
      if atRest && hold.Some? && hold.value.branch == branch then hold.value.ids else {}
    }

    function WeighBy(arrivals: bool, atRest: bool): Weigh {
      Weigh(facts, arrivals, Held(atRest))
    }

    /**
     The memo a scan reads: the one kept, or a fresh one when the branch, the length, a registration or the facts moved.
     */
    function CurrentMemo(): Memo
      requires branch in windows
    {
      if memo.Some? && Fresh(memo.value) then memo.value
      else Memo(generation, branch, Current().length, facts, -1, -1)
    }

    predicate Fresh(m: Memo)
      requires branch in windows
    {
      m.generation == generation && m.branch == branch && m.length == Current().length && m.facts == facts
    }

    /** Where the scan starts. */
    function From(atRest: bool): int
      requires branch in windows
    {
      var m := CurrentMemo();
      if Held(atRest) == {} then m.scanFrom else Max(m.scanFrom, m.heldFrom)
    }

    /** What the scan lists and returns. */
    function Pending(arrivals: bool, atRest: bool): seq<seq<Row>>
      requires branch in windows
    {
      Scan(After(Unpresented(Current()), From(atRest)), WeighBy(arrivals, atRest))
    }

    /** What a scan of every unpresented row returns. */
    function FullPending(arrivals: bool, atRest: bool): seq<seq<Row>>
      requires branch in windows
    {
      Scan(Unpresented(Current()), WeighBy(arrivals, atRest))
    }

    /** The memo as a scan leaves it. */
    function Scanned(atRest: bool): World
      requires branch in windows
    {
      var from := From(atRest);
      var next := Next(After(Unpresented(Current()), from), from, WeighBy(true, atRest));
      var m := CurrentMemo();
      this.(memo := Some(if Held(atRest) == {} then m.(scanFrom := next) else m.(heldFrom := next)))
    }

    function WithCurrent(w: Window): World
      requires branch in windows
    {
      this.(windows := windows[branch := w])
    }
  }

  // --------------------------------------------------------------------------
  // The invariant
  // --------------------------------------------------------------------------

  ghost predicate MemoHolds(w: Window, m: Memo, hold: Option<Hold>) {
    var u := Unpresented(w);
    && m.scanFrom <= w.head && m.heldFrom <= w.head
    && Passed(u, m.scanFrom, m.facts, {})
    && (hold.Some? && hold.value.branch == m.branch ==>
      Passed(u, m.heldFrom, m.facts, NamedWhole(w.rows, hold.value.ids)))
  }

  ghost predicate WindowsOk(w: World) {
    && w.branch in w.windows
    && (forall b | b in w.windows :: Ok(w.windows[b]) && Alike(w.windows[b].rows, w.facts, {}))
  }

  /**
   A memo kept from another branch, or an earlier length, registration or set of facts is never read; one that is read
   says what is so.
   */
  ghost predicate MemoOk(w: World)
    requires w.branch in w.windows
  {
    w.memo.Some? ==>
      var m := w.memo.value;
      && m.generation <= w.generation
      && (m.branch == w.branch ==>
        && m.length <= w.Current().length
        && (m.generation == w.generation && m.length == w.Current().length ==> MemoHolds(w.Current(), m, w.hold)))
  }

  ghost predicate WorldOk(w: World) {
    WindowsOk(w) && MemoOk(w)
  }

  /**
   A row only a full scan at rest would return: a shard the hold doesn't name, of a body it names in part, at or below a
   fresh memo's mark, none of whose named shards is listed any more.
   */
  ghost predicate Missed(w: World, r: Row)
    requires w.branch in w.windows
  {
    && w.memo.Some? && w.Fresh(w.memo.value) && r.sequence <= w.memo.value.heldFrom
    && r in Unpresented(w.Current()) && BearingOf(r, w.facts) == Arrival
    && Names(w.Current().rows, r.body, w.Held(true)) && !Names(Unpresented(w.Current()), r.body, w.Held(true))
  }

  // --------------------------------------------------------------------------
  // Listings that shrink and grow
  // --------------------------------------------------------------------------

  lemma SubOneThing(a: seq<Row>, b: seq<Row>, facts: ReaderFacts, held: set<nat>)
    requires InRecordOrder(a) && InRecordOrder(b) && Alike(a, facts, held)
    requires forall i | 0 <= i < |b| :: b[i] in a
    ensures Alike(b, facts, held)
  {
    hide BearingOf;
    forall i, j | 0 <= i < j < |b| ensures OneThing(b[i], b[j], facts, held) {
      var x, y := SamePlaces(a, b, i, j);
      assert OneThing(a[x], a[y], facts, held);
    }
  }

  lemma SamePlaces(a: seq<Row>, b: seq<Row>, i: nat, j: nat) returns (x: nat, y: nat)
    requires InRecordOrder(a) && InRecordOrder(b)
    requires i < j < |b| && b[i] in a && b[j] in a
    ensures x < y < |a| && a[x] == b[i] && a[y] == b[j]
  {
    x :| 0 <= x < |a| && a[x] == b[i];
    y :| 0 <= y < |a| && a[y] == b[j];
    assert Before(b[i], b[j]);
    assert y < x ==> Before(a[y], a[x]);
  }

  lemma SubPassed(a: seq<Row>, b: seq<Row>, from: int, facts: ReaderFacts, held: set<nat>)
    requires InRecordOrder(a) && InRecordOrder(b) && Passed(a, from, facts, held)
    requires forall i | 0 <= i < |b| :: b[i] in a
    ensures Passed(b, from, facts, held)
  {
    hide Passable;
    forall i | 0 <= i < |b| && b[i].sequence <= from ensures Passable(b[i], facts, held) {
      var x :| 0 <= x < |a| && a[x] == b[i];
    }
    forall i, j | 0 <= i < j < |b| ensures Apart(b[i], b[j], from) {
      var x, y := SamePlaces(a, b, i, j);
      assert Apart(a[x], a[y], from);
    }
  }

  lemma PassedLonger(a: seq<Row>, b: seq<Row>, from: int, facts: ReaderFacts, held: set<nat>)
    requires Passed(a, from, facts, held)
    requires forall i | 0 <= i < |b| :: from < b[i].sequence
    requires forall i, j | 0 <= i < |a| && 0 <= j < |b| :: a[i].body < b[j].body
    ensures Passed(a + b, from, facts, held)
  {
    hide Passable;
    var c := a + b;
    forall i, j | 0 <= i < j < |c| ensures Apart(c[i], c[j], from) {
      if j < |a| { assert Apart(a[i], a[j], from); }
    }
  }

  lemma PassedTogether(u: seq<Row>, a: int, b: int, facts: ReaderFacts, held: set<nat>)
    requires Passed(u, a, facts, {}) && Passed(u, b, facts, held)
    ensures Passed(u, Max(a, b), facts, held)
  {
    hide BearingOf;
    forall i, j | 0 <= i < j < |u| ensures Apart(u[i], u[j], Max(a, b)) {
      assert Apart(u[i], u[j], a) && Apart(u[i], u[j], b);
    }
  }

  lemma UnpresentedInOrder(w: Window)
    requires Ok(w)
    ensures InRecordOrder(Unpresented(w))
    ensures forall i | 0 <= i < |Unpresented(w)| :: Unpresented(w)[i] in w.rows && Unpresented(w)[i].sequence <= w.head
  {
    OutRowsInOrder(w.rows, Ids(w.entries) + w.undone);
    var u := Unpresented(w);
    forall i | 0 <= i < |u| ensures u[i].sequence <= w.head {
      var k :| 0 <= k < |w.rows| && w.rows[k] == u[i];
    }
  }

  // --------------------------------------------------------------------------
  // The scan is exact where the memo holds, and leaves a memo that holds
  // --------------------------------------------------------------------------

  /** The bodies the scan's hold names a shard of, whole. */
  function Wide(w: World, atRest: bool): set<nat>
    requires w.branch in w.windows
  {
    NamedWhole(w.Current().rows, w.Held(atRest))
  }

  lemma PassedNone(u: seq<Row>, from: int, facts: ReaderFacts, held: set<nat>)
    requires Passed(u, from, facts, {})
    ensures Passed(u, from, facts, held)
  {
    hide BearingOf, CutsNoBody;
  }

  lemma FromIsPassed(w: World, atRest: bool)
    requires WorldOk(w)
    ensures Passed(Unpresented(w.Current()), w.From(atRest), w.facts, Wide(w, atRest))
    ensures Passed(Unpresented(w.Current()), w.CurrentMemo().scanFrom, w.facts, {})
    ensures w.From(atRest) <= w.Current().head
    ensures MemoHolds(w.Current(), w.CurrentMemo(), w.hold)
  {
    hide BearingOf, NamedWhole, Unpresented;
    var u := Unpresented(w.Current());
    var m := w.CurrentMemo();
    if w.Held(atRest) != {} {
      PassedTogether(u, m.scanFrom, m.heldFrom, w.facts, Wide(w, atRest));
    } else {
      PassedNone(u, m.scanFrom, w.facts, Wide(w, atRest));
    }
  }

  lemma ListingAlike(w: World)
    requires WorldOk(w)
    ensures InRecordOrder(Unpresented(w.Current())) && Alike(Unpresented(w.Current()), w.facts, {})
  {
    hide BearingOf, Alike;
    UnpresentedInOrder(w.Current());
    SubOneThing(w.Current().rows, Unpresented(w.Current()), w.facts, {});
  }

  /**
   A row a scan at rest starts past, of a body the hold keeps nothing listed of, is one passed while the hold kept it.
   */
  lemma MissedIs(w: World, r: Row)
    requires WorldOk(w) && r in Unpresented(w.Current())
    ensures Missed(w, r) <==>
      && r.sequence <= w.From(true) && BearingOf(r, w.facts) == Arrival
      && !Names(Unpresented(w.Current()), r.body, w.Held(true))
  {
    hide BearingOf, Alike, NamedWhole, Names, MemoHolds;
    if r.sequence <= w.From(true) && BearingOf(r, w.facts) == Arrival {
      FromIsPassed(w, true);
      UnpresentedInOrder(w.Current());
      ListedPassable(w, r);
      InNamedWhole(w.Current().rows, w.Held(true), r);
      NobodyNamed(w.Current().rows);
    } else if Missed(w, r) {
      NobodyNamed(w.Current().rows);
    }
  }

  lemma ListedPassable(w: World, r: Row)
    requires WorldOk(w) && r in Unpresented(w.Current())
    ensures r.sequence <= w.From(true) ==> Passable(r, w.facts, Wide(w, true))
    ensures r.sequence <= w.CurrentMemo().scanFrom ==> Passable(r, w.facts, {})
  {
    hide BearingOf, Alike, NamedWhole, MemoHolds;
    FromIsPassed(w, true);
    var u := Unpresented(w.Current());
    var i :| 0 <= i < |u| && u[i] == r;
  }

  /**
   The scan from the memo returns exactly what a scan of every unpresented row would, unless it takes arrivals at rest
   and a row is missed.
   */
  lemma PendingExactly(w: World, arrivals: bool, atRest: bool)
    requires WorldOk(w)
    ensures w.Pending(arrivals, atRest) == w.FullPending(arrivals, atRest) <==>
      (arrivals && atRest ==> forall r :: !Missed(w, r))
  {
    hide BearingOf, Alike, Scan, Names, NamedWhole, Unpresented, Ok, MemoHolds, After, CutsNoBody;
    FromIsPassed(w, atRest);
    ListingAlike(w);
    var u := Unpresented(w.Current());
    ScanAfterExactly(u, w.From(atRest), w.WeighBy(arrivals, atRest), Wide(w, atRest));
    forall r | r in u && r.sequence <= w.From(atRest) && BearingOf(r, w.facts) == Arrival ensures atRest {
      ListedPassable(w, r);
    }
    forall r | r in u && atRest
      ensures Missed(w, r) <==>
        r.sequence <= w.From(true) && BearingOf(r, w.facts) == Arrival && !Names(u, r.body, w.Held(true))
    {
      MissedIs(w, r);
    }
  }

  /** Where the hold names no body in part, or there is none, nothing is missed. */
  lemma WholeHoldsMissNothing(w: World, r: Row)
    requires WorldOk(w) && Alike(w.Current().rows, w.facts, w.Held(true))
    ensures !Missed(w, r)
  {
    hide BearingOf;
    var rows, u := w.Current().rows, Unpresented(w.Current());
    if r in u && Names(rows, r.body, w.Held(true)) {
      UnpresentedInOrder(w.Current());
      var k :| 0 <= k < |u| && u[k] == r;
      var j :| 0 <= j < |rows| && rows[j].body == r.body && rows[j].id in w.Held(true);
      var i :| 0 <= i < |rows| && rows[i] == r;
      if i != j { assert OneThing(rows[if i < j then i else j], rows[if i < j then j else i], w.facts, w.Held(true)); }
      assert Names(u, r.body, w.Held(true));
    }
  }

  lemma PendingIsFullPending(w: World, arrivals: bool)
    requires WorldOk(w)
    ensures w.Pending(arrivals, false) == w.FullPending(arrivals, false)
  {
    PendingExactly(w, arrivals, false);
  }

  lemma ScannedOk(w: World, atRest: bool)
    requires WorldOk(w)
    ensures WorldOk(w.Scanned(atRest))
  {
    hide BearingOf, Passed, Alike, Names, NamedWhole, Unpresented, After;
    FromIsPassed(w, atRest);
    ListingAlike(w);
    UnpresentedInOrder(w.Current());
    var u := Unpresented(w.Current());
    var from := w.From(atRest);
    var weigh := w.WeighBy(true, atRest);
    forall r | r in u && Names(u, r.body, weigh.held) ensures r.id in Wide(w, atRest) {
      NamesInMore(u, w.Current().rows, r.body, weigh.held);
      InNamedWhole(w.Current().rows, weigh.held, r);
    }
    if w.Held(atRest) == {} {
      NobodyNamed(u);
      NextIsPassed(u, from, weigh, {});
    } else {
      NextIsPassed(u, from, weigh, Wide(w, atRest));
    }
    assert Next(After(u, from), from, weigh) <= w.Current().head;
  }

  lemma NobodyNamed(u: seq<Row>)
    ensures forall body :: !Names(u, body, {})
  {
  }

  // --------------------------------------------------------------------------
  // What happens between scans
  // --------------------------------------------------------------------------

  datatype Event =
    /** A body stored at the end of the record. */
    | Store(body: seq<Row>)
    /** Any other write of the store's. */
    | Touch
    /** Rows presented by the module's own present(), which moves its memo past them. */
    | Present(ids: seq<nat>)
    /** Rows put in the window by another caller of presentRows (a redo), or the window's write-down. */
    | PresentElsewhere(ids: seq<nat>)
    | WriteDown
    /** Rows taken out as undone: no longer listed as unpresented. */
    | Undo(gone: set<nat>)
    /** Rows taken out that read as arrived again: the index takes `grow` places for the tombstones. */
    | Retract(gone: set<nat>, grow: nat)
    /** Rows removed from the record. */
    | Remove(gone: set<nat>)
    /** The store's branch moved: back to a branch it has been on, or to a new one with its own window. */
    | Move(branch: string, window: Window)
    /** A registration: what a row is to the reader may have changed. */
    | Register(facts: ReaderFacts)
    /** The agent's rebase after a move, once the managers followed it. */
    | Rebase(facts: ReaderFacts)
    /** The reader's facts changed with no registration. */
    | Reweigh(facts: ReaderFacts)
    /** A rollback holds arrivals until the next turn start. */
    | HoldUntilStart(arrivals: set<nat>)
    | EndHold
    | DropMemo
    | ScanRows(atRest: bool)

  function HoldAfter(w: World, ids: set<nat>): Hold {
    Hold(w.branch, ids + if w.hold.Some? && w.hold.value.branch == w.branch then w.hold.value.ids else {})
  }

  /** What the module and its surroundings let happen: the contract of each event. */
  ghost predicate CanHappen(w: World, e: Event)
    requires WindowsOk(w)
  {
    var cur := w.Current();
    match e
    case Store(body) => Storable(cur, body) && Alike(cur.rows + body, w.facts, {})
    case Present(ids) => Presentable(cur, ids)
    case PresentElsewhere(ids) => Presentable(cur, ids) && ids != []
    case WriteDown => !cur.presented
    case Undo(ids) => cur.presented
    case Retract(ids, grow) => cur.presented && grow > 0
    case Remove(ids) => RemovesWholeBodies(cur.rows, ids)
    case Move(b, window) =>
      && Ok(window) && Alike(window.rows, w.facts, {})
      && (b in w.windows ==> window == w.windows[b])
      && !AwaitsRebase(w, b)
    case Register(facts) => AlikeUnder(w, facts)
    case Rebase(facts) => AlikeUnder(w, facts)
    case Reweigh(facts) => AlikeUnder(w, facts)
    case _ => true
  }

  /** No body is cut in two by what the reader now is: its shards still weigh alike. */
  ghost predicate AlikeUnder(w: World, facts: ReaderFacts)
    requires WindowsOk(w)
  {
    forall b | b in w.windows :: Alike(w.windows[b].rows, facts, {})
  }

  /** A removal that names a shard names its body: the context manager refuses one that would split it. */
  ghost predicate RemovesWholeBodies(rows: seq<Row>, ids: set<nat>) {
    forall i, j | 0 <= i < |rows| && 0 <= j < |rows| && rows[i].body == rows[j].body :: rows[i].id in ids <==>
      rows[j].id in ids
  }

  /**
   Whether the memo kept is that of branch `b`, which the store has left with no rebase since: present() moves a memo by
   its length alone, whichever branch it is of, so until a rebase has dropped it the store isn't back on `b`.
   */
  predicate AwaitsRebase(w: World, b: string) {
    w.memo.Some? && w.memo.value.branch != w.branch && w.memo.value.branch == b
  }

  /** The module's memo after its own presentation: moved to the new length when it stood at the old one. */
  function MemoPast(w: World, window: Window): Option<Memo>
    requires w.branch in w.windows
  {
    if w.memo.Some? && w.memo.value.length == w.Current().length
    then Some(w.memo.value.(length := window.length)) else w.memo
  }

  ghost function Step(w: World, e: Event): World
    requires WindowsOk(w) && CanHappen(w, e)
  {
    var cur := w.Current();
    match e
    case Store(body) => w.WithCurrent(Stored(cur, body))
    case Touch => w.WithCurrent(Touched(cur))
    case Present(ids) => w.WithCurrent(Presented(cur, ids)).(memo := MemoPast(w, Presented(cur, ids)))
    case PresentElsewhere(ids) => w.WithCurrent(Presented(cur, ids))
    case WriteDown => w.WithCurrent(WrittenDown(cur))
    case Undo(ids) => w.WithCurrent(Retracted(cur, ids, true, 0))
    case Retract(ids, grow) => w.WithCurrent(Retracted(cur, ids, false, grow))
    case Remove(ids) => w.WithCurrent(Removed(cur, ids))
    case Move(b, window) => w.(branch := b, windows := w.windows[b := window])
    case Register(facts) => w.(facts := facts, generation := w.generation + 1)
    case Rebase(facts) => w.(facts := facts, generation := w.generation + 1, memo := None)
    case Reweigh(facts) => w.(facts := facts)
    case HoldUntilStart(ids) => w.(hold := Some(HoldAfter(w, ids)), memo := None)
    case EndHold => w.(hold := None)
    case DropMemo => w.(memo := None)
    case ScanRows(atRest) => w.Scanned(atRest)
  }

  // --------------------------------------------------------------------------
  // Every event keeps the invariant
  // --------------------------------------------------------------------------

  lemma PassedWider(u: seq<Row>, from: int, facts: ReaderFacts, held: set<nat>, wide: set<nat>)
    requires Passed(u, from, facts, held) && forall i | 0 <= i < |u| && u[i].id in held :: u[i].id in wide
    ensures Passed(u, from, facts, wide)
  {
    hide BearingOf, CutsNoBody;
  }

  /** The rows left of a record are of whole bodies, none of them new to it. */
  ghost predicate WholeBodiesOf(rows: seq<Row>, more: seq<Row>) {
    && (forall r | r in rows :: r in more)
    && (forall r, x | r in rows && x in more && x.body == r.body :: x in rows)
  }

  lemma NamedWholeKept(rows: seq<Row>, more: seq<Row>, held: set<nat>, r: Row)
    requires InRecordOrder(rows) && InRecordOrder(more) && r in rows && r in more && r.id in NamedWhole(more, held)
    requires forall x | x in more && x.body == r.body :: x in rows
    ensures r.id in NamedWhole(rows, held)
  {
    InNamedWhole(more, held, r);
    NamesInMore(more, rows, r.body, held);
    InNamedWhole(rows, held, r);
  }

  /** A window that lists no row it didn't list before keeps what a mark says. */
  lemma ShrunkListing(a: Window, b: Window, m: Memo, hold: Option<Hold>)
    requires Ok(a) && Ok(b) && a.head <= b.head && MemoHolds(a, m, hold)
    requires WholeBodiesOf(b.rows, a.rows)
    requires forall r | r in b.rows && r.id in Ids(a.entries) + a.undone :: r.id in Ids(b.entries) + b.undone
    ensures MemoHolds(b, m, hold)
  {
    hide BearingOf, Passed, NamedWhole;
    UnpresentedInOrder(a);
    UnpresentedInOrder(b);
    var ua, ub := Unpresented(a), Unpresented(b);
    forall i | 0 <= i < |ub| ensures ub[i] in ua { }
    SubPassed(ua, ub, m.scanFrom, m.facts, {});
    if hold.Some? && hold.value.branch == m.branch {
      var ids := hold.value.ids;
      SubPassed(ua, ub, m.heldFrom, m.facts, NamedWhole(a.rows, ids));
      forall i | 0 <= i < |ub| && ub[i].id in NamedWhole(a.rows, ids) ensures ub[i].id in NamedWhole(b.rows, ids) {
        NamedWholeKept(b.rows, a.rows, ids, ub[i]);
      }
      PassedWider(ub, m.heldFrom, m.facts, NamedWhole(a.rows, ids), NamedWhole(b.rows, ids));
    }
  }

  lemma GrownListing(a: Window, body: seq<Row>, m: Memo, hold: Option<Hold>)
    requires Ok(a) && Storable(a, body) && MemoHolds(a, m, hold)
    ensures MemoHolds(Stored(a, body), m, hold)
  {
    hide BearingOf, Passed;
    var gone := Ids(a.entries) + a.undone;
    OutRowsAppend(a.rows, body, gone);
    var ua, ub := Unpresented(a), OutRows(body, gone);
    assert Unpresented(Stored(a, body)) == ua + ub;
    UnpresentedInOrder(a);
    forall i | 0 <= i < |ub| ensures a.head < ub[i].sequence {
      var k :| 0 <= k < |body| && body[k] == ub[i];
    }
    forall i, j | 0 <= i < |ua| && 0 <= j < |ub| ensures ua[i].body < ub[j].body {
      var x :| 0 <= x < |a.rows| && a.rows[x] == ua[i];
      var y :| 0 <= y < |body| && body[y] == ub[j];
    }
    PassedLonger(ua, ub, m.scanFrom, m.facts, {});
    if hold.Some? && hold.value.branch == m.branch {
      var ids, rows := hold.value.ids, a.rows + body;
      forall i | 0 <= i < |ua| && ua[i].id in NamedWhole(a.rows, ids) ensures ua[i].id in NamedWhole(rows, ids) {
        InNamedWhole(a.rows, ids, ua[i]);
        NamesInMore(a.rows, rows, ua[i].body, ids);
        StoredOk(a, body);
        InNamedWhole(rows, ids, ua[i]);
      }
      PassedWider(ua, m.heldFrom, m.facts, NamedWhole(a.rows, ids), NamedWhole(rows, ids));
      PassedLonger(ua, ub, m.heldFrom, m.facts, NamedWhole(rows, ids));
    }
    assert body[|body| - 1].sequence > a.head;
  }

  /** The current window becomes `b`: what is left to show is that a mark read against it still holds. */
  lemma WindowChangedOk(w: World, b: Window)
    requires WorldOk(w) && Ok(b) && w.Current().length <= b.length
    requires Alike(b.rows, w.facts, {})
    requires w.Current().length == b.length ==>
      forall m: Memo | m.branch == w.branch && MemoHolds(w.Current(), m, w.hold) :: MemoHolds(b, m, w.hold)
    ensures WorldOk(w.WithCurrent(b))
  {
    hide BearingOf, Alike, MemoHolds, Ok;
  }

  lemma SameRowsAlike(w: World, rows: seq<Row>)
    requires WorldOk(w) && InRecordOrder(rows) && forall r | r in rows :: r in w.Current().rows
    ensures Alike(rows, w.facts, {})
  {
    hide BearingOf, Alike;
    SubOneThing(w.Current().rows, rows, w.facts, {});
  }

  lemma StepOk(w: World, e: Event)
    requires WorldOk(w) && CanHappen(w, e)
    ensures WorldOk(Step(w, e))
  {
    hide BearingOf, Alike, MemoHolds, Passed, InRecordOrder, InWindowOrder;
    if e.Move? || e.Register? || e.Rebase? || e.Reweigh? || e.HoldUntilStart? || e.DropMemo? {
      SettingOk(w, e);
    } else {
      var cur := w.Current();
      match e
      case Store(body) => StoreOk(w, body);
      case Touch => SameListingOk(w, Touched(cur));
      case Present(ids) => PresentOk(w, ids);
      case PresentElsewhere(ids) =>
        PresentedOk(cur, ids);
        WindowChangedOk(w, Presented(cur, ids));
      case WriteDown =>
        WrittenDownOk(cur);
        SameListingOk(w, WrittenDown(cur));
      case Undo(_) => TakenOutOk(w, e);
      case Retract(_, _) => TakenOutOk(w, e);
      case Remove(_) => TakenOutOk(w, e);
      case ScanRows(atRest) => ScannedOk(w, atRest);
      case EndHold => EndHoldOk(w);
    }
  }

  /** Rows leave the window, or the record. */
  lemma TakenOutOk(w: World, e: Event)
    requires WorldOk(w) && CanHappen(w, e) && (e.Undo? || e.Retract? || e.Remove?)
    ensures WorldOk(Step(w, e))
  {
    hide BearingOf, Alike, MemoHolds, Passed, InRecordOrder, InWindowOrder;
    var cur := w.Current();
    match e
    case Undo(ids) =>
      RetractedOk(cur, ids, true, 0);
      SameListingOk(w, Retracted(cur, ids, true, 0));
    case Retract(ids, grow) =>
      RetractedOk(cur, ids, false, grow);
      WindowChangedOk(w, Retracted(cur, ids, false, grow));
    case Remove(ids) =>
      RemovedOk(cur, ids);
      RemovalLeavesWholeBodies(cur, ids);
      SameListingOk(w, Removed(cur, ids));
  }

  lemma RemovalLeavesWholeBodies(w: Window, ids: set<nat>)
    requires Ok(w) && RemovesWholeBodies(w.rows, ids)
    ensures WholeBodiesOf(Removed(w, ids).rows, w.rows)
  {
    forall r, x | r in OutRows(w.rows, ids) && x in w.rows && x.body == r.body ensures x in OutRows(w.rows, ids) {
      var i :| 0 <= i < |w.rows| && w.rows[i] == r;
      var j :| 0 <= j < |w.rows| && w.rows[j] == x;
    }
  }

  /**
   What changes no window's listing: a branch move, a rebase, a registration, other facts, a hold, the memo dropped.
   */
  lemma SettingOk(w: World, e: Event)
    requires WorldOk(w) && CanHappen(w, e)
    requires e.Move? || e.Register? || e.Rebase? || e.Reweigh? || e.HoldUntilStart? || e.DropMemo?
    ensures WorldOk(Step(w, e))
  {
    hide BearingOf, Alike, MemoHolds, Ok;
  }

  lemma StoreOk(w: World, body: seq<Row>)
    requires WorldOk(w) && CanHappen(w, Store(body))
    ensures WorldOk(w.WithCurrent(Stored(w.Current(), body)))
  {
    hide BearingOf, Alike, MemoHolds, Passed, InRecordOrder, InWindowOrder;
    var cur := w.Current();
    StoredOk(cur, body);
    forall m: Memo | m.branch == w.branch && MemoHolds(cur, m, w.hold) ensures MemoHolds(Stored(cur, body), m, w.hold) {
      GrownListing(cur, body, m, w.hold);
    }
    WindowChangedOk(w, Stored(cur, body));
  }

  lemma EndHoldOk(w: World)
    requires WorldOk(w)
    ensures WorldOk(w.(hold := None))
  {
    hide BearingOf, Alike, Passed;
  }

  /** The window changes and nothing is listed that wasn't. */
  lemma SameListingOk(w: World, b: Window)
    requires WorldOk(w) && Ok(b) && w.Current().length <= b.length && w.Current().head <= b.head
    requires WholeBodiesOf(b.rows, w.Current().rows)
    requires forall r | r in b.rows && r.id in Ids(w.Current().entries) + w.Current().undone ::
      r.id in Ids(b.entries) + b.undone
    ensures WorldOk(w.WithCurrent(b))
  {
    hide BearingOf, Alike, MemoHolds;
    SameRowsAlike(w, b.rows);
    forall m: Memo | m.branch == w.branch && MemoHolds(w.Current(), m, w.hold) ensures MemoHolds(b, m, w.hold) {
      ShrunkListing(w.Current(), b, m, w.hold);
    }
    WindowChangedOk(w, b);
  }

  lemma PresentOk(w: World, ids: seq<nat>)
    requires WorldOk(w) && Presentable(w.Current(), ids)
    ensures WorldOk(Step(w, Present(ids)))
  {
    hide BearingOf, Alike, MemoHolds;
    var cur := w.Current();
    PresentedOk(cur, ids);
    forall m: Memo | MemoHolds(cur, m, w.hold) ensures MemoHolds(Presented(cur, ids), m, w.hold) {
      ShrunkListing(cur, Presented(cur, ids), m, w.hold);
    }
    if w.memo.Some? && MemoHolds(cur, w.memo.value, w.hold) {
      MemoMoved(cur, w.memo, Presented(cur, ids).length, w.hold);
    }
  }

  lemma MemoMoved(a: Window, memo: Option<Memo>, length: nat, hold: Option<Hold>)
    requires memo.Some? && MemoHolds(a, memo.value, hold)
    ensures MemoHolds(a, memo.value.(length := length), hold)
  {
  }

  // --------------------------------------------------------------------------
  // Whole runs
  // --------------------------------------------------------------------------

  ghost predicate CanRun(w: World, events: seq<Event>)
    requires WorldOk(w)
    decreases |events|
  {
    events == [] || (CanHappen(w, events[0]) && (StepOk(w, events[0]); CanRun(Step(w, events[0]), events[1..])))
  }

  ghost function Run(w: World, events: seq<Event>): (r: World)
    requires WorldOk(w) && CanRun(w, events)
    ensures WorldOk(r)
    decreases |events|
  {
    if events == [] then w else (StepOk(w, events[0]); Run(Step(w, events[0]), events[1..]))
  }

  /**
   In every reachable state, whatever appended, presented, retracted, removed, moved, registered or held before it, a
   scan from the memo's mark returns exactly the bodies a scan of all unpresented rows would, unless it takes arrivals
   at rest and a row is missed.
   */
  lemma MemoIsExactOnEveryRun(w: World, events: seq<Event>, arrivals: bool, atRest: bool)
    requires WorldOk(w) && CanRun(w, events)
    ensures var v := Run(w, events);
      v.Pending(arrivals, atRest) == v.FullPending(arrivals, atRest) <==>
        (arrivals && atRest ==> forall r :: !Missed(v, r))
  {
    PendingExactly(Run(w, events), arrivals, atRest);
  }

  function Shard(k: nat, writer: string): Row {
    Row(k, k, 0, OwnStore, writer, Metadata(None, false, false, None))
  }

  /** A reader whose presented window is empty, over one stored body of another writer's in two shards. */
  function TwoShards(reader: string, writer: string): World {
    var window := Window([Shard(0, writer), Shard(1, writer)], 2, 1, 1, true, [], 0, {});
    World("main", map["main" := window], ReaderFacts(reader, Some(Slot(None, None)), [], false, None), 0, None, None)
  }

  lemma TwoShardsListed(reader: string, writer: string)
    ensures WorldOk(TwoShards(reader, writer))
    ensures Unpresented(TwoShards(reader, writer).Current()) == [Shard(0, writer), Shard(1, writer)]
  {
    var w, first, second := TwoShards(reader, writer), Shard(0, writer), Shard(1, writer);
    var rows, none: set<nat> := [first, second], {};
    assert Before(first, second) && OneThing(first, second, w.facts, {});
    assert rows[1..] == [second] && [second][1..] == [];
    assert OutRows(rows, none) == [first] + OutRows(rows[1..], none);
    assert Ids(w.Current().entries) + w.Current().undone == none;
  }

  /** The arrival stored after them. */
  function Later(writer: string): Row {
    Row(2, 2, 1, OwnStore, writer, Metadata(None, false, false, None))
  }

  lemma RunOn(w: World, e: Event, rest: seq<Event>)
    requires WorldOk(w) && CanHappen(w, e) && (StepOk(w, e); CanRun(Step(w, e), rest))
    ensures CanRun(w, [e] + rest) && (StepOk(w, e); Run(w, [e] + rest) == Run(Step(w, e), rest))
  {
    StepOk(w, e);
    assert ([e] + rest)[1..] == rest;
  }

  /** The state the hold and the later arrival leave. */
  predicate HeldInPart(v: World, writer: string) {
    && v.branch in v.windows && v.hold == Some(Hold(v.branch, {0})) && v.facts.derivedAt.None? && !v.facts.hidesHeld
    && var c := v.Current();
      && c.rows == [Shard(0, writer), Shard(1, writer), Later(writer)] && c.presented && c.entries == []
        && c.undone == {}
  }

  lemma TwoShardsHeld(reader: string, writer: string) returns (held: World, v: World)
    ensures var w := TwoShards(reader, writer); WorldOk(w) && held == Step(w, Event.HoldUntilStart({0}))
    ensures WorldOk(held) && CanHappen(held, Store([Later(writer)])) && v == Step(held, Store([Later(writer)]))
    ensures WorldOk(v) && HeldInPart(v, writer) && v.memo.None?
  {
    hide MemoHolds, Unpresented;
    var w := TwoShards(reader, writer);
    TwoShardsListed(reader, writer);
    StepOk(w, Event.HoldUntilStart({0}));
    held := Step(w, Event.HoldUntilStart({0}));
    assert held.hold.value.ids == {0};
    var first, second, later := Shard(0, writer), Shard(1, writer), Later(writer);
    var rows := [first, second, later];
    assert [first, second] + [later] == rows;
    assert forall i, j | 0 <= i < j < |rows| :: OneThing(rows[i], rows[j], w.facts, {});
    StepOk(held, Store([later]));
    v := Step(held, Store([later]));
  }

  lemma HeldListing(v: World, writer: string, gone: set<nat>)
    requires HeldInPart(v, writer) && 1 !in gone && 2 !in gone
    ensures OutRows(v.Current().rows, gone) == (if 0 in gone then [] else [Shard(0, writer)])
      + [Shard(1, writer), Later(writer)]
  {
    var rows := v.Current().rows;
    assert OutRows([rows[2]], gone) == [rows[2]];
    assert rows[1..] == [rows[1]] + [rows[2]];
    assert OutRows(rows[1..], gone) == [rows[1], rows[2]];
  }

  lemma ScansOfTheRun(v: World, writer: string)
    requires HeldInPart(v, writer) && v.memo.None?
    ensures v.Scanned(true).memo == Some(Memo(v.generation, v.branch, v.Current().length, v.facts, -1, 1))
    ensures v.Scanned(true).Scanned(false).memo == v.Scanned(true).memo
  {
    hide Unpresented;
    var u, atRest, any := Unpresented(v.Current()), v.WeighBy(true, true), v.WeighBy(true, false);
    assert u == [Shard(0, writer), Shard(1, writer), Later(writer)] by { ListedAll(v, writer); }
    assert After(u, -1) == u;
    assert GroupLen(u[1..]) == 1 && GroupLen(u) == 2;
    assert u[..2][0] == u[0] && IsHeld(u[..2], atRest) && !Owed(u[..2], atRest) && Owed(u[..2], any);
    assert u[2..] == [Later(writer)] && u[2..][..1] == [Later(writer)];
    assert FirstOwed(u[2..], atRest) == Some(2);
    assert FirstOwed(u, atRest) == Some(2) && FirstOwed(u, any) == Some(0);
  }

  lemma ListedAll(v: World, writer: string)
    requires HeldInPart(v, writer)
    ensures Unpresented(v.Current()) == [Shard(0, writer), Shard(1, writer), Later(writer)]
  {
    var gone := Ids(v.Current().entries) + v.Current().undone;
    assert gone == {};
    HeldListing(v, writer, gone);
  }

  /** The last of the run's writes: only the first shard enters. */
  lemma OneShardEnters(v: World, writer: string)
    requires HeldInPart(v, writer) && WindowsOk(v) && v.memo.Some? && v.Fresh(v.memo.value)
      && v.memo.value.heldFrom == 1
    ensures CanHappen(v, Present([0])) && Missed(Step(v, Present([0])), Shard(1, writer))
  {
    hide WindowsOk, Unpresented;
    var rows := v.Current().rows;
    assert rows[0].id == 0;
    var last := Step(v, Present([0]));
    var u := Unpresented(last.Current());
    assert u == [Shard(1, writer), Later(writer)] by {
      assert last.Current().entries[0].id == 0;
      var gone := Ids(last.Current().entries) + last.Current().undone;
      assert gone == {0};
      HeldListing(v, writer, gone);
      assert u == OutRows(last.Current().rows, gone) by { ListedIs(last.Current()); }
    }
    assert u[0] in u && rows[0].body == 0 && rows[0].id in last.Held(true);
  }

  lemma ListedIs(w: Window)
    ensures Unpresented(w) == OutRows(w.rows, Ids(w.entries) + w.undone)
  {
  }

  /**
   Such a row: a rollback holds the first of a body's two shards; a scan at rest passes both to an arrival stored since,
   whose write fails; the next start's write is cut after the first shard. At rest the arrival then enters ahead of the
   second shard.
   */
  lemma HoldOfOneShardMissesTheOther(reader: string, writer: string) returns (w: World, events: seq<Event>)
    ensures WorldOk(w) && CanRun(w, events)
    ensures Missed(Run(w, events), Shard(1, writer))
    ensures Run(w, events).Pending(true, true) != Run(w, events).FullPending(true, true)
  {
    hide WindowsOk, MemoOk, Missed, Unpresented, CanHappen;
    w := TwoShards(reader, writer);
    var held, v := TwoShardsHeld(reader, writer);
    var store, enter := Store([Later(writer)]), Present([0]);
    ScannedOk(v, true);
    ScannedOk(v.Scanned(true), false);
    ScansOfTheRun(v, writer);
    var scanned := v.Scanned(true).Scanned(false);
    OneShardEnters(scanned, writer);
    StepOk(scanned, enter);
    RunOn(scanned, enter, []);
    events := [ScanRows(false)] + ([enter] + []);
    RunOn(v.Scanned(true), ScanRows(false), [enter] + []) by { Anywhere(v.Scanned(true), ScanRows(false)); }
    RunOn(v, ScanRows(true), events) by { Anywhere(v, ScanRows(true)); }
    RunOn(held, store, [ScanRows(true)] + events);
    RunOn(w, Event.HoldUntilStart({0}), [store] + ([ScanRows(true)] + events)) by {
      Anywhere(w, Event.HoldUntilStart({0}));
    }
    events := [Event.HoldUntilStart({0})] + ([store] + ([ScanRows(true)] + events));
    PendingExactly(Step(scanned, enter), true, true);
  }

  lemma Anywhere(w: World, e: Event)
    requires WindowsOk(w) && (e.ScanRows? || e.HoldUntilStart?)
    ensures CanHappen(w, e)
  {
  }

  /**
   The memo leans on a retraction moving the index length. Where a row that reads as arrived again leaves the window
   at an unchanged length, a scan from a mark past it misses what it lists: exactly when a row at or below the mark
   is one the reader is owed.
   */
  lemma RetractionAtSameLength(w: World, gone: set<nat>, arrivals: bool)
    requires WorldOk(w) && w.Current().presented && w.memo.Some? && w.Fresh(w.memo.value)
    requires CutsNoBody(Unpresented(Retracted(w.Current(), gone, false, 0)), w.memo.value.scanFrom)
    ensures
      var after := w.WithCurrent(Retracted(w.Current(), gone, false, 0));
      after.Pending(arrivals, false) == after.FullPending(arrivals, false) <==>
        Scan(Upto(Unpresented(after.Current()), w.memo.value.scanFrom), after.WeighBy(arrivals, false)) == []
  {
    hide BearingOf, Alike, Passed;
    var b := Retracted(w.Current(), gone, false, 0);
    RetractedOk(w.Current(), gone, false, 0);
    UnpresentedInOrder(b);
    ScanAfterIsWholeScan(Unpresented(b), w.memo.value.scanFrom, w.WeighBy(arrivals, false));
  }

  // --------------------------------------------------------------------------
  // Presenting what is pending
  // --------------------------------------------------------------------------

  function IdsOf(rows: seq<Row>): seq<nat> {
    seq(|rows|, i requires 0 <= i < |rows| => rows[i].id)
  }

  /** What a presentation of everything pending names, row by row. */
  function Due(w: World, arrivals: bool, atRest: bool): seq<Row>
    requires w.branch in w.windows
  {
    Flatten(w.Pending(arrivals, atRest))
  }

  lemma DueIsTaken(w: World, arrivals: bool, atRest: bool)
    requires WorldOk(w)
    ensures !atRest ==> Due(w, arrivals, atRest) == TakenRows(Unpresented(w.Current()), w.WeighBy(arrivals, atRest))
    ensures InRecordOrder(Due(w, arrivals, atRest))
    ensures forall r | r in Due(w, arrivals, atRest) ::
      r in Unpresented(w.Current()) && RowTaken(r, w.WeighBy(arrivals, atRest))
  {
    hide BearingOf, Alike, RowTaken, Unpresented, After, NamedWhole, Ok, MemoHolds;
    var u, weigh := Unpresented(w.Current()), w.WeighBy(arrivals, atRest);
    ListingAlike(w);
    var k := AfterIs(u, w.From(atRest));
    var v := After(u, w.From(atRest));
    RestInOrder(u, k);
    RestAlike(u, k, w.facts, {});
    var whole := weigh.(held := NamedWhole(v, weigh.held));
    NamedWholeScans(v, weigh);
    NamedWholeAlike(v, w.facts, weigh.held);
    FlattenScan(v, whole);
    TakenRowsInOrder(v, whole);
    TakenRowsAre(v, whole);
    forall r | r in v && RowTaken(r, whole) ensures r in u && RowTaken(r, weigh) { WholeTaken(v, weigh, r); }
    if !atRest {
      PendingIsFullPending(w, arrivals);
      FlattenScan(u, weigh);
    }
  }

  lemma WholeTaken(v: seq<Row>, w: Weigh, r: Row)
    requires InRecordOrder(v) && r in v && RowTaken(r, w.(held := NamedWhole(v, w.held)))
    ensures RowTaken(r, w)
  {
    hide BearingOf;
    InNamedWhole(v, w.held, r);
    if r.id in w.held {
      var i :| 0 <= i < |v| && v[i] == r;
      assert Names(v, r.body, w.held);
    }
  }

  lemma DuePresentable(w: World, arrivals: bool, atRest: bool, n: nat)
    requires WorldOk(w) && w.Current().presented && n <= |Due(w, arrivals, atRest)|
    ensures Presentable(w.Current(), IdsOf(Due(w, arrivals, atRest)[..n]))
  {
    hide BearingOf, Alike;
    var due := Due(w, arrivals, atRest);
    DueIsTaken(w, arrivals, atRest);
    var ids := IdsOf(due[..n]);
    forall i, j | 0 <= i < j < |ids| ensures ids[i] != ids[j] { assert Before(due[i], due[j]); }
    forall i | 0 <= i < |ids| ensures ids[i] in RowIds(w.Current().rows) && ids[i] !in Ids(w.Current().entries) {
      assert due[i] in due && due[i] in Unpresented(w.Current());
      var k :| 0 <= k < |w.Current().rows| && w.Current().rows[k] == due[i];
      assert w.Current().rows[k].id == ids[i];
    }
  }

  /** The state once the first `n` rows due have entered the window. */
  ghost function AfterPresenting(w: World, arrivals: bool, atRest: bool, n: nat): (after: World)
    requires WorldOk(w) && w.Current().presented && n <= |Due(w, arrivals, atRest)|
    ensures WorldOk(after)
  {
    DuePresentable(w, arrivals, atRest, n);
    StepOk(w, Present(IdsOf(Due(w, arrivals, atRest)[..n])));
    Step(w, Present(IdsOf(Due(w, arrivals, atRest)[..n])))
  }

  lemma UnpresentedAfter(w: Window, ids: seq<nat>)
    requires Ok(w) && Presentable(w, ids)
    ensures forall r :: r in Unpresented(Presented(w, ids)) <==>
      r in Unpresented(w) && !exists i :: 0 <= i < |ids| && ids[i] == r.id
  {
    PresentedOk(w, ids);
    var named := set i | 0 <= i < |ids| :: ids[i];
    forall r | r in w.rows ensures r.id in named <==> exists i :: 0 <= i < |ids| && ids[i] == r.id { }
  }

  lemma {:induction false} OneOrder(a: seq<Row>, b: seq<Row>)
    requires InRecordOrder(a) && InRecordOrder(b) && forall r :: r in a <==> r in b
    ensures a == b
  {
    hide InRecordOrder;
    HasFirst(a);
    HasFirst(b);
    if a != [] && b != [] {
      var m, n := |a| - 1, |b| - 1;
      SameLast(a, b);
      forall r ensures r in a[..m] <==> r in b[..n] {
        FrontHas(a, r);
        FrontHas(b, r);
      }
      FrontInOrder(a, m);
      FrontInOrder(b, n);
      OneOrder(a[..m], b[..n]);
      assert a == a[..m] + [a[m]] && b == b[..n] + [b[n]];
    }
  }

  lemma HasFirst(a: seq<Row>)
    ensures a == [] || a[0] in a
  {
  }

  lemma FrontHas(a: seq<Row>, r: Row)
    requires InRecordOrder(a) && a != []
    ensures r in a[..|a| - 1] <==> r in a && r != a[|a| - 1]
  {
    var m := |a| - 1;
    assert a == a[..m] + [a[m]];
    if r in a[..m] {
      var i :| 0 <= i < m && a[i] == r;
      assert Before(a[i], a[m]);
    }
  }

  lemma SameLast(a: seq<Row>, b: seq<Row>)
    requires InRecordOrder(a) && InRecordOrder(b) && a != [] && b != [] && forall r :: r in a <==> r in b
    ensures a[|a| - 1] == b[|b| - 1]
  {
    var x, y := a[|a| - 1], b[|b| - 1];
    assert x in b && y in a;
    var i :| 0 <= i < |a| && a[i] == y;
    var j :| 0 <= j < |b| && b[j] == x;
    assert i < |a| - 1 ==> Before(y, x);
    assert j < |b| - 1 ==> Before(x, y);
  }

  /** Once the first `n` rows due have entered, what is due is exactly the rest, in the same order. */
  lemma DueAfterPresenting(w: World, arrivals: bool, n: nat)
    requires WorldOk(w) && w.Current().presented && n <= |Due(w, arrivals, false)|
    ensures
      var after := AfterPresenting(w, arrivals, false, n);
      after.branch in after.windows && Due(after, arrivals, false) == Due(w, arrivals, false)[n..]
  {
    hide BearingOf, Alike, RowTaken, Due, MemoOk;
    var due, ids := Due(w, arrivals, false), IdsOf(Due(w, arrivals, false)[..n]);
    DuePresentable(w, arrivals, false, n);
    StepOk(w, Present(ids));
    var after := AfterPresenting(w, arrivals, false, n);
    DueIsTaken(w, arrivals, false);
    DueIsTaken(after, arrivals, false);
    UnpresentedAfter(w.Current(), ids) by { OkNow(w); }
    TakenRowsAre(Unpresented(after.Current()), after.WeighBy(arrivals, false));
    TakenRowsAre(Unpresented(w.Current()), w.WeighBy(arrivals, false));
    forall r ensures r in Due(after, arrivals, false) <==> r in due[n..] { RestOfOrder(due, n, r); }
    forall i, j | 0 <= i < j < |due[n..]| ensures Before(due[n..][i], due[n..][j]) {
      assert Before(due[n + i], due[n + j]);
    }
    OneOrder(Due(after, arrivals, false), due[n..]);
  }

  lemma OkNow(w: World)
    requires WorldOk(w)
    ensures Ok(w.Current())
  {
  }

  lemma RestOfOrder(due: seq<Row>, n: nat, r: Row)
    requires InRecordOrder(due) && n <= |due|
    ensures r in due[n..] <==> r in due && !exists i :: 0 <= i < n && IdsOf(due[..n])[i] == r.id
  {
    if r in due[n..] {
      var k :| 0 <= k < |due[n..]| && due[n..][k] == r;
      assert due[n + k] == r;
      forall i | 0 <= i < n ensures IdsOf(due[..n])[i] != r.id { assert Before(due[i], due[n + k]); }
    }
    assert forall k | n <= k < |due| :: due[k] in due[n..] by {
      forall k | n <= k < |due| ensures due[k] in due[n..] { assert due[n..][k - n] == due[k]; }
    }
    if r in due && r !in due[n..] {
      var k :| 0 <= k < |due| && due[k] == r;
      assert IdsOf(due[..n])[k] == r.id;
    }
  }

  /** After the first `n` rows due have entered, nothing is owed exactly when they were all of them. */
  lemma OwedAfterPresenting(w: World, n: nat)
    requires WorldOk(w) && w.Current().presented && n <= |Due(w, true, false)|
    ensures
      var after := AfterPresenting(w, true, false, n);
      after.branch in after.windows && (after.FullPending(true, false) == [] <==> n == |Due(w, true, false)|)
  {
    hide BearingOf, Alike, RowTaken, Scan, WindowsOk, MemoOk;
    DueAfterPresenting(w, true, n);
    var after := AfterPresenting(w, true, false, n);
    PendingIsFullPending(after, true);
    ScanBodiesNonEmpty(Unpresented(after.Current()), after.WeighBy(true, false));
    FlattenEmpty(after.FullPending(true, false));
  }
}
