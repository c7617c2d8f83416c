/**
 AgentPresentation of src/presentation.ts for one agent: its scan, its
 presentation points, the own rows a failed write kept, and a rollback's hold.
 */
module Presentation {
  import opened Options
  import opened Audience
  import opened Windows
  import opened PendingScan
  import opened PresentationMemo

  /** How many of `n` rows a presentRows call takes in: all of them, or those before the point it threw at. */
  function Landed(cut: Option<nat>, n: nat): nat {
    if cut.Some? && cut.value < n then cut.value else n
  }

  /** The context manager, as far as the module writes to it. */
  class ContextManager {
    var branch: string
    var windows: map<string, Window>

    constructor (branch: string, window: Window)
      ensures this.branch == branch && this.windows == map[branch := window]
    {
      this.branch := branch;
      this.windows := map[branch := window];
    }

    /** presentRows, which may throw once a prefix of the rows has entered. */
    method PresentRows(ids: seq<nat>, cut: Option<nat>) returns (threw: bool)
      requires branch in windows && Presentable(windows[branch], ids)
      modifies this
      ensures threw == cut.Some? && branch == old(branch)
      ensures windows == old(windows)[branch := Presented(old(windows)[branch], ids[..Landed(cut, |ids|)])]
    {
      windows := windows[branch := Presented(windows[branch], ids[..Landed(cut, |ids|)])];
      threw := cut.Some?;
    }
  }

  /** Whether a presentation cut after `n` rows left out one that names a body: the failure a start reports. */
  predicate LeavesABodyOut(bodies: seq<seq<Row>>, cut: Option<nat>) {
    var rows := |Flatten(bodies)|;
    cut.Some? && bodies != [] && Landed(cut, rows) <= rows - |bodies[|bodies| - 1]|
  }

  /** Whether the cut falls inside the last body: past its first row, before its last. */
  predicate CutsLastBody(bodies: seq<seq<Row>>, cut: Option<nat>) {
    var rows := |Flatten(bodies)|;
    cut.Some? && bodies != [] && rows - |bodies[|bodies| - 1]| < Landed(cut, rows) < rows
  }

  /** Where the body that starts at `start` ends in a listing. */
  method BodyAfter(u: seq<Row>, start: nat) returns (i: nat)
    requires start < |u|
    ensures start < i <= |u| && GroupLen(u[start..]) == i - start
  {
    i := start + 1;
    while i < |u| && u[i - 1].body == u[i].body
      invariant start < i <= |u|
      invariant forall k | start <= k < i :: u[k].body == u[start].body
    {
      i := i + 1;
    }
    var v := u[start..];
    forall k | 0 <= k < i - start ensures v[k].body == v[0].body { assert v[k] == u[start + k]; }
    if i < |u| { assert v[i - start] == u[i] && v[i - start - 1] == u[i - 1]; }
    GroupLenIs(v, i - start);
  }

  /** The walk of pending() over a listing past `from`: the bodies to present, and the mark it leaves. */
  method Walk(unpresented: seq<Row>, from: int, weigh: Weigh) returns (bodies: seq<seq<Row>>, next: int)
    requires InRecordOrder(unpresented)
    ensures bodies == Scan(unpresented, weigh)
    ensures next == Next(unpresented, from, weigh)
  {
    hide BearingOf, IsHeld;
    var firstOwed: Option<nat>, newest, i := None, from, 0;
    bodies := [];
    while i < |unpresented|
      invariant 0 <= i <= |unpresented|
      invariant Scan(unpresented, weigh) == bodies + Scan(unpresented[i..], weigh)
      invariant FirstOwed(unpresented, weigh) ==
        if firstOwed.Some? then firstOwed else FirstOwed(unpresented[i..], weigh)
      invariant newest == if i == 0 then from else Max(from, unpresented[i - 1].sequence)
    {
      var start := i;
      i := BodyAfter(unpresented, start);
      var body := unpresented[start..i];
      StepsOver(unpresented, start, i, weigh);
      NewestOver(unpresented, start, i, from);
      newest := Max(newest, unpresented[i - 1].sequence);
      ghost var before, taken := bodies, if Taken(body, weigh) then [body] else [];
      assert Scan(unpresented, weigh) == (before + taken) + Scan(unpresented[i..], weigh) by {
        Associative(before, taken, Scan(unpresented[i..], weigh));
      }
      if Owed(body, weigh) {
        if firstOwed.None? {
          firstOwed := Some(body[0].sequence);
        }
        if BearingOf(body[0], weigh.facts) == Own || weigh.arrivals {
          bodies := bodies + [body];
        }
      }
      assert bodies == before + taken;
    }
    assert unpresented[i..] == [];
    next := if firstOwed.Some? then Max(from, firstOwed.value - 1) else newest;
  }

  class AgentPresentation {
    const manager: ContextManager
    var facts: ReaderFacts
    var generation: nat
    var memo: Option<Memo>
    var hold: Option<Hold>
    /** Own rows whose presentation at their write failed. */
    var failedOwn: set<nat>
    /**
     What the host says: whether the agent's turn is alive, and whether others' rows are frozen out of every window.
     */
    var turnAlive: bool
    var frozen: bool

    ghost function State(): World
      reads this, manager
    {
      World(manager.branch, manager.windows, facts, generation, memo, hold)
    }

    ghost predicate Valid()
      reads this, manager
    {
      WorldOk(State()) && State().Current().presented
    }

    constructor (manager: ContextManager, facts: ReaderFacts)
      requires manager.branch in manager.windows && manager.windows.Keys == {manager.branch}
      requires var w := manager.windows[manager.branch]; Ok(w) && w.presented && Alike(w.rows, facts, {})
      ensures Valid() && this.manager == manager && memo == None && hold == None && failedOwn == {} && !turnAlive
        && !frozen
    {
      this.manager := manager;
      this.facts := facts;
      generation, memo, hold, failedOwn, turnAlive, frozen := 0, None, None, {}, false, false;
    }

    /**
     The agent's pending bodies, read from the memo's mark on: exactly those a scan of every unpresented row finds,
     unless at rest a row is missed.
     */
    method Pending(arrivals: bool, atRest: bool) returns (bodies: seq<seq<Row>>)
      requires Valid()
      modifies this`memo
      ensures Valid() && State() == old(State()).Scanned(atRest)
      ensures bodies == old(State()).Pending(arrivals, atRest)
      ensures bodies == old(State()).FullPending(arrivals, atRest) <==>
        (arrivals && atRest ==> forall r :: !old(Missed(State(), r)))
    {
      hide BearingOf, Alike, MemoHolds, MemoOk, Missed, Scan, FirstOwed, After, Unpresented, Next, InRecordOrder;
      ghost var w := State();
      var window := manager.windows[manager.branch];
      var held := if atRest && hold.Some? && hold.value.branch == manager.branch then hold.value.ids else {};
      var m := Memo(generation, manager.branch, window.length, facts, -1, -1);
      if memo.Some? && memo.value.generation == generation && memo.value.branch == manager.branch
        && memo.value.length == window.length && memo.value.facts == facts {
        m := memo.value;
      }
      var from := if held == {} then m.scanFrom else Max(m.scanFrom, m.heldFrom);
      var unpresented := After(Unpresented(window), from);
      var weigh := Weigh(facts, arrivals, held);
      assert m == w.CurrentMemo() && from == w.From(atRest) && weigh == w.WeighBy(arrivals, atRest);
      UnpresentedInOrder(window);
      AfterInOrder(Unpresented(window), from);
      var next;
      bodies, next := Walk(unpresented, from, weigh);
      NextSame(unpresented, from, weigh, w.WeighBy(true, atRest));
      memo := Some(if held == {} then m.(scanFrom := next) else m.(heldFrom := next));
      PendingExactly(w, arrivals, atRest);
      ScannedOk(w, atRest);
    }

    /** One presentRows call, by every row it names; the memo follows the window past what entered. */
    method PresentIds(ids: seq<nat>, cut: Option<nat>) returns (entered: nat, threw: bool)
      requires Valid() && Presentable(manager.windows[manager.branch], ids)
      modifies manager, this`memo
      ensures Valid() && entered == Landed(cut, |ids|) && threw == (ids != [] && cut.Some?)
        && manager.branch == old(manager.branch)
      ensures State() == if ids == [] then old(State()) else old(Step(State(), Present(ids[..Landed(cut, |ids|)])))
    {
      hide BearingOf, Alike, MemoHolds, Ok;
      if ids == [] { return 0, false; }
      ghost var w := State();
      entered := Landed(cut, |ids|);
      PrefixPresentable(manager.windows[manager.branch], ids, entered);
      var lengthBefore := manager.windows[manager.branch].length;
      threw := manager.PresentRows(ids, cut);
      if memo.Some? && memo.value.length == lengthBefore {
        memo := Some(memo.value.(length := manager.windows[manager.branch].length));
      }
      StepOk(w, Present(ids[..entered]));
    }

    /**
     The agent's own pending rows, and its arrivals when `arrivals`, presented in one call. `failure` says that a row
     that names a body stayed out; `heard` are the arrivals that entered whole.
     */
    method PresentPending(arrivals: bool, atRest: bool, cut: Option<nat>) returns (heard: seq<Row>, failure: bool)
      requires Valid()
      modifies manager, this`memo
      ensures Valid() && State() == old(PresentedPending(State(), arrivals, atRest, cut))
      ensures failure == old(LeavesABodyOut(State().Pending(arrivals, atRest), cut))
      ensures heard == old(WhollyIn(State().Pending(arrivals, atRest), Landed(cut, |Due(State(), arrivals, atRest)|),
        facts))
    {
      hide BearingOf, Alike, Presentable, WindowsOk, MemoOk, Scan, Step, Flatten;
      ghost var w := State();
      var bodies := Pending(arrivals, atRest);
      PresentingPending(w, arrivals, atRest, cut);
      if bodies == [] { return [], false; }
      var rows := Flatten(bodies);
      var entered, threw := PresentIds(IdsOf(rows), cut);
      failure := threw && entered <= |rows| - |bodies[|bodies| - 1]|;
      heard := WhollyIn(bodies, entered, facts);
    }

    /**
     A turn's start. A fresh start takes arrivals unless frozen, and throws when its presentation failed; the backstop
     before a compile takes own rows only and never throws.
     */
    method PresentAtStart(freshStart: bool, cut: Option<nat>) returns (threw: bool, heard: seq<Row>)
      requires Valid()
      modifies manager, this`memo, this`hold, this`failedOwn
      ensures Valid()
      ensures threw == (freshStart && old(LeavesABodyOut(State().FullPending(!frozen, false), cut)))
      ensures hold == if freshStart && !frozen && !threw then None else old(hold)
      ensures failedOwn == if threw then old(failedOwn) else {}
      ensures State() == old(PresentedPending(State(), freshStart && !frozen, false, cut)).(hold := hold)
      ensures heard == if threw then [] else
        old(WhollyIn(State().FullPending(freshStart && !frozen, false),
          Landed(cut, |Due(State(), freshStart && !frozen, false)|), facts))
      // A fresh start that isn't frozen throws or leaves nothing owed out of the window, but where its write was cut
      // inside the last body it named.
      ensures freshStart && !frozen ==>
        (threw || State().FullPending(true, false) == [] <==> !old(CutsLastBody(State().FullPending(true, false), cut)))
    {
      hide BearingOf, Alike, MemoHolds, Scan, Flatten, WindowsOk, MemoOk, Unpresented, WhollyIn, LeavesABodyOut,
        CutsLastBody;
      ghost var w := State();
      if !freshStart { failedOwn := {}; }
      var withArrivals := freshStart && !frozen;
      PendingIsFullPending(w, withArrivals);
      var arrivals, failure := PresentPending(withArrivals, false, cut);
      if withArrivals { StartLeavesNothingOwed(w, cut); }
      if freshStart && failure { return true, []; }
      if freshStart { failedOwn := {}; }
      if withArrivals {
        EndHoldOk(State());
        hold := None;
      }
      return false, arrivals;
    }

    /**
     A tool boundary: the round's own rows on the wire first, and if that fails nothing more; then, unless frozen or the
     stream can't carry rows, what is pending up to the first body it can't carry. `heard` are those bodies wholly in.
     */
    method PresentAtBoundary(wire: seq<nat>, injects: bool, carries: Row -> bool, wireCut: Option<nat>,
      cut: Option<nat>)
      returns (heard: seq<seq<Row>>)
      requires Valid() && forall i | 0 <= i < |wire| :: wire[i] in RowIds(manager.windows[manager.branch].rows)
      modifies manager, this`memo, this`failedOwn
      ensures Valid() && failedOwn == {} && hold == old(hold) && manager.branch == old(manager.branch)
      ensures var missing := old(Tried(State().Current(), {}, wire));
        var before := old(PresentedOwn(State(), {}, wire, wireCut));
        var stops := (missing != [] && wireCut.Some?) || frozen || !injects;
        && State() == (if stops then before else PresentedCarried(before, carries, cut))
        && heard == (if stops then [] else Whole(Carried(before.FullPending(true, false), carries),
          Landed(cut, |CarriedRows(before, carries)|)))
      // The round's rows are in the window ahead of what the stream takes, all of them where their write doesn't throw.
      ensures exists left ::
        && OwnEntered(old(State().Current()), {}, wire, old(PresentedOwn(State(), {}, wire, wireCut)).Current(), left)
        && (wireCut.None? ==> left == {})
      ensures old(PresentedOwn(State(), {}, wire, wireCut)).Current().entries <= State().Current().entries
      ensures wireCut.None? ==> forall id | id in wire :: id in Ids(State().Current().entries)
    {
      hide BearingOf, Alike, Ok, MemoOk, Scan, Step, Flatten, Presentable, Tried, OwnEntered, Ids;
      ghost var w := State();
      WireEnters(w, wire, wireCut);
      CarriedAfter(PresentedOwn(w, {}, wire, wireCut), carries, cut);
      OwnPresented(w, {}, wire, wireCut);
      var missing := Tried(manager.windows[manager.branch], {}, wire);
      failedOwn := {};
      var _, wireThrew := PresentIds(missing, wireCut);
      if wireThrew || frozen || !injects { return []; }
      ghost var before := State();
      var bodies := Pending(true, false);
      var carried := CarriedUpTo(bodies, carries);
      CarriedPresented(before, carries, cut);
      if carried == [] { return []; }
      var entered, threw := PresentIds(IdsOf(Flatten(carried)), cut);
      return Whole(carried, entered);
    }

    /**
     A turn's end, or at rest: nothing while the turn is alive; what a rollback holds waits, and frozen, so does every
     arrival.
     */
    method PresentAtRest(cut: Option<nat>) returns (heard: seq<Row>)
      requires Valid()
      modifies manager, this`memo
      ensures Valid()
      ensures State() == if turnAlive then old(State()) else old(PresentedPending(State(), !frozen, true, cut))
      ensures heard == if turnAlive then [] else
        old(WhollyIn(State().Pending(!frozen, true), Landed(cut, |Due(State(), !frozen, true)|), facts))
      // No arrival enters while frozen, and no arrival a rollback holds on this branch enters at all.
      ensures forall r | r in old(Unpresented(State().Current())) && r.id in Ids(State().Current().entries) ::
        BearingOf(r, facts) == Own || (BearingOf(r, facts) == Arrival && !frozen && r.id !in old(State().Held(true)))
    {
      hide BearingOf, Alike, MemoHolds;
      if turnAlive {
        forall r | r in Unpresented(State().Current()) ensures r.id !in Ids(State().Current().entries) { }
        return [];
      }
      ghost var w := State();
      var failure;
      heard, failure := PresentPending(!frozen, true, cut);
      OnlyTakenEnter(w, !frozen, true, cut);
    }

    /**
     The agent's own rows presented as they are written. Those an earlier failed write kept come first, in record
     order; what doesn't enter now is kept for the next call.
     */
    method PresentOwn(ids: seq<nat>, cut: Option<nat>)
      requires Valid()
      requires forall i | 0 <= i < |ids| :: ids[i] in RowIds(manager.windows[manager.branch].rows)
      modifies manager, this`memo, this`failedOwn
      ensures Valid() && hold == old(hold) && manager.branch == old(manager.branch)
      ensures var tried := old(Tried(State().Current(), failedOwn, ids));
        && failedOwn == (set i | Landed(cut, |tried|) <= i < |tried| :: tried[i])
        && State().Current() == (if tried == [] then old(State().Current())
             else Presented(old(State().Current()), tried[..Landed(cut, |tried|)]))
      ensures OwnEntered(old(State().Current()), old(failedOwn), ids, State().Current(), failedOwn)
      ensures cut.None? ==> failedOwn == {}
    {
      hide BearingOf, Alike, MemoHolds, OwnEntered;
      var window := manager.windows[manager.branch];
      var tried := Tried(window, failedOwn, ids);
      TriedPresentable(window, failedOwn, ids);
      ghost var w := State();
      var entered, threw := PresentIds(tried, cut);
      OwnEnters(window, failedOwn, ids, entered);
      failedOwn := set i | entered <= i < |tried| :: tried[i];
    }

    /** A rollback's returned arrivals wait until the agent's next turn start, on the branch it left the store on. */
    method HoldUntilStart(ids: set<nat>)
      requires Valid()
      modifies this`memo, this`hold
      ensures Valid() && State() == if ids == {} then old(State()) else old(Step(State(), Event.HoldUntilStart(ids)))
      // What is held on this branch, and nothing else, is what was and what this names.
      ensures State().Held(true) == old(State().Held(true)) + ids
    {
      hide BearingOf, Alike, MemoHolds;
      if ids == {} { return; }
      StepOk(State(), Event.HoldUntilStart(ids));
      var kept := if hold.Some? && hold.value.branch == manager.branch then hold.value.ids else {};
      hold := Some(Hold(manager.branch, ids + kept));
      memo := None;
    }
  }

  // --------------------------------------------------------------------------
  // What the presentation points come to
  // --------------------------------------------------------------------------

  /** The state after a presentation of everything pending that is cut after `cut` rows. */
  ghost function PresentedPending(w: World, arrivals: bool, atRest: bool, cut: Option<nat>): World
    requires WorldOk(w) && w.Current().presented
  {
    var s, due := w.Scanned(atRest), Due(w, arrivals, atRest);
    if w.Pending(arrivals, atRest) == [] then s
    else
      DueInScanned(w, arrivals, atRest, Landed(cut, |due|));
      Step(s, Present(IdsOf(due[..Landed(cut, |due|)])))
  }

  lemma DueInScanned(w: World, arrivals: bool, atRest: bool, n: nat)
    requires WorldOk(w) && w.Current().presented && n <= |Due(w, arrivals, atRest)|
    ensures var s := w.Scanned(atRest); WorldOk(s) && Presentable(s.Current(), IdsOf(Due(w, arrivals, atRest)[..n]))
  {
    hide BearingOf, Alike, MemoHolds;
    ScannedOk(w, atRest);
    DuePresentable(w, arrivals, atRest, n);
  }

  /** Not at rest, the scan leaves due what was. */
  lemma DueUnmoved(w: World, arrivals: bool)
    requires WorldOk(w)
    ensures var s := w.Scanned(false);
      && WorldOk(s) && w.Pending(arrivals, false) == w.FullPending(arrivals, false) == s.FullPending(arrivals, false)
      && Due(s, arrivals, false) == Due(w, arrivals, false)
  {
    hide BearingOf, Alike, MemoHolds;
    ScannedOk(w, false);
    PendingIsFullPending(w, arrivals);
    PendingIsFullPending(w.Scanned(false), arrivals);
  }

  /** The state after own rows, those kept and those given, are tried. */
  ghost function PresentedOwn(w: World, kept: set<nat>, ids: seq<nat>, cut: Option<nat>): (after: World)
    requires WorldOk(w) && w.Current().presented
    ensures WorldOk(after) && after.Current().presented && after.branch == w.branch
    requires forall i | 0 <= i < |ids| :: ids[i] in RowIds(w.Current().rows)
  {
    OwnPresented(w, kept, ids, cut);
    var tried := Tried(w.Current(), kept, ids);
    if tried == [] then w else Step(w, Present(tried[..Landed(cut, |tried|)]))
  }

  lemma OwnPresented(w: World, kept: set<nat>, ids: seq<nat>, cut: Option<nat>)
    requires WorldOk(w) && w.Current().presented
    requires forall i | 0 <= i < |ids| :: ids[i] in RowIds(w.Current().rows)
    ensures var tried := Tried(w.Current(), kept, ids);
      && Presentable(w.Current(), tried)
      && (tried != [] ==>
        var e := Present(tried[..Landed(cut, |tried|)]);
        && CanHappen(w, e) && WorldOk(Step(w, e)) && Step(w, e).branch == w.branch
        && Step(w, e).Current().presented)
  {
    hide BearingOf, Alike, MemoHolds;
    var tried := Tried(w.Current(), kept, ids);
    TriedPresentable(w.Current(), kept, ids);
    PrefixPresentable(w.Current(), tried, Landed(cut, |tried|));
    if tried != [] { StepOk(w, Present(tried[..Landed(cut, |tried|)])); }
  }

  /** The bodies before the first that a live stream can't carry. */
  function Carried(bodies: seq<seq<Row>>, carries: Row -> bool): seq<seq<Row>> {
    if bodies == [] || exists r :: r in bodies[0] && !carries(r) then []
    else [bodies[0]] + Carried(bodies[1..], carries)
  }

  /** They are the longest run from the first that the stream carries every row of. */
  lemma {:induction false} CarriedIsLongest(bodies: seq<seq<Row>>, carries: Row -> bool)
    ensures var k := |Carried(bodies, carries)|;
      && k <= |bodies| && Carried(bodies, carries) == bodies[..k]
      && (forall i, r | 0 <= i < k && r in bodies[i] :: carries(r))
      && (k < |bodies| ==> exists r :: r in bodies[k] && !carries(r))
  {
    if bodies != [] && forall r | r in bodies[0] :: carries(r) {
      CarriedIsLongest(bodies[1..], carries);
    }
  }

  method CarriedUpTo(bodies: seq<seq<Row>>, carries: Row -> bool) returns (carried: seq<seq<Row>>)
    ensures carried == Carried(bodies, carries)
  {
    carried := [];
    for i := 0 to |bodies|
      invariant Carried(bodies, carries) == carried + Carried(bodies[i..], carries)
    {
      if exists r :: r in bodies[i] && !carries(r) { return; }
      assert bodies[i..][1..] == bodies[i + 1..];
      carried := carried + [bodies[i]];
    }
  }

  function CarriedRows(w: World, carries: Row -> bool): seq<Row>
    requires w.branch in w.windows
  {
    Flatten(Carried(w.FullPending(true, false), carries))
  }

  /** The bodies whose every row is among the first `n` rows. */
  function Whole(bodies: seq<seq<Row>>, n: int): seq<seq<Row>> {
    if bodies == [] || |bodies[0]| > n then [] else [bodies[0]] + Whole(bodies[1..], n - |bodies[0]|)
  }

  lemma FlattenFirst(bodies: seq<seq<Row>>, k: nat)
    requires 0 < k <= |bodies|
    ensures |Flatten(bodies[..k])| == |bodies[0]| + |Flatten(bodies[1..][..k - 1])|
  {
    assert bodies[..k][1..] == bodies[1..][..k - 1];
  }

  /** They are the longest run of bodies that fits into the first `n` rows. */
  lemma {:induction false} WholeIsLongest(bodies: seq<seq<Row>>, n: int)
    requires n >= 0
    ensures var k := |Whole(bodies, n)|;
      && k <= |bodies| && Whole(bodies, n) == bodies[..k]
      && |Flatten(bodies[..k])| <= n && (k < |bodies| ==> n < |Flatten(bodies[..k + 1])|)
  {
    if bodies != [] {
      FlattenFirst(bodies, 1);
      if |bodies[0]| <= n {
        WholeIsLongest(bodies[1..], n - |bodies[0]|);
        var k := |Whole(bodies, n)|;
        FlattenFirst(bodies, k);
        if k < |bodies| { FlattenFirst(bodies, k + 1); }
      }
    }
  }

  /** The state after a boundary's presentation of what the stream can carry. */
  ghost function PresentedCarried(w: World, carries: Row -> bool, cut: Option<nat>): World
    requires WorldOk(w) && w.Current().presented
  {
    CarriedPresented(w, carries, cut);
    var s := w.Scanned(false);
    if Carried(w.FullPending(true, false), carries) == [] then s
    else AfterPresenting(s, true, false, Landed(cut, |CarriedRows(w, carries)|))
  }

  lemma {:induction false} CarriedIsPrefix(bodies: seq<seq<Row>>, carries: Row -> bool)
    ensures Flatten(Carried(bodies, carries)) <= Flatten(bodies)
  {
    if bodies != [] { CarriedIsPrefix(bodies[1..], carries); }
  }

  lemma CarriedPresented(w: World, carries: Row -> bool, cut: Option<nat>)
    requires WorldOk(w) && w.Current().presented
    ensures var s, rows := w.Scanned(false), CarriedRows(w, carries);
      && WorldOk(s) && s.Current().presented && rows <= Due(w, true, false)
        && Due(s, true, false) == Due(w, true, false)
      && Presentable(s.Current(), IdsOf(rows)) && |IdsOf(rows)| == |rows|
      && IdsOf(rows)[..Landed(cut, |rows|)] == IdsOf(Due(s, true, false)[..Landed(cut, |rows|)])
      && (Carried(w.FullPending(true, false), carries) == [] <==> rows == [])
  {
    hide BearingOf, Alike, MemoHolds, Scan, Ok, Unpresented;
    DueUnmoved(w, true);
    var s, bodies := w.Scanned(false), w.FullPending(true, false);
    CarriedIsPrefix(bodies, carries);
    ScanBodiesNonEmpty(Unpresented(w.Current()), w.WeighBy(true, false));
    var rows, due := CarriedRows(w, carries), Due(w, true, false);
    DuePresentable(s, true, false, |rows|);
    assert due[..|rows|] == rows;
    assert due[..Landed(cut, |rows|)] == rows[..Landed(cut, |rows|)];
  }

  lemma CarriedAfter(w: World, carries: Row -> bool, cut: Option<nat>)
    requires WorldOk(w) && w.Current().presented
    ensures var after := PresentedCarried(w, carries, cut);
      && after.branch in after.windows && w.Current().entries <= after.Current().entries
      && Ids(w.Current().entries) <= Ids(after.Current().entries)
  {
    hide BearingOf, Alike, MemoHolds, Ok, MemoOk, Due, Presentable;
    CarriedPresented(w, carries, cut);
    var after := PresentedCarried(w, carries, cut);
    forall id | id in Ids(w.Current().entries) ensures id in Ids(after.Current().entries) {
      var i :| 0 <= i < |w.Current().entries| && w.Current().entries[i].id == id;
      assert after.Current().entries[i].id == id;
    }
  }

  /**
   At a boundary, the bodies from the first the stream can't carry on wait, and so does whatever a cut left out: exactly
   those stay due.
   */
  lemma RestWaits(w: World, carries: Row -> bool, cut: Option<nat>)
    requires WorldOk(w) && w.Current().presented
    ensures |CarriedRows(w, carries)| <= |Due(w, true, false)|
    ensures var after := PresentedCarried(w, carries, cut);
      && after.branch in after.windows
      && Due(after, true, false) == Due(w, true, false)[Landed(cut, |CarriedRows(w, carries)|)..]
  {
    hide BearingOf, Alike, MemoHolds, MemoOk, Due;
    CarriedPresented(w, carries, cut);
    var s, n := w.Scanned(false), Landed(cut, |CarriedRows(w, carries)|);
    if Carried(w.FullPending(true, false), carries) != [] { DueAfterPresenting(s, true, n); }
  }

  /** The arrivals among `bodies` whose every row is among the first `n` rows, each by its first row. */
  function WhollyIn(bodies: seq<seq<Row>>, n: int, facts: ReaderFacts): seq<Row> {
    if bodies == [] || |bodies[0]| > n then []
    else
      var first := if bodies[0] != [] && BearingOf(bodies[0][0], facts) == Arrival then [bodies[0][0]] else [];
      first + WhollyIn(bodies[1..], n - |bodies[0]|, facts)
  }

  /** What is heard: the first row of every arrival that entered whole, in the order the bodies have. */
  lemma {:induction false} HeardAreWhole(bodies: seq<seq<Row>>, n: int, facts: ReaderFacts)
    ensures forall r :: r in WhollyIn(bodies, n, facts) <==>
      exists b :: b in Whole(bodies, n) && b != [] && b[0] == r && BearingOf(r, facts) == Arrival
    ensures InRecordOrder(Flatten(bodies)) ==> InRecordOrder(WhollyIn(bodies, n, facts))
  {
    hide BearingOf;
    if bodies != [] && |bodies[0]| <= n {
      var rest, b := WhollyIn(bodies[1..], n - |bodies[0]|, facts), bodies[0];
      HeardAreWhole(bodies[1..], n - |b|, facts);
      if InRecordOrder(Flatten(bodies)) {
        RestInOrder(Flatten(bodies), |b|);
        assert Flatten(bodies)[|b|..] == Flatten(bodies[1..]);
        forall r | r in rest && b != [] ensures Before(b[0], r) {
          var c :| c in Whole(bodies[1..], n - |b|) && c != [] && c[0] == r;
          InFlatten(bodies[1..], n - |b|, c);
          var k :| 0 <= k < |Flatten(bodies[1..])| && Flatten(bodies[1..])[k] == r;
          assert Before(Flatten(bodies)[0], Flatten(bodies)[|b| + k]);
        }
      }
    }
  }

  lemma {:induction false} InFlatten(bodies: seq<seq<Row>>, n: int, b: seq<Row>)
    requires b in Whole(bodies, n) && b != []
    ensures b[0] in Flatten(bodies)
  {
    if b != bodies[0] { InFlatten(bodies[1..], n - |bodies[0]|, b); }
  }

  /** A start fails exactly where the write was cut before the first row of some body. */
  lemma LeavesABodyOutIs(bodies: seq<seq<Row>>, cut: Option<nat>)
    requires forall i | 0 <= i < |bodies| :: bodies[i] != []
    ensures LeavesABodyOut(bodies, cut) <==>
      cut.Some? && exists k :: 0 <= k < |bodies| && cut.value <= |Flatten(bodies[..k])|
  {
    forall k | 0 <= k < |bodies| ensures |Flatten(bodies)| == |Flatten(bodies[..k])| + |Flatten(bodies[k..])| {
      assert bodies == bodies[..k] + bodies[k..];
      FlattenOfTwo(bodies[..k], bodies[k..]);
    }
    forall k | 0 <= k < |bodies| ensures |bodies[|bodies| - 1]| <= |Flatten(bodies[k..])| { LastBodyFits(bodies[k..]); }
    if bodies != [] {
      var last := |bodies| - 1;
      assert bodies[last..] == [bodies[last]];
      assert Flatten(bodies[last..]) == bodies[last] + Flatten([]);
    }
  }

  lemma PresentingPending(w: World, arrivals: bool, atRest: bool, cut: Option<nat>)
    requires WorldOk(w) && w.Current().presented
    ensures w.Pending(arrivals, atRest) == [] <==> Due(w, arrivals, atRest) == []
    ensures
      var s, rows := w.Scanned(atRest), Due(w, arrivals, atRest);
      && WorldOk(s) && Presentable(s.Current(), IdsOf(rows)) && |IdsOf(rows)| == |rows|
      && (rows != [] ==>
        && CanHappen(s, Present(IdsOf(rows)[..Landed(cut, |rows|)]))
        && PresentedPending(w, arrivals, atRest, cut) == Step(s, Present(IdsOf(rows)[..Landed(cut, |rows|)])))
  {
    hide BearingOf, Alike, MemoHolds, Scan, Flatten, Ok, Unpresented, Presentable, After;
    ScanBodiesNonEmpty(After(Unpresented(w.Current()), w.From(atRest)), w.WeighBy(arrivals, atRest));
    FlattenEmpty(w.Pending(arrivals, atRest));
    var rows := Due(w, arrivals, atRest);
    DueInScanned(w, arrivals, atRest, |rows|);
    DueInScanned(w, arrivals, atRest, Landed(cut, |rows|));
    assert rows[..|rows|] == rows;
    assert IdsOf(rows)[..Landed(cut, |rows|)] == IdsOf(rows[..Landed(cut, |rows|)]);
  }

  lemma PrefixPresentable(w: Window, ids: seq<nat>, n: nat)
    requires Presentable(w, ids) && n <= |ids|
    ensures Presentable(w, ids[..n])
  {
  }

  lemma {:induction false} LastBodyFits(bodies: seq<seq<Row>>)
    requires bodies != []
    ensures |bodies[|bodies| - 1]| <= |Flatten(bodies)|
  {
    if |bodies| > 1 {
      LastBodyFits(bodies[1..]);
    }
  }

  /**
   A fresh start that isn't frozen fails, or leaves nothing the agent is owed out of its window, exactly when its write
   isn't cut inside the last body it names: a cut there has entered every row that names a body, so the failure isn't
   the start's, while the rest of that body stays out.
   */
  lemma StartLeavesNothingOwed(w: World, cut: Option<nat>)
    requires WorldOk(w) && w.Current().presented
    ensures
      var bodies := w.FullPending(true, false);
      var after := PresentedPending(w, true, false, cut);
      && after.branch in after.windows
      && (LeavesABodyOut(bodies, cut) || after.FullPending(true, false) == [] <==> !CutsLastBody(bodies, cut))
  {
    hide BearingOf, Alike, MemoHolds, MemoOk, Scan, Unpresented;
    DueUnmoved(w, true);
    var bodies, s := w.FullPending(true, false), w.Scanned(false);
    if bodies != [] {
      LastBodyFits(bodies);
      OwedAfterPresenting(s, Landed(cut, |Due(w, true, false)|));
    }
  }

  /** Such a start: one arrival of two shards, whose presentation throws after the first. */
  lemma StartCutInsideABody(reader: string, writer: string) returns (w: World, cut: Option<nat>)
    ensures WorldOk(w) && w.Current().presented
    ensures !LeavesABodyOut(w.FullPending(true, false), cut)
    ensures
      var after := PresentedPending(w, true, false, cut);
      after.branch in after.windows && after.FullPending(true, false) != []
  {
    w, cut := TwoShards(reader, writer), Some(1);
    TwoShardsListed(reader, writer);
    hide WindowsOk, MemoOk, Unpresented;
    var rows, weigh := [Shard(0, writer), Shard(1, writer)], w.WeighBy(true, false);
    assert GroupLen(rows[1..]) == 1;
    assert rows[..2] == rows && Scan(rows[2..], weigh) == [];
    assert Taken(rows, weigh);
    var bodies := w.FullPending(true, false);
    assert bodies == [rows];
    assert Flatten(bodies) == rows + Flatten([]) by { assert bodies[1..] == []; }
    StartLeavesNothingOwed(w, cut);
  }

  lemma OnlyTakenEnter(w: World, arrivals: bool, atRest: bool, cut: Option<nat>)
    requires WorldOk(w) && w.Current().presented
    ensures
      var after := PresentedPending(w, arrivals, atRest, cut);
      after.branch in after.windows &&
      forall r | r in Unpresented(w.Current()) && r.id in Ids(after.Current().entries) ::
        RowTaken(r, w.WeighBy(arrivals, atRest))
  {
    hide BearingOf, Alike, MemoHolds, RowTaken, Scan, Flatten;
    ScannedOk(w, atRest);
    PresentingPending(w, arrivals, atRest, cut);
    var due := Due(w, arrivals, atRest);
    var u := Unpresented(w.Current());
    if due != [] {
      var ids := IdsOf(due)[..Landed(cut, |due|)];
      PresentedOk(w.Current(), ids);
      DueIsTaken(w, arrivals, atRest);
      UnpresentedInOrder(w.Current());
      forall r | r in u && r.id in Ids(w.Current().entries) + set i | 0 <= i < |ids| :: ids[i]
        ensures RowTaken(r, w.WeighBy(arrivals, atRest))
      {
        var i :| 0 <= i < |ids| && ids[i] == r.id;
        SameIdSameRow(u, r, due[i]);
      }
    }
  }

  // --------------------------------------------------------------------------
  // Own rows at their write
  // --------------------------------------------------------------------------

  /** The kept rows still out of the window, in record order (failedOwnOf). */
  function KeptOwn(rows: seq<Row>, gone: set<nat>, kept: set<nat>): seq<nat> {
    if rows == [] then []
    else (if rows[0].id in kept && rows[0].id !in gone then [rows[0].id] else []) + KeptOwn(rows[1..], gone, kept)
  }

  /** The ids given that are neither seen already nor in the window, each once, in the order given. */
  function NewOwn(ids: seq<nat>, seen: set<nat>): seq<nat> {
    if ids == [] then []
    else if ids[0] in seen then NewOwn(ids[1..], seen)
    else [ids[0]] + NewOwn(ids[1..], seen + {ids[0]})
  }

  /** The rows presentOwn tries: those an earlier failed write kept, then those given. */
  function Tried(w: Window, kept: set<nat>, ids: seq<nat>): seq<nat> {
    var first := KeptOwn(w.rows, Ids(w.entries) + w.undone, kept);
    first + NewOwn(ids, Ids(w.entries) + set i | 0 <= i < |first| :: first[i])
  }

  ghost predicate Distinct(ids: seq<nat>) {
    forall i, j | 0 <= i < j < |ids| :: ids[i] != ids[j]
  }

  lemma {:induction false} KeptOwnAre(rows: seq<Row>, gone: set<nat>, kept: set<nat>)
    requires InRecordOrder(rows)
    ensures forall id | id in KeptOwn(rows, gone, kept) :: id in RowIds(rows) && id in kept && id !in gone
    ensures Distinct(KeptOwn(rows, gone, kept))
  {
    if rows != [] {
      var tail := rows[1..];
      RestInOrder(rows, 1);
      KeptOwnAre(tail, gone, kept);
      forall id | id in RowIds(tail) ensures id in RowIds(rows) && id != rows[0].id {
        var k :| 0 <= k < |tail| && tail[k].id == id;
        assert rows[k + 1].id == id && Before(rows[0], rows[k + 1]);
      }
      assert rows[0].id in RowIds(rows);
    }
  }

  lemma {:induction false} NewOwnAre(ids: seq<nat>, seen: set<nat>)
    ensures forall id | id in NewOwn(ids, seen) :: id in ids && id !in seen
    ensures Distinct(NewOwn(ids, seen))
    decreases |ids|
  {
    if ids != [] {
      NewOwnAre(ids[1..], if ids[0] in seen then seen else seen + {ids[0]});
    }
  }

  lemma TriedPresentable(w: Window, kept: set<nat>, ids: seq<nat>)
    requires Ok(w) && w.presented && forall i | 0 <= i < |ids| :: ids[i] in RowIds(w.rows)
    ensures Presentable(w, Tried(w, kept, ids))
  {
    var first := KeptOwn(w.rows, Ids(w.entries) + w.undone, kept);
    var seen := Ids(w.entries) + set i | 0 <= i < |first| :: first[i];
    KeptOwnAre(w.rows, Ids(w.entries) + w.undone, kept);
    NewOwnAre(ids, seen);
    var out := NewOwn(ids, seen);
    var tried := first + out;
    forall i, j | 0 <= i < j < |tried| ensures tried[i] != tried[j] {
      if i < |first| <= j { assert tried[j] == out[j - |first|] && out[j - |first|] in out && first[i] in seen; }
    }
    forall i | 0 <= i < |tried| ensures tried[i] in RowIds(w.rows) && tried[i] !in Ids(w.entries) {
      if i >= |first| { assert tried[i] == out[i - |first|] && out[i - |first|] in out; }
        else { assert first[i] in first; }
    }
  }

  /** Where a row stands in the record. */
  ghost predicate StoredBefore(rows: seq<Row>, a: nat, b: nat) {
    exists i, j :: 0 <= i < j < |rows| && rows[i].id == a && rows[j].id == b
  }

  /** Own rows an earlier failed write kept go ahead of those written next, in the order the record holds them. */
  lemma {:induction false} KeptEnterInRecordOrder(rows: seq<Row>, gone: set<nat>, kept: set<nat>, i: nat, j: nat)
    requires InRecordOrder(rows) && i < j < |KeptOwn(rows, gone, kept)|
    ensures StoredBefore(rows, KeptOwn(rows, gone, kept)[i], KeptOwn(rows, gone, kept)[j])
  {
    RestInOrder(rows, 1);
    var here := if rows[0].id in kept && rows[0].id !in gone then 1 else 0;
    var out, rest := KeptOwn(rows, gone, kept), KeptOwn(rows[1..], gone, kept);
    if i < here {
      KeptOwnAre(rows[1..], gone, kept);
      assert out[j] == rest[j - 1] && rest[j - 1] in rest;
      var k :| 0 <= k < |rows[1..]| && rows[1..][k].id == out[j];
      assert rows[0].id == out[i] && rows[k + 1].id == out[j];
    } else {
      KeptEnterInRecordOrder(rows[1..], gone, kept, i - here, j - here);
      assert out[i] == rest[i - here] && out[j] == rest[j - here];
      var x, y :| 0 <= x < y < |rows[1..]| && rows[1..][x].id == out[i] && rows[1..][y].id == out[j];
      assert rows[x + 1].id == out[i] && rows[y + 1].id == out[j];
    }
  }

  /** A row an earlier write failed on that is still to enter: stored, out of the window and not undone. */
  ghost predicate StillOut(w: Window, kept: set<nat>, id: nat) {
    id in kept && id in RowIds(w.rows) && id !in Ids(w.entries) && id !in w.undone
  }

  /** Whether `a` is among the ids given before `b` is first. */
  ghost predicate WrittenBefore(ids: seq<nat>, a: nat, b: nat) {
    exists i :: 0 <= i < |ids| && ids[i] == a && b !in ids[..i + 1]
  }

  /** The order own rows enter in: those kept as the record holds them, ahead of the rest as they were written. */
  ghost predicate GoesBefore(w: Window, kept: set<nat>, ids: seq<nat>, a: nat, b: nat) {
    if StillOut(w, kept, a) then StillOut(w, kept, b) ==> StoredBefore(w.rows, a, b)
    else !StillOut(w, kept, b) && WrittenBefore(ids, a, b)
  }

  lemma {:induction false} KeptOwnHasAll(rows: seq<Row>, gone: set<nat>, kept: set<nat>, id: nat)
    requires id in RowIds(rows) && id in kept && id !in gone
    ensures id in KeptOwn(rows, gone, kept)
  {
    var k :| 0 <= k < |rows| && rows[k].id == id;
    if k > 0 {
      assert rows[1..][k - 1].id == id;
      KeptOwnHasAll(rows[1..], gone, kept, id);
    }
  }

  lemma {:induction false} NewOwnHasAll(ids: seq<nat>, seen: set<nat>)
    ensures forall id | id in ids && id !in seen :: id in NewOwn(ids, seen)
    decreases |ids|
  {
    if ids != [] { NewOwnHasAll(ids[1..], if ids[0] in seen then seen else seen + {ids[0]}); }
  }

  lemma {:induction false} NewOwnAsWritten(ids: seq<nat>, seen: set<nat>, i: nat, j: nat)
    requires i < j < |NewOwn(ids, seen)|
    ensures WrittenBefore(ids, NewOwn(ids, seen)[i], NewOwn(ids, seen)[j])
    decreases |ids|
  {
    hide WrittenBefore;
    var more, out := if ids[0] in seen then seen else seen + {ids[0]}, NewOwn(ids, seen);
    var rest := NewOwn(ids[1..], more);
    var here := |out| - |rest|;
    NewOwnAre(ids[1..], more);
    assert out[j] == rest[j - here] && rest[j - here] in rest;
    if i < here {
      WrittenFirst(ids, out[j]);
    } else {
      NewOwnAsWritten(ids[1..], more, i - here, j - here);
      WrittenLater(ids, out[i], out[j]);
    }
  }

  lemma WrittenFirst(ids: seq<nat>, b: nat)
    requires ids != [] && ids[0] != b
    ensures WrittenBefore(ids, ids[0], b)
  {
    assert b !in ids[..0 + 1];
  }

  lemma WrittenLater(ids: seq<nat>, a: nat, b: nat)
    requires ids != [] && ids[0] != b && WrittenBefore(ids[1..], a, b)
    ensures WrittenBefore(ids, a, b)
  {
    var k :| 0 <= k < |ids[1..]| && ids[1..][k] == a && b !in ids[1..][..k + 1];
    assert ids[..k + 2] == [ids[0]] + ids[1..][..k + 1];
    assert ids[k + 1] == a;
  }

  /** What presentOwn tries: every row kept that is still out and every id given that is out, in the order they go. */
  lemma TriedAre(w: Window, kept: set<nat>, ids: seq<nat>)
    requires Ok(w)
    ensures forall id :: id in Tried(w, kept, ids) <==> StillOut(w, kept, id) || (id in ids && id !in Ids(w.entries))
    ensures forall i, j | 0 <= i < j < |Tried(w, kept, ids)| ::
      GoesBefore(w, kept, ids, Tried(w, kept, ids)[i], Tried(w, kept, ids)[j])
  {
    var gone := Ids(w.entries) + w.undone;
    var first := KeptOwn(w.rows, gone, kept);
    var firsts := set i | 0 <= i < |first| :: first[i];
    var out, tried := NewOwn(ids, Ids(w.entries) + firsts), Tried(w, kept, ids);
    KeptOwnAre(w.rows, gone, kept);
    NewOwnAre(ids, Ids(w.entries) + firsts);
    NewOwnHasAll(ids, Ids(w.entries) + firsts);
    forall id ensures id in firsts <==> StillOut(w, kept, id) {
      if StillOut(w, kept, id) { KeptOwnHasAll(w.rows, gone, kept, id); }
      if id in firsts { assert id in first; }
    }
    forall i, j | 0 <= i < j < |tried| ensures GoesBefore(w, kept, ids, tried[i], tried[j]) {
      if j < |first| {
        KeptEnterInRecordOrder(w.rows, gone, kept, i, j);
      } else {
        assert tried[j] == out[j - |first|] && out[j - |first|] in out;
        if i < |first| { assert first[i] in firsts; }
          else {
            NewOwnAsWritten(ids, Ids(w.entries) + firsts, i - |first|, j - |first|);
            assert tried[i] == out[i - |first|] && out[i - |first|] in out;
          }
      }
    }
  }

  /**
   What presenting own rows comes to: each row kept and each id given is in the window or `left` for the next call, and
   what entered did so at the end, in the order the rows go, ahead of all that is left.
   */
  ghost predicate OwnEntered(was: Window, kept: set<nat>, ids: seq<nat>, now: Window, left: set<nat>) {
    var tried := (set i | |was.entries| <= i < |now.entries| :: now.entries[i].id) + left;
    && was.entries <= now.entries && left !! Ids(now.entries)
    && (forall id :: id in tried <==> StillOut(was, kept, id) || (id in ids && id !in Ids(was.entries)))
    && (forall i, j | |was.entries| <= i < j < |now.entries| ::
      GoesBefore(was, kept, ids, now.entries[i].id, now.entries[j].id))
    && (forall i, id | |was.entries| <= i < |now.entries| && id in left ::
      GoesBefore(was, kept, ids, now.entries[i].id, id))
  }

  lemma EntriesAfter(w: Window, ids: seq<nat>)
    ensures var now, m := Presented(w, ids), |w.entries|;
      w.entries <= now.entries && |now.entries| == m + |ids| && forall i | m <= i < m + |ids| ::
        now.entries[i].id == ids[i - m]
  {
    assert Presented(w, ids).entries[..|w.entries|] == w.entries;
  }

  lemma FirstsEnter(w: Window, tried: seq<nat>, n: nat)
    requires Ok(w) && Presentable(w, tried) && n <= |tried|
    ensures var now, m := Presented(w, tried[..n]), |w.entries|;
      var left := set i | n <= i < |tried| :: tried[i];
      && w.entries <= now.entries && |now.entries| == m + n && left !! Ids(now.entries)
      && (forall i | m <= i < m + n :: now.entries[i].id == tried[i - m])
      && (forall id :: id in (set i | m <= i < |now.entries| :: now.entries[i].id) + left <==> id in tried)
  {
    var now, left, m := Presented(w, tried[..n]), set i | n <= i < |tried| :: tried[i], |w.entries|;
    PrefixPresentable(w, tried, n);
    PresentedOk(w, tried[..n]);
    EntriesAfter(w, tried[..n]);
    assert forall i | n <= i < |tried| :: tried[i] !in Ids(w.entries) && tried[i] !in tried[..n];
    hide Ok, Ids, Presented, Presentable;
    forall i | m <= i < m + n ensures now.entries[i].id == tried[i - m] { assert tried[..n][i - m] == tried[i - m]; }
    InOrOut(tried, n, now.entries, m);
  }

  lemma InOrOut(tried: seq<nat>, n: nat, entries: seq<Entry>, m: nat)
    requires n <= |tried| && |entries| == m + n && forall i | m <= i < m + n :: entries[i].id == tried[i - m]
    ensures var left := set i | n <= i < |tried| :: tried[i];
      forall id :: id in (set i | m <= i < |entries| :: entries[i].id) + left <==> id in tried
  {
    forall id | id in tried
      ensures id in (set i | m <= i < |entries| :: entries[i].id) + set i | n <= i < |tried| :: tried[i]
    {
      var k :| 0 <= k < |tried| && tried[k] == id;
      if k < n { assert entries[m + k].id == id; }
    }
  }

  lemma OwnEnters(w: Window, kept: set<nat>, ids: seq<nat>, n: nat)
    requires Ok(w) && Presentable(w, Tried(w, kept, ids)) && n <= |Tried(w, kept, ids)|
    ensures var tried := Tried(w, kept, ids);
      OwnEntered(w, kept, ids, if tried == [] then w else Presented(w, tried[..n]),
        set i | n <= i < |tried| :: tried[i])
  {
    TriedAre(w, kept, ids);
    FirstsEnter(w, Tried(w, kept, ids), n);
    hide GoesBefore, StillOut, Tried, Presentable, Presented, Ok;
    assert Tried(w, kept, ids) == [] ==> |w.entries| == |Presented(w, Tried(w, kept, ids)[..n]).entries|;
  }

  lemma WireEnters(w: World, wire: seq<nat>, cut: Option<nat>)
    requires WorldOk(w) && w.Current().presented
    requires forall i | 0 <= i < |wire| :: wire[i] in RowIds(w.Current().rows)
    ensures var before := PresentedOwn(w, {}, wire, cut).Current();
      exists left :: OwnEntered(w.Current(), {}, wire, before, left) && (cut.None? ==> left == {})
    ensures cut.None? ==> forall id | id in wire :: id in Ids(PresentedOwn(w, {}, wire, cut).Current().entries)
  {
    hide BearingOf, Alike, MemoHolds, GoesBefore;
    var tried := Tried(w.Current(), {}, wire);
    OwnPresented(w, {}, wire, cut);
    OwnEnters(w.Current(), {}, wire, Landed(cut, |tried|));
    TriedAre(w.Current(), {}, wire);
    var before := PresentedOwn(w, {}, wire, cut).Current();
    var left := set i | Landed(cut, |tried|) <= i < |tried| :: tried[i];
    assert OwnEntered(w.Current(), {}, wire, before, left);
    if cut.None? {
      assert left == {};
      forall id | id in wire ensures id in Ids(before.entries) {
        EnteredOrLeft(w.Current(), {}, wire, before, left, id);
      }
    }
  }

  lemma EnteredOrLeft(was: Window, kept: set<nat>, ids: seq<nat>, now: Window, left: set<nat>, id: nat)
    requires OwnEntered(was, kept, ids, now, left) && (StillOut(was, kept, id) || id in ids)
    ensures id in Ids(now.entries) || id in left
  {
    if id in Ids(was.entries) {
      var i :| 0 <= i < |was.entries| && was.entries[i].id == id;
      assert now.entries[i].id == id;
    }
  }

  lemma AfterInOrder(u: seq<Row>, from: int)
    requires InRecordOrder(u)
    ensures InRecordOrder(After(u, from))
  {
    CutAt(u, from);
    assert After(u, from) == u[|Upto(u, from)|..];
    RestInOrder(u, |Upto(u, from)|);
  }

  /** One turn of the scan's loop: the body it walked over, and what is left of the listing. */
  lemma StepsOver(u: seq<Row>, start: nat, end: nat, w: Weigh)
    requires start < end <= |u| && GroupLen(u[start..]) == end - start
    ensures Scan(u[start..], w) == (if Taken(u[start..end], w) then [u[start..end]] else []) + Scan(u[end..], w)
    ensures FirstOwed(u[start..], w) == if Owed(u[start..end], w) then Some(u[start].sequence)
      else FirstOwed(u[end..], w)
  {
    hide Taken, Owed, GroupLen;
    assert u[start..][..end - start] == u[start..end] && u[start..][end - start..] == u[end..];
  }

  lemma NewestOver(u: seq<Row>, start: nat, end: nat, from: int)
    requires InRecordOrder(u) && start < end <= |u|
    ensures Max(if start == 0 then from else Max(from, u[start - 1].sequence), u[end - 1].sequence)
      == Max(from, u[end - 1].sequence)
  {
    if start > 0 { assert Before(u[start - 1], u[end - 1]); }
  }

  lemma NextSame(u: seq<Row>, from: int, a: Weigh, b: Weigh)
    requires a.facts == b.facts && a.held == b.held
    ensures Next(u, from, a) == Next(u, from, b)
  {
    FirstOwedSame(u, a, b);
  }

  /** The mark a scan leaves doesn't depend on whether it takes arrivals. */
  lemma {:induction false} FirstOwedSame(u: seq<Row>, a: Weigh, b: Weigh)
    requires a.facts == b.facts && a.held == b.held
    ensures FirstOwed(u, a) == FirstOwed(u, b)
    decreases |u|
  {
    hide BearingOf;
    if u != [] {
      FirstOwedSame(u[GroupLen(u)..], a, b);
    }
  }
}
