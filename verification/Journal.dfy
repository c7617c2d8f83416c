/**
 The append-only record journal of src/record-journal.ts over a store whose
 appends can fail in two ambiguous ways: inside the store, where the record may
 be in a log this process can't read back, and after it returned.
 */
module Journal {
  import opened Options

  /**
   A typed record: an entry, or a checkpoint with the last entry it says it covers (0 for none). Ids are the store's one
   counter.
   */
  datatype Record<E, S> = Entry(id: nat, entry: E) | Checkpoint(id: nat, through: nat, snapshot: S)

  /** What a store's append comes to. */
  datatype Outcome =
    | Lands
    /** The append itself throws; its record may have reached the log. */
    | ThrowsInside(inLog: bool)
    /** The append returned, and the durable barrier after it fails. */
    | FailsAfter

  /** How a write ended for its caller. */
  datatype Written = Recorded | Refused | Ambiguous | Unwritable

  datatype Loaded<E, S> = Loaded(snapshot: Option<S>, entries: seq<E>)

  // --------------------------------------------------------------------------
  // Records in the order of their ids
  // --------------------------------------------------------------------------

  function LastEntryId<E, S>(rs: seq<Record<E, S>>): nat {
    if rs == [] then 0
    else if rs[|rs| - 1].Entry? then rs[|rs| - 1].id
    else LastEntryId(rs[..|rs| - 1])
  }

  /** The latest checkpoint. */
  function Latest<E, S>(rs: seq<Record<E, S>>): Option<Record<E, S>> {
    if rs == [] then None
    else if rs[|rs| - 1].Checkpoint? then Some(rs[|rs| - 1])
    else Latest(rs[..|rs| - 1])
  }

  /** The entries past `through`, in order. */
  function EntriesAfter<E, S>(rs: seq<Record<E, S>>, through: nat): seq<E> {
    if rs == [] then []
    else
      var last := rs[|rs| - 1];
      EntriesAfter(rs[..|rs| - 1], through) + if last.Entry? && last.id > through then [last.entry] else []
  }

  /** What load() returns: the latest checkpoint's snapshot and the entries past what it covers. */
  function LoadOf<E, S>(rs: seq<Record<E, S>>): Loaded<E, S> {
    match Latest(rs)
    case None => Loaded(None, EntriesAfter(rs, 0))
    case Some(c) => if c.Checkpoint? then Loaded(Some(c.snapshot), EntriesAfter(rs, c.through)) else Loaded(None, [])
  }

  /** A caller's reducer. */
  function Reduce<E, S>(step: (S, E) -> S, s: S, entries: seq<E>): S {
    if entries == [] then s else step(Reduce(step, s, entries[..|entries| - 1]), entries[|entries| - 1])
  }

  /** The log replayed record by record: an entry is reduced, a checkpoint stands for all before it. */
  function Replay<E, S>(step: (S, E) -> S, init: S, rs: seq<Record<E, S>>): S {
    if rs == [] then init
    else match rs[|rs| - 1]
      case Entry(_, e) => step(Replay(step, init, rs[..|rs| - 1]), e)
      case Checkpoint(_, _, snapshot) => snapshot
  }

  /** What a caller's state is once it has loaded. */
  function Restored<E, S>(step: (S, E) -> S, init: S, rs: seq<Record<E, S>>): S {
    Reduce(step, LoadOf(rs).snapshot.Or(init), LoadOf(rs).entries)
  }

  ghost predicate Placed<E, S>(rs: seq<Record<E, S>>) {
    rs != [] ==>
      var last := rs[|rs| - 1];
      && Placed(rs[..|rs| - 1])
      && last.id > 0
      && (forall i | 0 <= i < |rs| - 1 :: rs[i].id < last.id)
      && (last.Checkpoint? ==> last.through == LastEntryId(rs[..|rs| - 1]))
  }

  lemma {:induction false} NoEntryPastLast<E, S>(rs: seq<Record<E, S>>, through: nat)
    requires Placed(rs) && LastEntryId(rs) <= through
    ensures EntriesAfter(rs, through) == []
  {
    if rs != [] {
      var before := rs[..|rs| - 1];
      if rs[|rs| - 1].Entry? {
        LastIsBelow(before, rs[|rs| - 1].id);
      }
      NoEntryPastLast(before, through);
    }
  }

  lemma {:induction false} LastIsBelow<E, S>(rs: seq<Record<E, S>>, id: nat)
    requires id > 0 && forall i | 0 <= i < |rs| :: rs[i].id < id
    ensures LastEntryId(rs) < id
  {
    if rs != [] { LastIsBelow(rs[..|rs| - 1], id); }
  }

  lemma {:induction false} LatestIsIn<E, S>(rs: seq<Record<E, S>>)
    requires Placed(rs)
    ensures Latest(rs).Some? ==> Latest(rs).value.Checkpoint? && Latest(rs).value.through <= LastEntryId(rs)
  {
    if rs != [] {
      var before := rs[..|rs| - 1];
      LatestIsIn(before);
      if rs[|rs| - 1].Entry? {
        LastIsBelow(before, rs[|rs| - 1].id);
      }
    }
  }

  /**
   The snapshot and tail a load returns reduce to the whole log replayed: no entry is covered unreduced, and none
   reduced twice.
   */
  lemma {:induction false} LoadIsReplay<E, S>(step: (S, E) -> S, init: S, rs: seq<Record<E, S>>)
    requires Placed(rs)
    ensures Restored(step, init, rs) == Replay(step, init, rs)
  {
    if rs != [] {
      var before, last := rs[..|rs| - 1], rs[|rs| - 1];
      LatestIsIn(before);
      match last
      case Checkpoint(_, through, snapshot) =>
        NoEntryPastLast(before, through);
      case Entry(id, e) =>
        LoadIsReplay(step, init, before);
        LastIsBelow(before, id);
        var tail := LoadOf(before).entries;
        assert LoadOf(rs).entries == tail + [e];
        assert (tail + [e])[..|tail|] == tail;
    }
  }

  lemma {:induction false} PlacedBefore<E, S>(rs: seq<Record<E, S>>, i: nat)
    requires Placed(rs) && i < |rs|
    ensures rs[i].id > 0 && forall k | 0 <= k < i :: rs[k].id < rs[i].id
  {
    if i < |rs| - 1 {
      PlacedBefore(rs[..|rs| - 1], i);
    }
  }

  // --------------------------------------------------------------------------
  // The journal
  // --------------------------------------------------------------------------

  /**
   A store and the journal on it: what this process can list, the record the store's log may hold beyond that, the next
   id, and the journal's own fields.
   */
  datatype State<E, S> = State(
    view: seq<Record<E, S>>, unindexed: Option<Record<E, S>>, nextId: nat,
    lastEntryId: nat, sinceCheckpoint: nat, unreconciled: bool, unreadable: bool)
  {
    /** What the store lists once it is reopened. */
    function Log(): seq<Record<E, S>> {
      view + if unindexed.Some? then [unindexed.value] else []
    }

    /**
     Whether a checkpoint now would cover exactly what the store lists: so of a loaded journal until a write is
     ambiguous.
     */
    predicate Positioned() {
      lastEntryId == LastEntryId(view)
    }

    predicate Blocked() {
      unreadable || unreconciled
    }

    ghost predicate Valid() {
      && Placed(Log())
      && nextId > 0
      && (forall i | 0 <= i < |Log()| :: Log()[i].id < nextId)
      && (unindexed.Some? ==> unreadable)
    }

    function Load(): State<E, S> {
      this.(lastEntryId :=
              if LoadOf(view).entries == [] && Latest(view).Some? then LastCovered(view) else LastEntryId(view),
            sinceCheckpoint := |LoadOf(view).entries|, unreconciled := false)
    }

    /** The store's append of `r`, then the journal's own fields once it returned. */
    function Write(r: Record<E, S>, outcome: Outcome): State<E, S> {
      match outcome
      case ThrowsInside(inLog) =>
        this.(nextId := nextId + 1, unindexed := if inLog then Some(r) else unindexed, unreadable := true)
      case _ =>
        this.(nextId := nextId + 1, view := view + [r],
              lastEntryId := if r.Entry? && r.id > lastEntryId then r.id else lastEntryId,
              sinceCheckpoint := if r.Entry? then sinceCheckpoint + 1 else 0,
              unreconciled := outcome.FailsAfter?)
    }

    function Append(entry: E, synced: bool, outcome: Outcome): State<E, S> {
      if Blocked() || !synced then this else Write(Entry(nextId, entry), outcome)
    }

    function WriteCheckpoint(snapshot: S, outcome: Outcome): State<E, S> {
      if Blocked() then this else Write(Checkpoint(nextId, lastEntryId, snapshot), outcome)
    }
  }

  /** What the latest checkpoint covers. */
  function LastCovered<E, S>(rs: seq<Record<E, S>>): nat {
    match Latest(rs)
    case None => 0
    case Some(c) => if c.Checkpoint? then c.through else 0
  }

  function Ended(outcome: Outcome): Written {
    match outcome
    case Lands => Recorded
    case ThrowsInside(_) => Unwritable
    case FailsAfter => Ambiguous
  }

  lemma ViewPlaced<E, S>(s: State<E, S>)
    requires s.Valid()
    ensures Placed(s.view) && forall i | 0 <= i < |s.view| :: s.view[i].id < s.nextId
  {
    var log := s.Log();
    assert forall i | 0 <= i < |s.view| :: log[i] == s.view[i];
    if s.unindexed.Some? { assert log[..|s.view|] == s.view; } else { assert log == s.view; }
  }

  lemma PlacedOn<E, S>(rs: seq<Record<E, S>>, r: Record<E, S>)
    requires Placed(rs) && r.id > 0 && (forall i | 0 <= i < |rs| :: rs[i].id < r.id)
    requires r.Checkpoint? ==> r.through == LastEntryId(rs)
    ensures Placed(rs + [r])
  {
    assert (rs + [r])[..|rs|] == rs;
  }

  /** A write keeps every record where it belongs, whichever way it ends. */
  lemma WriteValid<E, S>(s: State<E, S>, r: Record<E, S>, outcome: Outcome)
    requires s.Valid() && !s.Blocked() && r.id == s.nextId && (r.Checkpoint? ==> r.through == LastEntryId(s.view))
    ensures s.Write(r, outcome).Valid()
    ensures s.Positioned() ==> s.Write(r, outcome).Positioned()
  {
    ViewPlaced(s);
    PlacedOn(s.view, r);
    var v := s.Write(r, outcome);
    if outcome.ThrowsInside? {
      if !outcome.inLog { assert v.Log() == s.view; }
    } else {
      assert v.Log() == s.view + [r];
      assert (s.view + [r])[..|s.view|] == s.view;
      if r.Entry? { LastIsBelow(s.view, r.id); }
    }
  }

  /** An entry handed over is listed last exactly where nothing blocks it and the store's append returned. */
  lemma AppendIsListed<E, S>(s: State<E, S>, entry: E, synced: bool, outcome: Outcome)
    requires s.nextId > 0
    ensures
      var after, goes := s.Append(entry, synced, outcome), !s.Blocked() && synced;
      && EntriesAfter(after.view, 0)
        == EntriesAfter(s.view, 0) + (if goes && !outcome.ThrowsInside? then [entry] else [])
      && (after.unreconciled <==> s.unreconciled || (goes && outcome.FailsAfter?))
      && (after.unreadable <==> s.unreadable || (goes && outcome.ThrowsInside?))
      && (goes && outcome.ThrowsInside? && outcome.inLog ==> after.unindexed == Some(Entry(s.nextId, entry)))
  {
    assert (s.view + [Entry(s.nextId, entry)])[..|s.view|] == s.view;
    assert EntriesAfter(s.view, 0) + [] == EntriesAfter(s.view, 0);
  }

  /**
   A checkpoint whose append returned is what a load gives next, with no entry after it; any other changes no load.
   */
  lemma CheckpointIsLoaded<E, S>(s: State<E, S>, snapshot: S, outcome: Outcome)
    requires s.Valid() && s.Positioned()
    ensures LoadOf(s.WriteCheckpoint(snapshot, outcome).view) ==
      if s.Blocked() || outcome.ThrowsInside? then LoadOf(s.view) else Loaded(Some(snapshot), [])
    ensures EntriesAfter(s.WriteCheckpoint(snapshot, outcome).view, 0) == EntriesAfter(s.view, 0)
  {
    hide Placed;
    var c: Record<E, S> := Checkpoint(s.nextId, s.lastEntryId, snapshot);
    assert (s.view + [c])[..|s.view|] == s.view;
    assert EntriesAfter(s.view, 0) + [] == EntriesAfter(s.view, 0);
    NoEntryPastLast(s.view, s.lastEntryId) by { ViewPlaced(s); }
    assert EntriesAfter(s.view, s.lastEntryId) + [] == [];
  }

  lemma LoadPositions<E, S>(s: State<E, S>)
    requires s.Valid()
    ensures s.Load().Valid() && s.Load().Positioned() && s.Load().Log() == s.Log()
  {
    ViewPlaced(s);
    LatestIsIn(s.view);
    if Latest(s.view).Some? { NoTailMeansCovered(s.view, LastCovered(s.view)); }
  }

  lemma {:induction false} NoTailMeansCovered<E, S>(rs: seq<Record<E, S>>, through: nat)
    requires Placed(rs)
    ensures EntriesAfter(rs, through) == [] ==> LastEntryId(rs) <= through
  {
    if rs != [] { NoTailMeansCovered(rs[..|rs| - 1], through); }
  }

  class Store<E, S> {
    var view: seq<Record<E, S>>
    var unindexed: Option<Record<E, S>>
    var nextId: nat

    constructor ()
      ensures view == [] && unindexed == None && nextId == 1
    {
      view, unindexed, nextId := [], None, 1;
    }

    method AppendJson(record: Record<E, S>, outcome: Outcome)
      modifies this
      ensures nextId == old(nextId) + 1
      ensures view == if outcome.ThrowsInside? then old(view) else old(view) + [record]
      ensures unindexed == if outcome.ThrowsInside? && outcome.inLog then Some(record) else old(unindexed)
    {
      nextId := nextId + 1;
      if outcome.ThrowsInside? {
        if outcome.inLog { unindexed := Some(record); }
      } else {
        view := view + [record];
      }
    }
  }

  /** load()'s search for the checkpoint with the highest id. */
  method FindLatest<E, S>(rs: seq<Record<E, S>>) returns (latest: Option<Record<E, S>>)
    requires Placed(rs)
    ensures latest == Latest(rs)
  {
    latest := None;
    for i := 0 to |rs|
      invariant latest == Latest(rs[..i])
      invariant latest.Some? ==> latest.value in rs[..i]
    {
      assert rs[..i + 1][..i] == rs[..i];
      if rs[i].Checkpoint? {
        PlacedBefore(rs, i);
        if latest.None? || rs[i].id > latest.value.id { latest := Some(rs[i]); }
      }
    }
    assert rs[..|rs|] == rs;
  }

  /** load()'s tail: the entries past `through`, and the id of the last of them. */
  method FindTail<E, S>(rs: seq<Record<E, S>>, through: nat) returns (entries: seq<E>, last: nat)
    requires Placed(rs)
    ensures entries == EntriesAfter(rs, through)
    ensures last == if entries == [] then through else LastEntryId(rs)
  {
    entries, last := [], through;
    for i := 0 to |rs|
      invariant entries == EntriesAfter(rs[..i], through)
      invariant last == if entries == [] then through else LastEntryId(rs[..i])
      invariant entries != [] ==> last > through
    {
      assert rs[..i + 1][..i] == rs[..i];
      PlacedBefore(rs, i);
      if rs[i].Entry? && rs[i].id > through {
        entries := entries + [rs[i].entry];
        last := rs[i].id;
      } else if rs[i].Entry? && entries != [] {
        LastIsAnEntry(rs[..i]);
      }
    }
    assert rs[..|rs|] == rs;
  }

  lemma {:induction false} LastIsAnEntry<E, S>(rs: seq<Record<E, S>>)
    ensures LastEntryId(rs) > 0 ==> exists k :: 0 <= k < |rs| && rs[k].id == LastEntryId(rs)
  {
    if rs != [] && !rs[|rs| - 1].Entry? {
      LastIsAnEntry(rs[..|rs| - 1]);
      if LastEntryId(rs) > 0 {
        var k :| 0 <= k < |rs[..|rs| - 1]| && rs[..|rs| - 1][k].id == LastEntryId(rs);
        assert rs[k].id == LastEntryId(rs);
      }
    }
  }

  class RecordJournal<E, S> {
    const store: Store<E, S>
    var lastEntryId: nat
    var sinceCheckpoint: nat
    var unreconciled: bool
    var unreadable: bool

    function Sys(): State<E, S>
      reads this, store
    {
      State(store.view, store.unindexed, store.nextId, lastEntryId, sinceCheckpoint, unreconciled, unreadable)
    }

    constructor (store: Store<E, S>)
      ensures this.store == store
      ensures Sys() == State(store.view, store.unindexed, store.nextId, 0, 0, false, false)
    {
      this.store := store;
      lastEntryId, sinceCheckpoint, unreconciled, unreadable := 0, 0, false, false;
    }

    /**
     The latest checkpoint and every entry after it; positions the journal, and resolves a write that failed after its
     append.
     */
    method Load() returns (loaded: Loaded<E, S>)
      requires Sys().Valid()
      modifies this`lastEntryId, this`sinceCheckpoint, this`unreconciled
      ensures Sys() == old(Sys()).Load() && Sys().Valid() && Sys().Positioned()
      ensures loaded == LoadOf(store.view)
    {
      ViewPlaced(Sys());
      LoadPositions(Sys());
      LatestIsIn(store.view);
      var latest := FindLatest(store.view);
      var through := 0;
      var snapshot := None;
      if latest.Some? { through, snapshot := latest.value.through, Some(latest.value.snapshot); }
      var entries, last := FindTail(store.view, through);
      if entries == [] && latest.None? { NoTailMeansCovered(store.view, 0); }
      lastEntryId := last;
      sinceCheckpoint := |entries|;
      unreconciled := false;
      loaded := Loaded(snapshot, entries);
    }

    /**
     One entry handed to the store, unless an earlier write is unresolved or the sync before it fails (`synced` false).
     */
    method Append(entry: E, synced: bool, outcome: Outcome) returns (written: Written)
      requires Sys().Valid()
      modifies this, store
      ensures Sys() == old(Sys()).Append(entry, synced, outcome) && Sys().Valid()
      ensures written == if old(Sys().Blocked()) || !synced then Refused else Ended(outcome)
      ensures old(Sys().Positioned()) ==> Sys().Positioned()
    {
      if unreadable || unreconciled || !synced { return Refused; }
      var id := store.nextId;
      WriteValid(Sys(), Entry(id, entry), outcome);
      store.AppendJson(Entry(id, entry), outcome);
      if outcome.ThrowsInside? { unreadable := true; return Unwritable; }
      if id > lastEntryId { lastEntryId := id; }
      sinceCheckpoint := sinceCheckpoint + 1;
      if outcome.FailsAfter? { unreconciled := true; return Ambiguous; }
      return Recorded;
    }

    /** The caller's reduced state as covering every entry this journal has loaded or appended. */
    method WriteCheckpoint(snapshot: S, outcome: Outcome) returns (written: Written)
      requires Sys().Valid() && (Sys().Positioned() || Sys().Blocked())
      modifies this, store
      ensures Sys() == old(Sys()).WriteCheckpoint(snapshot, outcome) && Sys().Valid()
      ensures written == if old(Sys().Blocked()) then Refused else Ended(outcome)
      ensures old(Sys().Positioned()) ==> Sys().Positioned()
    {
      if unreadable || unreconciled { return Refused; }
      var r := Checkpoint(store.nextId, lastEntryId, snapshot);
      WriteValid(Sys(), r, outcome);
      store.AppendJson(r, outcome);
      if outcome.ThrowsInside? { unreadable := true; return Unwritable; }
      sinceCheckpoint := 0;
      if outcome.FailsAfter? { unreconciled := true; return Ambiguous; }
      return Recorded;
    }
  }
}
