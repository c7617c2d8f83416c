/** A caller that reduces what its journal gives it, over whole runs with failures and reopens. */
module JournalRuns {
  import opened Options
  import opened Journal

  /** A caller whose state is what it has reduced, and which checkpoints exactly that. */
  datatype World<E, S> = World(j: State<E, S>, state: S, loaded: bool)

  datatype Event<E> =
    | Load
    | Append(entry: E, synced: bool, outcome: Outcome)
    | WriteCheckpoint(outcome: Outcome)
    /** Records of other types take ids from the same counter. */
    | Elsewhere(ids: nat)
    /** A restart: a journal on the store reopened. */
    | Reopen

  function Reopened<E, S>(j: State<E, S>): State<E, S> {
    State(j.Log(), None, j.nextId, 0, 0, false, false)
  }

  /** A caller loads before it decides anything, and again after an ambiguous write. */
  predicate Reconciled<E, S>(w: World<E, S>) {
    w.loaded && !w.j.unreconciled
  }

  function Next<E, S>(w: World<E, S>, e: Event<E>, step: (S, E) -> S, init: S): World<E, S> {
    match e
    case Load => World(w.j.Load(), Restored(step, init, w.j.view), true)
    case Append(entry, synced, outcome) =>
      var written := if w.j.Blocked() || !synced then Refused else Ended(outcome);
      World(w.j.Append(entry, synced, outcome), if written.Recorded? then step(w.state, entry) else w.state, w.loaded)
    case WriteCheckpoint(outcome) => w.(j := w.j.WriteCheckpoint(w.state, outcome))
    case Elsewhere(ids) => w.(j := w.j.(nextId := w.j.nextId + ids))
    case Reopen => World(Reopened(w.j), init, false)
  }

  predicate CanHappen<E, S>(w: World<E, S>, e: Event<E>) {
    match e
    case Append(_, _, _) => w.loaded
    case WriteCheckpoint(_) => w.loaded
    case _ => true
  }

  function Entries<E, S>(rs: seq<Record<E, S>>): seq<E> {
    EntriesAfter(rs, 0)
  }

  /** Every checkpoint of the log holds exactly the entries before it, reduced. */
  ghost predicate Exact<E, S>(rs: seq<Record<E, S>>, step: (S, E) -> S, init: S) {
    Replay(step, init, rs) == Reduce(step, init, Entries(rs))
  }

  ghost predicate Inv<E, S>(w: World<E, S>, step: (S, E) -> S, init: S) {
    && w.j.Valid() && Exact(w.j.view, step, init) && Exact(w.j.Log(), step, init)
    && (w.loaded ==> w.j.Positioned())
    && (Reconciled(w) ==> w.state == Replay(step, init, w.j.view))
  }

  lemma ExactAppend<E, S>(rs: seq<Record<E, S>>, r: Record<E, S>, step: (S, E) -> S, init: S)
    requires Exact(rs, step, init) && r.id > 0
    requires r.Checkpoint? ==> r.snapshot == Replay(step, init, rs)
    ensures Exact(rs + [r], step, init)
    ensures Replay(step, init, rs + [r]) == if r.Entry? then step(Replay(step, init, rs), r.entry) else r.snapshot
  {
    assert (rs + [r])[..|rs|] == rs;
    if r.Entry? {
      assert Entries(rs + [r]) == Entries(rs) + [r.entry];
      assert (Entries(rs) + [r.entry])[..|Entries(rs)|] == Entries(rs);
    } else {
      assert Entries(rs + [r]) == Entries(rs);
    }
  }

  lemma WriteExact<E, S>(j: State<E, S>, r: Record<E, S>, outcome: Outcome, step: (S, E) -> S, init: S)
    requires j.Valid() && !j.Blocked() && r.id == j.nextId && Exact(j.view, step, init) && Exact(j.Log(), step, init)
    requires r.Checkpoint? ==> r.snapshot == Replay(step, init, j.view)
    ensures Exact(j.Write(r, outcome).view, step, init) && Exact(j.Write(r, outcome).Log(), step, init)
    ensures
      var after := Replay(step, init, j.Write(r, outcome).view);
      !outcome.ThrowsInside? ==> after == if r.Entry? then step(Replay(step, init, j.view), r.entry) else r.snapshot
  {
    ExactAppend(j.view, r, step, init);
    assert j.Log() == j.view;
    assert j.view + [r] + [] == j.view + [r];
  }

  lemma NextOk<E, S>(w: World<E, S>, e: Event<E>, step: (S, E) -> S, init: S)
    requires Inv(w, step, init) && CanHappen(w, e)
    ensures Inv(Next(w, e, step, init), step, init)
  {
    match e
    case Load =>
      LoadPositions(w.j);
      ViewPlaced(w.j);
      LoadIsReplay(step, init, w.j.view);
    case Append(entry, synced, outcome) =>
      if !w.j.Blocked() && synced {
        var r := Entry(w.j.nextId, entry);
        WriteValid(w.j, r, outcome);
        WriteExact(w.j, r, outcome, step, init);
      }
    case WriteCheckpoint(outcome) =>
      if !w.j.Blocked() {
        var r := Checkpoint(w.j.nextId, w.j.lastEntryId, w.state);
        WriteValid(w.j, r, outcome);
        WriteExact(w.j, r, outcome, step, init);
      }
    case Elsewhere(ids) =>
    case Reopen =>
      assert Reopened(w.j).Log() == w.j.Log();
  }

  ghost predicate CanRun<E(!new), S(!new)>(w: World<E, S>, events: seq<Event<E>>, step: (S, E) -> S, init: S)
    decreases |events|
  {
    events == [] || (CanHappen(w, events[0]) && CanRun(Next(w, events[0], step, init), events[1..], step, init))
  }

  ghost function Run<E(!new), S(!new)>(w: World<E, S>, events: seq<Event<E>>, step: (S, E) -> S, init: S): World<E, S>
    requires CanRun(w, events, step, init)
    decreases |events|
  {
    if events == [] then w else Run(Next(w, events[0], step, init), events[1..], step, init)
  }

  lemma {:induction false} RunOk<E(!new), S(!new)>(w: World<E, S>, events: seq<Event<E>>, step: (S, E) -> S, init: S)
    requires Inv(w, step, init) && CanRun(w, events, step, init)
    ensures Inv(Run(w, events, step, init), step, init)
    decreases |events|
  {
    if events != [] {
      NextOk(w, events[0], step, init);
      RunOk(Next(w, events[0], step, init), events[1..], step, init);
    }
  }

  function Fresh<E, S>(init: S): World<E, S> {
    World(State([], None, 1, 0, 0, false, false), init, false)
  }

  /**
   Whatever appends, checkpoints, loads, failures and reopens occurred, a reopened journal's snapshot and tail reduce to
   the same state as every entry in the log: no checkpoint covers an entry its caller never reduced.
   */
  lemma ReopenReducesTheWholeLog<E(!new), S(!new)>(events: seq<Event<E>>, step: (S, E) -> S, init: S)
    requires CanRun(Fresh(init), events, step, init)
    ensures
      var log := Run(Fresh(init), events, step, init).j.Log();
      Restored(step, init, log) == Reduce(step, init, Entries(log))
  {
    RunOk(Fresh(init), events, step, init);
    LoadIsReplay(step, init, Run(Fresh(init), events, step, init).j.Log());
  }
}
