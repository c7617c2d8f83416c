/**
 Provider waits, src/provider-waits.ts: deadlines that outlive the process,
 kept in a record journal. What binds in this process is the journal's
 reduction with the acts not yet recorded applied after it.
 */
module ProviderWaits {
  import opened Options
  import opened Journal

  /** The last instant a Date can represent, and the largest safe integer. */
  const MAX_DATE_MS := 8_640_000_000_000_000
  const CHECKPOINT_EVERY := 64

  datatype Key = Key(agent: string, model: string)

  /** A wait: no call before `until` (epoch ms), or until released where it has none. */
  datatype Wait = Wait(until: Option<int>, reason: string, setAt: int)

  type Waits = map<Key, Wait>

  datatype Act =
    | Set(key: Key, until: Option<int>, reason: string, at: int)
    | Released(agent: string, model: Option<string>)

  // --------------------------------------------------------------------------
  // Deadlines
  // --------------------------------------------------------------------------

  /** A stated retry-after, as JavaScript's number: not a number, an infinity, or a real amount of milliseconds. */
  datatype Stated = NotANumber | Infinity | MinusInfinity | Ms(amount: real)

  function Ceil(x: real): int {
    if x.Floor as real == x then x.Floor else x.Floor + 1
  }

  function WaitDeadline(stated: Stated, now: int): Option<int> {
    match stated
    case NotANumber => None
    case Infinity => None
    case MinusInfinity => Some(now)
    case Ms(amount) =>
      if amount <= 0.0 then Some(now)
      else
        var until := Ceil(now as real + amount);
        if until > MAX_DATE_MS then None else Some(until)
  }

  /**
   A stated wait is never shortened: its deadline is no earlier than it asks, and one that can't be an instant has none.
   */
  lemma DeadlineNeverShortens(stated: Stated, now: int)
    requires now <= MAX_DATE_MS
    ensures stated.Ms? && stated.amount > 0.0 && WaitDeadline(stated, now).Some? ==>
      var until := WaitDeadline(stated, now).value;
      now as real + stated.amount <= until as real < now as real + stated.amount + 1.0
    ensures WaitDeadline(stated, now).None? <==>
      stated.NotANumber? || stated.Infinity? || (stated.Ms? && stated.amount > (MAX_DATE_MS - now) as real)
  {
    if stated.Ms? && stated.amount > 0.0 {
      var x := now as real + stated.amount;
      assert x.Floor as real <= x < x.Floor as real + 1.0;
    }
  }

  /** Whether `next` binds longer than `current`. */
  predicate Outlasts(next: Option<int>, current: Option<int>) {
    current.Some? && (next.None? || next.value > current.value)
  }

  predicate Live(wait: Wait, now: int) {
    wait.until.None? || wait.until.value > now
  }

  // --------------------------------------------------------------------------
  // The reduction
  // --------------------------------------------------------------------------

  predicate Lifts(act: Act, key: Key)
    requires act.Released?
  {
    key.agent == act.agent && (act.model.None? || act.model.value == key.model)
  }

  function Reduced(waits: Waits, act: Act): Waits {
    match act
    case Set(key, until, reason, at) =>
      if key in waits && !Outlasts(until, waits[key].until) then waits else waits[key := Wait(until, reason, at)]
    case Released(_, _) => map k | k in waits && !Lifts(act, k) :: waits[k]
  }

  function Step(): (Waits, Act) -> Waits {
    (waits, act) => Reduced(waits, act)
  }

  /** `acts` applied in order after `waits`. */
  function Fold(waits: Waits, acts: seq<Act>): Waits
    decreases |acts|
  {
    if acts == [] then waits else Fold(Reduced(waits, acts[0]), acts[1..])
  }

  function LiveOnly(waits: Waits, now: int): Waits {
    map k | k in waits && Live(waits[k], now) :: waits[k]
  }

  /** The same waits bind, at `now` and ever after. */
  ghost predicate SameBinding(a: Waits, b: Waits, now: int) {
    forall k :: (k in a && Live(a[k], now)) || (k in b && Live(b[k], now)) ==> k in a && k in b && a[k] == b[k]
  }

  lemma SameLiveEver(a: Waits, b: Waits, now: int, later: int)
    requires SameBinding(a, b, now) && now <= later
    ensures LiveOnly(a, later) == LiveOnly(b, later)
  {
    forall k | k in LiveOnly(a, later) || k in LiveOnly(b, later) ensures k in a && k in b && a[k] == b[k] {
      assert (k in a && Live(a[k], now)) || (k in b && Live(b[k], now));
    }
  }

  lemma SameBindingLater(a: Waits, b: Waits, now: int, later: int)
    requires SameBinding(a, b, now) && now <= later
    ensures SameBinding(a, b, later)
  {
    forall k | (k in a && Live(a[k], later)) || (k in b && Live(b[k], later)) ensures k in a && k in b && a[k] == b[k] {
      assert (k in a && Live(a[k], now)) || (k in b && Live(b[k], now));
    }
  }

  lemma SameBindingOn(a: Waits, b: Waits, c: Waits, now: int)
    requires SameBinding(a, b, now) && SameBinding(b, c, now)
    ensures SameBinding(a, c, now)
  {
  }

  lemma DroppingExpired(a: Waits, now: int)
    ensures SameBinding(a, LiveOnly(a, now), now)
  {
  }

  /** An act means the same over waits that differ only in what has expired. */
  lemma ReducedSame(a: Waits, b: Waits, act: Act, now: int)
    requires SameBinding(a, b, now)
    ensures SameBinding(Reduced(a, act), Reduced(b, act), now)
  {
    var a', b' := Reduced(a, act), Reduced(b, act);
    forall k | (k in a' && Live(a'[k], now)) || (k in b' && Live(b'[k], now))
      ensures k in a' && k in b' && a'[k] == b'[k]
    {
      assert (k in a && Live(a[k], now)) || (k in b && Live(b[k], now)) ==> k in a && k in b && a[k] == b[k];
    }
  }

  lemma {:induction false} FoldSame(a: Waits, b: Waits, acts: seq<Act>, now: int)
    requires SameBinding(a, b, now)
    ensures SameBinding(Fold(a, acts), Fold(b, acts), now)
    decreases |acts|
  {
    if acts != [] {
      ReducedSame(a, b, acts[0], now);
      FoldSame(Reduced(a, acts[0]), Reduced(b, acts[0]), acts[1..], now);
    }
  }

  /**
   A release lifts exactly what it names; a wait stated changes no other key's, and its own key's is then no shorter.
   */
  lemma ActsNameTheirKeys(waits: Waits, act: Act, key: Key)
    ensures act.Released? && Lifts(act, key) ==> key !in Reduced(waits, act)
    ensures (if act.Released? then !Lifts(act, key) else act.key != key) ==>
      (key in Reduced(waits, act) <==> key in waits) && (key in waits ==> Reduced(waits, act)[key] == waits[key])
    ensures act.Set? && act.key == key ==>
      key in Reduced(waits, act) && !Outlasts(act.until, Reduced(waits, act)[key].until)
    ensures act.Set? && act.key == key && (key in waits ==> Outlasts(act.until, waits[key].until)) ==>
      Reduced(waits, act)[key] == Wait(act.until, act.reason, act.at)
  {
  }

  /** An act recorded twice reduces as it does once. */
  lemma TwiceIsOnce(waits: Waits, act: Act)
    ensures Reduced(Reduced(waits, act), act) == Reduced(waits, act)
  {
  }

  lemma {:induction false} FoldThenOne(waits: Waits, acts: seq<Act>, act: Act)
    ensures Fold(waits, acts + [act]) == Reduced(Fold(waits, acts), act)
    decreases |acts|
  {
    if acts == [] {
      assert Fold(waits, [act]) == Fold(Reduced(waits, act), [act][1..]);
    } else {
      assert (acts + [act])[1..] == acts[1..] + [act];
      FoldThenOne(Reduced(waits, acts[0]), acts[1..], act);
    }
  }

  /** A binding wait only ever lengthens under acts that state waits: the maximum binds. */
  lemma {:induction false} NeverShortened(waits: Waits, acts: seq<Act>, key: Key)
    requires key in waits && forall i | 0 <= i < |acts| :: acts[i].Set?
    ensures key in Fold(waits, acts) && !Outlasts(waits[key].until, Fold(waits, acts)[key].until)
    decreases |acts|
  {
    if acts != [] {
      NeverShortened(Reduced(waits, acts[0]), acts[1..], key);
    }
  }

  // --------------------------------------------------------------------------
  // The keeper of the waits
  // --------------------------------------------------------------------------

  /** What the journal's records reduce to. */
  function OnRecord(rs: seq<Record<Act, Waits>>): Waits {
    Replay(Step(), map[], rs)
  }

  /**
   How reading the journal ends: well, with the journal itself throwing, or with a record that isn't a provider wait.
   */
  datatype Reading = ReadsWell | Throws | Malformed

  /**
   What storage does while acts are offered to the journal: how it is read if an ambiguous write is to be resolved
   first, how each append in turn ends, and how a checkpoint after them does.
   */
  datatype Storage = Storage(reading: Reading, append: nat -> Outcome, checkpoint: Outcome)

  /** The journal once an ambiguous write is read back, where it can be. */
  function Reconciled(j: State<Act, Waits>, reading: Reading): State<Act, Waits> {
    if j.unreconciled && !reading.Throws? then j.Load() else j
  }

  /** Whether acts offered reach the store: no earlier write is still to be resolved, or the store to be reopened. */
  predicate Reaches(j: State<Act, Waits>, s: Storage) {
    !j.unreadable && (j.unreconciled ==> s.reading.ReadsWell?)
  }

  /** How many of `n` appends from the `i`th on land before the first that doesn't. */
  function Landing(append: nat -> Outcome, i: nat, n: nat): (landed: nat)
    ensures landed <= n && forall k | i <= k < i + landed :: append(k).Lands?
    ensures landed < n ==> !append(i + landed).Lands?
    decreases n
  {
    if n == 0 || !append(i).Lands? then 0 else 1 + Landing(append, i + 1, n - 1)
  }

  /** How many of `n` acts offered are recorded. */
  function Taken(j: State<Act, Waits>, s: Storage, n: nat): (taken: nat)
    ensures taken <= n
  {
    if Reaches(j, s) then Landing(s.append, 0, n) else 0
  }

  /** Every act the journal lists, in order. */
  function Acts(rs: seq<Record<Act, Waits>>): seq<Act> {
    EntriesAfter(rs, 0)
  }

  /**
   Acts offered to a journal in order: those recorded are exactly those before the first read or append that fails, and
   the log lists them in that order, with the one whose append failed once it had landed. The rest are left.
   */
  ghost predicate OfferedInOrder(
    was: State<Act, Waits>, acts: seq<Act>, s: Storage, rs: seq<Record<Act, Waits>>, left: seq<Act>)
  {
    var n := Taken(was, s, |acts|);
    && left == acts[n..]
    && Lists(Acts(was.view), Acts(rs), FirstOf(acts, n, Reaches(was, s) && s.append(n).FailsAfter?))
  }

  /** The first `n` acts, and the next where its record landed too. */
  function FirstOf(acts: seq<Act>, n: nat, landed: bool): seq<Act>
    requires n <= |acts|
  {
    acts[..n] + if landed && n < |acts| then [acts[n]] else []
  }

  /** `after` lists what `before` did, then `more`. */
  predicate Lists(before: seq<Act>, after: seq<Act>, more: seq<Act>) {
    after == before + more
  }

  lemma ListsOn(a: seq<Act>, b: seq<Act>, c: seq<Act>, first: seq<Act>, more: seq<Act>)
    requires Lists(a, b, first) && Lists(b, c, more)
    ensures Lists(a, c, first + more)
  {
  }

  lemma ListsNone(a: seq<Act>)
    ensures Lists(a, a, [])
  {
  }

  lemma FirstOfNone(acts: seq<Act>, landed: bool)
    ensures FirstOf(acts, 0, landed) == if landed && acts != [] then [acts[0]] else []
  {
  }

  lemma FirstOfMore(acts: seq<Act>, n: nat, landed: bool)
    requires n < |acts|
    ensures FirstOf(acts, n + 1, landed) == [acts[0]] + FirstOf(acts[1..], n, landed)
  {
  }

  /** The journal after one act is offered to it, any ambiguous write first read back. */
  function OfferedOne(j: State<Act, Waits>, act: Act, reading: Reading, outcome: Outcome): State<Act, Waits> {
    Reconciled(j, reading).Append(act, true, outcome)
  }

  /** The journal after acts are offered to it, from the `i`th append on. */
  function Offered(j: State<Act, Waits>, acts: seq<Act>, s: Storage, i: nat): State<Act, Waits>
    decreases |acts|
  {
    if acts == [] then j
    else
      if !Reaches(j, s) then Reconciled(j, s.reading)
      else
        var after := OfferedOne(j, acts[0], s.reading, s.append(i));
        if s.append(i).Lands? then Offered(after, acts[1..], s, i + 1) else after
  }

  lemma LoadChangesNoRecord(j: State<Act, Waits>)
    ensures j.Load().view == j.view && j.Load().unreadable == j.unreadable && j.Load().nextId == j.nextId
    ensures !j.Load().unreconciled
  {
  }

  lemma ActsThen(rs: seq<Record<Act, Waits>>, r: Record<Act, Waits>)
    requires r.id > 0
    ensures Acts(rs + [r]) == Acts(rs) + if r.Entry? then [r.entry] else []
  {
    assert (rs + [r])[..|rs|] == rs;
  }

  lemma OneOffered(j: State<Act, Waits>, act: Act, s: Storage, outcome: Outcome)
    requires j.nextId > 0 && Reaches(j, s)
    ensures
      var after := OfferedOne(j, act, s.reading, outcome);
      && Lists(Acts(j.view), Acts(after.view), if outcome.ThrowsInside? then [] else [act])
      && after.nextId > 0 && (outcome.Lands? ==> Reaches(after, s))
  {
    hide Acts;
    LoadChangesNoRecord(j);
    ActsThen(j.view, Entry(j.nextId, act));
  }

  lemma OfferedFirst(j: State<Act, Waits>, acts: seq<Act>, s: Storage, i: nat)
    requires acts != [] && Reaches(j, s)
    ensures
      var after := OfferedOne(j, acts[0], s.reading, s.append(i));
      Offered(j, acts, s, i) == if s.append(i).Lands? then Offered(after, acts[1..], s, i + 1) else after
  {
  }

  lemma LandingFirst(append: nat -> Outcome, i: nat, n: nat)
    ensures Landing(append, i, n) == if n == 0 || !append(i).Lands? then 0 else 1 + Landing(append, i + 1, n - 1)
  {
  }

  /** What the log lists of the acts offered. */
  lemma {:induction false} OfferedActs(j: State<Act, Waits>, acts: seq<Act>, s: Storage, i: nat)
    requires j.nextId > 0 && Reaches(j, s)
    ensures
      var n := Landing(s.append, i, |acts|);
      Lists(Acts(j.view), Acts(Offered(j, acts, s, i).view), FirstOf(acts, n, s.append(i + n).FailsAfter?))
    decreases |acts|
  {
    hide Acts, Landing, Reaches, OfferedOne, FirstOf, Lists;
    LandingFirst(s.append, i, |acts|);
    FirstOfNone(acts, s.append(i).FailsAfter?);
    if acts == [] {
      ListsNone(Acts(j.view));
    } else {
      hide Offered;
      OfferedFirst(j, acts, s, i);
      OneOffered(j, acts[0], s, s.append(i));
      if s.append(i).Lands? {
        var after, rest, n := OfferedOne(j, acts[0], s.reading, s.append(i)), acts[1..],
          Landing(s.append, i + 1, |acts| - 1);
        OfferedActs(after, rest, s, i + 1);
        FirstOfMore(acts, n, s.append(i + 1 + n).FailsAfter?);
        ListsOn(Acts(j.view), Acts(after.view), Acts(Offered(after, rest, s, i + 1).view), [acts[0]],
          FirstOf(rest, n, s.append(i + 1 + n).FailsAfter?));
      }
    }
  }

  lemma OfferedLeaves(j: State<Act, Waits>, acts: seq<Act>, s: Storage)
    requires j.nextId > 0
    ensures OfferedInOrder(j, acts, s, Offered(j, acts, s, 0).view, acts[Taken(j, s, |acts|)..])
  {
    hide Acts;
    LoadChangesNoRecord(j);
    if Reaches(j, s) { OfferedActs(j, acts, s, 0); }
  }

  /** Where storage works, every act offered is recorded, in order. */
  lemma WorkingStorageRecordsAll(
    was: State<Act, Waits>, acts: seq<Act>, s: Storage, rs: seq<Record<Act, Waits>>, left: seq<Act>)
    requires OfferedInOrder(was, acts, s, rs, left)
    requires Reaches(was, s) && forall k | 0 <= k < |acts| :: s.append(k).Lands?
    ensures left == [] && Acts(rs) == Acts(was.view) + acts
  {
    hide Acts;
    var n := Taken(was, s, |acts|);
    assert n == |acts| && acts[..n] + [] == acts;
  }

  /** Acts being offered: the first `i` recorded, the rest left. */
  ghost predicate Offering(
    was: State<Act, Waits>, acts: seq<Act>, s: Storage, j: State<Act, Waits>, left: seq<Act>, i: nat)
  {
    && was.nextId > 0 && i <= |acts| && left == acts[i..]
    && Offered(j, left, s, i) == Offered(was, acts, s, 0)
    && Taken(was, s, |acts|) == i + (if Reaches(was, s) then Landing(s.append, i, |left|) else 0)
    && if i == 0 then j == was else Reaches(was, s) && !j.Blocked()
  }

  lemma OfferingStarts(was: State<Act, Waits>, acts: seq<Act>, s: Storage)
    requires was.nextId > 0
    ensures Offering(was, acts, s, was, acts, 0)
  {
  }

  lemma OfferingLast(
    was: State<Act, Waits>, acts: seq<Act>, s: Storage, j: State<Act, Waits>, left: seq<Act>, i: nat)
    requires Offering(was, acts, s, j, left, i) && left != []
    ensures forall key :: LastLifts(acts, key) <==> LastLifts(left, key)
  {
  }

  lemma OfferingNext(
    was: State<Act, Waits>, acts: seq<Act>, s: Storage, j: State<Act, Waits>, left: seq<Act>, i: nat)
    requires Offering(was, acts, s, j, left, i) && left != []
    ensures !Reaches(j, s) ==>
      var stopped := Reconciled(j, s.reading);
      stopped == Offered(was, acts, s, 0) && OfferedInOrder(was, acts, s, stopped.view, left)
    ensures Reaches(j, s) ==>
      var after := OfferedOne(j, left[0], s.reading, s.append(i));
      if s.append(i).Lands? then Offering(was, acts, s, after, left[1..], i + 1)
      else after == Offered(was, acts, s, 0) && OfferedInOrder(was, acts, s, after.view, left)
  {
    hide OfferedInOrder;
    OfferedLeaves(was, acts, s);
    LoadChangesNoRecord(j);
  }

  lemma OfferingEnds(was: State<Act, Waits>, acts: seq<Act>, s: Storage, j: State<Act, Waits>, i: nat)
    requires Offering(was, acts, s, j, [], i)
    ensures j == Offered(was, acts, s, 0) && OfferedInOrder(was, acts, s, j.view, [])
  {
    hide OfferedInOrder;
    OfferedLeaves(was, acts, s);
  }

  /** Whether a checkpoint is due once nothing is pending. */
  predicate Due(j: State<Act, Waits>, unreadable: bool) {
    !unreadable && !j.Blocked() && j.sinceCheckpoint >= CHECKPOINT_EVERY
  }

  /**
   What the records hold binds as `durable` does, or as it does with the first pending act, whose record may have
   landed.
   */
  ghost predicate Agrees(recorded: Waits, durable: Waits, pending: seq<Act>, now: int) {
    || SameBinding(recorded, durable, now)
    || (pending != [] && SameBinding(recorded, Reduced(durable, pending[0]), now))
  }

  /**
   A record only the store's log holds: the first pending act's, or a checkpoint that binds as the records it covers do.
   */
  ghost predicate UnindexedOk(j: State<Act, Waits>, pending: seq<Act>, now: int) {
    match j.unindexed
    case None => true
    case Some(Entry(_, act)) => pending != [] && act == pending[0]
    case Some(Checkpoint(_, _, snapshot)) => SameBinding(snapshot, OnRecord(j.view), now)
  }

  class ProviderWaits {
    const journal: RecordJournal<Act, Waits>
    /** The reduction of what the journal holds. */
    var durable: Waits
    /** Acts of this process not known to be recorded, in order. */
    var pending: seq<Act>
    /** What binds in this process. */
    var view: Waits
    /**
     Set while the recorded waits can't be read: every agent and model is held, but those released since (`waived`).
     */
    var unreadable: bool
    var waived: set<(string, Option<string>)>
    /** The clock when the waits were last decided on; it never runs back. */
    ghost var clock: int
    /** Whether the records have been read in this process. */
    ghost var known: bool

    ghost predicate Valid()
      reads this, journal, journal.store
    {
      && journal.Sys().Valid()
      && view == Fold(durable, pending)
      && UnindexedOk(journal.Sys(), pending, clock)
      && (!unreadable ==> known)
      && (known ==> journal.Sys().Positioned() && Agrees(OnRecord(journal.store.view), durable, pending, clock))
    }

    constructor (journal: RecordJournal<Act, Waits>, reading: Reading, now: int)
      requires journal.Sys().Valid() && journal.store.unindexed.None?
      modifies journal
      ensures Valid() && this.journal == journal && pending == [] && clock == now
      ensures unreadable <==> !reading.ReadsWell?
    {
      this.journal := journal;
      durable, pending, view, unreadable, waived := map[], [], map[], true, {};
      clock, known := now, false;
      new;
      var _ := Load(reading);
    }

    /** Time passes. */
    ghost method Tick(now: int)
      requires Valid() && clock <= now
      modifies this`clock
      ensures Valid() && clock == now
    {
      hide Placed;
      var rs := journal.store.view;
      if SameBinding(OnRecord(rs), durable, clock) {
        SameBindingLater(OnRecord(rs), durable, clock, now);
      } else if pending != [] && SameBinding(OnRecord(rs), Reduced(durable, pending[0]), clock) {
        SameBindingLater(OnRecord(rs), Reduced(durable, pending[0]), clock, now);
      }
      var u := journal.store.unindexed;
      if u.Some? && u.value.Checkpoint? { SameBindingLater(u.value.snapshot, OnRecord(rs), clock, now); }
      clock := now;
    }

    /**
     Reads the journal into `durable`; a failure leaves the history unreadable, never empty. What binds doesn't change.
     */
    method Load(reading: Reading) returns (read: bool)
      requires Valid()
      modifies this`durable, this`view, this`unreadable, this`waived, this`known, journal
      ensures Valid() && read == reading.ReadsWell?
      ensures read ==> !unreadable && !journal.unreconciled && durable == OnRecord(journal.store.view)
      ensures !read ==> unreadable && durable == old(durable) && view == old(view) && waived == old(waived)
      ensures old(known) ==> known && SameBinding(view, old(view), clock)
      ensures journal.Sys() == if reading.Throws? then old(journal.Sys()) else old(journal.Sys()).Load()
    {
      hide Placed, SameBinding, UnindexedOk;
      SameBindingSelf(view, clock);
      LoadKeepsUnindexed(journal.Sys(), pending, clock);
      if reading.Throws? { unreadable := true; return false; }
      var loaded := journal.Load();
      if reading.Malformed? { unreadable := true; return false; }
      LoadIsReplay(Step(), map[], journal.store.view) by { ViewPlaced(journal.Sys()); }
      var before := durable;
      durable := Reduce(Step(), loaded.snapshot.Or(map[]), loaded.entries);
      view := Fold(durable, pending);
      SameBindingSelf(durable, clock);
      if known { ReloadBindsTheSame(durable, before, pending, clock); }
      unreadable, waived, known := false, {}, true;
      return true;
    }

    /** Reconciles an ambiguous write before anything is decided against the journal. */
    method Reconcile(reading: Reading)
      requires Valid()
      modifies this`durable, this`view, this`unreadable, this`waived, this`known, journal
      ensures Valid() && (unreadable || !journal.unreconciled)
      ensures journal.Sys() == Reconciled(old(journal.Sys()), reading)
      ensures old(known) ==> known && SameBinding(view, old(view), clock)
    {
      if journal.unreconciled {
        var _ := Load(reading);
      }
    }

    /** Makes an act bind in this process, ahead of its record. */
    method Apply(act: Act)
      requires Valid()
      modifies this`pending, this`view
      ensures Valid() && pending == old(pending) + [act] && view == Reduced(old(view), act)
    {
      FoldThenOne(durable, pending, act);
      pending := pending + [act];
      view := Reduced(view, act);
    }

    /** Records the first pending act, durable before the next; `recorded` says whether it landed. */
    method RecordFirst(outcome: Outcome) returns (recorded: bool)
      requires Valid() && pending != [] && !journal.Sys().Blocked()
      modifies this`pending, this`durable, journal, journal.store
      ensures Valid() && view == old(view) && recorded == outcome.Lands?
      ensures journal.Sys() == old(journal.Sys()).Append(old(pending)[0], true, outcome)
      ensures pending == if recorded then old(pending)[1..] else old(pending)
    {
      hide Placed, SameBinding, OnRecord, Agrees, UnindexedOk;
      var act := pending[0];
      FirstActWritten(journal.Sys(), durable, pending, clock, known, outcome);
      var written := journal.Append(act, true, outcome);
      if !written.Recorded? { return false; }
      durable, pending := Reduced(durable, act), pending[1..];
      return true;
    }

    /**
     Offers the pending acts to the journal in order, then a checkpoint of the journal's own reduction when one is due.
     */
    method Flush(now: int, s: Storage)
      requires Valid() && clock == now
      modifies this`pending, this`durable, this`view, this`unreadable, this`waived, this`known, journal, journal.store
      ensures Valid()
      ensures OfferedInOrder(old(journal.Sys()), old(pending), s, journal.store.view, pending)
      ensures
        var offered := old(Offered(journal.Sys(), pending, s, 0));
        journal.Sys() ==
          if pending == [] && Due(offered, unreadable)
          then offered.WriteCheckpoint(LiveOnly(durable, now), s.checkpoint) else offered
      ensures old(known) ==> known && SameBinding(view, old(view), clock)
      ensures forall key | LastLifts(old(pending), key) :: key !in view
      ensures old(unreadable || !journal.unreconciled) && unreadable ==> old(unreadable) && waived == old(waived)
    {
      hide Placed, SameBinding, OnRecord, Agrees, UnindexedOk, Acts, LastLifts, LiveOnly;
      SameBindingSelf(view, clock);
      LiftedIsGone(durable, pending);
      OfferPending(s);
      ghost var offered := journal.Sys();
      if pending != [] || unreadable || journal.unreadable || journal.unreconciled
        || journal.sinceCheckpoint < CHECKPOINT_EVERY {
        return;
      }
      CheckpointActs(offered, LiveOnly(durable, now), s.checkpoint);
      WriteCheckpoint(now, s.checkpoint);
    }

    method OfferPending(s: Storage)
      requires Valid()
      modifies this`pending, this`durable, this`view, this`unreadable, this`waived, this`known, journal, journal.store
      ensures Valid()
      ensures OfferedInOrder(old(journal.Sys()), old(pending), s, journal.store.view, pending)
      ensures journal.Sys() == old(Offered(journal.Sys(), pending, s, 0))
      ensures old(known) ==> known && SameBinding(view, old(view), clock)
      ensures forall key | LastLifts(old(pending), key) :: key !in view
      ensures old(unreadable || !journal.unreconciled) && unreadable ==> old(unreadable) && waived == old(waived)
    {
      hide Placed, SameBinding, OnRecord, Agrees, UnindexedOk, OfferedInOrder, LastLifts, Offered, Offering;
      SameBindingSelf(view, clock);
      LiftedIsGone(durable, pending);
      ghost var was, acts := journal.Sys(), pending;
      OfferingStarts(was, acts, s);
      var i := 0;
      while pending != []
        invariant Valid() && Offering(was, acts, s, journal.Sys(), pending, i)
        invariant old(unreadable || !journal.unreconciled) ==> unreadable || !journal.unreconciled
        invariant old(known) ==> known && SameBinding(view, old(view), clock)
        invariant forall key | LastLifts(old(pending), key) :: key !in view
        invariant old(unreadable || !journal.unreconciled) && unreadable ==> old(unreadable) && waived == old(waived)
        decreases |pending|
      {
        ghost var at := journal.Sys();
        OfferingNext(was, acts, s, at, pending, i);
        OfferingLast(was, acts, s, at, pending, i);
        if journal.unreconciled {
          ghost var before := view;
          var read := Load(s.reading);
          if old(known) { SameBindingOn(view, before, old(view), clock); }
          LiftedIsGone(durable, pending);
          if !read { return; }
        }
        if journal.unreadable { return; }
        var recorded := RecordFirst(s.append(i));
        if !recorded { return; }
        i := i + 1;
      }
      OfferingEnds(was, acts, s, journal.Sys(), i);
    }

    method WriteCheckpoint(now: int, outcome: Outcome)
      requires Valid() && clock == now && !unreadable && pending == [] && !journal.Sys().Blocked()
      modifies journal, journal.store
      ensures Valid() && journal.Sys() == old(journal.Sys()).WriteCheckpoint(LiveOnly(durable, now), outcome)
    {
      hide Placed, SameBinding, OnRecord, Agrees, UnindexedOk;
      CheckpointWritten(journal.Sys(), durable, now, outcome);
      var _ := journal.WriteCheckpoint(LiveOnly(durable, now), outcome);
    }

    /** Makes an act bind, and offers it to the journal after the acts before it. */
    method Make(act: Act, now: int, s: Storage)
      requires Valid() && clock == now
      modifies this`pending, this`durable, this`view, this`unreadable, this`waived, this`known, journal, journal.store
      ensures Valid()
      ensures OfferedInOrder(old(journal.Sys()), old(pending) + [act], s, journal.store.view, pending)
      ensures old(known) ==> known && SameBinding(view, Reduced(old(view), act), now)
      ensures act.Released? ==> forall key | Lifts(act, key) :: key !in view
      ensures old(unreadable || !journal.unreconciled) && unreadable ==> old(unreadable) && waived == old(waived)
    {
      hide Placed, SameBinding, OnRecord, Agrees, UnindexedOk, Reduced, Lifts, OfferedInOrder, Offered;
      Apply(act);
      assert act.Released? ==> forall key | Lifts(act, key) :: LastLifts(pending, key);
      Flush(now, s);
    }

    /** Records a provider's stated wait for a key: the longer of it and what binds already binds from now on. */
    method Set(key: Key, stated: Stated, reason: string, now: int, first: Reading, s: Storage)
      returns (wait: Wait, changed: bool)
      requires Valid() && clock == now && now <= MAX_DATE_MS
      modifies this, journal, journal.store
      ensures Valid() && clock == now
      ensures old(known) ==> known && var until := WaitDeadline(stated, now);
        && changed == old(Changes(view, key, until, now))
        && SameBinding(view, if changed then Reduced(old(view), Act.Set(key, until, reason, now)) else old(view), now)
        && wait == (if changed || old(!Binds(view, key, now)) then Wait(until, reason, now) else old(view)[key])
        && (changed || old(Binds(view, key, now)) ==> Binds(view, key, now) && view[key] == wait)
        && (until.None? || until.value > now ==> Binds(view, key, now) && !Outlasts(until, view[key].until))
      // The act goes to the journal after those not yet recorded; recorded, it outlives the process.
      ensures
        var acts := old(pending) + if changed then [Act.Set(key, WaitDeadline(stated, now), reason, now)] else [];
        OfferedInOrder(Reconciled(old(journal.Sys()), first), acts, s, journal.store.view, pending)
      ensures known && pending == [] ==> forall later | now <= later :: AfterRestart(later) == LiveOnly(view, later)
    {
      hide Placed, OnRecord, Agrees, UnindexedOk, OfferedInOrder, Offered, AfterRestart, LiveOnly, Reconciled;
      ghost var start, sure := view, known;
      Reconcile(first);
      var until := WaitDeadline(stated, now);
      var act := Act.Set(key, until, reason, now);
      assert sure ==>
        Binds(view, key, now) == Binds(start, key, now) && (Binds(view, key, now) ==> view[key] == start[key]);
      var bound := Binds(view, key, now);
      changed := Changes(view, key, until, now);
      if sure { ReducedSame(view, start, act, now); }
      if changed { Apply(act); }
      assert pending == old(pending) + if changed then [act] else [];
      ghost var applied := view;
      Flush(now, s);
      RestartsSame();
      if sure { SameBindingOn(view, applied, if changed then Reduced(start, act) else start, now); }
      wait := if (bound || changed) && key in view then view[key] else Wait(until, reason, now);
      if sure && (bound || changed) { assert Binds(applied, key, now); }
    }

    /**
     Releases a model's wait, or every wait of the agent: nothing binds or holds what it names once it returns. `lifted`
     are the waits it lifted, `override` whether it lifted the hold for unreadable records, `recorded` whether its
     record landed.
     */
    method Release(agent: string, model: Option<string>, now: int, first: Reading, s: Storage)
      returns (lifted: Waits, override: bool, recorded: bool)
      requires Valid() && clock == now
      modifies this, journal, journal.store
      ensures Valid() && clock == now
      ensures forall key | Lifts(Released(agent, Named(model)), key) :: !HeldUnread(key)
      ensures old(known) || lifted != map[] || override ==>
        forall key | Lifts(Released(agent, Named(model)), key) :: !Binds(view, key, now)
      ensures old(known) ==> known && var act := Released(agent, Named(model));
        && lifted == LiftedBy(old(view), act, now)
        && SameBinding(view, Reduced(old(view), act), now)
      ensures recorded <==> (lifted != map[] || override) && pending == []
      ensures
        var act := Released(agent, Named(model));
        var acts := old(pending) + if lifted != map[] || override then [act] else [];
        OfferedInOrder(Reconciled(old(journal.Sys()), first), acts, s, journal.store.view, pending)
      ensures known && pending == [] ==> forall later | now <= later :: AfterRestart(later) == LiveOnly(view, later)
    {
      hide Placed, SameBinding, OnRecord, Agrees, UnindexedOk, Reduced, OfferedInOrder, Offered, AfterRestart;
      ghost var start, sure := view, known;
      var act := Released(agent, Named(model));
      Reconcile(first);
      ghost var settled := view;
      if sure {
        ReducedSame(settled, start, act, now);
        LiftedSame(settled, start, act, now);
      }
      lifted := LiftedBy(view, act, now);
      override := unreadable && (agent, None) !in waived && (agent, act.model) !in waived;
      if override { waived := waived + {(agent, act.model)}; }
      if lifted == map[] && !override {
        NothingToLift(settled, act, now);
        assert pending == old(pending) + [];
        Flush(now, s);
        RestartsSame();
        if sure {
          SameBindingOn(view, settled, Reduced(settled, act), now);
          SameBindingOn(view, Reduced(settled, act), Reduced(start, act), now);
          NothingLeft(start, view, act, now);
        }
        return lifted, false, false;
      }
      Make(act, now, s);
      RestartsSame();
      if sure { SameBindingOn(view, Reduced(settled, act), Reduced(start, act), now); }
      recorded := pending == [];
    }

    /** Whether the hold that stands for unreadable records holds this key's calls. */
    predicate HeldUnread(key: Key)
      reads this
    {
      unreadable && (key.agent, None) !in waived && (key.agent, Some(key.model)) !in waived
    }

    /**
     What holds a call now: records that can't be read again (fail closed), then a live wait. Due retries come first.
     */
    method Active(key: Key, now: int, readDue: bool, writeDue: bool, read: Reading, first: Reading, s: Storage)
      returns (held: bool, wait: Option<Wait>)
      requires Valid() && clock == now
      modifies this, journal, journal.store
      ensures Valid() && clock == now
      ensures held == (HeldUnread(key) || Binds(view, key, now))
      ensures wait.Some? <==> !HeldUnread(key) && Binds(view, key, now)
      ensures old(known) ==> known && (wait.Some? ==> old(Binds(view, key, now)) && wait.value == old(view)[key])
      ensures old(known) && !unreadable ==> held == old(Binds(view, key, now))
      ensures
        var was :=
          if old(unreadable) && readDue && !read.Throws? then old(journal.Sys()).Load() else old(journal.Sys());
        if writeDue then OfferedInOrder(Reconciled(was, first), old(pending), s, journal.store.view, pending)
        else pending == old(pending) && journal.store.view == old(journal.store.view)
    {
      hide Placed, OnRecord, Agrees, UnindexedOk, OfferedInOrder, Offered;
      ghost var start, sure := view, known;
      if unreadable && readDue {
        var _ := Load(read);
      }
      if pending == [] && writeDue { NoneOffered(Reconciled(journal.Sys(), first), s); }
      if pending != [] && writeDue {
        ghost var before := view;
        Reconcile(first);
        ghost var reconciled := view;
        Flush(now, s);
        if sure {
          SameBindingOn(view, reconciled, before, now);
          SameBindingOn(view, before, start, now);
        }
      }
      if HeldUnread(key) { return true, None; }
      if Binds(view, key, now) { return true, Some(view[key]); }
      return false, None;
    }

    /** The waits live at `later` in a process that starts on what the store then lists. */
    ghost function AfterRestart(later: int): Waits
      reads this, journal, journal.store
    {
      LiveOnly(Restored(Step(), map[], journal.Sys().Log()), later)
    }

    /**
     A restart reads back what bound here, at every later time: all of it once nothing is pending, and otherwise what
     was recorded, with or without the one act whose write didn't say how it ended.
     */
    lemma RestartBindsTheSame(later: int)
      requires Valid() && known && clock <= later
      ensures
        var after := AfterRestart(later);
        if pending == [] then after == LiveOnly(view, later)
        else after == LiveOnly(durable, later) || after == LiveOnly(Reduced(durable, pending[0]), later)
    {
      RestartAgrees(journal.Sys(), durable, pending, clock, later);
    }

    lemma RestartsSame()
      requires Valid()
      ensures known && pending == [] ==> forall later | clock <= later :: AfterRestart(later) == LiveOnly(view, later)
    {
      hide Valid, AfterRestart, LiveOnly;
      forall later | known && pending == [] && clock <= later ensures AfterRestart(later) == LiveOnly(view, later) {
        RestartBindsTheSame(later);
      }
    }
  }

  lemma CheckpointActs(j: State<Act, Waits>, snapshot: Waits, outcome: Outcome)
    requires j.nextId > 0
    ensures Acts(j.WriteCheckpoint(snapshot, outcome).view) == Acts(j.view)
  {
    hide Acts;
    ActsThen(j.view, Checkpoint(j.nextId, j.lastEntryId, snapshot));
  }

  lemma NoneOffered(j: State<Act, Waits>, s: Storage)
    ensures OfferedInOrder(j, [], s, j.view, [])
  {
  }

  /** EVERY_MODEL, as a listing shows it, names every model. */
  const EVERY_MODEL := "*"

  function Named(model: Option<string>): Option<string> {
    if model == Some(EVERY_MODEL) then None else model
  }

  /** The waits binding now that a release names. */
  function LiftedBy(waits: Waits, act: Act, now: int): Waits
    requires act.Released?
  {
    map k | k in waits && Lifts(act, k) && Live(waits[k], now) :: waits[k]
  }

  predicate LastLifts(acts: seq<Act>, key: Key) {
    acts != [] && acts[|acts| - 1].Released? && Lifts(acts[|acts| - 1], key)
  }

  lemma LiftedIsGone(waits: Waits, acts: seq<Act>)
    ensures forall key | LastLifts(acts, key) :: key !in Fold(waits, acts)
  {
    if acts != [] {
      var n := |acts| - 1;
      assert acts == acts[..n] + [acts[n]];
      FoldThenOne(waits, acts[..n], acts[n]);
    }
  }

  lemma NothingToLift(waits: Waits, act: Act, now: int)
    requires act.Released? && LiftedBy(waits, act, now) == map[]
    ensures SameBinding(waits, Reduced(waits, act), now)
  {
    assert forall k | k in waits && Lifts(act, k) && Live(waits[k], now) :: k in LiftedBy(waits, act, now);
  }

  lemma NothingLeft(waits: Waits, left: Waits, act: Act, now: int)
    requires act.Released? && SameBinding(left, Reduced(waits, act), now)
    ensures forall key | Lifts(act, key) :: !Binds(left, key, now)
  {
  }

  lemma LiftedSame(a: Waits, b: Waits, act: Act, now: int)
    requires act.Released? && SameBinding(a, b, now)
    ensures LiftedBy(a, act, now) == LiftedBy(b, act, now)
  {
  }

  lemma RestartAgrees(j: State<Act, Waits>, durable: Waits, pending: seq<Act>, now: int, later: int)
    requires j.Valid() && UnindexedOk(j, pending, now) && Agrees(OnRecord(j.view), durable, pending, now)
      && now <= later
    ensures
      var restarted := LiveOnly(Restored(Step(), map[], j.Log()), later);
      if pending == [] then restarted == LiveOnly(durable, later)
      else restarted == LiveOnly(durable, later) || restarted == LiveOnly(Reduced(durable, pending[0]), later)
  {
    hide Placed, SameBinding, LiveOnly;
    LoadIsReplay(Step(), map[], j.Log());
    var rs, log := OnRecord(j.view), OnRecord(j.Log());
    if j.unindexed.None? {
      assert j.Log() == j.view;
    } else {
      var r := j.unindexed.value;
      assert (j.view + [r])[..|j.view|] == j.view;
      if r.Entry? { AppendedAct(j.view, r, durable, pending, now, true); }
      else if SameBinding(rs, durable, now) { SameBindingOn(log, rs, durable, now); }
      else { SameBindingOn(log, rs, Reduced(durable, pending[0]), now); }
    }
    if SameBinding(log, durable, now) { SameLiveEver(log, durable, now, later); }
    else { SameLiveEver(log, Reduced(durable, pending[0]), now, later); }
  }

  predicate Binds(waits: Waits, key: Key, now: int) {
    key in waits && Live(waits[key], now)
  }

  /** Whether a stated deadline is news: it outlasts what binds, or nothing binds and it isn't over already. */
  predicate Changes(waits: Waits, key: Key, until: Option<int>, now: int) {
    if Binds(waits, key, now) then Outlasts(until, waits[key].until)
    else until.None? || until.value > now
  }

  lemma LoadKeepsUnindexed(j: State<Act, Waits>, pending: seq<Act>, now: int)
    requires UnindexedOk(j, pending, now)
    ensures UnindexedOk(j.Load(), pending, now)
  {
  }

  lemma SameBindingSelf(a: Waits, now: int)
    ensures SameBinding(a, a, now)
  {
  }

  ghost predicate IsTail(rest: seq<Act>, acts: seq<Act>) {
    |rest| <= |acts| && rest == acts[|acts| - |rest|..]
  }

  /** Every way the first pending act's append can end leaves the records agreeing with what the keeper then holds. */
  lemma FirstActWritten(j: State<Act, Waits>, durable: Waits, pending: seq<Act>, now: int, known: bool,
    outcome: Outcome)
    requires pending != [] && !j.Blocked() && j.Valid() && UnindexedOk(j, pending, now)
    requires known ==> Agrees(OnRecord(j.view), durable, pending, now)
    ensures
      var after, landed := j.Append(pending[0], true, outcome), Ended(outcome).Recorded?;
      var act, rest := pending[0], if landed then pending[1..] else pending;
      && UnindexedOk(after, rest, now)
      && (known ==> Agrees(OnRecord(after.view), if landed then Reduced(durable, act) else durable, rest, now))
  {
    hide Placed, SameBinding;
    if !outcome.ThrowsInside? {
      AppendedAct(j.view, Entry(j.nextId, pending[0]), durable, pending, now, known);
    }
  }

  /** A checkpoint of the journal's own reduction, less what has expired, leaves the records binding as they did. */
  lemma CheckpointWritten(j: State<Act, Waits>, durable: Waits, now: int, outcome: Outcome)
    requires !j.Blocked() && j.Valid() && Agrees(OnRecord(j.view), durable, [], now)
    ensures
      var after := j.WriteCheckpoint(LiveOnly(durable, now), outcome);
      && UnindexedOk(after, [], now)
      && Agrees(OnRecord(after.view), durable, [], now)
  {
    hide Placed, SameBinding, LiveOnly;
    var rs, live := j.view, LiveOnly(durable, now);
    DroppingExpired(durable, now);
    SameBindingBack(OnRecord(rs), durable, now);
    SameBindingBack(durable, live, now);
    SameBindingOn(OnRecord(rs), durable, live, now);
    SameBindingBack(OnRecord(rs), live, now);
    var r: Record<Act, Waits> := Checkpoint(j.nextId, j.lastEntryId, live);
    assert (rs + [r])[..|rs|] == rs;
  }

  lemma SameBindingBack(a: Waits, b: Waits, now: int)
    requires SameBinding(a, b, now)
    ensures SameBinding(b, a, now)
  {
  }

  /** The record an append leaves: the reduction moves by its act, and so does what agreed with it. */
  lemma AppendedAct(rs: seq<Record<Act, Waits>>, r: Record<Act, Waits>, durable: Waits, pending: seq<Act>, now: int,
    agreed: bool)
    requires r.Entry? && pending != [] && r.entry == pending[0]
      && (agreed ==> Agrees(OnRecord(rs), durable, pending, now))
    ensures OnRecord(rs + [r]) == Reduced(OnRecord(rs), r.entry)
    ensures agreed ==> SameBinding(OnRecord(rs + [r]), Reduced(durable, r.entry), now)
  {
    assert (rs + [r])[..|rs|] == rs;
    if agreed {
      TwiceIsOnce(durable, r.entry);
      if SameBinding(OnRecord(rs), durable, now) {
        ReducedSame(OnRecord(rs), durable, r.entry, now);
      } else {
        ReducedSame(OnRecord(rs), Reduced(durable, r.entry), r.entry, now);
      }
    }
  }

  /** Reading back what a write left, with the acts pending applied again, binds what bound before. */
  lemma ReloadBindsTheSame(reloaded: Waits, durable: Waits, pending: seq<Act>, now: int)
    requires SameBinding(reloaded, durable, now)
      || (pending != [] && SameBinding(reloaded, Reduced(durable, pending[0]), now))
    ensures SameBinding(Fold(reloaded, pending), Fold(durable, pending), now)
  {
    if SameBinding(reloaded, durable, now) {
      FoldSame(reloaded, durable, pending, now);
    } else {
      FoldSame(reloaded, Reduced(durable, pending[0]), pending, now);
      TwiceIsOnce(durable, pending[0]);
    }
  }
}
