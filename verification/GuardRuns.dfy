/** What every run of the guard keeps: whatever fails, whatever is retried and whatever an operator edits underneath. */
module GuardRuns {
  import opened Options
  import opened Guard

  // --------------------------------------------------------------------------
  // The audit stream: what is logged, then what is queued
  // --------------------------------------------------------------------------

  function Stamps(rs: seq<Record>): seq<Stamp> {
    seq(|rs|, i requires 0 <= i < |rs| => rs[i].stamp)
  }

  function OpStamps(ops: seq<Operation>): seq<Stamp> {
    seq(|ops|, i requires 0 <= i < |ops| => ops[i].record.stamp)
  }

  function Stream(s: State): seq<Stamp> {
    Stamps(s.log) + OpStamps(s.unrecorded)
  }

  /** One operation after another, or a second copy of it: and of one batch, its kinds in order. */
  predicate Ordered(a: Stamp, b: Stamp) {
    && a.serial <= b.serial
    && (a.serial == b.serial <==> a.batch == b.batch && a.kind == b.kind)
    && (a.batch == b.batch ==> Rank(a.kind) <= Rank(b.kind))
  }

  ghost predicate InOrder(stamps: seq<Stamp>) {
    forall i, j {:trigger Ordered(stamps[i], stamps[j])} | 0 <= i < j < |stamps| :: Ordered(stamps[i], stamps[j])
  }

  predicate Differ(a: Stamp, b: Stamp) {
    a != b
  }

  ghost predicate NoneTwice(stamps: seq<Stamp>) {
    forall i, j {:trigger Differ(stamps[i], stamps[j])} | 0 <= i < j < |stamps| :: Differ(stamps[i], stamps[j])
  }

  ghost predicate UpTo(stamps: seq<Stamp>, batch: nat, rank: int) {
    forall x | x in stamps && x.batch == batch :: Rank(x.kind) <= rank
  }

  ghost predicate Has(stamps: seq<Stamp>, batch: nat, kind: Kind) {
    exists x :: x in stamps && x.batch == batch && x.kind == kind
  }

  ghost predicate Bounded(stamps: seq<Stamp>, nextSerial: nat, nextBatch: nat) {
    forall x | x in stamps :: x.serial < nextSerial && x.batch < nextBatch
  }

  ghost predicate StreamOk(s: State) {
    && InOrder(Stream(s)) && Bounded(Stream(s), s.nextSerial, s.nextBatch)
    && (s.doubled == 0 <==> NoneTwice(Stream(s)))
  }

  lemma PushedInOrder(stamps: seq<Stamp>, x: Stamp)
    requires InOrder(stamps) && UpTo(stamps, x.batch, Rank(x.kind) - 1) && forall y | y in stamps :: y.serial < x.serial
    ensures InOrder(stamps + [x]) && (NoneTwice(stamps + [x]) <==> NoneTwice(stamps))
  {
    var longer := stamps + [x];
    forall i, j | 0 <= i < j < |longer| ensures Ordered(longer[i], longer[j]) {
      if j < |stamps| { assert Ordered(stamps[i], stamps[j]); } else { assert stamps[i] in stamps; }
    }
    if NoneTwice(stamps) {
      forall i, j | 0 <= i < j < |longer| ensures Differ(longer[i], longer[j]) {
        if j < |stamps| { assert Differ(stamps[i], stamps[j]); } else { assert stamps[i] in stamps; }
      }
    }
    if NoneTwice(longer) {
      forall i, j | 0 <= i < j < |stamps| ensures Differ(stamps[i], stamps[j]) {
        assert Differ(longer[i], longer[j]);
      }
    }
  }

  function Doubled(stamps: seq<Stamp>, p: nat): seq<Stamp>
    requires p < |stamps|
  {
    stamps[..p + 1] + stamps[p..]
  }

  lemma DoubledInOrder(stamps: seq<Stamp>, p: nat)
    requires p < |stamps| && InOrder(stamps)
    ensures InOrder(Doubled(stamps, p)) && !NoneTwice(Doubled(stamps, p))
    ensures forall x :: x in Doubled(stamps, p) <==> x in stamps
  {
    var longer := Doubled(stamps, p);
    forall i, j | 0 <= i < j < |longer| ensures Ordered(longer[i], longer[j]) {
      var a, b := if i <= p then i else i - 1, if j <= p then j else j - 1;
      assert longer[i] == stamps[a] && longer[j] == stamps[b];
      if a < b { assert Ordered(stamps[a], stamps[b]); }
    }
    assert !Differ(longer[p], longer[p + 1]);
    forall x | x in stamps ensures x in longer {
      var k :| 0 <= k < |stamps| && stamps[k] == x;
      assert x == longer[if k <= p then k else k + 1];
    }
  }

  /** Whatever isn't the storage queue's to change. */
  predicate SameBatches(s: State, v: State) {
    && v.branch == s.branch && v.nextId == s.nextId && v.synced == s.synced
    && v.pending == s.pending && v.annotating == s.annotating && v.recovering == s.recovering
    && v.nextBatch == s.nextBatch && v.nextSerial == s.nextSerial
    && v.placed == s.placed && v.leaked == s.leaked && v.dropped == s.dropped && v.wired == s.wired
  }

  lemma AppliedFrame(s: State, op: Operation, attempt: Attempt)
    ensures var (v, done) := Applied(s, op, attempt);
      && SameBatches(s, v) && v.log == s.log && v.holds == s.holds && v.unrecorded == s.unrecorded
        && v.doubled == s.doubled
      && done.record.stamp == op.record.stamp && (done.admission.Some? ==> done == op)
  {
  }

  lemma StampsThen(rs: seq<Record>, r: Record)
    ensures Stamps(rs + [r]) == Stamps(rs) + [r.stamp]
  {
  }

  lemma OpStampsFrom(op: Operation, ops: seq<Operation>)
    ensures OpStamps([op] + ops) == [op.record.stamp] + OpStamps(ops)
  {
  }

  /**
   What trying the head of the queue does to the stream: nothing, or a second copy of a record whose write threw having
   landed.
   */
  lemma FlushOneStream(s: State, t: Try)
    requires s.unrecorded != []
    ensures var after := FlushOne(s, t).0;
      || (Stream(after) == Stream(s) && after.doubled == s.doubled)
      || (Stream(after) == Doubled(Stream(s), |s.log|) && after.doubled == s.doubled + 1)
    ensures s.log <= FlushOne(s, t).0.log && |s.log| < |Stream(s)|
  {
    hide Applied, Stamps, OpStamps;
    var head, rest, stamp := s.unrecorded[0], s.unrecorded[1..], s.unrecorded[0].record.stamp;
    AppliedFrame(s, head, t.edit);
    var op := Applied(s, head, t.edit).1;
    assert s.unrecorded == [head] + rest;
    OpStampsFrom(head, rest);
    OpStampsFrom(Unheld(op), rest);
    StampsThen(s.log, op.record);
    StreamSplit(Stamps(s.log), stamp, OpStamps(rest));
    assert |Stamps(s.log)| == |s.log| by { AsManyStamps(s.log); }
    assert s.log + [] == s.log;
  }

  lemma AsManyStamps(rs: seq<Record>)
    ensures |Stamps(rs)| == |rs|
  {
  }

  lemma StreamSplit(a: seq<Stamp>, x: Stamp, b: seq<Stamp>)
    ensures a + [x] + b == a + ([x] + b)
    ensures Doubled(a + ([x] + b), |a|) == a + [x] + ([x] + b)
  {
  }

  // --------------------------------------------------------------------------
  // Who holds a message
  // --------------------------------------------------------------------------

  function QueueHolds(ops: seq<Operation>): seq<nat> {
    if ops == [] then []
    else (if ops[0].held.Some? then [ops[0].held.value] else []) + QueueHolds(ops[1..])
  }

  function BatchHolds(bs: seq<Batch>): seq<nat> {
    seq(|bs|, i requires 0 <= i < |bs| => bs[i].messageId)
  }

  function PendingHold(pending: Option<Batch>): seq<nat> {
    if pending.Some? then [pending.value.messageId] else []
  }

  /** The messages the guard is still answerable for: each once. */
  function Holders(s: State): seq<nat> {
    QueueHolds(s.unrecorded) + BatchHolds(s.annotating) + PendingHold(s.pending)
  }

  predicate Apart(a: nat, b: nat) {
    a != b
  }

  ghost predicate EachOnce(ids: seq<nat>) {
    forall i, j {:trigger Apart(ids[i], ids[j])} | 0 <= i < j < |ids| :: Apart(ids[i], ids[j])
  }

  ghost predicate HeldFor(ids: seq<nat>, holds: set<nat>, leaked: set<nat>, nextId: nat) {
    && EachOnce(ids)
    && (forall id | id in ids :: id < nextId && id !in leaked)
    && (forall id | id in leaked :: id < nextId)
    && (forall id :: id in holds <==> id in ids || id in leaked)
  }

  ghost predicate HoldsOk(s: State) {
    HeldFor(Holders(s), s.holds, s.leaked, s.nextId)
  }

  lemma WithoutOne(a: seq<nat>, x: nat, b: seq<nat>)
    requires EachOnce(a + [x] + b)
    ensures EachOnce(a + b) && x !in a + b && forall id :: id in a + [x] + b <==> id in a + b || id == x
  {
    var before, after := a + [x] + b, a + b;
    forall i, j | 0 <= i < j < |after| ensures Apart(after[i], after[j]) {
      assert Apart(before[if i < |a| then i else i + 1], before[if j < |a| then j else j + 1]);
    }
    forall i | 0 <= i < |after| ensures after[i] != x {
      if i < |a| { assert Apart(before[i], before[|a|]); } else { assert Apart(before[|a|], before[i + 1]); }
    }
  }

  /** A message given up leaves every other held as it was. */
  lemma HeldForOthers(a: seq<nat>, x: nat, b: seq<nat>, holds: set<nat>, leaked: set<nat>, nextId: nat)
    requires HeldFor(a + [x] + b, holds, leaked, nextId)
    ensures HeldFor(a + b, holds - {x}, leaked, nextId)
  {
    WithoutOne(a, x, b);
    hide EachOnce;
    assert x in a + [x] + b;
  }

  lemma Associative(x: seq<nat>, y: seq<nat>, z: seq<nat>)
    ensures x + (y + z) == x + y + z
  {
  }

  lemma {:induction false} QueueHoldsOfTwo(a: seq<Operation>, b: seq<Operation>)
    ensures QueueHolds(a + b) == QueueHolds(a) + QueueHolds(b)
  {
    if a == [] {
      assert a + b == b;
    } else {
      assert (a + b)[1..] == a[1..] + b && (a + b)[0] == a[0];
      QueueHoldsOfTwo(a[1..], b);
      Associative(if a[0].held.Some? then [a[0].held.value] else [], QueueHolds(a[1..]), QueueHolds(b));
    }
  }

  /** A head that gives up its hold leaves every other held as it was. */
  lemma ReleasedHolds(s: State, rest: seq<Operation>, v: State)
    requires HoldsOk(s) && s.unrecorded != [] && v.annotating == s.annotating && v.pending == s.pending
    requires v.nextId == s.nextId && v.leaked == s.leaked && v.holds == Released(s, s.unrecorded[0].held).holds
    requires QueueHolds(v.unrecorded) == QueueHolds(s.unrecorded[1..])
    ensures HoldsOk(v)
  {
    var head, rest := s.unrecorded[0].held, QueueHolds(s.unrecorded[1..]);
    var b, c := BatchHolds(s.annotating), PendingHold(s.pending);
    hide HeldFor, BatchHolds, PendingHold;
    if head.None? {
      assert [] + rest == rest;
    } else {
      Regrouped([head.value], rest, b, c);
      HeldForOthers([], head.value, rest + b + c, s.holds, s.leaked, s.nextId) by {
        FromNothing([head.value], rest + b + c);
      }
      FromNothing([], rest + b + c);
    }
  }

  lemma Regrouped(x: seq<nat>, a: seq<nat>, b: seq<nat>, c: seq<nat>)
    ensures x + a + b + c == x + (a + b + c)
    ensures a + x + b + c == a + x + (b + c)
  {
  }

  lemma FromNothing(x: seq<nat>, a: seq<nat>)
    ensures [] + x + a == x + a && [] + a == a
  {
  }

  // --------------------------------------------------------------------------
  // Batches, operations and edits
  // --------------------------------------------------------------------------

  /** A batch as placed, but for what its wait has made of it. */
  predicate Kin(b: Batch, placed: map<nat, Batch>) {
    b.messageId in placed && b == placed[b.messageId].(submitted := b.submitted, durable := b.durable)
  }

  /**
   An edit of the guard's: over a batch's own placeholder, on its own branch, and of its original only where that was
   accepted.
   */
  predicate EditOk(placed: map<nat, Batch>, e: Edit, batch: nat, accepted: bool) {
    && e.messageId in placed
    && var b := placed[e.messageId];
      batch == b.id && e.expected == b.withheld && e.branch == b.branch && (accepted ==> e.content == b.content)
  }

  predicate OperationOk(placed: map<nat, Batch>, op: Operation) {
    match op.admission
    case None => op.held.None?
    case Some(e) => op.held == Some(e.messageId) && EditOk(placed, e, op.record.stamp.batch, op.record.accepted)
  }

  predicate MadeOk(placed: map<nat, Batch>, m: Made) {
    && EditOk(placed, m.edit, m.batch, m.accepted)
    && m.branch == m.edit.branch && m.before in {m.edit.expected, m.edit.content}
  }

  /** A batch's originals are in the audit log, and synced. */
  ghost predicate Audited(s: State, batch: nat) {
    s.synced <= |s.log| && Has(Stamps(s.log[..s.synced]), batch, Staged)
      && Has(Stamps(s.log[..s.synced]), batch, Linked)
  }

  ghost predicate AuditOk(s: State) {
    && s.synced <= |s.log|
    && (s.pending.Some? && s.pending.value.submitted ==> s.pending.value.durable)
    && (s.pending.Some? && s.pending.value.durable ==> Audited(s, s.pending.value.id))
    && (forall batch | batch in s.wired :: Audited(s, batch))
    && (forall op | op in s.unrecorded && op.record.accepted :: Audited(s, op.record.stamp.batch))
    && (forall m | m in s.edits && m.accepted :: Audited(s, m.batch))
  }

  /** How far each batch still in the guard's hands has come in the stream; the first being annotated, up to `head`. */
  ghost predicate PhasesOk(s: State, head: int) {
    && (s.pending.Some? ==> var b := s.pending.value;
      Kin(b, s.placed) && b.id < s.nextBatch && UpTo(Stream(s), b.id, 1) && Has(Stream(s), b.id, Staged))
    && (forall i | 0 <= i < |s.annotating| :: var b := s.annotating[i];
      Kin(b, s.placed) && b.id < s.nextBatch && UpTo(Stream(s), b.id, if i == 0 then head else 2))
    && (forall i | 0 <= i < |s.annotating| && s.pending.Some? :: s.annotating[i].id != s.pending.value.id)
    && EachOnce(BatchIds(s.annotating))
  }

  function BatchIds(bs: seq<Batch>): seq<nat> {
    seq(|bs|, i requires 0 <= i < |bs| => bs[i].id)
  }

  ghost predicate PlacedOk(s: State) {
    && (forall id | id in s.placed :: id < s.nextId)
    && (forall op | op in s.unrecorded :: OperationOk(s.placed, op))
    && (forall m | m in s.edits :: MadeOk(s.placed, m))
  }

  /** A record, logged or queued, of an edit that an operator's change superseded. */
  ghost predicate SaysSuperseded(s: State, batch: nat) {
    || (exists r :: r in s.log && r.superseded && r.stamp.batch == batch)
    || (exists op :: op in s.unrecorded && op.record.superseded && op.record.stamp.batch == batch)
  }

  ghost predicate WasEdited(s: State, id: nat) {
    exists m :: m in s.edits && m.edit.messageId == id
  }

  /** A placed batch's message that is held no longer had its edit made or superseded, or its annotation failed. */
  ghost predicate ReleasesOk(s: State) {
    forall id | id in s.placed && id !in s.holds ::
      WasEdited(s, id) || SaysSuperseded(s, s.placed[id].id) || id in s.dropped
  }

  ghost predicate InvAt(s: State, head: int) {
    StreamOk(s) && HoldsOk(s) && PhasesOk(s, head) && PlacedOk(s) && AuditOk(s) && ReleasesOk(s)
  }

  ghost predicate Inv(s: State) {
    InvAt(s, 2)
  }

  // --------------------------------------------------------------------------
  // A pass over the queue
  // --------------------------------------------------------------------------

  /** What a pass leaves as it was. */
  ghost predicate Passed(s: State, v: State) {
    && SameBatches(s, v) && s.log <= v.log
    && forall x :: x in Stream(v) <==> x in Stream(s)
  }

  lemma AppliedOk(s: State, op: Operation, attempt: Attempt)
    requires PlacedOk(s) && OperationOk(s.placed, op)
    ensures
      var (v, done) := Applied(s, op, attempt);
      && v == s.(messages := v.messages, edits := v.edits)
      && (forall m | m in v.edits ::
        m in s.edits || (m.batch == op.record.stamp.batch && m.accepted == op.record.accepted))
      && (forall m | m in v.edits :: MadeOk(s.placed, m))
      && done == op.(record := done.record, admission := done.admission)
      && done.record.stamp == op.record.stamp && done.record.accepted == op.record.accepted
      && (done.admission.Some? ==> done == op)
      && OperationOk(s.placed, Unheld(done))
  {
  }

  lemma AuditedLater(s: State, v: State, batch: nat)
    requires Audited(s, batch) && s.log <= v.log && s.synced <= v.synced <= |v.log|
    ensures Audited(v, batch)
  {
    var a, b := Stamps(s.log[..s.synced]), Stamps(v.log[..v.synced]);
    forall x | x in a ensures x in b {
      var k :| 0 <= k < |a| && a[k] == x;
      assert b[k] == x;
    }
  }

  lemma SameStreamPhases(s: State, v: State, head: int)
    requires PhasesOk(s, head) && forall x :: x in Stream(v) <==> x in Stream(s)
    requires v.pending == s.pending && v.annotating == s.annotating && v.placed == s.placed
      && v.nextBatch == s.nextBatch
    ensures PhasesOk(v, head)
  {
    hide Stream;
    assert forall b: nat, r: int :: UpTo(Stream(s), b, r) ==> UpTo(Stream(v), b, r);
    if s.pending.Some? {
      var b := s.pending.value.id;
      var x :| x in Stream(s) && x.batch == b && x.kind == Staged;
      assert Has(Stream(v), b, Staged);
    }
  }

  lemma FlushOneFrame(s: State, t: Try)
    requires s.unrecorded != []
    ensures SameBatches(s, FlushOne(s, t).0)
  {
    AppliedFrame(s, s.unrecorded[0], t.edit);
    hide Applied;
  }

  lemma FlushOneStreamOk(s: State, t: Try)
    requires s.unrecorded != [] && StreamOk(s)
    ensures StreamOk(FlushOne(s, t).0) && forall x :: x in Stream(FlushOne(s, t).0) <==> x in Stream(s)
  {
    hide Stream, InOrder, NoneTwice, Doubled, FlushOne;
    FlushOneStream(s, t);
    FlushOneFrame(s, t);
    DoubledInOrder(Stream(s), |s.log|);
  }

  lemma FlushOneHolds(s: State, t: Try)
    requires s.unrecorded != [] && HoldsOk(s) && PlacedOk(s)
    ensures HoldsOk(FlushOne(s, t).0)
  {
    var v, op := FlushOne(s, t).0, s.unrecorded[0];
    assert op in s.unrecorded;
    AppliedOk(s, op, t.edit);
    if Applied(s, op, t.edit).1.admission.None? {
      assert QueueHolds(v.unrecorded) == QueueHolds(s.unrecorded[1..]) by {
        if v.unrecorded != s.unrecorded[1..] { assert v.unrecorded[1..] == s.unrecorded[1..]; }
      }
      ReleasedHolds(s, s.unrecorded[1..], v);
    }
  }

  lemma FlushOnePlaced(s: State, t: Try)
    requires s.unrecorded != [] && PlacedOk(s)
    ensures PlacedOk(FlushOne(s, t).0)
    ensures forall op | op in FlushOne(s, t).0.unrecorded && op.record.accepted ::
      exists was :: was in s.unrecorded && was.record.accepted && was.record.stamp == op.record.stamp
    ensures forall m | m in FlushOne(s, t).0.edits && m.accepted ::
      m in s.edits || exists was :: was in s.unrecorded && was.record.accepted && was.record.stamp.batch == m.batch
  {
    var op := s.unrecorded[0];
    assert op in s.unrecorded;
    AppliedOk(s, op, t.edit);
    var v := FlushOne(s, t).0;
    forall x | x in v.unrecorded
      ensures x in s.unrecorded || x == Unheld(Applied(s, op, t.edit).1)
    {
    }
  }

  lemma FlushOneAudit(s: State, t: Try)
    requires s.unrecorded != [] && PlacedOk(s) && AuditOk(s)
    ensures AuditOk(FlushOne(s, t).0)
  {
    hide FlushOne, Audited, PlacedOk, Stream, Doubled;
    FlushOneStream(s, t);
    FlushOnePlaced(s, t);
    FlushOneFrame(s, t);
    var v := FlushOne(s, t).0;
    forall batch: nat | Audited(s, batch) ensures Audited(v, batch) { AuditedLater(s, v, batch); }
  }

  /** Whatever was edited or superseded stays so. */
  ghost predicate KeepsResolved(s: State, v: State) {
    && (forall id | WasEdited(s, id) :: WasEdited(v, id))
    && (forall batch | SaysSuperseded(s, batch) :: SaysSuperseded(v, batch))
  }

  lemma AppliedResolves(s: State, op: Operation, attempt: Attempt)
    requires PlacedOk(s) && OperationOk(s.placed, op) && op.held.Some?
    ensures var (v, done) := Applied(s, op, attempt);
      (forall id | WasEdited(s, id) :: WasEdited(v, id))
      && (done.admission.None? ==>
        WasEdited(v, op.held.value) || (done.record.superseded && s.placed[op.held.value].id == op.record.stamp.batch))
  {
    var (v, done) := Applied(s, op, attempt);
    if v.edits != s.edits {
      assert v.edits[|s.edits|] in v.edits;
    }
  }

  lemma FlushOneReleases(s: State, t: Try)
    requires s.unrecorded != [] && PlacedOk(s) && HoldsOk(s) && ReleasesOk(s)
    ensures ReleasesOk(FlushOne(s, t).0)
  {
    var op, v := s.unrecorded[0], FlushOne(s, t).0;
    assert op in s.unrecorded;
    var done := Applied(s, op, t.edit).1;
    if op.held.Some? { AppliedResolves(s, op, t.edit); }
    assert done.admission.None? && done.record.superseded ==> SaysSuperseded(v, done.record.stamp.batch) by {
      if done.admission.None? {
        if t.write.Lands? { assert v.log[|s.log|] == done.record; } else { assert v.unrecorded[0] == Unheld(done); }
      }
    }
    FlushOneKeepsResolved(s, t);
    forall id | id in v.placed && id !in v.holds
      ensures WasEdited(v, id) || SaysSuperseded(v, v.placed[id].id) || id in v.dropped
    {
      if id in s.holds { assert op.held == Some(id); }
    }
  }

  lemma FlushOneKeepsResolved(s: State, t: Try)
    requires s.unrecorded != []
    ensures KeepsResolved(s, FlushOne(s, t).0)
  {
    var v, op := FlushOne(s, t).0, s.unrecorded[0];
    var done := Applied(s, op, t.edit).1;
    forall m | m in s.edits ensures m in v.edits {}
    forall r | r in s.log ensures r in v.log {}
    forall x | x in s.unrecorded && x.record.superseded
      ensures SaysSuperseded(v, x.record.stamp.batch)
    {
      var k :| 0 <= k < |s.unrecorded| && s.unrecorded[k] == x;
      if k > 0 {
        assert s.unrecorded[1..][k - 1] == x;
        assert x in s.unrecorded[1..];
        assert x in v.unrecorded;
      } else if done.admission.Some? {
        assert x in v.unrecorded;
      } else if t.write.Lands? {
        assert v.log[|s.log|] == done.record;
      } else {
        assert v.unrecorded[0] == Unheld(done);
      }
    }
  }

  lemma FlushOneOk(s: State, t: Try, head: int)
    requires s.unrecorded != [] && InvAt(s, head)
    ensures InvAt(FlushOne(s, t).0, head) && Passed(s, FlushOne(s, t).0)
  {
    hide FlushOne, StreamOk, HoldsOk, PlacedOk, AuditOk, PhasesOk, ReleasesOk, Stream, Doubled;
    FlushOneStream(s, t);
    FlushOneStreamOk(s, t);
    FlushOneHolds(s, t);
    FlushOnePlaced(s, t);
    FlushOneAudit(s, t);
    FlushOneReleases(s, t);
    FlushOneFrame(s, t);
    SameStreamPhases(s, FlushOne(s, t).0, head);
  }

  lemma {:induction false} FlushOk(s: State, tries: seq<Try>, head: int)
    requires InvAt(s, head)
    ensures InvAt(Flush(s, tries).0, head) && Passed(s, Flush(s, tries).0)
    ensures !Flush(s, tries).1 ==> Flush(s, tries).0.unrecorded == []
    decreases |s.unrecorded|
  {
    hide InvAt, FlushOne, Stream;
    if s.unrecorded != [] {
      var t := if tries == [] then FAILS else tries[0];
      FlushOneOk(s, t, head);
      var (v, threw) := FlushOne(s, t);
      if !threw {
        FlushOneShorter(s, t);
        FlushOk(v, if tries == [] then [] else tries[1..], head);
      }
    }
  }

  lemma FlushOneShorter(s: State, t: Try)
    requires s.unrecorded != [] && !FlushOne(s, t).1
    ensures |FlushOne(s, t).0.unrecorded| < |s.unrecorded|
  {
  }
}
