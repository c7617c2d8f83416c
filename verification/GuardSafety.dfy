/** The guard's steps in any order: what holds after every run of them. */
module GuardSafety {
  import opened Options
  import opened Guard
  import opened GuardRuns

  // --------------------------------------------------------------------------
  // Queueing one operation
  // --------------------------------------------------------------------------

  lemma QueuedStream(s: State, op: Operation)
    requires StreamOk(s) && op.record.stamp.serial == s.nextSerial && op.record.stamp.batch < s.nextBatch
    requires UpTo(Stream(s), op.record.stamp.batch, Rank(op.record.stamp.kind) - 1)
    ensures StreamOk(Queued(s, op)) && Stream(Queued(s, op)) == Stream(s) + [op.record.stamp]
  {
    var x := op.record.stamp;
    assert OpStamps(s.unrecorded + [op]) == OpStamps(s.unrecorded) + [x];
    assert Stream(Queued(s, op)) == Stream(s) + [x];
    PushedInOrder(Stream(s), x);
  }

  lemma QueuedHoldsNone(s: State, op: Operation)
    requires HoldsOk(s) && op.held.None?
    ensures HoldsOk(Queued(s, op))
  {
    QueueHoldsOfTwo(s.unrecorded, [op]);
    assert QueueHolds([op]) == [];
    assert Holders(Queued(s, op)) == Holders(s);
  }

  lemma QueuedReleases(s: State, op: Operation)
    requires ReleasesOk(s)
    ensures ReleasesOk(Queued(s, op))
  {
    var v := Queued(s, op);
    forall x | x in s.unrecorded ensures x in v.unrecorded {}
    forall batch | SaysSuperseded(s, batch) ensures SaysSuperseded(v, batch) {}
    assert forall id | WasEdited(s, id) :: WasEdited(v, id);
  }

  /** An audit-only record queued and the queue tried: the batch it is of has come as far as its kind. */
  lemma AppendOk(s: State, batch: nat, kind: Kind, tries: seq<Try>, head: int, after: int)
    requires InvAt(s, head) && batch < s.nextBatch && UpTo(Stream(s), batch, Rank(kind) - 1) && head <= after
    requires s.pending.Some? && s.pending.value.id == batch ==> Rank(kind) <= 1
    requires forall i | 0 <= i < |s.annotating| && s.annotating[i].id == batch ::
      Rank(kind) <= if i == 0 then after else 2
    ensures
      var (v, threw) := Append(s, batch, kind, tries);
      && InvAt(v, after) && SameBatches(s.(nextSerial := s.nextSerial + 1), v) && s.log <= v.log
      && (forall x :: x in Stream(v) <==> x in Stream(s) || x == Stamp(s.nextSerial, batch, kind))
      && (!threw ==> v.unrecorded == [])
  {
    var op := NewOperation(s, batch, kind, false, None);
    var q := Queued(s, op);
    QueuedStream(s, op);
    QueuedHoldsNone(s, op);
    QueuedReleases(s, op);
    QueuedPhases(s, op, head, after);
    assert PlacedOk(q) && AuditOk(q) by { QueuedPlaced(s, op); }
    hide StreamOk, HoldsOk, PlacedOk, AuditOk, PhasesOk, ReleasesOk, Stream;
    FlushOk(q, tries, after);
  }

  lemma QueuedPlaced(s: State, op: Operation)
    requires PlacedOk(s) && AuditOk(s) && OperationOk(s.placed, op)
    requires op.record.accepted ==> Audited(s, op.record.stamp.batch)
    ensures PlacedOk(Queued(s, op)) && AuditOk(Queued(s, op))
  {
    var v := Queued(s, op);
    forall x | x in v.unrecorded ensures x in s.unrecorded || x == op {}
    assert forall batch :: Audited(s, batch) ==> Audited(v, batch);
  }

  lemma QueuedPhases(s: State, op: Operation, head: int, after: int)
    requires PhasesOk(s, head) && head <= after && Stream(Queued(s, op)) == Stream(s) + [op.record.stamp]
    requires s.pending.Some? && s.pending.value.id == op.record.stamp.batch ==> Rank(op.record.stamp.kind) <= 1
    requires forall i | 0 <= i < |s.annotating| && s.annotating[i].id == op.record.stamp.batch ::
      Rank(op.record.stamp.kind) <= if i == 0 then after else 2
    ensures PhasesOk(Queued(s, op), after)
  {
    hide Stream;
    if s.pending.Some? {
      var b := s.pending.value.id;
      var x :| x in Stream(s) && x.batch == b && x.kind == Staged;
      assert x in Stream(Queued(s, op));
    }
  }

  // --------------------------------------------------------------------------
  // Storing a batch
  // --------------------------------------------------------------------------

  lemma NewBatchOk(s: State)
    requires Inv(s)
    ensures Inv(s.(nextBatch := s.nextBatch + 1)) && UpTo(Stream(s), s.nextBatch, -1)
  {
    var v := s.(nextBatch := s.nextBatch + 1);
    assert Stream(v) == Stream(s);
    assert Holders(v) == Holders(s);
    assert AuditOk(v) by { assert forall batch :: Audited(s, batch) ==> Audited(v, batch); }
    assert ReleasesOk(v) by {
      forall batch | SaysSuperseded(s, batch) ensures SaysSuperseded(v, batch) {}
      assert forall id | WasEdited(s, id) :: WasEdited(v, id);
    }
  }

  /** Only the context manager's messages moved, a message id went by, or a hold came with an add that threw. */
  lemma AddedOk(s: State, v: State, held: bool)
    requires Inv(s) && v.nextId >= s.nextId + 1
    requires v == s.(messages := v.messages, branch := v.branch, nextId := v.nextId,
                     holds := s.holds + if held then {s.nextId} else {},
                     leaked := s.leaked + if held then {s.nextId} else {})
    ensures Inv(v)
  {
    assert Stream(v) == Stream(s);
    assert Holders(v) == Holders(s);
    assert HoldsOk(v) by { hide Holders; }
    assert AuditOk(v) by { assert forall batch :: Audited(s, batch) ==> Audited(v, batch); }
    assert ReleasesOk(v) by {
      forall batch | SaysSuperseded(s, batch) ensures SaysSuperseded(v, batch) {}
      assert forall id | WasEdited(s, id) :: WasEdited(v, id);
    }
  }

  lemma PlacedBatchOk(s: State, v: State, b: Batch)
    requires Inv(s) && s.pending.None? && b.messageId == s.nextId && !b.submitted && !b.durable
    requires b.id < s.nextBatch && UpTo(Stream(s), b.id, 0) && Has(Stream(s), b.id, Staged)
    requires forall i | 0 <= i < |s.annotating| :: s.annotating[i].id != b.id
    requires v == s.(messages := v.messages, nextId := s.nextId + 1, holds := s.holds + {b.messageId},
                     pending := Some(b), placed := s.placed[b.messageId := b])
    ensures Inv(v) && Stream(v) == Stream(s)
  {
    assert Stream(v) == Stream(s);
    assert HoldsOk(v) by {
      var x, y := Holders(s), Holders(v);
      assert y == x + [b.messageId];
      forall i, j | 0 <= i < j < |y| ensures Apart(y[i], y[j]) {
        if j < |x| { assert Apart(x[i], x[j]); } else { assert x[i] in x; }
      }
    }
    assert AuditOk(v) by { assert forall batch :: Audited(s, batch) ==> Audited(v, batch); }
    assert ReleasesOk(v) by {
      forall batch | SaysSuperseded(s, batch) ensures SaysSuperseded(v, batch) {}
      assert forall id | WasEdited(s, id) :: WasEdited(v, id);
    }
    assert PhasesOk(v, 2) by { hide Stream; }
  }

  lemma StagedOk(s: State, tries: seq<Try>)
    requires Inv(s) && s.pending.None?
    ensures
      var v := Append(s.(nextBatch := s.nextBatch + 1), s.nextBatch, Staged, tries).0;
      && Inv(v) && v.pending.None? && s.nextBatch < v.nextBatch
      && UpTo(Stream(v), s.nextBatch, 0) && Has(Stream(v), s.nextBatch, Staged)
      && (forall i | 0 <= i < |v.annotating| :: v.annotating[i].id != s.nextBatch)
  {
    var numbered, batch := s.(nextBatch := s.nextBatch + 1), s.nextBatch;
    assert Stream(numbered) == Stream(s);
    assert forall i | 0 <= i < |s.annotating| :: s.annotating[i].id < batch;
    NewBatchOk(s);
    hide StreamOk, HoldsOk, PlacedOk, AuditOk, PhasesOk, ReleasesOk, Stream, Append;
    AppendOk(numbered, batch, Staged, tries, 2, 2);
    assert Stamp(s.nextSerial, batch, Staged) in Stream(Append(numbered, batch, Staged, tries).0);
  }

  lemma StagedBatchOk(s: State, p: Storing)
    requires Inv(s) && s.pending.None?
    ensures
      var v := StagedBatch(s, p);
      Inv(v) && (v.pending.Some? ==> UpTo(Stream(v), v.pending.value.id, 0) && !v.pending.value.durable)
  {
    hide Inv, Stream, Append, UpTo, Has;
    StagedOk(s, p.staging);
    var staged, v := Append(s.(nextBatch := s.nextBatch + 1), s.nextBatch, Staged, p.staging).0, StagedBatch(s, p);
    match p.adding
    case AddThrows(_, held) => AddedOk(staged, v, held);
    case Added => PlacedBatchOk(staged, v, v.pending.value);
  }

  /** Once everything queued is written and synced, the pending batch's staged and linked records are. */
  lemma SyncedOk(s: State, v: State)
    requires Inv(s) && s.pending.Some? && s.unrecorded == [] && Has(Stream(s), s.pending.value.id, Linked)
    requires v == s.(synced := |s.log|, pending := Some(s.pending.value.(durable := true)))
    ensures Inv(v)
  {
    assert s.log[..|s.log|] == s.log;
    assert Stream(s) == Stamps(s.log);
    assert Stream(v) == Stream(s) && Holders(v) == Holders(s);
    forall batch | Audited(s, batch) ensures Audited(v, batch) { AuditedLater(s, v, batch); }
    assert Audited(v, v.pending.value.id);
    assert ReleasesOk(v) by {
      forall batch | SaysSuperseded(s, batch) ensures SaysSuperseded(v, batch) {}
      assert forall id | WasEdited(s, id) :: WasEdited(v, id);
    }
    hide Stream, Holders, Audited;
  }

  lemma LinkedBatchOk(s: State, p: Storing)
    requires Inv(s) && s.pending.Some? && UpTo(Stream(s), s.pending.value.id, 0)
    ensures Inv(LinkedBatch(s, p))
  {
    var b := s.pending.value;
    hide StreamOk, HoldsOk, PlacedOk, AuditOk, ReleasesOk, Stream, Append;
    AppendOk(s, b.id, Linked, p.linking, 2, 2);
    var (linked, threw) := Append(s, b.id, Linked, p.linking);
    if !threw && p.syncs {
      assert Stamp(s.nextSerial, b.id, Linked) in Stream(linked);
      SyncedOk(linked, LinkedBatch(s, p));
    }
  }

  lemma StoreResultsOk(s: State, enabled: bool, p: Storing)
    requires Inv(s)
    ensures Inv(StoreResults(s, enabled, p).0)
  {
    hide StagedBatch, LinkedBatch, Inv, Stream;
    if !enabled {
      AddedOk(s, StoreResults(s, enabled, p).0, false);
    } else if s.pending.None? {
      StagedBatchOk(s, p);
      if StagedBatch(s, p).pending.Some? { LinkedBatchOk(StagedBatch(s, p), p); }
    }
  }

  // --------------------------------------------------------------------------
  // Sending it
  // --------------------------------------------------------------------------

  lemma SentOk(s: State, v: State, submitted: bool)
    requires Inv(s) && s.pending.Some? && s.pending.value.durable
    requires v == s.(pending := v.pending, wired := v.wired)
      && v.pending == Some(s.pending.value.(submitted := submitted))
    requires v.wired == s.wired || v.wired == s.wired + {s.pending.value.id}
    ensures Inv(v)
  {
    assert Stream(v) == Stream(s) && Holders(v) == Holders(s);
    assert AuditOk(v) by { assert forall batch :: Audited(s, batch) ==> Audited(v, batch); }
    assert ReleasesOk(v) by {
      forall batch | SaysSuperseded(s, batch) ensures SaysSuperseded(v, batch) {}
      assert forall id | WasEdited(s, id) :: WasEdited(v, id);
    }
    hide Stream, Holders, Audited;
  }

  /**
   No call that makes a request hands out a batch's originals before its staged and linked records are written and
   synced.
   */
  lemma OriginalsOnlyOnceAudited(s: State, blocks: seq<Block>, recordSubmission: bool)
    requires Inv(s) && s.pending.Some? && !Audited(s, s.pending.value.id)
    ensures SubmissionResults(s, blocks) == (s, Notices(s.pending.value, blocks))
    ensures PrepareRequest(s, blocks, recordSubmission) == (s, blocks)
  {
  }

  // --------------------------------------------------------------------------
  // Settling it
  // --------------------------------------------------------------------------

  lemma SwappedOnce(a: seq<nat>, b: seq<nat>, c: seq<nat>)
    requires EachOnce(a + b + c)
    ensures EachOnce(a + c + b) && forall id :: id in a + c + b <==> id in a + b + c
  {
    var x, y := a + b + c, a + c + b;
    forall i, j | 0 <= i < j < |y| ensures Apart(y[i], y[j]) {
      var p, q := Unswapped(|a|, |b|, |c|, i), Unswapped(|a|, |b|, |c|, j);
      assert y[i] == x[p] && y[j] == x[q];
      if p < q { assert Apart(x[p], x[q]); } else { assert Apart(x[q], x[p]); }
    }
  }

  function Unswapped(a: nat, b: nat, c: nat, i: nat): nat {
    if i < a then i else if i < a + c then i + b else i - c
  }

  lemma SettleHolds(s: State, v: State, op: Operation)
    requires HoldsOk(s) && s.pending.Some? && v.pending.None? && v.unrecorded == s.unrecorded + [op]
    requires v.holds == s.holds && v.nextId == s.nextId && v.leaked == s.leaked
    requires var b := s.pending.value;
      || (v.annotating == s.annotating && op.held == Some(b.messageId))
      || (v.annotating == s.annotating + [b] && op.held.None?)
    ensures HoldsOk(v)
  {
    var id := s.pending.value.messageId;
    QueueHoldsOfTwo(s.unrecorded, [op]);
    assert QueueHolds([op]) == if op.held.Some? then [op.held.value] else [];
    if op.held.Some? {
      SwappedOnce(QueueHolds(s.unrecorded), BatchHolds(s.annotating), [id]);
      assert Holders(v) == QueueHolds(s.unrecorded) + [id] + BatchHolds(s.annotating);
    } else {
      assert BatchHolds(v.annotating) == BatchHolds(s.annotating) + [id];
      assert Holders(v) == Holders(s);
    }
  }

  lemma SettlePhases(s: State, v: State, x: Stamp)
    requires PhasesOk(s, 2) && s.pending.Some? && v.pending.None? && v.placed == s.placed && v.nextBatch == s.nextBatch
    requires v.annotating == s.annotating || v.annotating == s.annotating + [s.pending.value]
    requires Stream(v) == Stream(s) + [x] && x.batch == s.pending.value.id && x.kind == Outcome
    ensures PhasesOk(v, 2)
  {
    hide Stream;
    var ids := BatchIds(v.annotating);
    forall i, j | 0 <= i < j < |ids| ensures Apart(ids[i], ids[j]) {
      if j < |s.annotating| { assert Apart(BatchIds(s.annotating)[i], BatchIds(s.annotating)[j]); }
    }
  }

  lemma SettledStream(s: State, v: State)
    requires v.log == s.log && v.unrecorded == s.unrecorded && v.nextSerial == s.nextSerial
      && v.nextBatch == s.nextBatch
    requires v.doubled == s.doubled
    ensures Stream(v) == Stream(s) && (StreamOk(s) ==> StreamOk(v))
    ensures forall batch | UpTo(Stream(s), batch, 1) :: UpTo(Stream(v), batch, 1)
  {
  }

  lemma SettleOk(s: State, b: Batch, admit: bool, tries: seq<Try>)
    requires Inv(s) && s.pending == Some(b) && (admit ==> b.durable)
    ensures Inv(Settle(s, b, admit, tries))
  {
    assert UpTo(Stream(s), b.id, 1) && b.id < s.nextBatch && Kin(b, s.placed);
    hide HoldsOk, PhasesOk, UpTo, Stream, StreamOk;
    var admission := if admit then Some(Edit(b.messageId, b.content, b.withheld, b.branch)) else None;
    var settled := s.(pending := None, annotating := s.annotating + if admit then [] else [b]);
    var op := NewOperation(settled, b.id, Outcome, admit, admission);
    var v := Queued(settled, op);
    SettledStream(s, settled);
    assert s.annotating + [] == s.annotating;
    QueuedStream(settled, op);
    SettleHolds(s, v, op);
    SettlePhases(s, v, op.record.stamp);
    assert PlacedOk(settled) && AuditOk(settled) by {
      assert forall batch :: Audited(s, batch) ==> Audited(settled, batch);
    }
    assert admit ==> Audited(settled, b.id);
    QueuedPlaced(settled, op);
    assert ReleasesOk(settled) by {
      forall batch | SaysSuperseded(s, batch) ensures SaysSuperseded(settled, batch) {}
      assert forall id | WasEdited(s, id) :: WasEdited(settled, id);
    }
    QueuedReleases(settled, op);
    FlushOk(v, tries, 2);
  }

  lemma EndOk(s: State, ending: Ending, tries: seq<Try>)
    requires Inv(s)
    ensures Inv(End(s, ending, tries))
  {
    RecoveringOk(s, true);
    RecoveringOk(s, false);
    hide Settle, StreamOk, HoldsOk, PlacedOk, PhasesOk, ReleasesOk;
    if s.pending.Some? && Settles(s.pending.value, ending) {
      var b := s.pending.value;
      var recovering :=
        if ending.Abandoned? || ending.Accepted? then false else if ending.Refused? then true else s.recovering;
      assert s.(recovering := s.recovering) == s;
      SettleOk(s.(recovering := recovering), b, Admits(b, ending), tries);
    }
  }

  lemma RecoveringOk(s: State, recovering: bool)
    requires Inv(s)
    ensures Inv(s.(recovering := recovering))
  {
    var v := s.(recovering := recovering);
    assert Stream(v) == Stream(s) && Holders(v) == Holders(s);
    assert AuditOk(v) by { assert forall batch :: Audited(s, batch) ==> Audited(v, batch); }
    assert ReleasesOk(v) by {
      forall batch | SaysSuperseded(s, batch) ensures SaysSuperseded(v, batch) {}
      assert forall id | WasEdited(s, id) :: WasEdited(v, id);
    }
    hide Stream, Holders;
  }

  // --------------------------------------------------------------------------
  // Annotating a withheld batch
  // --------------------------------------------------------------------------

  /** The first annotation's hold passes to its stub's operation, or goes. */
  lemma AnnotatedHolds(s: State, v: State, added: seq<Operation>)
    requires HoldsOk(s) && s.annotating != [] && v.annotating == s.annotating[1..] && v.pending == s.pending
    requires v.unrecorded == s.unrecorded + added && v.nextId == s.nextId && v.leaked == s.leaked
    requires var id := s.annotating[0].messageId;
      || (QueueHolds(added) == [id] && v.holds == s.holds)
      || (QueueHolds(added) == [] && v.holds == s.holds - {id})
    ensures HoldsOk(v)
  {
    var id, a := s.annotating[0].messageId, QueueHolds(s.unrecorded);
    var b, c := BatchHolds(s.annotating[1..]), PendingHold(s.pending);
    assert BatchHolds(s.annotating) == [id] + b;
    QueueHoldsOfTwo(s.unrecorded, added);
    hide BatchHolds, PendingHold, QueueHolds, HeldFor;
    assert Holders(s) == a + [id] + (b + c) by { OneThen(a, id, b, c); }
    assert Holders(v) == a + QueueHolds(added) + (b + c) by { Regrouped(QueueHolds(added), a, b, c); }
    HeldOrPassed(a, id, b + c, QueueHolds(added), s.holds, v.holds, s.leaked, s.nextId);
  }

  lemma OneThen(a: seq<nat>, x: nat, b: seq<nat>, c: seq<nat>)
    ensures a + ([x] + b) + c == a + [x] + (b + c)
  {
  }

  lemma HeldOrPassed(a: seq<nat>, id: nat, rest: seq<nat>, added: seq<nat>, holds: set<nat>, left: set<nat>,
    leaked: set<nat>, nextId: nat)
    requires HeldFor(a + [id] + rest, holds, leaked, nextId)
    requires (added == [id] && left == holds) || (added == [] && left == holds - {id})
    ensures HeldFor(a + added + rest, left, leaked, nextId)
  {
    hide HeldFor;
    if added == [] {
      HeldForOthers(a, id, rest, holds, leaked, nextId);
      assert a + added + rest == a + rest;
    }
  }

  lemma AnnotatedPhases(s: State, v: State, batch: nat)
    requires PhasesOk(s, 3) && s.annotating != [] && batch == s.annotating[0].id
    requires v.annotating == s.annotating[1..] && v.pending == s.pending && v.placed == s.placed
      && v.nextBatch == s.nextBatch
    requires forall x :: x in Stream(v) <==> x in Stream(s) || (x in Stream(v) && x.batch == batch)
    ensures PhasesOk(v, 2)
  {
    hide Stream;
    var ids, before := BatchIds(v.annotating), BatchIds(s.annotating);
    forall i, j | 0 <= i < j < |ids| ensures Apart(ids[i], ids[j]) { assert Apart(before[i + 1], before[j + 1]); }
    forall i | 0 <= i < |v.annotating| ensures v.annotating[i].id != batch && UpTo(Stream(v), v.annotating[i].id, 2) {
      assert Apart(before[0], before[i + 1]);
      assert v.annotating[i] == s.annotating[i + 1];
    }
    if s.pending.Some? {
      var b := s.pending.value.id;
      assert s.annotating[0].id != b;
      var x :| x in Stream(s) && x.batch == b && x.kind == Staged;
      assert x in Stream(v);
    }
  }

  lemma AnnotatedReleases(s: State, v: State, op: Operation, attempt: Attempt)
    requires PlacedOk(s) && OperationOk(s.placed, op) && op.held.Some? && ReleasesOk(s)
    requires var (edited, done) := Applied(s, op, attempt);
      && v.edits == edited.edits && v.log == s.log && v.placed == s.placed && v.dropped == s.dropped
      && v.unrecorded == s.unrecorded + [Unheld(done)]
      && v.holds == if done.admission.None? then s.holds - {op.held.value} else s.holds
    ensures ReleasesOk(v)
  {
    var (edited, done) := Applied(s, op, attempt);
    AppliedResolves(s, op, attempt);
    assert v.unrecorded[|s.unrecorded|] == Unheld(done);
    forall x | x in s.unrecorded ensures x in v.unrecorded {}
    forall batch | SaysSuperseded(s, batch) ensures SaysSuperseded(v, batch) {}
    assert forall id | WasEdited(edited, id) :: WasEdited(v, id);
  }

  /** The stub's operation made for the first annotation, as it joins the queue. */
  function Stubbed(s: State, op: Operation, attempt: Attempt): State
    requires s.annotating != []
  {
    var (edited, done) := Applied(s, op, attempt);
    Queued(Settled(edited, done), Unheld(done)).(annotating := s.annotating[1..])
  }

  lemma StubbedStream(s: State, op: Operation, attempt: Attempt)
    requires StreamOk(s) && PhasesOk(s, 3) && PlacedOk(s) && s.annotating != [] && OperationOk(s.placed, op)
    requires op.record.stamp == Stamp(s.nextSerial, s.annotating[0].id, StubUpdated)
    ensures StreamOk(Stubbed(s, op, attempt)) && PhasesOk(Stubbed(s, op, attempt), 2)
  {
    AppliedOk(s, op, attempt);
    var (edited, done) := Applied(s, op, attempt);
    var v := Stubbed(s, op, attempt);
    assert Stream(edited) == Stream(s);
    QueuedStream(edited, Unheld(done));
    assert Stream(v) == Stream(s) + [op.record.stamp];
    hide Stream;
    AnnotatedPhases(s, v, s.annotating[0].id);
  }

  lemma StubbedAudit(s: State, op: Operation, attempt: Attempt)
    requires PlacedOk(s) && AuditOk(s) && s.annotating != [] && OperationOk(s.placed, op) && !op.record.accepted
    ensures PlacedOk(Stubbed(s, op, attempt)) && AuditOk(Stubbed(s, op, attempt))
  {
    AppliedOk(s, op, attempt);
    var (edited, done) := Applied(s, op, attempt);
    var v := Stubbed(s, op, attempt);
    assert PlacedOk(edited);
    assert AuditOk(edited) by { assert forall batch :: Audited(s, batch) ==> Audited(edited, batch); }
    QueuedPlaced(edited, Unheld(done));
    assert forall batch :: Audited(edited, batch) ==> Audited(v, batch);
  }

  lemma StubbedOk(s: State, op: Operation, attempt: Attempt)
    requires InvAt(s, 3) && s.annotating != [] && OperationOk(s.placed, op) && !op.record.accepted
    requires op.held == Some(s.annotating[0].messageId)
    requires op.record.stamp == Stamp(s.nextSerial, s.annotating[0].id, StubUpdated)
    ensures Inv(Stubbed(s, op, attempt))
  {
    StubbedStream(s, op, attempt);
    StubbedAudit(s, op, attempt);
    hide StreamOk, PhasesOk, AuditOk;
    AppliedOk(s, op, attempt);
    var (edited, done) := Applied(s, op, attempt);
    var v := Stubbed(s, op, attempt);
    AnnotatedReleases(s, v, op, attempt);
    AnnotatedHolds(s, v, [Unheld(done)]) by {
      assert QueueHolds([Unheld(done)]) == if Unheld(done).held.Some? then [Unheld(done).held.value] else [];
    }
  }

  lemma AnnotateOk(s: State, stub: Content, placing: seq<Try>, edit: Attempt, tries: seq<Try>)
    requires Inv(s) && s.annotating != []
    ensures Inv(Annotate(s, stub, placing, edit, tries))
  {
    var b := s.annotating[0];
    assert forall i | 1 <= i < |s.annotating| :: s.annotating[i].id != b.id by {
      var ids := BatchIds(s.annotating);
      forall i | 1 <= i < |s.annotating| ensures s.annotating[i].id != b.id { assert Apart(ids[0], ids[i]); }
    }
    AppendOk(s, b.id, Annotated, placing, 2, 3);
    var recorded := Append(s, b.id, Annotated, placing).0;
    var op := NewOperation(recorded, b.id, StubUpdated, false, Some(Edit(b.messageId, stub, b.withheld, b.branch)));
    assert OperationOk(recorded.placed, op);
    hide InvAt, Append, Applied, Queued, Settled, Unheld;
    StubbedOk(recorded, op, edit);
    FlushOk(Stubbed(recorded, op, edit), tries, 2);
  }

  lemma AnnotationThrowsOk(s: State)
    requires Inv(s) && s.annotating != []
    ensures Inv(AnnotationThrows(s))
  {
    var v := AnnotationThrows(s);
    assert Stream(v) == Stream(s);
    AnnotatedHolds(s, v, []) by { assert s.unrecorded + [] == s.unrecorded; }
    AnnotatedPhases(s, v, s.annotating[0].id) by { RaisedPhases(s); }
    hide Stream, Holders, HoldsOk, PhasesOk;
    assert AuditOk(v) by { assert forall batch :: Audited(s, batch) ==> Audited(v, batch); }
    assert ReleasesOk(v) by {
      forall batch | SaysSuperseded(s, batch) ensures SaysSuperseded(v, batch) {}
      assert forall id | WasEdited(s, id) :: WasEdited(v, id);
    }
  }

  lemma RaisedPhases(s: State)
    requires PhasesOk(s, 2)
    ensures PhasesOk(s, 3)
  {
    hide Stream;
  }

  // --------------------------------------------------------------------------
  // Every run
  // --------------------------------------------------------------------------

  datatype Event =
    | Store(enabled: bool, p: Storing)
    | Submit(results: seq<Block>)
    | Prepare(blocks: seq<Block>, recordSubmission: bool)
    | Ends(ending: Ending, tries: seq<Try>)
    | Annotates(stub: Content, placing: seq<Try>, edit: Attempt, retried: seq<Try>)
    | FailsToAnnotate
    | Retry(passes: seq<Try>)
    /** An operator, or the rest of the host: another branch, other messages on it, edits and removals of any. */
    | Elsewhere(branch: string, messages: map<nat, Content>, added: nat)
    | Synced

  predicate CanHappen(s: State, e: Event) {
    e.Annotates? || e.FailsToAnnotate? ==> s.annotating != []
  }

  function Next(s: State, e: Event): State
    requires CanHappen(s, e)
  {
    match e
    case Store(enabled, p) => StoreResults(s, enabled, p).0
    case Submit(results) => SubmissionResults(s, results).0
    case Prepare(blocks, recordSubmission) => PrepareRequest(s, blocks, recordSubmission).0
    case Ends(ending, tries) => End(s, ending, tries)
    case Annotates(stub, placing, edit, retried) => Annotate(s, stub, placing, edit, retried)
    case FailsToAnnotate => AnnotationThrows(s)
    case Retry(passes) => Flush(s, passes).0
    case Elsewhere(branch, messages, added) => s.(branch := branch, messages := messages, nextId := s.nextId + added)
    case Synced => s.(synced := |s.log|)
  }

  lemma ElsewhereOk(s: State, branch: string, messages: map<nat, Content>, added: nat)
    requires Inv(s)
    ensures Inv(s.(branch := branch, messages := messages, nextId := s.nextId + added))
  {
    if added == 0 { UnheldOk(s, branch, messages); }
    else { AddedOk(s, s.(branch := branch, messages := messages, nextId := s.nextId + added), false); }
  }

  lemma UnheldOk(s: State, branch: string, messages: map<nat, Content>)
    requires Inv(s)
    ensures Inv(s.(branch := branch, messages := messages))
  {
    var v := s.(branch := branch, messages := messages);
    assert Stream(v) == Stream(s) && Holders(v) == Holders(s);
    hide Stream, Holders;
    assert AuditOk(v) by { assert forall batch :: Audited(s, batch) ==> Audited(v, batch); }
    assert ReleasesOk(v) by {
      forall batch | SaysSuperseded(s, batch) ensures SaysSuperseded(v, batch) {}
      assert forall id | WasEdited(s, id) :: WasEdited(v, id);
    }
  }

  lemma SyncsOk(s: State)
    requires Inv(s)
    ensures Inv(s.(synced := |s.log|))
  {
    var v := s.(synced := |s.log|);
    assert Stream(v) == Stream(s) && Holders(v) == Holders(s);
    forall batch | Audited(s, batch) ensures Audited(v, batch) { AuditedLater(s, v, batch); }
    hide Stream, Holders, Audited;
    assert ReleasesOk(v) by {
      forall batch | SaysSuperseded(s, batch) ensures SaysSuperseded(v, batch) {}
      assert forall id | WasEdited(s, id) :: WasEdited(v, id);
    }
  }

  lemma NextOk(s: State, e: Event)
    requires Inv(s) && CanHappen(s, e)
    ensures Inv(Next(s, e))
  {
    hide StoreResults, End, Annotate, AnnotationThrows, Flush, StreamOk, HoldsOk, PhasesOk, PlacedOk, ReleasesOk;
    match e
    case Store(enabled, p) => StoreResultsOk(s, enabled, p);
    case Submit(results) =>
      if s.pending.Some? && s.pending.value.durable { SentOk(s, Next(s, e), true); }
    case Prepare(blocks, recordSubmission) =>
      if s.pending.Some? && s.pending.value.durable { SentOk(s, Next(s, e), Next(s, e).pending.value.submitted); }
    case Ends(ending, tries) => EndOk(s, ending, tries);
    case Annotates(stub, placing, edit, retried) => AnnotateOk(s, stub, placing, edit, retried);
    case FailsToAnnotate => AnnotationThrowsOk(s);
    case Retry(passes) => FlushOk(s, passes, 2);
    case Elsewhere(branch, messages, added) => ElsewhereOk(s, branch, messages, added);
    case Synced => SyncsOk(s);
  }

  ghost predicate CanRun(s: State, events: seq<Event>)
    decreases |events|
  {
    events == [] || (CanHappen(s, events[0]) && CanRun(Next(s, events[0]), events[1..]))
  }

  ghost function Run(s: State, events: seq<Event>): State
    requires CanRun(s, events)
    decreases |events|
  {
    if events == [] then s else Run(Next(s, events[0]), events[1..])
  }

  lemma {:induction false} RunOk(s: State, events: seq<Event>)
    requires Inv(s) && CanRun(s, events)
    ensures Inv(Run(s, events))
    decreases |events|
  {
    if events != [] {
      NextOk(s, events[0]);
      RunOk(Next(s, events[0]), events[1..]);
    }
  }

  /** A guard over a store as it finds it: nothing of its own placed, held, queued or logged. */
  function Start(branch: string, messages: map<nat, Content>, nextId: nat): State {
    State(branch, messages, {}, nextId, [], 0, [], None, [], [], false, 0, 0, map[], {}, {}, {}, 0)
  }

  lemma StartOk(branch: string, messages: map<nat, Content>, nextId: nat)
    ensures Inv(Start(branch, messages, nextId))
  {
    var s := Start(branch, messages, nextId);
    assert Stream(s) == [] && Holders(s) == [];
  }

  /**
   A message is edited only over the guard's own placeholder or payload, on its own branch, and to its original only
   where that was accepted.
   */
  lemma EditsOnlyItsOwn(branch: string, messages: map<nat, Content>, nextId: nat, events: seq<Event>)
    requires CanRun(Start(branch, messages, nextId), events)
    ensures var s := Run(Start(branch, messages, nextId), events);
      forall m | m in s.edits ::
        && m.edit.messageId in s.placed
        && var b := s.placed[m.edit.messageId];
          && m.batch == b.id && m.branch == b.branch && m.before in {b.withheld, m.edit.content}
          && (m.accepted ==> m.edit.content == b.content && Audited(s, b.id))
  {
    StartOk(branch, messages, nextId);
    RunOk(Start(branch, messages, nextId), events);
  }

  /** Original output goes on the wire only once its batch's staged and linked records are written and synced. */
  lemma WiredIsAudited(branch: string, messages: map<nat, Content>, nextId: nat, events: seq<Event>)
    requires CanRun(Start(branch, messages, nextId), events)
    ensures var s := Run(Start(branch, messages, nextId), events);
      forall batch | batch in s.wired :: Audited(s, batch)
  {
    StartOk(branch, messages, nextId);
    RunOk(Start(branch, messages, nextId), events);
  }

  /**
   A batch's hold goes only once its edit was made or superseded, or its annotation failed; and an idle guard with
   nothing pending holds only what failed adds left.
   */
  lemma HoldsOutliveTheirEdits(branch: string, messages: map<nat, Content>, nextId: nat, events: seq<Event>)
    requires CanRun(Start(branch, messages, nextId), events)
    ensures var s := Run(Start(branch, messages, nextId), events);
      && (forall id | id in s.placed && id !in s.holds ::
        WasEdited(s, id) || SaysSuperseded(s, s.placed[id].id) || id in s.dropped)
      && (forall op | op in s.unrecorded && op.admission.Some? :: op.admission.value.messageId in s.holds)
      && (s.Idle() && s.pending.None? ==> s.holds == s.leaked)
  {
    StartOk(branch, messages, nextId);
    RunOk(Start(branch, messages, nextId), events);
    var s := Run(Start(branch, messages, nextId), events);
    forall op | op in s.unrecorded && op.admission.Some? ensures op.admission.value.messageId in s.holds {
      QueuedIsHeld(s.unrecorded, op);
    }
  }

  /** What a failed add can leave: nothing is pending or queued, and the message it would have been is held for good. */
  lemma FailedAddLeavesAHold(branch: string, messages: map<nat, Content>, nextId: nat, p: Storing)
    returns (events: seq<Event>)
    requires p.staging == [Try(Lands, Lands)] && p.adding.AddThrows? && p.adding.held
    ensures CanRun(Start(branch, messages, nextId), events)
    ensures var s := Run(Start(branch, messages, nextId), events);
      s.Idle() && s.pending.None? && s.holds == s.leaked == {nextId}
  {
    var s, store := Start(branch, messages, nextId), Store(true, p);
    events := [store];
    var queued := Queued(s.(nextBatch := 1), NewOperation(s.(nextBatch := 1), 0, Staged, false, None));
    var staged := FlushOne(queued, Try(Lands, Lands)).0;
    assert staged.unrecorded == [] && staged.pending.None? && staged.annotating == [] && staged.holds == {};
    assert Flush(queued, p.staging).0 == staged;
    assert Next(s, store) == Placed(staged, 0, p);
    assert events[1..] == [];
  }

  lemma {:induction false} QueuedIsHeld(ops: seq<Operation>, op: Operation)
    requires op in ops && op.held.Some?
    ensures op.held.value in QueueHolds(ops)
  {
    if op != ops[0] {
      assert op in ops[1..];
      QueuedIsHeld(ops[1..], op);
    }
  }

  /**
   The audit log: each batch's records in the order staged, linked, outcome, annotated, stub_updated, one operation for
   each (so a batch settles at most once), and any copies of one next to each other. No record is there twice unless a
   write threw having landed, and one then is, as soon as the queue has drained.
   */
  lemma AuditLogInOrder(branch: string, messages: map<nat, Content>, nextId: nat, events: seq<Event>)
    requires CanRun(Start(branch, messages, nextId), events)
    ensures var s := Run(Start(branch, messages, nextId), events);
      && InOrder(Stamps(s.log))
      && (s.doubled == 0 ==> NoneTwice(Stamps(s.log)))
      && (s.unrecorded == [] && s.doubled > 0 ==> !NoneTwice(Stamps(s.log)))
  {
    StartOk(branch, messages, nextId);
    RunOk(Start(branch, messages, nextId), events);
    var s := Run(Start(branch, messages, nextId), events);
    var log, whole := Stamps(s.log), Stream(s);
    assert log <= whole;
    forall i, j | 0 <= i < j < |log| ensures Ordered(log[i], log[j]) { assert Ordered(whole[i], whole[j]); }
    if NoneTwice(whole) {
      forall i, j | 0 <= i < j < |log| ensures Differ(log[i], log[j]) { assert Differ(whole[i], whole[j]); }
    }
    if s.unrecorded == [] { assert whole == log; }
  }

  /** At most once is false of a log whose write threw having landed: the retry writes the record again. */
  lemma LandedThrowIsLoggedTwice(branch: string, p: Storing) returns (events: seq<Event>)
    requires p.staging == [Try(Lands, Throws(true))] && p.adding == AddThrows(false, false)
    ensures CanRun(Start(branch, map[], 0), events)
    ensures Stamps(Run(Start(branch, map[], 0), events).log) == [Stamp(0, 0, Staged), Stamp(0, 0, Staged)]
  {
    var s := Start(branch, map[], 0);
    var store, retry := Store(true, p), Retry([Try(Lands, Lands)]);
    events := [store, retry];
    var stored, staged := Next(s, store), Record(Stamp(0, 0, Staged), false, false);
    LandedFirst(s, p);
    hide StoreResults;
    var after := FlushOne(stored, Try(Lands, Lands)).0;
    assert after.unrecorded == [] && after.log == [staged, staged];
    RunTwo(s, store, retry);
    hide FlushOne, Run;
    assert [Try(Lands, Lands)][1..] == [];
    assert Flush(stored, [Try(Lands, Lands)]).0 == Flush(after, []).0 == after;
  }

  /** The staged record's write lands, and throws: it is in the log, and still queued. */
  lemma LandedFirst(s: State, p: Storing)
    requires s.log == [] && s.unrecorded == [] && s.pending.None? && s.nextBatch == 0 && s.nextSerial == 0
    requires p.staging == [Try(Lands, Throws(true))] && p.adding == AddThrows(false, false)
    ensures var stored, staged := StoreResults(s, true, p).0, Record(Stamp(0, 0, Staged), false, false);
      stored.log == [staged] && stored.unrecorded == [Operation(staged, None, None)]
  {
    var op := Operation(Record(Stamp(0, 0, Staged), false, false), None, None);
    var numbered := s.(nextBatch := 1);
    var queued := Queued(numbered, op);
    assert queued.unrecorded == [op] && [op][1..] == [];
    var (after, threw) := FlushOne(queued, Try(Lands, Throws(true)));
    assert threw && after.log == [op.record] && after.unrecorded == [op];
    assert Append(numbered, 0, Staged, p.staging).0 == after;
  }

  lemma RunTwo(s: State, a: Event, b: Event)
    requires CanHappen(s, a) && CanHappen(Next(s, a), b)
    ensures CanRun(s, [a, b]) && Run(s, [a, b]) == Next(Next(s, a), b)
  {
    hide Next;
    assert [a, b][1..] == [b] && [b][1..] == [];
    assert Run(Next(s, a), [b]) == Run(Next(Next(s, a), b), []);
  }

  /**
   With storage working, an accepted batch's message holds its original, unless an operator's change stands there; and
   its hold is gone.
   */
  lemma AcceptedIsAdmitted(s: State, b: Batch)
    requires Inv(s) && s.pending == Some(b) && b.submitted && s.unrecorded == []
    ensures
      var v := End(s, Accepted, [Try(Lands, Lands)]);
      && v.pending.None? && v.unrecorded == [] && b.messageId !in v.holds
      && v.messages ==
        if StillOwn(s, Edit(b.messageId, b.content, b.withheld, b.branch)) then s.messages[b.messageId := b.content]
        else s.messages
  {
    var v := End(s, Accepted, [Try(Lands, Lands)]);
    var e := Edit(b.messageId, b.content, b.withheld, b.branch);
    var settled := s.(recovering := false, pending := None, annotating := s.annotating + []);
    var queued := Queued(settled, NewOperation(settled, b.id, Outcome, true, Some(e)));
    assert queued.unrecorded == [NewOperation(settled, b.id, Outcome, true, Some(e))];
    var after := FlushOne(queued, Try(Lands, Lands)).0;
    assert after.unrecorded == [];
    assert [Try(Lands, Lands)][1..] == [];
    assert v == Settle(s.(recovering := false), b, true, [Try(Lands, Lands)]);
    assert v == Flush(queued, [Try(Lands, Lands)]).0 == Flush(after, []).0;
  }
}
