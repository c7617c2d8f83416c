/** What the guard comes to where storage works, and exactly when a batch's originals go out. */
module GuardWorks {
  import opened Options
  import opened Guard
  import opened GuardRuns

  const WORKS := Try(Lands, Lands)

  /** The next `n` tries of storage land. */
  predicate AllLand(tries: seq<Try>, n: nat) {
    n <= |tries| && forall i | 0 <= i < n :: tries[i] == WORKS
  }

  // --------------------------------------------------------------------------
  // A pass over the queue
  // --------------------------------------------------------------------------

  /** A pass fails exactly where it leaves something queued, and never queues more. */
  lemma {:induction false} PassFailsExactly(s: State, tries: seq<Try>)
    ensures var (v, threw) := Flush(s, tries);
      SameBatches(s, v) && |v.unrecorded| <= |s.unrecorded| && (threw <==> v.unrecorded != [])
    decreases |s.unrecorded|
  {
    if s.unrecorded != [] {
      var t := if tries == [] then FAILS else tries[0];
      AppliedFrame(s, s.unrecorded[0], t.edit);
      var (after, threw) := FlushOne(s, t);
      if !threw { PassFailsExactly(after, if tries == [] then [] else tries[1..]); }
    }
  }

  /** Where storage works, a pass writes everything queued to the audit log, in order, once. */
  lemma {:induction false} PassWritesAll(s: State, tries: seq<Try>)
    requires AllLand(tries, |s.unrecorded|)
    ensures var (v, threw) := Flush(s, tries);
      && !threw && v.unrecorded == [] && Stamps(v.log) == Stream(s) && v.doubled == s.doubled && s.log <= v.log
      && forall op | op in s.unrecorded && op.held.Some? :: op.held.value !in v.holds
    decreases |s.unrecorded|
  {
    hide Stamps, OpStamps, Applied;
    if s.unrecorded == [] {
      assert Stream(s) == Stamps(s.log) by { NoOps(); }
    } else {
      var head, rest := s.unrecorded[0], s.unrecorded[1..];
      var after := FlushOne(s, WORKS).0;
      HeadWritten(s);
      assert AllLand(tries[1..], |rest|) by {
        forall i | 0 <= i < |rest| ensures tries[1..][i] == WORKS { assert tries[1..][i] == tries[i + 1]; }
      }
      PassWritesAll(after, tries[1..]);
      HoldsOnlyGo(after, tries[1..]);
      assert s.unrecorded == [head] + rest;
    }
  }

  lemma NoOps()
    ensures forall stamps: seq<Stamp> :: stamps + OpStamps([]) == stamps
  {
  }

  lemma HeadWritten(s: State)
    requires s.unrecorded != []
    ensures var (after, threw) := FlushOne(s, WORKS);
      && !threw && after.unrecorded == s.unrecorded[1..] && Stream(after) == Stream(s) && after.doubled == s.doubled
      && s.log <= after.log
      && (s.unrecorded[0].held.Some? ==> s.unrecorded[0].held.value !in after.holds)
  {
    hide Stamps, OpStamps;
    FlushOneStream(s, WORKS);
    AppliedFrame(s, s.unrecorded[0], Lands);
  }

  lemma {:induction false} HoldsOnlyGo(s: State, tries: seq<Try>)
    ensures Flush(s, tries).0.holds <= s.holds
    decreases |s.unrecorded|
  {
    if s.unrecorded != [] {
      var t := if tries == [] then FAILS else tries[0];
      var (after, threw) := FlushOne(s, t);
      AppliedFrame(s, s.unrecorded[0], t.edit);
      if !threw { HoldsOnlyGo(after, if tries == [] then [] else tries[1..]); }
    }
  }

  // --------------------------------------------------------------------------
  // Whether originals go out
  // --------------------------------------------------------------------------

  /** Blocks with each result of the batch carrying its original, or its notice, and everything else as it was. */
  predicate SentAs(p: Storing, blocks: seq<Block>, sent: seq<Block>, originals: bool) {
    && |sent| == |blocks|
    && forall i | 0 <= i < |blocks| ::
      && sent[i].toolUseId == blocks[i].toolUseId
      && sent[i].content ==
        if blocks[i].toolUseId.None? || blocks[i].toolUseId.value !in p.results then blocks[i].content
        else if originals then p.results[blocks[i].toolUseId.value]
        else if blocks[i].toolUseId.value in p.notices then p.notices[blocks[i].toolUseId.value] else RAN_NOTICE
  }

  /** Every result of the batch is in the request. */
  predicate AllThere(p: Storing, blocks: seq<Block>) {
    forall id | id in p.results :: exists i | 0 <= i < |blocks| :: blocks[i].toolUseId == Some(id)
  }

  lemma PresentIsAll(b: Batch, p: Storing, blocks: seq<Block>)
    requires b.results == p.results
    ensures |Present(b, blocks)| == |b.results| <==> AllThere(p, blocks)
  {
    var present := Present(b, blocks);
    assert present <= b.results.Keys;
    if AllThere(p, blocks) {
      forall id | id in b.results ensures id in present {
        var i :| 0 <= i < |blocks| && blocks[i].toolUseId == Some(id);
        assert blocks[i] in blocks;
      }
      assert present == b.results.Keys;
    } else {
      var id :| id in p.results && !exists i | 0 <= i < |blocks| :: blocks[i].toolUseId == Some(id);
      assert id !in present;
      Fewer(present, b.results.Keys, id);
    }
  }

  lemma Fewer(a: set<nat>, b: set<nat>, x: nat)
    requires a <= b && x in b && x !in a
    ensures |a| < |b|
  {
    SubsetIsNoLarger(a, b - {x});
  }

  lemma {:induction false} SubsetIsNoLarger(a: set<nat>, b: set<nat>)
    requires a <= b
    ensures |a| <= |b|
  {
    if a != {} {
      var x :| x in a;
      SubsetIsNoLarger(a - {x}, b - {x});
    }
  }

  /** The batch a placeholder's add makes pending. */
  lemma StoredBatch(s: State, p: Storing)
    requires s.pending.None? && p.adding.Added?
    ensures
      var (stored, answer) := StoreResults(s, true, p);
      && answer == StoredAt(s.nextId) && stored.pending.Some?
      && var b := stored.pending.value;
        && b.messageId == s.nextId && b.results == p.results && b.notices == p.notices && !b.submitted
        && (b.durable <==> stored.unrecorded == [] && p.syncs)
        && (b.durable ==> stored.synced == |stored.log|)
  {
    hide Flush;
    var numbered := s.(nextBatch := s.nextBatch + 1);
    var op := NewOperation(numbered, s.nextBatch, Staged, false, None);
    PassFailsExactly(Queued(numbered, op), p.staging);
    var staged := StagedBatch(s, p);
    PassFailsExactly(Queued(staged, NewOperation(staged, staged.pending.value.id, Linked, false, None)), p.linking);
  }

  /**
   A batch's originals go out exactly where its audit records, and all queued before them, are written and the store
   synced: in a continuation as they are, in a restarted request wherever all of them are there. Otherwise the
   continuation gets its notices, and the request nothing of it.
   */
  lemma OriginalsGoOutExactly(s: State, p: Storing, results: seq<Block>, blocks: seq<Block>, record: bool)
    requires s.pending.None? && p.adding.Added?
    ensures
      var stored := StoreResults(s, true, p).0;
      var sent, request := SubmissionResults(stored, results).1, PrepareRequest(stored, blocks, record).1;
      if stored.unrecorded == [] && p.syncs then
        && sent == results
        && (if AllThere(p, blocks) then SentAs(p, blocks, request, true) else request == blocks)
      else SentAs(p, results, sent, false) && request == blocks
  {
    hide StoreResults, Present;
    StoredBatch(s, p);
    PresentIsAll(StoreResults(s, true, p).0.pending.value, p, blocks);
  }

  /** And that is so where storage works: whatever was queued before, and even where staging didn't. */
  lemma StoringWorks(s: State, p: Storing)
    requires s.pending.None? && p.adding.Added?
    requires AllLand(p.linking, |s.unrecorded| + 2)
      || (AllLand(p.staging, |s.unrecorded| + 1) && AllLand(p.linking, 1))
    ensures StoreResults(s, true, p).0.unrecorded == []
  {
    hide Flush;
    var numbered := s.(nextBatch := s.nextBatch + 1);
    var first := Queued(numbered, NewOperation(numbered, s.nextBatch, Staged, false, None));
    PassFailsExactly(first, p.staging);
    if AllLand(p.staging, |s.unrecorded| + 1) { PassWritesAll(first, p.staging); }
    var staged := StagedBatch(s, p);
    PassWritesAll(Queued(staged, NewOperation(staged, staged.pending.value.id, Linked, false, None)), p.linking);
  }

  /** An add that throws leaves no batch, and its caller is told. */
  lemma FailedAddIsTold(s: State, p: Storing)
    requires s.pending.None? && p.adding.AddThrows?
    ensures var (stored, answer) := StoreResults(s, true, p);
      answer.AddThrew? && stored.pending.None? && stored.nextBatch == s.nextBatch + 1
  {
    hide Flush;
    var numbered := s.(nextBatch := s.nextBatch + 1);
    PassFailsExactly(Queued(numbered, NewOperation(numbered, s.nextBatch, Staged, false, None)), p.staging);
  }

  // --------------------------------------------------------------------------
  // How a wait ends
  // --------------------------------------------------------------------------

  /** A clean response to what went out, or a turn's end before anything did: the originals are admitted. */
  predicate IsAdmitted(b: Batch, ending: Ending) {
    (ending.Accepted? && b.submitted) || (ending.TurnEnded? && b.durable)
  }

  /** A refusal of something else leaves the batch waiting. */
  predicate KeepsWaiting(b: Batch, ending: Ending) {
    (ending.Unsubmitted? && b.submitted) || (ending.Refused? && !b.submitted)
  }

  /**
   With storage working, an ending that admits a batch lets go of its hold, and one that withholds it leaves that to its
   annotation. Either is logged, once. A refusal puts the guard in recovery, and a clean response or an abandoned stream
   ends that.
   */
  lemma EndingsSettle(s: State, b: Batch, ending: Ending, tries: seq<Try>)
    requires s.pending == Some(b) && AllLand(tries, |s.unrecorded| + 1)
    ensures
      var v := End(s, ending, tries);
      && v.recovering ==
        (if ending.Abandoned? || ending.Accepted? then false else (ending.Refused? && b.submitted) || s.recovering)
      && (KeepsWaiting(b, ending) ==> v == s)
      && (!KeepsWaiting(b, ending) ==>
        && v.pending.None? && v.unrecorded == []
        && Stamps(v.log) == Stream(s) + [Stamp(s.nextSerial, b.id, Outcome)]
        && v.annotating == s.annotating + (if IsAdmitted(b, ending) then [] else [b])
        && (IsAdmitted(b, ending) ==> b.messageId !in v.holds))
  {
    hide Flush, Stamps;
    if !KeepsWaiting(b, ending) {
      var op, queued := EndingQueues(s, b, ending, tries);
      PassFailsExactly(queued, tries);
      PassWritesAll(queued, tries);
      StreamQueued(s, queued, op);
      assert op in queued.unrecorded;
    }
  }

  /** The operation a settling ending queues, and the state it is tried in. */
  lemma EndingQueues(s: State, b: Batch, ending: Ending, tries: seq<Try>) returns (op: Operation, queued: State)
    requires s.pending == Some(b) && !KeepsWaiting(b, ending)
    ensures End(s, ending, tries) == Flush(queued, tries).0 && queued.unrecorded == s.unrecorded + [op]
    ensures
      var recovering := if ending.Abandoned? || ending.Accepted? then false else ending.Refused? || s.recovering;
      queued == s.(recovering := recovering, pending := None, unrecorded := queued.unrecorded,
                   nextSerial := s.nextSerial + 1,
                   annotating := s.annotating + if IsAdmitted(b, ending) then [] else [b])
    ensures op.record.stamp == Stamp(s.nextSerial, b.id, Outcome)
    ensures
      if IsAdmitted(b, ending)
      then op.held == Some(b.messageId) && op.admission == Some(Edit(b.messageId, b.content, b.withheld, b.branch))
      else op.held.None? && op.admission.None?
  {
    hide Flush;
    var admit := IsAdmitted(b, ending);
    var recovering := if ending.Abandoned? || ending.Accepted? then false else ending.Refused? || s.recovering;
    var noted := s.(recovering := recovering);
    assert s.(recovering := s.recovering) == s;
    assert End(s, ending, tries) == Settle(noted, b, admit, tries);
    var admission := if admit then Some(Edit(b.messageId, b.content, b.withheld, b.branch)) else None;
    var freed := noted.(pending := None, annotating := noted.annotating + if admit then [] else [b]);
    op := NewOperation(freed, b.id, Outcome, admit, admission);
    queued := Queued(freed, op);
  }

  /**
   With nothing else queued, an admitted batch's message holds its originals, unless an operator's change stands there.
   */
  lemma AdmittedIsPlaced(s: State, b: Batch, ending: Ending, tries: seq<Try>)
    requires s.pending == Some(b) && s.unrecorded == [] && AllLand(tries, 1)
    ensures End(s, ending, tries).messages ==
      if IsAdmitted(b, ending) && IsOwnYet(s, b, b.content) then s.messages[b.messageId := b.content] else s.messages
  {
    if !KeepsWaiting(b, ending) {
      var op, queued := EndingQueues(s, b, ending, tries);
      OnePass(queued, op, tries);
    }
  }

  /** Whether a batch's message still holds its placeholder, or what is being put there, on the batch's own branch. */
  predicate IsOwnYet(s: State, b: Batch, content: Content) {
    s.branch == b.branch && b.messageId in s.messages && s.messages[b.messageId] in {b.withheld, content}
  }

  lemma OnePass(s: State, op: Operation, tries: seq<Try>)
    requires s.unrecorded == [op] && AllLand(tries, 1)
    ensures Flush(s, tries).0.messages == Applied(s, op, Lands).0.messages
  {
    var after := FlushOne(s, WORKS).0;
    assert after.unrecorded == [] && Flush(s, tries).0 == Flush(after, tries[1..]).0 == after;
  }

  lemma StreamQueued(s: State, queued: State, op: Operation)
    requires queued.log == s.log && queued.unrecorded == s.unrecorded + [op]
    ensures Stream(queued) == Stream(s) + [op.record.stamp]
  {
    assert OpStamps(s.unrecorded + [op]) == OpStamps(s.unrecorded) + [op.record.stamp];
  }

  /**
   With storage working and nothing queued, an annotation puts its stub in the message, unless an operator's change
   stands there, and lets go of its hold; where the originals went, and the stub's update, are logged, in that order.
   */
  lemma AnnotatedIsStubbed(s: State, stub: Content)
    requires s.annotating != [] && s.unrecorded == []
    ensures
      var b, v := s.annotating[0], Annotate(s, stub, [WORKS], Lands, [WORKS]);
      && v.unrecorded == [] && v.annotating == s.annotating[1..] && b.messageId !in v.holds
      && Stamps(v.log) ==
        Stamps(s.log) + [Stamp(s.nextSerial, b.id, Annotated), Stamp(s.nextSerial + 1, b.id, StubUpdated)]
      && v.messages == (
        if IsOwnYet(s, b, stub) then s.messages[b.messageId := stub] else s.messages)
  {
    var b := s.annotating[0];
    var first := NewOperation(s, b.id, Annotated, false, None);
    var queued := Queued(s, first);
    assert queued.unrecorded == [first];
    var recorded := FlushOne(queued, WORKS).0;
    assert recorded == queued.(log := s.log + [first.record], unrecorded := []);
    assert [WORKS][1..] == [] && Flush(recorded, []).0 == recorded;
    assert Append(s, b.id, Annotated, [WORKS]).0 == recorded;
    var e := Edit(b.messageId, stub, b.withheld, b.branch);
    var (edited, op) := Applied(recorded, NewOperation(recorded, b.id, StubUpdated, false, Some(e)), Lands);
    assert op.admission.None?;
    var settled := Queued(Settled(edited, op), Unheld(op)).(annotating := s.annotating[1..]);
    assert settled.unrecorded == [Unheld(op)];
    var last := FlushOne(settled, WORKS).0;
    assert last.unrecorded == [] && last.log == s.log + [first.record] + [op.record];
    assert Annotate(s, stub, [WORKS], Lands, [WORKS]) == Flush(settled, [WORKS]).0 == Flush(last, []).0;
    StampsThen(s.log, first.record);
    StampsThen(s.log + [first.record], op.record);
  }
}
