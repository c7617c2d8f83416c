/**
 The tool-result guard, src/tool-result-guard.ts: newly returned tool output
 waits in an audit log while a placeholder stands in its message, until a
 response accepts the output or it is withheld and its stub says where the
 original went. Every storage step can fail, and an operator edits underneath.
 */
module Guard {
  import opened Options

  /** A message's content, compared as the source compares it: deeply, as stored. */
  type Content = nat

  /** A tool_result block (toolUseId Some), or any other block. */
  datatype Block = Block(toolUseId: Option<nat>, content: Content)

  /** `results` maps each tool use id of the batch to its original, `notices` to the notice that stands for it. */
  datatype Batch = Batch(
    id: nat, messageId: nat, content: Content, withheld: Content, branch: string, wireIds: seq<nat>,
    results: map<nat, Content>, notices: map<nat, Content>, submitted: bool, durable: bool)

  datatype Kind = Staged | Linked | Outcome | Annotated | StubUpdated

  function Rank(kind: Kind): int {
    match kind
    case Staged => 0
    case Linked => 1
    case Outcome => 2
    case Annotated => 3
    case StubUpdated => 4
  }

  /** What makes an audit record itself: the operation it is (`serial`, in the order queued), its batch and its kind. */
  datatype Stamp = Stamp(serial: nat, batch: nat, kind: Kind)

  datatype Record = Record(stamp: Stamp, accepted: bool, superseded: bool)

  /** A history edit: `content` over `expected`, on the batch's own branch. */
  datatype Edit = Edit(messageId: nat, content: Content, expected: Content, branch: string)

  datatype Operation = Operation(record: Record, admission: Option<Edit>, held: Option<nat>)

  /** How one storage call ends: a call that throws may have written what it was given. */
  datatype Attempt = Lands | Throws(landed: bool)

  /** What a pass over the queue meets at one operation. */
  datatype Try = Try(edit: Attempt, write: Attempt)

  /** How an addMessage ends; one that throws may leave its message, and its compression hold. */
  datatype Adding = Added | AddThrows(landed: bool, held: bool)

  /** An edit the context manager took: for which operation, over what, and on which branch. */
  datatype Made = Made(edit: Edit, batch: nat, accepted: bool, before: Content, branch: string)

  /**
   The context manager and store (`branch`, `messages` on it, compression `holds`, the audit `log` and how much of it is
   `synced`, the `edits` made), the guard's fields, and history: each batch as it was `placed` under its message, holds
   that failed adds left, holds that failed annotations gave up, the batches whose originals went out, and how many
   audit writes threw having landed.
   */
  datatype State = State(
    branch: string, messages: map<nat, Content>, holds: set<nat>, nextId: nat,
    log: seq<Record>, synced: nat, edits: seq<Made>,
    pending: Option<Batch>, unrecorded: seq<Operation>, annotating: seq<Batch>, recovering: bool,
    nextBatch: nat, nextSerial: nat, placed: map<nat, Batch>, leaked: set<nat>, dropped: set<nat>, wired: set<nat>,
      doubled: nat)
  {
    /** Nothing is left for a host to wait on or retry. */
    predicate Idle() {
      annotating == [] && unrecorded == []
    }
  }

  const RAN_NOTICE: Content := 0

  function NoticeOf(b: Batch, toolUseId: nat): Content {
    if toolUseId in b.notices then b.notices[toolUseId] else RAN_NOTICE
  }

  function Originals(b: Batch, blocks: seq<Block>): seq<Block> {
    seq(|blocks|, i requires 0 <= i < |blocks| =>
      if blocks[i].toolUseId.Some? && blocks[i].toolUseId.value in b.results
      then blocks[i].(content := b.results[blocks[i].toolUseId.value]) else blocks[i])
  }

  function Notices(b: Batch, blocks: seq<Block>): seq<Block> {
    seq(|blocks|, i requires 0 <= i < |blocks| =>
      if blocks[i].toolUseId.Some? && blocks[i].toolUseId.value in b.results
      then blocks[i].(content := NoticeOf(b, blocks[i].toolUseId.value)) else blocks[i])
  }

  function Present(b: Batch, blocks: seq<Block>): set<nat> {
    set x | x in blocks && x.toolUseId.Some? && x.toolUseId.value in b.results :: x.toolUseId.value
  }

  // --------------------------------------------------------------------------
  // The storage queue
  // --------------------------------------------------------------------------

  /**
   Whether a message still holds what the guard put there: its placeholder, or the payload of an edit that half failed.
   */
  predicate StillOwn(s: State, e: Edit) {
    s.branch == e.branch && e.messageId in s.messages && s.messages[e.messageId] in {e.expected, e.content}
  }

  function Edited(s: State, e: Edit, r: Record): State
    requires StillOwn(s, e)
  {
    s.(messages := s.messages[e.messageId := e.content],
       edits := s.edits + [Made(e, r.stamp.batch, r.accepted, s.messages[e.messageId], s.branch)])
  }

  /** An operation's history edit tried: made, superseded by an operator's change, or still to make. */
  function Applied(s: State, op: Operation, attempt: Attempt): (r: (State, Operation)) {
    match op.admission
    case None => (s, op)
    case Some(e) =>
      if !StillOwn(s, e) then (s, op.(record := op.record.(superseded := true), admission := None))
      else match attempt
        case Lands => (Edited(s, e, op.record), op.(admission := None))
        case Throws(landed) => (if landed then Edited(s, e, op.record) else s, op)
  }

  function Released(s: State, held: Option<nat>): State {
    s.(holds := s.holds - if held.Some? then {held.value} else {})
  }

  /** The head of the queue tried: its edit, then its record. */
  function FlushOne(s: State, t: Try): (State, bool)
    requires s.unrecorded != []
  {
    var (after, op) := Applied(s, s.unrecorded[0], t.edit);
    if op.admission.Some? then (after, true)
    else
      match t.write
      case Lands => (Settled(after, op).(log := s.log + [op.record], unrecorded := s.unrecorded[1..]), false)
      case Throws(landed) =>
        (Settled(after, op).(log := s.log + if landed then [op.record] else [],
                             unrecorded := [Unheld(op)] + s.unrecorded[1..],
                             doubled := s.doubled + if landed then 1 else 0), true)
  }

  const FAILS := Try(Throws(false), Throws(false))

  /** A pass over the queue, in order, up to the first operation that fails; `tries` past its end all fail. */
  function Flush(s: State, tries: seq<Try>): (State, bool)
    decreases |s.unrecorded|
  {
    if s.unrecorded == [] then (s, false)
    else
      var (after, threw) := FlushOne(s, if tries == [] then FAILS else tries[0]);
      if threw then (after, true) else Flush(after, if tries == [] then [] else tries[1..])
  }

  function NewOperation(s: State, batch: nat, kind: Kind, accepted: bool, admission: Option<Edit>): Operation {
    Operation(Record(Stamp(s.nextSerial, batch, kind), accepted, false), admission,
              if admission.Some? then Some(admission.value.messageId) else None)
  }

  function Queued(s: State, op: Operation): State {
    s.(unrecorded := s.unrecorded + [op], nextSerial := s.nextSerial + 1)
  }

  function Append(s: State, batch: nat, kind: Kind, tries: seq<Try>): (State, bool) {
    Flush(Queued(s, NewOperation(s, batch, kind, false, None)), tries)
  }

  // --------------------------------------------------------------------------
  // Storing, sending and settling a batch
  // --------------------------------------------------------------------------

  datatype Storing = Storing(
    content: Content, withheld: Content, wireIds: seq<nat>, results: map<nat, Content>, notices: map<nat, Content>,
    staging: seq<Try>, adding: Adding, linking: seq<Try>, syncs: bool)

  datatype Stored = StoredAt(messageId: nat) | AddThrew | AlreadyPending

  function AddedMessage(s: State, content: Content, adding: Adding): State {
    s.(messages := if adding.Added? || adding.landed then s.messages[s.nextId := content] else s.messages,
      nextId := s.nextId + 1)
  }

  /** A batch's placeholder added, under a compression hold. */
  function Placed(s: State, batch: nat, p: Storing): State {
    var added := AddedMessage(s, p.withheld, p.adding);
    match p.adding
    case AddThrows(_, held) =>
      if held then added.(holds := added.holds + {s.nextId}, leaked := added.leaked + {s.nextId}) else added
    case Added =>
      var b := Batch(batch, s.nextId, p.content, p.withheld, s.branch, p.wireIds, p.results, p.notices, false, false);
      added.(holds := added.holds + {s.nextId}, pending := Some(b), placed := added.placed[s.nextId := b])
  }

  /** The staged record queued, then the placeholder's message. */
  function StagedBatch(s: State, p: Storing): State {
    Placed(Append(s.(nextBatch := s.nextBatch + 1), s.nextBatch, Staged, p.staging).0, s.nextBatch, p)
  }

  /** The linked record queued and, once everything queued is written, synced: only then may the originals go out. */
  function LinkedBatch(s: State, p: Storing): State
    requires s.pending.Some?
  {
    var (linked, threw) := Append(s, s.pending.value.id, Linked, p.linking);
    if threw || !p.syncs || linked.pending.None? then linked
    else linked.(synced := |linked.log|, pending := Some(linked.pending.value.(durable := true)))
  }

  function StoreResults(s: State, enabled: bool, p: Storing): (State, Stored) {
    if !enabled then
      (AddedMessage(s, p.content, p.adding), if p.adding.Added? then StoredAt(s.nextId) else AddThrew)
    else if s.pending.Some? then
      var same := !s.pending.value.submitted && s.pending.value.wireIds == p.wireIds;
      (s, if same then StoredAt(s.pending.value.messageId) else AlreadyPending)
    else
      var staged := StagedBatch(s, p);
      if staged.pending.None? then (staged, AddThrew)
      else (LinkedBatch(staged, p), StoredAt(staged.pending.value.messageId))
  }

  function SubmissionResults(s: State, results: seq<Block>): (State, seq<Block>) {
    match s.pending
    case None => (s, results)
    case Some(b) =>
      if b.durable then (s.(pending := Some(b.(submitted := true)), wired := s.wired + {b.id}), results)
      else (s, Notices(b, results))
  }

  function PrepareRequest(s: State, blocks: seq<Block>, recordSubmission: bool): (State, seq<Block>) {
    if s.pending.None? || !s.pending.value.durable then (s, blocks)
    else
      var b := s.pending.value;
      var submitted := |Present(b, blocks)| == |b.results|;
      var noted := if recordSubmission then s.(pending := Some(b.(submitted := submitted))) else s;
      if !submitted then (noted, blocks) else (noted.(wired := s.wired + {b.id}), Originals(b, blocks))
  }

  /** What ends a batch's wait. */
  datatype Ending =
    | Abandoned
    | TurnEnded
    /** A refusal while the batch was not on the wire. */
    | Unsubmitted
    /** A clean response. */
    | Accepted
    /** A refusal of the batch. */
    | Refused

  /** Whether an ending settles the pending batch. */
  predicate Settles(b: Batch, ending: Ending) {
    match ending
    case Unsubmitted => !b.submitted
    case Refused => b.submitted
    case _ => true
  }

  /** Whether an ending admits the batch's originals to the message. */
  predicate Admits(b: Batch, ending: Ending) {
    match ending
    case TurnEnded => b.durable
    case Accepted => b.submitted
    case _ => false
  }

  function Settle(s: State, b: Batch, admit: bool, tries: seq<Try>): State {
    var admission := if admit then Some(Edit(b.messageId, b.content, b.withheld, b.branch)) else None;
    var freed := s.(pending := None, annotating := s.annotating + if admit then [] else [b]);
    Flush(Queued(freed, NewOperation(freed, b.id, Outcome, admit, admission)), tries).0
  }

  function End(s: State, ending: Ending, tries: seq<Try>): State {
    var noted :=
      match ending
      case Abandoned => s.(recovering := false)
      case Accepted => s.(recovering := false)
      case Refused => if s.pending.Some? && s.pending.value.submitted then s.(recovering := true) else s
      case _ => s;
    if s.pending.Some? && Settles(s.pending.value, ending)
    then Settle(noted, s.pending.value, Admits(s.pending.value, ending), tries)
    else noted
  }

  /**
   The first batch being annotated, once its originals are placed: its place recorded, then its stub edited to `stub`.
   */
  function Annotate(s: State, stub: Content, placing: seq<Try>, edit: Attempt, tries: seq<Try>): State
    requires s.annotating != []
  {
    var b := s.annotating[0];
    var recorded := Append(s, b.id, Annotated, placing).0;
    var e := Edit(b.messageId, stub, b.withheld, b.branch);
    var (edited, op) := Applied(recorded, NewOperation(recorded, b.id, StubUpdated, false, Some(e)), edit);
    Flush(Queued(Settled(edited, op), Unheld(op)).(annotating := s.annotating[1..]), tries).0
  }

  /** An operation whose edit is made or superseded gives up its hold. */
  function Settled(s: State, op: Operation): State {
    if op.admission.None? then Released(s, op.held) else s
  }

  function Unheld(op: Operation): Operation {
    if op.admission.None? then op.(held := None) else op
  }

  /** An annotation that throws before its records: only its hold is given up. */
  function AnnotationThrows(s: State): State
    requires s.annotating != []
  {
    Released(s, Some(s.annotating[0].messageId))
      .(annotating := s.annotating[1..], dropped := s.dropped + {s.annotating[0].messageId})
  }

  // --------------------------------------------------------------------------
  // The guard
  // --------------------------------------------------------------------------

  /** The context manager and its store, as far as a guard uses them. */
  class Manager {
    var branch: string
    var messages: map<nat, Content>
    var holds: set<nat>
    var nextId: nat
    var log: seq<Record>
    var synced: nat
    ghost var edits: seq<Made>

    constructor (branch: string, messages: map<nat, Content>, nextId: nat)
      ensures this.branch == branch && this.messages == messages && this.nextId == nextId
      ensures holds == {} && log == [] && synced == 0 && edits == []
    {
      this.branch, this.messages, this.nextId := branch, messages, nextId;
      holds, log, synced, edits := {}, [], 0, [];
    }

    method AddMessage(content: Content, hold: bool, adding: Adding) returns (id: nat)
      modifies this`messages, this`holds, this`nextId
      ensures id == old(nextId) && nextId == old(nextId) + 1
      ensures messages == if adding.Added? || adding.landed then old(messages)[id := content] else old(messages)
      ensures holds == if hold && (adding.Added? || adding.held) then old(holds) + {id} else old(holds)
    {
      id := nextId;
      nextId := nextId + 1;
      if adding.Added? || adding.landed { messages := messages[id := content]; }
      if hold && (adding.Added? || adding.held) { holds := holds + {id}; }
    }

    method EditMessage(e: Edit, ghost of: Record, attempt: Attempt) returns (threw: bool)
      requires e.messageId in messages
      modifies this`messages, this`edits
      ensures threw == attempt.Throws?
      ensures attempt.Lands? || attempt.landed ==> messages == old(messages)[e.messageId := e.content]
      ensures var made := Made(e, of.stamp.batch, of.accepted, old(messages)[e.messageId], branch);
        attempt.Lands? || attempt.landed ==> edits == old(edits) + [made]
      ensures attempt.Throws? && !attempt.landed ==> messages == old(messages) && edits == old(edits)
    {
      if attempt.Lands? || attempt.landed {
        edits := edits + [Made(e, of.stamp.batch, of.accepted, messages[e.messageId], branch)];
        messages := messages[e.messageId := e.content];
      }
      threw := attempt.Throws?;
    }

    method AppendToState(record: Record, attempt: Attempt) returns (threw: bool)
      modifies this`log
      ensures threw == attempt.Throws?
      ensures log == old(log) + if attempt.Lands? || attempt.landed then [record] else []
    {
      if attempt.Lands? || attempt.landed { log := log + [record]; }
      threw := attempt.Throws?;
    }
  }

  class ToolResultGuard {
    const cm: Manager
    const enabled: bool
    var pending: Option<Batch>
    /** Ordered storage work: a failed head blocks what is queued behind it. */
    var unrecorded: seq<Operation>
    /** Withheld batches whose annotation hasn't ended, in settlement order. */
    var annotating: seq<Batch>
    var recovering: bool
    var nextBatch: nat
    var nextSerial: nat
    ghost var placed: map<nat, Batch>
    ghost var leaked: set<nat>
    ghost var dropped: set<nat>
    ghost var wired: set<nat>
    ghost var doubled: nat

    ghost function Now(): State
      reads this, cm
    {
      State(cm.branch, cm.messages, cm.holds, cm.nextId, cm.log, cm.synced, cm.edits, pending, unrecorded, annotating,
            recovering, nextBatch, nextSerial, placed, leaked, dropped, wired, doubled)
    }

    constructor (cm: Manager, enabled: bool)
      ensures this.cm == cm && this.enabled == enabled
      ensures Now() == State(cm.branch, cm.messages, cm.holds, cm.nextId, cm.log, cm.synced, cm.edits, None, [], [],
                             false, 0, 0, map[], {}, {}, {}, 0)
    {
      this.cm, this.enabled := cm, enabled;
      pending, unrecorded, annotating, recovering, nextBatch, nextSerial := None, [], [], false, 0, 0;
      placed, leaked, dropped, wired, doubled := map[], {}, {}, {}, 0;
    }

    /** Makes an operation's history edit, if it still has one and no operator's change stands in its message. */
    method ApplyEdit(operation: Operation, attempt: Attempt) returns (op: Operation)
      modifies cm`messages, cm`edits
      ensures (Now(), op) == Applied(old(Now()), operation, attempt)
    {
      op := operation;
      if op.admission.None? { return; }
      var e := op.admission.value;
      var sameBranch := cm.branch == e.branch;
      if !sameBranch || e.messageId !in cm.messages
        || (cm.messages[e.messageId] != e.expected && cm.messages[e.messageId] != e.content) {
        op := op.(record := op.record.(superseded := true));
      } else {
        var threw := cm.EditMessage(e, op.record, attempt);
        if threw { return; }
      }
      op := op.(admission := None);
    }

    method ReleaseHold(held: Option<nat>)
      modifies cm`holds
      ensures cm.holds == old(cm.holds) - if held.Some? then {held.value} else {}
    {
      if held.Some? { cm.holds := cm.holds - {held.value}; }
    }

    method TryHead(t: Try) returns (threw: bool)
      requires unrecorded != []
      modifies this`unrecorded, this`doubled, cm
      ensures (Now(), threw) == FlushOne(old(Now()), t)
    {
      var op := ApplyEdit(unrecorded[0], t.edit);
      if op.admission.Some? { return true; }
      threw := cm.AppendToState(op.record, t.write);
      ReleaseHold(op.held);
      if threw {
        unrecorded := [op.(held := None)] + unrecorded[1..];
        if t.write.landed { doubled := doubled + 1; }
      } else {
        unrecorded := unrecorded[1..];
      }
    }

    /** Retries edits and audit writes in order; a failed operation stays at the head. */
    method FlushUnrecorded(tries: seq<Try>) returns (threw: bool)
      modifies this`unrecorded, this`doubled, cm
      ensures (Now(), threw) == Flush(old(Now()), tries)
    {
      var left := tries;
      while unrecorded != []
        invariant Flush(Now(), left) == Flush(old(Now()), tries)
        decreases |unrecorded|
      {
        hide Applied, Settled, Unheld;
        threw := TryHead(if left == [] then FAILS else left[0]);
        if threw { return; }
        left := if left == [] then [] else left[1..];
      }
      threw := false;
    }

    method Push(op: Operation)
      modifies this`unrecorded, this`nextSerial
      ensures Now() == Queued(old(Now()), op)
    {
      unrecorded := unrecorded + [op];
      nextSerial := nextSerial + 1;
    }

    method AppendRecord(batch: nat, kind: Kind, tries: seq<Try>) returns (threw: bool)
      modifies this`unrecorded, this`nextSerial, this`doubled, cm
      ensures (Now(), threw) == Append(old(Now()), batch, kind, tries)
    {
      hide Flush;
      Push(Operation(Record(Stamp(nextSerial, batch, kind), false, false), None, None));
      threw := FlushUnrecorded(tries);
    }

    method Place(batch: nat, p: Storing)
      modifies this`pending, this`leaked, this`placed, cm
      ensures Now() == Placed(old(Now()), batch, p)
    {
      var id := cm.AddMessage(p.withheld, true, p.adding);
      if p.adding.AddThrows? {
        if p.adding.held { leaked := leaked + {id}; }
      } else {
        var b := Batch(batch, id, p.content, p.withheld, cm.branch, p.wireIds, p.results, p.notices, false, false);
        pending := Some(b);
        placed := placed[id := b];
      }
    }

    /** Queues a new batch's originals for the audit log, then adds its placeholder under a compression hold. */
    method Stage(p: Storing)
      modifies this, cm
      ensures Now() == StagedBatch(old(Now()), p)
    {
      hide Append, Placed;
      var batch := nextBatch;
      nextBatch := nextBatch + 1;
      var _ := AppendRecord(batch, Staged, p.staging);
      Place(batch, p);
    }

    /**
     Queues the batch's linked record; the batch is durable once everything queued is written and the store synced.
     */
    method Link(p: Storing)
      requires pending.Some?
      modifies this, cm
      ensures Now() == LinkedBatch(old(Now()), p)
    {
      hide Append;
      var threw := AppendRecord(pending.value.id, Linked, p.linking);
      if !threw && p.syncs {
        cm.synced := |cm.log|;
        pending := Some(pending.value.(durable := true));
      }
    }

    method Store(p: Storing) returns (stored: Stored)
      modifies this, cm
      ensures (Now(), stored) == StoreResults(old(Now()), enabled, p)
    {
      hide StagedBatch, LinkedBatch;
      if !enabled {
        var id := cm.AddMessage(p.content, false, p.adding);
        return if p.adding.Added? then StoredAt(id) else AddThrew;
      }
      if pending.Some? {
        var same := !pending.value.submitted && pending.value.wireIds == p.wireIds;
        return if same then StoredAt(pending.value.messageId) else AlreadyPending;
      }
      Stage(p);
      if pending.None? { return AddThrew; }
      var id := pending.value.messageId;
      Link(p);
      return StoredAt(id);
    }

    /** Results for a live continuation: the originals, and the batch submitted, only once its audit is durable. */
    method Submission(results: seq<Block>) returns (sent: seq<Block>)
      modifies this`pending, this`wired
      ensures (Now(), sent) == SubmissionResults(old(Now()), results)
    {
      if pending.None? { return results; }
      if pending.value.durable {
        pending := Some(pending.value.(submitted := true));
        wired := wired + {pending.value.id};
        return results;
      }
      return Notices(pending.value, results);
    }

    /** A restarted request: the originals put back in it only where every result of a durable batch is there. */
    method Request(blocks: seq<Block>, recordSubmission: bool) returns (sent: seq<Block>)
      modifies this`pending, this`wired
      ensures (Now(), sent) == PrepareRequest(old(Now()), blocks, recordSubmission)
    {
      if pending.None? || !pending.value.durable { return blocks; }
      var b := pending.value;
      var submitted := |Present(b, blocks)| == |b.results|;
      if recordSubmission { pending := Some(b.(submitted := submitted)); }
      if !submitted { return blocks; }
      wired := wired + {b.id};
      return Originals(b, blocks);
    }

    method SettleBatch(b: Batch, admit: bool, tries: seq<Try>)
      modifies this`pending, this`annotating, this`unrecorded, this`nextSerial, this`doubled, cm
      ensures Now() == Settle(old(Now()), b, admit, tries)
    {
      hide Flush;
      pending := None;
      if !admit { annotating := annotating + [b]; } else { assert annotating + [] == annotating; }
      var admission := if admit then Some(Edit(b.messageId, b.content, b.withheld, b.branch)) else None;
      Push(Operation(Record(Stamp(nextSerial, b.id, Outcome), admit, false), admission,
        if admit then Some(b.messageId) else None));
      var _ := FlushUnrecorded(tries);
    }

    method EndWait(ending: Ending, tries: seq<Try>)
      modifies this, cm
      ensures Now() == End(old(Now()), ending, tries)
    {
      hide Settle;
      if ending.Abandoned? || ending.Accepted? { recovering := false; }
      if pending.None? || !Settles(pending.value, ending) { return; }
      if ending.Refused? { recovering := true; }
      SettleBatch(pending.value, Admits(pending.value, ending), tries);
    }

    /**
     The end of an annotation: where the originals went, then the stub, whose edit is tried at once and queued with its
     hold if it fails.
     */
    method EndAnnotation(stub: Content, placing: seq<Try>, edit: Attempt, tries: seq<Try>)
      requires annotating != []
      modifies this, cm
      ensures Now() == Annotate(old(Now()), stub, placing, edit, tries)
    {
      hide Flush, Append;
      var b := annotating[0];
      var _ := AppendRecord(b.id, Annotated, placing);
      var op := Operation(Record(Stamp(nextSerial, b.id, StubUpdated), false, false),
                          Some(Edit(b.messageId, stub, b.withheld, b.branch)), Some(b.messageId));
      op := ApplyEdit(op, edit);
      if op.admission.None? { ReleaseHold(op.held); }
      Push(Unheld(op));
      annotating := annotating[1..];
      var _ := FlushUnrecorded(tries);
    }
  }
}
