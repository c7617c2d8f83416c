/**
 Held prose drafts, src/prose-drafts.ts: a projection of a record journal that
 lets old drafts go at its checkpoints, and what a draft's attempts say of it.
 */
module ProseDrafts {
  import opened Options
  import opened Journal

  datatype Status = Delivered | Failed | Unsure

  datatype Answer = Answer(status: Status, at: int)

  /** Without an outcome, an attempt reads as unknown. */
  datatype Attempt = Attempt(attemptId: string, at: int, outcome: Option<Answer>)

  /** `bounced` is the reason it was held; `inherits` that its words may already have been posted. */
  datatype Draft = Draft(
    agent: string, id: string, text: string, bounced: bool, inherits: bool, heldAt: int, attempts: seq<Attempt>,
    dismissedAt: Option<int>, noticedIn: seq<string>, noticedAt: Option<int>)

  datatype Entry =
    | Held(draft: Draft)
    | Attempted(agent: string, id: string, attempt: Attempt)
    | Answered(agent: string, id: string, attemptId: string, answer: Answer)
    | Dismissed(agent: string, id: string, at: int)
    | Noticed(agent: string, ids: seq<string>, at: int, messageId: Option<string>)

  /** The drafts kept, in hold order (an agent's are those of its name), and each agent's latest bounce, kept or not. */
  datatype Drafts = Drafts(kept: seq<Draft>, bounces: map<string, string>)

  const NO_DRAFTS := Drafts([], map[])

  // --------------------------------------------------------------------------
  // What a draft's attempts say
  // --------------------------------------------------------------------------

  datatype DraftState = IsHeld | IsUnconfirmed | IsDelivered | IsDismissed

  predicate IsDelivery(a: Attempt) {
    a.outcome.Some? && a.outcome.value.status.Delivered?
  }

  predicate SomeDelivered(attempts: seq<Attempt>) {
    exists a :: a in attempts && IsDelivery(a)
  }

  predicate MayHavePosted(a: Attempt) {
    a.outcome.None? || a.outcome.value.status.Unsure?
  }

  /** The most recent attempt that may have been posted. */
  function LatestUnsure(attempts: seq<Attempt>): Option<Attempt> {
    if attempts == [] then None
    else if MayHavePosted(attempts[|attempts| - 1]) then Some(attempts[|attempts| - 1])
    else LatestUnsure(attempts[..|attempts| - 1])
  }

  function UncertainAttempt(d: Draft): Option<Attempt> {
    if SomeDelivered(d.attempts) then None else LatestUnsure(d.attempts)
  }

  method FindUncertain(d: Draft) returns (a: Option<Attempt>)
    ensures a == UncertainAttempt(d)
  {
    if SomeDelivered(d.attempts) { return None; }
    var i := |d.attempts| - 1;
    assert d.attempts[..|d.attempts|] == d.attempts;
    while i >= 0
      invariant -1 <= i < |d.attempts| && LatestUnsure(d.attempts[..i + 1]) == LatestUnsure(d.attempts)
    {
      assert d.attempts[..i + 1][..i] == d.attempts[..i];
      if MayHavePosted(d.attempts[i]) { return Some(d.attempts[i]); }
      i := i - 1;
    }
    return None;
  }

  function StateOf(d: Draft): DraftState {
    if SomeDelivered(d.attempts) then IsDelivered
    else if d.dismissedAt.Some? then IsDismissed
    else if UncertainAttempt(d).Some? || d.inherits then IsUnconfirmed
    else IsHeld
  }

  lemma {:induction false} UnsureIsThere(attempts: seq<Attempt>)
    ensures LatestUnsure(attempts).Some? <==> exists a :: a in attempts && MayHavePosted(a)
  {
    if attempts != [] {
      var n := |attempts| - 1;
      assert attempts == attempts[..n] + [attempts[n]];
      UnsureIsThere(attempts[..n]);
      if LatestUnsure(attempts[..n]).Some? {
        var a :| a in attempts[..n] && MayHavePosted(a);
        assert a in attempts;
      }
    }
  }

  /**
   A draft may be resent freely exactly when nothing it was, or copied, can have been posted: every attempt of its own
   definitely failed.
   */
  lemma HeldOnlyIfAllFailed(d: Draft)
    ensures StateOf(d).IsHeld? <==>
      d.dismissedAt.None? && !d.inherits && forall a | a in d.attempts ::
        a.outcome.Some? && a.outcome.value.status.Failed?
  {
    UnsureIsThere(d.attempts);
  }

  // --------------------------------------------------------------------------
  // The reduction
  // --------------------------------------------------------------------------

  predicate Names(e: Entry, d: Draft) {
    match e
    case Held(_) => false
    case Noticed(agent, ids, _, _) => agent == d.agent && d.id in ids
    case Attempted(agent, id, _) => agent == d.agent && id == d.id
    case Answered(agent, id, _, _) => agent == d.agent && id == d.id
    case Dismissed(agent, id, _) => agent == d.agent && id == d.id
  }

  /** The first attempt with an id takes the answer. */
  function WithAnswer(attempts: seq<Attempt>, attemptId: string, answer: Answer): seq<Attempt> {
    if attempts == [] then []
    else if attempts[0].attemptId == attemptId then [attempts[0].(outcome := Some(answer))] + attempts[1..]
    else [attempts[0]] + WithAnswer(attempts[1..], attemptId, answer)
  }

  function Max(a: int, b: int): int { if a < b then b else a }

  function Updated(d: Draft, e: Entry): Draft {
    if !Names(e, d) then d
    else match e
      case Held(_) => d
      case Attempted(_, _, attempt) => d.(attempts := d.attempts + [attempt.(outcome := None)])
      case Answered(_, _, attemptId, answer) => d.(attempts := WithAnswer(d.attempts, attemptId, answer))
      case Dismissed(_, _, at) => d.(dismissedAt := Some(d.dismissedAt.Or(at)))
      case Noticed(_, _, at, messageId) =>
        if messageId.None? then d
        else d.(noticedIn := if messageId.value in d.noticedIn then d.noticedIn else d.noticedIn + [messageId.value],
                noticedAt := Some(Max(d.noticedAt.Or(0), at)))
  }

  predicate SameKey(a: Draft, b: Draft) {
    a.agent == b.agent && a.id == b.id
  }

  /** A draft held: in place of one with its key, or last. */
  function With(drafts: seq<Draft>, x: Draft): seq<Draft> {
    if drafts == [] then [x]
    else if SameKey(drafts[0], x) then [x] + drafts[1..]
    else [drafts[0]] + With(drafts[1..], x)
  }

  /** A draft as held: nothing has happened to it yet. */
  function Begun(d: Draft): Draft {
    d.(attempts := [], dismissedAt := None, noticedIn := [], noticedAt := None)
  }

  function UpdatedAll(drafts: seq<Draft>, e: Entry): seq<Draft> {
    seq(|drafts|, i requires 0 <= i < |drafts| => Updated(drafts[i], e))
  }

  function Reduced(p: Drafts, e: Entry): Drafts {
    match e
    case Held(draft) =>
      Drafts(With(p.kept, Begun(draft)), if draft.bounced then p.bounces[draft.agent := draft.id] else p.bounces)
    case _ => p.(kept := UpdatedAll(p.kept, e))
  }

  function Step(): (Drafts, Entry) -> Drafts {
    (p, e) => Reduced(p, e)
  }

  /** What each entry does to a draft it names, and that one which names another does nothing. */
  lemma EntriesTakeEffect(d: Draft, e: Entry)
    ensures var v := Updated(d, e);
      && v == d.(attempts := v.attempts, dismissedAt := v.dismissedAt, noticedIn := v.noticedIn,
        noticedAt := v.noticedAt)
      && (!Names(e, d) ==> v == d)
      && (e.Dismissed? && Names(e, d) && !StateOf(d).IsDelivered? ==> StateOf(v).IsDismissed?)
      && (e.Attempted? && Names(e, d) && !StateOf(d).IsDelivered? && !StateOf(d).IsDismissed? ==>
            StateOf(v).IsUnconfirmed? && UncertainAttempt(v) == Some(e.attempt.(outcome := None)))
      && (forall a | e.Answered? && Names(e, d) && e.answer.status.Delivered? && a in d.attempts ::
            a.attemptId == e.attemptId ==> StateOf(v).IsDelivered?)
      && (e.Noticed? && Names(e, d) && e.messageId.Some? ==>
            e.messageId.value in v.noticedIn && d.noticedIn <= v.noticedIn && v.noticedAt.Or(0) >= e.at)
  {
    hide WithAnswer;
    if Names(e, d) {
      if e.Attempted? {
        assert (d.attempts + [e.attempt.(outcome := None)])[..|d.attempts|] == d.attempts;
        if SomeDelivered(Updated(d, e).attempts) {
          var a :| a in Updated(d, e).attempts && IsDelivery(a);
          assert a in d.attempts;
        }
      } else if e.Answered? {
        WithAnswerAt(d.attempts, e.attemptId, e.answer);
        if exists a :: a in d.attempts && a.attemptId == e.attemptId {
          var i := FirstWith(d.attempts, e.attemptId);
          assert WithAnswer(d.attempts, e.attemptId, e.answer)[i] in WithAnswer(d.attempts, e.attemptId, e.answer);
        }
      }
    }
  }

  lemma {:induction false} FirstWith(attempts: seq<Attempt>, attemptId: string) returns (i: nat)
    requires exists a :: a in attempts && a.attemptId == attemptId
    ensures i < |attempts| && IsFirst(attempts, i, attemptId)
  {
    if attempts[0].attemptId == attemptId {
      i := 0;
    } else {
      var a :| a in attempts && a.attemptId == attemptId;
      assert a in attempts[1..];
      var k := FirstWith(attempts[1..], attemptId);
      i := k + 1;
      forall j | 0 <= j < i ensures attempts[j].attemptId != attemptId {
        if j > 0 { assert attempts[j] == attempts[1..][j - 1]; }
      }
    }
  }

  /** An attempt begun and answered `Failed` leaves an earlier uncertainty standing. */
  lemma FailureResolvesNothing(d: Draft, attempt: Attempt, at: int)
    requires StateOf(d).IsUnconfirmed? && forall a | a in d.attempts :: a.attemptId != attempt.attemptId
    ensures var tried := Updated(d, Attempted(d.agent, d.id, attempt));
      && StateOf(tried).IsUnconfirmed?
      && StateOf(Updated(tried, Answered(d.agent, d.id, attempt.attemptId, Answer(Failed, at)))).IsUnconfirmed?
  {
    hide LatestUnsure, WithAnswer, SomeDelivered;
    AnswersTheLast(d.attempts, attempt.(outcome := None), Answer(Failed, at));
    UndeliveredThen(d.attempts, attempt.(outcome := None));
    UndeliveredThen(d.attempts, attempt.(outcome := Some(Answer(Failed, at))));
  }

  lemma UndeliveredThen(attempts: seq<Attempt>, x: Attempt)
    requires !SomeDelivered(attempts) && (x.outcome.Some? ==> !x.outcome.value.status.Delivered?)
    ensures !SomeDelivered(attempts + [x])
    ensures LatestUnsure(attempts + [x]).Some? <==> LatestUnsure(attempts).Some? || MayHavePosted(x)
  {
    assert (attempts + [x])[..|attempts|] == attempts;
  }

  lemma {:induction false} AnswersTheLast(attempts: seq<Attempt>, attempt: Attempt, answer: Answer)
    requires forall a | a in attempts :: a.attemptId != attempt.attemptId
    ensures WithAnswer(attempts + [attempt], attempt.attemptId, answer) == attempts
      + [attempt.(outcome := Some(answer))]
  {
    if attempts != [] {
      assert (attempts + [attempt])[1..] == attempts[1..] + [attempt];
      AnswersTheLast(attempts[1..], attempt, answer);
    }
  }

  // --------------------------------------------------------------------------
  // What a delivered draft stays through
  // --------------------------------------------------------------------------

  predicate IsFirst(attempts: seq<Attempt>, i: nat, attemptId: string)
    requires i < |attempts|
  {
    attempts[i].attemptId == attemptId && forall j | 0 <= j < i :: attempts[j].attemptId != attemptId
  }

  /** Whether the attempt an answer to `attemptId` goes to is the only one that was delivered. */
  predicate OnlyDelivery(attempts: seq<Attempt>, attemptId: string) {
    exists i | 0 <= i < |attempts| ::
      && IsFirst(attempts, i, attemptId) && IsDelivery(attempts[i])
      && forall j | 0 <= j < |attempts| && j != i :: !IsDelivery(attempts[j])
  }

  lemma {:induction false} WithAnswerAt(attempts: seq<Attempt>, attemptId: string, answer: Answer)
    ensures |WithAnswer(attempts, attemptId, answer)| == |attempts|
    ensures forall i | 0 <= i < |attempts| ::
      WithAnswer(attempts, attemptId, answer)[i] ==
      if IsFirst(attempts, i, attemptId) then attempts[i].(outcome := Some(answer)) else attempts[i]
  {
    if attempts != [] && attempts[0].attemptId != attemptId {
      var rest := attempts[1..];
      WithAnswerAt(rest, attemptId, answer);
      forall i | 0 < i < |attempts| ensures IsFirst(attempts, i, attemptId) <==> IsFirst(rest, i - 1, attemptId) {
        assert forall j | 0 <= j < i - 1 :: rest[j] == attempts[j + 1];
        assert forall j | 0 < j < i :: attempts[j] == rest[j - 1];
      }
    }
  }

  /** Answered otherwise, an attempt takes the delivery with it exactly where it was the only one delivered. */
  lemma AnsweredOtherwise(attempts: seq<Attempt>, attemptId: string, answer: Answer)
    requires SomeDelivered(attempts)
    ensures !SomeDelivered(WithAnswer(attempts, attemptId, answer)) <==>
      !answer.status.Delivered? && OnlyDelivery(attempts, attemptId)
  {
    WithAnswerAt(attempts, attemptId, answer);
    var after := WithAnswer(attempts, attemptId, answer);
    var a :| a in attempts && IsDelivery(a);
    var k :| 0 <= k < |attempts| && attempts[k] == a;
    if !SomeDelivered(after) {
      assert after[k] in after;
      forall j | 0 <= j < |attempts| && j != k ensures !IsDelivery(attempts[j]) { assert after[j] in after; }
    } else {
      var b :| b in after && IsDelivery(b);
      var j :| 0 <= j < |after| && after[j] == b;
    }
  }

  /**
   A delivered draft stays delivered whatever is recorded, except by an answer of another kind to the one attempt of it
   that was delivered.
   */
  lemma DeliveredStaysExactly(d: Draft, e: Entry)
    requires StateOf(d).IsDelivered?
    ensures !StateOf(Updated(d, e)).IsDelivered? <==>
      e.Answered? && Names(e, d) && !e.answer.status.Delivered? && OnlyDelivery(d.attempts, e.attemptId)
  {
    hide OnlyDelivery, WithAnswer;
    if e.Answered? && Names(e, d) {
      AnsweredOtherwise(d.attempts, e.attemptId, e.answer);
    } else if e.Attempted? {
      var a :| a in d.attempts && IsDelivery(a);
      assert a in d.attempts + [e.attempt.(outcome := None)];
    }
  }

  /** Such an answer: any held draft, attempted, answered delivered and then failed. */
  lemma AnsweredTwiceIsLost(held: Draft, attempt: Attempt, at: int) returns (es: seq<Entry>)
    requires !held.inherits
    ensures |es| == 3 && es[2] == Answered(held.agent, held.id, attempt.attemptId, Answer(Failed, at))
    ensures var d := Updated(Updated(Begun(held), es[0]), es[1]);
      StateOf(d).IsDelivered? && StateOf(Updated(d, es[2])).IsHeld?
  {
    var answer := (status: Status) => Answered(held.agent, held.id, attempt.attemptId, Answer(status, at));
    es := [Attempted(held.agent, held.id, attempt), answer(Delivered), answer(Failed)];
    var d := Updated(Updated(Begun(held), es[0]), es[1]);
    assert d.attempts[0] in d.attempts;
    HeldOnlyIfAllFailed(Updated(d, es[2]));
  }

  /** Two entries no caller records: a second draft with a key, or a second answer to an attempt. */
  predicate Clash(a: Entry, b: Entry) {
    match (a, b)
    case (Held(x), Held(y)) => SameKey(x, y)
    case (Answered(agent, id, attemptId, _), Answered(agent2, id2, attemptId2, _)) =>
      agent == agent2 && id == id2 && attemptId == attemptId2
    case _ => false
  }

  ghost predicate OneOfEach(es: seq<Entry>) {
    forall i, j | 0 <= i < j < |es| :: !Clash(es[i], es[j])
  }

  /** Every entry of a list reduced. */
  function All(es: seq<Entry>): Drafts {
    Reduce(Step(), NO_DRAFTS, es)
  }

  /** An agent's latest bounce is the last draft held for it as bounced, whatever became of that draft. */
  lemma {:induction false} LatestBounceIs(es: seq<Entry>, agent: string)
    ensures agent in All(es).bounces <==> exists i :: 0 <= i < |es| && Bounces(es[i], agent)
    ensures forall i | 0 <= i < |es| && Bounces(es[i], agent) && (forall j | i < j < |es| :: !Bounces(es[j], agent)) ::
      agent in All(es).bounces && All(es).bounces[agent] == es[i].draft.id
  {
    if es != [] {
      var n := |es| - 1;
      LatestBounceIs(es[..n], agent);
      BouncesThen(es, agent);
      hide All, Bounces;
      forall i | 0 <= i < n ensures es[..n][i] == es[i] { }
      if i :| 0 <= i < n && Bounces(es[..n][i], agent) { assert Bounces(es[i], agent); }
      forall i | 0 <= i < n && Bounces(es[i], agent) && (forall j | i < j < |es| :: !Bounces(es[j], agent))
        ensures agent in All(es).bounces && All(es).bounces[agent] == es[i].draft.id
      {
        assert Bounces(es[..n][i], agent) && !Bounces(es[n], agent);
      }
    }
  }

  lemma BouncesThen(es: seq<Entry>, agent: string)
    requires es != []
    ensures var n := |es| - 1;
      if Bounces(es[n], agent) then agent in All(es).bounces && All(es).bounces[agent] == es[n].draft.id
      else
        && (agent in All(es).bounces <==> agent in All(es[..n]).bounces)
        && (agent in All(es).bounces ==> All(es).bounces[agent] == All(es[..n]).bounces[agent])
  {
    hide Updated;
    assert All(es) == Reduced(All(es[..|es| - 1]), es[|es| - 1]);
  }

  predicate Bounces(e: Entry, agent: string) {
    e.Held? && e.draft.agent == agent && e.draft.bounced
  }

  /** The draft was held, and each answer its attempts have was recorded, among `es`. */
  ghost predicate RecordedIn(d: Draft, es: seq<Entry>) {
    && (exists i :: 0 <= i < |es| && es[i].Held? && SameKey(es[i].draft, d))
    && forall a | a in d.attempts && a.outcome.Some? :: AnsweredIn(d, a.attemptId, es)
  }

  predicate AnsweredIn(d: Draft, attemptId: string, es: seq<Entry>) {
    exists i | 0 <= i < |es| :: es[i].Answered? && Names(es[i], d) && es[i].attemptId == attemptId
  }

  lemma RecordedInMore(d: Draft, es: seq<Entry>, e: Entry)
    requires RecordedIn(d, es)
    ensures RecordedIn(d, es + [e])
  {
    var i :| 0 <= i < |es| && es[i].Held? && SameKey(es[i].draft, d);
    assert (es + [e])[i] == es[i];
    forall a | a in d.attempts && a.outcome.Some? ensures AnsweredIn(d, a.attemptId, es + [e]) {
      AnsweredInMore(d, a.attemptId, es, e);
    }
  }

  lemma AnsweredInMore(d: Draft, attemptId: string, es: seq<Entry>, e: Entry)
    requires AnsweredIn(d, attemptId, es)
    ensures AnsweredIn(d, attemptId, es + [e])
  {
    var i :| 0 <= i < |es| && es[i].Answered? && Names(es[i], d) && es[i].attemptId == attemptId;
    assert (es + [e])[i] == es[i];
  }

  lemma UpdatedRecorded(d: Draft, es: seq<Entry>, e: Entry)
    requires RecordedIn(d, es)
    ensures RecordedIn(Updated(d, e), es + [e])
  {
    hide WithAnswer;
    RecordedInMore(d, es, e);
    var i :| 0 <= i < |es + [e]| && (es + [e])[i].Held? && SameKey((es + [e])[i].draft, d);
    assert SameKey((es + [e])[i].draft, Updated(d, e));
    forall a | a in Updated(d, e).attempts && a.outcome.Some? ensures AnsweredIn(Updated(d, e), a.attemptId, es + [e]) {
      if a in d.attempts {
        assert AnsweredIn(d, a.attemptId, es + [e]);
      } else if e.Answered? && Names(e, d) {
        WithAnswerAt(d.attempts, e.attemptId, e.answer);
        assert (es + [e])[|es|] == e;
      }
    }
  }

  lemma {:induction false} WithHas(drafts: seq<Draft>, x: Draft, d: Draft)
    ensures d in With(drafts, x) ==> d == x || d in drafts
    ensures d in drafts && !SameKey(d, x) ==> d in With(drafts, x)
  {
    if drafts != [] {
      WithHas(drafts[1..], x, d);
      if d in drafts && !SameKey(d, x) && d != drafts[0] { assert d in drafts[1..]; }
      if SameKey(drafts[0], x) && d in With(drafts, x) && d != x { assert d in drafts[1..]; }
    }
  }

  lemma {:induction false} AllRecorded(es: seq<Entry>, d: Draft)
    requires d in All(es).kept
    ensures RecordedIn(d, es)
  {
    hide RecordedIn;
    var n := |es| - 1;
    var e, before := es[n], All(es[..n]);
    assert es == es[..n] + [e];
    if e.Held? {
      WithHas(before.kept, Begun(e.draft), d);
      if d in before.kept {
        AllRecorded(es[..n], d);
        RecordedInMore(d, es[..n], e);
      } else {
        HeldRecorded(es, n);
      }
    } else {
      var i :| 0 <= i < |before.kept| && Updated(before.kept[i], e) == d;
      AllRecorded(es[..n], before.kept[i]);
      UpdatedRecorded(before.kept[i], es[..n], e);
    }
  }

  lemma HeldRecorded(es: seq<Entry>, n: nat)
    requires n < |es| && es[n].Held?
    ensures RecordedIn(Begun(es[n].draft), es)
  {
  }

  /**
   Recorded in order, no draft's key taken twice and no attempt answered twice: a delivered draft is delivered ever
   after.
   */
  lemma {:induction false} DeliveredEverAfter(es: seq<Entry>, k: nat, d: Draft) returns (later: Draft)
    requires OneOfEach(es) && k <= |es| && d in All(es[..k]).kept && StateOf(d).IsDelivered?
    ensures later in All(es).kept && SameKey(later, d) && StateOf(later).IsDelivered?
    decreases |es|
  {
    hide RecordedIn, OnlyDelivery, SomeDelivered;
    if k == |es| {
      assert es[..k] == es;
      return d;
    }
    var n := |es| - 1;
    var e, shorter := es[n], es[..n];
    assert shorter[..k] == es[..k] && es == shorter + [e];
    var before := DeliveredEverAfter(shorter, k, d);
    AllRecorded(shorter, before);
    if e.Held? {
      HeldOnce(es, before);
      WithHas(All(shorter).kept, Begun(e.draft), before);
      later := before;
    } else {
      later := Updated(before, e);
      var i :| 0 <= i < |All(shorter).kept| && All(shorter).kept[i] == before;
      assert UpdatedAll(All(shorter).kept, e)[i] == later;
      DeliveredStaysExactly(before, e);
      if e.Answered? && Names(e, before) { AnsweredOnce(es, before); }
    }
  }

  lemma HeldOnce(es: seq<Entry>, d: Draft)
    requires OneOfEach(es) && es != [] && es[|es| - 1].Held? && RecordedIn(d, es[..|es| - 1])
    ensures !SameKey(d, es[|es| - 1].draft)
  {
    var n := |es| - 1;
    var i :| 0 <= i < n && es[..n][i].Held? && SameKey(es[..n][i].draft, d);
    assert !Clash(es[i], es[n]);
  }

  lemma AnsweredOnce(es: seq<Entry>, d: Draft)
    requires OneOfEach(es) && es != [] && es[|es| - 1].Answered? && Names(es[|es| - 1], d)
      && RecordedIn(d, es[..|es| - 1])
    ensures !OnlyDelivery(d.attempts, es[|es| - 1].attemptId)
  {
    var n := |es| - 1;
    forall j | 0 <= j < n && es[j].Answered? && Names(es[j], d) ensures es[j].attemptId != es[n].attemptId {
      assert !Clash(es[j], es[n]);
    }
    assert !AnsweredIn(d, es[n].attemptId, es[..n]);
    forall i | 0 <= i < |d.attempts| && d.attempts[i].attemptId == es[n].attemptId ensures !IsDelivery(d.attempts[i]) {
      assert d.attempts[i] in d.attempts;
    }
  }

  // --------------------------------------------------------------------------
  // Retention
  // --------------------------------------------------------------------------

  datatype Retention = Retention(keepNewest: nat, keepIdleMs: int, checkpointEvery: nat)

  function LastOf(attempts: seq<Attempt>, last: int): int {
    if attempts == [] then last
    else
      var a := attempts[|attempts| - 1];
      Max(Max(LastOf(attempts[..|attempts| - 1], last), a.at), if a.outcome.Some? then a.outcome.value.at else 0)
  }

  /** The last time anything happened to a draft. */
  function LastActivity(d: Draft): int {
    LastOf(d.attempts, Max(Max(d.heldAt, d.noticedAt.Or(0)), d.dismissedAt.Or(0)))
  }

  predicate IsTimeOf(a: Attempt, at: int) {
    at == a.at || (a.outcome.Some? && at == a.outcome.value.at)
  }

  /** It is the latest of the times a draft holds. */
  lemma LastActivityIs(d: Draft)
    ensures LastActivity(d) >= d.heldAt && LastActivity(d) >= d.noticedAt.Or(0)
      && LastActivity(d) >= d.dismissedAt.Or(0)
    ensures forall a | a in d.attempts ::
      LastActivity(d) >= a.at && (a.outcome.Some? ==> LastActivity(d) >= a.outcome.value.at)
    ensures
      || LastActivity(d) in {0, d.heldAt, d.noticedAt.Or(0), d.dismissedAt.Or(0)}
      || (exists a :: a in d.attempts && IsTimeOf(a, LastActivity(d)))
  {
    LastOfIs(d.attempts, Max(Max(d.heldAt, d.noticedAt.Or(0)), d.dismissedAt.Or(0)));
  }

  lemma {:induction false} LastOfIs(attempts: seq<Attempt>, last: int)
    ensures LastOf(attempts, last) >= last
    ensures forall a | a in attempts ::
      LastOf(attempts, last) >= a.at && (a.outcome.Some? ==> LastOf(attempts, last) >= a.outcome.value.at)
    ensures LastOf(attempts, last) in {0, last}
      || (exists a :: a in attempts && IsTimeOf(a, LastOf(attempts, last)))
  {
    if attempts != [] {
      var n := |attempts| - 1;
      LastOfIs(attempts[..n], last);
      assert attempts == attempts[..n] + [attempts[n]];
      if LastOf(attempts[..n], last) !in {0, last} {
        var a :| a in attempts[..n] && IsTimeOf(a, LastOf(attempts[..n], last));
        assert a in attempts;
      }
      assert attempts[n] in attempts;
    }
  }

  function Of(drafts: seq<Draft>, agent: string): seq<Draft> {
    if drafts == [] then [] else (if drafts[0].agent == agent then [drafts[0]] else []) + Of(drafts[1..], agent)
  }

  /** What a checkpoint keeps: an agent's newest, and the older ones something happened to lately. */
  function Kept(drafts: seq<Draft>, now: int, r: Retention): seq<Draft> {
    if drafts == [] then []
    else
      var d := drafts[0];
      var newest := |Of(drafts[1..], d.agent)| < r.keepNewest;
      (if newest || now - LastActivity(d) < r.keepIdleMs then [d] else []) + Kept(drafts[1..], now, r)
  }

  /** Every draft of `p` is a draft of `full`, alike. */
  ghost predicate Among(p: seq<Draft>, full: seq<Draft>) {
    forall d | d in p :: d in full
  }

  function Newest(drafts: seq<Draft>, n: nat): seq<Draft> {
    if |drafts| <= n then drafts else drafts[|drafts| - n..]
  }

  ghost predicate KeysUnique(drafts: seq<Draft>) {
    drafts != [] ==> (forall d | d in drafts[1..] :: !SameKey(d, drafts[0])) && KeysUnique(drafts[1..])
  }

  /**
   A projection against every entry replayed: what it has is as replayed, each agent's newest are all there, and so is
   its latest bounce.
   */
  ghost predicate Faithful(p: Drafts, full: Drafts, keepNewest: nat) {
    && Among(p.kept, full.kept) && KeysUnique(p.kept) && KeysUnique(full.kept) && p.bounces == full.bounces
    && forall agent :: Newest(Of(p.kept, agent), keepNewest) == Newest(Of(full.kept, agent), keepNewest)
  }

  ghost predicate NewKey(drafts: seq<Draft>, x: Draft) {
    forall d | d in drafts :: !SameKey(d, x)
  }

  lemma {:induction false} WithIsLast(drafts: seq<Draft>, x: Draft)
    requires NewKey(drafts, x)
    ensures With(drafts, x) == drafts + [x]
  {
    if drafts != [] { WithIsLast(drafts[1..], x); }
  }

  lemma Associative(a: seq<Draft>, b: seq<Draft>, c: seq<Draft>)
    ensures a + (b + c) == a + b + c
  {
  }

  lemma {:induction false} OfThen(drafts: seq<Draft>, x: Draft, agent: string)
    ensures Of(drafts + [x], agent) == Of(drafts, agent) + if x.agent == agent then [x] else []
  {
    if drafts == [] {
      assert drafts + [x] == [x] && [x][1..] == [];
    } else {
      assert (drafts + [x])[1..] == drafts[1..] + [x] && (drafts + [x])[0] == drafts[0];
      OfThen(drafts[1..], x, agent);
      Associative(if drafts[0].agent == agent then [drafts[0]] else [], Of(drafts[1..], agent),
        if x.agent == agent then [x] else []);
    }
  }

  lemma {:induction false} UniqueThen(drafts: seq<Draft>, x: Draft)
    requires KeysUnique(drafts) && NewKey(drafts, x)
    ensures KeysUnique(drafts + [x])
  {
    if drafts != [] {
      var longer := drafts + [x];
      assert longer[1..] == drafts[1..] + [x];
      UniqueThen(drafts[1..], x);
      assert drafts[0] in drafts;
      forall d | d in longer[1..] ensures !SameKey(d, longer[0]) { assert d in drafts[1..] || d == x; }
    }
  }

  lemma KeepsItsAgent(d: Draft, e: Entry)
    ensures SameKey(Updated(d, e), d)
  {
  }

  lemma {:induction false} UpdatedAre(drafts: seq<Draft>, e: Entry, agent: string)
    ensures Of(UpdatedAll(drafts, e), agent) == UpdatedAll(Of(drafts, agent), e)
  {
    hide Names;
    if drafts != [] {
      var d, rest := drafts[0], drafts[1..];
      assert UpdatedAll(drafts, e) == [Updated(d, e)] + UpdatedAll(rest, e);
      UpdatedAre(rest, e, agent);
      KeepsItsAgent(d, e);
      hide Updated;
      var same := Of(rest, agent);
      assert UpdatedAll([d] + same, e) == [Updated(d, e)] + UpdatedAll(same, e);
    }
  }

  lemma {:induction false} UpdatedUnique(drafts: seq<Draft>, e: Entry)
    requires KeysUnique(drafts)
    ensures KeysUnique(UpdatedAll(drafts, e))
  {
    if drafts != [] {
      var after := UpdatedAll(drafts, e);
      assert after[1..] == UpdatedAll(drafts[1..], e);
      UpdatedUnique(drafts[1..], e);
      forall d | d in after[1..] ensures !SameKey(d, after[0]) {
        var i :| 0 <= i < |drafts[1..]| && after[1..][i] == d;
        assert drafts[1..][i] in drafts[1..];
      }
    }
  }

  lemma HeldFaithful(p: Drafts, full: Drafts, draft: Draft, n: nat)
    requires Faithful(p, full, n) && NewKey(full.kept, draft)
    ensures Faithful(Reduced(p, Held(draft)), Reduced(full, Held(draft)), n)
  {
    hide Newest, Of, With;
    var x := Begun(draft);
    WithIsLast(p.kept, x);
    WithIsLast(full.kept, x);
    UniqueThen(p.kept, x);
    UniqueThen(full.kept, x);
    forall agent ensures Newest(Of(p.kept + [x], agent), n) == Newest(Of(full.kept + [x], agent), n) {
      OfThen(p.kept, x, agent);
      OfThen(full.kept, x, agent);
      if x.agent == agent {
        NewestThen(Of(p.kept, agent), x, n);
        NewestThen(Of(full.kept, agent), x, n);
      } else {
        assert Of(p.kept, agent) + [] == Of(p.kept, agent) && Of(full.kept, agent) + [] == Of(full.kept, agent);
      }
    }
  }

  lemma NewestThen(drafts: seq<Draft>, x: Draft, n: nat)
    ensures Newest(drafts + [x], n) == Newest(Newest(drafts, n) + [x], n)
  {
  }

  lemma UpdateFaithful(p: Drafts, full: Drafts, e: Entry, n: nat)
    requires Faithful(p, full, n) && !e.Held?
    ensures Faithful(Reduced(p, e), Reduced(full, e), n)
  {
    UpdatedUnique(p.kept, e);
    UpdatedUnique(full.kept, e);
    var a, b := UpdatedAll(p.kept, e), UpdatedAll(full.kept, e);
    forall d | d in a ensures d in b {
      var i :| 0 <= i < |p.kept| && a[i] == d;
      assert p.kept[i] in full.kept;
      var j :| 0 <= j < |full.kept| && full.kept[j] == p.kept[i];
      assert b[j] == d;
    }
    forall agent ensures Newest(Of(a, agent), n) == Newest(Of(b, agent), n) {
      UpdatedAre(p.kept, e, agent);
      UpdatedAre(full.kept, e, agent);
      NewestUpdated(Of(p.kept, agent), e, n);
      NewestUpdated(Of(full.kept, agent), e, n);
    }
  }

  lemma NewestUpdated(drafts: seq<Draft>, e: Entry, n: nat)
    ensures Newest(UpdatedAll(drafts, e), n) == UpdatedAll(Newest(drafts, n), e)
  {
  }

  /** A checkpoint keeps each agent's newest, and what something happened to lately; and it makes up none. */
  lemma {:induction false} KeptAre(drafts: seq<Draft>, now: int, r: Retention, agent: string)
    ensures Newest(Of(Kept(drafts, now, r), agent), r.keepNewest) == Newest(Of(drafts, agent), r.keepNewest)
  {
    hide LastActivity, Newest;
    if drafts != [] {
      var d, rest := drafts[0], drafts[1..];
      var kept := Kept(rest, now, r);
      KeptAre(rest, now, r, agent);
      if |Of(rest, d.agent)| < r.keepNewest || now - LastActivity(d) < r.keepIdleMs {
        assert Kept(drafts, now, r) == [d] + kept && ([d] + kept)[1..] == kept;
        if d.agent == agent {
          NewestOneMore(d, Of(kept, agent), Of(rest, agent), r.keepNewest);
        } else {
          assert Of([d] + kept, agent) == Of(kept, agent) && Of(drafts, agent) == Of(rest, agent);
        }
      } else {
        assert Kept(drafts, now, r) == kept;
        if d.agent == agent { NewestWithout(d, Of(rest, agent), r.keepNewest); }
        else { assert Of(drafts, agent) == Of(rest, agent); }
      }
    }
  }

  lemma {:induction false} KeptAmong(drafts: seq<Draft>, now: int, r: Retention)
    ensures Among(Kept(drafts, now, r), drafts)
    ensures forall d | d in drafts && now - LastActivity(d) < r.keepIdleMs :: d in Kept(drafts, now, r)
  {
    hide LastActivity;
    if drafts != [] { KeptAmong(drafts[1..], now, r); }
  }

  /** And it lets go of every other. */
  lemma {:induction false} KeptOnly(drafts: seq<Draft>, now: int, r: Retention, d: Draft)
    requires KeysUnique(drafts)
    ensures d in Kept(drafts, now, r) <==>
      d in drafts && (d in Newest(Of(drafts, d.agent), r.keepNewest) || now - LastActivity(d) < r.keepIdleMs)
  {
    hide LastActivity;
    if drafts != [] {
      var first, rest := drafts[0], drafts[1..];
      KeptOnly(rest, now, r, d);
      KeptAmong(rest, now, r);
      assert drafts == [first] + rest;
      OfAre(rest, d.agent, d);
      OfAre(rest, d.agent, first);
      if first.agent == d.agent {
        NewestOfMore(first, Of(rest, d.agent), r.keepNewest, d);
        assert Of(drafts, d.agent) == [first] + Of(rest, d.agent);
      } else {
        assert Of(drafts, d.agent) == Of(rest, d.agent);
      }
    }
  }

  lemma {:induction false} OfAre(drafts: seq<Draft>, agent: string, d: Draft)
    ensures d in Of(drafts, agent) <==> d in drafts && d.agent == agent
  {
    if drafts != [] {
      OfAre(drafts[1..], agent, d);
      assert drafts == [drafts[0]] + drafts[1..];
    }
  }

  lemma NewestOfMore(first: Draft, rest: seq<Draft>, n: nat, d: Draft)
    requires first !in rest
    ensures d != first ==> (d in Newest([first] + rest, n) <==> d in Newest(rest, n))
    ensures first in Newest([first] + rest, n) <==> |rest| < n
  {
    if |rest| < n {
      assert Newest([first] + rest, n) == [first] + rest && Newest(rest, n) == rest;
    } else {
      assert Newest([first] + rest, n) == Newest(rest, n);
      assert forall x | x in Newest(rest, n) :: x in rest;
    }
  }

  lemma NewestOneMore(d: Draft, a: seq<Draft>, b: seq<Draft>, n: nat)
    requires Newest(a, n) == Newest(b, n)
    ensures Newest([d] + a, n) == Newest([d] + b, n)
  {
    assert |b| < n ==> a == b;
    assert |b| >= n ==> |a| >= n && Newest([d] + a, n) == Newest(a, n) && Newest([d] + b, n) == Newest(b, n);
  }

  lemma NewestWithout(d: Draft, b: seq<Draft>, n: nat)
    requires |b| >= n
    ensures Newest([d] + b, n) == Newest(b, n)
  {
  }

  lemma {:induction false} KeptUnique(drafts: seq<Draft>, now: int, r: Retention)
    requires KeysUnique(drafts)
    ensures KeysUnique(Kept(drafts, now, r))
  {
    if drafts != [] {
      var kept := Kept(drafts[1..], now, r);
      KeptUnique(drafts[1..], now, r);
      KeptAmong(drafts[1..], now, r);
      assert ([drafts[0]] + kept)[1..] == kept;
      assert Kept(drafts, now, r) == kept || Kept(drafts, now, r) == [drafts[0]] + kept;
    }
  }

  lemma CheckpointFaithful(p: Drafts, full: Drafts, now: int, r: Retention)
    requires Faithful(p, full, r.keepNewest)
    ensures Faithful(Drafts(Kept(p.kept, now, r), p.bounces), full, r.keepNewest)
  {
    KeptUnique(p.kept, now, r);
    forall agent
      ensures Newest(Of(Kept(p.kept, now, r), agent), r.keepNewest) == Newest(Of(full.kept, agent), r.keepNewest)
    {
      KeptAre(p.kept, now, r, agent);
    }
    KeptAmong(p.kept, now, r);
  }

  // --------------------------------------------------------------------------
  // The store
  // --------------------------------------------------------------------------

  /** What the journal's records reduce to. */
  function Projected(rs: seq<Record<Entry, Drafts>>): Drafts {
    Replay(Step(), NO_DRAFTS, rs)
  }

  /** Every entry ever journaled, reduced: as if nothing were ever let go. */
  function Everything(rs: seq<Record<Entry, Drafts>>): Drafts {
    All(EntriesAfter(rs, 0))
  }

  ghost predicate LogOk(rs: seq<Record<Entry, Drafts>>, keepNewest: nat) {
    Faithful(Projected(rs), Everything(rs), keepNewest)
  }

  lemma EntryLogged(rs: seq<Record<Entry, Drafts>>, r: Record<Entry, Drafts>, n: nat)
    requires LogOk(rs, n) && r.Entry? && r.id > 0 && (r.entry.Held? ==> NewKey(Everything(rs).kept, r.entry.draft))
    ensures LogOk(rs + [r], n) && Projected(rs + [r]) == Reduced(Projected(rs), r.entry)
    ensures EntriesAfter(rs + [r], 0) == EntriesAfter(rs, 0) + [r.entry]
  {
    assert (rs + [r])[..|rs|] == rs;
    var entries := EntriesAfter(rs, 0);
    assert (entries + [r.entry])[..|entries|] == entries;
    if r.entry.Held? { HeldFaithful(Projected(rs), Everything(rs), r.entry.draft, n); }
    else { UpdateFaithful(Projected(rs), Everything(rs), r.entry, n); }
  }

  lemma CheckpointLogged(rs: seq<Record<Entry, Drafts>>, r: Record<Entry, Drafts>, now: int, retention: Retention)
    requires LogOk(rs, retention.keepNewest) && r.Checkpoint?
    requires r.snapshot == Drafts(Kept(Projected(rs).kept, now, retention), Projected(rs).bounces)
    ensures LogOk(rs + [r], retention.keepNewest) && Projected(rs + [r]) == r.snapshot
    ensures EntriesAfter(rs + [r], 0) == EntriesAfter(rs, 0)
  {
    assert (rs + [r])[..|rs|] == rs;
    assert EntriesAfter(rs, 0) + [] == EntriesAfter(rs, 0);
    CheckpointFaithful(Projected(rs), Everything(rs), now, retention);
  }

  lemma {:induction false} EntriesOfPrefix(rs: seq<Record<Entry, Drafts>>, k: nat) returns (m: nat)
    requires k <= |rs|
    ensures m <= |EntriesAfter(rs, 0)| && EntriesAfter(rs[..k], 0) == EntriesAfter(rs, 0)[..m]
    decreases |rs|
  {
    if k == |rs| {
      assert rs[..k] == rs;
      m := |EntriesAfter(rs, 0)|;
    } else {
      assert rs[..|rs| - 1][..k] == rs[..k];
      m := EntriesOfPrefix(rs[..|rs| - 1], k);
    }
  }

  lemma {:induction false} OneOfAKey(drafts: seq<Draft>, a: Draft, b: Draft)
    requires KeysUnique(drafts) && a in drafts && b in drafts && SameKey(a, b)
    ensures a == b
  {
    assert drafts == [drafts[0]] + drafts[1..];
    if a != drafts[0] && b != drafts[0] { OneOfAKey(drafts[1..], a, b); }
  }

  /**
   A draft the store has as delivered it has as delivered ever after, for as long as its checkpoints keep it, where no
   key was taken twice and no attempt answered twice.
   */
  lemma DeliveredWhileKept(rs: seq<Record<Entry, Drafts>>, k: nat, keepNewest: nat, d: Draft, later: Draft)
    requires k <= |rs| && LogOk(rs[..k], keepNewest) && LogOk(rs, keepNewest) && OneOfEach(EntriesAfter(rs, 0))
    requires d in Projected(rs[..k]).kept && StateOf(d).IsDelivered?
    requires later in Projected(rs).kept && SameKey(later, d)
    ensures StateOf(later).IsDelivered?
  {
    hide OneOfEach, Projected, EntriesAfter, StateOf;
    var m := EntriesOfPrefix(rs, k);
    var full := DeliveredEverAfter(EntriesAfter(rs, 0), m, d);
    OneOfAKey(Everything(rs).kept, full, later);
  }

  class ProseDraftStore {
    const journal: RecordJournal<Entry, Drafts>
    const retention: Retention
    var drafts: seq<Draft>
    var latestBounces: map<string, string>

    function Now(): Drafts
      reads this
    {
      Drafts(drafts, latestBounces)
    }

    /**
     The projection is the journal's reduction, unless a write is yet to be reconciled; and that is faithful to every
     entry journaled.
     */
    ghost predicate Valid()
      reads this, journal, journal.store
    {
      && journal.Sys().Valid() && journal.Sys().Positioned()
      && LogOk(journal.store.view, retention.keepNewest) && LogOk(journal.Sys().Log(), retention.keepNewest)
      && (!journal.unreconciled ==> Now() == Projected(journal.store.view))
    }

    /** Opening over a journal as a run left it. */
    constructor (journal: RecordJournal<Entry, Drafts>, retention: Retention, now: int, due: Outcome, readable: bool)
      requires journal.Sys().Valid() && journal.Sys().unindexed.None? && LogOk(journal.store.view, retention.keepNewest)
      requires !journal.unreadable
      modifies journal, journal.store
      ensures Valid() && this.journal == journal && this.retention == retention
      ensures EntriesAfter(journal.store.view, 0) == old(EntriesAfter(journal.store.view, 0))
      ensures due.Lands? ==> !journal.unreconciled
    {
      this.journal, this.retention := journal, retention;
      drafts, latestBounces := [], map[];
      new;
      hide LogOk, Placed, Projected;
      assert journal.Sys().Log() == journal.store.view;
      var _ := Load();
      CheckpointIfDue(now, due, readable);
    }

    method Load() returns (loaded: Loaded<Entry, Drafts>)
      requires journal.Sys().Valid()
      modifies this`drafts, this`latestBounces, journal
      ensures journal.Sys() == old(journal.Sys()).Load() && journal.Sys().Valid() && journal.Sys().Positioned()
      ensures Now() == Projected(journal.store.view) && !journal.unreconciled
    {
      hide Placed;
      loaded := journal.Load();
      LoadIsReplay(Step(), NO_DRAFTS, journal.store.view) by { ViewPlaced(journal.Sys()); }
      var p := Reduce(Step(), loaded.snapshot.Or(NO_DRAFTS), loaded.entries);
      drafts, latestBounces := p.kept, p.bounces;
    }

    /** Rebuilds the projection from the journal, unless reading it throws. */
    method Reload(readable: bool)
      requires Valid()
      modifies this`drafts, this`latestBounces, journal
      ensures Valid() && (readable ==> !journal.unreconciled)
      ensures journal.store.view == old(journal.store.view)
      ensures Now() == if readable then Projected(journal.store.view) else old(Now())
    {
      hide LogOk, Placed, Projected;
      if readable {
        LoadPositions(journal.Sys());
        var _ := Load();
      }
    }

    /** Writes a checkpoint once enough entries have been appended; drafts are let go only once it is written. */
    method CheckpointIfDue(now: int, outcome: Outcome, readable: bool)
      requires Valid() && !journal.Sys().Blocked()
      modifies this`drafts, this`latestBounces, journal, journal.store
      ensures Valid() && EntriesAfter(journal.store.view, 0) == old(EntriesAfter(journal.store.view, 0))
      // A checkpoint that is due is what a reopened store loads, once written; drafts go exactly where it was, and was
      // read
      // back if its write didn't say so.
      ensures
        var kept := old(Drafts(Kept(drafts, now, retention), latestBounces));
        var written := old(journal.sinceCheckpoint) >= retention.checkpointEvery && !outcome.ThrowsInside?;
        && Now() == (if written && (outcome.FailsAfter? ==> readable) then kept else old(Now()))
        && (written ==> LoadOf(journal.store.view) == Loaded(Some(kept), []))
        && (outcome.Lands? ==> !journal.unreconciled)
    {
      hide LogOk, Placed, Projected, EntriesAfter, Kept;
      CheckpointIsLoaded(journal.Sys(), Drafts(Kept(drafts, now, retention), latestBounces), outcome);
      if journal.sinceCheckpoint < retention.checkpointEvery { return; }
      var snapshot := Drafts(Kept(drafts, now, retention), latestBounces);
      CheckpointWritten(journal.Sys(), snapshot, now, retention, outcome);
      var written := journal.WriteCheckpoint(snapshot, outcome);
      if !written.Recorded? {
        if journal.unreconciled { Reload(readable); }
        return;
      }
      drafts := snapshot.kept;
    }

    /**
     Journals one entry and applies it; a write whose append returned before it failed is read back before it is thrown
     on.
     */
    method Write(entry: Entry, synced: bool, outcome: Outcome, now: int, due: Outcome, readable: bool)
      returns (threw: bool)
      requires Valid() && (entry.Held? ==> NewKey(Everything(journal.Sys().Log()).kept, entry.draft))
      modifies this`drafts, this`latestBounces, journal, journal.store
      ensures Valid()
      ensures !threw <==> !old(journal.Sys().Blocked()) && synced && outcome.Lands?
      ensures EntriesAfter(journal.store.view, 0) == old(EntriesAfter(journal.store.view, 0))
        + (if !old(journal.Sys().Blocked()) && synced && !outcome.ThrowsInside? then [entry] else [])
      ensures !threw ==> Faithful(Now(), Everything(journal.store.view), retention.keepNewest)
      ensures !threw && entry.Held? && retention.keepNewest > 0 ==> Begun(entry.draft) in drafts
      ensures old(!journal.unreconciled) && journal.unreconciled && threw ==> !readable
    {
      hide LogOk, Placed, Projected, EntriesAfter, Everything, NewKey, Reduced, Kept, Faithful;
      ghost var was := Now();
      if entry.Held? && !journal.Sys().Blocked() {
        NewToProjection(journal.Sys(), entry.draft, retention.keepNewest);
      }
      EntryWritten(journal.Sys(), entry, synced, outcome, retention.keepNewest);
      AppendIsListed(journal.Sys(), entry, synced, outcome);
      var written := journal.Append(entry, synced, outcome);
      if !written.Recorded? {
        if journal.unreconciled { Reload(readable); }
        return true;
      }
      var p := Reduced(Now(), entry);
      drafts, latestBounces := p.kept, p.bounces;
      FaithfulNow(journal.store.view, Now(), retention.keepNewest);
      if entry.Held? && retention.keepNewest > 0 { HeldIsKept(was, entry.draft, now, retention); }
      CheckpointFaithful(Now(), Everything(journal.store.view), now, retention);
      ghost var rs := journal.store.view;
      CheckpointIfDue(now, due, readable);
      SameEverything(rs, journal.store.view);
      return false;
    }

    /**
     What the projection has is exactly what replaying every entry ever journaled gives, and of each agent's newest it
     lacks none.
     */
    lemma ProjectionIsFaithful(agent: string)
      requires Valid() && !journal.unreconciled
      ensures var all := Everything(journal.store.view);
        && (forall d | d in drafts :: d in all.kept) && latestBounces == all.bounces
        && Newest(Of(drafts, agent), retention.keepNewest) == Newest(Of(all.kept, agent), retention.keepNewest)
    {
    }
  }

  lemma CheckpointWritten(j: State<Entry, Drafts>, snapshot: Drafts, now: int, r: Retention, outcome: Outcome)
    requires j.Valid() && LogOk(j.view, r.keepNewest) && LogOk(j.Log(), r.keepNewest)
    requires snapshot == Drafts(Kept(Projected(j.view).kept, now, r), Projected(j.view).bounces)
    ensures var after := j.WriteCheckpoint(snapshot, outcome);
      && LogOk(after.view, r.keepNewest) && LogOk(after.Log(), r.keepNewest)
      && EntriesAfter(after.view, 0) == EntriesAfter(j.view, 0)
      && (!j.Blocked() && !outcome.ThrowsInside? ==> Projected(after.view) == snapshot)
      && (j.Blocked() || outcome.ThrowsInside? ==> after.view == j.view)
  {
    var record: Record<Entry, Drafts> := Checkpoint(j.nextId, j.lastEntryId, snapshot);
    CheckpointLogged(j.view, record, now, r);
    hide LogOk, Placed, Projected, EntriesAfter;
    var after := j.WriteCheckpoint(snapshot, outcome);
    if !j.Blocked() {
      assert j.Log() == j.view;
      assert after.Log() == j.view || after.Log() == j.view + [record];
    }
  }

  /** What an append leaves listed, and in the log. */
  lemma AppendShapes(j: State<Entry, Drafts>, entry: Entry, synced: bool, outcome: Outcome)
    requires j.Valid()
    ensures j.Blocked() || !synced ==> j.Append(entry, synced, outcome) == j
    ensures !j.Blocked() && synced ==>
      var after, longer := j.Append(entry, synced, outcome), j.view + [Record.Entry(j.nextId, entry)];
      && j.Log() == j.view && after.view == (if outcome.ThrowsInside? then j.view else longer)
      && (after.Log() == j.view || after.Log() == longer)
  {
    hide Placed;
    if !j.Blocked() {
      assert j.Log() == j.view;
      assert j.view + [Record.Entry(j.nextId, entry)] + [] == j.view + [Record.Entry(j.nextId, entry)];
    }
  }

  lemma FaithfulNow(rs: seq<Record<Entry, Drafts>>, p: Drafts, n: nat)
    requires LogOk(rs, n) && p == Projected(rs)
    ensures Faithful(p, Everything(rs), n)
  {
  }

  lemma SameEverything(a: seq<Record<Entry, Drafts>>, b: seq<Record<Entry, Drafts>>)
    requires EntriesAfter(a, 0) == EntriesAfter(b, 0)
    ensures Everything(a) == Everything(b)
  {
  }

  /** A draft just held is among its agent's newest, so a checkpoint keeps it. */
  lemma HeldIsKept(p: Drafts, draft: Draft, now: int, r: Retention)
    requires r.keepNewest > 0 && NewKey(p.kept, draft)
    ensures var after := Reduced(p, Held(draft)).kept; Begun(draft) in after && Begun(draft) in Kept(after, now, r)
  {
    WithIsLast(p.kept, Begun(draft));
    LastIsKept(p.kept, Begun(draft), now, r);
  }

  lemma {:induction false} LastIsKept(drafts: seq<Draft>, x: Draft, now: int, r: Retention)
    requires r.keepNewest > 0
    ensures x in Kept(drafts + [x], now, r)
  {
    hide LastActivity;
    if drafts == [] {
      assert (drafts + [x])[1..] == [];
    } else {
      assert (drafts + [x])[1..] == drafts[1..] + [x];
      LastIsKept(drafts[1..], x, now, r);
    }
  }

  lemma NewToProjection(j: State<Entry, Drafts>, draft: Draft, n: nat)
    requires j.Valid() && !j.Blocked() && LogOk(j.view, n) && NewKey(Everything(j.Log()).kept, draft)
    ensures NewKey(Projected(j.view).kept, draft)
  {
    hide Projected, EntriesAfter;
    assert j.Log() == j.view;
  }

  lemma EntryWritten(j: State<Entry, Drafts>, entry: Entry, synced: bool, outcome: Outcome, n: nat)
    requires j.Valid() && LogOk(j.view, n) && LogOk(j.Log(), n)
    requires entry.Held? ==> NewKey(Everything(j.Log()).kept, entry.draft)
    ensures var after := j.Append(entry, synced, outcome);
      && LogOk(after.view, n) && LogOk(after.Log(), n)
      && (if j.Blocked() || !synced || outcome.ThrowsInside? then after.view == j.view
          else Projected(after.view) == Reduced(Projected(j.view), entry) && entry in EntriesAfter(after.view, 0))
  {
    AppendShapes(j, entry, synced, outcome);
    hide LogOk, Placed, Projected, EntriesAfter, Everything, NewKey, Reduced;
    if !j.Blocked() && synced {
      EntryLogged(j.view, Record.Entry(j.nextId, entry), n);
      assert entry == (EntriesAfter(j.view, 0) + [entry])[|EntriesAfter(j.view, 0)|];
    }
  }
}
