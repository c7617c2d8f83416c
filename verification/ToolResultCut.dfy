/**
 Where a stored tool result is cut, src/tool-image-ledger.ts, and which image
 slots past the cut it keeps. A text is its length and where its placeholders,
 its stub-shaped lines and its slots stand.
 */
module ToolResultCut {
  import opened Options

  /** The characters [start, end) of a text. */
  datatype Span = Span(start: nat, end: nat)
  {
    function Length(): nat
      requires start <= end
    {
      end - start
    }
  }

  /**
   `placeholders` and `stubs` (lines shaped like a reference stub, of any length) are each in text order, `slots` are
   those that parse as image slots, by where they start; `pairs` are the places a cut would split a surrogate pair.
   */
  datatype Text = Text(length: nat, placeholders: seq<Span>, stubs: seq<Span>, slots: seq<Span>, pairs: set<nat>)

  const REFERENCE_STUB_MAX_CHARS := 677
  const MAX_KEPT_IMAGE_SLOTS := 64
  const TOOL_RESULT_NOTICE_ROOM := 640

  predicate Within(s: Span, length: nat) {
    s.start < s.end <= length
  }

  predicate Precedes(a: Span, b: Span) {
    a.end <= b.start
  }

  ghost predicate Apart(spans: seq<Span>) {
    forall i, j {:trigger Precedes(spans[i], spans[j])} | 0 <= i < j < |spans| :: Precedes(spans[i], spans[j])
  }

  predicate StartsBy(a: Span, b: Span) {
    a.start <= b.start
  }

  ghost predicate Sorted(spans: seq<Span>) {
    forall i, j {:trigger StartsBy(spans[i], spans[j])} | 0 <= i < j < |spans| :: StartsBy(spans[i], spans[j])
  }

  /**
   What the two grammars ensure: neither crosses a newline, a stub is a whole line, both start at a bracket, and a slot
   is a placeholder or a stub no longer than one is written. And what the encoding does: no character is a half of two
   pairs.
   */
  ghost predicate Valid(t: Text) {
    && (forall s | s in t.placeholders || s in t.stubs :: Within(s, t.length))
    && Apart(t.placeholders) && Apart(t.stubs) && Sorted(t.slots)
    && (forall p, s | p in t.placeholders && s in t.stubs ::
      p.end <= s.start || s.end <= p.start || (s.start <= p.start && p.end <= s.end))
    && (forall s | s in t.slots :: s in t.placeholders || (s in t.stubs && s.end - s.start <= REFERENCE_STUB_MAX_CHARS))
    && 0 !in t.pairs && (forall i | i in t.pairs :: i + 1 !in t.pairs)
    && (forall s | s in t.placeholders || s in t.stubs :: s.start !in t.pairs)
  }

  predicate Straddles(s: Span, cut: nat) {
    s.start < cut < s.end
  }

  // --------------------------------------------------------------------------
  // Where the cut falls
  // --------------------------------------------------------------------------

  /**
   A cut moved back to the start of the first of `spans` it would split with at most `most` characters of it before the
   cut.
   */
  function MovedBack(spans: seq<Span>, cut: nat, most: nat): (moved: nat)
    ensures moved <= cut
  {
    if spans == [] then cut
    else if Straddles(spans[0], cut) && cut - spans[0].start <= most then MovedBack(spans[1..], spans[0].start, most)
    else MovedBack(spans[1..], cut, most)
  }

  function SafeCut(t: Text, cap: nat): nat {
    if cap in t.pairs && cap > 0 then cap - 1 else cap
  }

  function CutAt(t: Text, cap: nat): (cut: nat)
    ensures if t.length <= cap then cut == t.length else cut <= cap
  {
    if t.length <= cap then t.length
    else MovedBack(t.stubs, MovedBack(t.placeholders, SafeCut(t, cap), t.length), REFERENCE_STUB_MAX_CHARS)
  }

  method MoveBack(spans: seq<Span>, cut: nat, most: nat) returns (moved: nat)
    ensures moved == MovedBack(spans, cut, most)
  {
    moved := cut;
    for i := 0 to |spans|
      invariant MovedBack(spans[i..], moved, most) == MovedBack(spans, cut, most)
    {
      assert spans[i..][1..] == spans[i + 1..];
      if spans[i].start < moved && spans[i].end > moved && moved - spans[i].start <= most { moved := spans[i].start; }
    }
  }

  method ToolResultCutAt(t: Text, cap: nat) returns (cut: nat)
    ensures cut == CutAt(t, cap)
  {
    if t.length <= cap { return t.length; }
    cut := SafeCut(t, cap);
    cut := MoveBack(t.placeholders, cut, t.length);
    cut := MoveBack(t.stubs, cut, REFERENCE_STUB_MAX_CHARS);
  }

  /**
   Of spans that are apart, at most one is split; once moved back to its start, the cut splits none it could still read
   as whole.
   */
  lemma {:induction false} MovedBackSplitsNone(spans: seq<Span>, cut: nat, most: nat)
    requires Apart(spans) && forall s | s in spans :: s.start < s.end
    ensures var moved := MovedBack(spans, cut, most);
      && (moved == cut || exists s :: s in spans && Straddles(s, cut) && s.start == moved && cut - moved <= most)
      && forall s | s in spans && Straddles(s, moved) :: moved == cut && moved - s.start > most
    decreases |spans|
  {
    if spans != [] {
      var rest := spans[1..];
      forall i, j | 0 <= i < j < |rest| ensures Precedes(rest[i], rest[j]) {
        assert Precedes(spans[i + 1], spans[j + 1]);
      }
      forall s | s in rest ensures spans[0].end <= s.start {
        var k :| 0 <= k < |rest| && rest[k] == s;
        assert Precedes(spans[0], spans[k + 1]);
      }
      if Straddles(spans[0], cut) && cut - spans[0].start <= most {
        MovedBackSplitsNone(rest, spans[0].start, most);
      } else {
        MovedBackSplitsNone(rest, cut, most);
      }
    }
  }

  /** The cut comes at the cap or before it, or at the end of a text within it; no slot straddles it, and no pair. */
  lemma NoSlotStraddles(t: Text, cap: nat)
    requires Valid(t)
    ensures CutAt(t, cap) <= t.length && (t.length > cap ==> CutAt(t, cap) <= cap && CutAt(t, cap) !in t.pairs)
    ensures forall s | s in t.slots :: !Straddles(s, CutAt(t, cap))
  {
    CutIsClear(t, cap);
  }

  /** A cut of a longer text splits no pair, no placeholder, and no stub-shaped line with so little before it. */
  ghost predicate Clear(t: Text, cut: nat) {
    && cut !in t.pairs && (forall p | p in t.placeholders :: !Straddles(p, cut))
    && (forall s | s in t.stubs && Straddles(s, cut) :: cut - s.start > REFERENCE_STUB_MAX_CHARS)
  }

  lemma CutIsClear(t: Text, cap: nat)
    requires Valid(t)
    ensures t.length > cap ==> Clear(t, CutAt(t, cap))
  {
    if t.length > cap {
      var safe := SafeCut(t, cap);
      var first := MovedBack(t.placeholders, safe, t.length);
      MovedBackSplitsNone(t.placeholders, safe, t.length);
      MovedBackSplitsNone(t.stubs, first, REFERENCE_STUB_MAX_CHARS);
    }
  }

  /** And it is the last such place by the cap: the move back passes over none. */
  lemma CutIsLatest(t: Text, cap: nat, clear: nat)
    requires Valid(t) && clear <= cap < t.length && Clear(t, clear)
    ensures clear <= CutAt(t, cap)
  {
    var safe := SafeCut(t, cap);
    var first := MovedBack(t.placeholders, safe, t.length);
    MovedBackSplitsNone(t.placeholders, safe, t.length);
    MovedBackSplitsNone(t.stubs, first, REFERENCE_STUB_MAX_CHARS);
  }

  // --------------------------------------------------------------------------
  // The slots kept past it
  // --------------------------------------------------------------------------

  predicate ShownWhole(s: Span, shown: seq<Span>) {
    exists r :: r in shown && r.start <= s.start && s.end <= r.end
  }

  /** The slots past a cut that the live copy showed whole, in text order. */
  function PastShown(slots: seq<Span>, cut: nat, shown: seq<Span>): seq<Span> {
    if slots == [] then []
    else
      var n := |slots| - 1;
      PastShown(slots[..n], cut, shown)
        + if slots[n].start >= cut && ShownWhole(slots[n], shown) then [slots[n]] else []
  }

  function Newest<T>(s: seq<T>, most: nat): seq<T> {
    if |s| <= most then s else s[|s| - most..]
  }

  /** The head's length, the slots kept after its notice, and how many slots past the cut were shown. */
  datatype Cut = Cut(head: nat, kept: seq<Span>, fell: nat)

  function StoredCut(t: Text, cap: nat, shown: Option<seq<Span>>): Cut {
    var cut := CutAt(t, cap);
    if shown.None? then Cut(cut, [], 0)
    else
      var past := PastShown(t.slots, cut, shown.value);
      Cut(cut, Newest(past, MAX_KEPT_IMAGE_SLOTS), |past|)
  }

  /** A range that ends where a slot starts, or before, holds no slot from there on; only the first that doesn't can. */
  lemma OnlyThisRange(s: Span, shown: seq<Span>, r: nat)
    requires Apart(shown) && r <= |shown| && s.start < s.end
    requires forall k | 0 <= k < r :: shown[k].end <= s.start
    requires r < |shown| ==> shown[r].end > s.start
    ensures ShownWhole(s, shown) <==> r < |shown| && shown[r].start <= s.start && s.end <= shown[r].end
  {
    if ShownWhole(s, shown) {
      var k :| 0 <= k < |shown| && shown[k].start <= s.start && s.end <= shown[k].end;
      assert r < k ==> Precedes(shown[r], shown[k]);
    }
  }

  /** The first range from `r` on that doesn't end where a slot starts, or before. */
  method NextRange(ranges: seq<Span>, from: nat, start: nat) returns (r: nat)
    requires from <= |ranges| && forall k | 0 <= k < from :: ranges[k].end <= start
    ensures from <= r <= |ranges| && forall k | 0 <= k < r :: ranges[k].end <= start
    ensures r < |ranges| ==> ranges[r].end > start
  {
    r := from;
    while r < |ranges| && ranges[r].end <= start
      invariant from <= r <= |ranges| && forall k | 0 <= k < r :: ranges[k].end <= start
    {
      r := r + 1;
    }
  }

  lemma SlotsInOrder(t: Text, i: nat, j: nat)
    requires Valid(t) && i <= j < |t.slots|
    ensures t.slots[i].start <= t.slots[j].start && t.slots[i].start < t.slots[i].end
  {
    assert t.slots[i] in t.slots;
    if i < j { assert StartsBy(t.slots[i], t.slots[j]); }
  }

  /** One pass walks the slots and the ranges together. */
  method CutStoredToolResult(t: Text, cap: nat, shown: Option<seq<Span>>) returns (cut: Cut)
    requires Valid(t) && (shown.Some? ==> Apart(shown.value))
    ensures cut == StoredCut(t, cap, shown)
  {
    hide Valid, Apart, ShownWhole, CutAt;
    var at := ToolResultCutAt(t, cap);
    if shown.None? { return Cut(at, [], 0); }
    var ranges := shown.value;
    var past: seq<Span> := [];
    var r, low := 0, 0;
    for i := 0 to |t.slots|
      invariant r <= |ranges| && past == PastShown(t.slots[..i], at, ranges)
      invariant (forall k | 0 <= k < r :: ranges[k].end <= low) && (i < |t.slots| ==> low <= t.slots[i].start)
    {
      assert t.slots[..i + 1][..i] == t.slots[..i];
      var slot := t.slots[i];
      SlotsInOrder(t, i, i);
      if i + 1 < |t.slots| { SlotsInOrder(t, i, i + 1); }
      if slot.start >= at {
        r := NextRange(ranges, r, slot.start);
        low := slot.start;
        OnlyThisRange(slot, ranges, r);
        if r < |ranges| && slot.start >= ranges[r].start && slot.end <= ranges[r].end { past := past + [slot]; }
      }
    }
    assert t.slots[..|t.slots|] == t.slots;
    return Cut(at, Newest(past, MAX_KEPT_IMAGE_SLOTS), |past|);
  }

  // --------------------------------------------------------------------------
  // A cut that fits a reader's bound
  // --------------------------------------------------------------------------

  /** How long the note on kept and left-out slots is: the wording's own, apart from the slots. */
  type NoteLength = (nat, nat) -> nat

  function SlotsLength(kept: seq<Span>): nat {
    if kept == [] then 0 else SlotsLength(kept[1..]) + if kept[0].start <= kept[0].end then kept[0].Length() + 1 else 1
  }

  /** What a stored copy re-appends after its truncation notice. */
  function KeptLength(cut: Cut, note: NoteLength): nat {
    if cut.fell == 0 then 0 else note(|cut.kept|, cut.fell) + SlotsLength(cut.kept)
  }

  /** A head that ends at a cut, the slots shown past it counted, and the newest of them, up to the most, kept. */
  ghost predicate IsCut(t: Text, shown: Option<seq<Span>>, cut: Cut) {
    var past := if shown.Some? then PastShown(t.slots, cut.head, shown.value) else [];
    && cut.head <= t.length && (forall s | s in t.slots :: !Straddles(s, cut.head))
    && cut.fell == |past| && |cut.kept| <= MAX_KEPT_IMAGE_SLOTS
    && |cut.kept| <= |past| && cut.kept == Newest(past, |cut.kept|)
  }

  lemma StoredIsCut(t: Text, cap: nat, shown: Option<seq<Span>>)
    requires Valid(t)
    ensures IsCut(t, shown, StoredCut(t, cap, shown))
    ensures t.length > cap ==> StoredCut(t, cap, shown).head <= cap
  {
    NoSlotStraddles(t, cap);
    hide Valid, PastShown, CutAt;
  }

  /** Whether a stored copy fits what its bound leaves beside its notice. */
  predicate Fits(cut: Cut, note: NoteLength, room: int) {
    cut.head + KeptLength(cut, note) <= room
  }

  /**
   The cut moved back until its head, and the slots that fall past it, fit the room the bound leaves, or no head is
   left.
   */
  function HeadMovedBack(t: Text, cut: Cut, shown: Option<seq<Span>>, room: int, note: NoteLength): Cut
    requires cut.head <= t.length
    decreases cut.head
  {
    if cut.head == 0 || Fits(cut, note, room) then cut
    else HeadMovedBack(t, StoredCut(t, Least(room, cut, note), shown), shown, room, note)
  }

  /** What the room leaves a head beside the slots a cut keeps. */
  function Least(room: int, cut: Cut, note: NoteLength): nat {
    if room - KeptLength(cut, note) > 0 then room - KeptLength(cut, note) else 0
  }

  method MoveHeadBack(t: Text, first: Cut, shown: Option<seq<Span>>, room: int, note: NoteLength) returns (cut: Cut)
    requires Valid(t) && (shown.Some? ==> Apart(shown.value)) && IsCut(t, shown, first) && first.head < t.length
    ensures cut == HeadMovedBack(t, first, shown, room, note)
    ensures IsCut(t, shown, cut) && cut.head <= first.head && (cut.head == 0 || Fits(cut, note, room))
  {
    hide Valid, Apart, IsCut, StoredCut, KeptLength;
    cut := first;
    assert first.head <= t.length by { IsCutWithin(t, shown, first); }
    while cut.head > 0 && cut.head + KeptLength(cut, note) > room
      invariant IsCut(t, shown, cut) && cut.head <= first.head
      invariant HeadMovedBack(t, cut, shown, room, note) == HeadMovedBack(t, first, shown, room, note)
      decreases cut.head
    {
      var smaller := Least(room, cut, note);
      StoredIsCut(t, smaller, shown);
      cut := CutStoredToolResult(t, smaller, shown);
    }
  }

  /** The note on kept slots is no shorter where more fell past the cut, as many kept of them as may be. */
  ghost predicate Grows(note: NoteLength) {
    forall f, g {:trigger MostKept(f), MostKept(g)} | 1 <= f <= g :: note(MostKept(f), f) <= note(MostKept(g), g)
  }

  function MostKept(fell: nat): nat {
    if fell < MAX_KEPT_IMAGE_SLOTS then fell else MAX_KEPT_IMAGE_SLOTS
  }

  /** What falls past an earlier cut ends in what falls past a later one. */
  lemma {:induction false} MoreFallPast(slots: seq<Span>, a: nat, b: nat, shown: seq<Span>) returns (more: seq<Span>)
    requires Sorted(slots) && a <= b
    ensures PastShown(slots, a, shown) == more + PastShown(slots, b, shown)
  {
    more := [];
    if slots != [] {
      var n := |slots| - 1;
      forall i, j | 0 <= i < j < n ensures StartsBy(slots[..n][i], slots[..n][j]) {
        assert StartsBy(slots[i], slots[j]);
      }
      more := MoreFallPast(slots[..n], a, b, shown);
      if slots[n].start < b {
        forall i | 0 <= i < n ensures slots[i].start < b { assert StartsBy(slots[i], slots[n]); }
        NoneFallPast(slots, b, shown);
        more := PastShown(slots, a, shown);
      }
    }
  }

  lemma {:induction false} NoneFallPast(slots: seq<Span>, cut: nat, shown: seq<Span>)
    requires forall i | 0 <= i < |slots| :: slots[i].start < cut
    ensures PastShown(slots, cut, shown) == []
  {
    if slots != [] { NoneFallPast(slots[..|slots| - 1], cut, shown); }
  }

  lemma {:induction false} SlotsLengthOfTwo(a: seq<Span>, b: seq<Span>)
    ensures SlotsLength(b) <= SlotsLength(a + b)
  {
    if a == [] {
      assert a + b == b;
    } else {
      assert (a + b)[1..] == a[1..] + b;
      SlotsLengthOfTwo(a[1..], b);
    }
  }

  lemma NewestOfMore(more: seq<Span>, past: seq<Span>, most: nat) returns (front: seq<Span>)
    ensures Newest(more + past, most) == front + Newest(past, most)
  {
    var all, kept := Newest(more + past, most), Newest(past, most);
    front := all[..|all| - |kept|];
    assert all[|all| - |kept|..] == kept;
  }

  /** The kept slots grow as the head moves back. */
  lemma KeptGrows(t: Text, a: nat, b: nat, shown: Option<seq<Span>>, note: NoteLength)
    requires Valid(t) && Grows(note) && CutAt(t, a) <= CutAt(t, b)
    ensures KeptLength(StoredCut(t, b, shown), note) <= KeptLength(StoredCut(t, a, shown), note)
  {
    hide Valid, CutAt, Grows;
    if shown.Some? {
      assert Sorted(t.slots) by { ValidSorted(t); }
      var more := MoreFallPast(t.slots, CutAt(t, a), CutAt(t, b), shown.value);
      var past := PastShown(t.slots, CutAt(t, b), shown.value);
      var front := NewestOfMore(more, past, MAX_KEPT_IMAGE_SLOTS);
      SlotsLengthOfTwo(front, Newest(past, MAX_KEPT_IMAGE_SLOTS));
      NoteGrows(note, |past|, |more + past|);
    }
  }

  lemma ValidSorted(t: Text)
    requires Valid(t)
    ensures Sorted(t.slots)
  {
  }

  lemma NoteGrows(note: NoteLength, f: nat, g: nat)
    requires Grows(note) && f <= g
    ensures f > 0 ==> note(MostKept(f), f) <= note(MostKept(g), g)
  {
  }

  /**
   The head is as long as fits: no cut of the text at the cap or before it whose head and slots fit the room has a
   longer one.
   */
  lemma HeadIsLongest(t: Text, cap: nat, other: nat, shown: Option<seq<Span>>, room: int, note: NoteLength)
    requires Valid(t) && Grows(note) && other <= cap < t.length && Fits(StoredCut(t, other, shown), note, room)
    ensures var first := StoredCut(t, cap, shown);
      first.head <= t.length
        && StoredCut(t, other, shown).head <= HeadMovedBack(t, first, shown, room, note).head
  {
    CutIsClear(t, other);
    CutIsLatest(t, cap, CutAt(t, other));
    MovedBackPastNone(t, cap, other, shown, room, note);
  }

  lemma {:induction false} MovedBackPastNone(t: Text, at: nat, other: nat, shown: Option<seq<Span>>, room: int,
    note: NoteLength)
    requires Valid(t) && Grows(note) && at < t.length && other < t.length
    requires CutAt(t, other) <= CutAt(t, at) && Fits(StoredCut(t, other, shown), note, room)
    ensures StoredCut(t, other, shown).head <= HeadMovedBack(t, StoredCut(t, at, shown), shown, room, note).head
    decreases CutAt(t, at)
  {
    hide Valid, KeptLength, CutAt, Grows, Clear;
    var cut := StoredCut(t, at, shown);
    KeptGrows(t, other, at, shown, note);
    if cut.head > 0 && !Fits(cut, note, room) {
      var least := Least(room, cut, note);
      assert CutAt(t, at) <= t.length by { NoSlotStraddles(t, at); }
      assert CutAt(t, other) <= least < t.length;
      CutIsClear(t, other);
      CutIsLatest(t, least, CutAt(t, other));
      assert CutAt(t, least) <= least by { NoSlotStraddles(t, least); }
      MovedBackPastNone(t, least, other, shown, room, note);
    }
  }

  lemma IsCutWithin(t: Text, shown: Option<seq<Span>>, cut: Cut)
    requires IsCut(t, shown, cut)
    ensures cut.head <= t.length
  {
  }

  /** A cut that keeps only the newest `n` of its slots. */
  function WithNewest(cut: Cut, n: nat): (r: Cut)
    ensures r.head == cut.head
  {
    cut.(kept := Newest(cut.kept, n))
  }

  lemma AllNewest(cut: Cut)
    ensures WithNewest(cut, |cut.kept|) == cut
  {
  }

  lemma OneFewerNewest(cut: Cut, n: nat)
    requires 0 < n <= |cut.kept|
    ensures var some := WithNewest(cut, n);
      |some.kept| == n && some.(kept := some.kept[1..]) == WithNewest(cut, n - 1)
  {
  }

  /** And then the newest of its slots that fit. */
  function NewestFitting(cut: Cut, room: int, note: NoteLength): Cut
    decreases |cut.kept|
  {
    if cut.kept == [] || KeptLength(cut, note) <= room then cut
    else NewestFitting(cut.(kept := cut.kept[1..]), room, note)
  }

  method DropOldest(t: Text, first: Cut, shown: Option<seq<Span>>, room: int, note: NoteLength) returns (cut: Cut)
    requires IsCut(t, shown, first) && (first.head == 0 || Fits(first, note, room))
    ensures cut == NewestFitting(first, room, note)
    ensures IsCut(t, shown, cut) && cut.head == first.head
    ensures Fits(cut, note, room) || (cut.head == 0 && cut.kept == [])
    ensures forall n | |cut.kept| < n <= |first.kept| :: KeptLength(WithNewest(first, n), note) > room
  {
    hide KeptLength, IsCut, WithNewest;
    cut := first;
    AllNewest(first);
    while cut.kept != [] && KeptLength(cut, note) > room
      invariant IsCut(t, shown, cut) && |cut.kept| <= |first.kept|
      invariant cut == WithNewest(first, |cut.kept|)
      invariant first.head > 0 ==> cut == first
      invariant NewestFitting(cut, room, note) == NewestFitting(first, room, note)
      invariant forall n | |cut.kept| < n <= |first.kept| :: KeptLength(WithNewest(first, n), note) > room
      decreases |cut.kept|
    {
      OneFewerNewest(first, |cut.kept|);
      OneFewerIsCut(t, shown, cut);
      cut := cut.(kept := cut.kept[1..]);
    }
  }

  lemma OneFewerIsCut(t: Text, shown: Option<seq<Span>>, cut: Cut)
    requires IsCut(t, shown, cut) && cut.kept != []
    ensures IsCut(t, shown, cut.(kept := cut.kept[1..]))
  {
  }

  /** Head and slots within the room; or, where there is room for neither, neither. */
  ghost predicate FitsOrEmpty(t: Text, shown: Option<seq<Span>>, cut: Cut, note: NoteLength, room: int) {
    IsCut(t, shown, cut) && (Fits(cut, note, room) || (cut.head == 0 && cut.kept == []))
  }

  /** The cut a bound leaves. */
  function Fitted(t: Text, cap: nat, shown: Option<seq<Span>>, room: int, note: NoteLength): Cut {
    NewestFitting(HeadMovedBack(t, StoredCut(t, cap, shown), shown, room, note), room, note)
  }

  /**
   Whether a cut that keeps no head would store no less than the text: its notice, and where it keeps no slot the note
   on those it leaves out.
   */
  predicate NoShorter(t: Text, cut: Cut, notice: Option<nat>, note: NoteLength) {
    notice.Some? && cut.head == 0 && t.length <= notice.value + if cut.kept == [] then KeptLength(cut, note) else 0
  }

  /**
   A cut of a text at its cap, moved back to fit a reader's bound; or the text, exactly where a cut would only lengthen
   it.
   */
  method CutStoredToolResultToFit(t: Text, cap: nat, shown: Option<seq<Span>>, bound: Option<nat>, notice: Option<nat>,
    note: NoteLength)
    returns (cut: Cut)
    requires Valid(t) && (shown.Some? ==> Apart(shown.value))
    ensures bound.None? || t.length <= cap ==> cut == StoredCut(t, cap, shown)
    ensures bound.Some? && t.length > cap ==>
      var room := bound.value - TOOL_RESULT_NOTICE_ROOM;
      var first, fitted := StoredCut(t, cap, shown), Fitted(t, cap, shown, room, note);
      && fitted.head <= cap && FitsOrEmpty(t, shown, fitted, note, room)
      && (first.head > 0 && Fits(first, note, room) ==> fitted == first)
      && cut == if NoShorter(t, fitted, notice, note) then Cut(t.length, [], 0) else fitted
  {
    hide Valid, Apart, StoredCut, IsCut, KeptLength, CutAt;
    cut := CutStoredToolResult(t, cap, shown);
    if bound.None? || t.length <= cap { return; }
    var room := bound.value - TOOL_RESULT_NOTICE_ROOM;
    StoredIsCut(t, cap, shown);
    cut := MoveHeadBack(t, cut, shown, room, note);
    cut := DropOldest(t, cut, shown, room, note);
    if notice.Some? && cut.head == 0 && t.length <= notice.value + if cut.kept == [] then KeptLength(cut, note) else 0 {
      return Cut(t.length, [], 0);
    }
  }

  /** Each of a message's `n` results takes an equal share of the bound, so that together they keep it. */
  function Share(bound: nat, n: nat): (share: nat)
    ensures n > 0 ==> n * share <= bound < n * (share + 1)
  {
    bound / if n > 1 then n else 1
  }
}
