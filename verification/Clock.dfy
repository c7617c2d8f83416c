/**
 Clock rows, src/clock-rows.ts: the latest boundary of a zone's wall clock,
 across offset changes, and the clock a window takes next.
 */
module Clock {
  import opened Options

  const DAY_SECONDS := 86_400
  const DAY_MS := 86_400_000

  /** A zone's offset from UTC, in whole minutes, at each instant (epoch ms). */
  type Zone = int -> int

  /** The wall clock's time of day, in whole seconds. */
  function SecondOfDayAt(t: int, offset: int): (second: nat)
    ensures second < DAY_SECONDS
  {
    (t / 1000 + offset * 60) % DAY_SECONDS
  }

  /** What is left of `x` past its last whole multiple of `n`. */
  function Past(x: nat, n: nat): (r: nat)
    requires n > 0
    ensures r < n && r <= x
  {
    if x < n then x else Past(x - n, n)
  }

  /** That is the remainder. */
  lemma {:induction false} PastIsTheRemainder(x: nat, n: nat)
    requires n > 0
    ensures Past(x, n) == x % n
  {
    if x >= n {
      PastIsTheRemainder(x - n, n);
      SameRemainder(x, n);
    }
  }

  lemma SameRemainder(x: int, n: nat)
    requires n > 0
    ensures (x - n) % n == x % n
  {
    var a, b := (x - n) / n, x / n;
    assert x - n == n * a + (x - n) % n && x == n * b + x % n;
    assert n * (a + 1) == n * a + n && n * (b - (a + 1)) == n * b - n * (a + 1);
    PastOneMultiple(n, b - (a + 1));
  }

  lemma PastOneMultiple(n: int, k: int)
    requires n >= 0
    ensures (k >= 1 ==> n * k >= n) && (k <= -1 ==> n * k <= -n)
  {
    if k >= 1 { assert n * (k - 1) >= 0; } else if k <= -1 { assert n * (-k - 1) >= 0; }
  }

  /** An instant at which the wall clock reads a whole multiple of the interval since local midnight. */
  predicate Boundary(zone: Zone, interval: nat, t: int)
    requires interval > 0
  {
    t % 1000 == 0 && Past(SecondOfDayAt(t, zone(t)), interval) == 0
  }

  /** An instant at which the zone took another offset. */
  predicate Change(zone: Zone, t: int) {
    zone(t) != zone(t - 1)
  }

  /** No zone changes its offset twice within a day. */
  ghost predicate Spaced(zone: Zone) {
    forall a, b | a < b && Change(zone, a) && Change(zone, b) :: b - a >= DAY_MS
  }

  /** The greatest boundary at or before `now`. */
  ghost predicate IsLatest(zone: Zone, interval: nat, now: int, b: int)
    requires interval > 0
  {
    b <= now && Boundary(zone, interval, b) && forall t | b < t <= now :: !Boundary(zone, interval, t)
  }

  // --------------------------------------------------------------------------
  // One pass of the walk
  // --------------------------------------------------------------------------

  /** How far the wall clock has run past its last multiple of the interval, taken from an instant. */
  function Candidate(t: int, interval: nat, offset: int): int
    requires interval > 0
  {
    t - Past(SecondOfDayAt(t, offset), interval) * 1000 - t % 1000
  }

  /** From the last whole multiple on, what is left past it grows one for one. */
  lemma {:induction false} PastFrom(x: nat, n: nat, y: nat)
    requires n > 0 && x - Past(x, n) <= y <= x
    ensures Past(y, n) == y - (x - Past(x, n))
  {
    if x >= n { PastFrom(x - n, n, y - n); }
  }

  /** Whole seconds before an instant, within its day, its wall clock reads that much less. */
  lemma SecondsBack(at: int, offset: int, back: nat)
    requires back <= SecondOfDayAt(at, offset)
    ensures var t := at - at % 1000 - back * 1000;
      t % 1000 == 0 && t / 1000 == at / 1000 - back && SecondOfDayAt(t, offset) == SecondOfDayAt(at, offset) - back
  {
    WholeSeconds(at, back);
    WithinADay(at / 1000 + offset * 60, back);
  }

  lemma WholeSeconds(at: int, back: nat)
    ensures var t := at - at % 1000 - back * 1000;
      t % 1000 == 0 && t / 1000 == at / 1000 - back
  {
  }

  lemma WithinADay(q: int, back: nat)
    requires back <= q % DAY_SECONDS
    ensures (q - back) % DAY_SECONDS == q % DAY_SECONDS - back
  {
  }

  /**
   While an offset stays the same, the candidate reads a multiple of the interval, and no instant after it up to `at`
   does.
   */
  lemma CandidateIsLatest(at: int, interval: nat, offset: int)
    requires 0 < interval <= DAY_SECONDS
    ensures var c := Candidate(at, interval, offset);
      && at - DAY_MS < c <= at && c % 1000 == 0 && Past(SecondOfDayAt(c, offset), interval) == 0
      && forall t | c < t <= at && t % 1000 == 0 :: Past(SecondOfDayAt(t, offset), interval) != 0
  {
    var c, sod := Candidate(at, interval, offset), SecondOfDayAt(at, offset);
    var past := Past(sod, interval);
    SecondsBack(at, offset, past);
    PastFrom(sod, interval, sod - past);
    forall t | c < t <= at && t % 1000 == 0 ensures Past(SecondOfDayAt(t, offset), interval) != 0 {
      var back := at / 1000 - t / 1000;
      assert 0 <= back < past && t == at - at % 1000 - back * 1000;
      SecondsBack(at, offset, back);
      PastFrom(sod, interval, sod - back);
    }
  }

  // --------------------------------------------------------------------------
  // Offset changes
  // --------------------------------------------------------------------------

  lemma {:induction false} NoChange(zone: Zone, a: int, b: int)
    requires a <= b && forall t | a < t <= b :: !Change(zone, t)
    ensures zone(a) == zone(b)
    decreases b - a
  {
    if a < b { NoChange(zone, a, b - 1); assert !Change(zone, b); }
  }

  /**
   Within a day, an offset that is the same at both ends didn't change; and one that isn't changed once, between the
   two.
   */
  lemma SameOffset(zone: Zone, a: int, b: int, t: int)
    requires Spaced(zone) && a <= t <= b < a + DAY_MS
    ensures zone(a) == zone(b) ==> zone(t) == zone(a)
    ensures zone(t) == zone(a) || zone(t) == zone(b)
  {
    if exists c :: a < c <= b && Change(zone, c) {
      var c :| a < c <= b && Change(zone, c);
      NoChange(zone, a, c - 1);
      NoChange(zone, c, b);
      if t < c { NoChange(zone, a, t); } else { NoChange(zone, t, b); }
    } else {
      NoChange(zone, a, t);
      NoChange(zone, a, b);
    }
  }

  /** Once the zone has taken the later offset, it keeps it. */
  lemma KeepsOffset(zone: Zone, a: int, b: int, t: int, u: int)
    requires Spaced(zone) && a <= t <= u <= b < a + DAY_MS && zone(a) != zone(b) && zone(t) == zone(b)
    ensures zone(u) == zone(b)
  {
    SameOffset(zone, t, b, u);
  }

  /** The instant in (`from`, `to`] at which the zone took `to`'s offset. */
  method OffsetTakenAt(zone: Zone, from: int, to: int) returns (taken: int)
    requires Spaced(zone) && from < to < from + DAY_MS && zone(from) != zone(to)
    ensures from < taken <= to && Change(zone, taken)
    ensures forall t | taken <= t <= to :: zone(t) == zone(to)
  {
    var before, after := from, to;
    while after - before > 1
      invariant from <= before < after <= to
      invariant zone(before) != zone(to) && zone(after) == zone(to)
    {
      var mid := (before + after) / 2;
      if zone(mid) == zone(to) { after := mid; } else { before := mid; }
    }
    forall t | after <= t <= to ensures zone(t) == zone(to) { KeepsOffset(zone, from, to, after, t); }
    return after;
  }

  // --------------------------------------------------------------------------
  // The latest boundary
  // --------------------------------------------------------------------------

  const PASSES := 24

  /** A pass that finds the same offset finds the greatest boundary. */
  lemma PassEnds(zone: Zone, interval: nat, at: int)
    requires 0 < interval <= DAY_SECONDS && Spaced(zone) && zone(Candidate(at, interval, zone(at))) == zone(at)
    ensures IsLatest(zone, interval, at, Candidate(at, interval, zone(at)))
  {
    var c := Candidate(at, interval, zone(at));
    CandidateIsLatest(at, interval, zone(at));
    forall t | c < t <= at ensures !Boundary(zone, interval, t) { SameOffset(zone, c, at, t); }
  }

  /** A pass that doesn't steps back over no boundary, and the next finds the same offset. */
  lemma PassSteps(zone: Zone, interval: nat, at: int, taken: int)
    requires 0 < interval <= DAY_SECONDS && Spaced(zone) && Candidate(at, interval, zone(at)) < taken <= at
    requires Change(zone, taken) && forall t | taken <= t <= at :: zone(t) == zone(at)
    ensures forall t | taken <= t <= at :: !Boundary(zone, interval, t)
    ensures zone(Candidate(taken - 1, interval, zone(taken - 1))) == zone(taken - 1)
  {
    CandidateIsLatest(at, interval, zone(at));
    var b := taken - 1;
    CandidateIsLatest(b, interval, zone(b));
    var a := Candidate(b, interval, zone(b));
    forall t | a < t <= b ensures !Change(zone, t) {}
    NoChange(zone, a, b);
  }

  /** The latest boundary, and how many passes it took; None is the walk that throws. */
  method LatestBoundary(zone: Zone, interval: nat, now: int) returns (boundary: Option<int>, passes: nat)
    requires 0 < interval <= DAY_SECONDS && Spaced(zone)
    ensures boundary.Some? && IsLatest(zone, interval, now, boundary.value) && passes <= 2
  {
    boundary, passes := None, PASSES;
    var at := now;
    for pass := 0 to PASSES
      invariant at <= now && forall t | at < t <= now :: !Boundary(zone, interval, t)
      invariant pass <= 1
      invariant pass == 1 ==> zone(Candidate(at, interval, zone(at))) == zone(at)
    {
      var candidate := Candidate(at, interval, zone(at));
      CandidateIsLatest(at, interval, zone(at));
      if zone(candidate) == zone(at) {
        PassEnds(zone, interval, at);
        return Some(candidate), pass + 1;
      }
      var taken := OffsetTakenAt(zone, candidate, at);
      PassSteps(zone, interval, at, taken);
      at := taken - 1;
    }
  }

  lemma LatestExists(zone: Zone, interval: nat, now: int) returns (b: int)
    requires 0 < interval <= DAY_SECONDS && Spaced(zone)
    ensures IsLatest(zone, interval, now, b)
  {
    b := Candidate(now, interval, zone(now));
    CandidateIsLatest(now, interval, zone(now));
    if zone(b) == zone(now) {
      PassEnds(zone, interval, now);
    } else {
      var taken := now;
      while zone(taken - 1) == zone(now)
        invariant b < taken <= now && forall t | taken <= t <= now :: zone(t) == zone(now)
        decreases taken - b
      {
        taken := taken - 1;
      }
      PassSteps(zone, interval, now, taken);
      b := Candidate(taken - 1, interval, zone(taken - 1));
      PassEnds(zone, interval, taken - 1);
    }
  }

  ghost function Latest(zone: Zone, interval: nat, now: int): (b: int)
    requires 0 < interval <= DAY_SECONDS && Spaced(zone)
    ensures IsLatest(zone, interval, now, b)
  {
    assert exists b :: IsLatest(zone, interval, now, b) by { var b := LatestExists(zone, interval, now); }
    var b :| IsLatest(zone, interval, now, b);
    b
  }

  // --------------------------------------------------------------------------
  // The clock a window takes next
  // --------------------------------------------------------------------------

  datatype Stamp = Stamp(at: int, onBoundary: bool)

  function Max(a: int, b: int): int { if a < b then b else a }

  ghost function Plan(zone: Zone, interval: nat, now: int, newestRowAt: Option<int>,
    lastClockAt: Option<int>): Option<Stamp>
    requires 0 < interval <= DAY_SECONDS && Spaced(zone)
  {
    var boundary := Latest(zone, interval, now);
    if lastClockAt.Some? && boundary <= Latest(zone, interval, lastClockAt.value) then None
    else
      var onBoundary := newestRowAt.None? || newestRowAt.value <= boundary;
      Some(Stamp(if onBoundary then boundary else Max(now, newestRowAt.value), onBoundary))
  }

  method PlanClock(zone: Zone, interval: nat, now: int, newestRowAt: Option<int>, lastClockAt: Option<int>)
    returns (planned: Option<Stamp>)
    requires 0 < interval <= DAY_SECONDS && Spaced(zone)
    ensures planned == Plan(zone, interval, now, newestRowAt, lastClockAt)
  {
    var boundary, _ := LatestBoundary(zone, interval, now);
    OneLatest(zone, interval, now, boundary.value);
    if lastClockAt.Some? {
      var told, _ := LatestBoundary(zone, interval, lastClockAt.value);
      OneLatest(zone, interval, lastClockAt.value, told.value);
      if boundary.value <= told.value { return None; }
    }
    var onBoundary := newestRowAt.None? || newestRowAt.value <= boundary.value;
    return Some(Stamp(if onBoundary then boundary.value else Max(now, newestRowAt.value), onBoundary));
  }

  lemma OneLatest(zone: Zone, interval: nat, now: int, b: int)
    requires 0 < interval <= DAY_SECONDS && Spaced(zone) && IsLatest(zone, interval, now, b)
    ensures b == Latest(zone, interval, now)
  {
  }

  /**
   A clock is planned exactly where a boundary has passed since the last clock: after it, by a boundary of its own, and
   not before the row it follows. It is on the latest boundary exactly where no row is later than that, and otherwise at
   the later of now and the newest row.
   */
  lemma PlannedAfterTheLast(zone: Zone, interval: nat, now: int, newestRowAt: Option<int>, lastClockAt: Option<int>)
    requires 0 < interval <= DAY_SECONDS && Spaced(zone)
    ensures
      var planned := Plan(zone, interval, now, newestRowAt, lastClockAt);
      && (planned.None? <==> lastClockAt.Some? && forall t | lastClockAt.value < t <= now ::
        !Boundary(zone, interval, t))
      && (planned.Some? ==>
        && (newestRowAt.Some? ==> newestRowAt.value <= planned.value.at)
        && (planned.value.onBoundary ==> IsLatest(zone, interval, now, planned.value.at))
        && (!planned.value.onBoundary <==> newestRowAt.Some? && forall t | newestRowAt.value <= t <= now ::
          !Boundary(zone, interval, t))
        && (!planned.value.onBoundary ==> now <= planned.value.at && planned.value.at in {now, newestRowAt.value})
        && (lastClockAt.Some? ==>
          && lastClockAt.value < planned.value.at
          && Latest(zone, interval, lastClockAt.value) < Latest(zone, interval, planned.value.at)))
  {
    var boundary := Latest(zone, interval, now);
    if lastClockAt.Some? {
      var told := Latest(zone, interval, lastClockAt.value);
      if boundary > told {
        assert boundary > lastClockAt.value;
        var at := Plan(zone, interval, now, newestRowAt, lastClockAt).value.at;
        assert boundary <= at;
        assert boundary <= Latest(zone, interval, at);
      } else {
        forall t | lastClockAt.value < t <= now ensures !Boundary(zone, interval, t) {}
      }
    }
  }

  /** When a window asks for its clock. */
  datatype Ask = Ask(now: int, newestRowAt: Option<int>)

  /** The clocks a window takes, asked in turn, from its last clock on. */
  ghost function Clocks(zone: Zone, interval: nat, last: Option<int>, asks: seq<Ask>): seq<int>
    requires 0 < interval <= DAY_SECONDS && Spaced(zone)
    decreases |asks|
  {
    if asks == [] then []
    else match Plan(zone, interval, asks[0].now, asks[0].newestRowAt, last)
      case None => Clocks(zone, interval, last, asks[1..])
      case Some(stamp) => [stamp.at] + Clocks(zone, interval, Some(stamp.at), asks[1..])
  }

  /** One clock after another, each by a later boundary. */
  ghost predicate Later(zone: Zone, interval: nat, a: int, b: int)
    requires 0 < interval <= DAY_SECONDS && Spaced(zone)
  {
    a < b && Latest(zone, interval, a) < Latest(zone, interval, b)
  }

  ghost predicate AllLater(zone: Zone, interval: nat, last: int, clocks: seq<int>)
    requires 0 < interval <= DAY_SECONDS && Spaced(zone)
  {
    forall i | 0 <= i < |clocks| :: Later(zone, interval, last, clocks[i])
  }

  ghost predicate Increasing(zone: Zone, interval: nat, clocks: seq<int>)
    requires 0 < interval <= DAY_SECONDS && Spaced(zone)
  {
    forall i, j {:trigger Later(zone, interval, clocks[i], clocks[j])} | 0 <= i < j < |clocks| ::
      Later(zone, interval, clocks[i], clocks[j])
  }

  lemma ClockThen(zone: Zone, interval: nat, last: Option<int>, at: int, rest: seq<int>)
    requires 0 < interval <= DAY_SECONDS && Spaced(zone)
    requires AllLater(zone, interval, at, rest) && Increasing(zone, interval, rest)
    requires last.Some? ==> Later(zone, interval, last.value, at)
    ensures Increasing(zone, interval, [at] + rest)
      && (last.Some? ==> AllLater(zone, interval, last.value, [at] + rest))
  {
    hide Latest;
    var clocks := [at] + rest;
    forall i, j | 0 <= i < j < |clocks| ensures Later(zone, interval, clocks[i], clocks[j]) {
      if i > 0 { assert Later(zone, interval, rest[i - 1], rest[j - 1]); }
    }
    if last.Some? {
      forall i | 0 <= i < |clocks| ensures Later(zone, interval, last.value, clocks[i]) {
        if i > 0 { assert Later(zone, interval, at, rest[i - 1]); }
      }
    }
  }

  /** Whatever is asked and when, a window's clocks strictly increase, and at most one falls to each boundary. */
  lemma {:induction false} ClocksIncrease(zone: Zone, interval: nat, last: Option<int>, asks: seq<Ask>)
    requires 0 < interval <= DAY_SECONDS && Spaced(zone)
    ensures Increasing(zone, interval, Clocks(zone, interval, last, asks))
    ensures last.Some? ==> AllLater(zone, interval, last.value, Clocks(zone, interval, last, asks))
    decreases |asks|
  {
    hide Plan, Latest, IsLatest;
    if asks != [] {
      PlannedAfterTheLast(zone, interval, asks[0].now, asks[0].newestRowAt, last);
      var planned := Plan(zone, interval, asks[0].now, asks[0].newestRowAt, last);
      ClocksIncrease(zone, interval, if planned.None? then last else Some(planned.value.at), asks[1..]);
      if planned.Some? {
        var at := planned.value.at;
        ClockThen(zone, interval, last, at, Clocks(zone, interval, Some(at), asks[1..]));
      }
    }
  }
}
