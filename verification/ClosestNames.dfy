/** The names someone most likely meant, src/closest-names.ts: how candidates match, and in what order they rank. */
module ClosestNames {
  import opened EditDistance

  // --------------------------------------------------------------------------
  // How a candidate matches
  // --------------------------------------------------------------------------

  /** A name's segments at each "--", `read` being what of the first is already read. */
  function Segments(name: string, read: string): seq<string>
    decreases |name|
  {
    if |name| < 2 then [read + name]
    else if name[..2] == "--" then [read] + Segments(name[2..], "")
    else Segments(name[1..], read + [name[0]])
  }

  lemma {:induction false} SegmentStands(whole: string, name: string, read: string, segment: string)
    requires |read| + |name| <= |whole| && whole[|whole| - |name|..] == name
    requires whole[|whole| - |name| - |read|..|whole| - |name|] == read && segment in Segments(name, read)
    ensures Holds(whole, segment)
    decreases |name|
  {
    var n := |whole| - |name|;
    var at := n - |read|;
    if |name| < 2 {
      assert segment == read + name;
      assert whole[at..] == whole[at..n] + whole[n..];
      assert StandsAt(whole, segment, at);
    } else if name[..2] == "--" {
      if segment == read {
        assert StandsAt(whole, segment, at);
      } else {
        assert whole[n + 2..] == whole[n..][2..];
        SegmentStands(whole, name[2..], "", segment);
      }
    } else {
      assert whole[n + 1..] == whole[n..][1..];
      assert whole[at..n + 1] == whole[at..n] + [whole[n..][0]];
      SegmentStands(whole, name[1..], read + [name[0]], segment);
    }
  }

  /** A name's segments joined by "--" again. */
  function Joined(segments: seq<string>): string
    requires segments != []
  {
    if |segments| == 1 then segments[0] else segments[0] + "--" + Joined(segments[1..])
  }

  predicate DashesAt(s: string, i: nat) {
    i + 2 <= |s| && s[i..i + 2] == "--"
  }

  ghost predicate NoDashes(s: string) {
    forall i | 0 <= i < |s| :: !DashesAt(s, i)
  }

  /** Whether a "--" put after a segment stands there for the first time where the segment ends. */
  ghost predicate EndsAtFirst(segment: string) {
    forall i | 0 <= i < |segment| :: !DashesAt(segment + "--", i)
  }

  /** A split at each "--", from the left: what is joined is the name, and no segment could have ended sooner. */
  ghost predicate SplitsAt(segments: seq<string>, name: string) {
    && segments != [] && Joined(segments) == name
    && (forall i | 0 <= i < |segments| - 1 :: EndsAtFirst(segments[i]))
    && NoDashes(segments[|segments| - 1])
  }

  /** The segments are such a split; `read` holds no "--", nor starts one that the name ends. */
  lemma {:induction false} SegmentsSplit(name: string, read: string)
    requires NoneStarts(read, name)
    ensures SplitsAt(Segments(name, read), read + name)
    decreases |name|
  {
    hide SplitsAt, DashesAt, NoneStarts, EndsAtFirst;
    if |name| < 2 {
      OneSegment(name, read);
    } else if name[..2] == "--" {
      var rest := name[2..];
      NoneRead(rest);
      SegmentsSplit(rest, "");
      ReadEnds(name, read);
      SplitThen(read, Segments(rest, ""), "" + rest);
    } else {
      ReadMore(name, read);
      SegmentsSplit(name[1..], read + [name[0]]);
    }
  }

  /** Whether no "--" starts in `read`, with `name` after it. */
  ghost predicate NoneStarts(read: string, name: string) {
    forall i | 0 <= i < |read| :: !DashesAt(read + name, i)
  }

  lemma NoneRead(name: string)
    ensures NoneStarts("", name)
  {
  }

  lemma OneSegment(name: string, read: string)
    requires NoneStarts(read, name) && |name| < 2
    ensures SplitsAt([read + name], read + name)
  {
    assert NoDashes(read + name);
  }

  lemma ReadEnds(name: string, read: string)
    requires NoneStarts(read, name) && |name| >= 2 && name[..2] == "--"
    ensures EndsAtFirst(read) && read + "--" + ("" + name[2..]) == read + name
  {
    assert name == "--" + name[2..];
    forall i | 0 <= i < |read| ensures !DashesAt(read + "--", i) {
      assert !DashesAt(read + name, i);
      assert (read + "--")[i..i + 2] == (read + name)[i..i + 2];
    }
  }

  lemma ReadMore(name: string, read: string)
    requires NoneStarts(read, name) && |name| >= 2 && name[..2] != "--"
    ensures NoneStarts(read + [name[0]], name[1..]) && read + [name[0]] + name[1..] == read + name
  {
    var more := read + [name[0]];
    assert more + name[1..] == read + name;
    forall i | 0 <= i < |more| ensures !DashesAt(more + name[1..], i) {
      if i == |read| { assert (read + name)[i..i + 2] == name[..2]; } else { assert !DashesAt(read + name, i); }
    }
  }

  lemma SplitThen(first: string, rest: seq<string>, name: string)
    requires EndsAtFirst(first) && SplitsAt(rest, name)
    ensures SplitsAt([first] + rest, first + "--" + name)
  {
    var all := [first] + rest;
    assert all[1..] == rest;
    forall i | 0 <= i < |all| - 1 ensures EndsAtFirst(all[i]) {
      if i > 0 { assert all[i] == rest[i - 1]; }
    }
  }

  lemma RestSplits(segments: seq<string>, name: string)
    requires SplitsAt(segments, name) && |segments| > 1
    ensures var n := |segments[0]|;
      && DashesAt(name, n) && name[..n] == segments[0] && SplitsAt(segments[1..], name[n + 2..])
      && forall i | 0 <= i < n :: !DashesAt(name, i)
  {
    var first, rest := segments[0], segments[1..];
    var n := |first|;
    assert name == first + "--" + Joined(rest);
    assert name[n..n + 2] == "--" && name[n + 2..] == Joined(rest);
    forall i | 0 <= i < |rest| - 1 ensures EndsAtFirst(rest[i]) { assert rest[i] == segments[i + 1]; }
    forall i | 0 <= i < n ensures !DashesAt(name, i) {
      assert !DashesAt(first + "--", i);
      assert name[i..i + 2] == (first + "--")[i..i + 2];
    }
  }

  /** There is one such split. */
  lemma {:induction false} OneSplit(a: seq<string>, b: seq<string>, name: string)
    requires SplitsAt(a, name) && SplitsAt(b, name)
    ensures a == b
  {
    if |a| > 1 { RestSplits(a, name); }
    if |b| > 1 { RestSplits(b, name); }
    if |a| > 1 && |b| > 1 {
      OneSplit(a[1..], b[1..], name[|a[0]| + 2..]);
      assert a == [a[0]] + a[1..] && b == [b[0]] + b[1..];
    }
  }

  /** 0 the same, 1 a whole segment, 2 a prefix either way, 3 a part either way, 4 none of these. */
  ghost function Tier(wanted: string, other: string): nat {
    var shorter := Min(|wanted|, |other|);
    if other == wanted then 0
    else if wanted != "" && wanted in Segments(other, "") then 1
    else if shorter >= 3 && (wanted <= other || other <= wanted) then 2
    else if shorter >= 3 && (Holds(other, wanted) || Holds(wanted, other)) then 3
    else 4
  }

  method TierOf(wanted: string, other: string) returns (tier: nat)
    ensures tier == Tier(wanted, other)
  {
    var shorter := Min(|wanted|, |other|);
    if other == wanted { return 0; }
    if wanted != "" && wanted in Segments(other, "") { return 1; }
    if shorter < 3 { return 4; }
    if wanted <= other || other <= wanted { return 2; }
    var part := Includes(other, wanted);
    if part { return 3; }
    part := Includes(wanted, other);
    return if part then 3 else 4;
  }

  /** What each tier takes in: a whole segment is one of the pieces a name splits into at each "--". */
  lemma TierIs(wanted: string, other: string)
    ensures
      var same, long := wanted == other, Min(|wanted|, |other|) >= 3;
      var segment := wanted != "" && exists segments :: SplitsAt(segments, other) && wanted in segments;
      var prefix, part := wanted <= other || other <= wanted, Holds(other, wanted) || Holds(wanted, other);
      && (Tier(wanted, other) == 0 <==> same) && (Tier(wanted, other) <= 1 <==> same || segment)
      && (Tier(wanted, other) <= 2 <==> same || segment || (long && prefix))
      && (Tier(wanted, other) <= 3 <==> same || segment || (long && (prefix || part)))
  {
    var ours := Segments(other, "");
    NoneRead(other);
    SegmentsSplit(other, "");
    assert "" + other == other;
    if wanted in ours {
      assert SplitsAt(ours, other) && wanted in ours;
    } else {
      forall segments | SplitsAt(segments, other) ensures wanted !in segments { OneSplit(segments, ours, other); }
    }
  }

  /** In tiers 0 to 3 one name holds the other, so the length difference is already their distance. */
  lemma TierIsTheGap(wanted: string, other: string)
    requires Tier(wanted, other) < 4
    ensures Distance(wanted, other) == Gap(|wanted|, |other|)
  {
    if Tier(wanted, other) == 1 {
      assert other[|other| - |other|..] == other;
      SegmentStands(other, other, "", wanted);
    } else if wanted <= other {
      assert StandsAt(other, wanted, 0);
    } else if other <= wanted {
      assert StandsAt(wanted, other, 0);
    }
    if Holds(other, wanted) {
      var at :| 0 <= at <= |other| && StandsAt(other, wanted, at);
      ContainedIsTheGap(wanted, other, at);
    } else {
      var at :| 0 <= at <= |wanted| && StandsAt(wanted, other, at);
      ContainedIsTheGap(wanted, other, at);
    }
  }

  // --------------------------------------------------------------------------
  // How candidates rank
  // --------------------------------------------------------------------------

  /** A candidate that counts: how it matches, how many edits it is away, and where it was given. */
  datatype Entry = Entry(candidate: string, tier: nat, distance: nat, position: nat)

  /** The source's comparison, with the order given for what ties: its sort is stable. */
  predicate Ahead(x: Entry, y: Entry) {
    x.tier < y.tier || (x.tier == y.tier
      && (x.distance < y.distance || (x.distance == y.distance && x.position < y.position)))
  }

  ghost predicate InRank(entries: seq<Entry>) {
    forall i, j {:trigger Ahead(entries[i], entries[j])} | 0 <= i < j < |entries| :: Ahead(entries[i], entries[j])
  }

  function Placed(entries: seq<Entry>, x: Entry): seq<Entry> {
    if entries == [] then [x]
    else
      var n := |entries| - 1;
      if Ahead(entries[n], x) then entries + [x] else Placed(entries[..n], x) + [entries[n]]
  }

  lemma RankThen(front: seq<Entry>, last: Entry)
    ensures InRank(front + [last]) <==> InRank(front) && forall y | y in front :: Ahead(y, last)
  {
    var entries := front + [last];
    if InRank(entries) {
      forall i, j | 0 <= i < j < |front| ensures Ahead(front[i], front[j]) { assert Ahead(entries[i], entries[j]); }
      forall y | y in front ensures Ahead(y, last) {
        var i :| 0 <= i < |front| && front[i] == y;
        assert Ahead(entries[i], entries[|front|]);
      }
    }
    if InRank(front) && forall y | y in front :: Ahead(y, last) {
      forall i, j | 0 <= i < j < |entries| ensures Ahead(entries[i], entries[j]) {
        if j < |front| { assert Ahead(front[i], front[j]); } else { assert entries[i] in front; }
      }
    }
  }

  lemma {:induction false} PlacedInRank(entries: seq<Entry>, x: Entry)
    requires InRank(entries) && forall y | y in entries :: y.position < x.position
    ensures InRank(Placed(entries, x)) && |Placed(entries, x)| == |entries| + 1
    ensures forall y :: y in Placed(entries, x) <==> y in entries || y == x
  {
    hide InRank;
    if entries == [] {
      assert [] + [x] == [x];
      RankThen([], x);
      assert InRank([]) by { NoneInRank(); }
    } else {
      var n := |entries| - 1;
      var front, last := entries[..n], entries[n];
      assert entries == front + [last];
      RankThen(front, last);
      if Ahead(last, x) {
        forall y | y in entries ensures Ahead(y, x) { assert y in front || y == last; }
        RankThen(entries, x);
      } else {
        PlacedInRank(front, x);
        assert last in entries;
        RankThen(Placed(front, x), last);
      }
    }
  }

  lemma NoneInRank()
    ensures InRank([])
  {
  }

  /** The source's stable sort. */
  function InRankOrder(entries: seq<Entry>): seq<Entry> {
    if entries == [] then [] else Placed(InRankOrder(entries[..|entries| - 1]), entries[|entries| - 1])
  }

  predicate Before(x: Entry, y: Entry) {
    x.position < y.position
  }

  ghost predicate AsGiven(entries: seq<Entry>) {
    forall i, j {:trigger Before(entries[i], entries[j])} | 0 <= i < j < |entries| :: Before(entries[i], entries[j])
  }

  lemma {:induction false} SortsInRank(entries: seq<Entry>)
    requires AsGiven(entries)
    ensures InRank(InRankOrder(entries)) && forall x :: x in InRankOrder(entries) <==> x in entries
    ensures |InRankOrder(entries)| == |entries|
  {
    if entries != [] {
      var n := |entries| - 1;
      var front, x := entries[..n], entries[n];
      assert entries == front + [x];
      forall i, j | 0 <= i < j < n ensures Before(front[i], front[j]) { assert Before(entries[i], entries[j]); }
      SortsInRank(front);
      var sorted := InRankOrder(front);
      forall y | y in sorted ensures y.position < x.position {
        var i :| 0 <= i < n && front[i] == y;
        assert Before(entries[i], entries[n]);
      }
      PlacedInRank(sorted, x);
    }
  }

  /** Whether a candidate counts: it matches in some way, or is within the edits that still read as a slip. */
  ghost predicate Counts(wanted: string, other: string) {
    Tier(wanted, other) < 4 || Distance(wanted, other) <= Noise(wanted, other)
  }

  /** Whether an entry is a given candidate that counts, at its first place, with its tier and its edit distance. */
  ghost predicate EntryOf(candidates: seq<string>, lower: string -> string, wanted: string, x: Entry) {
    && x.position < |candidates| && candidates[x.position] == x.candidate && x.candidate !in candidates[..x.position]
    && Counts(wanted, lower(x.candidate))
    && x.tier == Tier(wanted, lower(x.candidate)) && x.distance == Distance(wanted, lower(x.candidate))
  }

  /** How far one candidate is, and whether it counts. */
  method Measure(wanted: string, other: string) returns (tier: nat, distance: nat, counts: bool)
    ensures tier == Tier(wanted, other) && counts == Counts(wanted, other)
    ensures counts ==> distance == Distance(wanted, other)
  {
    tier := TierOf(wanted, other);
    if tier < 4 {
      TierIsTheGap(wanted, other);
      return tier, Gap(|wanted|, |other|), true;
    }
    var limit := NoiseLimit(wanted, other);
    distance := EditDistanceWithin(wanted, other, limit);
    counts := distance <= limit;
  }

  ghost predicate EntriesBelow(candidates: seq<string>, lower: string -> string, wanted: string, entries: seq<Entry>,
    n: nat) {
    AsGiven(entries) && forall x :: x in entries <==> x.position < n && EntryOf(candidates, lower, wanted, x)
  }

  lemma EntryThen(candidates: seq<string>, lower: string -> string, wanted: string, entries: seq<Entry>, n: nat,
    added: seq<Entry>)
    requires n < |candidates| && EntriesBelow(candidates, lower, wanted, entries, n) && |added| <= 1
    requires forall x :: x in added <==> x.position == n && EntryOf(candidates, lower, wanted, x)
    ensures EntriesBelow(candidates, lower, wanted, entries + added, n + 1)
  {
    hide EntryOf;
    var longer := entries + added;
    forall i, j | 0 <= i < j < |longer| ensures Before(longer[i], longer[j]) {
      assert longer[i] in longer && longer[j] in longer;
      if j < |entries| { assert Before(entries[i], entries[j]); }
      else { assert longer[i] in entries && longer[j] in added; }
    }
  }

  /** Each candidate that counts, exactly once, in rank, with its edit distance from the name given. */
  ghost predicate RanksAll(candidates: seq<string>, lower: string -> string, wanted: string, ranked: seq<Entry>) {
    InRank(ranked) && forall x :: x in ranked <==> EntryOf(candidates, lower, wanted, x)
  }

  /** The first names of a ranking: `max` of them, or all. */
  ghost predicate IsLikeliest(names: seq<string>, ranked: seq<Entry>, max: int) {
    && |names| <= |ranked| && (forall i | 0 <= i < |names| :: names[i] == ranked[i].candidate)
    && (if max <= 0 then names == [] else |names| <= max && (|names| == max || |names| == |ranked|))
  }

  /**
   The candidates meant by `name`: the likeliest `max` of all that count, each ranked by the edit distance between the
   folded names, whichever way it was worked out.
   */
  method FindClosest(name: string, candidates: seq<string>, max: int, lower: string -> string)
    returns (names: seq<string>)
    ensures exists ranked :: RanksAll(candidates, lower, lower(name), ranked) && IsLikeliest(names, ranked, max)
  {
    hide Tier, Counts, Distance;
    var wanted := lower(name);
    var entries: seq<Entry> := [];
    for i := 0 to |candidates|
      invariant EntriesBelow(candidates, lower, wanted, entries, i)
    {
      var candidate, added := candidates[i], [];
      if candidate !in candidates[..i] {
        var tier, distance, counts := Measure(wanted, lower(candidate));
        if counts { added := [Entry(candidate, tier, distance, i)]; }
      }
      EntryThen(candidates, lower, wanted, entries, i, added);
      entries := entries + added;
    }
    SortsInRank(entries);
    var sorted := InRankOrder(entries);
    assert RanksAll(candidates, lower, wanted, sorted);
    return seq(Min(Max(0, max), |sorted|), i requires 0 <= i < |sorted| => sorted[i].candidate);
  }
}
