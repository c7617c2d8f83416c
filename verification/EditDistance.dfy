/**
 Names close to one given, src/closest-names.ts: the bounded edit distance over
 three rows of a table, against the least cost of any edit script.
 */
module EditDistance {
  function Min(a: int, b: int): int { if b < a then b else a }

  function Max(a: int, b: int): int { if a < b then b else a }

  function Gap(m: nat, n: nat): nat { if m < n then n - m else m - n }

  predicate Swaps(a: string, b: string, i: nat, j: nat)
    requires i <= |a| && j <= |b|
  {
    i > 1 && j > 1 && a[i - 1] == b[j - 2] && a[i - 2] == b[j - 1]
  }

  /** Optimal string alignment of a[..i] and b[..j]. */
  function Osa(a: string, b: string, i: nat, j: nat): nat
    requires i <= |a| && j <= |b|
  {
    if i == 0 then j
    else if j == 0 then i
    else
      Least(Osa(a, b, i - 1, j), Osa(a, b, i, j - 1), Osa(a, b, i - 1, j - 1), a[i - 1] == b[j - 1],
            if Swaps(a, b, i, j) then Osa(a, b, i - 2, j - 2) else Osa(a, b, i - 1, j))
  }

  /**
   The cheapest last edit, from what precedes each: a deletion, an insertion, a kept or substituted character, a swap.
   */
  function Least(deleted: nat, inserted: nat, matched: nat, same: bool, swapped: nat): nat {
    Min(Min(Min(deleted + 1, inserted + 1), matched + if same then 0 else 1), swapped + 1)
  }

  function Change(a: string, b: string, i: nat, j: nat): nat
    requires 0 < i <= |a| && 0 < j <= |b|
  {
    if a[i - 1] == b[j - 1] then 0 else 1
  }

  /** An entry is at most what each last edit makes of an earlier one, and exactly what one of them does. */
  lemma OneOf(a: string, b: string, i: nat, j: nat)
    requires 0 < i <= |a| && 0 < j <= |b|
    ensures Osa(a, b, i, j) <= Osa(a, b, i - 1, j) + 1 && Osa(a, b, i, j) <= Osa(a, b, i, j - 1) + 1
    ensures Osa(a, b, i, j) <= Osa(a, b, i - 1, j - 1) + Change(a, b, i, j)
    ensures Swaps(a, b, i, j) ==> Osa(a, b, i, j) <= Osa(a, b, i - 2, j - 2) + 1
    ensures
      || Osa(a, b, i, j) == Osa(a, b, i - 1, j) + 1 || Osa(a, b, i, j) == Osa(a, b, i, j - 1) + 1
      || Osa(a, b, i, j) == Osa(a, b, i - 1, j - 1) + Change(a, b, i, j)
      || (Swaps(a, b, i, j) && Osa(a, b, i, j) == Osa(a, b, i - 2, j - 2) + 1)
  {
  }

  lemma SwapsTwo(a: string, b: string, i: nat, j: nat)
    requires i <= |a| && j <= |b|
    ensures Swaps(a, b, i, j) ==> i > 1 && j > 1
    ensures Swaps(a, b, i, j) == Swaps(b, a, j, i)
  {
  }

  lemma Edges(a: string, b: string, i: nat, j: nat)
    requires i <= |a| && j <= |b|
    ensures i == 0 ==> Osa(a, b, i, j) == j
    ensures j == 0 ==> Osa(a, b, i, j) == i
  {
  }

  function Distance(a: string, b: string): nat {
    Osa(a, b, |a|, |b|)
  }

  // --------------------------------------------------------------------------
  // What the distance is: the least cost of an edit script
  // --------------------------------------------------------------------------

  datatype Edit = Keep | Substitute | Insert | Delete | Swap

  /** Whether a script turns a[..i] into b[..j], read from its end; no edit touches what another left. */
  predicate Aligns(a: string, b: string, i: nat, j: nat, script: seq<Edit>)
    requires i <= |a| && j <= |b|
    decreases |script|
  {
    if script == [] then i == 0 && j == 0
    else
      var rest := script[..|script| - 1];
      match script[|script| - 1]
      case Keep => i > 0 && j > 0 && a[i - 1] == b[j - 1] && Aligns(a, b, i - 1, j - 1, rest)
      case Substitute => i > 0 && j > 0 && Aligns(a, b, i - 1, j - 1, rest)
      case Insert => j > 0 && Aligns(a, b, i, j - 1, rest)
      case Delete => i > 0 && Aligns(a, b, i - 1, j, rest)
      case Swap => Swaps(a, b, i, j) && Aligns(a, b, i - 2, j - 2, rest)
  }

  function Cost(script: seq<Edit>): nat {
    if script == [] then 0 else Cost(script[..|script| - 1]) + if script[|script| - 1].Keep? then 0 else 1
  }

  lemma {:induction false} NoScriptIsCheaper(a: string, b: string, i: nat, j: nat, script: seq<Edit>)
    requires i <= |a| && j <= |b| && Aligns(a, b, i, j, script)
    ensures Osa(a, b, i, j) <= Cost(script)
    decreases |script|
  {
    hide Osa;
    Edges(a, b, i, j);
    if script != [] {
      if i > 0 && j > 0 { OneOf(a, b, i, j); }
      if i > 0 { Edges(a, b, i - 1, j); }
      if j > 0 { Edges(a, b, i, j - 1); }
      var rest := script[..|script| - 1];
      match script[|script| - 1]
      case Keep => NoScriptIsCheaper(a, b, i - 1, j - 1, rest);
      case Substitute => NoScriptIsCheaper(a, b, i - 1, j - 1, rest);
      case Insert => NoScriptIsCheaper(a, b, i, j - 1, rest);
      case Delete => NoScriptIsCheaper(a, b, i - 1, j, rest);
      case Swap => NoScriptIsCheaper(a, b, i - 2, j - 2, rest);
    }
  }

  lemma {:induction false} ScriptOfThatCost(a: string, b: string, i: nat, j: nat) returns (script: seq<Edit>)
    requires i <= |a| && j <= |b|
    ensures Aligns(a, b, i, j, script) && Cost(script) == Osa(a, b, i, j)
  {
    hide Osa;
    var last: Edit;
    Edges(a, b, i, j);
    if i > 0 && j > 0 { OneOf(a, b, i, j); }
    if i > 0 { Edges(a, b, i - 1, j); }
    if j > 0 { Edges(a, b, i, j - 1); }
    if i == 0 && j == 0 {
      return [];
    } else if j == 0 || (i > 0 && Osa(a, b, i, j) == Osa(a, b, i - 1, j) + 1) {
      script := ScriptOfThatCost(a, b, i - 1, j);
      last := Delete;
    } else if i == 0 || Osa(a, b, i, j) == Osa(a, b, i, j - 1) + 1 {
      script := ScriptOfThatCost(a, b, i, j - 1);
      last := Insert;
    } else if Osa(a, b, i, j) == Osa(a, b, i - 1, j - 1) + Change(a, b, i, j) {
      script := ScriptOfThatCost(a, b, i - 1, j - 1);
      last := if a[i - 1] == b[j - 1] then Keep else Substitute;
    } else {
      script := ScriptOfThatCost(a, b, i - 2, j - 2);
      last := Swap;
    }
    assert (script + [last])[..|script|] == script;
    script := script + [last];
  }

  // --------------------------------------------------------------------------
  // Bounds on it
  // --------------------------------------------------------------------------

  lemma {:induction false} AtLeastTheGap(a: string, b: string, i: nat, j: nat)
    requires i <= |a| && j <= |b|
    ensures Osa(a, b, i, j) >= Gap(i, j)
  {
    hide Osa, Swaps;
    Edges(a, b, i, j);
    if i > 0 && j > 0 {
      OneOf(a, b, i, j);
      assert Swaps(a, b, i, j) ==> i > 1 && j > 1 by { SwapsTwo(a, b, i, j); }
      AtLeastTheGap(a, b, i - 1, j);
      AtLeastTheGap(a, b, i, j - 1);
      AtLeastTheGap(a, b, i - 1, j - 1);
      if Swaps(a, b, i, j) { AtLeastTheGap(a, b, i - 2, j - 2); }
    }
  }

  /** `part` stands in `whole` from `at` on. */
  predicate StandsAt(whole: string, part: string, at: nat) {
    at + |part| <= |whole| && whole[at..at + |part|] == part
  }

  lemma {:induction false} DeletingAround(whole: string, part: string, at: nat, i: nat, j: nat)
    requires StandsAt(whole, part, at) && at + j <= i <= |whole| && j <= |part|
    ensures Osa(whole, part, i, j) <= i - j
    decreases i
  {
    hide Osa, Swaps;
    Edges(whole, part, i, j);
    if i > 0 && j > 0 {
      OneOf(whole, part, i, j);
      if i > at + j {
        DeletingAround(whole, part, at, i - 1, j);
      } else {
        assert whole[at..at + |part|][j - 1] == part[j - 1];
        DeletingAround(whole, part, at, i - 1, j - 1);
      }
    }
  }

  lemma {:induction false} Symmetric(a: string, b: string, i: nat, j: nat)
    requires i <= |a| && j <= |b|
    ensures Osa(a, b, i, j) == Osa(b, a, j, i)
  {
    hide Osa, Swaps;
    Edges(a, b, i, j);
    Edges(b, a, j, i);
    if i > 0 && j > 0 {
      OneOf(a, b, i, j);
      OneOf(b, a, j, i);
      Symmetric(a, b, i - 1, j);
      Symmetric(a, b, i, j - 1);
      Symmetric(a, b, i - 1, j - 1);
      SwapsTwo(a, b, i, j);
      if Swaps(a, b, i, j) { Symmetric(a, b, i - 2, j - 2); }
    }
  }

  /** Where one name holds the other, their distance is the difference of their lengths. */
  lemma ContainedIsTheGap(a: string, b: string, at: nat)
    requires StandsAt(a, b, at) || StandsAt(b, a, at)
    ensures Distance(a, b) == Gap(|a|, |b|)
  {
    AtLeastTheGap(a, b, |a|, |b|);
    if StandsAt(a, b, at) {
      DeletingAround(a, b, at, |a|, |b|);
    } else {
      DeletingAround(b, a, at, |b|, |a|);
      Symmetric(a, b, |a|, |b|);
    }
  }

  // --------------------------------------------------------------------------
  // The table, a row at a time
  // --------------------------------------------------------------------------

  /** No row's smallest entry is below the one before it, transpositions included. */
  lemma {:induction false} RowNoSmaller(a: string, b: string, i: nat, j: nat) returns (k: nat)
    requires i < |a| && j <= |b|
    ensures k <= |b| && Osa(a, b, i, k) <= Osa(a, b, i + 1, j)
    decreases j
  {
    hide Osa, Swaps;
    Edges(a, b, i, 0);
    Edges(a, b, i + 1, 0);
    if j == 0 {
      k := 0;
    } else {
      OneOf(a, b, i + 1, j);
      SwapsTwo(a, b, i + 1, j);
      if Osa(a, b, i + 1, j) == Osa(a, b, i, j) + 1 {
        k := j;
      } else if Osa(a, b, i + 1, j) == Osa(a, b, i + 1, j - 1) + 1 {
        k := RowNoSmaller(a, b, i, j - 1);
      } else {
        k := j - 1;
        if Swaps(a, b, i + 1, j) { OneOf(a, b, i, j - 1); }
      }
    }
  }

  ghost predicate RowPast(a: string, b: string, i: nat, limit: nat)
    requires i <= |a|
  {
    forall j | 0 <= j <= |b| :: Osa(a, b, i, j) > limit
  }

  lemma {:induction false} RowsStayPast(a: string, b: string, i: nat, n: nat, limit: nat)
    requires i <= n <= |a| && RowPast(a, b, i, limit)
    ensures RowPast(a, b, n, limit)
    decreases n
  {
    if i < n {
      RowsStayPast(a, b, i, n - 1, limit);
      forall j | 0 <= j <= |b| ensures Osa(a, b, n, j) > limit {
        var k := RowNoSmaller(a, b, n - 1, j);
      }
    }
  }

  ghost predicate IsRow(row: seq<nat>, a: string, b: string, i: nat, n: nat)
    requires i <= |a| && n <= |b| + 1
  {
    |row| == n && forall j | 0 <= j < n :: row[j] == Osa(a, b, i, j)
  }

  lemma RowStarts(a: string, b: string, i: nat)
    requires i <= |a|
    ensures Osa(a, b, i, 0) == i
  {
  }

  lemma EntryIs(a: string, b: string, i: nat, j: nat, value: int, before: seq<nat>, previous: seq<nat>,
    current: seq<nat>)
    requires 1 <= i <= |a| && 1 <= j <= |b| && IsRow(previous, a, b, i - 1, |b| + 1)
      && (i > 1 ==> IsRow(before, a, b, i - 2, |b| + 1))
    requires IsRow(current, a, b, i, j)
    requires
      var others := Min(Min(previous[j] + 1, current[j - 1] + 1),
        previous[j - 1] + if a[i - 1] == b[j - 1] then 0 else 1);
      value == if Swaps(a, b, i, j) then Min(others, before[j - 2] + 1) else others
    ensures value == Osa(a, b, i, j) && value >= 0
  {
  }

  /** One row of the table, from the two before it, and its smallest entry. */
  method NextRow(a: string, b: string, i: nat, before: seq<nat>, previous: seq<nat>)
    returns (current: seq<nat>, best: nat)
    requires 1 <= i <= |a| && IsRow(previous, a, b, i - 1, |b| + 1) && (i > 1 ==> IsRow(before, a, b, i - 2, |b| + 1))
    ensures IsRow(current, a, b, i, |b| + 1)
    ensures best in current && forall j | 0 <= j <= |b| :: best <= current[j]
  {
    hide Osa;
    assert Osa(a, b, i, 0) == i by { RowStarts(a, b, i); }
    current, best := [i], i;
    for j := 1 to |b| + 1
      invariant IsRow(current, a, b, i, j)
      invariant best in current && forall k | 0 <= k < j :: best <= current[k]
    {
      var cost := if a[i - 1] == b[j - 1] then 0 else 1;
      var value := Min(Min(previous[j] + 1, current[j - 1] + 1), previous[j - 1] + cost);
      if i > 1 && j > 1 && a[i - 1] == b[j - 2] && a[i - 2] == b[j - 1] { value := Min(value, before[j - 2] + 1); }
      EntryIs(a, b, i, j, value, before, previous, current);
      current := current + [value];
      best := Min(best, value);
    }
  }

  /**
   The distance where it is at most `limit`, and otherwise some answer past it, mostly `limit + 1` as soon as that is
   sure.
   */
  method EditDistanceWithin(a: string, b: string, limit: nat) returns (answer: nat)
    ensures answer <= limit <==> Distance(a, b) <= limit
    ensures answer == Distance(a, b) || answer == limit + 1
  {
    AtLeastTheGap(a, b, |a|, |b|);
    if Gap(|a|, |b|) > limit { return limit + 1; }
    var before: seq<nat> := [];
    var previous: seq<nat> := seq(|b| + 1, j requires 0 <= j <= |b| => j);
    for i := 1 to |a| + 1
      invariant IsRow(previous, a, b, i - 1, |b| + 1) && (i > 1 ==> IsRow(before, a, b, i - 2, |b| + 1))
    {
      var current, best := NextRow(a, b, i, before, previous);
      if best > limit {
        RowsStayPast(a, b, i, |a|, limit);
        return limit + 1;
      }
      before, previous := previous, current;
    }
    return previous[|b|];
  }

  // --------------------------------------------------------------------------
  // A slip, or another name
  // --------------------------------------------------------------------------

  /** How far two names agree, from where they are known to. */
  function Shared(a: string, b: string, from: nat): (shared: nat)
    requires from <= |a| && from <= |b|
    ensures from <= shared <= |a| && shared <= |b| && forall k | from <= k < shared :: a[k] == b[k]
    ensures shared < |a| && shared < |b| ==> a[shared] != b[shared]
    decreases |a| - from
  {
    if from < |a| && from < |b| && a[from] == b[from] then Shared(a, b, from + 1) else from
  }

  /**
   The most edits that still read as a slip: a quarter of what follows the prefix the names share, and at least one.
   */
  function Noise(a: string, b: string): nat {
    Max(1, (Max(|a|, |b|) - Shared(a, b, 0)) / 4)
  }

  method NoiseLimit(a: string, b: string) returns (limit: nat)
    ensures limit == Noise(a, b)
  {
    var shared := 0;
    while shared < |a| && shared < |b| && a[shared] == b[shared]
      invariant shared <= |a| && shared <= |b| && Shared(a, b, 0) == Shared(a, b, shared)
    {
      shared := shared + 1;
    }
    return Max(1, (Max(|a|, |b|) - shared) / 4);
  }

  ghost predicate Holds(whole: string, part: string) {
    exists at :: 0 <= at <= |whole| && StandsAt(whole, part, at)
  }

  method Includes(whole: string, part: string) returns (r: bool)
    ensures r <==> Holds(whole, part)
  {
    for at := 0 to |whole| + 1
      invariant forall k | 0 <= k < at :: !StandsAt(whole, part, k)
    {
      if at + |part| <= |whole| && whole[at..at + |part|] == part {
        assert StandsAt(whole, part, at);
        return true;
      }
    }
    return false;
  }

  /** Whether a name, as folded, is the same as a candidate, a part of it, or within the edits a slip allows. */
  method IsNearMiss(a: string, b: string) returns (near: bool)
    ensures near <==> (|a| >= 3 && Holds(b, a)) || Distance(a, b) <= Noise(a, b)
  {
    if |a| >= 3 {
      var part := Includes(b, a);
      if part { return true; }
    }
    var limit := NoiseLimit(a, b);
    var edits := EditDistanceWithin(a, b, limit);
    return edits <= limit;
  }
}
