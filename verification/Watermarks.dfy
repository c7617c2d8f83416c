/**
 The consumed watermark of src/agent.ts: marks taken at tool boundaries and by
 overlapping compiles, each compile's taken before it awaits and applied when it
 returns.
 */
module Watermarks {
  import opened Options
  import opened Audience
  import opened Windows
  import opened WindowRuns
  import opened ReadMarks

  /**
   A committing compile under way: the mark it took (None where reading threw), and how many marks were made before it.
   */
  datatype Compile = Compile(watermark: Option<Mark>, marksBefore: nat)

  datatype Agent = Agent(consumed: Option<Mark>, marks: nat)

  /** Whether a compile's mark, older than one made while it ran, is left unapplied. */
  predicate Superseded(agent: Agent, watermark: Mark, marksBefore: nat) {
    && agent.marks != marksBefore
    && agent.consumed.Some?
    && (agent.consumed.value.branch != watermark.branch || AtOrAfter(agent.consumed.value, watermark))
  }

  function Consumed(agent: Agent, mark: Option<Mark>): Agent {
    Agent(mark, agent.marks + 1)
  }

  function Finished(agent: Agent, c: Compile): Agent {
    match c.watermark
    case None => agent
    case Some(m) => if Superseded(agent, m, c.marksBefore) then agent else Consumed(agent, Some(m))
  }

  /** The agent's own fields, as its methods move them. */
  class AgentWatermarks {
    var consumedWatermark: Option<Mark>
    var watermarkMarks: nat

    function State(): Agent
      reads this
    {
      Agent(consumedWatermark, watermarkMarks)
    }

    constructor ()
      ensures State() == Agent(None, 0)
    {
      consumedWatermark, watermarkMarks := None, 0;
    }

    method MarkContextConsumed(now: Option<Mark>)
      modifies this
      ensures State() == Consumed(old(State()), now)
    {
      consumedWatermark := now;
      watermarkMarks := watermarkMarks + 1;
    }

    method BeginCompile(now: Option<Mark>) returns (c: Compile)
      ensures c == Compile(now, State().marks)
    {
      c := Compile(now, watermarkMarks);
    }

    /** A compile that threw assembled nothing, so it applies nothing. */
    method EndCompile(c: Compile, threw: bool)
      modifies this
      ensures State() == if threw then old(State()) else Finished(old(State()), c)
    {
      if !threw && c.watermark.Some? {
        ApplyCompileWatermark(c.watermark.value, c.marksBefore);
      }
    }

    method ApplyCompileWatermark(watermark: Mark, marksBefore: nat)
      modifies this
      ensures State() == Finished(old(State()), Compile(Some(watermark), marksBefore))
    {
      if watermarkMarks != marksBefore && consumedWatermark.Some? {
        var current := consumedWatermark.value;
        if current.branch != watermark.branch || AtOrAfter(current, watermark) { return; }
      }
      consumedWatermark := Some(watermark);
      watermarkMarks := watermarkMarks + 1;
    }
  }

  // --------------------------------------------------------------------------
  // Runs
  // --------------------------------------------------------------------------

  /** `past` is every value the consumed watermark was given, in order; `taken` every mark ever taken. */
  datatype World = World(
    branch: string, windows: map<string, Window>, agent: Agent, running: map<nat, Compile>,
    past: seq<Option<Mark>>, taken: set<Mark>)

  datatype Event =
    | Grow(step: WindowStep)
    | Move(branch: string, window: Window)
    | Boundary(read: bool)
    | Begin(id: nat, read: bool)
    | End(id: nat)
    | Fail(id: nat)

  ghost predicate CanHappen(w: World, e: Event)
    requires WindowsOk(w)
  {
    match e
    case Grow(step) => CanStep(w.windows[w.branch], step)
    case Move(b, window) => Ok(window) && (b in w.windows ==> window == w.windows[b])
    case Boundary(_) => true
    case Begin(id, _) => id !in w.running
    case End(id) => id in w.running
    case Fail(id) => id in w.running
  }

  ghost predicate WindowsOk(w: World) {
    w.branch in w.windows && forall b | b in w.windows :: Ok(w.windows[b])
  }

  /** The mark readMarkOf takes now, or None where reading throws. */
  function Now(w: World, read: bool): Option<Mark>
    requires w.branch in w.windows
  {
    if read then Some(ReadMarkOf(w.branch, w.windows[w.branch])) else None
  }

  function Took(w: World, m: Option<Mark>): set<Mark> {
    w.taken + if m.Some? then {m.value} else {}
  }

  function WithAgent(w: World, agent: Agent): World {
    if agent == w.agent then w else w.(agent := agent, past := w.past + [agent.consumed])
  }

  ghost function Next(w: World, e: Event): World
    requires WindowsOk(w) && CanHappen(w, e)
  {
    match e
    case Grow(step) => w.(windows := w.windows[w.branch := Step(w.windows[w.branch], step)])
    case Move(b, window) => w.(branch := b, windows := w.windows[b := window])
    case Boundary(read) => WithAgent(w.(taken := Took(w, Now(w, read))), Consumed(w.agent, Now(w, read)))
    case Begin(id, read) =>
      w.(running := w.running[id := Compile(Now(w, read), w.agent.marks)], taken := Took(w, Now(w, read)))
    case End(id) => WithAgent(w.(running := w.running - {id}), Finished(w.agent, w.running[id]))
    case Fail(id) => w.(running := w.running - {id})
  }

  // --------------------------------------------------------------------------
  // Marks of one branch are ordered by when they were taken
  // --------------------------------------------------------------------------

  predicate AtMost(a: Mark, b: Mark) {
    a.branch == b.branch && a.head <= b.head && (a.length.Some? ==> b.length.Some? && a.length.value <= b.length.value)
  }

  ghost predicate TakenOk(w: World) {
    && (forall m | m in w.taken :: m.branch in w.windows && AtMost(m, ReadMarkOf(m.branch, w.windows[m.branch])))
    && (forall a, b | a in w.taken && b in w.taken && a.branch == b.branch :: AtMost(a, b) || AtMost(b, a))
    && (forall i | 0 <= i < |w.past| :: w.past[i].Some? ==> w.past[i].value in w.taken)
    && (forall id | id in w.running && w.running[id].watermark.Some? :: w.running[id].watermark.value in w.taken)
  }

  /** Since `i` the watermark was always known. */
  ghost predicate KnownSince(past: seq<Option<Mark>>, i: nat) {
    forall k | i <= k < |past| :: past[k].Some?
  }

  ghost predicate PastOk(w: World) {
    && (w.past == [] ==> w.agent.consumed == None)
    && (w.past != [] ==> w.agent.consumed == w.past[|w.past| - 1])
    && (forall i | 0 <= i < |w.past| && KnownSince(w.past, i)
      && w.past[i].value.branch == w.agent.consumed.value.branch ::
          AtMost(w.past[i].value, w.agent.consumed.value))
  }

  /** A compile that began after the last mark was made took a mark past all of its branch's. */
  ghost predicate RunningOk(w: World) {
    forall id | id in w.running ::
      && w.running[id].marksBefore <= w.agent.marks
      && (w.running[id].marksBefore == w.agent.marks && w.running[id].watermark.Some? ==>
           forall i | 0 <= i < |w.past| && w.past[i].Some?
             && w.past[i].value.branch == w.running[id].watermark.value.branch ::
             AtMost(w.past[i].value, w.running[id].watermark.value))
  }

  ghost predicate Inv(w: World) {
    WindowsOk(w) && TakenOk(w) && PastOk(w) && RunningOk(w)
  }

  /** Two known values of one branch with nothing unknown between: the later is at or past the earlier. */
  ghost predicate NeverMovesBack(past: seq<Option<Mark>>) {
    forall i, j | 0 <= i < j < |past| && (forall k | i <= k <= j :: past[k].Some?)
      && past[i].value.branch == past[j].value.branch ::
      AtMost(past[i].value, past[j].value) && AtOrAfter(past[j].value, past[i].value)
  }

  lemma NowIsPastAll(w: World, read: bool)
    requires Inv(w)
    ensures TakenOk(w.(taken := Took(w, Now(w, read))))
    ensures Now(w, read).Some? ==> forall m | m in w.taken && m.branch == w.branch :: AtMost(m, Now(w, read).value)
  {
  }

  ghost predicate PastAll(w: World, m: Mark) {
    forall i | 0 <= i < |w.past| && w.past[i].Some? && w.past[i].value.branch == m.branch :: AtMost(w.past[i].value, m)
  }

  lemma Appended(w: World, m: Mark)
    requires PastOk(w) && NeverMovesBack(w.past)
    requires PastAll(w, m) || w.agent.consumed.None? || AtMost(w.agent.consumed.value, m)
    ensures NeverMovesBack(w.past + [Some(m)])
    ensures forall i | 0 <= i < |w.past| && KnownSince(w.past, i) && w.past[i].value.branch == m.branch ::
      AtMost(w.past[i].value, m)
  {
    var n := |w.past|;
    forall i | 0 <= i < n && KnownSince(w.past, i) && w.past[i].value.branch == m.branch
      ensures AtMost(w.past[i].value, m)
    {
      assert w.past[n - 1].Some?;
    }
    var past := w.past + [Some(m)];
    forall i, j | 0 <= i < j < |past| && (forall k | i <= k <= j :: past[k].Some?)
      && past[i].value.branch == past[j].value.branch
      ensures AtMost(past[i].value, past[j].value) && AtOrAfter(past[j].value, past[i].value)
    {
      if j < n {
        assert forall k | i <= k <= j :: w.past[k] == past[k];
      } else {
        forall k | i <= k < n ensures w.past[k].Some? { assert past[k] == w.past[k]; }
        assert KnownSince(w.past, i);
      }
    }
  }

  lemma ConsumedOk(w: World, m: Mark)
    requires Inv(w) && NeverMovesBack(w.past) && m in w.taken
    requires PastAll(w, m) || w.agent.consumed.None? || AtMost(w.agent.consumed.value, m)
    ensures var v := WithAgent(w, Consumed(w.agent, Some(m))); Inv(v) && NeverMovesBack(v.past)
  {
    Appended(w, m);
    var v := WithAgent(w, Consumed(w.agent, Some(m)));
    forall i | 0 <= i < |v.past| && KnownSince(v.past, i) && v.past[i].value.branch == m.branch
      ensures AtMost(v.past[i].value, m)
    {
      if i < |w.past| {
        forall k | i <= k < |w.past| ensures w.past[k].Some? { assert v.past[k] == w.past[k]; }
        assert KnownSince(w.past, i);
      }
    }
  }

  lemma UnknownOk(w: World)
    requires Inv(w) && NeverMovesBack(w.past)
    ensures var v := WithAgent(w, Consumed(w.agent, None)); Inv(v) && NeverMovesBack(v.past)
  {
    var v := WithAgent(w, Consumed(w.agent, None));
    assert v.past[|w.past|] == None;
    forall i, j | 0 <= i < j < |v.past| && (forall k | i <= k <= j :: v.past[k].Some?)
      && v.past[i].value.branch == v.past[j].value.branch
      ensures AtMost(v.past[i].value, v.past[j].value) && AtOrAfter(v.past[j].value, v.past[i].value)
    {
      assert j < |w.past|;
      assert forall k | i <= k <= j :: w.past[k] == v.past[k];
    }
  }

  lemma GrowOk(w: World, step: WindowStep)
    requires Inv(w) && CanStep(w.windows[w.branch], step)
    ensures Inv(Next(w, Grow(step)))
  {
    hide Ok, CanStep, PastOk, RunningOk;
    var a := w.windows[w.branch];
    var b := Step(a, step);
    assert a.head <= b.head && a.length <= b.length && (a.presented ==> b.presented) by { StepGrew(a, step); }
    var v := Next(w, Grow(step));
    forall m | m in v.taken ensures m.branch in v.windows && AtMost(m, ReadMarkOf(m.branch, v.windows[m.branch])) {
      assert AtMost(m, ReadMarkOf(m.branch, w.windows[m.branch]));
    }
    assert PastOk(v) && RunningOk(v) by { SameAgent(w, v); }
  }

  lemma SameAgent(w: World, v: World)
    requires PastOk(w) && RunningOk(w) && v.past == w.past && v.agent == w.agent && v.running == w.running
    ensures PastOk(v) && RunningOk(v)
  {
  }

  lemma EndOk(w: World, id: nat)
    requires Inv(w) && NeverMovesBack(w.past) && id in w.running
    ensures Inv(Next(w, End(id))) && NeverMovesBack(Next(w, End(id)).past)
  {
    hide NeverMovesBack, Ok, AtMost;
    var v, c := w.(running := w.running - {id}), w.running[id];
    assert Inv(v);
    if c.watermark.Some? && !Superseded(w.agent, c.watermark.value, c.marksBefore) {
      var m := c.watermark.value;
      assert m in w.taken;
      if c.marksBefore == w.agent.marks {
        assert PastAll(w, m);
      } else if w.agent.consumed.Some? {
        assert w.past != [] && w.agent.consumed.value in w.taken;
        AheadOfMark(w.agent.consumed.value, m);
      }
      ConsumedOk(v, m);
    }
  }

  lemma AheadOfMark(current: Mark, m: Mark)
    requires current.branch == m.branch && !AtOrAfter(current, m) && (AtMost(current, m) || AtMost(m, current))
    ensures AtMost(current, m)
  {
  }

  lemma BoundaryOk(w: World, read: bool)
    requires Inv(w) && NeverMovesBack(w.past)
    ensures Inv(Next(w, Boundary(read))) && NeverMovesBack(Next(w, Boundary(read)).past)
  {
    hide NeverMovesBack, Ok, AtMost;
    NowIsPastAll(w, read);
    var v := w.(taken := Took(w, Now(w, read)));
    SameAgent(w, v);
    if read { ConsumedOk(v, Now(w, read).value); } else { UnknownOk(v); }
  }

  lemma BeginOk(w: World, id: nat, read: bool)
    requires Inv(w) && id !in w.running
    ensures Inv(Next(w, Begin(id, read)))
  {
    hide NeverMovesBack, Ok, AtMost;
    NowIsPastAll(w, read);
    var v := Next(w, Begin(id, read));
    assert TakenOk(v.(running := w.running));
  }

  lemma NextOk(w: World, e: Event)
    requires Inv(w) && NeverMovesBack(w.past) && CanHappen(w, e)
    ensures Inv(Next(w, e)) && NeverMovesBack(Next(w, e).past)
  {
    hide NeverMovesBack, Ok, AtMost;
    match e
    case Grow(step) => GrowOk(w, step);
    case Move(b, window) => SameAgent(w, Next(w, e));
    case Boundary(read) => BoundaryOk(w, read);
    case Begin(id, read) => BeginOk(w, id, read);
    case End(id) => EndOk(w, id);
    case Fail(id) =>
  }

  ghost predicate CanRunEvents(w: World, events: seq<Event>)
    requires Inv(w) && NeverMovesBack(w.past)
    decreases |events|
  {
    events == [] || (CanHappen(w, events[0]) && (NextOk(w, events[0]); CanRunEvents(Next(w, events[0]), events[1..])))
  }

  /**
   Over any interleaving of compile starts, ends and failures, tool-boundary marks and branch moves, the consumed
   watermark never moves back on a branch while it stays known.
   */
  ghost function RunEvents(w: World, events: seq<Event>): (v: World)
    requires Inv(w) && NeverMovesBack(w.past) && CanRunEvents(w, events)
    ensures Inv(v) && NeverMovesBack(v.past)
    decreases |events|
  {
    if events == [] then w else (NextOk(w, events[0]); RunEvents(Next(w, events[0]), events[1..]))
  }

  // --------------------------------------------------------------------------
  // What a compile has consumed
  // --------------------------------------------------------------------------

  /**
   A compile that ends with a mark leaves the watermark known: at that mark, or where another was made since it began,
   at one on another branch or no less far on its own.
   */
  lemma EndReaches(w: World, id: nat)
    requires Inv(w) && id in w.running && w.running[id].watermark.Some?
    ensures
      var v, m := Next(w, End(id)).agent.consumed, w.running[id].watermark.value;
      && v.Some?
      && (v.value == m || (w.agent.marks != w.running[id].marksBefore && v == w.agent.consumed
        && (v.value.branch != m.branch || AtOrAfter(v.value, m))))
  {
  }

  /** An event that makes no mark and leaves compile `id` running. */
  predicate Quiet(e: Event, id: nat) {
    e.Grow? || e.Move? || e.Begin? || (e.Fail? && e.id != id)
  }

  lemma {:induction false} QuietRun(w: World, events: seq<Event>, id: nat)
    requires Inv(w) && NeverMovesBack(w.past) && CanRunEvents(w, events) && id in w.running
    requires forall e | e in events :: Quiet(e, id)
    ensures var v := RunEvents(w, events); v.agent == w.agent && id in v.running && v.running[id] == w.running[id]
    decreases |events|
  {
    hide Inv, NeverMovesBack;
    if events != [] {
      NextOk(w, events[0]);
      WindowsAre(w);
      assert Quiet(events[0], id);
      QuietRun(Next(w, events[0]), events[1..], id);
    }
  }

  lemma WindowsAre(w: World)
    requires Inv(w)
    ensures WindowsOk(w)
  {
  }

  /** A compile that no other mark overlaps leaves consumed exactly what its window held when it began. */
  lemma QuietCompileIsConsumed(w: World, id: nat, events: seq<Event>)
    requires Inv(w) && NeverMovesBack(w.past) && id !in w.running
    requires (NextOk(w, Begin(id, true)); CanRunEvents(Next(w, Begin(id, true)), events))
    requires forall e | e in events :: Quiet(e, id)
    ensures
      (NextOk(w, Begin(id, true));
       var v := RunEvents(Next(w, Begin(id, true)), events);
       id in v.running && Next(v, End(id)).agent.consumed == Some(ReadMarkOf(w.branch, w.windows[w.branch])))
  {
    hide Inv, NeverMovesBack;
    NextOk(w, Begin(id, true));
    WindowsAre(w);
    QuietRun(Next(w, Begin(id, true)), events, id);
    WindowsAre(RunEvents(Next(w, Begin(id, true)), events));
  }

  // --------------------------------------------------------------------------
  // When it does move back
  // --------------------------------------------------------------------------

  /** Whether a mark ahead of `m` on its branch was consumed. */
  predicate AheadInPast(past: seq<Option<Mark>>, m: Mark) {
    exists i | 0 <= i < |past| && past[i].Some? :: past[i].value.branch == m.branch && !AtMost(past[i].value, m)
  }

  /**
   A compile that ends with a mark of its own, another mark having been made since it began, while the watermark is
   unknown: nothing is compared, so its mark is applied, behind one consumed before.
   */
  ghost predicate SetsItBack(w: World, e: Event)
    requires WindowsOk(w) && CanHappen(w, e)
  {
    e.End? && var c := w.running[e.id];
      c.watermark.Some? && w.agent.consumed.None? && c.marksBefore != w.agent.marks
        && AheadInPast(w.past, c.watermark.value)
  }

  /** Any two values known on one branch: the later is at or past the earlier, whatever was unknown between. */
  ghost predicate Monotone(past: seq<Option<Mark>>) {
    forall i, j | 0 <= i < j < |past| && past[i].Some? && past[j].Some?
      && past[i].value.branch == past[j].value.branch ::
      AtMost(past[i].value, past[j].value)
  }

  /** The step gives the watermark a value behind an earlier one of its branch that it wasn't behind already. */
  ghost predicate FallsBehind(w: World, v: World) {
    && v.past != w.past && v.agent.consumed.Some?
    && exists i | 0 <= i < |w.past| && w.past[i].Some? ::
      && w.past[i].value.branch == v.agent.consumed.value.branch && !AtMost(w.past[i].value, v.agent.consumed.value)
      && !IsBehind(w.agent, w.past[i].value)
  }

  predicate IsBehind(agent: Agent, m: Mark) {
    agent.consumed.Some? && agent.consumed.value.branch == m.branch && !AtMost(m, agent.consumed.value)
  }

  /**
   What a compile's end sets: nothing, a mark ahead of every one of its branch, or one ahead of the watermark alone.
   */
  lemma EndSets(w: World, id: nat)
    requires Inv(w) && id in w.running
    ensures
      var v, c := Next(w, End(id)), w.running[id];
      || (v.agent == w.agent && v.past == w.past)
      || (&& c.watermark.Some? && v.agent.consumed == c.watermark && v.past == w.past + [c.watermark]
          && (|| (c.marksBefore == w.agent.marks && !AheadInPast(w.past, c.watermark.value))
              || (c.marksBefore != w.agent.marks && w.agent.consumed.None?)
              || (&& c.marksBefore != w.agent.marks && w.agent.consumed.Some?
                && AtMost(w.agent.consumed.value, c.watermark.value))))
  {
    hide Ok, AtMost;
    var c := w.running[id];
    if c.watermark.Some? && !Superseded(w.agent, c.watermark.value, c.marksBefore) {
      var m := c.watermark.value;
      assert m in w.taken;
      if c.marksBefore != w.agent.marks && w.agent.consumed.Some? {
        assert w.past != [] && w.agent.consumed.value in w.taken;
        AheadOfMark(w.agent.consumed.value, m);
      }
    }
  }

  /**
   A compile's end sets the watermark behind an earlier value of its branch, one it wasn't behind already, exactly then.
   */
  lemma EndFallsBehind(w: World, id: nat)
    requires Inv(w) && id in w.running
    ensures FallsBehind(w, Next(w, End(id))) <==> SetsItBack(w, End(id))
  {
    hide TakenOk, PastOk, RunningOk;
    EndSets(w, id);
    var v, c := Next(w, End(id)), w.running[id];
    if c.watermark.Some? && v.past == w.past + [c.watermark] {
      assert v.past != w.past;
    }
  }

  lemma MonotoneWith(past: seq<Option<Mark>>, m: Option<Mark>)
    requires Monotone(past)
    ensures Monotone(past + [m]) <==> m.None? || !AheadInPast(past, m.value)
  {
    hide AtMost;
    var more := past + [m];
    if Monotone(more) {
      forall i | 0 <= i < |past| && past[i].Some? && m.Some? && past[i].value.branch == m.value.branch
        ensures AtMost(past[i].value, m.value)
      {
        assert more[i] == past[i] && more[|past|] == m;
      }
    } else {
      var i, j :| 0 <= i < j < |more| && more[i].Some? && more[j].Some? && more[i].value.branch == more[j].value.branch
        && !AtMost(more[i].value, more[j].value);
      assert j == |past|;
    }
  }

  /** Where it never moved back yet, a step moves it back exactly when it is such a compile's end. */
  lemma MovesBackThen(w: World, e: Event)
    requires Inv(w) && CanHappen(w, e) && Monotone(w.past)
    ensures Monotone(Next(w, e).past) <==> !SetsItBack(w, e)
  {
    hide Ok, AtMost, Monotone, AheadInPast;
    match e
    case Boundary(read) =>
      NowIsPastAll(w, read);
      MonotoneWith(w.past, Now(w, read));
      if read { NoneAhead(w, Now(w, read).value); }
    case End(id) =>
      EndSets(w, id);
      var c := w.running[id];
      if c.watermark.Some? {
        MonotoneWith(w.past, c.watermark);
        if w.agent.consumed.Some? && AtMost(w.agent.consumed.value, c.watermark.value) {
          AheadOfAll(w, c.watermark.value);
        }
      }
    case _ =>
  }

  lemma NoneAhead(w: World, m: Mark)
    requires Inv(w) && forall x | x in w.taken && x.branch == m.branch :: AtMost(x, m)
    ensures !AheadInPast(w.past, m)
  {
    hide AtMost;
  }

  /** A watermark that never moved back is ahead of every value of its branch, and so is what is ahead of it. */
  lemma AheadOfAll(w: World, m: Mark)
    requires PastOk(w) && Monotone(w.past) && w.agent.consumed.Some? && AtMost(w.agent.consumed.value, m)
    ensures !AheadInPast(w.past, m)
  {
    var n := |w.past| - 1;
    forall i | 0 <= i <= n && w.past[i].Some? && w.past[i].value.branch == m.branch ensures AtMost(w.past[i].value, m) {
      if i < n { assert AtMost(w.past[i].value, w.past[n].value); }
    }
  }

  /** Whether some step of a run is such a compile's end. */
  ghost predicate SetBackIn(w: World, events: seq<Event>)
    requires Inv(w) && NeverMovesBack(w.past) && CanRunEvents(w, events)
    decreases |events|
  {
    events != [] && (SetsItBack(w, events[0]) || (NextOk(w, events[0]); SetBackIn(Next(w, events[0]), events[1..])))
  }

  lemma {:induction false} StaysMovedBack(w: World, events: seq<Event>)
    requires Inv(w) && NeverMovesBack(w.past) && CanRunEvents(w, events) && !Monotone(w.past)
    ensures !Monotone(RunEvents(w, events).past)
    decreases |events|
  {
    hide TakenOk, PastOk, RunningOk, NeverMovesBack;
    if events != [] {
      NextOk(w, events[0]);
      PastOnlyGrows(w, events[0]);
      StaysMovedBack(Next(w, events[0]), events[1..]);
    }
  }

  lemma PastOnlyGrows(w: World, e: Event)
    requires WindowsOk(w) && CanHappen(w, e) && !Monotone(w.past)
    ensures !Monotone(Next(w, e).past)
  {
    hide Ok, AtMost;
    var v := Next(w, e);
    var i, j :| 0 <= i < j < |w.past| && w.past[i].Some? && w.past[j].Some?
      && w.past[i].value.branch == w.past[j].value.branch
      && !AtMost(w.past[i].value, w.past[j].value);
    assert v.past[i] == w.past[i] && v.past[j] == w.past[j];
  }

  /**
   Over any run, the watermark moves back on a branch, at last or at once, exactly where some compile of the run sets it
   back.
   */
  lemma {:induction false} MovesBackExactlyThen(w: World, events: seq<Event>)
    requires Inv(w) && NeverMovesBack(w.past) && CanRunEvents(w, events) && Monotone(w.past)
    ensures Monotone(RunEvents(w, events).past) <==> !SetBackIn(w, events)
    decreases |events|
  {
    hide TakenOk, PastOk, RunningOk, NeverMovesBack, Monotone, SetsItBack;
    if events != [] {
      NextOk(w, events[0]);
      MovesBackThen(w, events[0]);
      if SetsItBack(w, events[0]) {
        StaysMovedBack(Next(w, events[0]), events[1..]);
      } else {
        MovesBackExactlyThen(Next(w, events[0]), events[1..]);
      }
    }
  }

  function Start(branch: string, window: Window): World {
    World(branch, map[branch := window], Agent(None, 0), map[], [], {})
  }

  ghost predicate Linked(w: World, e: Event, v: World) {
    WindowsOk(w) && CanHappen(w, e) && v == Next(w, e)
  }

  /** One compile, and a boundary whose next mark can't be taken: the states this run goes through. */
  function Stage(branch: string, k: nat): World {
    var early, late := Mark(branch, 0, None), Mark(branch, 1, None);
    var before, after := map[branch := Window([], 0, 0, 0, false, [], 0, {})],
      map[branch := Window([], 0, 0, 1, false, [], 0, {})];
    var running := map[0 := Compile(Some(early), 0)];
    match k
    case 0 => Start(branch, before[branch])
    case 1 => World(branch, before, Agent(None, 0), running, [], {early})
    case 2 => World(branch, after, Agent(None, 0), running, [], {early})
    case 3 => World(branch, after, Agent(Some(late), 1), running, [Some(late)], {early, late})
    case 4 => World(branch, after, Agent(None, 2), running, [Some(late), None], {early, late})
    case _ => World(branch, after, Agent(Some(early), 3), map[], [Some(late), None, Some(early)], {early, late})
  }

  lemma Stages(branch: string)
    ensures Linked(Stage(branch, 0), Begin(0, true), Stage(branch, 1))
    ensures Linked(Stage(branch, 1), Grow(Touch), Stage(branch, 2))
    ensures Linked(Stage(branch, 2), Boundary(true), Stage(branch, 3))
  {
  }

  lemma LastStages(branch: string)
    ensures Linked(Stage(branch, 3), Boundary(false), Stage(branch, 4))
    ensures Linked(Stage(branch, 4), End(0), Stage(branch, 5))
  {
  }

  /**
   Where a mark couldn't be taken the watermark is unknown, and a compile that began before the marks then applies its
   own, behind one consumed since.
   */
  lemma UnknownLetsItMoveBack(branch: string) returns (events: seq<Event>)
    ensures Stage(branch, 0) == Start(branch, Window([], 0, 0, 0, false, [], 0, {}))
    ensures forall i | 0 <= i < |events| :: Linked(Stage(branch, i), events[i], Stage(branch, i + 1))
    ensures
      var past := Stage(branch, |events|).past;
      && |past| == 3 && past[0].Some? && past[2].Some?
      && past[0].value.branch == past[2].value.branch && !AtOrAfter(past[2].value, past[0].value)
  {
    hide Linked;
    events := [Begin(0, true), Grow(Touch), Boundary(true), Boundary(false), End(0)];
    Stages(branch);
    LastStages(branch);
  }
}
