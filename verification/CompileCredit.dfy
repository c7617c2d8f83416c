/**
 Compile credit, src/agent.ts: overlapping asynchronous compiles at the live
 budget, budget changes and descents, and which compile's outcome speaks for
 the live budget. A compile's start, its outcome and its clean-up are separate
 steps, so they interleave with each other and with every budget change.
 */
module CompileCredit {
  import opened Options

  const DEFAULT_CONTEXT_BUDGET_TOKENS: nat := 100_000

  /** What a compile outcome showed of the budget it planned at, and the live budget's epoch it is of. */
  datatype Noted = Noted(budget: nat, fit: bool, epoch: nat)

  /** What a compile reads as it starts. */
  datatype Plan = Plan(live: nat, epoch: nat, descent: nat)

  /**
   Whether an entry for a compile that started as the `start`th can turn away one still running: one that started no
   later.
   */
  predicate CanTurnAway(start: nat, running: set<nat>) {
    exists r | r in running :: r <= start
  }

  datatype Credit = Credit(
    budget: Option<nat>, target: Option<nat>, liveBudgetEpoch: nat, descentEpoch: nat, lastCompiled: Option<Noted>,
    compilesStarted: nat, compilesRunning: set<nat>, latestEndedStart: map<nat, nat>, restoredAtOnce: bool)
  {
    function Live(): nat {
      budget.Or(DEFAULT_CONTEXT_BUDGET_TOKENS)
    }

    /** getProvenContextBudgetTokens. */
    function Proven(): Option<nat> {
      if lastCompiled.Some? && lastCompiled.value.fit && lastCompiled.value.epoch == liveBudgetEpoch
      then Some(lastCompiled.value.budget) else None
    }

    function SetContextBudget(next: Option<nat>, nextTarget: Option<nat>, armed: bool): Credit {
      this.(budget := next, target := nextTarget,
            liveBudgetEpoch := if next != budget then liveBudgetEpoch + 1 else liveBudgetEpoch,
            descentEpoch := if armed || nextTarget != target then descentEpoch + 1 else descentEpoch)
    }

    /** claimLatestAt's answer. */
    predicate Claims(at: nat, started: nat) {
      at !in latestEndedStart || started >= latestEndedStart[at]
    }

    function Claim(at: nat, started: nat): Credit {
      if Claims(at, started) then this.(latestEndedStart := latestEndedStart[at := started]) else this
    }

    function Note(noted: Noted): Credit {
      if noted.epoch == liveBudgetEpoch then this.(lastCompiled := Some(noted)) else this
    }

    /** Whether a compile that ends now settles a descent: its window is prepared. */
    predicate Settles(prepared: bool) {
      target.Some? && prepared
    }

    function Settle(prepared: bool): Credit {
      if Settles(prepared) then SetContextBudget(target, None, false) else this
    }

    /**
     updateRuntimeSettings' budget: at once when it is no smaller or asked for at once, else a descent where the
     strategy can prepare one.
     */
    function Update(next: nat, immediate: bool, hot: bool): Option<Credit> {
      if next >= Live() || immediate then Some(SetContextBudget(Some(next), None, false).(restoredAtOnce := false))
      else if !hot then None
      else Some(SetContextBudget(budget, Some(next), true).(restoredAtOnce := false))
    }

    /** resetRuntimeSettings of the budget, to the recipe's. */
    function Reset(configured: Option<nat>, hot: bool): Option<Credit> {
      var recipe := configured.Or(DEFAULT_CONTEXT_BUDGET_TOKENS);
      if recipe >= Live() then Some(SetContextBudget(configured, None, false).(restoredAtOnce := false))
      else if !hot then None
      else Some(SetContextBudget(budget, Some(recipe), true).(restoredAtOnce := false))
    }

    function Cancel(): Credit {
      if target.Some? then SetContextBudget(budget, None, false) else this
    }

    function Begun(): Credit {
      this.(compilesStarted := compilesStarted + 1, compilesRunning := compilesRunning + {compilesStarted + 1})
    }

    function PlanNow(): Plan {
      Plan(Live(), liveBudgetEpoch, descentEpoch)
    }

    /** A refused compile's outcome, and the paced restore that a budget applied at once at boot falls back to. */
    function Refused(p: Plan, started: nat, configured: Option<nat>, hot: bool): Credit {
      var noted := if Claims(p.live, started) then Claim(p.live, started).Note(Noted(p.live, false, p.epoch)) else this;
      if !restoredAtOnce then noted
      else
        var back := noted.(restoredAtOnce := false).SetContextBudget(configured, None, false);
        back.Update(p.live, false, hot).Or(back)
    }

    /** A compile that ended with a fit. */
    function Fit(p: Plan, started: nat, prepared: bool): Credit {
      var latest := Claims(p.live, started);
      var claimed := this.(restoredAtOnce := false).Claim(p.live, started);
      var settled := claimed.Settle(prepared);
      if latest && liveBudgetEpoch == p.epoch && Settles(prepared) && descentEpoch == p.descent
        && settled.Claims(settled.Live(), started)
      then settled.Claim(settled.Live(), started).Note(Noted(settled.Live(), true, settled.liveBudgetEpoch))
      else if latest && liveBudgetEpoch == p.epoch && !Settles(prepared)
      then settled.Note(Noted(p.live, true, p.epoch))
      else settled
    }

    /** The clean-up after a compile: entries no compile still running could be turned away by go. */
    function Finished(started: nat): Credit {
      var running := compilesRunning - {started};
      this.(compilesRunning := running,
            latestEndedStart := map b | b in latestEndedStart && CanTurnAway(latestEndedStart[b], running) ::
              latestEndedStart[b])
    }
  }

  /** The agent's fields, as its methods update them. */
  class CompileBudget {
    var contextBudgetTokens: Option<nat>
    var contextBudgetTargetTokens: Option<nat>
    var liveBudgetEpoch: nat
    var descentEpoch: nat
    var lastCompiledBudget: Option<Noted>
    var compilesStarted: nat
    var compilesRunning: set<nat>
    var latestEndedStart: map<nat, nat>
    var restoredAtOnce: bool

    ghost function State(): Credit
      reads this
    {
      Credit(contextBudgetTokens, contextBudgetTargetTokens, liveBudgetEpoch, descentEpoch, lastCompiledBudget,
             compilesStarted, compilesRunning, latestEndedStart, restoredAtOnce)
    }

    constructor (configured: Option<nat>)
      ensures State() == Credit(configured, None, 0, 0, None, 0, {}, map[], false)
    {
      contextBudgetTokens, contextBudgetTargetTokens, lastCompiledBudget := configured, None, None;
      liveBudgetEpoch, descentEpoch, compilesStarted := 0, 0, 0;
      compilesRunning, latestEndedStart, restoredAtOnce := {}, map[], false;
    }

    method SetContextBudget(budget: Option<nat>, target: Option<nat>, armed: bool)
      modifies this
      ensures State() == old(State()).SetContextBudget(budget, target, armed)
    {
      if budget != contextBudgetTokens { liveBudgetEpoch := liveBudgetEpoch + 1; }
      if armed || target != contextBudgetTargetTokens { descentEpoch := descentEpoch + 1; }
      contextBudgetTokens := budget;
      contextBudgetTargetTokens := target;
    }

    method ClaimLatestAt(budget: nat, started: nat) returns (claimed: bool)
      modifies this`latestEndedStart
      ensures claimed == old(State()).Claims(budget, started) && State() == old(State()).Claim(budget, started)
    {
      if budget in latestEndedStart && started < latestEndedStart[budget] { return false; }
      latestEndedStart := latestEndedStart[budget := started];
      return true;
    }

    method NoteCompiledBudget(budget: nat, fit: bool, epoch: nat)
      modifies this`lastCompiledBudget
      ensures State() == old(State()).Note(Noted(budget, fit, epoch))
    {
      if epoch == liveBudgetEpoch { lastCompiledBudget := Some(Noted(budget, fit, epoch)); }
    }

    /** compileAtLiveBudget up to its compile. */
    method BeginCompile() returns (started: nat, plan: Plan)
      modifies this
      ensures State() == old(State()).Begun() && started == compilesStarted && plan == State().PlanNow()
    {
      compilesStarted := compilesStarted + 1;
      started := compilesStarted;
      compilesRunning := compilesRunning + {started};
      plan := Plan(contextBudgetTokens.Or(DEFAULT_CONTEXT_BUDGET_TOKENS), liveBudgetEpoch, descentEpoch);
    }

    method UpdateBudget(next: nat, immediate: bool, hot: bool) returns (refused: bool)
      modifies this
      ensures refused == old(State()).Update(next, immediate, hot).None?
      ensures State() == old(State()).Update(next, immediate, hot).Or(old(State()))
    {
      var live := contextBudgetTokens.Or(DEFAULT_CONTEXT_BUDGET_TOKENS);
      if next >= live || immediate {
        SetContextBudget(Some(next), None, false);
      } else {
        if !hot { return true; }
        SetContextBudget(contextBudgetTokens, Some(next), true);
      }
      restoredAtOnce := false;
      return false;
    }

    method SettleTransition(prepared: bool) returns (settled: bool)
      modifies this
      ensures settled == old(State()).Settles(prepared) && State() == old(State()).Settle(prepared)
    {
      if contextBudgetTargetTokens.None? || !prepared { return false; }
      SetContextBudget(contextBudgetTargetTokens, None, false);
      return true;
    }

    method CompileRefused(plan: Plan, started: nat, configured: Option<nat>, hot: bool)
      modifies this
      ensures State() == old(State()).Refused(plan, started, configured, hot)
    {
      var latest := ClaimLatestAt(plan.live, started);
      if latest { NoteCompiledBudget(plan.live, false, plan.epoch); }
      if !restoredAtOnce { return; }
      restoredAtOnce := false;
      SetContextBudget(configured, None, false);
      var _ := UpdateBudget(plan.live, false, hot);
    }

    method CompileFit(plan: Plan, started: nat, prepared: bool)
      modifies this
      ensures State() == old(State()).Fit(plan, started, prepared)
    {
      restoredAtOnce := false;
      var latest := ClaimLatestAt(plan.live, started);
      var sameLive := liveBudgetEpoch == plan.epoch;
      var sameDescent := descentEpoch == plan.descent;
      var settled := SettleTransition(prepared);
      var credited := false;
      if latest && sameLive && settled && sameDescent {
        credited := ClaimLatestAt(contextBudgetTokens.value, started);
      }
      if credited {
        NoteCompiledBudget(contextBudgetTokens.value, true, liveBudgetEpoch);
      } else if latest && sameLive && !settled {
        NoteCompiledBudget(plan.live, true, plan.epoch);
      }
    }

    /** The `finally` of compileAtLiveBudget. */
    method FinishCompile(started: nat)
      modifies this
      ensures State() == old(State()).Finished(started)
    {
      compilesRunning := compilesRunning - {started};
      ghost var before := latestEndedStart;
      var keys := latestEndedStart.Keys;
      while keys != {}
        modifies this`latestEndedStart
        invariant keys <= before.Keys
        invariant latestEndedStart == map b | b in before && (b in keys || CanTurnAway(before[b], compilesRunning)) ::
          before[b]
        decreases |keys|
      {
        var b :| b in keys;
        if !CanTurnAway(latestEndedStart[b], compilesRunning) {
          latestEndedStart := latestEndedStart - {b};
        }
        keys := keys - {b};
      }
    }
  }

  // --------------------------------------------------------------------------
  // Runs
  // --------------------------------------------------------------------------

  /** A compile that ended, for the record: what it planned at and whether it fit there. */
  datatype Ended = Ended(started: nat, budget: nat, fit: bool)

  /**
   The agent with the plans of the compiles whose outcome is awaited. For the proofs: every outcome so far, what
   latestEndedStart would hold had nothing been pruned, and the start of the compile last credited.
   */
  datatype World = World(c: Credit, plans: map<nat, Plan>, ended: seq<Ended>, unpruned: map<nat, nat>, credited: nat)

  datatype Event =
    | Update(next: nat, immediate: bool, hot: bool)
    | Reset(configured: Option<nat>, hot: bool)
    | Cancel
    | RestoreProven(next: nat)
    | Begin
    | EndFit(started: nat, prepared: bool)
    | EndRefused(started: nat, configured: Option<nat>, hot: bool)
    | EndOtherwise(started: nat)
    | Finish(started: nat)

  predicate CanHappen(w: World, e: Event) {
    match e
    case EndFit(s, _) => s in w.plans
    case EndRefused(s, _, _) => s in w.plans
    case EndOtherwise(s) => s in w.plans
    case Finish(s) => s in w.c.compilesRunning && s !in w.plans
    // Applied at construction, before any compile runs.
    case RestoreProven(_) => w.plans == map[] && w.c.compilesRunning == {} && w.ended == []
    case _ => true
  }

  /** claimLatestAt's answer had nothing been pruned. */
  predicate ClaimsUnpruned(w: World, at: nat, started: nat) {
    at !in w.unpruned || started >= w.unpruned[at]
  }

  /** A compile's end at a budget, recorded, with its claim there. */
  function EndedAt(w: World, e: Ended): World {
    var longer := w.(ended := w.ended + [e]);
    if ClaimsUnpruned(w, e.budget, e.started) then longer.(unpruned := w.unpruned[e.budget := e.started]) else longer
  }

  /** The record of a fit: it claims the budget it planned at and, where it settles its own descent, the target. */
  function FitRecorded(w: World, s: nat, prepared: bool): World
    requires s in w.plans
  {
    var p := w.plans[s];
    var here := EndedAt(w, Ended(s, p.live, true));
    if ClaimsUnpruned(w, p.live, s) && w.c.liveBudgetEpoch == p.epoch && w.c.Settles(prepared)
      && w.c.descentEpoch == p.descent
    then EndedAt(here, Ended(s, w.c.target.value, true)) else here
  }

  /** Whether a fit is credited: to the budget it planned at, or to the target it settles. */
  predicate Credits(w: World, s: nat, prepared: bool)
    requires s in w.plans
  {
    var p := w.plans[s];
    && w.c.Claims(p.live, s) && w.c.liveBudgetEpoch == p.epoch
    && (w.c.Settles(prepared) ==>
      w.c.descentEpoch == p.descent && w.c.Claim(p.live, s).Claims(w.c.target.value, s))
  }

  function Step(w: World, e: Event): World
    requires CanHappen(w, e)
  {
    match e
    case Update(next, immediate, hot) => w.(c := w.c.Update(next, immediate, hot).Or(w.c))
    case Reset(configured, hot) => w.(c := w.c.Reset(configured, hot).Or(w.c))
    case Cancel => w.(c := w.c.Cancel())
    case RestoreProven(next) =>
      var c := w.c.SetContextBudget(Some(next), None, false);
      w.(c := c.(lastCompiled := Some(Noted(next, true, c.liveBudgetEpoch)), restoredAtOnce := next < w.c.Live()),
        credited := 0)
    case Begin => w.(c := w.c.Begun(), plans := w.plans[w.c.compilesStarted + 1 := w.c.PlanNow()])
    case EndFit(s, prepared) =>
      var c := w.c.Fit(w.plans[s], s, prepared);
      FitRecorded(w, s, prepared).(c := c, plans := w.plans - {s},
        credited := if Credits(w, s, prepared) then s else w.credited)
    case EndRefused(s, configured, hot) =>
      EndedAt(w, Ended(s, w.plans[s].live, false))
        .(c := w.c.Refused(w.plans[s], s, configured, hot), plans := w.plans - {s})
    case EndOtherwise(s) => w.(plans := w.plans - {s})
    case Finish(s) => w.(c := w.c.Finished(s))
  }

  ghost predicate PlansOk(w: World) {
    && w.plans.Keys <= w.c.compilesRunning
    && (forall s | s in w.c.compilesRunning :: 1 <= s <= w.c.compilesStarted)
    && (forall s | s in w.plans :: w.plans[s].epoch <= w.c.liveBudgetEpoch)
    && (forall s | s in w.plans :: w.plans[s].epoch == w.c.liveBudgetEpoch ==> w.plans[s].live == w.c.Live())
    && (forall s, t | s in w.plans && t in w.plans && s < t :: w.plans[s].epoch <= w.plans[t].epoch)
    && (w.c.target.Some? ==> w.c.target.value < w.c.Live())
  }

  /**
   The map holds what the unpruned one does, but entries every running compile started after; and only while one started
   before them runs.
   */
  ghost predicate PruningOk(w: World) {
    && (forall b | b in w.c.latestEndedStart :: b in w.unpruned && w.unpruned[b] == w.c.latestEndedStart[b])
    && (forall b | b in w.c.latestEndedStart :: CanTurnAway(w.c.latestEndedStart[b], w.c.compilesRunning))
    && (forall b, r | b in w.unpruned && b !in w.c.latestEndedStart && r in w.c.compilesRunning :: w.unpruned[b] < r)
    && (forall b | b in w.unpruned :: w.unpruned[b] <= w.c.compilesStarted)
  }

  /** At each budget, the start of the compile that started last of those that ended there. */
  ghost predicate EndedOk(w: World) {
    && (forall i | 0 <= i < |w.ended| ::
      w.ended[i].budget in w.unpruned && w.ended[i].started <= w.unpruned[w.ended[i].budget])
    && (forall b | b in w.unpruned :: exists i ::
      0 <= i < |w.ended| && w.ended[i].budget == b && w.ended[i].started == w.unpruned[b])
  }

  lemma EndedAtOk(w: World, e: Ended)
    requires EndedOk(w)
    ensures EndedOk(EndedAt(w, e))
  {
    var v := EndedAt(w, e);
    assert v.ended[|w.ended|] == e;
    forall b | b in v.unpruned
      ensures exists i :: 0 <= i < |v.ended| && v.ended[i].budget == b && v.ended[i].started == v.unpruned[b]
    {
      if b in w.unpruned && (b != e.budget || !ClaimsUnpruned(w, e.budget, e.started)) {
        var i :| 0 <= i < |w.ended| && w.ended[i].budget == b && w.ended[i].started == w.unpruned[b];
        assert v.ended[i] == w.ended[i];
      }
    }
  }

  /**
   What a proven budget says: it is the live one, no compile that started after the one credited has ended at it, and
   none running there goes unnoticed.
   */
  ghost predicate ProvenOk(w: World) {
    w.c.Proven().Some? ==>
      var b := w.c.Proven().value;
      && b == w.c.Live()
      && (b in w.unpruned ==> w.unpruned[b] <= w.credited)
      && (forall s | s in w.plans && s > w.credited && w.plans[s].live == b :: w.plans[s].epoch == w.c.liveBudgetEpoch)
  }

  ghost predicate LastOk(w: World) {
    w.c.lastCompiled.Some? ==> w.c.lastCompiled.value.epoch <= w.c.liveBudgetEpoch
  }

  ghost predicate Inv(w: World) {
    PlansOk(w) && PruningOk(w) && EndedOk(w) && ProvenOk(w) && LastOk(w)
  }

  /** Pruning never changes claimLatestAt's answer to a compile still running. */
  lemma PruningChangesNoAnswer(w: World, at: nat, started: nat)
    requires Inv(w) && started in w.c.compilesRunning
    ensures w.c.Claims(at, started) <==> ClaimsUnpruned(w, at, started)
  {
  }

  lemma NoCompileNoEntries(w: World)
    requires Inv(w) && w.c.compilesRunning == {}
    ensures w.c.latestEndedStart == map[]
  {
    assert forall b :: b !in w.c.latestEndedStart;
  }

  /** A change of the budget or the target alone: what was proven stands only while the live budget does. */
  lemma BudgetChangedOk(w: World, c: Credit)
    requires Inv(w)
    requires c == w.c.(budget := c.budget, target := c.target, liveBudgetEpoch := c.liveBudgetEpoch,
                       descentEpoch := c.descentEpoch, restoredAtOnce := c.restoredAtOnce)
    requires c.liveBudgetEpoch > w.c.liveBudgetEpoch
      || (c.liveBudgetEpoch == w.c.liveBudgetEpoch && c.budget == w.c.budget)
    requires c.target.Some? ==> c.target.value < c.Live()
    ensures Inv(w.(c := c))
  {
  }

  lemma BeginOk(w: World)
    requires Inv(w)
    ensures Inv(Step(w, Begin))
  {
    var v := Step(w, Begin);
    assert v.plans.Keys == w.plans.Keys + {w.c.compilesStarted + 1};
  }

  lemma FinishOk(w: World, s: nat)
    requires Inv(w) && CanHappen(w, Finish(s))
    ensures Inv(Step(w, Finish(s)))
  {
  }

  lemma SameEnded(w: World, v: World)
    requires EndedOk(w) && v.ended == w.ended && v.unpruned == w.unpruned
    ensures EndedOk(v)
  {
  }

  /** A claim at a budget, in the pruned map and the unpruned one alike, while nothing is proven. */
  lemma ClaimOk(w: World, at: nat, s: nat)
    requires Inv(w) && s in w.c.compilesRunning && w.c.Proven().None?
    ensures Inv(EndedAt(w.(c := w.c.Claim(at, s)), Ended(s, at, true)))
  {
    hide EndedOk, PruningOk;
    PruningChangesNoAnswer(w, at, s);
    var v := EndedAt(w.(c := w.c.Claim(at, s)), Ended(s, at, true));
    EndRecorded(w, Ended(s, at, true), v);
    ClaimPruningOk(w, at, s);
  }

  lemma ClaimPruningOk(w: World, at: nat, s: nat)
    requires Inv(w) && s in w.c.compilesRunning
    ensures PruningOk(EndedAt(w.(c := w.c.Claim(at, s)), Ended(s, at, true)))
  {
    hide ProvenOk, EndedOk, LastOk;
    PruningChangesNoAnswer(w, at, s);
    var v := EndedAt(w.(c := w.c.Claim(at, s)), Ended(s, at, true));
    if w.c.Claims(at, s) {
      assert v.c.latestEndedStart == w.c.latestEndedStart[at := s];
    }
  }

  lemma PlanDropped(w: World, s: nat)
    requires Inv(w)
    ensures Inv(w.(plans := w.plans - {s}))
  {
  }

  /** A fit credited to compile `s` at budget `b`, live now, where no compile has ended at it past `s`. */
  lemma CreditedOk(w: World, b: nat, s: nat)
    requires Inv(w) && b == w.c.Live() && b in w.unpruned && w.unpruned[b] <= s
    requires forall t | t in w.plans && t > s && w.plans[t].live == b :: w.plans[t].epoch == w.c.liveBudgetEpoch
    ensures Inv(w.(c := w.c.(lastCompiled := Some(Noted(b, true, w.c.liveBudgetEpoch))), credited := s))
  {
  }

  lemma EndRefusedOk(w: World, s: nat, configured: Option<nat>, hot: bool)
    requires Inv(w) && s in w.plans
    ensures Inv(Step(w, EndRefused(s, configured, hot)))
  {
    hide PruningOk, EndedOk, LastOk;
    var p := w.plans[s];
    var w1 := w.(plans := w.plans - {s});
    PlanDropped(w, s);
    RefusalOk(w, s);
    FallbackOk(Refusal(w, s), p.live, configured, hot);
  }

  /** A refusal's claim, its note and its record. */
  function Refusal(w: World, s: nat): World
    requires s in w.plans
  {
    var p := w.plans[s];
    var claimed := EndedAt(w.(plans := w.plans - {s}), Ended(s, p.live, false));
    claimed.(c := if w.c.Claims(p.live, s) then w.c.Claim(p.live, s).Note(Noted(p.live, false, p.epoch)) else w.c)
  }

  lemma RefusalOk(w: World, s: nat)
    requires Inv(w) && s in w.plans
    ensures Inv(Refusal(w, s))
  {
    hide EndedOk, PruningOk;
    RefusalRecorded(w, s);
    RefusalPruningOk(w, s);
    PruningChangesNoAnswer(w, w.plans[s].live, s) by { Runs(w, s); }
  }

  lemma Runs(w: World, s: nat)
    requires PlansOk(w) && s in w.plans
    ensures s in w.c.compilesRunning
  {
  }

  /** What a compile that ended leaves recorded, whatever becomes of its credit. */
  lemma EndRecorded(w: World, e: Ended, v: World)
    requires EndedOk(w) && v.ended == EndedAt(w, e).ended && v.unpruned == EndedAt(w, e).unpruned
    ensures EndedOk(v)
  {
    hide EndedOk;
    EndedAtOk(w, e);
    SameEnded(EndedAt(w, e), v);
  }

  lemma RefusalRecorded(w: World, s: nat)
    requires EndedOk(w) && s in w.plans
    ensures EndedOk(Refusal(w, s))
  {
    hide EndedOk;
    EndRecorded(w, Ended(s, w.plans[s].live, false), Refusal(w, s));
  }

  lemma RefusalPruningOk(w: World, s: nat)
    requires Inv(w) && s in w.plans
    ensures PruningOk(Refusal(w, s))
  {
    hide ProvenOk, EndedOk, LastOk;
    var p, v := w.plans[s], Refusal(w, s);
    PruningChangesNoAnswer(w, p.live, s);
    if w.c.Claims(p.live, s) {
      assert v.c.latestEndedStart == w.c.latestEndedStart[p.live := s];
    }
  }

  /** What a refusal does once it is noted: nothing, or the paced restore of a budget applied at once. */
  function Fallback(c: Credit, live: nat, configured: Option<nat>, hot: bool): Credit {
    if !c.restoredAtOnce then c
    else
      var back := c.(restoredAtOnce := false).SetContextBudget(configured, None, false);
      back.Update(live, false, hot).Or(back)
  }

  lemma FallbackOk(w: World, live: nat, configured: Option<nat>, hot: bool)
    requires Inv(w)
    ensures Inv(w.(c := Fallback(w.c, live, configured, hot)))
  {
    hide PlansOk, PruningOk, EndedOk, ProvenOk, LastOk;
    if w.c.restoredAtOnce {
      var back := w.c.(restoredAtOnce := false).SetContextBudget(configured, None, false);
      BudgetChangedOk(w, back);
      UpdateOk(w.(c := back), live, false, hot);
    }
  }

  lemma UpdateOk(w: World, next: nat, immediate: bool, hot: bool)
    requires Inv(w)
    ensures Inv(w.(c := w.c.Update(next, immediate, hot).Or(w.c)))
  {
    BudgetChangedOk(w, w.c.Update(next, immediate, hot).Or(w.c));
  }

  /** A fit's claim at the budget it planned at, credited there unless it settles a descent. */
  function FitClaimed(w: World, s: nat, credit: bool): World
    requires s in w.plans
  {
    var p := w.plans[s];
    var claimed := EndedAt(w.(plans := w.plans - {s}), Ended(s, p.live, true));
    var c := w.c.(restoredAtOnce := false).Claim(p.live, s);
    if credit && w.c.Claims(p.live, s) && w.c.liveBudgetEpoch == p.epoch
    then claimed.(c := c.Note(Noted(p.live, true, p.epoch)), credited := s) else claimed.(c := c)
  }

  lemma FitClaimedOk(w: World, s: nat, credit: bool)
    requires Inv(w) && s in w.plans
    ensures PlansOk(FitClaimed(w, s, credit)) && PruningOk(FitClaimed(w, s, credit))
      && EndedOk(FitClaimed(w, s, credit))
    ensures LastOk(FitClaimed(w, s, credit))
  {
    hide ProvenOk, PruningOk, EndedOk;
    FitPruningOk(w, s, credit);
    EndRecorded(w, Ended(s, w.plans[s].live, true), FitClaimed(w, s, credit));
  }

  lemma FitPruningOk(w: World, s: nat, credit: bool)
    requires Inv(w) && s in w.plans
    ensures PruningOk(FitClaimed(w, s, credit))
  {
    hide ProvenOk, EndedOk, LastOk;
    var p := w.plans[s];
    PruningChangesNoAnswer(w, p.live, s);
    var v := FitClaimed(w, s, credit);
    if w.c.Claims(p.live, s) {
      assert v.c.latestEndedStart == w.c.latestEndedStart[p.live := s];
    }
  }

  lemma FitCreditedOk(w: World, s: nat)
    requires Inv(w) && s in w.plans
    ensures ProvenOk(FitClaimed(w, s, true))
  {
    PruningChangesNoAnswer(w, w.plans[s].live, s);
  }

  lemma SettledAlone(w: World)
    requires PlansOk(w) && PruningOk(w) && EndedOk(w) && LastOk(w) && w.c.target.Some?
    ensures Inv(w.(c := w.c.Settle(true)))
  {
    hide EndedOk;
    SameEnded(w, w.(c := w.c.Settle(true)));
  }

  /** A settle puts the live budget at the target: nothing is proven until the compile that settled it is credited. */
  lemma SettledOk(w: World, w1: World, s: nat, credit: bool)
    requires PlansOk(w1) && PruningOk(w1) && EndedOk(w1) && LastOk(w1) && w1.c.target.Some?
    requires s in w1.c.compilesRunning && s !in w1.plans
    requires credit ==> forall t | t in w1.plans && t > s :: w1.plans[t].live > w1.c.target.value
    ensures
      var c, target := w1.c.Settle(true), w1.c.target.value;
      Inv(if credit && c.Claims(target, s)
          then EndedAt(w1, Ended(s, target, true))
            .(c := c.Claim(target, s).Note(Noted(target, true, c.liveBudgetEpoch)), credited := s)
          else if credit then EndedAt(w1, Ended(s, target, true)).(c := c)
          else w1.(c := c))
  {
    hide EndedOk, PruningOk;
    var c, target := w1.c.Settle(true), w1.c.target.value;
    var v := w1.(c := c);
    assert c.liveBudgetEpoch == w1.c.liveBudgetEpoch + 1 && c.Proven().None?;
    assert Inv(v) by { SettledAlone(w1); }
    PruningChangesNoAnswer(v, target, s);
    if credit {
      ClaimOk(v, target, s);
      var v2 := EndedAt(v.(c := c.Claim(target, s)), Ended(s, target, true));
      if c.Claims(target, s) { CreditedOk(v2, target, s); }
    }
  }

  lemma PlansOf(w: World, s: nat)
    requires Inv(w) && s in w.plans
    ensures s in w.c.compilesRunning
    ensures forall b :: w.c.Claims(b, s) <==> ClaimsUnpruned(w, b, s)
    ensures w.c.target.Some? && w.plans[s].epoch == w.c.liveBudgetEpoch ==>
      forall t | t in w.plans && t > s :: w.plans[t].live > w.c.target.value
  {
    forall b ensures w.c.Claims(b, s) <==> ClaimsUnpruned(w, b, s) { PruningChangesNoAnswer(w, b, s); }
  }

  lemma EndFitOk(w: World, s: nat, prepared: bool)
    requires Inv(w) && s in w.plans
    ensures Inv(Step(w, EndFit(s, prepared)))
  {
    hide PlansOk, PruningOk, EndedOk, LastOk;
    var p := w.plans[s];
    FitClaimedOk(w, s, !w.c.Settles(prepared));
    if !w.c.Settles(prepared) {
      FitCreditedOk(w, s);
      assert Step(w, EndFit(s, prepared)) == FitClaimed(w, s, true);
    } else {
      PlansOf(w, s);
      var credit := w.c.Claims(p.live, s) && w.c.liveBudgetEpoch == p.epoch && w.c.descentEpoch == p.descent;
      SettledOk(w, FitClaimed(w, s, false), s, credit);
    }
  }

  lemma StepOk(w: World, e: Event)
    requires Inv(w) && CanHappen(w, e)
    ensures Inv(Step(w, e))
  {
    match e
    case Update(next, immediate, hot) => UpdateOk(w, next, immediate, hot);
    case Reset(configured, hot) => BudgetChangedOk(w, w.c.Reset(configured, hot).Or(w.c));
    case Cancel => BudgetChangedOk(w, w.c.Cancel());
    case RestoreProven(next) =>
      var c := w.c.SetContextBudget(Some(next), None, false).(restoredAtOnce := next < w.c.Live());
      BudgetChangedOk(w, c);
    case Begin => BeginOk(w);
    case EndFit(s, prepared) => EndFitOk(w, s, prepared);
    case EndRefused(s, configured, hot) => EndRefusedOk(w, s, configured, hot);
    case EndOtherwise(s) => PlanDropped(w, s);
    case Finish(s) => FinishOk(w, s);
  }

  function Start(configured: Option<nat>): World {
    World(Credit(configured, None, 0, 0, None, 0, {}, map[], false), map[], [], map[], 0)
  }

  ghost predicate CanRun(w: World, events: seq<Event>)
    decreases |events|
  {
    events == [] || (CanHappen(w, events[0]) && CanRun(Step(w, events[0]), events[1..]))
  }

  ghost function Run(w: World, events: seq<Event>): World
    requires CanRun(w, events)
    decreases |events|
  {
    if events == [] then w else Run(Step(w, events[0]), events[1..])
  }

  lemma {:induction false} RunOk(w: World, events: seq<Event>)
    requires Inv(w) && CanRun(w, events)
    ensures Inv(Run(w, events))
    decreases |events|
  {
    if events != [] {
      StepOk(w, events[0]);
      RunOk(Step(w, events[0]), events[1..]);
    }
  }

  /**
   Under any interleaving of overlapping compiles and budget changes, a reported proven budget is the live one, and no
   compile that started after the one credited has ended refused at it.
   */
  lemma ProvenBudgetIsLive(configured: Option<nat>, events: seq<Event>)
    requires CanRun(Start(configured), events)
    ensures
      var w := Run(Start(configured), events);
      w.c.Proven().Some? ==>
        && w.c.Proven().value == w.c.Live()
        && forall i | 0 <= i < |w.ended| && !w.ended[i].fit && w.ended[i].budget == w.c.Proven().value ::
          w.ended[i].started <= w.credited
  {
    RunOk(Start(configured), events);
  }

  /** Pruning never changes an answer a running compile gets, and leaves nothing when none runs. */
  lemma PruningIsUnseen(configured: Option<nat>, events: seq<Event>, at: nat, started: nat)
    requires CanRun(Start(configured), events)
    ensures
      var w := Run(Start(configured), events);
      && (started in w.c.compilesRunning ==> (w.c.Claims(at, started) <==> ClaimsUnpruned(w, at, started)))
      && (w.c.compilesRunning == {} ==> w.c.latestEndedStart == map[])
  {
    RunOk(Start(configured), events);
    NoEntriesLeft(Run(Start(configured), events));
  }

  /** A running compile gets the place it claims exactly where none that started after it has ended at that budget. */
  lemma ClaimedByTheLatest(configured: Option<nat>, events: seq<Event>, at: nat, started: nat)
    requires CanRun(Start(configured), events)
    ensures
      var w := Run(Start(configured), events);
      started in w.c.compilesRunning ==>
        (w.c.Claims(at, started) <==> forall i | 0 <= i < |w.ended| && w.ended[i].budget == at ::
          w.ended[i].started <= started)
  {
    RunOk(Start(configured), events);
    var w := Run(Start(configured), events);
    if started in w.c.compilesRunning { PruningChangesNoAnswer(w, at, started); }
  }

  /** On any run, a change of the live budget ends what was proven of the old one, and no other change does. */
  lemma NoCreditOutlivesItsBudget(configured: Option<nat>, events: seq<Event>, budget: Option<nat>, target: Option<nat>,
    armed: bool)
    requires CanRun(Start(configured), events)
    ensures
      var c := Run(Start(configured), events).c;
      c.SetContextBudget(budget, target, armed).Proven() == if budget == c.budget then c.Proven() else None
  {
    RunOk(Start(configured), events);
  }

  lemma NoEntriesLeft(w: World)
    requires Inv(w)
    ensures w.c.compilesRunning == {} ==> w.c.latestEndedStart == map[]
  {
    if w.c.compilesRunning == {} { NoCompileNoEntries(w); }
  }
}
