/**
 When a compile that fit is credited: read off the events of a run alone, what the live budget and the descent were set
 to between the compile's start and its end, and which compiles ended at which budget.
 */
module CompileOutcomes {
  import opened Options
  import opened CompileCredit

  // --------------------------------------------------------------------------
  // What an event sets
  // --------------------------------------------------------------------------

  /** Whether a budget asked for takes effect at once, rather than by a descent. */
  predicate AtOnce(w: World, next: nat, immediate: bool) {
    next >= w.c.Live() || immediate
  }

  /** The values an event sets the live budget to, in turn. */
  function BudgetsSet(w: World, e: Event): seq<Option<nat>>
    requires CanHappen(w, e)
  {
    match e
    case Update(next, immediate, _) => if AtOnce(w, next, immediate) then [Some(next)] else []
    case Reset(configured, _) =>
      if AtOnce(w, configured.Or(DEFAULT_CONTEXT_BUDGET_TOKENS), false) then [configured] else []
    case RestoreProven(next) => [Some(next)]
    case EndFit(_, prepared) => if w.c.target.Some? && prepared then [w.c.target] else []
    case EndRefused(s, configured, _) =>
      if !w.c.restoredAtOnce then []
      else if w.plans[s].live >= configured.Or(DEFAULT_CONTEXT_BUDGET_TOKENS) then [configured, Some(w.plans[s].live)]
      else [configured]
    case _ => []
  }

  /** A descent set: its target, and whether it was armed anew. */
  datatype Descent = Descent(target: Option<nat>, armed: bool)

  function DescentsSet(w: World, e: Event): seq<Descent>
    requires CanHappen(w, e)
  {
    match e
    case Update(next, immediate, hot) =>
      if AtOnce(w, next, immediate) then [Descent(None, false)] else if hot then [Descent(Some(next), true)] else []
    case Reset(configured, hot) =>
      var recipe := configured.Or(DEFAULT_CONTEXT_BUDGET_TOKENS);
      if AtOnce(w, recipe, false) then [Descent(None, false)] else if hot then [Descent(Some(recipe), true)] else []
    case Cancel => [Descent(None, false)]
    case RestoreProven(_) => [Descent(None, false)]
    case EndFit(_, prepared) => if w.c.target.Some? && prepared then [Descent(None, false)] else []
    case EndRefused(s, configured, hot) =>
      if !w.c.restoredAtOnce then []
      else if w.plans[s].live >= configured.Or(DEFAULT_CONTEXT_BUDGET_TOKENS) || !hot then [Descent(None, false)]
      else [Descent(None, false), Descent(Some(w.plans[s].live), true)]
    case _ => []
  }

  predicate Moves(from: Option<nat>, budgets: seq<Option<nat>>) {
    budgets != [] && (budgets[0] != from || Moves(budgets[0], budgets[1..]))
  }

  predicate Descends(from: Option<nat>, descents: seq<Descent>) {
    descents != [] && (descents[0].armed || descents[0].target != from || Descends(descents[0].target, descents[1..]))
  }

  /** No event of the list moves the live budget. */
  ghost predicate BudgetStands(w: World, events: seq<Event>)
    requires CanRun(w, events)
    decreases |events|
  {
    events != [] ==>
      !Moves(w.c.budget, BudgetsSet(w, events[0])) && BudgetStands(Step(w, events[0]), events[1..])
  }

  /** No event of the list arms a descent or moves its target. */
  ghost predicate DescentStands(w: World, events: seq<Event>)
    requires CanRun(w, events)
    decreases |events|
  {
    events != [] ==>
      !Descends(w.c.target, DescentsSet(w, events[0])) && DescentStands(Step(w, events[0]), events[1..])
  }

  /** No compile that started later has ended at a budget. */
  predicate NoneLaterAt(w: World, budget: nat, started: nat) {
    forall i | 0 <= i < |w.ended| && w.ended[i].budget == budget :: w.ended[i].started <= started
  }

  // --------------------------------------------------------------------------
  // The epochs count exactly those
  // --------------------------------------------------------------------------

  /** Over an event, the epochs never fall, and stand exactly where nothing they count moves. */
  ghost predicate EpochsCountOver(w: World, e: Event)
    requires CanHappen(w, e)
  {
    var v := Step(w, e);
    && v.c.liveBudgetEpoch >= w.c.liveBudgetEpoch && v.c.descentEpoch >= w.c.descentEpoch
    && (v.c.liveBudgetEpoch == w.c.liveBudgetEpoch <==> !Moves(w.c.budget, BudgetsSet(w, e)))
    && (v.c.descentEpoch == w.c.descentEpoch <==> !Descends(w.c.target, DescentsSet(w, e)))
  }

  lemma MovesAre(from: Option<nat>, a: Option<nat>, b: Option<nat>)
    ensures !Moves(from, [])
    ensures Moves(from, [a]) <==> a != from
    ensures Moves(from, [a, b]) <==> a != from || b != a
  {
    assert [a][1..] == [] && [a, b][1..] == [b] && [b][1..] == [];
  }

  lemma DescendsAre(from: Option<nat>, a: Descent, b: Descent)
    ensures !Descends(from, [])
    ensures Descends(from, [a]) <==> a.armed || a.target != from
    ensures Descends(from, [a, b]) <==> a.armed || a.target != from || b.armed || b.target != a.target
  {
    assert [a][1..] == [] && [a, b][1..] == [b] && [b][1..] == [];
  }

  lemma RefusalCounts(w: World, s: nat, configured: Option<nat>, hot: bool)
    requires CanHappen(w, EndRefused(s, configured, hot))
    ensures EpochsCountOver(w, EndRefused(s, configured, hot))
  {
    hide Moves, Descends;
    MovesAre(w.c.budget, configured, Some(w.plans[s].live));
    DescendsAre(w.c.target, Descent(None, false), Descent(Some(w.plans[s].live), true));
  }

  lemma FitCounts(w: World, s: nat, prepared: bool)
    requires CanHappen(w, EndFit(s, prepared))
    ensures EpochsCountOver(w, EndFit(s, prepared))
  {
    hide Moves, Descends;
    MovesAre(w.c.budget, w.c.target, None);
    DescendsAre(w.c.target, Descent(None, false), Descent(None, false));
  }

  lemma SettingCounts(w: World, e: Event)
    requires CanHappen(w, e) && !e.EndRefused? && !e.EndFit?
    ensures EpochsCountOver(w, e)
  {
    hide Moves, Descends;
    var budgets, descents := BudgetsSet(w, e), DescentsSet(w, e);
    assert |budgets| <= 1 && |descents| <= 1;
    MovesAre(w.c.budget, if budgets == [] then None else budgets[0], None);
    DescendsAre(w.c.target, if descents == [] then Descent(None, false) else descents[0], Descent(None, false));
    assert budgets == [] || budgets == [budgets[0]];
    assert descents == [] || descents == [descents[0]];
  }

  lemma EpochsCount(w: World, e: Event)
    requires CanHappen(w, e)
    ensures EpochsCountOver(w, e)
  {
    hide EpochsCountOver;
    match e
    case EndRefused(s, configured, hot) => RefusalCounts(w, s, configured, hot);
    case EndFit(s, prepared) => FitCounts(w, s, prepared);
    case _ => SettingCounts(w, e);
  }

  lemma {:induction false} EpochsStand(w: World, events: seq<Event>)
    requires CanRun(w, events)
    ensures var v := Run(w, events);
      && v.c.liveBudgetEpoch >= w.c.liveBudgetEpoch && v.c.descentEpoch >= w.c.descentEpoch
      && (v.c.liveBudgetEpoch == w.c.liveBudgetEpoch <==> BudgetStands(w, events))
      && (v.c.descentEpoch == w.c.descentEpoch <==> DescentStands(w, events))
    decreases |events|
  {
    hide Step, Moves, Descends, BudgetsSet, DescentsSet;
    if events != [] {
      EpochsCount(w, events[0]);
      EpochsStand(Step(w, events[0]), events[1..]);
    }
  }

  /** A compile keeps the plan it began with until it ends. */
  lemma {:induction false} PlanKept(w: World, events: seq<Event>, s: nat)
    requires CanRun(w, events) && s <= w.c.compilesStarted && s in Run(w, events).plans
    ensures s in w.plans && Run(w, events).plans[s] == w.plans[s]
    decreases |events|
  {
    if events != [] {
      StepKeepsPlan(w, events[0], s);
      PlanKept(Step(w, events[0]), events[1..], s);
    }
  }

  lemma StepKeepsPlan(w: World, e: Event, s: nat)
    requires CanHappen(w, e) && s <= w.c.compilesStarted
    ensures s <= Step(w, e).c.compilesStarted
    ensures s in Step(w, e).plans ==> s in w.plans && Step(w, e).plans[s] == w.plans[s]
  {
  }

  // --------------------------------------------------------------------------
  // What the end of a compile that fit comes to
  // --------------------------------------------------------------------------

  /** The fit read off a state whose invariant holds. */
  lemma FitComesTo(w: World, s: nat, prepared: bool)
    requires Inv(w) && s in w.plans
    ensures
      var p, v := w.plans[s], Step(w, EndFit(s, prepared));
      var settles := w.c.target.Some? && prepared;
      var stands := w.c.liveBudgetEpoch == p.epoch && NoneLaterAt(w, p.live, s);
      var credited :=
        stands && (settles ==> w.c.descentEpoch == p.descent && NoneLaterAt(w, w.c.target.value, s));
      && v.c.Live() == (if settles then w.c.target.value else w.c.Live())
      && v.c.Proven() == if credited then Some(v.c.Live()) else if settles then None else w.c.Proven()
  {
    var p := w.plans[s];
    hide PruningOk, EndedOk;
    ClaimsRead(w, s, p.live);
    if w.c.target.Some? { ClaimsRead(w, s, w.c.target.value); }
  }

  lemma ClaimsRead(w: World, s: nat, budget: nat)
    requires Inv(w) && s in w.plans
    ensures w.c.Claims(budget, s) <==> NoneLaterAt(w, budget, s)
  {
    PruningChangesNoAnswer(w, budget, s);
  }

  ghost predicate CompileRuns(before: World, during: seq<Event>, prepared: bool) {
    var s := before.c.compilesStarted + 1;
    CanRun(Step(before, Begin), during) && s in Run(Step(before, Begin), during).plans
  }

  /**
   On any run, a compile that ends with a fit is credited exactly where the live budget hasn't moved since it began and
   no compile that started later has ended there; and, where its window settles a descent, no descent was set since it
   began and no compile that started later has ended at the target. Credited, it proves the budget then live. Otherwise
   what was proven stands, unless the settle moved the live budget from under it.
   */
  lemma FitIsCreditedExactly(configured: Option<nat>, earlier: seq<Event>, during: seq<Event>, prepared: bool)
    requires CanRun(Start(configured), earlier) && CompileRuns(Run(Start(configured), earlier), during, prepared)
    ensures
      var before := Run(Start(configured), earlier);
      var began, s := Step(before, Begin), before.c.compilesStarted + 1;
      var w := Run(began, during);
      var v := Step(w, EndFit(s, prepared));
      var settles := w.c.target.Some? && prepared;
      var stands := BudgetStands(began, during) && NoneLaterAt(w, before.c.Live(), s);
      var credited := stands && (settles ==> DescentStands(began, during) && NoneLaterAt(w, w.c.target.value, s));
      && v.c.Live() == (if settles then w.c.target.value else w.c.Live())
      && v.c.Proven() == if credited then Some(v.c.Live()) else if settles then None else w.c.Proven()
  {
    hide Inv, BudgetStands, DescentStands, NoneLaterAt;
    var before := Run(Start(configured), earlier);
    var began, s := Step(before, Begin), before.c.compilesStarted + 1;
    RunOk(Start(configured), earlier) by { StartOk(configured); }
    StepOk(before, Begin);
    RunOk(began, during);
    PlanKept(began, during, s);
    EpochsStand(began, during);
    FitComesTo(Run(began, during), s, prepared);
  }

  lemma StartOk(configured: Option<nat>)
    ensures Inv(Start(configured))
  {
  }

  /**
   On any run, a compile refused ends what was proven exactly where the live budget hasn't moved since it began and no
   compile that started later has ended there, or its fallback moves the live budget.
   */
  lemma RefusalIsHeededExactly(
    start: Option<nat>, earlier: seq<Event>, during: seq<Event>, configured: Option<nat>, hot: bool)
    requires CanRun(Start(start), earlier) && CompileRuns(Run(Start(start), earlier), during, false)
    ensures
      var before := Run(Start(start), earlier);
      var began, s := Step(before, Begin), before.c.compilesStarted + 1;
      var w := Run(began, during);
      var e := EndRefused(s, configured, hot);
      var heeded := BudgetStands(began, during) && NoneLaterAt(w, before.c.Live(), s);
      Step(w, e).c.Proven() == if heeded || Moves(w.c.budget, BudgetsSet(w, e)) then None else w.c.Proven()
  {
    hide Inv, BudgetStands, DescentStands, NoneLaterAt;
    var before := Run(Start(start), earlier);
    var began, s := Step(before, Begin), before.c.compilesStarted + 1;
    RunOk(Start(start), earlier) by { StartOk(start); }
    StepOk(before, Begin);
    RunOk(began, during);
    PlanKept(began, during, s);
    EpochsStand(began, during);
    RefusalComesTo(Run(began, during), s, configured, hot);
  }

  lemma RefusalComesTo(w: World, s: nat, configured: Option<nat>, hot: bool)
    requires Inv(w) && s in w.plans
    ensures
      var p, e := w.plans[s], EndRefused(s, configured, hot);
      Step(w, e).c.Proven() ==
        if (w.c.liveBudgetEpoch == p.epoch && NoneLaterAt(w, p.live, s))
          || Moves(w.c.budget, BudgetsSet(w, e)) then None
        else w.c.Proven()
  {
    hide PruningOk, EndedOk, PlansOk, ProvenOk;
    ClaimsRead(w, s, w.plans[s].live);
    RefusalCounts(w, s, configured, hot);
    hide Moves, BudgetsSet;
  }

  /**
   What a change of settings comes to: a budget no smaller, or asked for at once, is live; a smaller one is the target
   of a descent where the strategy can prepare one, and otherwise refused; a cancel leaves no descent. None but these
   moves either.
   */
  lemma SettingsComeTo(w: World, e: Event)
    requires CanHappen(w, e)
    ensures var v := Step(w, e);
      match e
      case Update(next, immediate, hot) =>
        if AtOnce(w, next, immediate) then v.c.Live() == next && v.c.target.None?
        else v.c.Live() == w.c.Live() && v.c.target == (if hot then Some(next) else w.c.target)
      case Reset(configured, hot) =>
        var recipe := configured.Or(DEFAULT_CONTEXT_BUDGET_TOKENS);
        if AtOnce(w, recipe, false) then v.c.budget == configured && v.c.target.None?
        else v.c.Live() == w.c.Live() && v.c.target == (if hot then Some(recipe) else w.c.target)
      case Cancel => v.c.budget == w.c.budget && v.c.target.None?
      case RestoreProven(next) => v.c.Live() == next && v.c.Proven() == Some(next)
      case EndFit(_, _) => true
      case EndRefused(_, _, _) => true
      case _ => v.c.budget == w.c.budget && v.c.target == w.c.target
  {
  }

  /** The first compile of a run that nothing disturbs proves the budget it planned at. */
  lemma UndisturbedFitIsProven(configured: Option<nat>)
    ensures
      var began := Step(Start(configured), Begin);
      1 in began.plans && Step(began, EndFit(1, false)).c.Proven() == Some(configured.Or(DEFAULT_CONTEXT_BUDGET_TOKENS))
  {
    assert Run(Start(configured), []) == Start(configured);
    var began := Step(Start(configured), Begin);
    assert Run(began, []) == began;
    FitIsCreditedExactly(configured, [], [], false);
  }
}
