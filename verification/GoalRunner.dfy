/** `Runner.run`: a new goal, run to its end. */
module GoalRunner {
  import opened Values
  import opened Tools
  import opened Records
  import opened RunSpec
  import opened RunConservation
  import opened RunTheorems
  import opened Trace
  import SequentialRunner

  /** The result repeats the goal row; a reported success was earned by a validated `finish`, and a reported
      reason is true. */
  ghost predicate VerdictPromised(c: Config, end: RunState, r: SequentialRunner.RunResult) {
    && end.db.goal == GoalRow(r.status, r.finalResult, r.abortReason, r.totalSteps, r.replanCount, r.totalCostUsd)
    && (r.status == GoalSucceeded <==> r.finalResult.Some?)
    && (r.status == GoalAborted <==> r.abortReason.Some?)
    && (r.finalResult.Some? ==> LastCallFinished(end, r.finalResult.value))
    && (r.abortReason.Some? ==> AbortFits(c, end, r.abortReason.value))
  }

  /** It counts the rows; the budgets held; the cost is the sum of the charges; and the trace is the log of
      what was invoked and returned. */
  ghost predicate TotalsPromised(c: Config, end: RunState, r: SequentialRunner.RunResult) {
    && r.totalSteps == |end.db.calls| <= AtLeastZero(c.budget.maxSteps)
    && r.replanCount == |end.db.replans| == CountRows(end.db.subtasks, Failed) <= AtLeastZero(c.budget.maxReplans + 1)
    && r.totalCostUsd == PlannerBill(c.world, end.planned) + SelectorBill(c, end.asked)
    && ToolSequenceOf(r.trace.subtasks) == ReturnedTools(end.invoked)
  }

  ghost predicate Promised(c: Config, end: RunState, r: SequentialRunner.RunResult) {
    VerdictPromised(c, end, r) && TotalsPromised(c, end, r)
  }

  /** What the end of a run is known to satisfy. */
  ghost predicate Fits(c: Config, end: RunState) {
    && end.steps == |end.db.calls| <= AtLeastZero(c.budget.maxSteps)
    && end.replans == |end.db.replans| == CountRows(end.db.subtasks, Failed) <= AtLeastZero(c.budget.maxReplans + 1)
    && GoalClosed(NEW_GOAL, end)
    && (end.loc.ending.Success? ==> LastCallFinished(end, end.loc.ending.text))
    && (end.loc.ending.Abort? ==> AbortFits(c, end, end.loc.ending.reason))
    && end.costUsd == PlannerBill(c.world, end.planned) + SelectorBill(c, end.asked)
    && (!end.loc.ending.Crash? ==> ToolSequenceOf(TraceOf(end.db).subtasks) == ReturnedTools(end.invoked))
  }

  /** No run has touched the goal yet: no rows, no verdict, no totals. */
  predicate NewGoal(db: Db) {
    Untouched(db) && db.goal.(status := GoalRunning) == NEW_GOAL
  }

  lemma RunFits(c: Config, db: Db)
    requires RegistryOk(c.reg) && Untouched(db) && db.goal == NEW_GOAL
    ensures Fits(c, Run(c, Start(db)))
  {
    RunHolds(c, db);
    TraceFidelity(c, db, Run(c, Start(db)));
  }

  /** The result of a run that did not crash says what its goal row says. */
  lemma GoalRowIsRepeated(end: RunState, r: SequentialRunner.RunResult)
    requires GoalClosed(NEW_GOAL, end) && SequentialRunner.ResultOf(end) == Some(r)
    ensures end.db.goal == GoalRow(r.status, r.finalResult, r.abortReason, r.totalSteps, r.replanCount, r.totalCostUsd)
    ensures r.totalSteps == end.steps && r.replanCount == end.replans && r.totalCostUsd == end.costUsd
    ensures r.trace == TraceOf(end.db)
    ensures r.status == GoalSucceeded <==> r.finalResult.Some?
    ensures r.status == GoalAborted <==> r.abortReason.Some?
    ensures r.finalResult.Some? ==> end.loc.ending == Success(r.finalResult.value)
    ensures r.abortReason.Some? ==> end.loc.ending == Abort(r.abortReason.value)
    ensures !end.loc.ending.Crash?
  {
  }

  lemma FitKeepsVerdict(c: Config, end: RunState, r: SequentialRunner.RunResult)
    requires GoalClosed(NEW_GOAL, end) && SequentialRunner.ResultOf(end) == Some(r)
    requires end.loc.ending.Success? ==> LastCallFinished(end, end.loc.ending.text)
    requires end.loc.ending.Abort? ==> AbortFits(c, end, end.loc.ending.reason)
    ensures VerdictPromised(c, end, r)
  {
    GoalRowIsRepeated(end, r);
  }

  lemma FitKeepsTotals(c: Config, end: RunState, r: SequentialRunner.RunResult)
    requires Fits(c, end) && !end.loc.ending.Crash? && r.trace == TraceOf(end.db)
    requires r.totalSteps == end.steps && r.replanCount == end.replans && r.totalCostUsd == end.costUsd
    ensures TotalsPromised(c, end, r)
  {
  }

  lemma {:induction false} FitKeepsPromises(c: Config, end: RunState)
    requires Fits(c, end)
    ensures match SequentialRunner.ResultOf(end)
            case None => end.loc == Exit(Crash)
            case Some(r) => Promised(c, end, r)
  {
    var result := SequentialRunner.ResultOf(end);
    if result.Some? {
      GoalRowIsRepeated(end, result.value);
      FitKeepsVerdict(c, end, result.value);
      FitKeepsTotals(c, end, result.value);
    }
  }

  lemma RunKeepsPromises(c: Config, db: Db, end: RunState)
    requires RegistryOk(c.reg) && Untouched(db) && db.goal == NEW_GOAL && end == Run(c, Start(db))
    ensures match SequentialRunner.ResultOf(end)
            case None => end.loc == Exit(Crash)
            case Some(r) => Promised(c, end, r)
  {
    RunFits(c, db);
    FitKeepsPromises(c, end);
  }

  /** `_init_goal`: a goal looked up by id, or a new one, is marked RUNNING; an unknown id is an
      error. */
  method InitGoal(goals: map<string, Session>, id: Option<string>) returns (session: Option<Session>)
    modifies goals.Values
    ensures session.None? <==> id.Some? && id.value !in goals
    ensures id.Some? && id.value in goals ==>
      && session == Some(goals[id.value])
      && goals[id.value].View() ==
        old(goals[id.value].View()).(goal := old(goals[id.value].goal).(status := GoalRunning))
    ensures id.None? ==> fresh(session.value) && Untouched(session.value.View()) && session.value.goal == NEW_GOAL
    ensures forall s: Session :: s in goals.Values && session != Some(s) ==> unchanged(s)
  {
    if id.Some? {
      if id.value !in goals {
        return None;
      }
      assert goals[id.value] in goals.Values;
      goals[id.value].CloseGoal(goals[id.value].goal.(status := GoalRunning));
      return Some(goals[id.value]);
    }
    var goal := new Session();
    session := Some(goal);
  }

  /** `Runner.run`.  From any goal the run is that of the step function; and whatever the planner, the
      selector's provider and the tools do, a caller who starts on a new goal may rely on the promises
      above. */
  method RunGoal(c: Config, goals: map<string, Session>, id: Option<string>)
    returns (session: Option<Session>, result: Option<SequentialRunner.RunResult>, ghost end: RunState)
    requires RegistryOk(c.reg)
    modifies goals.Values
    ensures session.None? <==> id.Some? && id.value !in goals
    ensures session.None? ==> result.None?
    ensures session.Some? ==>
      session.value.View() == end.db && end.loc.Exit? && result == SequentialRunner.ResultOf(end)
    ensures session.Some? && id.Some? ==>
      && session.value == goals[id.value]
      && var db := old(goals[id.value].View());
         end == Run(c, Start(db.(goal := db.goal.(status := GoalRunning))))
    ensures session.Some? && (id.Some? ==> NewGoal(old(goals[id.value].View()))) ==>
      match result
      case None => end.loc == Exit(Crash)
      case Some(r) => Promised(c, end, r)
  {
    session := InitGoal(goals, id);
    result, end := None, Start(Db(NEW_GOAL, [], [], [], []));
    if session.Some? {
      ghost var db := session.value.View();
      result, end := SequentialRunner.RunLoop(c, session.value);
      if Untouched(db) && db.goal == NEW_GOAL {
        RunKeepsPromises(c, db, end);
      }
    }
  }
}
