/** What the sequential loop promises of every run on an untouched goal, for any planner, selector
    and tool behaviour. */
module RunTheorems {
  import opened Values
  import opened Tools
  import opened Records
  import opened RunSpec
  import opened RunFacts
  import opened RunInvariants
  import opened RunConservation
  import opened Trace

  // ---------------------------------------------------------------------------------------------
  // The invariant
  // ---------------------------------------------------------------------------------------------

  function AtLeastZero(n: int): nat {
    if n < 0 then 0 else n
  }

  /** Steps stay within their cap with no slack; replans within one of theirs; and no plan is
      requested after the last permitted replan. */
  ghost predicate BudgetInv(b: Budget, s: RunState) {
    && 0 <= s.steps <= AtLeastZero(b.maxSteps)
    && s.replans <= AtLeastZero(b.maxReplans + 1)
    && s.planned <= AtLeastZero(b.maxReplans + 1)
  }

  /** No call of the plan being walked was a `finish`. */
  ghost predicate NoFinishYet(s: RunState) {
    s.loc.InPlan? ==>
      forall k :: 0 <= k < |s.db.calls| && s.db.calls[k].subtask >= s.loc.base ==> s.db.calls[k].toolName != "finish"
  }

  /** Until the run ends its goal row is as it started. */
  ghost predicate GoalInv(g: GoalRow, s: RunState) {
    !s.loc.Exit? ==> s.db.goal == g
  }

  ghost predicate Inv(c: Config, g: GoalRow, s: RunState) {
    && LocInv(c, s)
    && FollowsPlans(c.world, s.persisted, s.db.subtasks)
    && ShapeInv(c, s)
    && EventInv(s)
    && CallsInv(s.db.calls, Frontier(s))
    && PriorInv(s)
    && LogInv(s)
    && ValidationInv(s)
    && MoneyInv(c, s)
    && BudgetInv(c.budget, s)
    && NoFinishYet(s)
    && GoalInv(g, s)
  }

  lemma StartSatisfiesInv(c: Config, db: Db)
    requires Untouched(db)
    ensures Inv(c, db.goal, Start(db))
  {
  }

  lemma StepKeepsBudget(c: Config, s: RunState, s': RunState)
    requires BudgetInv(c.budget, s) && LocInv(c, s) && !s.loc.Exit?
    requires Placed(s) && s' == Step(c, s)
    requires IsClose(s, s') || IsOpen(c, s, s') || IsAttempt(c, s, s')
    ensures BudgetInv(c.budget, s')
  {
    if IsClose(s, s') && s.loc.Top? {
      assert s'.planned == s.planned || s.replans <= c.budget.maxReplans;
    }
  }

  lemma StepKeepsNoFinish(c: Config, s: RunState, s': RunState)
    requires NoFinishYet(s) && CallsInv(s.db.calls, Frontier(s)) && !s.loc.Exit?
    requires IsClose(s, s') || IsOpen(c, s, s') || IsAttempt(c, s, s')
    ensures NoFinishYet(s')
  {
  }

  lemma StepKeepsGoal(c: Config, g: GoalRow, s: RunState)
    requires Placed(s) && GoalInv(g, s)
    ensures GoalInv(g, Step(c, s))
  {
  }

  lemma InvIsPlaced(c: Config, g: GoalRow, s: RunState)
    requires Inv(c, g, s)
    ensures Placed(s) && Frontier(s) <= |s.db.subtasks|
  {
  }

  /** What every step of the loop keeps. */
  lemma {:induction false} StepKeepsInv(c: Config, g: GoalRow, s: RunState)
    requires RegistryOk(c.reg) && Inv(c, g, s) && !s.loc.Exit?
    ensures Placed(s) && Inv(c, g, Step(c, s))
  {
    InvIsPlaced(c, g, s);
    var s' := Step(c, s);
    StepKind(c, s);
    StepKeepsLoc(c, s, s');
    StepKeepsFollows(c, s, s');
    StepKeepsShape(c, s, s');
    StepKeepsEvents(c, s, s');
    StepKeepsCalls(c, s, s');
    StepKeepsPrior(c, s, s');
    StepKeepsLog(c, s, s');
    StepKeepsMoney(c, s);
    StepKeepsBudget(c, s, s');
    StepKeepsNoFinish(c, s, s');
    StepKeepsGoal(c, g, s);
  }

  lemma StepKeepsShape(c: Config, s: RunState, s': RunState)
    requires ShapeInv(c, s) && LocInv(c, s) && !s.loc.Exit?
    requires IsClose(s, s') || IsOpen(c, s, s') || IsAttempt(c, s, s')
    ensures ShapeInv(c, s')
  {
    if IsOpen(c, s, s') {
      OpenKeepsShape(c, s, s');
    } else if IsAttempt(c, s, s') {
      AttemptKeepsShape(c, s, s');
    } else {
      CloseKeepsShape(c, s, s');
    }
  }

  // ---------------------------------------------------------------------------------------------
  // What each ending means
  // ---------------------------------------------------------------------------------------------

  /** The goal row carries the verdict and the counters. */
  ghost predicate GoalClosed(g: GoalRow, s: RunState) {
    s.loc.Exit? && s.db.goal == ClosedGoal(g, s.loc.ending, s.steps, s.replans, s.costUsd)
  }

  /** The last thing that happened was a `finish` call that returned this text and passed. */
  ghost predicate LastCallFinished(s: RunState, text: string) {
    && s.db.calls != []
    && s.db.validations != []
    && var call := s.db.calls[|s.db.calls| - 1];
       var v := s.db.validations[|s.db.validations| - 1];
       && call.toolName == "finish" && call.status == CallOk
       && call.output.Some? && FinalString(call.output.value) == Some(text)
       && v.call == |s.db.calls| - 1 && v.valid
  }

  /** Success ends the last plan at its last DONE row, the one that called `finish`. */
  ghost predicate SuccessFits(c: Config, s: RunState, text: string) {
    && LastCallFinished(s, text)
    && 0 <= s.replans == s.persisted - 1
    && OpenSpan(s.db.subtasks, Base(c.world, s.replans), s.db.calls[|s.db.calls| - 1].subtask + 1,
      Base(c.world, s.replans + 1))
  }

  /** An aborted run stopped for the reason it gives. */
  ghost predicate AbortFits(c: Config, s: RunState, reason: AbortReason) {
    match reason
    case WallClockExceeded => c.world.late(s.planned)
    case MaxReplansExceeded(n) => n == s.replans == AtLeastZero(c.budget.maxReplans + 1)
    case MaxReplansExceededAfter(f) =>
      && s.replans == c.budget.maxReplans + 1
      && f.kind == NoToolForSubtask && s.lastFailure == Some(f)
    case PlannerError => s.planned > 0 && c.world.plan(s.planned - 1).PlannerFails?
    case EmptyPlan => s.planned > 0 && c.world.plan(s.planned - 1).Plans? && c.world.plan(s.planned - 1).subtasks == []
    case MaxCostExceeded => s.costUsd > c.budget.maxCostUsd
    case MaxStepsExceeded(n) => n == s.steps == AtLeastZero(c.budget.maxSteps)
    case PlanExhausted =>
      && 0 <= s.replans == s.persisted - 1
      && OpenSpan(s.db.subtasks, Base(c.world, s.replans), Base(c.world, s.replans + 1), Base(c.world, s.replans + 1))
      && forall k :: 0 <= k < |s.db.calls| && s.db.calls[k].subtask >= Base(c.world, s.replans) ==>
           s.db.calls[k].toolName != "finish"
  }

  /** A crash leaves one tool-call row with the default status and no output, of a call that did not
      return, on a row that is still PENDING, and the goal as it was. */
  ghost predicate CrashFits(s: RunState) {
    && s.db.calls != [] && |s.invoked| == |s.db.calls|
    && var call := s.db.calls[|s.db.calls| - 1];
       && call.status == CallOk && call.output.None?
       && call.subtask < |s.db.subtasks| && s.db.subtasks[call.subtask].status == Pending
       && Logged(call, s.invoked[|s.db.calls| - 1])
  }

  ghost predicate EndFits(c: Config, g: GoalRow, s: RunState) {
    && GoalClosed(g, s)
    && match s.loc.ending
       case Success(text) => SuccessFits(c, s, text)
       case Abort(reason) => AbortFits(c, s, reason)
       case Crash => CrashFits(s) && s.db.goal == g
  }

  lemma StepClosesGoal(c: Config, s: RunState)
    requires Placed(s) && !s.loc.Exit? && Step(c, s).loc.Exit?
    ensures GoalClosed(s.db.goal, Step(c, s))
  {
  }

  lemma TopEnds(c: Config, s: RunState)
    requires s.loc.Top? && LocInv(c, s) && BudgetInv(c.budget, s)
    requires StepTop(c, s).loc.Exit?
    ensures StepTop(c, s).loc.ending.Abort? && AbortFits(c, StepTop(c, s), StepTop(c, s).loc.ending.reason)
  {
  }

  lemma WalkEndsByBudget(c: Config, s: RunState)
    requires Placed(s) && s.loc.InPlan? && LocInv(c, s) && ShapeInv(c, s) && NoFinishYet(s) && BudgetInv(c.budget, s)
    requires s.loc.next == |s.loc.subs| || s.steps >= c.budget.maxSteps || s.costUsd > c.budget.maxCostUsd
    ensures var s' := Step(c, s);
      s'.loc.Exit? && s'.loc.ending.Abort? && AbortFits(c, s', s'.loc.ending.reason)
  {
    assert s.loc.base + |s.loc.subs| == Base(c.world, s.replans + 1);
  }

  lemma RefusalEnds(c: Config, s: RunState, r: nat, o: Observation)
    requires s.loc.InPlan? && r < |s.db.subtasks| && s.replans <= c.budget.maxReplans
    requires o.NoTool? && o.failure.kind == NoToolForSubtask
    ensures var s' := Record(c.budget, s, r, o);
      s'.loc.Exit? ==> s'.loc.ending.Abort? && AbortFits(c, s', s'.loc.ending.reason)
  {
  }

  lemma FinishEnds(c: Config, s: RunState, s': RunState, r: nat, o: Observation)
    requires s.loc.InPlan? && r < |s.db.subtasks| && o.Passes? && o.tool == "finish" && FinalString(o.output).Some?
    requires RowsWritten(s, s', r, o)
    ensures LastCallFinished(s', FinalString(o.output).value)
    ensures s'.db.calls[|s'.db.calls| - 1].subtask == r
  {
  }

  lemma AttemptSucceeds(c: Config, s: RunState, s': RunState)
    requires ShapeInv(c, s) && LocInv(c, s) && IsAttempt(c, s, s')
    requires s'.loc.Exit? && s'.loc.ending.Success?
    ensures SuccessFits(c, s', s'.loc.ending.text)
  {
    var r := s.loc.base + s.loc.next;
    var o := Seen(c, s);
    assert o.Passes?;
    FinishEnds(c, s, s', r, o);
    assert s.loc.base + |s.loc.subs| == Base(c.world, s.replans + 1);
    PassKeepsShape(c.world, s.db.subtasks, s.replans, r, o);
  }

  lemma AttemptCrashes(c: Config, s: RunState, s': RunState)
    requires ShapeInv(c, s) && EventInv(s) && IsAttempt(c, s, s') && CrashIsUnfit(s', Seen(c, s))
    requires s'.loc == Exit(Crash)
    ensures CrashFits(s')
  {
  }

  lemma AttemptEnds(c: Config, s: RunState)
    requires Placed(s) && s.loc.InPlan? && s.loc.next < |s.loc.subs|
    requires s.steps < c.budget.maxSteps && s.costUsd <= c.budget.maxCostUsd
    requires s.replans <= c.budget.maxReplans && Step(c, s).loc.Exit? && Step(c, s).loc.ending.Abort?
    ensures AbortFits(c, Step(c, s), Step(c, s).loc.ending.reason)
  {
    var ps := s.loc.subs[s.loc.next];
    var around := c.world.around(|s.asked|);
    var o := Observe(c, ps, around, s.prior);
    if o.NoTool? {
      RefusalEnds(c, Ask(c, s, ps, around), s.loc.base + s.loc.next, o);
    } else {
      RecordMoves(c.budget, Ask(c, s, ps, around), s.loc.base + s.loc.next, o);
    }
  }

  /** The step that ends a run leaves exactly what the ending says. */
  lemma {:induction false} StepEnds(c: Config, g: GoalRow, s: RunState)
    requires RegistryOk(c.reg) && Inv(c, g, s) && !s.loc.Exit?
    requires Placed(s) && Step(c, s).loc.Exit?
    ensures EndFits(c, g, Step(c, s))
  {
    StepClosesGoal(c, s);
    if s.loc.Top? {
      TopEnds(c, s);
    } else if s.loc.next == |s.loc.subs| || s.steps >= c.budget.maxSteps || s.costUsd > c.budget.maxCostUsd {
      WalkEndsByBudget(c, s);
    } else {
      WalkEndsByAttempt(c, g, s);
    }
  }

  lemma WalkEndsByAttempt(c: Config, g: GoalRow, s: RunState)
    requires RegistryOk(c.reg) && LocInv(c, s) && ShapeInv(c, s) && EventInv(s) && Placed(s)
    requires s.loc.InPlan? && s.loc.next < |s.loc.subs| && s.steps < c.budget.maxSteps
      && s.costUsd <= c.budget.maxCostUsd
    requires Step(c, s).loc.Exit?
    requires GoalClosed(g, Step(c, s))
    ensures EndFits(c, g, Step(c, s))
  {
    var s' := Step(c, s);
    AttemptIsAttempt(c, s);
    if s'.loc.ending.Success? {
      AttemptSucceeds(c, s, s');
    } else if s'.loc.ending.Crash? {
      OnlyUnfitCrashes(c, s, s');
      AttemptCrashes(c, s, s');
    } else {
      AttemptEnds(c, s);
    }
  }

  // ---------------------------------------------------------------------------------------------
  // Whole runs
  // ---------------------------------------------------------------------------------------------

  /** The state after n steps. */
  ghost function StateAt(c: Config, s: RunState, n: nat): RunState
    requires Placed(s)
    ensures Placed(StateAt(c, s, n))
  {
    if n == 0 then s else Step(c, StateAt(c, s, n - 1))
  }

  /** The invariant, and once the run has ended, the meaning of its ending. */
  ghost predicate Holds(c: Config, g: GoalRow, s: RunState) {
    Inv(c, g, s) && (s.loc.Exit? ==> EndFits(c, g, s))
  }

  lemma {:induction false} StepKeepsHolds(c: Config, g: GoalRow, s: RunState)
    requires RegistryOk(c.reg) && Holds(c, g, s)
    ensures Placed(s) && Holds(c, g, Step(c, s))
  {
    InvIsPlaced(c, g, s);
    if !s.loc.Exit? {
      StepKeepsInv(c, g, s);
      if Step(c, s).loc.Exit? {
        StepEnds(c, g, s);
      }
    }
  }

  lemma StartHolds(c: Config, db: Db)
    requires Untouched(db)
    ensures Holds(c, db.goal, Start(db))
  {
    StartSatisfiesInv(c, db);
  }

  /** What holds at the start and is kept by every step holds in every state. */
  lemma {:induction false} KeptByEveryStep(c: Config, s: RunState, n: nat, kept: RunState -> bool)
    requires Placed(s) && kept(s)
    requires forall t: RunState :: kept(t) && Placed(t) ==> kept(Step(c, t))
    ensures kept(StateAt(c, s, n))
  {
    if n > 0 {
      KeptByEveryStep(c, s, n - 1, kept);
    }
  }

  /** Safety: every state of every run satisfies the invariant. */
  lemma {:induction false} EveryStateHolds(c: Config, db: Db, n: nat)
    requires RegistryOk(c.reg) && Untouched(db)
    ensures Holds(c, db.goal, StateAt(c, Start(db), n))
  {
    StartHolds(c, db);
    forall t: RunState | Holds(c, db.goal, t) && Placed(t)
      ensures Holds(c, db.goal, Step(c, t))
    {
      StepKeepsHolds(c, db.goal, t);
    }
    KeptByEveryStep(c, Start(db), n, t => Holds(c, db.goal, t));
  }

  /** The run's end is one of those states, so the run takes finitely many steps. */
  lemma {:induction false} RunIsAState(c: Config, s: RunState, k: nat) returns (n: nat)
    requires Placed(s)
    ensures StateAt(c, s, n) == Run(c, StateAt(c, s, k))
    decreases Slack(c, StateAt(c, s, k)), Rank(c, StateAt(c, s, k)), Left(StateAt(c, s, k))
  {
    if StateAt(c, s, k).loc.Exit? {
      n := k;
    } else {
      StepLowersMeasure(c, StateAt(c, s, k));
      assert StateAt(c, s, k + 1) == Step(c, StateAt(c, s, k));
      n := RunIsAState(c, s, k + 1);
    }
  }

  lemma RunHolds(c: Config, db: Db)
    requires RegistryOk(c.reg) && Untouched(db)
    ensures Holds(c, db.goal, Run(c, Start(db)))
  {
    var n := RunIsAState(c, Start(db), 0);
    EveryStateHolds(c, db, n);
  }

  /** At the top of the loop, clock and replans permitting, an error or an empty plan ends the run at
      once, as PlannerError or EmptyPlan; no replan is counted and no row is written.  Nothing else
      ends it that way. */
  lemma BadReplyEndsTheRun(c: Config, s: RunState)
    requires s.loc.Top? && !c.world.late(s.planned) && s.replans <= c.budget.maxReplans
    ensures var s' := Step(c, s);
      var reply := c.world.plan(s.planned);
      && (s'.loc == Exit(Abort(PlannerError)) <==> reply.PlannerFails?)
      && (s'.loc == Exit(Abort(EmptyPlan)) <==> reply.Plans? && reply.subtasks == [])
      && (reply.PlannerFails? || reply.subtasks == [] ==>
            s' == Run(c, s) && s'.replans == s.replans && s'.db == s.db.(goal := s'.db.goal))
  {
    if c.world.plan(s.planned).PlannerFails? || c.world.plan(s.planned).subtasks == [] {
      assert Run(c, s) == Run(c, Step(c, s)) == Step(c, s);
    }
  }

  // ---------------------------------------------------------------------------------------------
  // Which check ends a run
  // ---------------------------------------------------------------------------------------------

  /** At the top of the loop the checks come in this order: the clock, the replans, the planner's reply, an
      empty plan, the cost.  Each ends the run there if and only if it trips and none before it does; a
      plan is opened if and only if none trips. */
  lemma TopChecksInOrder(c: Config, s: RunState)
    requires s.loc.Top?
    ensures var loc := Step(c, s).loc;
      var late := c.world.late(s.planned);
      var spent := s.replans > c.budget.maxReplans;
      var reply := c.world.plan(s.planned);
      && (loc == Exit(Abort(WallClockExceeded)) <==> late)
      && (loc == Exit(Abort(MaxReplansExceeded(s.replans))) <==> !late && spent)
      && (loc == Exit(Abort(PlannerError)) <==> !late && !spent && reply.PlannerFails?)
      && (loc == Exit(Abort(EmptyPlan)) <==> !late && !spent && reply.Plans? && reply.subtasks == [])
      && (loc == Exit(Abort(MaxCostExceeded)) <==>
            !late && !spent && reply.Plans? && reply.subtasks != []
            && s.costUsd + reply.costUsd > c.budget.maxCostUsd)
      && (loc.InPlan? <==>
            !late && !spent && reply.Plans? && reply.subtasks != []
            && s.costUsd + reply.costUsd <= c.budget.maxCostUsd)
  {
  }

  /** Before a subtask they come in this order: the steps, the cost; the plan is exhausted exactly when
      there is no subtask left. */
  lemma SubtaskChecksInOrder(c: Config, s: RunState)
    requires Placed(s) && s.loc.InPlan?
    ensures var loc := Step(c, s).loc;
      var left := s.loc.next < |s.loc.subs|;
      && (loc == Exit(Abort(PlanExhausted)) <==> !left)
      && (loc == Exit(Abort(MaxStepsExceeded(s.steps))) <==> left && s.steps >= c.budget.maxSteps)
      && (loc == Exit(Abort(MaxCostExceeded)) <==>
            left && s.steps < c.budget.maxSteps && s.costUsd > c.budget.maxCostUsd)
  {
    if s.loc.next < |s.loc.subs| && s.steps < c.budget.maxSteps && s.costUsd <= c.budget.maxCostUsd {
      AttemptIsAttempt(c, s);
    }
  }

  lemma {:induction false} PlannedNeverFalls(c: Config, s: RunState)
    requires Placed(s)
    ensures s.planned <= Run(c, s).planned
    decreases Slack(c, s), Rank(c, s), Left(s)
  {
    if !s.loc.Exit? {
      StepKind(c, s);
      StepLowersMeasure(c, s);
      PlannedNeverFalls(c, Step(c, s));
    }
  }

  /** A clock that has run out at the top of the loop, and nothing else, ends the run as WallClockExceeded
      with no further plan requested.  It does so at once, also when the replans are used up: only the goal
      row is written, and no counter changes. */
  lemma {:induction false} ClockEndsTheRun(c: Config, s: RunState)
    requires s.loc.Top?
    ensures c.world.late(s.planned) <==>
      Run(c, s).loc == Exit(Abort(WallClockExceeded)) && Run(c, s).planned == s.planned
    ensures c.world.late(s.planned) ==>
      && Run(c, s) == Step(c, s)
      && Step(c, s) == s.(loc := Exit(Abort(WallClockExceeded)), db := s.db.(goal := Step(c, s).db.goal))
  {
    TopChecksInOrder(c, s);
    var s' := Step(c, s);
    StepRuns(c, s);
    if !c.world.late(s.planned) && !s'.loc.Exit? {
      StepKind(c, s);
      PlannedNeverFalls(c, s');
    }
  }

  lemma StepRuns(c: Config, s: RunState)
    requires Placed(s) && !s.loc.Exit?
    ensures Run(c, s) == Run(c, Step(c, s))
    ensures Step(c, s).loc.Exit? ==> Run(c, s) == Step(c, s)
  {
    StepLowersMeasure(c, s);
  }

  ghost predicate InTime(c: Config, s: RunState) {
    forall k: nat :: k < s.planned ==> !c.world.late(k)
  }

  lemma StepKeepsInTime(c: Config, s: RunState)
    requires Placed(s) && InTime(c, s)
    ensures InTime(c, Step(c, s))
  {
    if s.loc.Top? {
      TopChecksInOrder(c, s);
    } else if s.loc.InPlan? {
      StepKind(c, s);
    }
  }

  /** No plan is requested once the clock has run out: in every state of every run, it had not at any
      request so far. */
  lemma {:induction false} NoPlanAfterTheClock(c: Config, db: Db, n: nat)
    ensures forall k: nat :: k < StateAt(c, Start(db), n).planned ==> !c.world.late(k)
  {
    forall t: RunState | InTime(c, t) && Placed(t)
      ensures InTime(c, Step(c, t))
    {
      StepKeepsInTime(c, t);
    }
    KeptByEveryStep(c, Start(db), n, t => InTime(c, t));
    assert InTime(c, StateAt(c, Start(db), n));
  }

  /** So it is at the end of a run: the clock ended it if and only if it had run out at the top of the loop
      the run had reached. */
  lemma {:induction false} RunIsInTime(c: Config, db: Db)
    requires RegistryOk(c.reg) && Untouched(db)
    ensures var end := Run(c, Start(db));
      && (forall k: nat :: k < end.planned ==> !c.world.late(k))
      && (end.loc == Exit(Abort(WallClockExceeded)) ==> c.world.late(end.planned))
  {
    var n := RunIsAState(c, Start(db), 0);
    NoPlanAfterTheClock(c, db, n);
    RunHolds(c, db);
  }

  // ---------------------------------------------------------------------------------------------
  // The promises
  // ---------------------------------------------------------------------------------------------

  /** Budgeted termination.  Plan number k is requested exactly when k replans have happened; there
      are at most maxReplans + 1 plans; steps never exceed maxSteps; and the replan count exceeds
      its cap by at most one. */
  lemma {:induction false} BudgetedTermination(c: Config, db: Db, n: nat)
    requires RegistryOk(c.reg) && Untouched(db)
    ensures var s := StateAt(c, Start(db), n);
      && (s.loc.Top? ==> s.planned == s.replans)
      && s.planned <= AtLeastZero(c.budget.maxReplans + 1)
      && s.steps <= AtLeastZero(c.budget.maxSteps)
      && s.replans <= AtLeastZero(c.budget.maxReplans + 1)
  {
    EveryStateHolds(c, db, n);
  }

  /** Plan-block shape.  The rows are the persisted plans in order; the block of every superseded
      plan reads DONE*, FAILED, PENDING*; the last block, if its plan was not superseded, reads
      DONE*, PENDING*; and no row is left RUNNING. */
  lemma PlanBlockShape(c: Config, db: Db)
    requires RegistryOk(c.reg) && Untouched(db)
    ensures var s := Run(c, Start(db));
      && FollowsPlans(c.world, s.persisted, s.db.subtasks)
      && 0 <= s.replans <= s.persisted <= s.replans + 1
      && (forall k: nat :: k < s.replans ==> IsFailedSpan(s.db.subtasks, Base(c.world, k), Base(c.world, k + 1)))
      && (s.persisted > s.replans ==>
            IsOpenSpan(s.db.subtasks, Base(c.world, s.persisted - 1), Base(c.world, s.persisted)))
  {
    RunHolds(c, db);
  }

  /** Every row of the run belongs to the block of one persisted plan. */
  lemma {:induction false} RowHasABlock(w: World, m: nat, j: nat) returns (k: nat)
    requires j < Base(w, m)
    ensures k < m && Base(w, k) <= j < Base(w, k + 1)
    decreases m
  {
    if j >= Base(w, m - 1) {
      k := m - 1;
    } else {
      k := RowHasABlock(w, m - 1, j);
    }
  }

  lemma NoRowLeftRunning(c: Config, db: Db, j: nat)
    requires RegistryOk(c.reg) && Untouched(db) && j < |Run(c, Start(db)).db.subtasks|
    ensures Run(c, Start(db)).db.subtasks[j].status in {Done, Failed, Pending}
  {
    PlanBlockShape(c, db);
    var s := Run(c, Start(db));
    var k := RowHasABlock(c.world, s.persisted, j);
    BlockHasNoOther(s.db.subtasks, Base(c.world, k), j, Base(c.world, k + 1));
  }

  lemma BlockHasNoOther(rows: seq<SubtaskRow>, lo: nat, j: nat, hi: nat)
    requires lo <= j < hi <= |rows| && (IsFailedSpan(rows, lo, hi) || IsOpenSpan(rows, lo, hi))
    ensures rows[j].status in {Done, Failed, Pending}
  {
    if IsFailedSpan(rows, lo, hi) {
      var f: nat :| FailedSpan(rows, lo, f, hi);
    } else {
      var mid: nat :| OpenSpan(rows, lo, mid, hi);
    }
  }

  /** Conservation.  FAILED rows, replan events (numbered 1, 2, ...) and the replan count agree;
      tool-call rows are the steps; selector questions are steps plus refusals; validation rows are
      the verdicts of the settled ok calls; `prior_outputs` is the outputs of the DONE rows in
      execution order; and the total cost is what the planner and the selector charged. */
  lemma Conservation(c: Config, db: Db)
    requires RegistryOk(c.reg) && Untouched(db)
    ensures var s := Run(c, Start(db));
      && CountRows(s.db.subtasks, Failed) == |s.db.replans| == s.replans
      && (forall j :: 0 <= j < |s.db.replans| ==> s.db.replans[j].idx == j + 1)
      && |s.db.calls| == s.steps
      && |s.asked| == s.steps + SelectorEvents(s.db.replans)
      && Verdicts(s.db.validations) == ExpectedVerdicts(s.db.subtasks, Settled(s))
      && s.prior == DoneOutputs(s.db.subtasks, s.db.calls)
      && |s.prior| == CountRows(s.db.subtasks, Done)
      && s.costUsd == PlannerBill(c.world, s.planned) + SelectorBill(c, s.asked)
  {
    RunHolds(c, db);
  }

  /** What closing leaves on the goal row: the verdict with its text or reason, and the totals; a text or
      reason from an earlier run stays. */
  lemma ClosedRowIs(goal: GoalRow, ending: Ending, steps: int, replans: int, costUsd: real)
    ensures ClosedGoal(goal, ending, steps, replans, costUsd) ==
      if ending.Success? then GoalRow(GoalSucceeded, Some(ending.text), goal.abortReason, steps, replans, costUsd)
      else if ending.Abort? then GoalRow(GoalAborted, goal.finalResult, Some(ending.reason), steps, replans, costUsd)
      else goal
  {
  }

  /** Outcome soundness: the goal row and the rows say what the ending says. */
  lemma OutcomeSoundness(c: Config, db: Db)
    requires RegistryOk(c.reg) && Untouched(db)
    ensures EndFits(c, db.goal, Run(c, Start(db)))
  {
    RunHolds(c, db);
  }

  /** The tools of the invocations that returned, in order. */
  function ReturnedTools(invoked: seq<Invocation>): seq<string> {
    if invoked == [] then []
    else
      ReturnedTools(invoked[..|invoked| - 1]) +
      if invoked[|invoked| - 1].result.Some? then [invoked[|invoked| - 1].tool] else []
  }

  lemma {:induction false} LogMatchesRows(calls: seq<CallRow>, invoked: seq<Invocation>)
    requires |invoked| == |calls|
    requires forall k :: 0 <= k < |calls| ==>
      Logged(calls[k], invoked[k]) && (calls[k].status == CallOk ==> calls[k].output.Some?)
    ensures OkRows(calls) == ReturnedTools(invoked)
  {
    if calls != [] {
      LogMatchesRows(calls[..|calls| - 1], invoked[..|invoked| - 1]);
    }
  }

  /** Up to a crash, the ok rows are the log; a crash leaves one more, the call that never ran. */
  lemma {:induction false} CrashAddsARow(s: RunState)
    requires LogInv(s) && s.loc == Exit(Crash) && CrashFits(s)
    ensures OkRows(s.db.calls) == ReturnedTools(s.invoked) + [s.db.calls[|s.db.calls| - 1].toolName]
  {
    var n := |s.db.calls| - 1;
    LogMatchesRows(s.db.calls[..n], s.invoked[..n]);
  }

  lemma {:induction false} NoCrashNoExtraRow(s: RunState)
    requires LogInv(s) && s.loc != Exit(Crash)
    ensures OkRows(s.db.calls) == ReturnedTools(s.invoked)
  {
    LogMatchesRows(s.db.calls, s.invoked);
  }

  /** Trace fidelity: the tool sequence read back from the stored trace is the log of invocations that
      returned, in the order they happened, if and only if the run did not crash; a crashed run's
      trace lists one tool too many, the one whose arguments did not fit. */
  lemma {:induction false} TraceFidelity(c: Config, db: Db, s: RunState)
    requires RegistryOk(c.reg) && Untouched(db) && s == Run(c, Start(db))
    ensures ToolSequenceOf(TraceOf(s.db).subtasks) == ReturnedTools(s.invoked) <==> s.loc != Exit(Crash)
    ensures s.loc == Exit(Crash) ==>
      s.db.calls != [] &&
      ToolSequenceOf(TraceOf(s.db).subtasks) == ReturnedTools(s.invoked) + [s.db.calls[|s.db.calls| - 1].toolName]
  {
    RunHolds(c, db);
    RowsAreChronological(c, s);
    ToolSequenceOfRows(s.db);
    if s.loc == Exit(Crash) {
      CrashAddsARow(s);
    } else {
      NoCrashNoExtraRow(s);
    }
  }

  lemma {:induction false} NoVerdictYet(rows: seq<SubtaskRow>, calls: seq<CallRow>, validations: seq<ValidationRow>,
                                        k: nat)
    requires Verdicts(validations) == ExpectedVerdicts(rows, calls) && |calls| <= k
    ensures ValidationOf(validations, k).None?
    decreases |calls|
  {
    if calls != [] {
      var n := |calls| - 1;
      if calls[n].status == CallOk {
        LastVerdict(rows, calls, validations);
        NoVerdictYet(rows, calls[..n], validations[..|validations| - 1], k);
      } else {
        NoVerdictYet(rows, calls[..n], validations, k);
      }
    }
  }

  lemma {:induction false} LastVerdict(rows: seq<SubtaskRow>, calls: seq<CallRow>, validations: seq<ValidationRow>)
    requires Verdicts(validations) == ExpectedVerdicts(rows, calls)
    requires calls != [] && calls[|calls| - 1].status == CallOk
    ensures validations != []
    ensures Verdicts(validations[..|validations| - 1]) == ExpectedVerdicts(rows, calls[..|calls| - 1])
    ensures validations[|validations| - 1].call == |calls| - 1
    ensures validations[|validations| - 1].valid <==>
      calls[|calls| - 1].subtask < |rows| && rows[calls[|calls| - 1].subtask].status == Done
  {
    var all := Verdicts(validations);
    var before := ExpectedVerdicts(rows, calls[..|calls| - 1]);
    assert all[..|before|] == before && |all| == |before| + 1;
    assert all[..|all| - 1] == Verdicts(validations[..|validations| - 1]);
  }

  /** A call's validation row, looked up: there is one exactly when the call ended ok, and it says
      valid exactly when the subtask is DONE. */
  lemma {:induction false} VerdictLookup(rows: seq<SubtaskRow>, calls: seq<CallRow>, validations: seq<ValidationRow>,
                                         k: nat)
    requires Verdicts(validations) == ExpectedVerdicts(rows, calls) && k < |calls|
    ensures var v := ValidationOf(validations, k);
      && (v.Some? <==> calls[k].status == CallOk)
      && (v.Some? ==> (v.value.valid <==> calls[k].subtask < |rows| && rows[calls[k].subtask].status == Done))
    decreases |calls|
  {
    var n := |calls| - 1;
    if calls[n].status == CallOk {
      LastVerdict(rows, calls, validations);
      if k < n {
        VerdictLookup(rows, calls[..n], validations[..|validations| - 1], k);
      }
    } else if k < n {
      VerdictLookup(rows, calls[..n], validations, k);
    } else {
      NoVerdictYet(rows, calls[..n], validations, k);
    }
  }

  /** Every call is logged; an ok one that settled has an output, the unsettled one of a crash has none. */
  lemma {:induction false} EveryCallIsLogged(s: RunState, k: nat)
    requires LogInv(s) && k < |s.db.calls| && (s.loc == Exit(Crash) ==> CrashFits(s))
    ensures Logged(s.db.calls[k], s.invoked[k])
    ensures s.invoked[k].result.Some? <==> k < |Settled(s)| && s.db.calls[k].status == CallOk
  {
  }

  /** A call has a validation row exactly when it settled ok. */
  lemma {:induction false} ValidatedIffSettled(s: RunState, k: nat)
    requires ValidationInv(s) && k < |s.db.calls|
    ensures var v := ValidationOf(s.db.validations, k);
      && (v.Some? <==> k < |Settled(s)| && s.db.calls[k].status == CallOk)
      && (v.Some? ==> (v.value.valid <==>
            s.db.calls[k].subtask < |s.db.subtasks| && s.db.subtasks[s.db.calls[k].subtask].status == Done))
  {
    if k < |Settled(s)| {
      VerdictLookup(s.db.subtasks, Settled(s), s.db.validations, k);
    } else {
      NoVerdictYet(s.db.subtasks, Settled(s), s.db.validations, k);
    }
  }

  /** Call number k of the trace is invocation number k: its tool and its arguments, and as output of an
      ok call what the tool returned.  It has a validation exactly when the tool returned, and a valid
      one exactly when its subtask is DONE.  This includes the unsettled last call of a crashed run,
      which has neither output nor validation. */
  lemma {:induction false} TracedCallIsTrue(c: Config, db: Db, s: RunState, k: nat)
    requires RegistryOk(c.reg) && Untouched(db)
    requires s == Run(c, Start(db)) && k < |s.invoked|
    ensures |Flat(TraceOf(s.db).subtasks)| == |s.invoked| == |s.db.calls|
    ensures var tc := Flat(TraceOf(s.db).subtasks)[k];
      && s.invoked[k] == Invocation(tc.tool, tc.args, if tc.status == CallOk then tc.output else None)
      && (tc.validation.Some? <==> s.invoked[k].result.Some?)
      && (tc.validation.Some? ==>
            (tc.validation.value.valid <==>
               s.db.calls[k].subtask < |s.db.subtasks| && s.db.subtasks[s.db.calls[k].subtask].status == Done))
  {
    RunHolds(c, db);
    RowsAreChronological(c, s);
    TraceIsChronological(s.db);
    EveryCallIsLogged(s, k);
    ValidatedIffSettled(s, k);
  }

  lemma RowsAreChronological(c: Config, s: RunState)
    requires s.loc.Exit? && FollowsPlans(c.world, s.persisted, s.db.subtasks) && CallsInv(s.db.calls, Frontier(s))
    ensures Chronological(s.db)
  {
  }

  /** The trace of a run repeats its rows: one node per subtask row with the row's fields and its call, and
      the replan events in order. */
  lemma {:induction false} RunTraceRepeatsRows(c: Config, db: Db, s: RunState)
    requires RegistryOk(c.reg) && Untouched(db) && s == Run(c, Start(db))
    ensures TraceOf(s.db).replans == s.db.replans && |TraceOf(s.db).subtasks| == |s.db.subtasks|
    ensures forall r: nat :: r < |s.db.subtasks| ==> RepeatsSubtask(s.db, r, TraceOf(s.db).subtasks[r])
  {
    RunHolds(c, db);
    RowsAreChronological(c, s);
    TraceRepeatsRows(s.db);
  }
}
