/** The two engines on the same plan: one round of the sequential loop against one run of the
    parallel scheduler, under any dependency layout, any interleaving and any cap. */
module Agreement {
  import opened Values
  import opened Dag
  import opened Tools
  import opened Selector
  import opened Attempt
  import opened Bodies
  import opened Scheduler
  import opened SchedulerTheorems
  import opened ParallelRunner
  import opened Records
  import opened RunSpec
  import opened RunFacts

  // ---------------------------------------------------------------------------------------------
  // One subtask
  // ---------------------------------------------------------------------------------------------

  /** The chosen arguments do not ask for the prior output. */
  predicate PlainArguments(reg: map<string, Tool>, ps: PlannedSubtask, around: Surroundings) {
    var call := ChooseTool(reg, ps.toolHint, ps.argsOverride, around.reply).toolCall;
    call.Some? ==> "text" !in call.value.arguments || call.value.arguments["text"] != Str("__USE_PRIOR_OUTPUT__")
  }

  /** The two engines judge a subtask alike: same verdict, same tool and payload, same failure. */
  lemma {:induction false} SameVerdict(c: Config, i: nat, ps: PlannedSubtask, around: Surroundings, prior: seq<Dict>)
    requires PlainArguments(c.reg, ps, around)
    ensures var o := Observe(c, ps, around, prior);
      var r := RunOneSubtask(c.reg, i, ps, around);
      && (o.Unfit? <==> r.Escapes?)
      && (o.Passes? <==> r.Settles? && r.outcome.ok)
      && (o.Passes? ==> r.outcome.toolName == Some(o.tool) && r.outcome.output == Some(o.output))
      && (Fails(o) ==> r.outcome.failure == Some(o.failure))
  {
  }

  // ---------------------------------------------------------------------------------------------
  // One round of the sequential loop
  // ---------------------------------------------------------------------------------------------

  /** Where the round that is being walked ends. */
  ghost function RoundEnd(c: Config, s: RunState): (end: RunState)
    requires Placed(s)
    ensures Placed(end) && !end.loc.InPlan?
    decreases if s.loc.InPlan? then Left(s) + 1 else 0
  {
    if !s.loc.InPlan? then s
    else if s.loc.next == |s.loc.subs| then Step(c, s)
    else
      StepInPlan(c, s);
      RoundEnd(c, Step(c, s))
  }

  /** It is a state of the run. */
  lemma {:induction false} RoundEndIsOnTheRun(c: Config, s: RunState)
    requires Placed(s)
    ensures Run(c, RoundEnd(c, s)) == Run(c, s)
    decreases if s.loc.InPlan? then Left(s) + 1 else 0
  {
    if s.loc.InPlan? && s.loc.next < |s.loc.subs| {
      StepInPlan(c, s);
      RoundEndIsOnTheRun(c, Step(c, s));
    }
  }

  predicate CallsFinish(o: SubtaskOutcome) {
    o.toolName == Some("finish")
  }

  /** Where a walk from subtask i on stops: at the first failure or ok `finish`, or behind the last. */
  function StopAt(outcomes: seq<SubtaskOutcome>, i: nat): (m: nat)
    requires i <= |outcomes|
    ensures i <= m <= |outcomes|
    ensures forall j :: i <= j < m ==> outcomes[j].ok && !CallsFinish(outcomes[j])
    ensures m < |outcomes| ==> !outcomes[m].ok || CallsFinish(outcomes[m])
    decreases |outcomes| - i
  {
    if i == |outcomes| || !outcomes[i].ok || CallsFinish(outcomes[i]) then i else StopAt(outcomes, i + 1)
  }

  /** How many subtasks the loop attempts. */
  function Attempted(outcomes: seq<SubtaskOutcome>): (n: nat)
    ensures n <= |outcomes|
  {
    var m := StopAt(outcomes, 0);
    if m < |outcomes| then m + 1 else m
  }

  /** Subtask i comes to its outcome when it runs in the surroundings number first + i; its argument
      dict is not unfit and does not ask for the prior output. */
  ghost predicate ComesTo(c: Config, subs: seq<PlannedSubtask>, first: nat, outcomes: seq<SubtaskOutcome>, i: nat)
    requires i < |outcomes| == |subs|
  {
    && PlainArguments(c.reg, subs[i], c.world.around(first + i))
    && RunOneSubtask(c.reg, i, subs[i], c.world.around(first + i)) == Settles(outcomes[i])
  }

  /** So do the first n subtasks of a plan. */
  ghost predicate Outcomes(c: Config, subs: seq<PlannedSubtask>, first: nat, outcomes: seq<SubtaskOutcome>, n: nat) {
    && n <= |outcomes| == |subs|
    && forall i: nat :: i < n ==> ComesTo(c, subs, first, outcomes, i)
  }

  /** What the selector charges for the first k subtasks. */
  ghost function Charges(c: Config, subs: seq<PlannedSubtask>, first: nat, k: nat): real
    requires k <= |subs|
  {
    if k == 0 then 0.0 else Charges(c, subs, first, k - 1) + SelectorCharge(c, first + k - 1, subs[k - 1].toolHint)
  }

  /** Steps and money allow for subtask k of the plan. */
  ghost predicate Allows(c: Config, s: RunState, k: nat)
    requires s.loc.InPlan? && k <= |s.loc.subs|
  {
    && s.steps + k < c.budget.maxSteps
    && s.costUsd + Charges(c, s.loc.subs, |s.asked|, k) <= c.budget.maxCostUsd
  }

  /** They allow for every subtask the loop attempts. */
  ghost predicate Affordable(c: Config, s: RunState, outcomes: seq<SubtaskOutcome>)
    requires s.loc.InPlan? && |outcomes| == |s.loc.subs|
  {
    forall k: nat :: k < Attempted(outcomes) ==> Allows(c, s, k)
  }

  /** The loop stops because no tool is found. */
  predicate Refused(outcomes: seq<SubtaskOutcome>) {
    var m := StopAt(outcomes, 0);
    && m < |outcomes| && !outcomes[m].ok
    && outcomes[m].failure.Some? && outcomes[m].failure.value.kind == NoToolForSubtask
  }

  /** Only the first i rows of the plan were touched, and they are DONE. */
  ghost predicate RowsReached(s0: RunState, s: RunState, i: nat)
    requires s0.loc.InPlan?
  {
    && |s.db.subtasks| == |s0.db.subtasks| == s0.loc.base + |s0.loc.subs|
    && (forall j :: 0 <= j < s0.loc.base ==> s.db.subtasks[j] == s0.db.subtasks[j])
    && (forall j :: s0.loc.base <= j < |s.db.subtasks| ==>
          s.db.subtasks[j].status == if j < s0.loc.base + i then Done else Pending)
    && s.db.replans == s0.db.replans && s.planned == s0.planned
  }

  /** The state with i subtasks of the plan behind it, reached from s0. */
  ghost predicate Reached(c: Config, s0: RunState, s: RunState, i: nat)
    requires s0.loc.InPlan?
  {
    && i <= |s0.loc.subs|
    && s.loc == InPlan(s0.loc.subs, s0.loc.base, i) && Placed(s)
    && |s.asked| == |s0.asked| + i
    && s.steps == s0.steps + i && s.replans == s0.replans
    && s.costUsd == s0.costUsd + Charges(c, s0.loc.subs, |s0.asked|, i)
    && RowsReached(s0, s, i)
  }

  /** A plan was just persisted and nothing of it has been attempted; and the outcomes the attempted
      subtasks will reach in their surroundings. */
  ghost predicate Poised(c: Config, s: RunState, outcomes: seq<SubtaskOutcome>) {
    && RegistryOk(c.reg)
    && s.loc.InPlan? && s.loc.subs != [] && Reached(c, s, s, 0)
    && Outcomes(c, s.loc.subs, |s.asked|, outcomes, Attempted(outcomes))
  }

  /** And no budget trips: not steps or money before an attempt, not the replans after a refusal. */
  ghost predicate Setting(c: Config, s: RunState, outcomes: seq<SubtaskOutcome>) {
    && Poised(c, s, outcomes) && Affordable(c, s, outcomes)
    && (Refused(outcomes) ==> s.replans < c.budget.maxReplans)
  }

  ghost predicate SeenAs(o: Observation, outcome: SubtaskOutcome) {
    && !o.Unfit?
    && (o.Passes? <==> outcome.ok)
    && (o.Passes? ==> outcome.toolName == Some(o.tool) && outcome.output == Some(o.output))
    && (Fails(o) ==> outcome.failure == Some(o.failure))
    && (o.ToolFails? || o.Rejected? ==> o.failure.kind != NoToolForSubtask)
    && (o.NoTool? ==> o.failure.kind == NoToolForSubtask)
  }

  lemma {:induction false} ObservedAlike(c: Config, i: nat, ps: PlannedSubtask, around: Surroundings, prior: seq<Dict>,
                                         outcome: SubtaskOutcome)
    requires PlainArguments(c.reg, ps, around) && RunOneSubtask(c.reg, i, ps, around) == Settles(outcome)
    ensures SeenAs(Observe(c, ps, around, prior), outcome)
  {
    SameVerdict(c, i, ps, around, prior);
  }

  lemma {:induction false} SeenAlike(c: Config, s0: RunState, s: RunState, outcomes: seq<SubtaskOutcome>, i: nat)
    requires s0.loc.InPlan? && Outcomes(c, s0.loc.subs, |s0.asked|, outcomes, Attempted(outcomes))
    requires i < Attempted(outcomes) && s.loc == InPlan(s0.loc.subs, s0.loc.base, i) && |s.asked| == |s0.asked| + i
    ensures SeenAs(Seen(c, s), outcomes[i])
  {
    assert ComesTo(c, s0.loc.subs, |s0.asked|, outcomes, i);
    ObservedAlike(c, i, s0.loc.subs[i], c.world.around(|s0.asked| + i), s.prior, outcomes[i]);
  }

  lemma {:induction false} AttemptAllowed(c: Config, s0: RunState, s: RunState, i: nat)
    requires s0.loc.InPlan? && Reached(c, s0, s, i) && i < |s0.loc.subs| && Allows(c, s0, i)
    ensures s.steps < c.budget.maxSteps && s.costUsd <= c.budget.maxCostUsd
    ensures IsAttempt(c, s, Step(c, s)) && RoundEnd(c, s) == RoundEnd(c, Step(c, s))
  {
    AttemptIsAttempt(c, s);
  }

  lemma {:induction false} AttemptInRound(c: Config, s0: RunState, s: RunState, outcomes: seq<SubtaskOutcome>, i: nat)
    requires Poised(c, s0, outcomes) && Reached(c, s0, s, i) && i < Attempted(outcomes) && Allows(c, s0, i)
    ensures s.steps < c.budget.maxSteps && s.costUsd <= c.budget.maxCostUsd
    ensures IsAttempt(c, s, Step(c, s)) && SeenAs(Seen(c, s), outcomes[i])
    ensures RoundEnd(c, s) == RoundEnd(c, Step(c, s))
  {
    AttemptAllowed(c, s0, s, i);
    SeenAlike(c, s0, s, outcomes, i);
  }

  lemma {:induction false} AttemptReaches(c: Config, s0: RunState, s: RunState, s': RunState, i: nat)
    requires s0.loc.InPlan? && Reached(c, s0, s, i) && i < |s0.loc.subs|
    requires IsAttempt(c, s, s') && Seen(c, s).Passes? && Seen(c, s).tool != "finish"
    ensures Reached(c, s0, s', i + 1)
  {
  }

  /** The loop stands before a subtask and has the steps and the money for it, or has not. */
  ghost predicate BeforeSubtask(c: Config, s: RunState, hasMeans: bool) {
    && Placed(s) && s.loc.InPlan? && s.loc.next < |s.loc.subs|
    && hasMeans == (s.steps < c.budget.maxSteps && s.costUsd <= c.budget.maxCostUsd)
  }

  /** What an attempt keeps. */
  ghost predicate KeptByAttempts(c: Config, kept: RunState -> bool) {
    forall t: RunState :: kept(t) && BeforeSubtask(c, t, true) ==> kept(Step(c, t))
  }

  /** An ok subtask that did not call `finish` moves the round on by one. */
  lemma {:induction false} PassMovesOn(c: Config, s0: RunState, s: RunState, outcomes: seq<SubtaskOutcome>, i: nat,
                                       kept: RunState -> bool)
    returns (s': RunState)
    requires Poised(c, s0, outcomes) && Reached(c, s0, s, i) && i < StopAt(outcomes, 0) && Allows(c, s0, i)
    requires kept(s) && KeptByAttempts(c, kept)
    ensures Reached(c, s0, s', i + 1) && kept(s')
  {
    AttemptInRound(c, s0, s, outcomes, i);
    assert BeforeSubtask(c, s, true);
    s' := Step(c, s);
    AttemptReaches(c, s0, s, s', i);
  }

  /** The loop gets as far as the budgets allow, and not beyond its stop. */
  lemma {:induction false} WalkOn(c: Config, s0: RunState, s: RunState, outcomes: seq<SubtaskOutcome>, i: nat,
                                  kept: RunState -> bool)
    returns (s': RunState, k: nat)
    requires Poised(c, s0, outcomes) && Reached(c, s0, s, i) && i <= StopAt(outcomes, 0)
    requires kept(s) && KeptByAttempts(c, kept)
    ensures i <= k <= StopAt(outcomes, 0) && Reached(c, s0, s', k) && kept(s')
    ensures forall j: nat {:trigger Allows(c, s0, j)} :: i <= j < k ==> Allows(c, s0, j)
    ensures k < StopAt(outcomes, 0) ==> !Allows(c, s0, k)
    decreases StopAt(outcomes, 0) - i
  {
    if i == StopAt(outcomes, 0) || !Allows(c, s0, i) {
      s', k := s, i;
    } else {
      var next := PassMovesOn(c, s0, s, outcomes, i, kept);
      s', k := WalkOn(c, s0, next, outcomes, i + 1, kept);
    }
  }

  lemma {:induction false} NoMeans(c: Config, s0: RunState, s: RunState, i: nat)
    requires s0.loc.InPlan? && Reached(c, s0, s, i) && i < |s0.loc.subs| && !Allows(c, s0, i)
    ensures BeforeSubtask(c, s, false)
  {
  }

  /** When it never lacks the means, it gets to its stop. */
  lemma {:induction false} WalkToStop(c: Config, s: RunState, outcomes: seq<SubtaskOutcome>, kept: RunState -> bool)
    returns (stop: RunState)
    requires Poised(c, s, outcomes) && kept(s) && KeptByAttempts(c, kept)
    requires Affordable(c, s, outcomes) || forall t: RunState :: kept(t) ==> !BeforeSubtask(c, t, false)
    ensures Affordable(c, s, outcomes)
    ensures Reached(c, s, stop, StopAt(outcomes, 0)) && kept(stop)
  {
    var k;
    stop, k := WalkOn(c, s, s, outcomes, 0, kept);
    if k < |outcomes| && !Allows(c, s, k) {
      NoMeans(c, s, stop, k);
    }
  }

  /** Steps or money ended the round. */
  predicate OutOfMeans(s: RunState) {
    && s.loc.Exit? && s.loc.ending.Abort?
    && (s.loc.ending.reason.MaxStepsExceeded? || s.loc.ending.reason.MaxCostExceeded?)
  }

  /** The round goes the same way from before and from after an attempt; and it ends where the means
      for one are lacking. */
  lemma {:induction false} AttemptKeepsRoundEnd(c: Config, s: RunState, hasMeans: bool)
    requires BeforeSubtask(c, s, hasMeans)
    ensures hasMeans ==> RoundEnd(c, s) == RoundEnd(c, Step(c, s))
    ensures !hasMeans ==> OutOfMeans(RoundEnd(c, s))
  {
  }

  /** The states from which the round ends there. */
  ghost function LeadsTo(c: Config, end: RunState): RunState -> bool {
    t => Placed(t) && RoundEnd(c, t) == end
  }

  lemma {:induction false} AttemptsKeepRoundEnd(c: Config, end: RunState)
    ensures KeptByAttempts(c, LeadsTo(c, end))
    ensures !OutOfMeans(end) ==> forall t: RunState :: LeadsTo(c, end)(t) ==> !BeforeSubtask(c, t, false)
  {
    forall t: RunState, hasMeans: bool | BeforeSubtask(c, t, hasMeans)
      ensures hasMeans ==> RoundEnd(c, t) == RoundEnd(c, Step(c, t))
      ensures !hasMeans ==> OutOfMeans(RoundEnd(c, t))
    {
      AttemptKeepsRoundEnd(c, t, hasMeans);
    }
  }

  /** What happens at the stop. */
  ghost predicate Stops(c: Config, s0: RunState, end: RunState, outcomes: seq<SubtaskOutcome>)
    requires |outcomes| > 0
  {
    var m := StopAt(outcomes, 0);
    if m == |outcomes| then end.loc == Exit(Abort(PlanExhausted))
    else if outcomes[m].ok then
      && outcomes[m].output.Some? && FinalString(outcomes[m].output.value).Some?
      && end.loc == Exit(Success(FinalString(outcomes[m].output.value).value))
    else
      && outcomes[m].failure.Some? && end.lastFailure == outcomes[m].failure
      && end.loc == if Refused(outcomes) && s0.replans >= c.budget.maxReplans
                    then Exit(Abort(MaxReplansExceededAfter(outcomes[m].failure.value))) else Top
  }

  lemma {:induction false} RoundExhausted(c: Config, s0: RunState, s: RunState)
    requires s0.loc.InPlan? && Reached(c, s0, s, |s0.loc.subs|)
    ensures RoundEnd(c, s).loc == Exit(Abort(PlanExhausted))
  {
  }

  /** An ok `finish` outcome carries its text. */
  lemma {:induction false} FinishCarriesText(c: Config, s: RunState, outcomes: seq<SubtaskOutcome>, i: nat)
    requires Poised(c, s, outcomes) && i < Attempted(outcomes) && outcomes[i].ok
    ensures outcomes[i].output.Some?
    ensures outcomes[i].toolName == Some("finish") ==> FinalString(outcomes[i].output.value).Some?
  {
    assert ComesTo(c, s.loc.subs, |s.asked|, outcomes, i);
  }

  lemma {:induction false} FailureIsRemembered(c: Config, s: RunState)
    requires Placed(s) && s.loc.InPlan? && s.loc.next < |s.loc.subs|
    requires s.steps < c.budget.maxSteps && s.costUsd <= c.budget.maxCostUsd
    requires Fails(Seen(c, s))
    ensures Step(c, s).lastFailure == Some(Seen(c, s).failure)
  {
  }

  lemma {:induction false} AttemptStops(c: Config, s0: RunState, s: RunState, outcomes: seq<SubtaskOutcome>)
    requires Poised(c, s0, outcomes) && Affordable(c, s0, outcomes)
    requires StopAt(outcomes, 0) < |outcomes| && Reached(c, s0, s, StopAt(outcomes, 0))
    ensures Stops(c, s0, RoundEnd(c, s), outcomes)
  {
    var m := StopAt(outcomes, 0);
    AttemptInRound(c, s0, s, outcomes, m);
    if outcomes[m].ok {
      FinishCarriesText(c, s0, outcomes, m);
    } else {
      FailureIsRemembered(c, s);
    }
  }

  /** With the means for it, the round ends as its stop says. */
  lemma {:induction false} RoundStops(c: Config, s: RunState, outcomes: seq<SubtaskOutcome>)
    requires Poised(c, s, outcomes) && (Affordable(c, s, outcomes) || !OutOfMeans(RoundEnd(c, s)))
    ensures Affordable(c, s, outcomes) && Stops(c, s, RoundEnd(c, s), outcomes)
  {
    AttemptsKeepRoundEnd(c, RoundEnd(c, s));
    var stop := WalkToStop(c, s, outcomes, LeadsTo(c, RoundEnd(c, s)));
    if StopAt(outcomes, 0) == |outcomes| {
      RoundExhausted(c, s, stop);
    } else {
      AttemptStops(c, s, stop, outcomes);
    }
  }

  /** A budget ended the round. */
  predicate Tripped(s: RunState) {
    OutOfMeans(s) || (s.loc.Exit? && s.loc.ending.Abort? && s.loc.ending.reason.MaxReplansExceededAfter?)
  }

  /** The budget conditions of a setting are exact: the round ends on a budget if and only if they do
      not hold. */
  lemma {:induction false} BudgetsAreExact(c: Config, s: RunState, outcomes: seq<SubtaskOutcome>)
    requires Poised(c, s, outcomes)
    ensures Setting(c, s, outcomes) <==> !Tripped(RoundEnd(c, s))
  {
    if Affordable(c, s, outcomes) || !OutOfMeans(RoundEnd(c, s)) {
      RoundStops(c, s, outcomes);
    }
  }

  // ---------------------------------------------------------------------------------------------
  // The two answers
  // ---------------------------------------------------------------------------------------------

  /** What a round says to whoever asked: a final text, a failure to replan on, or neither. */
  datatype Answer = Final(text: string) | ToReplan | NoFinal | Stopped

  ghost function SequentialAnswer(end: RunState): Answer {
    match end.loc
    case Exit(Success(text)) => Final(text)
    case Exit(Abort(PlanExhausted)) => NoFinal
    case Top => if end.lastFailure.Some? then ToReplan else Stopped
    case _ => Stopped
  }

  function ParallelAnswer(r: ParallelResult): Answer {
    if r.lastFailure.Some? then ToReplan
    else if r.finalResult.Some? then Final(r.finalResult.value)
    else NoFinal
  }

  ghost predicate EveryOk(outcomes: seq<SubtaskOutcome>) {
    forall i :: 0 <= i < |outcomes| ==> outcomes[i].ok
  }

  /** The sequential answer as a function of the outcomes. */
  function WalkAnswer(outcomes: seq<SubtaskOutcome>): Answer {
    var m := StopAt(outcomes, 0);
    if m == |outcomes| then NoFinal
    else if !outcomes[m].ok then ToReplan
    else if outcomes[m].output.Some? && FinalString(outcomes[m].output.value).Some?
    then Final(FinalString(outcomes[m].output.value).value)
    else Stopped
  }

  /** The round of the sequential loop gives that answer; when it asks for a replan, it remembers the
      failure it stopped at. */
  lemma {:induction false} SequentialAnswerIs(c: Config, s: RunState, outcomes: seq<SubtaskOutcome>)
    requires Setting(c, s, outcomes)
    ensures SequentialAnswer(RoundEnd(c, s)) == WalkAnswer(outcomes)
    ensures WalkAnswer(outcomes) != Stopped
    ensures WalkAnswer(outcomes) == ToReplan ==>
      RoundEnd(c, s).lastFailure == outcomes[StopAt(outcomes, 0)].failure
  {
    RoundStops(c, s, outcomes);
  }

  /** The parallel answer as a function of the outcomes. */
  ghost function SchedulerAnswer(outcomes: seq<SubtaskOutcome>): Answer {
    if !EveryOk(outcomes) then ToReplan
    else if FinalText(outcomes).Some? then Final(FinalText(outcomes).value)
    else NoFinal
  }

  lemma {:induction false} ParallelAnswerIs(layout: seq<PlannedSubtask>, outcomes: seq<SubtaskOutcome>, cap: nat,
                                            es: seq<Event>, r: ParallelResult)
    requires IsAnswer(layout, outcomes, cap, es, r)
    ensures ParallelAnswer(r) == SchedulerAnswer(outcomes)
  {
    AnswerDependsOnOutcomesOnly(layout, outcomes, cap, es, r);
  }

  // ---------------------------------------------------------------------------------------------
  // When they differ
  // ---------------------------------------------------------------------------------------------

  /** Subtask m is ok and calls `finish`; before it all are ok and none does. */
  ghost predicate FirstFinish(outcomes: seq<SubtaskOutcome>, m: nat) {
    && m < |outcomes| && outcomes[m].ok && CallsFinish(outcomes[m])
    && forall j :: 0 <= j < m ==> outcomes[j].ok && !CallsFinish(outcomes[j])
  }

  /** All are ok and none calls `finish`, but the last payload carries a "final" string.  The
      scheduler takes the text, the loop does not. */
  ghost predicate TextWithoutFinish(outcomes: seq<SubtaskOutcome>) {
    && EveryOk(outcomes) && outcomes != []
    && (forall i :: 0 <= i < |outcomes| ==> !CallsFinish(outcomes[i]))
    && var last := outcomes[|outcomes| - 1];
       last.output.Some? && FinalString(last.output.value).Some?
  }

  /** A subtask behind the first `finish` fails.  The loop is done before, the scheduler is not. */
  ghost predicate FinishThenFailure(outcomes: seq<SubtaskOutcome>) {
    exists m: nat :: FirstFinish(outcomes, m) && !EveryOk(outcomes)
  }

  /** Subtask j is the highest finish-shaped one. */
  ghost predicate LastText(outcomes: seq<SubtaskOutcome>, j: nat) {
    && j < |outcomes| && FinishShaped(outcomes, j)
    && forall i :: j < i < |outcomes| ==> !FinishShaped(outcomes, i)
  }

  /** All are ok, and the highest finish-shaped outcome stands behind the first `finish` and carries
      another text.  The loop takes the first text, the scheduler the other. */
  ghost predicate FinishOverruled(outcomes: seq<SubtaskOutcome>) {
    exists m: nat, j: nat ::
      && FirstFinish(outcomes, m) && LastText(outcomes, j) && EveryOk(outcomes)
      && m < j && outcomes[m].output.Some?
      && FinalString(outcomes[j].output.value) != FinalString(outcomes[m].output.value)
  }

  ghost predicate Disagree(outcomes: seq<SubtaskOutcome>) {
    TextWithoutFinish(outcomes) || FinishThenFailure(outcomes) || FinishOverruled(outcomes)
  }

  lemma {:induction false} FirstFinishIsStop(outcomes: seq<SubtaskOutcome>, m: nat)
    requires FirstFinish(outcomes, m)
    ensures StopAt(outcomes, 0) == m
  {
  }

  lemma {:induction false} FinalTextOfLast(outcomes: seq<SubtaskOutcome>)
    requires EveryOk(outcomes) && outcomes != [] && forall i :: 0 <= i < |outcomes| - 1 ==> !CallsFinish(outcomes[i])
    ensures FinalText(outcomes) ==
      if outcomes[|outcomes| - 1].output.Some? then FinalString(outcomes[|outcomes| - 1].output.value) else None
  {
    if FinishShaped(outcomes, |outcomes| - 1) {
      FinalTextIsHighest(outcomes, |outcomes|, |outcomes| - 1);
    } else {
      NoFinalText(outcomes, |outcomes|);
    }
  }

  /** Where there is a finish-shaped outcome, there is a highest one. */
  lemma {:induction false} HighestText(outcomes: seq<SubtaskOutcome>, m: nat, k: nat) returns (j: nat)
    requires m < k <= |outcomes| && FinishShaped(outcomes, m)
    requires forall i :: k <= i < |outcomes| ==> !FinishShaped(outcomes, i)
    ensures m <= j && LastText(outcomes, j)
  {
    if FinishShaped(outcomes, k - 1) {
      j := k - 1;
    } else {
      j := HighestText(outcomes, m, k - 1);
    }
  }

  /** With a first `finish`, the scheduler's text is that of the highest finish-shaped outcome. */
  lemma {:induction false} TextBehindFinish(outcomes: seq<SubtaskOutcome>, m: nat) returns (j: nat)
    requires FirstFinish(outcomes, m) && outcomes[m].output.Some? && FinalString(outcomes[m].output.value).Some?
    ensures m <= j && LastText(outcomes, j) && FinalText(outcomes) == FinalString(outcomes[j].output.value)
  {
    j := HighestText(outcomes, m, |outcomes|);
    FinalTextIsHighest(outcomes, |outcomes|, j);
  }

  lemma {:induction false} OverruledIff(outcomes: seq<SubtaskOutcome>, m: nat)
    requires FirstFinish(outcomes, m) && outcomes[m].output.Some? && FinalString(outcomes[m].output.value).Some?
    ensures FinalText(outcomes).Some?
    ensures FinishOverruled(outcomes) <==>
      EveryOk(outcomes) && FinalText(outcomes) != FinalString(outcomes[m].output.value)
  {
    var j := TextBehindFinish(outcomes, m);
    assert forall m': nat :: FirstFinish(outcomes, m') ==> m' == m;
    assert forall j': nat :: LastText(outcomes, j') ==> j' == j;
  }

  /** The two answers differ on exactly those outcomes. */
  lemma {:induction false} AnswersDifferIff(outcomes: seq<SubtaskOutcome>)
    requires outcomes != [] && WalkAnswer(outcomes) != Stopped
    ensures WalkAnswer(outcomes) == SchedulerAnswer(outcomes) <==> !Disagree(outcomes)
    ensures WalkAnswer(outcomes) == ToReplan ==> SchedulerAnswer(outcomes) == ToReplan
    ensures SchedulerAnswer(outcomes) == ToReplan <==> !EveryOk(outcomes)
  {
    var m := StopAt(outcomes, 0);
    if k: nat :| FirstFinish(outcomes, k) {
      FirstFinishIsStop(outcomes, k);
      OverruledIff(outcomes, k);
    } else {
      assert !FirstFinish(outcomes, m);
      if m == |outcomes| {
        FinalTextOfLast(outcomes);
      }
    }
  }

  // ---------------------------------------------------------------------------------------------
  // Agreement
  // ---------------------------------------------------------------------------------------------

  /** The same work under another dependency layout. */
  ghost predicate SameWork(subs: seq<PlannedSubtask>, layout: seq<PlannedSubtask>) {
    && |layout| == |subs|
    && forall i :: 0 <= i < |subs| ==>
         layout[i] == subs[i].(parallel := layout[i].parallel, dependencies := layout[i].dependencies)
  }

  /** A dependency layout does not change any outcome. */
  lemma {:induction false} LayoutKeepsOutcomes(
      c: Config, subs: seq<PlannedSubtask>, layout: seq<PlannedSubtask>, first: nat, outcomes: seq<SubtaskOutcome>,
      n: nat)
    requires SameWork(subs, layout) && Outcomes(c, subs, first, outcomes, n)
    ensures Outcomes(c, layout, first, outcomes, n)
    ensures n == |subs| ==> OutcomesFor(|layout|, outcomes)
  {
    forall i: nat | i < n
      ensures ComesTo(c, layout, first, outcomes, i)
      ensures outcomes[i].idx == i && (outcomes[i].ok <==> outcomes[i].failure.None?)
    {
      assert ComesTo(c, subs, first, outcomes, i);
    }
  }

  lemma {:induction false} SomethingPlanned(c: Config, s: RunState, outcomes: seq<SubtaskOutcome>)
    requires Setting(c, s, outcomes)
    ensures outcomes != []
  {
  }

  /** Agreement.  When no argument asks for the prior output and no budget trips, the round of the
      sequential loop and the scheduler on the same work give the same answer, with the same final
      text, under every dependency layout, interleaving and cap; except on exactly three kinds of
      outcome vectors, on which they differ. */
  lemma {:induction false} EnginesAgree(c: Config, s: RunState, end: RunState, layout: seq<PlannedSubtask>,
                                        outcomes: seq<SubtaskOutcome>, cap: nat, es: seq<Event>, r: ParallelResult)
    requires Setting(c, s, outcomes) && end == RoundEnd(c, s)
    requires SameWork(s.loc.subs, layout) && IsAnswer(layout, outcomes, cap, es, r)
    ensures SequentialAnswer(end) == ParallelAnswer(r) <==> !Disagree(outcomes)
    ensures SequentialAnswer(end) != Stopped
    ensures SequentialAnswer(end) == ToReplan ==> ParallelAnswer(r) == ToReplan
    ensures ParallelAnswer(r) == ToReplan <==> !EveryOk(outcomes)
  {
    SequentialAnswerIs(c, s, outcomes);
    ParallelAnswerIs(layout, outcomes, cap, es, r);
    SomethingPlanned(c, s, outcomes);
    AnswersDifferIff(outcomes);
  }

  /** Subtasks before the last one do not call `finish`. */
  ghost predicate OnlyLastFinishes(outcomes: seq<SubtaskOutcome>) {
    forall i :: 0 <= i < |outcomes| - 1 ==> !CallsFinish(outcomes[i])
  }

  /** When only the last subtask may call `finish`, the one difference left is a text without it. */
  lemma {:induction false} OneDifferenceLeft(outcomes: seq<SubtaskOutcome>)
    requires OnlyLastFinishes(outcomes) && outcomes != []
    ensures Disagree(outcomes) <==> TextWithoutFinish(outcomes)
  {
    if EveryOk(outcomes) {
      FinalTextOfLast(outcomes);
    }
    assert forall m: nat :: FirstFinish(outcomes, m) ==> m == |outcomes| - 1;
  }

  ghost predicate FirstFailure(outcomes: seq<SubtaskOutcome>, f: nat) {
    f < |outcomes| && !outcomes[f].ok && forall i :: 0 <= i < f ==> outcomes[i].ok
  }

  lemma {:induction false} ChainReportsFirstFailure(
      layout: seq<PlannedSubtask>, outcomes: seq<SubtaskOutcome>, cap: nat, es: seq<Event>, r: ParallelResult, f: nat)
    requires IsAnswer(layout, outcomes, cap, es, r) && IsChain(DepsOf(layout)) && FirstFailure(outcomes, f)
    ensures r.lastFailure == outcomes[f].failure
  {
    var p := ProblemOf(layout, outcomes, cap);
    ChainRefinesForLoop(p, es);
    StopsAtFirstFailure(p.ok, f);
  }

  /** When the layout is a chain and the loop asks for a replan, the two engines even hand the same
      failure to the planner. */
  lemma {:induction false} ChainsReportTheSameFailure(
      c: Config, s: RunState, end: RunState, layout: seq<PlannedSubtask>,
      outcomes: seq<SubtaskOutcome>, cap: nat, es: seq<Event>, r: ParallelResult)
    requires Setting(c, s, outcomes) && end == RoundEnd(c, s) && SequentialAnswer(end) == ToReplan
    requires SameWork(s.loc.subs, layout) && IsChain(DepsOf(layout)) && IsAnswer(layout, outcomes, cap, es, r)
    ensures end.lastFailure == r.lastFailure
  {
    SequentialAnswerIs(c, s, outcomes);
    ChainReportsFirstFailure(layout, outcomes, cap, es, r, StopAt(outcomes, 0));
  }

  // ---------------------------------------------------------------------------------------------
  // The differences are real
  // ---------------------------------------------------------------------------------------------

  /** The k-th attempt calls the tool with its number. */
  function Numbered(tool: string, tools: ToolBehaviour): nat -> Surroundings {
    (k: nat) => Surroundings(ChatReply([ToolRequest(tool, map["n" := Int(k)])], 0.0), tools)
  }

  function Says(text: string): ToolRun {
    Output(map["final" := Str(text)], 0)
  }

  function Calls(tool: string): PlannedSubtask {
    PlannedSubtask("d", tool, 0.0, None, false, [])
  }

  /** One round of n subtasks, each of which calls the tool. */
  function Stage(tool: string, tools: ToolBehaviour, n: nat): Config {
    Config(Budget(n, 1, 1.0), map[tool := Teller(tool)],
           World((_: nat) => false, (_: nat) => Plans(seq(n, _ => Calls(tool)), 0.0), Numbered(tool, tools)), _ => "")
  }

  function Opened(tool: string, n: nat): RunState {
    OpenPlan(Start(Db(NEW_GOAL, [], [], [], [])), seq(n, _ => Calls(tool)))
  }

  /** What subtask i of such a round comes to. */
  function Told(tool: string, i: nat, run: ToolRun): SubtaskOutcome {
    match run
    case Output(payload, _) => SubtaskOutcome(i, "d", Some(tool), Some(payload), true, None)
    case _ => SubtaskOutcome(i, "d", Some(tool), None, false, Some(FailureReason(ToolReturnedError, Some(tool))))
  }

  lemma {:induction false} StageTells(tool: string, tools: ToolBehaviour, n: nat, i: nat)
    requires i < n
    requires var run := tools(tool, map["n" := Int(i)]);
      run.RaisesOther? || (run.Output? && FinalString(run.payload).Some? && "confidence" !in run.payload
        && run.latencyMs <= 1000)
    ensures var c := Stage(tool, tools, n);
      && PlainArguments(c.reg, Calls(tool), c.world.around(i))
      && RunOneSubtask(c.reg, i, Calls(tool), c.world.around(i)) ==
        Settles(Told(tool, i, tools(tool, map["n" := Int(i)])))
  {
  }

  lemma {:induction false} StageIsSet(tool: string, tools: ToolBehaviour, outcomes: seq<SubtaskOutcome>)
    requires outcomes != []
    requires forall i: nat :: i < |outcomes| ==>
      RunOneSubtask(Stage(tool, tools, |outcomes|).reg, i, Calls(tool), Numbered(tool, tools)(i)) ==
        Settles(outcomes[i])
    ensures Setting(Stage(tool, tools, |outcomes|), Opened(tool, |outcomes|), outcomes)
    ensures OutcomesFor(|outcomes|, outcomes)
  {
    var c, s := Stage(tool, tools, |outcomes|), Opened(tool, |outcomes|);
    NoCharge(c, s.loc.subs, 0, |outcomes|);
    forall i: nat | i < |outcomes|
      ensures ComesTo(c, s.loc.subs, 0, outcomes, i)
      ensures outcomes[i].idx == i && (outcomes[i].ok <==> outcomes[i].failure.None?)
    {
      assert RunOneSubtask(c.reg, i, Calls(tool), Numbered(tool, tools)(i)) == Settles(outcomes[i]);
    }
  }

  lemma {:induction false} NoCharge(c: Config, subs: seq<PlannedSubtask>, first: nat, k: nat)
    requires k <= |subs| && forall i: nat :: c.world.around(i).reply.costUsd == 0.0
    ensures forall i: nat :: i <= k ==> Charges(c, subs, first, i) == 0.0
  {
    if k > 0 {
      NoCharge(c, subs, first, k - 1);
    }
  }

  lemma {:induction false} SomeAnswer(plan: seq<PlannedSubtask>, outcomes: seq<SubtaskOutcome>)
    returns (es: seq<Event>, r: ParallelResult)
    requires OutcomesFor(|plan|, outcomes)
    ensures IsAnswer(plan, outcomes, 1, es, r)
  {
    var p := ProblemOf(plan, outcomes, 1);
    es := EveryRunCanReturn(p, []);
    r := ParallelRunner.ResultOf(outcomes, After(p, es));
  }

  /** A text without `finish`: the loop exhausts its plan, the scheduler succeeds. */
  lemma {:induction false} TextWithoutFinishHappens()
    returns (c: Config, s: RunState, outcomes: seq<SubtaskOutcome>, es: seq<Event>, r: ParallelResult)
    ensures Setting(c, s, outcomes) && IsAnswer(s.loc.subs, outcomes, 1, es, r)
    ensures SequentialAnswer(RoundEnd(c, s)) == NoFinal && ParallelAnswer(r) == Final("x")
  {
    var tools: ToolBehaviour := (_, _) => Says("x");
    c, s, outcomes := Stage("t", tools, 1), Opened("t", 1), [Told("t", 0, Says("x"))];
    StageTells("t", tools, 1, 0);
    StageIsSet("t", tools, outcomes);
    SequentialAnswerIs(c, s, outcomes);
    es, r := SomeAnswer(s.loc.subs, outcomes);
    ParallelAnswerIs(s.loc.subs, outcomes, 1, es, r);
    FinalTextOfLast(outcomes);
  }

  ghost predicate OnlyFirstShipsText(outcomes: seq<SubtaskOutcome>) {
    && |outcomes| == 2 && ShipsText(outcomes[0]) && !ShipsText(outcomes[1])
    && outcomes[0].toolName != Some("finish") && outcomes[1].toolName != Some("finish")
  }

  function EarlyText(): seq<SubtaskOutcome> {
    [Told("t", 0, Output(PAYLOAD, 0)), Told("t", 1, Output(map[], 0))]
  }

  lemma {:induction false} EarlyTextIsEarly()
    ensures OutcomesFor(2, EarlyText()) && EveryOk(EarlyText()) && OnlyFirstShipsText(EarlyText())
  {
  }

  /** Of two bodies that pass, the first ships a text, the second an empty payload. */
  lemma {:induction false} EarlyTextIsProducible()
    ensures Producible([Calls("t"), Calls("t")], EarlyText())
  {
    var plan := [Calls("t"), Calls("t")];
    var reg := map["t" := Tool("t", _ => true, _ => true, 1000)];
    var around := (i: nat) =>
      Surroundings(ChatReply([ToolRequest("t", map[])], 0.0),
                   (_, _) => if i == 0 then Output(PAYLOAD, 0) else Output(map[], 0));
    forall i: nat | i < 2
      ensures RunOneSubtask(reg, i, plan[i], around(i)) == Settles(EarlyText()[i])
    {
    }
    assert Produces(reg, plan, around, EarlyText());
  }

  lemma {:induction false} IgnoredText(plan: seq<PlannedSubtask>, outcomes: seq<SubtaskOutcome>)
    returns (es: seq<Event>, r: ParallelResult)
    requires OutcomesFor(|plan|, outcomes) && EveryOk(outcomes) && OnlyFirstShipsText(outcomes)
    ensures IsAnswer(plan, outcomes, 1, es, r) && r.lastFailure.None? && r.finalResult.None?
  {
    es, r := SomeAnswer(plan, outcomes);
    TextsIgnoredIff(plan, outcomes, 1, es, r);
  }

  /** A text that another tool than `finish` ships before the last subtask does not end the plan: the
      scheduler returns without one. */
  lemma {:induction false} EarlyTextIsIgnored()
    returns (plan: seq<PlannedSubtask>, outcomes: seq<SubtaskOutcome>, es: seq<Event>, r: ParallelResult)
    ensures Producible(plan, outcomes) && IsAnswer(plan, outcomes, 1, es, r)
    ensures EveryOk(outcomes) && OnlyFirstShipsText(outcomes)
    ensures r.lastFailure.None? && r.finalResult.None?
  {
    plan, outcomes := [Calls("t"), Calls("t")], EarlyText();
    EarlyTextIsEarly();
    EarlyTextIsProducible();
    es, r := IgnoredText(plan, outcomes);
  }

  /** Subtask 0 tells "a", subtask 1 does something else. */
  function TwoTools(second: ToolRun): ToolBehaviour {
    (_, args) => if args == map["n" := Int(0)] then Says("a") else second
  }

  lemma {:induction false} TwoToolsSay(second: ToolRun)
    ensures TwoTools(second)("finish", map["n" := Int(0)]) == Says("a")
    ensures TwoTools(second)("finish", map["n" := Int(1)]) == second
  {
    assert map["n" := Int(1)]["n"] != map["n" := Int(0)]["n"];
  }

  lemma {:induction false} TwoTold(second: ToolRun, i: nat)
    requires i < 2 && (second == RaisesOther("down") || second == Says("b"))
    ensures var tools := TwoTools(second);
      RunOneSubtask(Stage("finish", tools, 2).reg, i, Calls("finish"), Numbered("finish", tools)(i))
      == Settles(Told("finish", i, if i == 0 then Says("a") else second))
  {
    TwoToolsSay(second);
    StageTells("finish", TwoTools(second), 2, i);
  }

  lemma {:induction false} TwoFinishes(second: ToolRun) returns (outcomes: seq<SubtaskOutcome>)
    requires second == RaisesOther("down") || second == Says("b")
    ensures outcomes == [Told("finish", 0, Says("a")), Told("finish", 1, second)]
    ensures Setting(Stage("finish", TwoTools(second), 2), Opened("finish", 2), outcomes) && OutcomesFor(2, outcomes)
  {
    outcomes := [Told("finish", 0, Says("a")), Told("finish", 1, second)];
    TwoTold(second, 0);
    TwoTold(second, 1);
    StageIsSet("finish", TwoTools(second), outcomes);
  }

  lemma {:induction false} TwoFinishesAnswers(second: ToolRun, outcomes: seq<SubtaskOutcome>)
    requires second == RaisesOther("down") || second == Says("b")
    requires outcomes == [Told("finish", 0, Says("a")), Told("finish", 1, second)]
    ensures WalkAnswer(outcomes) == Final("a")
    ensures SchedulerAnswer(outcomes) == if second.Output? then Final("b") else ToReplan
  {
    if second.Output? {
      assert FinishShaped(outcomes, 1);
      FinalTextIsHighest(outcomes, 2, 1);
    } else {
      assert !outcomes[1].ok;
    }
  }

  /** A `finish` before the last subtask: the loop takes its text; the scheduler replans on a later
      failure, or takes a later text. */
  lemma {:induction false} EarlyFinishHappens(fails: bool)
    returns (c: Config, s: RunState, outcomes: seq<SubtaskOutcome>, es: seq<Event>, r: ParallelResult)
    ensures Setting(c, s, outcomes) && IsAnswer(s.loc.subs, outcomes, 1, es, r)
    ensures SequentialAnswer(RoundEnd(c, s)) == Final("a")
    ensures ParallelAnswer(r) == if fails then ToReplan else Final("b")
  {
    var second := if fails then RaisesOther("down") else Says("b");
    c, s := Stage("finish", TwoTools(second), 2), Opened("finish", 2);
    outcomes := TwoFinishes(second);
    TwoFinishesAnswers(second, outcomes);
    SequentialAnswerIs(c, s, outcomes);
    es, r := SomeAnswer(s.loc.subs, outcomes);
    ParallelAnswerIs(s.loc.subs, outcomes, 1, es, r);
  }
}
