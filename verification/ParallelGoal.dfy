/** The loop of `Runner.run_parallel` over the persisted rows. */
module ParallelGoal {
  import opened Values
  import opened Attempt
  import opened ParallelRunner
  import opened Records
  import opened RunSpec
  import opened RunTheorems
  import opened Trace
  import opened Dag
  import opened Determinacy
  import opened Scheduler
  import opened ParallelDriver
  import opened SequentialRunner

  // ---------------------------------------------------------------------------------------------
  // What a sequence of rounds adds up to
  // ---------------------------------------------------------------------------------------------

  /** The rows of all rounds. */
  function RowsOf(rounds: seq<Round>): seq<SubtaskRow> {
    if rounds == [] then [] else RowsOf(rounds[..|rounds| - 1]) + rounds[|rounds| - 1].rows
  }

  /** The number of ok outcomes. */
  function StepsOf(rounds: seq<Round>): nat {
    if rounds == [] then 0
    else StepsOf(rounds[..|rounds| - 1]) + OkCount(rounds[|rounds| - 1].result.completed)
  }

  /** The outputs of the ok outcomes, by round and then by index. */
  function PriorOf(rounds: seq<Round>): seq<Dict> {
    if rounds == [] then []
    else PriorOf(rounds[..|rounds| - 1]) + OkOutputs(rounds[|rounds| - 1].result.completed)
  }

  /** One replan event per failed round, numbered from 1. */
  function EventsOf(rounds: seq<Round>): seq<ReplanRow> {
    if rounds == [] then []
    else
      var before := EventsOf(rounds[..|rounds| - 1]);
      var failure := rounds[|rounds| - 1].result.lastFailure;
      if failure.Some? then before + [ReplanRow(|before| + 1, None, failure.value.kind)] else before
  }

  lemma RowsExtend(before: seq<SubtaskRow>, rounds: seq<Round>, round: Round)
    ensures before + RowsOf(rounds + [round]) == before + RowsOf(rounds) + round.rows
    ensures |RowsOf(rounds + [round])| == |RowsOf(rounds)| + |round.rows|
  {
    assert (rounds + [round])[..|rounds|] == rounds;
  }

  lemma TotalsExtend(rounds: seq<Round>, round: Round)
    ensures StepsOf(rounds + [round]) == StepsOf(rounds) + OkCount(round.result.completed)
    ensures PriorOf(rounds + [round]) == PriorOf(rounds) + OkOutputs(round.result.completed)
  {
    assert (rounds + [round])[..|rounds|] == rounds;
  }

  lemma EventsExtend(rounds: seq<Round>, round: Round)
    ensures EventsOf(rounds + [round]) == EventsOf(rounds) +
      if round.result.lastFailure.Some?
        then [ReplanRow(|EventsOf(rounds)| + 1, None, round.result.lastFailure.value.kind)] else []
  {
    assert (rounds + [round])[..|rounds|] == rounds;
  }

  /** Replan events are numbered 1, 2, ... and never name a triggering call. */
  lemma {:induction false} EventsAreNumbered(rounds: seq<Round>, j: nat)
    requires j < |EventsOf(rounds)|
    ensures EventsOf(rounds)[j].idx == j + 1 && EventsOf(rounds)[j].triggeredBy.None?
  {
    if j < |EventsOf(rounds[..|rounds| - 1])| {
      EventsAreNumbered(rounds[..|rounds| - 1], j);
    }
  }

  // ---------------------------------------------------------------------------------------------
  // Writing one round
  // ---------------------------------------------------------------------------------------------

  method PersistRound(session: Session, plan: seq<PlannedSubtask>) returns (base: nat)
    modifies session`subtasks
    ensures base == old(|session.subtasks|)
    ensures session.subtasks == old(session.subtasks) + NewRows(plan, base, true)
  {
    base := |session.subtasks|;
    for i := 0 to |plan|
      invariant session.subtasks == old(session.subtasks) + NewRows(plan, base, true)[..i]
    {
      session.AddSubtask(
        SubtaskRow(base + i, plan[i].description, Pending, plan[i].confidenceThreshold, plan[i].parallel, []));
    }
  }

  /** Fill in the dependency ids.  A dependency outside the plan raises before the rows are
      committed, so none of the ids is kept. */
  method LinkDependencies(session: Session, plan: seq<PlannedSubtask>, base: nat) returns (ok: bool)
    requires base <= |session.subtasks| && session.subtasks[base..] == NewRows(plan, base, true)
    modifies session`subtasks
    ensures ok <==> DependenciesInRange(plan)
    ensures ok <==> forall i, k :: 0 <= i < |plan| && 0 <= k < |plan[i].dependencies| ==>
      0 <= plan[i].dependencies[k] < |plan|
    ensures session.subtasks ==
      if ok then old(session.subtasks)[..base] + LinkedRows(plan, base) else old(session.subtasks)
  {
    var linked := [];
    for i := 0 to |plan|
      invariant |linked| == i
      invariant forall k :: 0 <= k < i ==> InRange(plan[k].dependencies, |plan|)
      invariant forall k :: 0 <= k < i ==>
        linked[k] == NewRows(plan, base, true)[k].(dependencies := DependencyIds(plan[k].dependencies, base, |plan|))
    {
      if !InRange(plan[i].dependencies, |plan|) {
        assert !DependenciesInRange(plan);
        return false;
      }
      linked := linked +
        [session.subtasks[base..][i].(dependencies := DependencyIds(plan[i].dependencies, base, |plan|))];
    }
    assert linked == LinkedRows(plan, base);
    session.subtasks := session.subtasks[..base] + linked;
    return true;
  }

  /** The `zip` of completed outcomes and rows. */
  method MirrorStatuses(session: Session, list: seq<SubtaskOutcome>, base: nat)
    requires base <= |session.subtasks|
    modifies session`subtasks
    ensures session.subtasks == old(session.subtasks)[..base] + Mirrored(old(session.subtasks)[base..], list)
  {
    ghost var rows := session.subtasks[base..];
    var j := 0;
    while j < |list| && base + j < |session.subtasks|
      invariant 0 <= j <= |list| && base + j <= |session.subtasks| == old(|session.subtasks|)
      invariant session.subtasks[..base] == old(session.subtasks)[..base]
      invariant forall k :: 0 <= k < |rows| ==>
        session.subtasks[base + k] == if k < j then rows[k].(status := MirroredStatus(list[k])) else rows[k]
    {
      session.MarkSubtask(base + j, MirroredStatus(list[j]));
      j := j + 1;
    }
    assert session.subtasks[base..] == Mirrored(rows, list);
    assert session.subtasks == session.subtasks[..base] + session.subtasks[base..];
  }

  /** The ok outcomes of a round: how many, and their outputs in index order. */
  method Tally(list: seq<SubtaskOutcome>) returns (n: nat, outputs: seq<Dict>)
    ensures n == OkCount(list) && outputs == OkOutputs(list)
  {
    n, outputs := 0, [];
    for i := 0 to |list|
      invariant n == OkCount(list[..i]) && outputs == OkOutputs(list[..i])
    {
      assert list[..i + 1][..i] == list[..i];
      if list[i].ok {
        n := n + 1;
        if list[i].output.Some? {
          outputs := outputs + [list[i].output.value];
        }
      }
    }
    assert list[..|list|] == list;
  }

  /** Bodies that all settle, on these outcomes. */
  function AllSettle(outcomes: seq<SubtaskOutcome>): (results: seq<AttemptResult>)
    ensures |results| == |outcomes|
    ensures forall i :: 0 <= i < |outcomes| ==> results[i] == Settles(outcomes[i])
  {
    seq(|outcomes|, (i: nat) requires i < |outcomes| => Settles(outcomes[i]))
  }

  lemma SettledBodiesReturn(plan: seq<PlannedSubtask>, outcomes: seq<SubtaskOutcome>, cap: nat, es: seq<Event>)
    ensures Landed(AllSettle(outcomes)) == outcomes
    ensures !Raises(plan, AllSettle(outcomes), cap, es)
  {
  }

  /** Execute a plan and write its rows, up to the decision what to do next. */
  method ExecuteRound(session: Session, plan: seq<PlannedSubtask>, outcomes: seq<SubtaskOutcome>, cap: nat)
    returns (ok: bool, result: ParallelResult, ghost round: Round)
    requires OutcomesFor(|plan|, outcomes) && cap >= 1
    modifies session`subtasks
    ensures ok <==> DependenciesInRange(plan)
    ensures ok ==>
      && RoundOk(round) && round.plan == plan && round.outcomes == outcomes && round.cap == cap
        && round.result == result
      && round.base == old(|session.subtasks|) && RowsFit(round)
      && session.subtasks == old(session.subtasks) + round.rows
    ensures !ok ==> session.subtasks == old(session.subtasks) + NewRows(plan, old(|session.subtasks|), true)
  {
    var base := PersistRound(session, plan);
    ok := LinkDependencies(session, plan, base);
    if ok {
      ghost var es;
      var answer;
      answer, es := RunParallel(plan, AllSettle(outcomes), cap);
      SettledBodiesReturn(plan, outcomes, cap, es);
      result := answer.value;
      MirrorStatuses(session, result.completed, base);
      round := Round(plan, outcomes, cap, es, result, base, Mirrored(LinkedRows(plan, base), result.completed));
    } else {
      result := ParallelResult(GoalRunning, None, [], None);
      round := Round(plan, outcomes, cap, [], result, base, []);
    }
  }

  // ---------------------------------------------------------------------------------------------
  // The loop
  // ---------------------------------------------------------------------------------------------

  /** Round k executed plan k on the outcomes its surroundings produce, under one cap. */
  ghost predicate RoundFollows(w: ParallelWorld, cap: nat, k: nat, round: Round)
  {
    && RoundOk(round) && round.cap == cap && RowsFit(round)
    && w.plan(k).Plans? && round.plan == w.plan(k).subtasks != [] && round.outcomes == w.outcomes(k)
  }

  ghost predicate RoundsFollow(w: ParallelWorld, cap: nat, rounds: seq<Round>)
  {
    rounds == [] ||
    (RoundsFollow(w, cap, rounds[..|rounds| - 1]) && RoundFollows(w, cap, |rounds| - 1, rounds[|rounds| - 1]))
  }

  /** Rows are numbered on through the rounds. */
  ghost predicate BasesFollow(rounds: seq<Round>, base: nat) {
    rounds == [] ||
    (var before := rounds[..|rounds| - 1];
     BasesFollow(before, base) && rounds[|rounds| - 1].base == base + |RowsOf(before)|)
  }

  ghost predicate AllFailed(rounds: seq<Round>) {
    rounds == [] || (AllFailed(rounds[..|rounds| - 1]) && rounds[|rounds| - 1].result.lastFailure.Some?)
  }

  /** The session after some rounds: their rows and replan events, and no tool-call or validation
      rows. */
  ghost predicate Wrote(before: Db, after: Db, rounds: seq<Round>, broken: seq<PlannedSubtask>) {
    var rows := before.subtasks + RowsOf(rounds);
    && after.subtasks == (if broken == [] then rows else rows + NewRows(broken, |rows|, true))
    && after.replans == before.replans + EventsOf(rounds)
    && after.calls == before.calls && after.validations == before.validations
  }

  /** How a run ended, in terms of its rounds. */
  ghost predicate EndingFits(b: Budget, w: ParallelWorld, rounds: seq<Round>, ending: Ending) {
    match ending
    case Success(text) => LastRoundSucceeded(rounds) && rounds[|rounds| - 1].result.finalResult == Some(text)
    case Abort(MaxReplansExceeded(n)) => rounds == [] && n == 0 && b.maxReplans < 0
    case Abort(MaxReplansExceededAfter(f)) =>
      AllFailed(rounds) && 0 < |rounds| == b.maxReplans + 1 && rounds[|rounds| - 1].result.lastFailure == Some(f)
    case Abort(PlannerError) => AllFailed(rounds) && |rounds| <= b.maxReplans && w.plan(|rounds|).PlannerFails?
    case Abort(EmptyPlan) =>
      && AllFailed(rounds) && |rounds| <= b.maxReplans
      && w.plan(|rounds|).Plans? && w.plan(|rounds|).subtasks == []
    case Abort(PlanExhausted) => LastRoundSucceeded(rounds) && rounds[|rounds| - 1].result.finalResult.None?
    case _ => false
  }

  /** Every round but the last failed; in the last one every subtask was ok. */
  ghost predicate LastRoundSucceeded(rounds: seq<Round>) {
    && rounds != []
    && rounds[|rounds| - 1].result.lastFailure.None?
    && AllFailed(rounds[..|rounds| - 1])
  }

  lemma {:induction false} FailedRoundsMakeEvents(rounds: seq<Round>)
    requires AllFailed(rounds)
    ensures |EventsOf(rounds)| == |rounds|
    ensures forall j :: 0 <= j < |rounds| ==>
      rounds[j].result.lastFailure.Some? &&
      EventsOf(rounds)[j] == ReplanRow(j + 1, None, rounds[j].result.lastFailure.value.kind)
  {
    if rounds != [] {
      FailedRoundsMakeEvents(rounds[..|rounds| - 1]);
    }
  }

  const SELECTOR_COST := 0.0004

  ghost function PlannerCosts(w: ParallelWorld, n: nat): real {
    if n == 0 then 0.0
    else PlannerCosts(w, n - 1) + if w.plan(n - 1).Plans? then w.plan(n - 1).costUsd else 0.0
  }

  /** An empty plan is paid for although it makes no round. */
  ghost function PlansPaid(rounds: seq<Round>, ending: Ending): nat {
    |rounds| + if ending == Abort(EmptyPlan) then 1 else 0
  }

  /** The rounds a run has behind it, and what they add up to. */
  ghost predicate Accumulated(w: ParallelWorld, cap: nat, rounds: seq<Round>, base: nat,
                              steps: int, prior: seq<Dict>)
  {
    && RoundsFollow(w, cap, rounds) && BasesFollow(rounds, base)
    && steps == StepsOf(rounds) && prior == PriorOf(rounds)
  }

  lemma RoundFollowsOn(w: ParallelWorld, cap: nat, rounds: seq<Round>, base: nat, round: Round)
    requires RoundsFollow(w, cap, rounds) && BasesFollow(rounds, base)
    requires RoundFollows(w, cap, |rounds|, round) && round.base == base + |RowsOf(rounds)|
    ensures RoundsFollow(w, cap, rounds + [round]) && BasesFollow(rounds + [round], base)
  {
    assert (rounds + [round])[..|rounds|] == rounds;
  }

  lemma RoundAccumulates(w: ParallelWorld, cap: nat, rounds: seq<Round>, base: nat, steps: int, prior: seq<Dict>,
                         round: Round)
    requires Accumulated(w, cap, rounds, base, steps, prior)
    requires RoundFollows(w, cap, |rounds|, round) && round.base == base + |RowsOf(rounds)|
    ensures Accumulated(w, cap, rounds + [round], base, steps + OkCount(round.result.completed),
                        prior + OkOutputs(round.result.completed))
  {
    RoundFollowsOn(w, cap, rounds, base, round);
    TotalsExtend(rounds, round);
  }

  /** One round: execute the plan, write its rows, and account for its ok outcomes. */
  method DriveRound(w: ParallelWorld, cap: nat, session: Session, k: nat,
                    steps: int, prior: seq<Dict>, ghost rounds: seq<Round>, ghost before: Db)
    returns (ok: bool, result: ParallelResult, n: nat, prior': seq<Dict>, ghost rounds': seq<Round>)
    requires WorldOk(w) && cap >= 1 && k == |rounds| && w.plan(k).Plans? && w.plan(k).subtasks != []
    requires Accumulated(w, cap, rounds, |before.subtasks|, steps, prior)
    requires session.subtasks == before.subtasks + RowsOf(rounds)
    modifies session`subtasks
    ensures ok <==> DependenciesInRange(w.plan(k).subtasks)
    ensures !ok ==>
      && rounds' == rounds && prior' == prior
      && session.subtasks == old(session.subtasks) + NewRows(w.plan(k).subtasks, old(|session.subtasks|), true)
    ensures ok ==>
      && |rounds'| == k + 1 && rounds'[..k] == rounds && rounds'[k].result == result
      && Accumulated(w, cap, rounds', |before.subtasks|, steps + n, prior')
      && session.subtasks == before.subtasks + RowsOf(rounds')
      && (result.lastFailure.None? || result.finalResult.None?)
      && (result.status == GoalSucceeded <==> result.finalResult.Some?)
      && EventsOf(rounds') == EventsOf(rounds) +
           if result.lastFailure.Some?
           then [ReplanRow(|EventsOf(rounds)| + 1, None, result.lastFailure.value.kind)]
           else []
  {
    ghost var round;
    n, prior', rounds' := 0, prior, rounds;
    ok, result, round := ExecuteRound(session, w.plan(k).subtasks, w.outcomes(k), cap);
    if ok {
      RoundAccumulates(w, cap, rounds, |before.subtasks|, steps, prior, round);
      RowsExtend(before.subtasks, rounds, round);
      EventsExtend(rounds, round);
      TextOrFailure(round);
      var outputs;
      n, outputs := Tally(result.completed);
      prior' := prior + outputs;
      rounds' := rounds + [round];
    }
  }

  /** What a round's result leads to: success, exhaustion, another round, or the end of the budget. */
  method Decide(b: Budget, session: Session, result: ParallelResult, replans: int)
    returns (ending: Option<Ending>, replans': int)
    requires result.lastFailure.None? || result.finalResult.None?
    requires result.status == GoalSucceeded <==> result.finalResult.Some?
    modifies session`replans
    ensures if result.lastFailure.Some? then
        && replans' == replans + 1
        && session.replans == old(session.replans) + [ReplanRow(replans', None, result.lastFailure.value.kind)]
        && ending == if replans' > b.maxReplans then Some(Abort(MaxReplansExceededAfter(result.lastFailure.value)))
          else None
      else
        && replans' == replans && session.replans == old(session.replans)
        && ending == Some(if result.finalResult.Some? then Success(result.finalResult.value) else Abort(PlanExhausted))
  {
    replans', ending := replans, None;
    if result.status == GoalSucceeded && result.finalResult.Some? {
      return Some(Success(result.finalResult.value)), replans;
    }
    if result.lastFailure.None? {
      return Some(Abort(PlanExhausted)), replans;
    }
    replans' := replans + 1;
    session.RecordReplan(replans', None, result.lastFailure.value);
    if replans' > b.maxReplans {
      ending := Some(Abort(MaxReplansExceededAfter(result.lastFailure.value)));
    }
  }

  /** The checks before a round: the replan budget, the planner, the empty plan. */
  method Consult(b: Budget, w: ParallelWorld, planned: nat, replans: int, costUsd: real)
    returns (ending: Option<Ending>, costUsd': real)
    ensures costUsd' == costUsd + if ending == Some(Abort(EmptyPlan)) && w.plan(planned).Plans?
      then w.plan(planned).costUsd else 0.0
    ensures ending ==
      if replans > b.maxReplans then Some(Abort(MaxReplansExceeded(replans)))
      else if w.plan(planned).PlannerFails? then Some(Abort(PlannerError))
      else if w.plan(planned).subtasks == [] then Some(Abort(EmptyPlan))
      else None
  {
    ending, costUsd' := None, costUsd;
    if replans > b.maxReplans {
      return Some(Abort(MaxReplansExceeded(replans))), costUsd;
    }
    var reply := w.plan(planned);
    if reply.PlannerFails? {
      return Some(Abort(PlannerError)), costUsd;
    }
    if reply.subtasks == [] {
      ending, costUsd' := Some(Abort(EmptyPlan)), costUsd + reply.costUsd;
    }
  }

  /** The loop's variables between rounds: every round so far failed. */
  ghost predicate BetweenRounds(b: Budget, w: ParallelWorld, cap: nat, before: Db, now: Db, rounds: seq<Round>,
                                steps: int, replans: int, costUsd: real, prior: seq<Dict>)
    requires WorldOk(w)
  {
    && Accumulated(w, cap, rounds, |before.subtasks|, steps, prior)
    && costUsd == PlannerCosts(w, |rounds|) + SELECTOR_COST * (steps as real)
    && Wrote(before, now, rounds, []) && now.goal == before.goal
    && AllFailed(rounds) && replans == |EventsOf(rounds)| == |rounds| <= AtLeastZero(b.maxReplans)
  }

  /** The state after the last round: the run ends, or a dependency of the last plan raised. */
  ghost predicate AfterRounds(b: Budget, w: ParallelWorld, cap: nat, before: Db, now: Db, rounds: seq<Round>,
                              steps: int, replans: int, costUsd: real, prior: seq<Dict>,
                              ending: Option<Ending>, broken: seq<PlannedSubtask>)
    requires WorldOk(w)
  {
    && Accumulated(w, cap, rounds, |before.subtasks|, steps, prior)
    && |rounds| <= AtLeastZero(b.maxReplans + 1) && replans == |EventsOf(rounds)|
    && Wrote(before, now, rounds, broken) && now.goal == before.goal
    && (ending.None? <==> !DependenciesInRange(broken))
    && (ending.None? ==>
          && AllFailed(rounds) && |rounds| <= b.maxReplans
          && w.plan(|rounds|).Plans? && broken == w.plan(|rounds|).subtasks)
    && (ending.Some? ==>
          && broken == [] && !ending.value.Crash? && EndingFits(b, w, rounds, ending.value)
          && costUsd == PlannerCosts(w, PlansPaid(rounds, ending.value)) + SELECTOR_COST * (steps as real))
  }

  lemma CostAfterRound(w: ParallelWorld, k: nat, steps: int, n: int, costUsd: real)
    requires w.plan(k).Plans?
    requires costUsd == PlannerCosts(w, k) + SELECTOR_COST * (steps as real)
    ensures costUsd + w.plan(k).costUsd + n as real * SELECTOR_COST
         == PlannerCosts(w, k + 1) + SELECTOR_COST * ((steps + n) as real)
  {
  }

  /** What the decision after a round makes of the rounds so far. */
  lemma DecisionFits(b: Budget, w: ParallelWorld, rounds: seq<Round>, rounds': seq<Round>, ending: Option<Ending>)
    requires AllFailed(rounds) && |rounds| <= b.maxReplans
    requires |rounds'| == |rounds| + 1 && rounds'[..|rounds|] == rounds
    requires var result := rounds'[|rounds|].result;
      && ending == (
           if result.lastFailure.Some? then
             if |rounds'| > b.maxReplans then Some(Abort(MaxReplansExceededAfter(result.lastFailure.value))) else None
           else
             Some(if result.finalResult.Some? then Success(result.finalResult.value) else Abort(PlanExhausted)))
    ensures ending.None? ==> AllFailed(rounds') && |rounds'| <= b.maxReplans
    ensures ending.Some? ==> !ending.value.Crash? && EndingFits(b, w, rounds', ending.value)
                             && PlansPaid(rounds', ending.value) == |rounds'|
  {
    assert AllFailed(rounds') <==> rounds'[|rounds|].result.lastFailure.Some?;
  }

  /** The decision after a round, and what it leaves behind. */
  method Settle(b: Budget, w: ParallelWorld, session: Session, result: ParallelResult, replans: int,
                ghost rounds: seq<Round>, ghost rounds': seq<Round>, ghost before: Db)
    returns (ending: Option<Ending>, replans': int)
    requires AllFailed(rounds) && replans == |EventsOf(rounds)| == |rounds| <= b.maxReplans
    requires |rounds'| == |rounds| + 1 && rounds'[..|rounds|] == rounds && rounds'[|rounds|].result == result
    requires result.lastFailure.None? || result.finalResult.None?
    requires result.status == GoalSucceeded <==> result.finalResult.Some?
    requires EventsOf(rounds') == EventsOf(rounds) +
      if result.lastFailure.Some? then [ReplanRow(|EventsOf(rounds)| + 1, None, result.lastFailure.value.kind)] else []
    requires session.replans == before.replans + EventsOf(rounds)
    modifies session`replans
    ensures session.replans == before.replans + EventsOf(rounds')
    ensures replans' == |EventsOf(rounds')|
    ensures ending.None? ==> AllFailed(rounds') && replans' == |rounds'| <= b.maxReplans
    ensures ending.Some? ==> !ending.value.Crash? && EndingFits(b, w, rounds', ending.value)
                             && PlansPaid(rounds', ending.value) == |rounds'|
  {
    ending, replans' := Decide(b, session, result, replans);
    DecisionFits(b, w, rounds, rounds', ending);
  }

  /** A dependency outside the plan raised. */
  lemma BrokenRound(b: Budget, w: ParallelWorld, cap: nat, before: Db, was: Db, now: Db, rounds: seq<Round>,
                    steps: int, replans: int, costUsd: real, costUsd': real, prior: seq<Dict>)
    requires WorldOk(w) && w.plan(|rounds|).Plans? && w.plan(|rounds|).subtasks != []
    requires replans <= b.maxReplans && !DependenciesInRange(w.plan(|rounds|).subtasks)
    requires BetweenRounds(b, w, cap, before, was, rounds, steps, replans, costUsd, prior)
    requires now == was.(subtasks := was.subtasks + NewRows(w.plan(|rounds|).subtasks, |was.subtasks|, true))
    ensures AfterRounds(b, w, cap, before, now, rounds, steps, replans, costUsd', prior, None,
      w.plan(|rounds|).subtasks)
  {
  }

  /** A round was executed and decided upon. */
  lemma SettledRound(b: Budget, w: ParallelWorld, cap: nat, before: Db, now: Db, rounds': seq<Round>,
                     steps': int, replans': int, costUsd': real, prior': seq<Dict>, ending: Option<Ending>)
    requires WorldOk(w) && rounds' != [] && |rounds'| <= b.maxReplans + 1
    requires Accumulated(w, cap, rounds', |before.subtasks|, steps', prior')
    requires costUsd' == PlannerCosts(w, |rounds'|) + SELECTOR_COST * (steps' as real)
    requires now ==
      before.(subtasks := before.subtasks + RowsOf(rounds'), replans := before.replans + EventsOf(rounds'))
    requires replans' == |EventsOf(rounds')|
    requires ending.None? ==> AllFailed(rounds') && replans' == |rounds'| <= b.maxReplans
    requires ending.Some? ==>
      !ending.value.Crash? && EndingFits(b, w, rounds', ending.value) && PlansPaid(rounds', ending.value) == |rounds'|
    ensures ending.None? ==> BetweenRounds(b, w, cap, before, now, rounds', steps', replans', costUsd', prior')
    ensures ending.Some? ==>
      AfterRounds(b, w, cap, before, now, rounds', steps', replans', costUsd', prior', ending, [])
  {
  }

  /** One round, from a non-empty plan to the decision what follows. */
  method OneRound(b: Budget, w: ParallelWorld, cap: nat, session: Session, k: nat,
                  steps: int, replans: int, costUsd: real, prior: seq<Dict>, ghost rounds: seq<Round>, ghost before: Db)
    returns (more: bool, ending: Option<Ending>, steps': int, replans': int, costUsd': real, prior': seq<Dict>,
             ghost rounds': seq<Round>, ghost broken: seq<PlannedSubtask>)
    requires WorldOk(w) && cap >= 1 && k == |rounds| && replans <= b.maxReplans
    requires w.plan(k).Plans? && w.plan(k).subtasks != []
    requires BetweenRounds(b, w, cap, before, session.View(), rounds, steps, replans, costUsd, prior)
    modifies session
    ensures more ==>
      && |rounds'| == k + 1
      && BetweenRounds(b, w, cap, before, session.View(), rounds', steps', replans', costUsd', prior')
    ensures !more ==>
      AfterRounds(b, w, cap, before, session.View(), rounds', steps', replans', costUsd', prior', ending, broken)
  {
    ghost var was := session.View();
    ending, replans', broken := None, replans, [];
    costUsd' := costUsd + w.plan(k).costUsd;
    var ok, result, n;
    ok, result, n, prior', rounds' := DriveRound(w, cap, session, k, steps, prior, rounds, before);
    steps' := steps + n;
    if !ok {
      broken := w.plan(k).subtasks;
      BrokenRound(b, w, cap, before, was, session.View(), rounds, steps, replans, costUsd, costUsd', prior);
      return false, ending, steps, replans', costUsd', prior', rounds', broken;
    }
    CostAfterRound(w, k, steps, n, costUsd);
    costUsd' := costUsd' + n as real * SELECTOR_COST;
    ending, replans' := Settle(b, w, session, result, replans, rounds, rounds', before);
    SettledRound(b, w, cap, before, session.View(), rounds', steps', replans', costUsd', prior', ending);
    more := ending.None?;
  }

  lemma NoRoundsYet(b: Budget, w: ParallelWorld, cap: nat, before: Db)
    requires WorldOk(w)
    ensures BetweenRounds(b, w, cap, before, before, [], 0, 0, 0.0, [])
  {
  }

  /** Ending before a round, at one of its checks. */
  lemma CheckEndsTheRun(b: Budget, w: ParallelWorld, cap: nat, before: Db, now: Db, rounds: seq<Round>,
                        steps: int, replans: int, costUsd: real, costUsd': real, prior: seq<Dict>, ending: Ending)
    requires WorldOk(w)
    requires BetweenRounds(b, w, cap, before, now, rounds, steps, replans, costUsd, prior)
    requires costUsd' == costUsd + if ending == Abort(EmptyPlan) && w.plan(|rounds|).Plans?
      then w.plan(|rounds|).costUsd else 0.0
    requires if replans > b.maxReplans then ending == Abort(MaxReplansExceeded(replans))
             else if w.plan(|rounds|).PlannerFails? then ending == Abort(PlannerError)
             else w.plan(|rounds|).subtasks == [] && ending == Abort(EmptyPlan)
    ensures AfterRounds(b, w, cap, before, now, rounds, steps, replans, costUsd', prior, Some(ending), [])
  {
  }

  /** The loop, up to the decision how to end.  A dependency outside its plan raises after that
      plan's rows were committed: then there is no ending, and `broken` is that plan. */
  method DriveRounds(b: Budget, w: ParallelWorld, cap: nat, session: Session)
    returns (ending: Option<Ending>, steps: int, replans: int, costUsd: real, prior: seq<Dict>,
             ghost rounds: seq<Round>, ghost broken: seq<PlannedSubtask>)
    requires WorldOk(w) && cap >= 1
    modifies session
    ensures AfterRounds(b, w, cap, old(session.View()), session.View(), rounds, steps, replans, costUsd, prior, ending,
      broken)
  {
    ending, rounds, broken, prior := None, [], [], [];
    steps, replans, costUsd := 0, 0, 0.0;
    var planned := 0;
    ghost var before := session.View();
    NoRoundsYet(b, w, cap, before);
    while true
      invariant planned == |rounds| && broken == []
      invariant BetweenRounds(b, w, cap, before, session.View(), rounds, steps, replans, costUsd, prior)
      decreases b.maxReplans + 1 - planned
    {
      ghost var soFar := costUsd;
      ending, costUsd := Consult(b, w, planned, replans, costUsd);
      if ending.Some? {
        CheckEndsTheRun(b, w, cap, before, session.View(), rounds, steps, replans, soFar, costUsd, prior, ending.value);
        return;
      }
      var more;
      more, ending, steps, replans, costUsd, prior, rounds, broken :=
        OneRound(b, w, cap, session, planned, steps, replans, costUsd, prior, rounds, before);
      if !more {
        return;
      }
      planned, broken := planned + 1, [];
    }
  }

  /** What the caller sees: the verdict of the ending, the totals of the rounds, the trace of the
      rows. */
  ghost function ResultOfRounds(ending: Ending, rounds: seq<Round>, costUsd: real, db: Db): Option<RunResult> {
    match ending
    case Success(text) =>
      Some(RunResult(GoalSucceeded, Some(text), None, StepsOf(rounds), |EventsOf(rounds)|, costUsd, TraceOf(db)))
    case Abort(reason) =>
      Some(RunResult(GoalAborted, None, Some(reason), StepsOf(rounds), |EventsOf(rounds)|, costUsd, TraceOf(db)))
    case Crash => None
  }

  /** `_succeed` or `_abort` on the totals of the rounds. */
  method CloseRounds(session: Session, ending: Ending, steps: int, replans: int, costUsd: real,
                     ghost rounds: seq<Round>)
    returns (result: Option<RunResult>)
    requires !ending.Crash? && steps == StepsOf(rounds) && replans == |EventsOf(rounds)|
    modifies session`goal
    ensures session.goal == ClosedGoal(old(session.goal), ending, StepsOf(rounds), |EventsOf(rounds)|, costUsd)
    ensures result == ResultOfRounds(ending, rounds, costUsd, session.View())
  {
    result := CloseRun(session, ending, steps, replans, costUsd);
  }

  /** The planner's bill of a run and the flat price of its ok outcomes. */
  ghost function CostOf(w: ParallelWorld, rounds: seq<Round>, ending: Ending): real {
    PlannerCosts(w, PlansPaid(rounds, ending)) + SELECTOR_COST * (StepsOf(rounds) as real)
  }

  /** What a run of the driver leaves behind: its rounds follow the planner's replies, at most
      maxReplans + 1 of them; the rows and replan events are theirs; and goal row and result carry the
      ending the last round calls for, with the totals of the rounds.  Without an ending, the plan
      `broken` raised after its rows were committed. */
  ghost predicate Delivered(b: Budget, w: ParallelWorld, cap: nat, before: Db, after: Db, rounds: seq<Round>,
                            broken: seq<PlannedSubtask>, ending: Option<Ending>, result: Option<RunResult>)
  {
    && RoundsFollow(w, cap, rounds) && BasesFollow(rounds, |before.subtasks|)
    && |rounds| <= AtLeastZero(b.maxReplans + 1)
    && Wrote(before, after, rounds, broken)
    && match ending
       case None =>
         && AllFailed(rounds) && |rounds| <= b.maxReplans
         && w.plan(|rounds|).Plans? && broken == w.plan(|rounds|).subtasks && !DependenciesInRange(broken)
         && result.None? && after.goal == before.goal
       case Some(e) =>
         && broken == [] && !e.Crash? && EndingFits(b, w, rounds, e)
         && after.goal == ClosedGoal(before.goal, e, StepsOf(rounds), |EventsOf(rounds)|, CostOf(w, rounds, e))
         && result == ResultOfRounds(e, rounds, CostOf(w, rounds, e), after)
  }

  lemma WroteButGoal(before: Db, mid: Db, after: Db, rounds: seq<Round>, broken: seq<PlannedSubtask>)
    requires Wrote(before, mid, rounds, broken) && after == mid.(goal := after.goal)
    ensures Wrote(before, after, rounds, broken)
  {
  }

  lemma RunDelivers(b: Budget, w: ParallelWorld, cap: nat, before: Db, mid: Db, after: Db, rounds: seq<Round>,
                    steps: int, replans: int, costUsd: real, prior: seq<Dict>,
                    ending: Option<Ending>, broken: seq<PlannedSubtask>, result: Option<RunResult>)
    requires WorldOk(w)
    requires AfterRounds(b, w, cap, before, mid, rounds, steps, replans, costUsd, prior, ending, broken)
    requires after == mid.(goal := after.goal)
    requires match ending
             case None => after == mid && result.None?
             case Some(e) =>
               && after.goal == ClosedGoal(mid.goal, e, StepsOf(rounds), |EventsOf(rounds)|, costUsd)
               && result == ResultOfRounds(e, rounds, costUsd, after)
    ensures Delivered(b, w, cap, before, after, rounds, broken, ending, result) && prior == PriorOf(rounds)
  {
    WroteButGoal(before, mid, after, rounds, broken);
  }

  /** `Runner.run_parallel`.  Only the replan budget is enforced. */
  method RunParallelGoal(b: Budget, w: ParallelWorld, cap: nat, session: Session)
    returns (result: Option<RunResult>, prior: seq<Dict>,
             ghost rounds: seq<Round>, ghost broken: seq<PlannedSubtask>, ghost ending: Option<Ending>)
    requires WorldOk(w) && cap >= 1
    modifies session
    ensures Delivered(b, w, cap, old(session.View()), session.View(), rounds, broken, ending, result)
    ensures prior == PriorOf(rounds)
  {
    var end, steps, replans, costUsd;
    end, steps, replans, costUsd, prior, rounds, broken := DriveRounds(b, w, cap, session);
    ghost var mid := session.View();
    ending := end;
    result := None;
    if end.Some? {
      EndedRounds(b, w, cap, old(session.View()), mid, rounds, steps, replans, costUsd, prior, end.value, broken);
      result := CloseRounds(session, end.value, steps, replans, costUsd, rounds);
    }
    RunDelivers(b, w, cap, old(session.View()), mid, session.View(), rounds, steps, replans, costUsd, prior, ending,
      broken, result);
  }

  lemma EndedRounds(b: Budget, w: ParallelWorld, cap: nat, before: Db, mid: Db, rounds: seq<Round>,
                    steps: int, replans: int, costUsd: real, prior: seq<Dict>, ending: Ending,
                    broken: seq<PlannedSubtask>)
    requires WorldOk(w)
    requires AfterRounds(b, w, cap, before, mid, rounds, steps, replans, costUsd, prior, Some(ending), broken)
    ensures !ending.Crash? && steps == StepsOf(rounds) && replans == |EventsOf(rounds)|
  {
  }

  /** The planner answered with an error or with an empty plan. */
  predicate BadReply(reply: PlanReply) {
    reply.PlannerFails? || reply.subtasks == []
  }

  /** A bad reply ends the run: no run has a round for it or after it; and a run that gets as far as
      a bad reply, within its replan budget, ends with PlannerError or EmptyPlan exactly as the reply
      is an error or empty. */
  lemma {:induction false} BadReplyEndsTheRun(
      b: Budget, w: ParallelWorld, cap: nat, before: Db, after: Db, rounds: seq<Round>,
      broken: seq<PlannedSubtask>, ending: Option<Ending>, result: Option<RunResult>, k: nat)
    requires Delivered(b, w, cap, before, after, rounds, broken, ending, result)
    ensures BadReply(w.plan(k)) ==> |rounds| <= k
    ensures k == |rounds| <= b.maxReplans && AllFailed(rounds) ==>
      && (ending == Some(Abort(PlannerError)) <==> w.plan(k).PlannerFails?)
      && (ending == Some(Abort(EmptyPlan)) <==> w.plan(k).Plans? && w.plan(k).subtasks == [])
  {
    if k < |rounds| {
      RoundAt(w, cap, rounds, k);
    }
  }

  // ---------------------------------------------------------------------------------------------
  // The rows the run leaves
  // ---------------------------------------------------------------------------------------------

  lemma {:induction false} RoundAt(w: ParallelWorld, cap: nat, rounds: seq<Round>, k: nat)
    requires RoundsFollow(w, cap, rounds) && k < |rounds|
    ensures RoundFollows(w, cap, k, rounds[k])
  {
    if k < |rounds| - 1 {
      RoundAt(w, cap, rounds[..|rounds| - 1], k);
    }
  }

  lemma SliceOfFirst<T>(a: seq<T>, b: seq<T>, lo: nat, hi: nat)
    requires lo <= hi <= |a|
    ensures (a + b)[lo..hi] == a[lo..hi]
  {
  }

  /** The rows of round k start where the rows of the rounds before it end. */
  lemma {:induction false} RowsLieAtBase(rounds: seq<Round>, base: nat, k: nat)
    requires BasesFollow(rounds, base) && k < |rounds|
    ensures base <= rounds[k].base && rounds[k].base - base + |rounds[k].rows| <= |RowsOf(rounds)|
    ensures RowsOf(rounds)[rounds[k].base - base..rounds[k].base - base + |rounds[k].rows|] == rounds[k].rows
  {
    var before, last := rounds[..|rounds| - 1], rounds[|rounds| - 1];
    if k < |rounds| - 1 {
      RowsLieAtBase(before, base, k);
      SliceOfFirst(RowsOf(before), last.rows, rounds[k].base - base, rounds[k].base - base + |rounds[k].rows|);
    } else {
      assert (RowsOf(before) + last.rows)[|RowsOf(before)|..] == last.rows;
    }
  }

  /** The rows a round left in the session. */
  function RowsLeft(db: Db, round: Round): seq<SubtaskRow> {
    if round.base + |round.rows| <= |db.subtasks| then db.subtasks[round.base..round.base + |round.rows|] else []
  }

  /** The rows of the rounds lie between the rows there were and those of a plan that raised. */
  lemma RowsWritten(before: Db, after: Db, rounds: seq<Round>, broken: seq<PlannedSubtask>)
    returns (more: seq<SubtaskRow>)
    requires Wrote(before, after, rounds, broken)
    ensures after.subtasks == before.subtasks + RowsOf(rounds) + more
  {
    var rows := before.subtasks + RowsOf(rounds);
    more := if broken == [] then [] else NewRows(broken, |rows|, true);
  }

  lemma {:induction false} RowsLeftAreTheRounds(before: Db, after: Db, rounds: seq<Round>, broken: seq<PlannedSubtask>,
                                                k: nat)
    requires BasesFollow(rounds, |before.subtasks|) && Wrote(before, after, rounds, broken) && k < |rounds|
    ensures RowsLeft(after, rounds[k]) == rounds[k].rows
  {
    var more := RowsWritten(before, after, rounds, broken);
    RowsLieAtBase(rounds, |before.subtasks|, k);
    var lo := rounds[k].base - |before.subtasks|;
    SliceInside(before.subtasks, RowsOf(rounds), more, lo, lo + |rounds[k].rows|);
  }

  lemma SliceInside<T>(a: seq<T>, b: seq<T>, c: seq<T>, lo: nat, hi: nat)
    requires lo <= hi <= |b|
    ensures (a + b + c)[|a| + lo..|a| + hi] == b[lo..hi]
  {
    SliceOfSecond(a, b, lo, hi);
    SliceOfFirst(a + b, c, |a| + lo, |a| + hi);
  }

  lemma SliceOfSecond<T>(a: seq<T>, b: seq<T>, lo: nat, hi: nat)
    requires lo <= hi <= |b|
    ensures (a + b)[|a| + lo..|a| + hi] == b[lo..hi]
  {
  }

  /** The row of subtask i of a round, as the session keeps it: number, description, threshold and parallel
      flag are the subtask's; and its j-th dependency id is the row of the j-th subtask it lists, of the
      same round. */
  ghost predicate RowOfSubtask(db: Db, round: Round, i: nat)
    requires i < |round.plan|
  {
    && round.base + |round.plan| <= |db.subtasks|
    && var row := db.subtasks[round.base + i];
       && row.idx == round.base + i && row.description == round.plan[i].description
       && row.confidenceThreshold == round.plan[i].confidenceThreshold && row.parallel == round.plan[i].parallel
       && |row.dependencies| == |round.plan[i].dependencies|
       && forall j :: 0 <= j < |row.dependencies| ==>
            && round.base <= row.dependencies[j] < round.base + |round.plan|
            && row.dependencies[j] - round.base == round.plan[i].dependencies[j]
            && db.subtasks[row.dependencies[j]].idx == row.dependencies[j]
            && db.subtasks[row.dependencies[j]].description ==
                 round.plan[round.plan[i].dependencies[j]].description
  }

  lemma {:induction false} RoundRowIs(round: Round, i: nat)
    requires RowsFit(round) && i < |round.plan|
    ensures |round.rows| == |round.plan|
    ensures round.rows[i] == LinkedRows(round.plan, round.base)[i].(status := round.rows[i].status)
  {
  }

  lemma {:induction false} SessionRowIs(db: Db, round: Round, i: nat)
    requires RowsFit(round) && i < |round.plan| && RowsLeft(db, round) == round.rows
    ensures round.base + |round.plan| <= |db.subtasks|
    ensures db.subtasks[round.base + i] ==
      LinkedRows(round.plan, round.base)[i].(status := db.subtasks[round.base + i].status)
  {
    RoundRowIs(round, i);
    assert RowsLeft(db, round)[i] == round.rows[i];
  }

  lemma {:induction false} SessionRowFields(db: Db, round: Round, i: nat)
    requires RowsFit(round) && i < |round.plan| && RowsLeft(db, round) == round.rows
    ensures round.base + |round.plan| <= |db.subtasks|
    ensures var row := db.subtasks[round.base + i];
      && row.idx == round.base + i && row.description == round.plan[i].description
      && row.confidenceThreshold == round.plan[i].confidenceThreshold && row.parallel == round.plan[i].parallel
      && |row.dependencies| == |round.plan[i].dependencies|
      && forall j :: 0 <= j < |row.dependencies| ==>
           0 <= round.plan[i].dependencies[j] < |round.plan|
           && row.dependencies[j] == round.base + round.plan[i].dependencies[j]
  {
    SessionRowIs(db, round, i);
    LinkedRowIs(round.plan, round.base, i);
    assert InRange(round.plan[i].dependencies, |round.plan|);
  }

  lemma {:induction false} SessionRowFits(db: Db, round: Round, i: nat)
    requires RowsFit(round) && i < |round.plan| && RowsLeft(db, round) == round.rows
    ensures RowOfSubtask(db, round, i)
  {
    SessionRowFields(db, round, i);
    forall j | 0 <= j < |round.plan[i].dependencies|
      ensures var d := round.plan[i].dependencies[j];
        0 <= d < |round.plan| && db.subtasks[round.base + d].idx == round.base + d
        && db.subtasks[round.base + d].description == round.plan[d].description
    {
      SessionRowFields(db, round, round.plan[i].dependencies[j]);
    }
  }

  /** After a run of the driver, every row of every round is its subtask's. */
  lemma {:induction false} RunLeavesPlanRows(w: ParallelWorld, cap: nat, before: Db, after: Db, rounds: seq<Round>,
                                             broken: seq<PlannedSubtask>, k: nat, i: nat)
    requires RoundsFollow(w, cap, rounds) && BasesFollow(rounds, |before.subtasks|)
    requires Wrote(before, after, rounds, broken) && k < |rounds| && i < |rounds[k].plan|
    ensures RowOfSubtask(after, rounds[k], i)
  {
    RoundAt(w, cap, rounds, k);
    RowsLeftAreTheRounds(before, after, rounds, broken, k);
    SessionRowFits(after, rounds[k], i);
  }

  lemma RoundIsFaithfulWhen(round: Round)
    requires RoundOk(round) && RowsFit(round)
    ensures FaithfulRound(round) <==> IsPrefix(Completed(round))
    ensures round.result.lastFailure.None? || Nested(DepsOf(round.plan)) ==> FaithfulRound(round)
  {
    RoundFaithfulIffPrefix(round);
    if round.result.lastFailure.None? {
      FailureFreeRoundIsFaithful(round);
    } else if Nested(DepsOf(round.plan)) {
      NestedCompletesAPrefix(ProblemOf(round.plan, round.outcomes, round.cap), round.events);
    }
  }

  /** After a run of the driver, the rows of each round show their own subtasks' statuses if and only
      if what completed in the round has no gap; so they do when nothing failed in it, and for every
      plan in which each subtask waits for all that earlier ones wait for directly. */
  lemma {:induction false} RunLeavesFaithfulRows(w: ParallelWorld, cap: nat, before: Db, after: Db, rounds: seq<Round>,
                                                 broken: seq<PlannedSubtask>, k: nat)
    requires cap >= 1 && RoundsFollow(w, cap, rounds) && BasesFollow(rounds, |before.subtasks|)
    requires Wrote(before, after, rounds, broken) && k < |rounds|
    ensures Faithful(RowsLeft(after, rounds[k]), rounds[k].outcomes, Completed(rounds[k])) <==>
      IsPrefix(Completed(rounds[k]))
    ensures rounds[k].result.lastFailure.None? || Nested(DepsOf(rounds[k].plan)) ==>
      Faithful(RowsLeft(after, rounds[k]), rounds[k].outcomes, Completed(rounds[k]))
  {
    RoundAt(w, cap, rounds, k);
    RowsLeftAreTheRounds(before, after, rounds, broken, k);
    RoundIsFaithfulWhen(rounds[k]);
  }

  // ---------------------------------------------------------------------------------------------
  // What the run is billed
  // ---------------------------------------------------------------------------------------------

  /** A subtask of a round. */
  datatype Place = Place(round: nat, index: nat)

  /** The subtasks that completed ok, over all rounds. */
  ghost function OkPlaces(rounds: seq<Round>): set<Place> {
    set k: nat, i: nat | k < |rounds| && i in CompletedOk(rounds[k]) :: Place(k, i)
  }

  ghost function PlacesOf(k: nat, indices: set<nat>): set<Place> {
    set i: nat | i in indices :: Place(k, i)
  }

  lemma {:induction false} PlacesSize(k: nat, indices: set<nat>)
    ensures |PlacesOf(k, indices)| == |indices|
  {
    if indices != {} {
      var i :| i in indices;
      PlacesSize(k, indices - {i});
      assert PlacesOf(k, indices) == PlacesOf(k, indices - {i}) + {Place(k, i)};
    } else {
      assert PlacesOf(k, indices) == {};
    }
  }

  /** The steps of a run are the subtasks that completed ok. */
  lemma {:induction false} StepsAreOkPlaces(w: ParallelWorld, cap: nat, rounds: seq<Round>)
    requires RoundsFollow(w, cap, rounds)
    ensures StepsOf(rounds) == |OkPlaces(rounds)|
  {
    if rounds == [] {
      assert OkPlaces(rounds) == {};
    } else {
      var n := |rounds| - 1;
      StepsAreOkPlaces(w, cap, rounds[..n]);
      RoundSteps(rounds[n]);
      PlacesSize(n, CompletedOk(rounds[n]));
      PlacesExtend(rounds);
    }
  }

  lemma {:induction false} PlacesExtend(rounds: seq<Round>)
    requires rounds != []
    ensures var n := |rounds| - 1;
      |OkPlaces(rounds)| == |OkPlaces(rounds[..n])| + |PlacesOf(n, CompletedOk(rounds[n]))|
  {
    var n := |rounds| - 1;
    var a, b := OkPlaces(rounds[..n]), PlacesOf(n, CompletedOk(rounds[n]));
    forall p: Place
      ensures p in OkPlaces(rounds) <==> p in a || p in b
    {
      if p.round < n {
        assert rounds[..n][p.round] == rounds[p.round];
      }
    }
    assert OkPlaces(rounds) == a + b && a !! b;
  }

  /** The bill before a plan is requested and after it was delivered. */
  lemma EachPlanIsPaid(w: ParallelWorld, n: nat)
    ensures PlannerCosts(w, 0) == 0.0
    ensures w.plan(n).Plans? ==> PlannerCosts(w, n + 1) - PlannerCosts(w, n) == w.plan(n).costUsd
    ensures w.plan(n).PlannerFails? ==> PlannerCosts(w, n + 1) == PlannerCosts(w, n)
  {
  }

  /** What a run that ended reports, in its result and in the goal row: as steps the subtasks that
      completed ok, as replans the failed rounds, as cost the plans received, an empty one included, and
      0.0004 for each step. */
  lemma {:induction false} RunIsBilled(
      b: Budget, w: ParallelWorld, cap: nat, before: Db, after: Db, rounds: seq<Round>,
      broken: seq<PlannedSubtask>, ending: Option<Ending>, result: Option<RunResult>)
    requires Delivered(b, w, cap, before, after, rounds, broken, ending, result) && ending.Some?
    ensures result.Some?
    ensures result.value.totalSteps == after.goal.totalSteps == |OkPlaces(rounds)|
    ensures result.value.replanCount == after.goal.replanCount ==
      if LastRoundSucceeded(rounds) then |rounds| - 1 else |rounds|
    ensures result.value.totalCostUsd == after.goal.totalCostUsd ==
      PlannerCosts(w, |rounds| + if ending.value == Abort(EmptyPlan) then 1 else 0)
      + 0.0004 * (|OkPlaces(rounds)| as real)
  {
    StepsAreOkPlaces(w, cap, rounds);
    if LastRoundSucceeded(rounds) {
      FailedRoundsMakeEvents(rounds[..|rounds| - 1]);
    } else {
      FailedRoundsMakeEvents(rounds);
    }
  }

  /** The prior outputs of a round follow those of the rounds before it. */
  lemma {:induction false} PriorByRounds(rounds: seq<Round>, k: nat)
    requires k < |rounds|
    ensures PriorOf(rounds[..k]) + OkOutputs(rounds[k].result.completed) <= PriorOf(rounds)
  {
    if k < |rounds| - 1 {
      PriorByRounds(rounds[..|rounds| - 1], k);
      assert rounds[..|rounds| - 1][..k] == rounds[..k];
    }
  }
}
