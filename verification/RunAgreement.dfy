/** The two engines over whole runs: a planner that opts into nothing, and the same replies. */
module RunAgreement {
  import opened Values
  import opened Dag
  import opened Attempt
  import opened SchedulerTheorems
  import opened Determinacy
  import opened ParallelRunner
  import opened ParallelDriver
  import opened ParallelGoal
  import opened Records
  import opened Tools
  import opened RunSpec
  import opened RunFacts
  import opened Agreement
  import opened SequentialRunner
  import opened RunTheorems

  // ---------------------------------------------------------------------------------------------
  // One round of the sequential loop, row by row
  // ---------------------------------------------------------------------------------------------

  /** What the loop leaves on row j of a plan. */
  function WalkStatus(outcomes: seq<SubtaskOutcome>, j: nat): SubtaskStatus {
    var m := StopAt(outcomes, 0);
    if j > m then Pending else if m < |outcomes| && j == m && !outcomes[m].ok then Failed else Done
  }

  predicate FailsAtStop(outcomes: seq<SubtaskOutcome>) {
    var m := StopAt(outcomes, 0);
    m < |outcomes| && !outcomes[m].ok
  }

  ghost predicate SameStatuses(rows: seq<SubtaskRow>, rows': seq<SubtaskRow>) {
    |rows| == |rows'| && forall j :: 0 <= j < |rows| ==> rows[j].status == rows'[j].status
  }

  /** Replan events that agree on number and reason; only the sequential loop names a triggering call. */
  ghost predicate SameEvents(events: seq<ReplanRow>, events': seq<ReplanRow>) {
    && |events| == |events'|
    && forall j :: 0 <= j < |events| ==>
         events[j].idx == events'[j].idx && events[j].failureReason == events'[j].failureReason
  }

  /** What the round from s0 to `end` did to the rows of its plan. */
  ghost predicate RowsLeftBy(s0: RunState, end: RunState, outcomes: seq<SubtaskOutcome>)
    requires s0.loc.InPlan?
  {
    && |end.db.subtasks| == |s0.db.subtasks| == s0.loc.base + |outcomes|
    && (forall j :: 0 <= j < s0.loc.base ==> end.db.subtasks[j] == s0.db.subtasks[j])
    && (forall j: nat :: j < |outcomes| ==> end.db.subtasks[s0.loc.base + j].status == WalkStatus(outcomes, j))
  }

  /** What it did to the counters and the replan events. */
  ghost predicate CountersLeftBy(s0: RunState, end: RunState, outcomes: seq<SubtaskOutcome>) {
    && |end.asked| == |s0.asked| + Attempted(outcomes) && end.planned == s0.planned
    && if FailsAtStop(outcomes) then
         var failure := outcomes[StopAt(outcomes, 0)].failure;
         && failure.Some? && end.lastFailure == failure && end.replans == s0.replans + 1
         && |end.db.replans| == |s0.db.replans| + 1 && end.db.replans[..|s0.db.replans|] == s0.db.replans
         && end.db.replans[|s0.db.replans|].idx == s0.replans + 1
         && end.db.replans[|s0.db.replans|].failureReason == failure.value.kind
       else end.replans == s0.replans && end.db.replans == s0.db.replans
  }

  lemma {:induction false} ExhaustedRowsLeft(c: Config, s0: RunState, stop: RunState, outcomes: seq<SubtaskOutcome>)
    requires s0.loc.InPlan? && |outcomes| == |s0.loc.subs| && StopAt(outcomes, 0) == |outcomes|
    requires Reached(c, s0, stop, |outcomes|)
    ensures RowsLeftBy(s0, RoundEnd(c, stop), outcomes) && CountersLeftBy(s0, RoundEnd(c, stop), outcomes)
  {
  }

  lemma {:induction false} AttemptRowsLeft(
      c: Config, s0: RunState, stop: RunState, end: RunState, outcomes: seq<SubtaskOutcome>)
    requires s0.loc.InPlan? && |outcomes| == |s0.loc.subs| && StopAt(outcomes, 0) < |outcomes|
    requires Reached(c, s0, stop, StopAt(outcomes, 0))
    requires IsAttempt(c, stop, end) && SeenAs(Seen(c, stop), outcomes[StopAt(outcomes, 0)])
    ensures RowsLeftBy(s0, end, outcomes)
  {
  }

  lemma {:induction false} AttemptCountersLeft(
      c: Config, s0: RunState, stop: RunState, end: RunState, outcomes: seq<SubtaskOutcome>)
    requires s0.loc.InPlan? && |outcomes| == |s0.loc.subs| && StopAt(outcomes, 0) < |outcomes|
    requires Reached(c, s0, stop, StopAt(outcomes, 0))
    requires IsAttempt(c, stop, end) && SeenAs(Seen(c, stop), outcomes[StopAt(outcomes, 0)])
    requires FailsAtStop(outcomes) ==> end.lastFailure == outcomes[StopAt(outcomes, 0)].failure
    ensures CountersLeftBy(s0, end, outcomes)
  {
  }

  lemma {:induction false} StopEndsTheRound(c: Config, s0: RunState, stop: RunState, outcomes: seq<SubtaskOutcome>)
    requires Poised(c, s0, outcomes) && Affordable(c, s0, outcomes) && StopAt(outcomes, 0) < |outcomes|
    requires Reached(c, s0, stop, StopAt(outcomes, 0))
    ensures IsAttempt(c, stop, RoundEnd(c, stop)) && SeenAs(Seen(c, stop), outcomes[StopAt(outcomes, 0)])
  {
    AttemptInRound(c, s0, stop, outcomes, StopAt(outcomes, 0));
  }

  /** A round that does not end on steps or money ends as its stop says, and leaves these rows. */
  lemma {:induction false} RoundLeaves(c: Config, s: RunState, outcomes: seq<SubtaskOutcome>, end: RunState)
    requires Poised(c, s, outcomes) && end == RoundEnd(c, s) && !OutOfMeans(end)
    ensures Stops(c, s, end, outcomes) && RowsLeftBy(s, end, outcomes) && CountersLeftBy(s, end, outcomes)
  {
    RoundStops(c, s, outcomes);
    AttemptsKeepRoundEnd(c, end);
    var stop := WalkToStop(c, s, outcomes, LeadsTo(c, end));
    if StopAt(outcomes, 0) == |outcomes| {
      ExhaustedRowsLeft(c, s, stop, outcomes);
    } else {
      StopEndsTheRound(c, s, stop, outcomes);
      AttemptRowsLeft(c, s, stop, end, outcomes);
      AttemptCountersLeft(c, s, stop, end, outcomes);
    }
  }

  // ---------------------------------------------------------------------------------------------
  // One round of the driver, row by row
  // ---------------------------------------------------------------------------------------------

  /** No subtask is marked parallel or lists a dependency. */
  predicate OptsIntoNothing(plan: seq<PlannedSubtask>) {
    forall i :: 0 <= i < |plan| ==> !plan[i].parallel && plan[i].dependencies == []
  }

  lemma {:induction false} OptingIntoNothingIsAChain(plan: seq<PlannedSubtask>)
    requires OptsIntoNothing(plan)
    ensures IsChain(DepsOf(plan)) && DependenciesInRange(plan)
  {
    forall i: nat | i < |plan|
      ensures DepsOf(plan)[i] == Range(i)
    {
      ImplicitPlanIsAChain(plan, i);
    }
  }

  /** Its subtasks run up to and including the first failure, and every row shows its own status. */
  lemma {:induction false} ChainRound(round: Round)
    requires RoundOk(round) && RowsFit(round) && OptsIntoNothing(round.plan)
    ensures |round.rows| == |round.outcomes|
    ensures var k := StopsAfter(Oks(round.outcomes));
      forall j: nat :: j < |round.rows| ==>
        round.rows[j].status == if j < k then MirroredStatus(round.outcomes[j]) else Pending
  {
    var p := ProblemOf(round.plan, round.outcomes, round.cap);
    OptingIntoNothingIsAChain(round.plan);
    ChainRefinesForLoop(p, round.events);
    ChainIsNested(p.deps);
    NestedCompletesAPrefix(p, round.events);
    RoundFaithfulIffPrefix(round);
  }

  // ---------------------------------------------------------------------------------------------
  // One round of both
  // ---------------------------------------------------------------------------------------------

  /** The round of the loop and the round of the driver come to the same. */
  ghost predicate SameRound(outcomes: seq<SubtaskOutcome>, r: ParallelResult) {
    var m := StopAt(outcomes, 0);
    if FailsAtStop(outcomes) then r.lastFailure.Some? && r.lastFailure == outcomes[m].failure
    else
      && r.lastFailure.None?
      && r.finalResult ==
           if m < |outcomes| && outcomes[m].output.Some? then FinalString(outcomes[m].output.value) else None
  }

  lemma {:induction false} RoundsComeToTheSame(c: Config, s: RunState, end: RunState, round: Round)
    requires round.outcomes != [] && Stops(c, s, end, round.outcomes)
    requires RoundOk(round) && OptsIntoNothing(round.plan) && !Disagree(round.outcomes)
    ensures SameRound(round.outcomes, round.result)
  {
    AnswersDifferIff(round.outcomes);
    ParallelAnswerIs(round.plan, round.outcomes, round.cap, round.events, round.result);
    if FailsAtStop(round.outcomes) {
      OptingIntoNothingIsAChain(round.plan);
      ChainReportsFirstFailure(round.plan, round.outcomes, round.cap, round.events, round.result,
        StopAt(round.outcomes, 0));
    }
  }

  /** The loop stops at an ok `finish` that is not the last subtask. */
  predicate StopsEarly(outcomes: seq<SubtaskOutcome>) {
    var m := StopAt(outcomes, 0);
    m < |outcomes| - 1 && outcomes[m].ok
  }

  /** The rows of the driver's round show what the loop leaves. */
  ghost predicate ShowsWalk(round: Round) {
    forall j: nat :: j < |round.rows| ==> round.rows[j].status == WalkStatus(round.outcomes, j)
  }

  /** They do, unless the loop stops early. */
  lemma {:induction false} RoundStatuses(round: Round)
    requires RoundOk(round) && RowsFit(round) && OptsIntoNothing(round.plan)
    requires SameRound(round.outcomes, round.result)
    ensures |round.rows| == |round.outcomes|
    ensures ShowsWalk(round) <==> !StopsEarly(round.outcomes)
  {
    ChainRound(round);
    TextOrFailure(round);
    var m := StopAt(round.outcomes, 0);
    var oks := Oks(round.outcomes);
    if FailsAtStop(round.outcomes) {
      StopsAtFirstFailure(oks, m);
    } else {
      assert StopsAfter(oks) == |oks|;
      if StopsEarly(round.outcomes) {
        assert round.rows[m + 1].status != WalkStatus(round.outcomes, m + 1);
      }
    }
  }

  // ---------------------------------------------------------------------------------------------
  // All rounds
  // ---------------------------------------------------------------------------------------------

  /** How many subtasks the sequential loop attempts in these rounds. */
  ghost function AttemptedIn(rounds: seq<Round>): nat {
    if rounds == [] then 0 else AttemptedIn(rounds[..|rounds| - 1]) + Attempted(rounds[|rounds| - 1].outcomes)
  }

  /** A round of the driver whose plan opts into nothing, in which the subtasks the loop gets to come to
      the outcomes they reach in the loop's surroundings, and on which the engines do not disagree. */
  ghost predicate Comparable(c: Config, round: Round, first: nat) {
    && OptsIntoNothing(round.plan)
    && Outcomes(c, round.plan, first, round.outcomes, Attempted(round.outcomes))
    && !Disagree(round.outcomes)
  }

  ghost predicate AllComparable(c: Config, rounds: seq<Round>) {
    rounds == [] ||
    (var before := rounds[..|rounds| - 1];
     AllComparable(c, before) && Comparable(c, rounds[|rounds| - 1], AttemptedIn(before)))
  }

  /** The clock, the step budget or the cost budget ended the run. */
  predicate Hindered(s: RunState) {
    OutOfMeans(s) || s.loc == Exit(Abort(WallClockExceeded))
  }

  /** The sequential loop after the rounds in which the driver failed: back at the planner, or out of
      replans at a refusal. */
  ghost predicate Behind(c: Config, db: Db, s: RunState, rounds: seq<Round>) {
    && Placed(s) && s.replans == s.planned == |rounds| && |s.asked| == AttemptedIn(rounds)
    && SameStatuses(s.db.subtasks, db.subtasks + RowsOf(rounds))
    && SameEvents(s.db.replans, db.replans + EventsOf(rounds))
    && (rounds != [] ==>
          && s.lastFailure.Some? && s.lastFailure == rounds[|rounds| - 1].result.lastFailure
          && !StopsEarly(rounds[|rounds| - 1].outcomes))
    && (s.loc.Top? || (s.lastFailure.Some? && 0 < |rounds| == c.budget.maxReplans + 1
                       && s.loc == Exit(Abort(MaxReplansExceededAfter(s.lastFailure.value)))))
  }

  /** With replans left, a plan that arrives is begun, unless the clock or the cost ends the run. */
  lemma {:induction false} PlanIsOpened(c: Config, s: RunState, end: RunState) returns (s': RunState)
    requires s.loc.Top? && s.replans <= c.budget.maxReplans && end == Run(c, s) && !Hindered(end)
    requires c.world.plan(s.planned).Plans? && c.world.plan(s.planned).subtasks != []
    ensures IsOpen(c, s, s') && Placed(s') && Run(c, s') == end
  {
    s' := Step(c, s);
  }

  lemma {:induction false} OpenedIsPoised(c: Config, s: RunState, s': RunState, outcomes: seq<SubtaskOutcome>)
    requires RegistryOk(c.reg) && IsOpen(c, s, s') && Placed(s')
    requires Outcomes(c, c.world.plan(s.planned).subtasks, |s.asked|, outcomes, Attempted(outcomes))
    ensures Poised(c, s', outcomes)
  {
  }

  lemma {:induction false} RoundIsNotHindered(c: Config, s: RunState, end: RunState)
    requires Placed(s) && Run(c, s) == end && !Hindered(end)
    ensures Run(c, RoundEnd(c, s)) == end && !OutOfMeans(RoundEnd(c, s))
    ensures RoundEnd(c, s).loc.Exit? ==> RoundEnd(c, s) == end
  {
    RoundEndIsOnTheRun(c, s);
  }

  /** One more round, from the top of the loop to the end of the round. */
  lemma {:induction false} OneMoreRound(c: Config, s: RunState, end: RunState, round: Round)
    returns (begun: RunState, s': RunState)
    requires RegistryOk(c.reg) && s.loc.Top? && s.replans <= c.budget.maxReplans
    requires end == Run(c, s) && !Hindered(end)
    requires c.world.plan(s.planned).Plans? && c.world.plan(s.planned).subtasks == round.plan != []
    requires RoundOk(round) && RowsFit(round) && Comparable(c, round, |s.asked|)
    ensures IsOpen(c, s, begun) && Placed(s') && Run(c, s') == end && (s'.loc.Exit? ==> s' == end)
    ensures round.outcomes != [] && Stops(c, begun, s', round.outcomes)
    ensures RowsLeftBy(begun, s', round.outcomes) && CountersLeftBy(begun, s', round.outcomes)
    ensures SameRound(round.outcomes, round.result)
  {
    begun := PlanIsOpened(c, s, end);
    OpenedIsPoised(c, s, begun, round.outcomes);
    RoundIsNotHindered(c, begun, end);
    s' := RoundEnd(c, begun);
    RoundLeaves(c, begun, round.outcomes, s');
    RoundsComeToTheSame(c, begun, s', round);
  }

  /** The round wrote its own rows, behind those there were. */
  lemma {:induction false} RoundKeepsRows(c: Config, s: RunState, begun: RunState, s': RunState,
                                          outcomes: seq<SubtaskOutcome>)
    requires IsOpen(c, s, begun) && RowsLeftBy(begun, s', outcomes)
    ensures |s'.db.subtasks| == |s.db.subtasks| + |outcomes|
    ensures forall j :: 0 <= j < |s.db.subtasks| ==> s'.db.subtasks[j] == s.db.subtasks[j]
    ensures forall j: nat :: j < |outcomes| ==>
      s'.db.subtasks[|s.db.subtasks| + j].status == WalkStatus(outcomes, j)
  {
    assert begun.loc.base == |s.db.subtasks|;
  }

  lemma {:induction false} StatusesExtend(rows: seq<SubtaskRow>, other: seq<SubtaskRow>, rows': seq<SubtaskRow>,
                                          more: seq<SubtaskRow>)
    requires SameStatuses(rows, other) && |rows'| == |rows| + |more|
    requires forall j :: 0 <= j < |rows| ==> rows'[j] == rows[j]
    ensures SameStatuses(rows', other + more) <==>
      forall j: nat :: j < |more| ==> rows'[|rows| + j].status == more[j].status
  {
    assert forall j: nat :: j < |more| ==> (other + more)[|rows| + j] == more[j];
    if forall j: nat :: j < |more| ==> rows'[|rows| + j].status == more[j].status {
      forall j | 0 <= j < |rows'|
        ensures rows'[j].status == (other + more)[j].status
      {
        assert j >= |rows| ==> rows'[|rows| + (j - |rows|)].status == more[j - |rows|].status;
      }
    }
  }

  lemma {:induction false} RowsOneRoundOn(db: Db, rows: seq<SubtaskRow>, rows': seq<SubtaskRow>, before: seq<Round>,
                                          round: Round)
    requires SameStatuses(rows, db.subtasks + RowsOf(before))
    requires |round.rows| == |round.outcomes| && |rows'| == |rows| + |round.rows|
    requires forall j :: 0 <= j < |rows| ==> rows'[j] == rows[j]
    requires forall j: nat :: j < |round.rows| ==> rows'[|rows| + j].status == WalkStatus(round.outcomes, j)
    ensures SameStatuses(rows', db.subtasks + RowsOf(before + [round])) <==> ShowsWalk(round)
  {
    RowsExtend(db.subtasks, before, round);
    StatusesExtend(rows, db.subtasks + RowsOf(before), rows', round.rows);
  }

  lemma {:induction false} RowsShowWalk(c: Config, db: Db, s: RunState, begun: RunState, s': RunState,
                                        before: seq<Round>, round: Round)
    requires SameStatuses(s.db.subtasks, db.subtasks + RowsOf(before)) && IsOpen(c, s, begun)
    requires RowsLeftBy(begun, s', round.outcomes) && |round.rows| == |round.outcomes|
    ensures SameStatuses(s'.db.subtasks, db.subtasks + RowsOf(before + [round])) <==> ShowsWalk(round)
  {
    RoundKeepsRows(c, s, begun, s', round.outcomes);
    RowsOneRoundOn(db, s.db.subtasks, s'.db.subtasks, before, round);
  }

  /** The rows of one more round agree unless the loop stopped early in it. */
  lemma {:induction false} RowsAfterRound(c: Config, db: Db, s: RunState, begun: RunState, s': RunState,
                                          before: seq<Round>, round: Round)
    requires SameStatuses(s.db.subtasks, db.subtasks + RowsOf(before)) && IsOpen(c, s, begun)
    requires RowsLeftBy(begun, s', round.outcomes) && SameRound(round.outcomes, round.result)
    requires RoundOk(round) && RowsFit(round) && OptsIntoNothing(round.plan)
    ensures SameStatuses(s'.db.subtasks, db.subtasks + RowsOf(before + [round])) <==> !StopsEarly(round.outcomes)
  {
    RoundStatuses(round);
    RowsShowWalk(c, db, s, begun, s', before, round);
  }

  /** Their replan events agree in any case. */
  lemma {:induction false} EventsAfterRound(c: Config, db: Db, s: RunState, begun: RunState, s': RunState,
                                            before: seq<Round>, round: Round)
    requires SameEvents(s.db.replans, db.replans + EventsOf(before)) && IsOpen(c, s, begun)
    requires CountersLeftBy(begun, s', round.outcomes) && SameRound(round.outcomes, round.result)
    requires s.replans == |EventsOf(before)|
    ensures SameEvents(s'.db.replans, db.replans + EventsOf(before + [round]))
    ensures s'.replans == |EventsOf(before + [round])|
  {
    EventsExtend(before, round);
    var events := db.replans + EventsOf(before);
    var last := EventsOf(before + [round])[|EventsOf(before)|..];
    assert db.replans + EventsOf(before + [round]) == events + last;
  }

  lemma {:induction false} BehindOneMore(c: Config, db: Db, s: RunState, begun: RunState, s': RunState,
                                         before: seq<Round>, round: Round)
    requires s.loc.Top? && s.replans == s.planned == |before| <= c.budget.maxReplans
    requires |s.asked| == AttemptedIn(before) && IsOpen(c, s, begun) && Placed(s')
    requires round.outcomes != [] && Stops(c, begun, s', round.outcomes) && CountersLeftBy(begun, s', round.outcomes)
    requires SameRound(round.outcomes, round.result) && round.result.lastFailure.Some?
    requires !StopsEarly(round.outcomes) ==>
      SameStatuses(s'.db.subtasks, db.subtasks + RowsOf(before + [round]))
    requires SameEvents(s'.db.replans, db.replans + EventsOf(before + [round]))
    ensures Behind(c, db, s', before + [round])
  {
    assert (before + [round])[..|before|] == before;
  }

  /** A round in which the driver failed leaves the loop behind it. */
  lemma {:induction false} FailedRound(c: Config, db: Db, s: RunState, end: RunState, before: seq<Round>, round: Round)
    returns (s': RunState)
    requires RegistryOk(c.reg) && Behind(c, db, s, before) && s.loc.Top? && |before| <= c.budget.maxReplans
    requires Towards(c, s, end) && !Hindered(end) && AllFailed(before) && round.result.lastFailure.Some?
    requires c.world.plan(|before|).Plans? && c.world.plan(|before|).subtasks == round.plan != []
    requires RoundOk(round) && RowsFit(round) && Comparable(c, round, AttemptedIn(before))
    ensures Behind(c, db, s', before + [round]) && Towards(c, s', end)
  {
    var begun;
    begun, s' := OneMoreRound(c, s, end, round);
    FailedRoundsMakeEvents(before);
    RowsAfterRound(c, db, s, begun, s', before, round);
    EventsAfterRound(c, db, s, begun, s', before, round);
    BehindOneMore(c, db, s, begun, s', before, round);
  }

  /** Rounds of a run of the driver, on the loop's planner, that can be compared. */
  ghost predicate RoundsFit(c: Config, w: ParallelWorld, cap: nat, rounds: seq<Round>) {
    w.plan == c.world.plan && RoundsFollow(w, cap, rounds) && AllComparable(c, rounds)
  }

  lemma {:induction false} LastRoundFits(c: Config, w: ParallelWorld, cap: nat, rounds: seq<Round>)
    returns (before: seq<Round>, round: Round)
    requires RoundsFit(c, w, cap, rounds) && rounds != []
    ensures rounds == before + [round] && before == rounds[..|rounds| - 1]
    ensures RoundsFit(c, w, cap, before)
    ensures c.world.plan(|before|).Plans? && c.world.plan(|before|).subtasks == round.plan != []
    ensures RoundOk(round) && RowsFit(round) && Comparable(c, round, AttemptedIn(before))
    ensures AllFailed(rounds) <==> AllFailed(before) && round.result.lastFailure.Some?
  {
    before, round := rounds[..|rounds| - 1], rounds[|rounds| - 1];
  }

  /** The state is on the way to this end. */
  ghost predicate Towards(c: Config, s: RunState, end: RunState) {
    && Placed(s) && Run(c, s) == end && (s.loc.Exit? ==> s == end)
  }

  lemma {:induction false} NothingBehind(c: Config, db: Db, end: RunState) returns (s: RunState)
    requires end == Run(c, Start(db))
    ensures Behind(c, db, s, []) && Towards(c, s, end)
  {
    s := Start(db);
    assert db.subtasks + [] == db.subtasks && db.replans + [] == db.replans;
  }

  /** After any number of rounds in which the driver failed, the loop is where it should be. */
  lemma {:induction false} FailedRounds(c: Config, w: ParallelWorld, cap: nat, db: Db, rounds: seq<Round>,
                                        start: RunState, end: RunState)
    returns (s: RunState)
    requires RegistryOk(c.reg) && !Hindered(end) && Behind(c, db, start, []) && Towards(c, start, end)
    requires RoundsFit(c, w, cap, rounds) && AllFailed(rounds)
    requires rounds == [] || |rounds| <= c.budget.maxReplans + 1
    ensures Behind(c, db, s, rounds) && Towards(c, s, end)
  {
    if rounds == [] {
      s := start;
    } else {
      var before, round := LastRoundFits(c, w, cap, rounds);
      var was := FailedRounds(c, w, cap, db, before, start, end);
      s := FailedRound(c, db, was, end, before, round);
    }
  }

  // ---------------------------------------------------------------------------------------------
  // The end of both runs
  // ---------------------------------------------------------------------------------------------

  /** Both runs end alike.  Out of replans, the loop gives their number when it noticed at the top, where
      the driver always gives the last failure; it is the one the loop remembers. */
  ghost predicate SameEnding(end: RunState, ending: Ending) {
    || end.loc == Exit(ending)
    || (&& end.replans > 0 && end.loc == Exit(Abort(MaxReplansExceeded(end.replans)))
        && end.lastFailure.Some? && ending == Abort(MaxReplansExceededAfter(end.lastFailure.value)))
  }

  /** The last round of the driver is one in which the loop stops early. */
  ghost predicate EndsEarly(rounds: seq<Round>) {
    rounds != [] && StopsEarly(rounds[|rounds| - 1].outcomes)
  }

  ghost predicate SameRun(db: Db, end: RunState, after: Db, rounds: seq<Round>, ending: Ending) {
    && SameEnding(end, ending)
    && end.replans == |EventsOf(rounds)| && SameEvents(end.db.replans, after.replans)
    && (SameStatuses(end.db.subtasks, after.subtasks) <==> !EndsEarly(rounds))
  }

  /** The top of the loop ends the run, and writes nothing but the goal row. */
  lemma {:induction false} TopEnds(c: Config, s: RunState, end: RunState)
    requires s.loc.Top? && end == Run(c, s) && !Hindered(end)
    requires var reply := c.world.plan(s.planned);
      s.replans > c.budget.maxReplans || reply.PlannerFails? || reply.subtasks == []
    ensures end.replans == s.replans && end.lastFailure == s.lastFailure && end.db == s.db.(goal := end.db.goal)
    ensures end.loc == Exit(Abort(
      if s.replans > c.budget.maxReplans then MaxReplansExceeded(s.replans)
      else if c.world.plan(s.planned).PlannerFails? then PlannerError
      else EmptyPlan))
  {
    assert end == Run(c, Step(c, s));
  }

  lemma {:induction false} FailedRunsEndAlike(c: Config, w: ParallelWorld, rounds: seq<Round>, ending: Ending,
                                              s: RunState, end: RunState, db: Db)
    requires w.plan == c.world.plan && Behind(c, db, s, rounds) && AllFailed(rounds)
    requires Towards(c, s, end) && !Hindered(end)
    requires EndingFits(c.budget, w, rounds, ending)
    ensures SameEnding(end, ending)
    ensures end.replans == s.replans && end.db == s.db.(goal := end.db.goal)
  {
    assert !LastRoundSucceeded(rounds);
    if s.loc.Top? {
      TopEnds(c, s, end);
    }
  }

  /** A run whose rounds all failed. */
  lemma {:induction false} FailedRunsAgree(c: Config, w: ParallelWorld, db: Db, after: Db, rounds: seq<Round>,
                                           ending: Ending, s: RunState, end: RunState)
    requires w.plan == c.world.plan && Behind(c, db, s, rounds) && AllFailed(rounds)
    requires Towards(c, s, end) && !Hindered(end)
    requires EndingFits(c.budget, w, rounds, ending) && Wrote(db, after, rounds, [])
    ensures SameRun(db, end, after, rounds, ending)
  {
    FailedRoundsMakeEvents(rounds);
    FailedRunsEndAlike(c, w, rounds, ending, s, end, db);
  }

  /** A run whose last round had no failure. */
  lemma {:induction false} FinishedRunsAgree(c: Config, db: Db, after: Db, before: seq<Round>, round: Round,
                                             ending: Ending, s: RunState, end: RunState)
    requires RegistryOk(c.reg) && Behind(c, db, s, before) && AllFailed(before)
    requires Towards(c, s, end) && !Hindered(end) && s.loc.Top? && |before| <= c.budget.maxReplans
    requires c.world.plan(|before|).Plans? && c.world.plan(|before|).subtasks == round.plan != []
    requires RoundOk(round) && RowsFit(round) && Comparable(c, round, AttemptedIn(before))
    requires round.result.lastFailure.None?
    requires ending == if round.result.finalResult.Some? then Success(round.result.finalResult.value)
                       else Abort(PlanExhausted)
    requires Wrote(db, after, before + [round], [])
    ensures SameRun(db, end, after, before + [round], ending)
  {
    var begun, s' := OneMoreRound(c, s, end, round);
    FailedRoundsMakeEvents(before);
    RowsAfterRound(c, db, s, begun, s', before, round);
    EventsAfterRound(c, db, s, begun, s', before, round);
  }

  /** Either every round failed, or all but the last. */
  lemma {:induction false} AllOrAllButOneFailed(b: Budget, w: ParallelWorld, rounds: seq<Round>, ending: Ending)
    requires EndingFits(b, w, rounds, ending)
    ensures AllFailed(rounds) || LastRoundSucceeded(rounds)
    ensures LastRoundSucceeded(rounds) ==>
      ending == (var result := rounds[|rounds| - 1].result;
                 if result.finalResult.Some? then Success(result.finalResult.value) else Abort(PlanExhausted))
  {
  }

  lemma {:induction false} AllRoundsFailed(c: Config, w: ParallelWorld, cap: nat, db: Db, after: Db,
                                           rounds: seq<Round>, ending: Ending, start: RunState, end: RunState)
    requires RegistryOk(c.reg) && !Hindered(end) && Behind(c, db, start, []) && Towards(c, start, end)
    requires RoundsFit(c, w, cap, rounds) && AllFailed(rounds)
    requires |rounds| <= AtLeastZero(c.budget.maxReplans + 1)
    requires EndingFits(c.budget, w, rounds, ending) && Wrote(db, after, rounds, [])
    ensures SameRun(db, end, after, rounds, ending)
  {
    var s := FailedRounds(c, w, cap, db, rounds, start, end);
    FailedRunsAgree(c, w, db, after, rounds, ending, s, end);
  }

  lemma {:induction false} AllButOneFailed(c: Config, w: ParallelWorld, cap: nat, db: Db, after: Db,
                                           rounds: seq<Round>, ending: Ending, start: RunState, end: RunState)
    requires RegistryOk(c.reg) && !Hindered(end) && Behind(c, db, start, []) && Towards(c, start, end)
    requires RoundsFit(c, w, cap, rounds) && LastRoundSucceeded(rounds)
    requires |rounds| <= AtLeastZero(c.budget.maxReplans + 1)
    requires var result := rounds[|rounds| - 1].result;
      ending == if result.finalResult.Some? then Success(result.finalResult.value) else Abort(PlanExhausted)
    requires Wrote(db, after, rounds, [])
    ensures SameRun(db, end, after, rounds, ending)
  {
    var before, round := LastRoundFits(c, w, cap, rounds);
    var s := FailedRounds(c, w, cap, db, before, start, end);
    FinishedRunsAgree(c, db, after, before, round, ending, s, end);
  }

  /** Whole runs.  Given the same replies, plans that opt into nothing, arguments that do not ask for
      the prior output and no early text (`Disagree`), the sequential run and the driver's run on the same
      goal end alike, after the same number of replans for the same reasons, unless the clock, the steps
      or the cost ended the sequential one; and they leave the same statuses on the same rows if and only
      if the loop did not stop at a `finish` with subtasks behind it. */
  lemma {:induction false} RunsAgree(
      c: Config, w: ParallelWorld, cap: nat, db: Db, after: Db, rounds: seq<Round>, broken: seq<PlannedSubtask>,
      ending: Option<Ending>, result: Option<RunResult>, end: RunState)
    requires RegistryOk(c.reg) && w.plan == c.world.plan
    requires Delivered(c.budget, w, cap, db, after, rounds, broken, ending, result)
    requires AllComparable(c, rounds) && OptsIntoNothing(broken)
    requires end == Run(c, Start(db)) && !Hindered(end)
    ensures ending.Some? && SameRun(db, end, after, rounds, ending.value)
  {
    OptingIntoNothingIsAChain(broken);
    var start := NothingBehind(c, db, end);
    AllOrAllButOneFailed(c.budget, w, rounds, ending.value);
    if AllFailed(rounds) {
      AllRoundsFailed(c, w, cap, db, after, rounds, ending.value, start, end);
    } else {
      AllButOneFailed(c, w, cap, db, after, rounds, ending.value, start, end);
    }
  }
}
