/** `Runner.run_parallel`: the plan-execute-replan rounds around the parallel scheduler. */
module ParallelDriver {
  import opened Values
  import opened Dag
  import opened Tools
  import opened Selector
  import opened Attempt
  import opened Bodies
  import opened Scheduler
  import opened SchedulerTheorems
  import opened Determinacy
  import opened ParallelRunner
  import opened Records
  import opened RunSpec

  /** The planner's k-th reply, and the outcomes the bodies of round k reach. */
  datatype ParallelWorld = ParallelWorld(plan: nat -> PlanReply, outcomes: nat -> seq<SubtaskOutcome>)

  ghost predicate WorldOk(w: ParallelWorld) {
    forall k: nat :: w.plan(k).Plans? ==> OutcomesFor(|w.plan(k).subtasks|, w.outcomes(k))
  }

  /** The outcomes of a plan's bodies in given surroundings, when no argument dict is unfit. */
  function OutcomesIn(reg: map<string, Tool>, plan: seq<PlannedSubtask>,
                      around: nat -> Surroundings): (outcomes: seq<SubtaskOutcome>)
    requires forall i: nat :: i < |plan| ==> RunOneSubtask(reg, i, plan[i], around(i)).Settles?
    ensures |outcomes| == |plan|
    ensures forall i: nat :: i < |plan| ==> outcomes[i] == RunOneSubtask(reg, i, plan[i], around(i)).outcome
  {
    seq(|plan|, i requires 0 <= i < |plan| && RunOneSubtask(reg, i, plan[i], around(i)).Settles? =>
      RunOneSubtask(reg, i, plan[i], around(i)).outcome)
  }

  /** They are outcomes the scheduler can work with. */
  lemma OutcomesInAreOutcomes(reg: map<string, Tool>, plan: seq<PlannedSubtask>, around: nat -> Surroundings)
    requires forall i: nat :: i < |plan| ==> RunOneSubtask(reg, i, plan[i], around(i)).Settles?
    ensures OutcomesFor(|plan|, OutcomesIn(reg, plan, around))
  {
    var outcomes := OutcomesIn(reg, plan, around);
    forall i: nat | i < |plan|
      ensures outcomes[i].idx == i && (outcomes[i].ok <==> outcomes[i].failure.None?)
    {
      assert outcomes[i] == RunOneSubtask(reg, i, plan[i], around(i)).outcome;
    }
  }

  /** One execution of a plan by the scheduler, and the rows it left, numbered from `base`. */
  datatype Round = Round(
    plan: seq<PlannedSubtask>,
    outcomes: seq<SubtaskOutcome>,
    cap: nat,
    events: seq<Event>,
    result: ParallelResult,
    base: nat,
    rows: seq<SubtaskRow>)

  ghost predicate RoundOk(round: Round) {
    IsAnswer(round.plan, round.outcomes, round.cap, round.events, round.result)
  }

  /** A round yields a final text or a failure, never both. */
  lemma TextOrFailure(round: Round)
    requires RoundOk(round)
    ensures round.result.lastFailure.None? || round.result.finalResult.None?
    ensures round.result.status == GoalSucceeded <==> round.result.finalResult.Some?
    ensures round.result.lastFailure.Some? <==> exists i :: 0 <= i < |round.outcomes| && !round.outcomes[i].ok
  {
    AnswerDependsOnOutcomesOnly(round.plan, round.outcomes, round.cap, round.events, round.result);
  }

  // ---------------------------------------------------------------------------------------------
  // What a round contributes
  // ---------------------------------------------------------------------------------------------

  function OkCount(list: seq<SubtaskOutcome>): nat {
    if list == [] then 0 else OkCount(list[..|list| - 1]) + if list[|list| - 1].ok then 1 else 0
  }

  function OkOutputs(list: seq<SubtaskOutcome>): seq<Dict> {
    if list == [] then []
    else
      var o := list[|list| - 1];
      OkOutputs(list[..|list| - 1]) + if o.ok && o.output.Some? then [o.output.value] else []
  }

  /** The ok outcomes below index n that left an output, by index. */
  function OkIndices(list: seq<SubtaskOutcome>, n: nat): set<nat> {
    set i: nat | i < n && i < |list| && list[i].ok && list[i].output.Some?
  }

  /** The count is the number of ok outcomes. */
  lemma {:induction false} OkCountIs(list: seq<SubtaskOutcome>)
    ensures OkCount(list) == |set i: nat | i < |list| && list[i].ok|
  {
    var oks := set i: nat | i < |list| && list[i].ok;
    if list == [] {
      assert oks == {};
    } else {
      var n := |list| - 1;
      var before := set i: nat | i < n && list[..n][i].ok;
      OkCountIs(list[..n]);
      assert oks == if list[n].ok then before + {n} else before;
    }
  }

  lemma OkIndicesBelow(list: seq<SubtaskOutcome>, n: nat, i: nat)
    requires i <= n <= |list|
    ensures OkIndices(list[..n], i) == OkIndices(list, i)
  {
  }

  lemma {:induction false} OkOutputsSize(list: seq<SubtaskOutcome>)
    ensures |OkOutputs(list)| == |OkIndices(list, |list|)|
  {
    if list == [] {
      assert OkIndices(list, 0) == {};
    } else {
      var n := |list| - 1;
      OkOutputsSize(list[..n]);
      OkIndicesBelow(list, n, n);
      assert OkIndices(list, n + 1) ==
        if list[n].ok && list[n].output.Some? then OkIndices(list, n) + {n} else OkIndices(list, n);
    }
  }

  /** The outputs are exactly the payloads of the ok outcomes, in index order: the payload at index i comes
      behind as many as there are before i, and there are no others. */
  lemma {:induction false} OkOutputsAre(list: seq<SubtaskOutcome>, i: nat)
    requires i < |list| && list[i].ok && list[i].output.Some?
    ensures |OkOutputs(list)| == |OkIndices(list, |list|)|
    ensures |OkIndices(list, i)| < |OkOutputs(list)|
    ensures OkOutputs(list)[|OkIndices(list, i)|] == list[i].output.value
  {
    var n := |list| - 1;
    OkOutputsSize(list);
    OkOutputsSize(list[..n]);
    OkIndicesBelow(list, n, i);
    if i < n {
      OkOutputsAre(list[..n], i);
    }
  }

  lemma {:induction false} OkCountInOrder(outcomes: seq<SubtaskOutcome>, done: set<nat>, n: nat)
    requires n <= |outcomes|
    ensures OkCount(InOrder(outcomes, done, n)) == |set i: nat | i < n && i in done && outcomes[i].ok|
  {
    var oks := set i: nat | i < n && i in done && outcomes[i].ok;
    if n == 0 {
      assert oks == {};
    } else {
      var before := set i: nat | i < n - 1 && i in done && outcomes[i].ok;
      OkCountInOrder(outcomes, done, n - 1);
      assert oks == if n - 1 in done && outcomes[n - 1].ok then before + {n - 1} else before;
      var list := InOrder(outcomes, done, n - 1);
      assert (list + [outcomes[n - 1]])[..|list|] == list;
    }
  }

  function MirroredStatus(o: SubtaskOutcome): SubtaskStatus {
    if o.ok then Done else Failed
  }

  /** Every raw dependency indexes a subtask of the same plan. */
  predicate InRange(dependencies: seq<int>, n: nat) {
    forall k :: 0 <= k < |dependencies| ==> 0 <= dependencies[k] < n
  }

  predicate DependenciesInRange(plan: seq<PlannedSubtask>) {
    forall i :: 0 <= i < |plan| ==> InRange(plan[i].dependencies, |plan|)
  }

  /** `[idx_to_id[d] for d in dependencies]`. */
  function DependencyIds(dependencies: seq<int>, base: nat, n: nat): seq<nat>
    requires InRange(dependencies, n)
  {
    seq(|dependencies|, k requires 0 <= k < |dependencies| && InRange(dependencies, n) =>
      (base + dependencies[k]) as nat)
  }

  /** The rows of a plan, with dependency ids filled in. */
  function LinkedRows(plan: seq<PlannedSubtask>, base: nat): seq<SubtaskRow>
    requires DependenciesInRange(plan)
  {
    seq(|plan|, i requires 0 <= i < |plan| && DependenciesInRange(plan) =>
      NewRows(plan, base, true)[i].(dependencies := DependencyIds(plan[i].dependencies, base, |plan|)))
  }

  /** A linked row is its subtask's row; the j-th stored id is the row of the j-th subtask it lists. */
  lemma LinkedRowIs(plan: seq<PlannedSubtask>, base: nat, i: nat)
    requires DependenciesInRange(plan) && i < |plan|
    ensures |LinkedRows(plan, base)| == |plan|
    ensures var row := LinkedRows(plan, base)[i];
      && row.idx == base + i && row.status == Pending
      && row.description == plan[i].description && row.confidenceThreshold == plan[i].confidenceThreshold
      && row.parallel == plan[i].parallel
      && |row.dependencies| == |plan[i].dependencies|
      && forall j :: 0 <= j < |row.dependencies| ==>
           row.dependencies[j] == base + plan[i].dependencies[j] < base + |plan|
  {
    NewRowIs(plan, base, true, i);
    assert InRange(plan[i].dependencies, |plan|);
  }

  /** Statuses are mirrored by position: the j-th completed outcome lands on the j-th row. */
  function Mirrored(rows: seq<SubtaskRow>, list: seq<SubtaskOutcome>): (rows': seq<SubtaskRow>)
    ensures |rows'| == |rows|
  {
    seq(|rows|, j requires 0 <= j < |rows| =>
      if j < |list| then rows[j].(status := MirroredStatus(list[j])) else rows[j])
  }

  // ---------------------------------------------------------------------------------------------
  // When mirroring by position is right
  // ---------------------------------------------------------------------------------------------

  /** Row j shows what happened to subtask j. */
  ghost predicate Faithful(rows: seq<SubtaskRow>, outcomes: seq<SubtaskOutcome>, done: set<nat>) {
    && |rows| == |outcomes|
    && forall j: nat :: j < |rows| ==> rows[j].status == if j in done then MirroredStatus(outcomes[j]) else Pending
  }

  /** What completed in a round. */
  ghost function Completed(round: Round): set<nat> {
    After(ProblemOf(round.plan, round.outcomes, round.cap), round.events).completed
  }

  /** A round's rows are its plan's, numbered from its base, with the mirrored statuses. */
  ghost predicate RowsFit(round: Round) {
    && DependenciesInRange(round.plan)
    && round.rows == Mirrored(LinkedRows(round.plan, round.base), round.result.completed)
  }

  /** What completed ok in a round. */
  ghost function CompletedOk(round: Round): set<nat> {
    set i: nat | i < |round.outcomes| && i in Completed(round) && round.outcomes[i].ok
  }

  /** The steps a round adds are the subtasks that completed ok; they are all that completed if and only if
      the round has no failure. */
  lemma {:induction false} RoundSteps(round: Round)
    requires RoundOk(round)
    ensures OkCount(round.result.completed) == |CompletedOk(round)|
    ensures |CompletedOk(round)| == |Completed(round)| <==> round.result.lastFailure.None?
  {
    var p := ProblemOf(round.plan, round.outcomes, round.cap);
    RunKeepsInv(p, round.events);
    ReturnVerdict(p, round.events);
    TextOrFailure(round);
    OkCountInOrder(round.outcomes, Completed(round), |round.outcomes|);
    assert OkCount(round.result.completed) == |CompletedOk(round)| by {
      assert CompletedOk(round) ==
        set i: nat | i < |round.outcomes| && i in Completed(round) && round.outcomes[i].ok;
    }
    OkOfCompleted(round, After(p, round.events));
  }

  lemma {:induction false} OkOfCompleted(round: Round, s: State)
    requires RoundOk(round) && s == After(ProblemOf(round.plan, round.outcomes, round.cap), round.events)
    requires s.completed <= Range(|round.outcomes|)
    requires round.result.lastFailure.None? ==> forall i :: 0 <= i < |round.outcomes| ==> round.outcomes[i].ok
    requires round.result.lastFailure.Some? ==>
      exists f: nat :: f in s.completed && f < |round.outcomes| && !round.outcomes[f].ok
    ensures |CompletedOk(round)| == |Completed(round)| <==> round.result.lastFailure.None?
  {
    if round.result.lastFailure.None? {
      assert CompletedOk(round) == Completed(round);
    } else {
      var f: nat :| f in s.completed && f < |round.outcomes| && !round.outcomes[f].ok;
      SmallerSubset(CompletedOk(round), Completed(round), f);
    }
  }

  lemma SmallerSubset(a: set<nat>, b: set<nat>, x: nat)
    requires a <= b && x in b && x !in a
    ensures |a| < |b|
  {
    SubsetSize(a, b - {x});
  }

  lemma {:induction false} SubsetSize(a: set<nat>, b: set<nat>)
    requires a <= b
    ensures |a| <= |b|
  {
    if a != {} {
      var y :| y in a;
      SubsetSize(a - {y}, b - {y});
    }
  }

  /** Every row of the round shows what happened to its own subtask. */
  ghost predicate FaithfulRound(round: Round) {
    Faithful(round.rows, round.outcomes, Completed(round))
  }

  lemma {:induction false} InOrderOfPrefix(outcomes: seq<SubtaskOutcome>, k: nat, n: nat)
    requires k <= n <= |outcomes|
    ensures InOrder(outcomes, Range(k), n) == outcomes[..k]
  {
    if n > 0 {
      if k == n {
        InOrderOfAll(outcomes, Range(k), n);
      } else {
        InOrderOfPrefix(outcomes, k, n - 1);
      }
    }
  }

  lemma {:induction false} InOrderIsLong(outcomes: seq<SubtaskOutcome>, done: set<nat>, j: nat, n: nat)
    requires j <= n <= |outcomes| && Range(j) <= done
    ensures |InOrder(outcomes, done, n)| >= j
    ensures forall i: nat :: j <= i < n && i in done ==> |InOrder(outcomes, done, n)| > j
  {
    if n > 0 {
      if j == n {
        InOrderOfAll(outcomes, done, n);
      } else {
        InOrderIsLong(outcomes, done, j, n - 1);
      }
    }
  }

  lemma {:induction false} PrefixIsFaithful(rows: seq<SubtaskRow>, outcomes: seq<SubtaskOutcome>, k: nat)
    requires |rows| == |outcomes| && k <= |outcomes|
    requires forall j :: 0 <= j < |rows| ==> rows[j].status == Pending
    ensures Faithful(Mirrored(rows, InOrder(outcomes, Range(k), |outcomes|)), outcomes, Range(k))
  {
    InOrderOfPrefix(outcomes, k, |outcomes|);
  }

  lemma {:induction false} GapIsUnfaithful(rows: seq<SubtaskRow>, outcomes: seq<SubtaskOutcome>, done: set<nat>,
                                           j: nat, i: nat)
    requires |rows| == |outcomes|
    requires Range(j) <= done && j !in done && j < i < |outcomes| && i in done
    ensures !Faithful(Mirrored(rows, InOrder(outcomes, done, |outcomes|)), outcomes, done)
  {
    var list := InOrder(outcomes, done, |outcomes|);
    InOrderIsLong(outcomes, done, j, |outcomes|);
    assert Mirrored(rows, list)[j].status == MirroredStatus(list[j]);
  }

  /** The mirrored statuses are right if and only if the completed indices have no gap. */
  lemma MirrorFaithfulIffPrefix(rows: seq<SubtaskRow>, outcomes: seq<SubtaskOutcome>, done: set<nat>)
    requires |rows| == |outcomes| && done <= Range(|outcomes|)
    requires forall j :: 0 <= j < |rows| ==> rows[j].status == Pending
    ensures Faithful(Mirrored(rows, InOrder(outcomes, done, |outcomes|)), outcomes, done) <==> IsPrefix(done)
  {
    if IsPrefix(done) {
      var k: nat :| done == Range(k);
      PrefixWithin(k, |outcomes|);
      PrefixIsFaithful(rows, outcomes, k);
    } else {
      var j, i := GapHasLeast(done, |outcomes|);
      GapIsUnfaithful(rows, outcomes, done, j, i);
    }
  }

  lemma PrefixWithin(k: nat, n: nat)
    requires Range(k) <= Range(n)
    ensures k <= n
  {
    assert n in Range(k) ==> n in Range(n);
  }

  /** So a round leaves every row with its own subtask's status if and only if what completed has
      no gap. */
  lemma {:induction false} RoundFaithfulIffPrefix(round: Round)
    requires RoundOk(round) && RowsFit(round)
    ensures FaithfulRound(round) <==> IsPrefix(Completed(round))
  {
    var p := ProblemOf(round.plan, round.outcomes, round.cap);
    RunKeepsInv(p, round.events);
    assert Completed(round) <= Completed(round) + After(p, round.events).inFlight;
    MirrorFaithfulIffPrefix(LinkedRows(round.plan, round.base), round.outcomes, Completed(round));
  }

  /** Which it has not when nothing failed. */
  lemma {:induction false} FailureFreeRoundIsFaithful(round: Round)
    requires RoundOk(round) && RowsFit(round) && round.result.lastFailure.None?
    ensures FaithfulRound(round)
  {
    ReturnVerdict(ProblemOf(round.plan, round.outcomes, round.cap), round.events);
    TextOrFailure(round);
    RoundFaithfulIffPrefix(round);
  }

  // ---------------------------------------------------------------------------------------------
  // Which plans are always mirrored right
  // ---------------------------------------------------------------------------------------------

  /** Whatever the bodies of the plan come to and whatever the interleaving, its rows come out right. */
  ghost predicate AlwaysFaithful(plan: seq<PlannedSubtask>, cap: nat) {
    forall round: Round ::
      round.plan == plan && round.cap == cap && RoundOk(round) && RowsFit(round) && Producible(plan, round.outcomes) ==>
        FaithfulRound(round)
  }

  /** Subtask d is refused a tool, the others pass. */
  function OneFate(n: nat, d: nat): (fates: seq<Fate>)
    ensures |fates| == n
  {
    seq(n, k => if k == d then Refused else Fine)
  }

  lemma OneIsRefused(plan: seq<PlannedSubtask>, d: nat) returns (outcomes: seq<SubtaskOutcome>)
    ensures Producible(plan, outcomes) && OutcomesFor(|plan|, outcomes) && Oks(outcomes) == OneFails(|plan|, d)
  {
    outcomes := FatedOutcomes(plan, OneFate(|plan|, d));
    FatesAreProducible(plan, OneFate(|plan|, d));
  }

  lemma UnnestedMakesUnfaithfulRound(plan: seq<PlannedSubtask>, cap: nat, i: nat, j: nat, d: nat)
    returns (round: Round)
    requires DependenciesInRange(plan) && cap >= 1
    requires j < i < |plan| && d in DepsOf(plan)[j] && !DependsOn(DepsOf(plan), i, d)
    ensures round.plan == plan && round.cap == cap && RoundOk(round) && RowsFit(round)
    ensures Producible(plan, round.outcomes) && !FaithfulRound(round)
  {
    var outcomes := OneIsRefused(plan, d);
    var ok, es := UnnestedIsNotGapFree(DepsOf(plan), cap, i, j, d);
    var p := ProblemOf(plan, outcomes, cap);
    var result := ParallelRunner.ResultOf(outcomes, After(p, es));
    round := Round(plan, outcomes, cap, es, result, 0, Mirrored(LinkedRows(plan, 0), result.completed));
    RoundFaithfulIffPrefix(round);
  }

  /** The rows of a plan come out right in every round, whatever its bodies come to, if and only if
      every subtask waits for all that earlier ones wait for directly. */
  lemma {:induction false} AlwaysFaithfulIffNested(plan: seq<PlannedSubtask>, cap: nat)
    requires DependenciesInRange(plan) && cap >= 1
    ensures AlwaysFaithful(plan, cap) <==> Nested(DepsOf(plan))
  {
    if Nested(DepsOf(plan)) {
      forall round: Round |
        round.plan == plan && round.cap == cap && RoundOk(round) && RowsFit(round) && Producible(plan, round.outcomes)
        ensures FaithfulRound(round)
      {
        NestedCompletesAPrefix(ProblemOf(round.plan, round.outcomes, round.cap), round.events);
        RoundFaithfulIffPrefix(round);
      }
    } else {
      var i: nat, j: nat, d: nat :| j < i < |plan| && d in DepsOf(plan)[j] && !DependsOn(DepsOf(plan), i, d);
      var round := UnnestedMakesUnfaithfulRound(plan, cap, i, j, d);
    }
  }

  /** A plan that opts into nothing is such a plan. */
  lemma ChainIsNested(deps: Deps)
    requires Backward(deps) && IsChain(deps)
    ensures Nested(deps)
  {
    forall i: nat, j: nat, d: nat | j < i < |deps| && d in deps[j]
      ensures DependsOn(deps, i, d)
    {
      assert d in Range(i);
      assert d in deps[i] && d == d;
    }
  }

  /** A plan in which a failure leaves a gap: subtask 1 waits for 0, subtask 2 fails at once. */
  function GapPlan(): seq<PlannedSubtask> {
    [PlannedSubtask("a", "t", 0.0, None, true, []),
     PlannedSubtask("b", "t", 0.0, None, false, [0]),
     PlannedSubtask("c", "t", 0.0, None, true, [])]
  }

  function GapOutcomes(): seq<SubtaskOutcome> {
    [SubtaskOutcome(0, "a", Some("t"), Some(map[]), true, None),
     SubtaskOutcome(1, "b", Some("t"), Some(map[]), true, None),
     SubtaskOutcome(2, "c", Some("t"), None, false, Some(FailureReason(ToolReturnedError, Some("t"))))]
  }

  /** They are what the bodies of that plan come to when the tool of subtask 2 raises. */
  lemma GapIsProducible()
    ensures Producible(GapPlan(), GapOutcomes())
  {
    var reg := map["t" := Tool("t", _ => true, _ => true, 1000)];
    var around := (i: nat) =>
      Surroundings(ChatReply([ToolRequest("t", map[])], 0.0),
                   (_, _) => if i == 2 then RaisesOther("down") else Output(map[], 0));
    forall i: nat | i < 3
      ensures RunOneSubtask(reg, i, GapPlan()[i], around(i)) == Settles(GapOutcomes()[i])
    {
    }
    assert Produces(reg, GapPlan(), around, GapOutcomes());
  }

  lemma GapDeps()
    ensures DepsOf(GapPlan()) == [{}, {0}, {}]
  {
    var deps := DepsOf(GapPlan());
    forall i: nat, d: nat | i < 3
      ensures d in deps[i] <==> i == 1 && d == 0
    {
      EdgeIff(GapPlan(), i, d);
    }
    assert deps[0] == {} && deps[1] == {0} && deps[2] == {};
  }

  lemma GapRun(p: Problem) returns (es: seq<Event>)
    requires p == Problem([{}, {0}, {}], [true, true, false], 2)
    ensures IsRun(p, es) && After(p, es).mode == Mode.Returned(true)
    ensures After(p, es).completed == {0, 2} && After(p, es).failure == Some(2)
  {
    var ready := Ready(p.deps, {}, {});
    assert 0 in p.deps[1] && ready == {0, 2};
    RunExtends(p, [], Launch);
    es := [] + [Launch];
    RunExtends(p, es, Acquire(0));
    es := es + [Acquire(0)];
    RunExtends(p, es, Acquire(2));
    es := es + [Acquire(2)];
    RunExtends(p, es, Finish(2));
    es := es + [Finish(2)];
    RunExtends(p, es, Wake({2}, Some(2)));
    es := es + [Wake({2}, Some(2))];
    assert After(p, es).inFlight == {0};
    RunExtends(p, es, Finish(0));
    es := es + [Finish(0)];
    RunExtends(p, es, Drain);
    es := es + [Drain];
  }

  lemma GapRound() returns (round: Round)
    ensures RoundOk(round) && round.plan == GapPlan() && round.outcomes == GapOutcomes()
    ensures 1 !in After(ProblemOf(round.plan, round.outcomes, round.cap), round.events).scheduled
    ensures round.rows == Mirrored(NewRows(round.plan, 0, true), round.result.completed)
    ensures round.rows[1].status == Failed && round.rows[2].status == Pending
  {
    GapDeps();
    var outcomes := GapOutcomes();
    var p := ProblemOf(GapPlan(), outcomes, 2);
    assert p.ok == [true, true, false];
    var es := GapRun(p);
    OneNeverScheduled(p, es);
    var result := ParallelRunner.ResultOf(outcomes, After(p, es));
    GapList(outcomes);
    assert result.completed == [outcomes[0], outcomes[2]];
    round := Round(GapPlan(), outcomes, 2, es, result, 0, Mirrored(NewRows(GapPlan(), 0, true), result.completed));
  }

  /** The gap is real: a run of that plan, on outcomes its bodies come to, after which row 1 reads
      FAILED although subtask 1 was never launched, and row 2 reads PENDING although subtask 2 failed. */
  lemma GapWitness() returns (round: Round)
    ensures RoundOk(round) && round.plan == GapPlan() && round.outcomes == GapOutcomes()
    ensures Producible(round.plan, round.outcomes)
    ensures 1 !in After(ProblemOf(round.plan, round.outcomes, round.cap), round.events).scheduled
    ensures round.rows == Mirrored(NewRows(round.plan, 0, true), round.result.completed)
    ensures !round.outcomes[2].ok && round.rows[1].status == Failed && round.rows[2].status == Pending
  {
    round := GapRound();
    GapIsProducible();
  }

  lemma OneNeverScheduled(p: Problem, es: seq<Event>)
    requires WellFormed(p) && IsRun(p, es)
    requires After(p, es).mode.Returned? && After(p, es).completed == {0, 2}
    ensures 1 !in After(p, es).scheduled
  {
    RunKeepsInv(p, es);
    ReturnVerdict(p, es);
  }

  lemma GapList(outcomes: seq<SubtaskOutcome>)
    requires |outcomes| == 3
    ensures InOrder(outcomes, {0, 2}, 3) == [outcomes[0], outcomes[2]]
  {
    assert InOrder(outcomes, {0, 2}, 1) == [outcomes[0]];
    assert InOrder(outcomes, {0, 2}, 2) == [outcomes[0]];
  }
}
