/** `run_parallel` as the imperative loop it is, over an event loop whose scheduling is
    nondeterministic.  It is proved to perform a run of the transition system. */
module ParallelRunner {
  import opened Values
  import opened Dag
  import opened Attempt
  import opened Bodies
  import opened Scheduler
  import opened SchedulerTheorems
  import opened Determinacy
  import opened EventLoop

  datatype ParallelResult = ParallelResult(
    status: GoalStatus,
    finalResult: Option<string>,
    completed: seq<SubtaskOutcome>,
    lastFailure: Option<FailureReason>)

  /** One outcome per subtask, in plan order; an outcome is ok exactly when it carries no failure. */
  ghost predicate OutcomesFor(n: nat, outcomes: seq<SubtaskOutcome>) {
    && |outcomes| == n
    && (forall i :: 0 <= i < n ==> outcomes[i].idx == i && (outcomes[i].ok <==> outcomes[i].failure.None?))
  }

  function Oks(outcomes: seq<SubtaskOutcome>): (oks: seq<bool>)
    ensures |oks| == |outcomes|
    ensures forall i :: 0 <= i < |oks| ==> oks[i] == outcomes[i].ok
  {
    seq(|outcomes|, i requires 0 <= i < |outcomes| => outcomes[i].ok)
  }

  ghost function ProblemOf(plan: seq<PlannedSubtask>, outcomes: seq<SubtaskOutcome>, cap: nat): Problem {
    Problem(DepsOf(plan), Oks(outcomes), cap)
  }

  /** On plans: when a subtask launches, no failure has been seen, and every earlier subtask it lists has
      completed ok; so has every earlier one, when it lists nothing and did not opt into parallelism. */
  lemma {:induction false} LaunchesAfterListed(plan: seq<PlannedSubtask>, outcomes: seq<SubtaskOutcome>, cap: nat,
                                               es: seq<Event>, k: nat, i: nat, d: nat)
    requires OutcomesFor(|plan|, outcomes) && cap >= 1
    requires var p := ProblemOf(plan, outcomes, cap); IsRun(p, es) && LaunchedAt(p, es, k, i)
    ensures i < |plan| && After(ProblemOf(plan, outcomes, cap), es[..k]).failure.None?
    ensures d < i && (d in plan[i].dependencies || (plan[i].dependencies == [] && !plan[i].parallel)) ==>
      d in After(ProblemOf(plan, outcomes, cap), es[..k]).completed && outcomes[d].ok
  {
    LaunchIsLegal(ProblemOf(plan, outcomes, cap), es, k, i);
    EdgeIff(plan, i, d);
  }

  /** And it launches as soon as it may: while the scheduler waits, a subtask that has not been launched
      waits for one that has not completed. */
  lemma {:induction false} NothingIsHeldBack(plan: seq<PlannedSubtask>, outcomes: seq<SubtaskOutcome>, cap: nat,
                                             es: seq<Event>, i: nat)
    returns (d: nat)
    requires OutcomesFor(|plan|, outcomes) && cap >= 1 && i < |plan|
    requires var p := ProblemOf(plan, outcomes, cap);
      IsRun(p, es) && After(p, es).mode.Waiting? && i !in After(p, es).scheduled
    ensures d < i && (d in plan[i].dependencies || (plan[i].dependencies == [] && !plan[i].parallel))
    ensures d !in After(ProblemOf(plan, outcomes, cap), es).completed
  {
    var p := ProblemOf(plan, outcomes, cap);
    RunKeepsInv(p, es);
    var s := After(p, es);
    assert i !in Ready(p.deps, s.completed, s.scheduled);
    d :| d in p.deps[i] && d !in s.completed;
    EdgeIff(plan, i, d);
  }

  // ---------------------------------------------------------------------------------------------
  // The answer of a finished run
  // ---------------------------------------------------------------------------------------------

  /** The outcomes of the subtasks in `done`, by index. */
  function InOrder(outcomes: seq<SubtaskOutcome>, done: set<nat>, n: nat): (list: seq<SubtaskOutcome>)
    requires n <= |outcomes|
    ensures forall o :: o in list ==> exists i: nat :: i < n && i in done && o == outcomes[i]
  {
    if n == 0 then []
    else if n - 1 in done then InOrder(outcomes, done, n - 1) + [outcomes[n - 1]]
    else InOrder(outcomes, done, n - 1)
  }

  /** An ok outcome with a string "final", from the `finish` tool or at the highest index. */
  predicate FinishShaped(list: seq<SubtaskOutcome>, k: nat)
    requires k < |list|
  {
    && list[k].ok
    && list[k].output.Some?
    && FinalString(list[k].output.value).Some?
    && (list[k].toolName == Some("finish") || k == |list| - 1)
  }

  function FinalTextBelow(list: seq<SubtaskOutcome>, k: nat): Option<string>
    requires k <= |list|
  {
    if k == 0 then None
    else if FinishShaped(list, k - 1) then FinalString(list[k - 1].output.value)
    else FinalTextBelow(list, k - 1)
  }

  function FinalText(list: seq<SubtaskOutcome>): Option<string> {
    FinalTextBelow(list, |list|)
  }

  /** The final text is that of the highest finish-shaped outcome. */
  lemma {:induction false} FinalTextIsHighest(list: seq<SubtaskOutcome>, k: nat, j: nat)
    requires j < k <= |list| && FinishShaped(list, j)
    requires forall i :: j < i < k ==> !FinishShaped(list, i)
    ensures FinalTextBelow(list, k) == FinalString(list[j].output.value)
  {
    if j < k - 1 {
      FinalTextIsHighest(list, k - 1, j);
    }
  }

  lemma {:induction false} NoFinalText(list: seq<SubtaskOutcome>, k: nat)
    requires k <= |list|
    ensures FinalTextBelow(list, k).None? <==> forall i :: 0 <= i < k ==> !FinishShaped(list, i)
  {
    if k > 0 {
      NoFinalText(list, k - 1);
    }
  }

  function Resolved(list: seq<SubtaskOutcome>): ParallelResult {
    var text := FinalText(list);
    ParallelResult(if text.Some? then GoalSucceeded else GoalRunning, text, list, None)
  }

  ghost function ResultOf(outcomes: seq<SubtaskOutcome>, s: State): ParallelResult {
    var list := InOrder(outcomes, s.completed, |outcomes|);
    if s.failure.Some? && s.failure.value < |outcomes| then
      ParallelResult(GoalRunning, None, list, outcomes[s.failure.value].failure)
    else Resolved(list)
  }

  lemma {:induction false} InOrderOfAll(outcomes: seq<SubtaskOutcome>, done: set<nat>, n: nat)
    requires n <= |outcomes| && Range(n) <= done
    ensures InOrder(outcomes, done, n) == outcomes[..n]
  {
    if n > 0 {
      assert n - 1 in Range(n);
      InOrderOfAll(outcomes, done, n - 1);
      assert outcomes[..n] == outcomes[..n - 1] + [outcomes[n - 1]];
    }
  }

  /** The list holds the outcomes of exactly the subtasks in `done`, in index order. */
  lemma {:induction false} InOrderIs(outcomes: seq<SubtaskOutcome>, done: set<nat>, n: nat)
    requires n <= |outcomes| && forall i :: 0 <= i < |outcomes| ==> outcomes[i].idx == i
    ensures var list := InOrder(outcomes, done, n);
      && (forall i: nat :: i < n && i in done ==> outcomes[i] in list)
      && (forall j :: 0 <= j < |list| ==>
            0 <= list[j].idx < n && list[j].idx in done && list[j] == outcomes[list[j].idx])
      && (forall j, k :: 0 <= j < k < |list| ==> list[j].idx < list[k].idx)
  {
    if n > 0 {
      InOrderIs(outcomes, done, n - 1);
    }
  }

  /** r is the answer of a returned run over these outcomes. */
  ghost predicate IsAnswer(plan: seq<PlannedSubtask>, outcomes: seq<SubtaskOutcome>, cap: nat, es: seq<Event>,
                           r: ParallelResult)
  {
    && OutcomesFor(|plan|, outcomes) && cap >= 1
    && var p := ProblemOf(plan, outcomes, cap);
       IsRun(p, es) && After(p, es).mode.Returned? && r == ResultOf(outcomes, After(p, es))
  }

  /** The answer of a finished run as a function of the outcomes: a failure is reported if and only
      if some outcome failed, and otherwise the whole result is determined.  No interleaving and no
      cap appears on the right-hand side. */
  lemma {:induction false} AnswerDependsOnOutcomesOnly(
      plan: seq<PlannedSubtask>, outcomes: seq<SubtaskOutcome>, cap: nat, es: seq<Event>, r: ParallelResult)
    requires IsAnswer(plan, outcomes, cap, es, r)
    ensures r.lastFailure.Some? <==> exists i :: 0 <= i < |outcomes| && !outcomes[i].ok
    ensures r.lastFailure.None? ==> r == Resolved(outcomes)
    ensures r.lastFailure.Some? ==> r.finalResult.None?
  {
    var p := ProblemOf(plan, outcomes, cap);
    RunKeepsInv(p, es);
    ReturnVerdict(p, es);
    AnswerOfState(p, outcomes, After(p, es));
  }

  /** Of any returned run: the answer lists exactly what completed, by index; its status is SUCCEEDED with
      a text and otherwise RUNNING, never an abort; and a failed one reports the failure of a subtask
      that completed. */
  lemma {:induction false} AnswerListsCompleted(
      plan: seq<PlannedSubtask>, outcomes: seq<SubtaskOutcome>, cap: nat, es: seq<Event>, r: ParallelResult)
    requires IsAnswer(plan, outcomes, cap, es, r)
    ensures r.status == if r.finalResult.Some? then GoalSucceeded else GoalRunning
    ensures forall i: nat :: i < |outcomes| ==>
      (outcomes[i] in r.completed <==> i in After(ProblemOf(plan, outcomes, cap), es).completed)
    ensures forall j :: 0 <= j < |r.completed| ==>
      0 <= r.completed[j].idx < |outcomes| && r.completed[j] == outcomes[r.completed[j].idx]
    ensures forall j, k :: 0 <= j < k < |r.completed| ==> r.completed[j].idx < r.completed[k].idx
    ensures r.lastFailure.Some? ==> exists o :: o in r.completed && !o.ok && o.failure == r.lastFailure
  {
    var s := After(ProblemOf(plan, outcomes, cap), es);
    RunKeepsInv(ProblemOf(plan, outcomes, cap), es);
    InOrderIs(outcomes, s.completed, |outcomes|);
    if r.lastFailure.Some? {
      AnswerDependsOnOutcomesOnly(plan, outcomes, cap, es, r);
      var f := s.failure.value;
      assert outcomes[f] in r.completed && !outcomes[f].ok;
    }
  }

  predicate ShipsText(o: SubtaskOutcome) {
    o.output.Some? && FinalString(o.output.value).Some?
  }

  /** When all are ok, the answer has no text if and only if every text comes from another tool than
      `finish` and before the highest index. */
  lemma {:induction false} TextsIgnoredIff(
      plan: seq<PlannedSubtask>, outcomes: seq<SubtaskOutcome>, cap: nat, es: seq<Event>, r: ParallelResult)
    requires IsAnswer(plan, outcomes, cap, es, r) && forall i :: 0 <= i < |outcomes| ==> outcomes[i].ok
    ensures r.lastFailure.None?
    ensures r.finalResult.None? <==>
      forall i :: 0 <= i < |outcomes| && ShipsText(outcomes[i]) ==>
        outcomes[i].toolName != Some("finish") && i < |outcomes| - 1
  {
    AnswerDependsOnOutcomesOnly(plan, outcomes, cap, es, r);
    NoFinalText(outcomes, |outcomes|);
    forall i | 0 <= i < |outcomes|
      ensures FinishShaped(outcomes, i) <==>
        ShipsText(outcomes[i]) && (outcomes[i].toolName == Some("finish") || i == |outcomes| - 1)
    {
    }
  }

  /** Confluence of the answers: two runs over the same outcomes, under any two dependency layouts,
      interleavings and caps, agree on whether a failure is reported; if none is, they return the
      same outcomes, status and final text. */
  lemma {:induction false} AnswersAgree(
      plan: seq<PlannedSubtask>, cap: nat, es: seq<Event>, r: ParallelResult,
      layout: seq<PlannedSubtask>, cap': nat, fs: seq<Event>, r': ParallelResult, outcomes: seq<SubtaskOutcome>)
    requires IsAnswer(plan, outcomes, cap, es, r) && IsAnswer(layout, outcomes, cap', fs, r')
    ensures r.lastFailure.Some? <==> r'.lastFailure.Some?
    ensures r.lastFailure.None? ==> r == r' && r.completed == outcomes
  {
    AnswerDependsOnOutcomesOnly(plan, outcomes, cap, es, r);
    AnswerDependsOnOutcomesOnly(layout, outcomes, cap', fs, r');
  }

  lemma AnswerOfState(p: Problem, outcomes: seq<SubtaskOutcome>, s: State)
    requires OutcomesFor(|p.deps|, outcomes) && p.ok == Oks(outcomes)
    requires s.mode.Returned? && VerdictFits(p, s) && ModeFits(p, s) && VerdictOf(p, s)
    ensures var r := ResultOf(outcomes, s);
      && (r.lastFailure.Some? <==> exists i :: 0 <= i < |outcomes| && !outcomes[i].ok)
      && (r.lastFailure.None? ==> r == Resolved(outcomes))
      && (r.lastFailure.Some? ==> r.finalResult.None?)
  {
    if s.mode.aborted {
      assert !outcomes[s.failure.value].ok;
    } else {
      InOrderOfAll(outcomes, s.completed, |outcomes|);
      assert outcomes[..|outcomes|] == outcomes;
      assert forall i :: 0 <= i < |outcomes| ==> p.ok[i];
    }
  }

  // ---------------------------------------------------------------------------------------------
  // When the reported failure is determined
  // ---------------------------------------------------------------------------------------------

  /** Whatever outcomes the bodies of the plan come to, any two answers over them, under these caps,
      report the same failure. */
  ghost predicate ReasonDetermined(plan: seq<PlannedSubtask>, cap: nat, cap': nat) {
    forall outcomes: seq<SubtaskOutcome>, es: seq<Event>, r: ParallelResult, fs: seq<Event>, r': ParallelResult ::
      Producible(plan, outcomes) && IsAnswer(plan, outcomes, cap, es, r) && IsAnswer(plan, outcomes, cap', fs, r') ==>
        r.lastFailure == r'.lastFailure
  }

  /** Each subtask lists its predecessor, or lists nothing and did not opt into parallelism. */
  predicate ListsPredecessors(plan: seq<PlannedSubtask>) {
    forall i :: 0 < i < |plan| ==>
      i - 1 in plan[i].dependencies || (plan[i].dependencies == [] && !plan[i].parallel)
  }

  lemma PredecessorEdge(plan: seq<PlannedSubtask>, i: nat)
    requires 0 < i < |plan|
    ensures i - 1 in DepsOf(plan)[i] <==>
      i - 1 in plan[i].dependencies || (plan[i].dependencies == [] && !plan[i].parallel)
  {
    EdgeIff(plan, i, i - 1);
  }

  lemma ConsecutiveIffListsPredecessors(plan: seq<PlannedSubtask>)
    ensures Consecutive(DepsOf(plan)) <==> ListsPredecessors(plan)
  {
    forall i: nat | 0 < i < |plan|
      ensures i - 1 in DepsOf(plan)[i] <==>
        i - 1 in plan[i].dependencies || (plan[i].dependencies == [] && !plan[i].parallel)
    {
      PredecessorEdge(plan, i);
    }
  }

  lemma SameIndexSameReason(
      plan: seq<PlannedSubtask>, outcomes: seq<SubtaskOutcome>,
      cap: nat, es: seq<Event>, r: ParallelResult, cap': nat, fs: seq<Event>, r': ParallelResult)
    requires IsAnswer(plan, outcomes, cap, es, r) && IsAnswer(plan, outcomes, cap', fs, r')
    requires After(ProblemOf(plan, outcomes, cap), es).failure == After(ProblemOf(plan, outcomes, cap'), fs).failure
    ensures r.lastFailure == r'.lastFailure
  {
  }

  lemma ReportsItsReason(plan: seq<PlannedSubtask>, outcomes: seq<SubtaskOutcome>, cap: nat, es: seq<Event>, f: nat)
    requires OutcomesFor(|plan|, outcomes) && cap >= 1 && f < |outcomes|
    requires var p := ProblemOf(plan, outcomes, cap);
      IsRun(p, es) && After(p, es).mode.Returned? && After(p, es).failure == Some(f)
    ensures var r := ResultOf(outcomes, After(ProblemOf(plan, outcomes, cap), es));
      IsAnswer(plan, outcomes, cap, es, r) && r.lastFailure == outcomes[f].failure
  {
  }

  /** Subtask i - 1 is refused a tool, the tool of subtask i raises, the others pass. */
  function NeighbourFates(n: nat, i: nat): (fates: seq<Fate>)
    ensures |fates| == n
  {
    seq(n, k => if k == i then Broken else if k + 1 == i then Refused else Fine)
  }

  lemma NeighboursFail(plan: seq<PlannedSubtask>, i: nat) returns (outcomes: seq<SubtaskOutcome>)
    requires 0 < i < |plan|
    ensures Producible(plan, outcomes) && OutcomesFor(|plan|, outcomes) && Oks(outcomes) == TwoFail(|plan|, i)
    ensures outcomes[i].failure != outcomes[i - 1].failure
  {
    outcomes := FatedOutcomes(plan, NeighbourFates(|plan|, i));
    FatesAreProducible(plan, NeighbourFates(|plan|, i));
    assert outcomes[i] == Fated(i, plan[i], Broken) && outcomes[i - 1] == Fated(i - 1, plan[i - 1], Refused);
  }

  lemma TwoAnswers(plan: seq<PlannedSubtask>, cap: nat, cap': nat, i: nat)
    returns (outcomes: seq<SubtaskOutcome>, es: seq<Event>, r: ParallelResult, fs: seq<Event>, r': ParallelResult)
    requires cap >= 1 && cap' >= 1 && 0 < i < |plan| && i - 1 !in DepsOf(plan)[i]
    ensures Producible(plan, outcomes)
    ensures IsAnswer(plan, outcomes, cap, es, r) && IsAnswer(plan, outcomes, cap', fs, r')
    ensures r.lastFailure != r'.lastFailure
  {
    var ok;
    ok, es, fs := IndependentNeighboursDiffer(DepsOf(plan), i, cap, cap');
    outcomes := NeighboursFail(plan, i);
    ReportsItsReason(plan, outcomes, cap, es, i);
    ReportsItsReason(plan, outcomes, cap', fs, i - 1);
    r := ResultOf(outcomes, After(ProblemOf(plan, outcomes, cap), es));
    r' := ResultOf(outcomes, After(ProblemOf(plan, outcomes, cap'), fs));
  }

  /** The failure handed to the planner is the same in every run, whatever the bodies come to and under
      any two caps, if and only if the plan lists predecessors. */
  lemma {:induction false} ReasonDeterminedIff(plan: seq<PlannedSubtask>, cap: nat, cap': nat)
    requires cap >= 1 && cap' >= 1
    ensures ReasonDetermined(plan, cap, cap') <==> ListsPredecessors(plan)
  {
    ConsecutiveIffListsPredecessors(plan);
    if ListsPredecessors(plan) {
      forall outcomes: seq<SubtaskOutcome>, es: seq<Event>, r: ParallelResult, fs: seq<Event>, r': ParallelResult |
        Producible(plan, outcomes) && IsAnswer(plan, outcomes, cap, es, r) && IsAnswer(plan, outcomes, cap', fs, r')
        ensures r.lastFailure == r'.lastFailure
      {
        ConsecutiveDetermines(ProblemOf(plan, outcomes, cap), es, ProblemOf(plan, outcomes, cap'), fs);
        SameIndexSameReason(plan, outcomes, cap, es, r, cap', fs, r');
      }
    } else {
      var i: nat :| 0 < i < |plan| && i - 1 !in DepsOf(plan)[i];
      var outcomes, es, r, fs, r' := TwoAnswers(plan, cap, cap', i);
    }
  }

  // ---------------------------------------------------------------------------------------------
  // Bodies that raise
  // ---------------------------------------------------------------------------------------------

  /** One result per body; a settled one carries its index and is ok exactly when it has no failure. */
  ghost predicate ResultsFor(n: nat, results: seq<AttemptResult>) {
    && |results| == n
    && forall i :: 0 <= i < n && results[i].Settles? ==>
         results[i].outcome.idx == i && (results[i].outcome.ok <==> results[i].outcome.failure.None?)
  }

  /** Until a body that raised is reported, it is a finished task like any other: its place is taken
      by an ok outcome nobody looks at. */
  function Landed(results: seq<AttemptResult>): (outcomes: seq<SubtaskOutcome>)
    ensures |outcomes| == |results|
    ensures forall i :: 0 <= i < |results| && results[i].Settles? ==> outcomes[i] == results[i].outcome
    ensures forall i :: 0 <= i < |results| && results[i].Escapes? ==> outcomes[i].ok
  {
    seq(|results|, (i: nat) requires i < |results| =>
      match results[i]
      case Settles(outcome) => outcome
      case Escapes => SubtaskOutcome(i, "", None, None, true, None))
  }

  lemma LandedAreOutcomes(results: seq<AttemptResult>)
    requires ResultsFor(|results|, results)
    ensures OutcomesFor(|results|, Landed(results))
  {
  }

  ghost predicate NoneEscaped(results: seq<AttemptResult>, done: set<nat>) {
    forall i :: i in done && i < |results| ==> results[i].Settles?
  }

  /** The last event of the run reported the first body that raised. */
  ghost predicate Raises(plan: seq<PlannedSubtask>, results: seq<AttemptResult>, cap: nat, es: seq<Event>) {
    var p := ProblemOf(plan, Landed(results), cap);
    && es != [] && IsRun(p, es)
    && NoneEscaped(results, After(p, es[..|es| - 1]).completed)
    && !NoneEscaped(results, After(p, es).completed)
  }

  /** Body i raises although everything it waits for is ok. */
  ghost predicate EscapesFirst(plan: seq<PlannedSubtask>, results: seq<AttemptResult>, i: nat) {
    && i < |results| && results[i].Escapes?
    && forall a: nat :: DependsOn(DepsOf(plan), i, a) ==> a < |results| && results[a].Settles? && results[a].outcome.ok
  }

  lemma RaisedEscapesFirst(plan: seq<PlannedSubtask>, results: seq<AttemptResult>, cap: nat, es: seq<Event>)
    returns (i: nat)
    requires ResultsFor(|plan|, results) && cap >= 1 && Raises(plan, results, cap, es)
    ensures EscapesFirst(plan, results, i)
  {
    var p := ProblemOf(plan, Landed(results), cap);
    var before := es[..|es| - 1];
    LandedAreOutcomes(results);
    i :| i in After(p, es).completed && i < |results| && results[i].Escapes?;
    ReportedWasLaunched(p, es, i);
    forall a: nat | DependsOn(p.deps, i, a)
      ensures a < |results| && results[a].Settles? && results[a].outcome.ok
    {
      LaunchedNeedsAreDone(p, before, i, a);
    }
  }

  lemma EscapesFirstIsRaised(plan: seq<PlannedSubtask>, results: seq<AttemptResult>, cap: nat, i: nat)
    returns (es: seq<Event>)
    requires ResultsFor(|plan|, results) && cap >= 1 && EscapesFirst(plan, results, i)
    ensures Raises(plan, results, cap, es)
  {
    LandedAreOutcomes(results);
    var p := ProblemOf(plan, Landed(results), cap);
    var seen := FinishAfterNeeds(p, i);
    es := ReportOk(p, seen, i);
    assert es[..|es| - 1] == seen;
    assert i in After(p, es).completed;
  }

  /** A run that returned without a failure reported every body, so none raised. */
  lemma ReturnedWithoutRaising(plan: seq<PlannedSubtask>, results: seq<AttemptResult>, cap: nat, es: seq<Event>,
                               r: ParallelResult)
    requires IsAnswer(plan, Landed(results), cap, es, r)
    requires NoneEscaped(results, After(ProblemOf(plan, Landed(results), cap), es).completed)
    ensures r.lastFailure.Some? <==> exists i :: 0 <= i < |results| && !Landed(results)[i].ok
    ensures r.lastFailure.None? ==> NoneEscaped(results, Range(|plan|)) && r == Resolved(Landed(results))
  {
    AnswerDependsOnOutcomesOnly(plan, Landed(results), cap, es, r);
    if r.lastFailure.None? {
      var p := ProblemOf(plan, Landed(results), cap);
      ReturnVerdict(p, es);
      assert AllOk(p);
    }
  }

  /** Some run of the plan raises if and only if some body raises although everything it waits for,
      directly or through others, is ok. */
  lemma {:induction false} CanRaiseIff(plan: seq<PlannedSubtask>, results: seq<AttemptResult>, cap: nat)
    requires ResultsFor(|plan|, results) && cap >= 1
    ensures (exists es: seq<Event> :: Raises(plan, results, cap, es)) <==>
            (exists i: nat :: EscapesFirst(plan, results, i))
  {
    if es: seq<Event> :| Raises(plan, results, cap, es) {
      var i := RaisedEscapesFirst(plan, results, cap, es);
    }
    if i: nat :| EscapesFirst(plan, results, i) {
      var es := EscapesFirstIsRaised(plan, results, cap, i);
    }
  }

  /** The run returned and reported no body that raised. */
  ghost predicate ReturnsQuietly(plan: seq<PlannedSubtask>, results: seq<AttemptResult>, cap: nat, es: seq<Event>) {
    var p := ProblemOf(plan, Landed(results), cap);
    IsRun(p, es) && After(p, es).mode.Returned? && NoneEscaped(results, After(p, es).completed)
  }

  ghost predicate AllPass(results: seq<AttemptResult>) {
    forall i :: 0 <= i < |results| ==> results[i].Settles? && results[i].outcome.ok
  }

  /** f fails although everything it waits for is ok, and every body that raises waits for something
      f does not wait for. */
  ghost predicate FailsBeforeEscapes(plan: seq<PlannedSubtask>, results: seq<AttemptResult>, f: nat) {
    && f < |results| && results[f].Settles? && !results[f].outcome.ok
    && (forall a: nat :: DependsOn(DepsOf(plan), f, a) ==>
          a < |results| && results[a].Settles? && results[a].outcome.ok)
    && forall e: nat :: e < |results| && results[e].Escapes? ==> !NoLaterThan(DepsOf(plan), e, f)
  }

  lemma QuietReturnPasses(plan: seq<PlannedSubtask>, results: seq<AttemptResult>, cap: nat, es: seq<Event>)
    requires ResultsFor(|plan|, results) && cap >= 1 && ReturnsQuietly(plan, results, cap, es)
    requires After(ProblemOf(plan, Landed(results), cap), es).failure.None?
    ensures AllPass(results)
  {
    LandedAreOutcomes(results);
    var p := ProblemOf(plan, Landed(results), cap);
    RunKeepsInv(p, es);
    ReturnVerdict(p, es);
    forall i: nat | i < |results|
      ensures results[i].Settles? && results[i].outcome.ok
    {
      assert i in Range(|plan|) && p.ok[i];
    }
  }

  lemma QuietReturnFails(plan: seq<PlannedSubtask>, results: seq<AttemptResult>, cap: nat, es: seq<Event>, f: nat)
    requires ResultsFor(|plan|, results) && cap >= 1 && ReturnsQuietly(plan, results, cap, es)
    requires After(ProblemOf(plan, Landed(results), cap), es).failure == Some(f)
    ensures FailsBeforeEscapes(plan, results, f)
  {
    LandedAreOutcomes(results);
    var p := ProblemOf(plan, Landed(results), cap);
    RunKeepsInv(p, es);
    ReturnVerdict(p, es);
    forall a: nat | DependsOn(p.deps, f, a)
      ensures a < |results| && results[a].Settles? && results[a].outcome.ok
    {
      LaunchedNeedsAreDone(p, es, f, a);
    }
    forall e: nat | e < |results| && results[e].Escapes?
      ensures !NoLaterThan(p.deps, e, f)
    {
      if NoLaterThan(p.deps, e, f) {
        LaunchedNoLater(p, es, e, f);
      }
    }
  }

  lemma AllPassReturnsQuietly(plan: seq<PlannedSubtask>, results: seq<AttemptResult>, cap: nat) returns (es: seq<Event>)
    requires ResultsFor(|plan|, results) && cap >= 1 && AllPass(results)
    ensures ReturnsQuietly(plan, results, cap, es)
  {
    LandedAreOutcomes(results);
    es := EveryRunCanReturn(ProblemOf(plan, Landed(results), cap), []);
  }

  lemma FailingReturnsQuietly(plan: seq<PlannedSubtask>, results: seq<AttemptResult>, cap: nat, f: nat)
    returns (es: seq<Event>)
    requires ResultsFor(|plan|, results) && cap >= 1 && FailsBeforeEscapes(plan, results, f)
    ensures ReturnsQuietly(plan, results, cap, es)
  {
    LandedAreOutcomes(results);
    var p := ProblemOf(plan, Landed(results), cap);
    var ready := FinishAfterNeeds(p, f);
    NothingEscapesBefore(plan, results, cap, ready, f);
    es := ReturnOnFailure(p, ready, f);
  }

  /** While f is being brought to finish, no body that raises is launched. */
  lemma NothingEscapesBefore(plan: seq<PlannedSubtask>, results: seq<AttemptResult>, cap: nat, es: seq<Event>, f: nat)
    requires ResultsFor(|plan|, results) && cap >= 1 && FailsBeforeEscapes(plan, results, f)
    requires var p := ProblemOf(plan, Landed(results), cap);
      IsRun(p, es) && forall a :: a in After(p, es).completed ==> DependsOn(p.deps, f, a)
    ensures NoneEscaped(results, After(ProblemOf(plan, Landed(results), cap), es).scheduled)
  {
    LandedAreOutcomes(results);
    var p := ProblemOf(plan, Landed(results), cap);
    RunKeepsInv(p, es);
    forall e | e in After(p, es).scheduled && e < |results|
      ensures results[e].Settles?
    {
      assert forall d: nat :: d in p.deps[e] ==> d in After(p, es).completed;
      assert NoLaterThan(p.deps, e, f);
    }
  }

  /** Some run returns without raising if and only if all bodies pass, or some body fails that is
      launched before any body that raises can be.  Otherwise every run raises. */
  lemma {:induction false} CanReturnIff(plan: seq<PlannedSubtask>, results: seq<AttemptResult>, cap: nat)
    requires ResultsFor(|plan|, results) && cap >= 1
    ensures (exists es: seq<Event> :: ReturnsQuietly(plan, results, cap, es)) <==>
            AllPass(results) || exists f: nat :: FailsBeforeEscapes(plan, results, f)
  {
    if es: seq<Event> :| ReturnsQuietly(plan, results, cap, es) {
      var failure := After(ProblemOf(plan, Landed(results), cap), es).failure;
      if failure.None? {
        QuietReturnPasses(plan, results, cap, es);
      } else {
        QuietReturnFails(plan, results, cap, es, failure.value);
      }
    }
    if AllPass(results) {
      var es := AllPassReturnsQuietly(plan, results, cap);
    } else if f: nat :| FailsBeforeEscapes(plan, results, f) {
      var es := FailingReturnsQuietly(plan, results, cap, f);
    }
  }

  // ---------------------------------------------------------------------------------------------
  // The loop
  // ---------------------------------------------------------------------------------------------

  /** Schedule every ready subtask, in index order. */
  method LaunchReady(dep: Deps, done: set<nat>, scheduled: set<nat>, inFlight: set<nat>, loop: Loop)
    returns (scheduled': set<nat>, inFlight': set<nat>)
    modifies loop`queued
    ensures scheduled' == scheduled + Ready(dep, done, scheduled)
    ensures inFlight' == inFlight + Ready(dep, done, scheduled)
    ensures loop.queued == old(loop.queued) + Ready(dep, done, scheduled)
  {
    var ready := Ready(dep, done, scheduled);
    ghost var launched: set<nat> := {};
    scheduled', inFlight' := scheduled, inFlight;
    for i := 0 to |dep|
      invariant forall k: nat :: k in launched <==> k < i && k in ready
      invariant scheduled' == scheduled + launched
      invariant inFlight' == inFlight + launched
      invariant loop.queued == old(loop.queued) + launched
    {
      if i in ready {
        scheduled' := scheduled' + {i};
        loop.CreateTask(i);
        inFlight' := inFlight' + {i};
        launched := launched + {i};
      }
    }
    assert launched == ready;
  }

  ghost predicate Holds(completed: map<nat, SubtaskOutcome>, outcomes: seq<SubtaskOutcome>) {
    forall i :: i in completed ==> i < |outcomes| && completed[i] == outcomes[i]
  }

  /** Walk a batch of finished tasks in some order, storing each outcome and noticing the first
      failure met.  A task that raised ends the walk. */
  method Collect(batch: set<nat>, results: seq<AttemptResult>, completed: map<nat, SubtaskOutcome>)
    returns (raised: bool, completed': map<nat, SubtaskOutcome>, noticed: Option<nat>)
    requires Holds(completed, Landed(results))
    requires forall i :: i in batch ==> i < |results|
    ensures raised <==> !NoneEscaped(results, batch)
    ensures !raised ==>
      && completed'.Keys == completed.Keys + batch && Holds(completed', Landed(results))
      && Notices(Oks(Landed(results)), batch, noticed)
  {
    raised, completed', noticed := false, completed, None;
    var rest := batch;
    while rest != {}
      invariant rest <= batch
      invariant NoneEscaped(results, batch - rest)
      invariant completed'.Keys == completed.Keys + (batch - rest) && Holds(completed', Landed(results))
      invariant Notices(Oks(Landed(results)), batch - rest, noticed)
    {
      var i :| i in rest;
      if results[i].Escapes? {
        return true, completed', noticed;
      }
      rest := rest - {i};
      completed' := completed'[i := results[i].outcome];
      if !results[i].outcome.ok && noticed.None? {
        noticed := Some(i);
      }
    }
    assert batch - rest == batch;
  }

  /** `[completed[i] for i in sorted(completed)]`. */
  method SortedOutcomes(completed: map<nat, SubtaskOutcome>, outcomes: seq<SubtaskOutcome>)
    returns (list: seq<SubtaskOutcome>)
    requires Holds(completed, outcomes)
    ensures list == InOrder(outcomes, completed.Keys, |outcomes|)
  {
    list := [];
    for i := 0 to |outcomes|
      invariant list == InOrder(outcomes, completed.Keys, i)
    {
      if i in completed {
        list := list + [completed[i]];
      }
    }
  }

  /** The reverse scan for the text that ends the plan. */
  method FindFinal(list: seq<SubtaskOutcome>) returns (text: Option<string>)
    ensures text == FinalText(list)
    ensures text.None? <==> forall k :: 0 <= k < |list| ==> !FinishShaped(list, k)
  {
    NoFinalText(list, |list|);
    var k := |list|;
    while k > 0
      invariant 0 <= k <= |list|
      invariant FinalTextBelow(list, k) == FinalText(list)
    {
      k := k - 1;
      if FinishShaped(list, k) {
        return FinalString(list[k].output.value);
      }
    }
    return None;
  }

  /** The loop's variables are the scheduler's part of the state a run has reached. */
  ghost predicate Tracks(p: Problem, es: seq<Event>, completed: map<nat, SubtaskOutcome>, scheduled: set<nat>,
                         inFlight: set<nat>)
  {
    && IsRun(p, es)
    && After(p, es).completed == completed.Keys
    && After(p, es).scheduled == scheduled
    && After(p, es).inFlight == inFlight
  }

  lemma FinishedAreIndices(p: Problem, es: seq<Event>)
    requires WellFormed(p) && IsRun(p, es)
    ensures After(p, es).finished <= After(p, es).inFlight
    ensures forall i :: i in After(p, es).inFlight ==> i < |p.deps|
  {
    RunKeepsInv(p, es);
    var s := After(p, es);
    forall i | i in s.inFlight
      ensures i < |p.deps|
    {
      assert i in s.scheduled;
    }
  }

  /** Whatever a batch holds, something is noticed in it. */
  lemma SomeNotice(ok: seq<bool>, batch: set<nat>) returns (noticed: Option<nat>)
    ensures Notices(ok, batch, noticed)
  {
    if f: nat :| f in batch && f < |ok| && !ok[f] {
      noticed := Some(f);
    } else {
      noticed := None;
    }
  }

  /** Await the first completions and record them. */
  method WakeUp(ghost p: Problem, ghost es: seq<Event>, results: seq<AttemptResult>, loop: Loop,
                completed: map<nat, SubtaskOutcome>, ghost scheduled: set<nat>, inFlight: set<nat>)
    returns (raised: bool, completed': map<nat, SubtaskOutcome>, inFlight': set<nat>, noticed: Option<nat>,
             ghost es': seq<Event>)
    requires WellFormed(p) && Tracks(p, es, completed, scheduled, inFlight)
    requires p.ok == Oks(Landed(results)) && |p.deps| == |results| && Holds(completed, Landed(results))
    requires After(p, es).mode.Waiting? && After(p, es).failure.None? && loop.Shows(After(p, es))
    requires NoneEscaped(results, completed.Keys)
    modifies loop
    ensures |es'| > |es| && IsRun(p, es')
    ensures NoneEscaped(results, After(p, es'[..|es'| - 1]).completed)
    ensures raised <==> !NoneEscaped(results, After(p, es').completed)
    ensures !raised ==>
      && Tracks(p, es', completed', scheduled, inFlight') && loop.Shows(After(p, es'))
      && Holds(completed', Landed(results))
      && After(p, es').failure == noticed && (noticed.Some? ==> noticed.value < |results|)
      && After(p, es').mode == if noticed.None? then LoopHead else if inFlight' == {} then Returned(true) else Draining
  {
    var batch;
    batch, es' := loop.AwaitFirst(p, es);
    FinishedAreIndices(p, es');
    raised, completed', noticed := Collect(batch, results, completed);
    inFlight' := inFlight - batch;
    loop.Forget(batch);
    ghost var before := es';
    ghost var seen := noticed;
    if raised {
      seen := SomeNotice(p.ok, batch);
    }
    RunExtends(p, es', Wake(batch, seen));
    es' := es' + [Wake(batch, seen)];
    assert es'[..|es'| - 1] == before;
  }

  /** After a failure: await everything still in flight and record it; launch nothing. */
  method DrainAll(ghost p: Problem, ghost es: seq<Event>, results: seq<AttemptResult>, loop: Loop,
                  completed: map<nat, SubtaskOutcome>, ghost scheduled: set<nat>, ghost inFlight: set<nat>)
    returns (raised: bool, completed': map<nat, SubtaskOutcome>, ghost es': seq<Event>)
    requires WellFormed(p) && Tracks(p, es, completed, scheduled, inFlight)
    requires |p.deps| == |results| && Holds(completed, Landed(results))
    requires After(p, es).mode.Draining? && loop.Shows(After(p, es))
    requires NoneEscaped(results, completed.Keys)
    modifies loop
    ensures |es'| > |es| && IsRun(p, es')
    ensures NoneEscaped(results, After(p, es'[..|es'| - 1]).completed)
    ensures raised <==> !NoneEscaped(results, After(p, es').completed)
    ensures !raised ==>
      && Tracks(p, es', completed', scheduled, {})
      && Holds(completed', Landed(results))
      && After(p, es').mode == Returned(true) && After(p, es').failure == After(p, es).failure
  {
    var batch, ignored;
    batch, es' := loop.AwaitAll(p, es);
    FinishedAreIndices(p, es');
    raised, completed', ignored := Collect(batch, results, completed);
    loop.Forget(batch);
    ghost var before := es';
    RunExtends(p, es', Drain);
    es' := es' + [Drain];
    assert es'[..|es'| - 1] == before;
  }

  /** The result of the loop's variables at the end. */
  method Report(ghost p: Problem, ghost es: seq<Event>, outcomes: seq<SubtaskOutcome>,
                completed: map<nat, SubtaskOutcome>, failed: Option<nat>)
    returns (result: ParallelResult)
    requires Holds(completed, outcomes) && After(p, es).completed == completed.Keys
    requires After(p, es).failure == failed && (failed.Some? ==> failed.value < |outcomes|)
    ensures result == ResultOf(outcomes, After(p, es))
  {
    var list := SortedOutcomes(completed, outcomes);
    if failed.Some? {
      result := ParallelResult(GoalRunning, None, list, outcomes[failed.value].failure);
    } else {
      var text := FindFinal(list);
      result := ParallelResult(if text.Some? then GoalSucceeded else GoalRunning, text, list, None);
    }
  }

  /** `run_parallel`.  Whatever the event loop does, what happened was a run of the transition system.
      If a body that raised was reported, the exception ends it there and nothing is returned.
      Otherwise the run returned and the result is the answer of its last state; so the result is
      determined by the outcomes up to the choice of the reported failure. */
  method RunParallel(plan: seq<PlannedSubtask>, results: seq<AttemptResult>, maxConcurrency: nat)
    returns (result: Option<ParallelResult>, ghost es: seq<Event>)
    requires ResultsFor(|plan|, results) && maxConcurrency >= 1
    ensures result.None? ==> Raises(plan, results, maxConcurrency, es)
    ensures result.Some? ==>
      && IsAnswer(plan, Landed(results), maxConcurrency, es, result.value)
      && NoneEscaped(results, After(ProblemOf(plan, Landed(results), maxConcurrency), es).completed)
    ensures result.None? ==> exists i: nat :: EscapesFirst(plan, results, i)
    ensures result.Some? ==>
      (result.value.lastFailure.Some? <==> exists i :: 0 <= i < |results| && !Landed(results)[i].ok)
    ensures result.Some? && result.value.lastFailure.None? ==>
      NoneEscaped(results, Range(|plan|)) && result.value == Resolved(Landed(results))
  {
    var dep := BuildDependencyMap(plan);
    LandedAreOutcomes(results);
    ghost var p := ProblemOf(plan, Landed(results), maxConcurrency);
    var loop := new Loop(maxConcurrency);
    var completed: map<nat, SubtaskOutcome> := map[];
    var scheduled: set<nat>, inFlight: set<nat> := {}, {};
    var failed: Option<nat> := None;
    var raised;
    es := [];
    while true
      invariant Tracks(p, es, completed, scheduled, inFlight) && loop.Shows(After(p, es))
      invariant After(p, es).mode.LoopHead? && After(p, es).failure.None? && failed.None?
      invariant Holds(completed, Landed(results)) && NoneEscaped(results, completed.Keys)
      invariant fresh(loop)
      decreases 12 * |plan| + 3 - |es|
    {
      scheduled, inFlight := LaunchReady(dep, completed.Keys, scheduled, inFlight, loop);
      RunExtends(p, es, Launch);
      es := es + [Launch];
      RunsAreBounded(p, es);
      if inFlight == {} {
        break;
      }
      raised, completed, inFlight, failed, es := WakeUp(p, es, results, loop, completed, scheduled, inFlight);
      if raised {
        ghost var i := RaisedEscapesFirst(plan, results, maxConcurrency, es);
        return None, es;
      }
      if failed.Some? {
        if inFlight != {} {
          raised, completed, es := DrainAll(p, es, results, loop, completed, scheduled, inFlight);
          if raised {
            ghost var i := RaisedEscapesFirst(plan, results, maxConcurrency, es);
            return None, es;
          }
          inFlight := {};
        }
        break;
      }
    }
    var answer := Report(p, es, Landed(results), completed, failed);
    result := Some(answer);
    ReturnedWithoutRaising(plan, results, maxConcurrency, es, answer);
  }
}
