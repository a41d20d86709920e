/** Conservation in the sequential loop: what the counters and the in-memory state have to do with
    the rows, kept by every step. */
module RunConservation {
  import opened Values
  import opened Tools
  import opened Attempt
  import opened Records
  import opened RunSpec
  import opened RunFacts
  import opened RunInvariants

  // ---------------------------------------------------------------------------------------------
  // Counting rows
  // ---------------------------------------------------------------------------------------------

  function CountRows(rows: seq<SubtaskRow>, status: SubtaskStatus): nat {
    if rows == [] then 0
    else CountRows(rows[..|rows| - 1], status) + if rows[|rows| - 1].status == status then 1 else 0
  }

  lemma {:induction false} CountAppend(rows: seq<SubtaskRow>, more: seq<SubtaskRow>, status: SubtaskStatus)
    requires forall j :: 0 <= j < |more| ==> more[j].status != status
    ensures CountRows(rows + more, status) == CountRows(rows, status)
  {
    if more == [] {
      assert rows + more == rows;
    } else {
      var all := rows + more;
      assert all[..|all| - 1] == rows + more[..|more| - 1];
      CountAppend(rows, more[..|more| - 1], status);
    }
  }

  lemma {:induction false} CountSet(rows: seq<SubtaskRow>, r: nat, to: SubtaskStatus, status: SubtaskStatus)
    requires r < |rows| && rows[r].status != status
    ensures CountRows(SetStatus(rows, r, to), status) == CountRows(rows, status) + if to == status then 1 else 0
  {
    var rows' := SetStatus(rows, r, to);
    if r == |rows| - 1 {
      assert rows'[..|rows| - 1] == rows[..|rows| - 1];
    } else {
      assert rows'[..|rows| - 1] == SetStatus(rows[..|rows| - 1], r, to);
      CountSet(rows[..|rows| - 1], r, to, status);
    }
  }

  /** An attempt turns its PENDING row into one more FAILED or one more DONE row, or neither. */
  lemma AttemptCounts(rows: seq<SubtaskRow>, r: nat, o: Observation)
    requires r < |rows| && rows[r].status == Pending
    ensures CountRows(RowsAfter(rows, r, o), Failed) == CountRows(rows, Failed) + if Fails(o) then 1 else 0
    ensures CountRows(RowsAfter(rows, r, o), Done) == CountRows(rows, Done) + if o.Passes? then 1 else 0
  {
    if Fails(o) {
      CountSet(rows, r, Failed, Failed);
      CountSet(rows, r, Failed, Done);
    } else if o.Passes? {
      CountSet(rows, r, Done, Failed);
      CountSet(rows, r, Done, Done);
    }
  }

  lemma OpenCounts(rows: seq<SubtaskRow>, subs: seq<PlannedSubtask>, base: nat)
    ensures var rows' := rows + NewRows(subs, base, false);
      CountRows(rows', Failed) == CountRows(rows, Failed) && CountRows(rows', Done) == CountRows(rows, Done)
  {
    CountAppend(rows, NewRows(subs, base, false), Failed);
    CountAppend(rows, NewRows(subs, base, false), Done);
  }

  // ---------------------------------------------------------------------------------------------
  // Replan events
  // ---------------------------------------------------------------------------------------------

  /** How many events were triggered by the selector rather than by a tool call. */
  function SelectorEvents(replans: seq<ReplanRow>): nat {
    if replans == [] then 0
    else SelectorEvents(replans[..|replans| - 1]) + if replans[|replans| - 1].triggeredBy.None? then 1 else 0
  }

  /** Events are numbered 1, 2, ...; one exists per FAILED row and per counted replan; an event has
      no triggering call exactly when the selector refused; tool-call rows are the steps; and every
      selector question led to a tool call or to a refusal. */
  ghost predicate EventInv(s: RunState) {
    && |s.db.replans| == s.replans == CountRows(s.db.subtasks, Failed)
    && (forall j :: 0 <= j < |s.db.replans| ==>
          && s.db.replans[j].idx == j + 1
          && (s.db.replans[j].triggeredBy.None? <==> s.db.replans[j].failureReason == NoToolForSubtask))
    && |s.db.calls| == s.steps == |s.invoked|
    && |s.asked| == s.steps + SelectorEvents(s.db.replans)
  }

  lemma SelectorEventsAfter(replans: seq<ReplanRow>, n: int, call: nat, o: Observation)
    ensures SelectorEvents(ReplansAfter(replans, n, call, o)) == SelectorEvents(replans) + if o.NoTool? then 1 else 0
  {
    var replans' := ReplansAfter(replans, n, call, o);
    if replans' != replans {
      assert replans'[..|replans' | - 1] == replans;
    }
  }

  /** The kinds of failure an observation can carry. */
  ghost predicate KindFits(o: Observation) {
    && (o.NoTool? ==> o.failure.kind == NoToolForSubtask)
    && (o.ToolFails? || o.Rejected? ==> o.failure.kind != NoToolForSubtask)
  }

  lemma AttemptKeepsEvents(s: RunState, s': RunState, r: nat, o: Observation)
    requires EventInv(s) && r < |s.db.subtasks| && s.db.subtasks[r].status == Pending
    requires RowsWritten(s, s', r, o) && KindFits(o) && |s'.asked| == |s.asked| + 1
    ensures EventInv(s')
  {
    AttemptCounts(s.db.subtasks, r, o);
    SelectorEventsAfter(s.db.replans, s.replans, |s.db.calls|, o);
  }

  lemma StepKeepsEvents(c: Config, s: RunState, s': RunState)
    requires EventInv(s) && ShapeInv(c, s)
    requires IsClose(s, s') || IsOpen(c, s, s') || IsAttempt(c, s, s')
    ensures EventInv(s')
  {
    if IsOpen(c, s, s') {
      OpenCounts(s.db.subtasks, c.world.plan(s.planned).subtasks, |s.db.subtasks|);
    } else if IsAttempt(c, s, s') {
      AttemptKeepsEvents(s, s', s.loc.base + s.loc.next, Seen(c, s));
    }
  }

  // ---------------------------------------------------------------------------------------------
  // Tool calls and the rows they belong to
  // ---------------------------------------------------------------------------------------------

  /** Every row from here on has no tool call yet. */
  ghost function Frontier(s: RunState): nat {
    if s.loc.InPlan? then s.loc.base + s.loc.next else |s.db.subtasks|
  }

  ghost predicate CallsInv(calls: seq<CallRow>, frontier: nat) {
    && (forall k :: 0 <= k < |calls| ==> calls[k].idx == 0 && calls[k].subtask < frontier)
    && (forall j, k :: 0 <= j < k < |calls| ==> calls[j].subtask < calls[k].subtask)
  }

  lemma {:induction false} NoCallsYet(calls: seq<CallRow>, r: nat)
    requires forall k :: 0 <= k < |calls| ==> calls[k].subtask < r
    ensures CallsOf(calls, r) == 0
  {
    if calls != [] {
      NoCallsYet(calls[..|calls| - 1], r);
    }
  }

  lemma AttemptKeepsCalls(calls: seq<CallRow>, r: nat, o: Observation)
    requires CallsInv(calls, r)
    ensures CallsInv(CallsAfter(calls, r, o), r + 1)
  {
    NoCallsYet(calls, r);
  }

  lemma CallsBelow(calls: seq<CallRow>, frontier: nat, frontier': nat)
    requires CallsInv(calls, frontier) && frontier <= frontier'
    ensures CallsInv(calls, frontier')
  {
  }

  /** The frontier never moves back, and passes the row of an attempt. */
  lemma FrontierMoves(c: Config, s: RunState, s': RunState)
    requires LocInv(c, s) && OpenRows(s)
    requires IsClose(s, s') || IsOpen(c, s, s') || IsAttempt(c, s, s')
    ensures Frontier(s) <= Frontier(s')
    ensures IsAttempt(c, s, s') ==> s.loc.base + s.loc.next + 1 <= Frontier(s')
  {
  }

  /** The rows of the plan being walked exist. */
  ghost predicate OpenRows(s: RunState) {
    s.loc.InPlan? ==> s.loc.base + s.loc.next <= s.loc.base + |s.loc.subs| <= |s.db.subtasks|
  }

  lemma ShapeHasRows(c: Config, s: RunState)
    requires ShapeInv(c, s)
    ensures OpenRows(s)
  {
  }

  lemma StepKeepsCalls(c: Config, s: RunState, s': RunState)
    requires CallsInv(s.db.calls, Frontier(s)) && LocInv(c, s) && ShapeInv(c, s)
    requires IsClose(s, s') || IsOpen(c, s, s') || IsAttempt(c, s, s')
    ensures CallsInv(s'.db.calls, Frontier(s'))
  {
    ShapeHasRows(c, s);
    FrontierMoves(c, s, s');
    if IsAttempt(c, s, s') {
      AttemptKeepsCalls(s.db.calls, s.loc.base + s.loc.next, Seen(c, s));
      CallsBelow(s'.db.calls, s.loc.base + s.loc.next + 1, Frontier(s'));
    } else {
      CallsBelow(s.db.calls, Frontier(s), Frontier(s'));
    }
  }

  // ---------------------------------------------------------------------------------------------
  // Prior outputs
  // ---------------------------------------------------------------------------------------------

  /** The outputs of the calls whose subtask is DONE, in the order the calls were made. */
  function DoneOutputs(rows: seq<SubtaskRow>, calls: seq<CallRow>): seq<Dict> {
    if calls == [] then []
    else
      var tc := calls[|calls| - 1];
      DoneOutputs(rows, calls[..|calls| - 1]) +
      if tc.subtask < |rows| && rows[tc.subtask].status == Done && tc.output.Some? then [tc.output.value] else []
  }

  /** `prior_outputs` is exactly the outputs of the DONE rows, one each, in execution order. */
  ghost predicate PriorInv(s: RunState) {
    && s.prior == DoneOutputs(s.db.subtasks, s.db.calls)
    && |s.prior| == CountRows(s.db.subtasks, Done)
  }

  lemma {:induction false} DoneOutputsFrame(rows: seq<SubtaskRow>, rows': seq<SubtaskRow>, calls: seq<CallRow>)
    requires forall k :: 0 <= k < |calls| ==>
      calls[k].subtask < |rows| && calls[k].subtask < |rows'| && rows'[calls[k].subtask] == rows[calls[k].subtask]
    ensures DoneOutputs(rows', calls) == DoneOutputs(rows, calls)
  {
    if calls != [] {
      DoneOutputsFrame(rows, rows', calls[..|calls| - 1]);
    }
  }

  lemma DoneOutputsExtend(rows: seq<SubtaskRow>, calls: seq<CallRow>, tc: CallRow)
    ensures DoneOutputs(rows, calls + [tc]) == DoneOutputs(rows, calls) +
      if tc.subtask < |rows| && rows[tc.subtask].status == Done && tc.output.Some? then [tc.output.value] else []
  {
    assert (calls + [tc])[..|calls|] == calls;
  }

  lemma AttemptFramesRows(rows: seq<SubtaskRow>, calls: seq<CallRow>, r: nat, o: Observation)
    requires CallsInv(calls, r) && r < |rows|
    ensures |RowsAfter(rows, r, o)| == |rows|
    ensures forall k :: 0 <= k < |calls| ==>
      calls[k].subtask < |rows| && RowsAfter(rows, r, o)[calls[k].subtask] == rows[calls[k].subtask]
  {
  }

  /** The attempt's call is on its row, which is DONE exactly after a pass. */
  lemma AttemptSettlesRow(rows: seq<SubtaskRow>, calls: seq<CallRow>, r: nat, o: Observation)
    requires r < |rows| && rows[r].status == Pending && !o.NoTool?
    ensures CallAfter(calls, r, o).subtask == r < |RowsAfter(rows, r, o)|
    ensures RowsAfter(rows, r, o)[r].status == Done <==> o.Passes?
    ensures o.Passes? ==> CallAfter(calls, r, o).output == Some(o.output)
  {
  }

  lemma AttemptKeepsPrior(rows: seq<SubtaskRow>, calls: seq<CallRow>, r: nat, o: Observation)
    requires CallsInv(calls, r) && r < |rows| && rows[r].status == Pending
    ensures DoneOutputs(RowsAfter(rows, r, o), CallsAfter(calls, r, o)) == PriorAfter(DoneOutputs(rows, calls), o)
  {
    AttemptFramesRows(rows, calls, r, o);
    DoneOutputsFrame(rows, RowsAfter(rows, r, o), calls);
    if !o.NoTool? {
      AttemptSettlesRow(rows, calls, r, o);
      DoneOutputsExtend(RowsAfter(rows, r, o), calls, CallAfter(calls, r, o));
    }
  }

  lemma OpenKeepsPrior(s: RunState, s': RunState, subs: seq<PlannedSubtask>)
    requires PriorInv(s) && CallsInv(s.db.calls, |s.db.subtasks|)
    requires s'.db.subtasks == s.db.subtasks + NewRows(subs, |s.db.subtasks|, false)
    requires s'.db.calls == s.db.calls && s'.prior == s.prior
    ensures PriorInv(s')
  {
    OpenCounts(s.db.subtasks, subs, |s.db.subtasks|);
    DoneOutputsFrame(s.db.subtasks, s'.db.subtasks, s.db.calls);
  }

  lemma StepKeepsPrior(c: Config, s: RunState, s': RunState)
    requires PriorInv(s) && CallsInv(s.db.calls, Frontier(s)) && ShapeInv(c, s)
    requires IsClose(s, s') || IsOpen(c, s, s') || IsAttempt(c, s, s')
    ensures PriorInv(s')
  {
    if IsOpen(c, s, s') {
      OpenKeepsPrior(s, s', c.world.plan(s.planned).subtasks);
    } else if IsAttempt(c, s, s') {
      var r := s.loc.base + s.loc.next;
      AttemptCounts(s.db.subtasks, r, Seen(c, s));
      AttemptKeepsPrior(s.db.subtasks, s.db.calls, r, Seen(c, s));
    }
  }

  // ---------------------------------------------------------------------------------------------
  // Validations and the invocation log
  // ---------------------------------------------------------------------------------------------

  datatype Verdict = Verdict(call: nat, valid: bool)

  function Verdicts(validations: seq<ValidationRow>): seq<Verdict> {
    if validations == [] then []
    else
      var v := validations[|validations| - 1];
      Verdicts(validations[..|validations| - 1]) + [Verdict(v.call, v.valid)]
  }

  /** One verdict per call with status ok, in order: valid exactly when its subtask is DONE. */
  function ExpectedVerdicts(rows: seq<SubtaskRow>, calls: seq<CallRow>): seq<Verdict> {
    if calls == [] then []
    else
      var k := |calls| - 1;
      ExpectedVerdicts(rows, calls[..k]) +
      if calls[k].status == CallOk
        then [Verdict(k, calls[k].subtask < |rows| && rows[calls[k].subtask].status == Done)] else []
  }

  /** The settled calls.  A crash leaves its last call unsettled: still with the column's default
      status, and never validated. */
  ghost function Settled(s: RunState): seq<CallRow> {
    if s.loc == Exit(Crash) && s.db.calls != [] then s.db.calls[..|s.db.calls| - 1] else s.db.calls
  }

  /** Validation rows are the verdicts of the settled calls with status ok. */
  ghost predicate ValidationInv(s: RunState) {
    Verdicts(s.db.validations) == ExpectedVerdicts(s.db.subtasks, Settled(s))
  }

  /** The call row and the invocation are about the same call: an ok row holds what the tool returned,
      any other says that it did not return. */
  predicate Logged(tc: CallRow, call: Invocation) {
    && call.tool == tc.toolName && call.args == tc.args
    && call.result == (if tc.status == CallOk then tc.output else None)
  }

  /** The log lists the settled calls, each of which returned exactly when its row says ok. */
  ghost predicate LogInv(s: RunState) {
    && |s.invoked| == |s.db.calls|
    && forall k :: 0 <= k < |Settled(s)| ==>
         Logged(s.db.calls[k], s.invoked[k]) && (s.db.calls[k].status == CallOk ==> s.db.calls[k].output.Some?)
  }

  lemma {:induction false} VerdictsFrame(rows: seq<SubtaskRow>, rows': seq<SubtaskRow>, calls: seq<CallRow>)
    requires forall k :: 0 <= k < |calls| ==>
      calls[k].subtask < |rows| && calls[k].subtask < |rows'| && rows'[calls[k].subtask] == rows[calls[k].subtask]
    ensures ExpectedVerdicts(rows', calls) == ExpectedVerdicts(rows, calls)
  {
    if calls != [] {
      VerdictsFrame(rows, rows', calls[..|calls| - 1]);
    }
  }

  /** An ok call and its validation row add the same verdict. */
  lemma VerdictAdded(rows: seq<SubtaskRow>, calls: seq<CallRow>, validations: seq<ValidationRow>, tc: CallRow,
                     v: ValidationRow)
    requires Verdicts(validations) == ExpectedVerdicts(rows, calls)
    requires tc.status == CallOk && v.call == |calls|
    requires v.valid <==> tc.subtask < |rows| && rows[tc.subtask].status == Done
    ensures Verdicts(validations + [v]) == ExpectedVerdicts(rows, calls + [tc])
  {
    assert (validations + [v])[..|validations|] == validations;
    assert (calls + [tc])[..|calls|] == calls;
  }

  /** A call that did not end ok adds none. */
  lemma NoVerdictAdded(rows: seq<SubtaskRow>, calls: seq<CallRow>, tc: CallRow)
    requires tc.status != CallOk
    ensures ExpectedVerdicts(rows, calls + [tc]) == ExpectedVerdicts(rows, calls)
  {
    assert (calls + [tc])[..|calls|] == calls;
  }

  /** The attempt's own row is none of the rows called before. */
  lemma UncalledKeepsVerdicts(rows: seq<SubtaskRow>, calls: seq<CallRow>, r: nat, o: Observation)
    requires CallsInv(calls, r) && r < |rows|
    ensures ExpectedVerdicts(RowsAfter(rows, r, o), calls) == ExpectedVerdicts(rows, calls)
  {
    AttemptFramesRows(rows, calls, r, o);
    VerdictsFrame(rows, RowsAfter(rows, r, o), calls);
  }

  lemma AttemptKeepsVerdicts(rows: seq<SubtaskRow>, calls: seq<CallRow>, validations: seq<ValidationRow>, r: nat,
                             o: Observation)
    requires CallsInv(calls, r) && r < |rows| && (o.ToolFails? ==> o.status != CallOk)
    requires Verdicts(validations) == ExpectedVerdicts(rows, calls)
    ensures Verdicts(ValidationsAfter(validations, |calls|, o)) ==
      ExpectedVerdicts(RowsAfter(rows, r, o), if o.Unfit? then calls else CallsAfter(calls, r, o))
  {
    UncalledKeepsVerdicts(rows, calls, r, o);
    if o.ToolFails? {
      NoVerdictAdded(RowsAfter(rows, r, o), calls, CallAfter(calls, r, o));
    } else if o.Rejected? {
      var v := ValidationRow(|calls|, false, Some(o.failure.kind));
      VerdictAdded(RowsAfter(rows, r, o), calls, validations, CallAfter(calls, r, o), v);
    } else if o.Passes? {
      VerdictAdded(RowsAfter(rows, r, o), calls, validations, CallAfter(calls, r, o),
        ValidationRow(|calls|, true, None));
    }
  }

  /** A crash has one source: arguments that do not fit the tool's input model. */
  ghost predicate CrashIsUnfit(s': RunState, o: Observation) {
    s'.loc == Exit(Crash) <==> o.Unfit?
  }

  lemma AttemptSettles(s: RunState, s': RunState, r: nat, o: Observation)
    requires !s.loc.Exit? && s'.db.calls == CallsAfter(s.db.calls, r, o) && CrashIsUnfit(s', o)
    ensures Settled(s) == s.db.calls
    ensures Settled(s') == if o.Unfit? then s.db.calls else s'.db.calls
  {
  }

  lemma AttemptKeepsInvocations(s: RunState, s': RunState, r: nat, o: Observation)
    requires LogInv(s) && !s.loc.Exit? && s'.invoked == InvokedAfter(s.invoked, o)
    requires s'.db.calls == CallsAfter(s.db.calls, r, o) && CrashIsUnfit(s', o) && (o.ToolFails? ==> o.status != CallOk)
    ensures LogInv(s')
  {
    AttemptSettles(s, s', r, o);
  }

  lemma AttemptKeepsValidations(s: RunState, s': RunState, r: nat, o: Observation)
    requires ValidationInv(s) && CallsInv(s.db.calls, r) && r < |s.db.subtasks| && !s.loc.Exit?
    requires s'.db.subtasks == RowsAfter(s.db.subtasks, r, o) && s'.db.calls == CallsAfter(s.db.calls, r, o)
    requires s'.db.validations == ValidationsAfter(s.db.validations, |s.db.calls|, o)
    requires CrashIsUnfit(s', o) && (o.ToolFails? ==> o.status != CallOk)
    ensures ValidationInv(s')
  {
    AttemptSettles(s, s', r, o);
    AttemptKeepsVerdicts(s.db.subtasks, s.db.calls, s.db.validations, r, o);
  }

  lemma AttemptKeepsLog(s: RunState, s': RunState, r: nat, o: Observation)
    requires LogInv(s) && ValidationInv(s) && CallsInv(s.db.calls, r) && r < |s.db.subtasks|
    requires !s.loc.Exit? && RowsWritten(s, s', r, o) && CrashIsUnfit(s', o) && (o.ToolFails? ==> o.status != CallOk)
    ensures LogInv(s') && ValidationInv(s')
  {
    AttemptKeepsInvocations(s, s', r, o);
    AttemptKeepsValidations(s, s', r, o);
  }

  lemma StepKeepsLog(c: Config, s: RunState, s': RunState)
    requires RegistryOk(c.reg) && LogInv(s) && ValidationInv(s)
    requires CallsInv(s.db.calls, Frontier(s)) && !s.loc.Exit?
    requires IsClose(s, s') || IsOpen(c, s, s') || IsAttempt(c, s, s')
    ensures LogInv(s') && ValidationInv(s')
  {
    if IsAttempt(c, s, s') {
      OnlyUnfitCrashes(c, s, s');
      AttemptKeepsLog(s, s', s.loc.base + s.loc.next, Seen(c, s));
    } else if IsOpen(c, s, s') {
      VerdictsFrame(s.db.subtasks, s'.db.subtasks, s.db.calls);
    }
  }

  /** A registry that honours the `finish` contract cannot crash on a missing final text. */
  lemma OnlyUnfitCrashes(c: Config, s: RunState, s': RunState)
    requires RegistryOk(c.reg) && IsAttempt(c, s, s')
    ensures CrashIsUnfit(s', Seen(c, s))
  {
    var ps := s.loc.subs[s.loc.next];
    PassedOutputFits(c, ps, c.world.around(|s.asked|), s.prior);
  }

  lemma PassedOutputFits(c: Config, ps: PlannedSubtask, around: Surroundings, prior: seq<Dict>)
    requires RegistryOk(c.reg)
    ensures var o := Observe(c, ps, around, prior);
      o.Passes? ==>
        && o.tool in c.reg && c.reg[o.tool].fitsOutput(o.output)
        && (o.tool == "finish" ==> FinalString(o.output).Some?)
  {
  }

  // ---------------------------------------------------------------------------------------------
  // Money
  // ---------------------------------------------------------------------------------------------

  /** What the first n planner replies cost; a planner error is not charged. */
  ghost function PlannerBill(w: World, n: nat): real {
    if n == 0 then 0.0
    else PlannerBill(w, n - 1) + if w.plan(n - 1).Plans? then w.plan(n - 1).costUsd else 0.0
  }

  /** What the selector's answers cost. */
  ghost function SelectorBill(c: Config, asked: seq<string>): real {
    if asked == [] then 0.0
    else SelectorBill(c, asked[..|asked| - 1]) + SelectorCharge(c, |asked| - 1, asked[|asked| - 1])
  }

  /** Each planner reply and each answer of the selector's provider is paid once; a planner error and a hint
      that names no tool cost nothing. */
  lemma EachReplyIsPaid(c: Config, n: nat, asked: seq<string>, hint: string)
    ensures PlannerBill(c.world, 0) == 0.0 && SelectorBill(c, []) == 0.0
    ensures PlannerBill(c.world, n + 1) - PlannerBill(c.world, n) ==
      if c.world.plan(n).Plans? then c.world.plan(n).costUsd else 0.0
    ensures SelectorBill(c, asked + [hint]) - SelectorBill(c, asked) ==
      if hint in c.reg then c.world.around(|asked|).reply.costUsd else 0.0
  {
    assert (asked + [hint])[..|asked|] == asked;
  }

  ghost predicate MoneyInv(c: Config, s: RunState) {
    s.costUsd == PlannerBill(c.world, s.planned) + SelectorBill(c, s.asked)
  }

  lemma StepKeepsMoney(c: Config, s: RunState)
    requires Placed(s) && !s.loc.Exit? && MoneyInv(c, s)
    ensures MoneyInv(c, Step(c, s))
  {
    StepKind(c, s);
    var s' := Step(c, s);
    if IsAttempt(c, s, s') {
      assert s'.asked[..|s'.asked| - 1] == s.asked;
    }
  }
}
