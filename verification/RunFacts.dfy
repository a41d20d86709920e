/** The three kinds of step of the sequential loop, seen as changes to its fields. */
module RunFacts {
  import opened Values
  import opened Attempt
  import opened Records
  import opened RunSpec

  // What each field becomes when subtask r was observed to go as `o` says.

  predicate Fails(o: Observation) {
    o.NoTool? || o.ToolFails? || o.Rejected?
  }

  function RowsAfter(rows: seq<SubtaskRow>, r: nat, o: Observation): seq<SubtaskRow>
    requires r < |rows|
  {
    if Fails(o) then SetStatus(rows, r, Failed) else if o.Passes? then SetStatus(rows, r, Done) else rows
  }

  /** The row of the call an attempt made. */
  function CallAfter(calls: seq<CallRow>, r: nat, o: Observation): CallRow
    requires !o.NoTool?
  {
    match o
    case Unfit(tool, args) => CallRow(r, CallsOf(calls, r), tool, args, None, CallOk)
    case ToolFails(tool, args, status, m, _) =>
      CallRow(r, CallsOf(calls, r), tool, args, Some(map["error" := Str(m)]), status)
    case Rejected(tool, args, output, _) => CallRow(r, CallsOf(calls, r), tool, args, Some(output), CallOk)
    case Passes(tool, args, output) => CallRow(r, CallsOf(calls, r), tool, args, Some(output), CallOk)
  }

  function CallsAfter(calls: seq<CallRow>, r: nat, o: Observation): seq<CallRow> {
    if o.NoTool? then calls else calls + [CallAfter(calls, r, o)]
  }

  function ValidationsAfter(validations: seq<ValidationRow>, call: nat, o: Observation): seq<ValidationRow> {
    if o.Rejected? then validations + [ValidationRow(call, false, Some(o.failure.kind))]
    else if o.Passes? then validations + [ValidationRow(call, true, None)]
    else validations
  }

  function ReplansAfter(replans: seq<ReplanRow>, n: int, call: nat, o: Observation): seq<ReplanRow> {
    if o.NoTool? then replans + [ReplanRow(n + 1, None, o.failure.kind)]
    else if o.ToolFails? || o.Rejected? then replans + [ReplanRow(n + 1, Some(call), o.failure.kind)]
    else replans
  }

  function InvokedAfter(invoked: seq<Invocation>, o: Observation): seq<Invocation> {
    if o.NoTool? then invoked
    else invoked + [Invocation(o.tool, o.args, if o.Rejected? || o.Passes? then Some(o.output) else None)]
  }

  function PriorAfter(prior: seq<Dict>, o: Observation): seq<Dict> {
    if o.Passes? then prior + [o.output] else prior
  }

  /** Where the loop is after the observation. */
  function LocAfter(b: Budget, replans: int, loc: Location, o: Observation): Location
    requires loc.InPlan?
  {
    match o
    case NoTool(f) => if replans + 1 > b.maxReplans then Exit(Abort(MaxReplansExceededAfter(f))) else Top
    case Unfit(_, _) => Exit(Crash)
    case ToolFails(_, _, _, _, _) => Top
    case Rejected(_, _, _, _) => Top
    case Passes(tool, _, output) =>
      if tool != "finish" then loc.(next := loc.next + 1)
      else if FinalString(output).Some? then Exit(Success(FinalString(output).value))
      else Exit(Crash)
  }

  /** The loop is about to attempt the subtask of row r. */
  ghost predicate Walking(s: RunState, r: nat) {
    && s.loc.InPlan?
    && s.loc.next < |s.loc.subs|
    && r == s.loc.base + s.loc.next
    && r < |s.db.subtasks|
  }

  /** The rows, counters and history after the attempt of row r. */
  ghost predicate RowsWritten(s: RunState, s': RunState, r: nat, o: Observation)
    requires r < |s.db.subtasks|
  {
    && s'.db.subtasks == RowsAfter(s.db.subtasks, r, o)
    && s'.db.calls == CallsAfter(s.db.calls, r, o)
    && s'.db.validations == ValidationsAfter(s.db.validations, |s.db.calls|, o)
    && s'.db.replans == ReplansAfter(s.db.replans, s.replans, |s.db.calls|, o)
    && s'.prior == PriorAfter(s.prior, o)
    && s'.invoked == InvokedAfter(s.invoked, o)
    && s'.steps == (if o.NoTool? then s.steps else s.steps + 1)
    && s'.replans == (if Fails(o) then s.replans + 1 else s.replans)
  }

  lemma RecordWritesRows(b: Budget, s: RunState, r: nat, o: Observation)
    requires r < |s.db.subtasks| && s.loc.InPlan?
    requires o.NoTool? ==> o.failure.kind == NoToolForSubtask
    ensures RowsWritten(s, Record(b, s, r, o), r, o)
  {
  }

  lemma RecordMoves(b: Budget, s: RunState, r: nat, o: Observation)
    requires r < |s.db.subtasks| && s.loc.InPlan?
    requires o.NoTool? ==> o.failure.kind == NoToolForSubtask
    ensures var s' := Record(b, s, r, o);
      && s'.loc == LocAfter(b, s.replans, s.loc, o)
      && s'.planned == s.planned && s'.persisted == s.persisted && s'.asked == s.asked && s'.costUsd == s.costUsd
  {
  }

  /** What the loop observes at row r. */
  ghost function Seen(c: Config, s: RunState): Observation
    requires s.loc.InPlan? && s.loc.next < |s.loc.subs|
  {
    Observe(c, s.loc.subs[s.loc.next], c.world.around(|s.asked|), s.prior)
  }

  /** The charge for the selector's answer at row r: the provider's price exactly when the hint
      names a registered tool. */
  ghost function SelectorCharge(c: Config, k: nat, hint: string): real {
    if hint in c.reg then c.world.around(k).reply.costUsd else 0.0
  }

  /** Some check or reply ends the run; nothing but the goal row is written. */
  ghost predicate IsClose(s: RunState, s': RunState) {
    && s'.loc.Exit? && s'.loc.ending.Abort?
    && s'.db == s.db.(goal := s'.db.goal)
    && s'.steps == s.steps && s'.replans == s.replans && s'.prior == s.prior
    && s'.asked == s.asked && s'.invoked == s.invoked && s'.persisted == s.persisted
    && s.planned <= s'.planned <= s.planned + 1
    && (s.loc.InPlan? ==> s'.planned == s.planned && s'.costUsd == s.costUsd)
  }

  /** A plan arrives and is persisted. */
  ghost predicate IsOpen(c: Config, s: RunState, s': RunState) {
    var reply := c.world.plan(s.planned);
    && s.loc.Top? && reply.Plans? && reply.subtasks != []
    && s'.loc == InPlan(reply.subtasks, |s.db.subtasks|, 0)
    && s'.db == s.db.(subtasks := s.db.subtasks + NewRows(reply.subtasks, |s.db.subtasks|, false))
    && s'.steps == s.steps && s'.replans == s.replans && s'.prior == s.prior
    && s'.asked == s.asked && s'.invoked == s.invoked && s'.persisted == s.persisted + 1
    && s'.planned == s.planned + 1 && s'.costUsd == s.costUsd + reply.costUsd
    && s.replans <= c.budget.maxReplans && s'.costUsd <= c.budget.maxCostUsd
  }

  /** The subtask of the next row is attempted, and goes as `o` says. */
  ghost predicate IsAttemptSeeing(c: Config, s: RunState, s': RunState, o: Observation)
    requires s.loc.InPlan?
  {
    && Walking(s, s.loc.base + s.loc.next)
    && RowsWritten(s, s', s.loc.base + s.loc.next, o)
    && s'.loc == LocAfter(c.budget, s.replans, s.loc, o)
    && s'.planned == s.planned && s'.persisted == s.persisted
    && s'.asked == s.asked + [s.loc.subs[s.loc.next].toolHint]
    && s'.costUsd == s.costUsd + SelectorCharge(c, |s.asked|, s.loc.subs[s.loc.next].toolHint)
    && s.steps < c.budget.maxSteps && s.costUsd <= c.budget.maxCostUsd
  }

  ghost predicate IsAttempt(c: Config, s: RunState, s': RunState) {
    && s.loc.InPlan? && s.loc.next < |s.loc.subs|
    && IsAttemptSeeing(c, s, s', Seen(c, s))
  }

  /** Asking the selector changes the bill and the history of questions, nothing else. */
  lemma AskOnlyAsks(c: Config, s: RunState, ps: PlannedSubtask, around: Surroundings)
    ensures Ask(c, s, ps, around) ==
      s.(costUsd := s.costUsd + if ps.toolHint in c.reg then around.reply.costUsd else 0.0,
         asked := s.asked + [ps.toolHint])
  {
  }

  lemma StepRecords(c: Config, s: RunState)
    requires Placed(s) && s.loc.InPlan? && s.loc.next < |s.loc.subs|
    requires s.steps < c.budget.maxSteps && s.costUsd <= c.budget.maxCostUsd
    ensures Step(c, s) == Record(c.budget, Ask(c, s, s.loc.subs[s.loc.next], c.world.around(|s.asked|)),
                                 s.loc.base + s.loc.next, Seen(c, s))
    ensures Seen(c, s).NoTool? ==> Seen(c, s).failure.kind == NoToolForSubtask
  {
  }

  lemma AttemptFits(c: Config, s: RunState, asking: RunState, s': RunState, o: Observation)
    requires s.loc.InPlan? && Walking(s, s.loc.base + s.loc.next)
    requires s.steps < c.budget.maxSteps && s.costUsd <= c.budget.maxCostUsd
    requires var hint := s.loc.subs[s.loc.next].toolHint;
      asking == s.(costUsd := s.costUsd + SelectorCharge(c, |s.asked|, hint), asked := s.asked + [hint])
    requires RowsWritten(asking, s', s.loc.base + s.loc.next, o)
    requires s'.loc == LocAfter(c.budget, asking.replans, asking.loc, o)
    requires s'.planned == asking.planned && s'.persisted == asking.persisted
    requires s'.asked == asking.asked && s'.costUsd == asking.costUsd
    ensures IsAttemptSeeing(c, s, s', o)
  {
  }

  lemma RecordFits(c: Config, s: RunState, asking: RunState, s': RunState, o: Observation)
    requires s.loc.InPlan? && Walking(s, s.loc.base + s.loc.next)
    requires s.steps < c.budget.maxSteps && s.costUsd <= c.budget.maxCostUsd
    requires var hint := s.loc.subs[s.loc.next].toolHint;
      asking == s.(costUsd := s.costUsd + SelectorCharge(c, |s.asked|, hint), asked := s.asked + [hint])
    requires s' == Record(c.budget, asking, s.loc.base + s.loc.next, o)
    requires o.NoTool? ==> o.failure.kind == NoToolForSubtask
    ensures IsAttemptSeeing(c, s, s', o)
  {
    var r := s.loc.base + s.loc.next;
    RecordWritesRows(c.budget, asking, r, o);
    RecordMoves(c.budget, asking, r, o);
    AttemptFits(c, s, asking, s', o);
  }

  lemma AttemptIsAttempt(c: Config, s: RunState)
    requires Placed(s) && s.loc.InPlan? && s.loc.next < |s.loc.subs|
    requires s.steps < c.budget.maxSteps && s.costUsd <= c.budget.maxCostUsd
    ensures IsAttempt(c, s, Step(c, s))
  {
    var ps := s.loc.subs[s.loc.next];
    AskOnlyAsks(c, s, ps, c.world.around(|s.asked|));
    StepRecords(c, s);
    RecordFits(c, s, Ask(c, s, ps, c.world.around(|s.asked|)), Step(c, s), Seen(c, s));
  }

  /** Every step is of one of the three kinds. */
  lemma {:induction false} StepKind(c: Config, s: RunState)
    requires Placed(s) && !s.loc.Exit?
    ensures var s' := Step(c, s); IsClose(s, s') || IsOpen(c, s, s') || IsAttempt(c, s, s')
  {
    if s.loc.InPlan? && s.loc.next < |s.loc.subs| && s.steps < c.budget.maxSteps && s.costUsd <= c.budget.maxCostUsd {
      AttemptIsAttempt(c, s);
    }
  }
}
