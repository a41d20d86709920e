/** The plan-select-invoke-validate-replan loop as a step function on everything it owns: the
    counters, the in-memory state and the persisted rows. */
module RunSpec {
  import opened Values
  import opened Tools
  import opened Selector
  import opened Validator
  import opened Attempt
  import opened Records

  datatype Budget = Budget(maxSteps: int, maxReplans: int, maxCostUsd: real)

  datatype PlanReply = PlannerFails | Plans(subtasks: seq<PlannedSubtask>, costUsd: real)

  /** Everything the outside world will answer: whether the wall clock has run out at the k-th top
      of the loop, the planner's k-th reply, and the surroundings of the k-th attempted subtask. */
  datatype World = World(late: nat -> bool, plan: nat -> PlanReply, around: nat -> Surroundings)

  datatype Config = Config(budget: Budget, reg: map<string, Tool>, world: World, render: Dict -> string)

  datatype Ending = Success(text: string) | Abort(reason: AbortReason) | Crash

  datatype Location =
    | Top
    | InPlan(subs: seq<PlannedSubtask>, base: nat, next: nat)
    | Exit(ending: Ending)

  /** What a tool was called with, and what it returned, if it did. */
  datatype Invocation = Invocation(tool: string, args: Dict, result: Option<Dict>)

  /** The loop's own variables, plus a history: how many plans were requested and persisted, the
      tool hints the selector was asked about, and the tool invocations in order. */
  datatype RunState = RunState(
    loc: Location,
    db: Db,
    steps: int,
    replans: int,
    costUsd: real,
    prior: seq<Dict>,
    lastFailure: Option<FailureReason>,
    planned: nat,
    persisted: nat,
    asked: seq<string>,
    invoked: seq<Invocation>)

  function Start(db: Db): RunState {
    RunState(Top, db, 0, 0, 0.0, [], None, 0, 0, [], [])
  }

  // ---------------------------------------------------------------------------------------------
  // The pieces of a step
  // ---------------------------------------------------------------------------------------------

  /** `_succeed` and `_abort`: the goal row receives the verdict and the counters. */
  function ClosedGoal(goal: GoalRow, ending: Ending, steps: int, replans: int, costUsd: real): GoalRow {
    match ending
    case Success(text) => goal.(status := GoalSucceeded, finalResult := Some(text),
                                totalSteps := steps, replanCount := replans, totalCostUsd := costUsd)
    case Abort(reason) => goal.(status := GoalAborted, abortReason := Some(reason),
                                totalSteps := steps, replanCount := replans, totalCostUsd := costUsd)
    case Crash => goal
  }

  function Close(s: RunState, ending: Ending): RunState {
    s.(loc := Exit(ending), db := s.db.(goal := ClosedGoal(s.db.goal, ending, s.steps, s.replans, s.costUsd)))
  }

  function OpenPlan(s: RunState, subs: seq<PlannedSubtask>): RunState {
    var base := |s.db.subtasks|;
    s.(loc := InPlan(subs, base, 0),
       db := s.db.(subtasks := s.db.subtasks + NewRows(subs, base, false)),
       persisted := s.persisted + 1)
  }

  /** The current subtask fails: its row, a replan event, back to the planner. */
  function Replan(s: RunState, r: nat, triggeredBy: Option<nat>, failure: FailureReason): RunState
    requires r < |s.db.subtasks|
  {
    s.(loc := Top,
       db := s.db.(subtasks := SetStatus(s.db.subtasks, r, Failed),
                   replans := s.db.replans + [ReplanRow(s.replans + 1, triggeredBy, failure.kind)]),
       replans := s.replans + 1,
       lastFailure := Some(failure))
  }

  /** The selector found no tool.  Only the kind NoToolForSubtask counts as a replan. */
  function Refuse(b: Budget, s: RunState, r: nat, failure: FailureReason): RunState
    requires r < |s.db.subtasks|
  {
    if failure.kind == NoToolForSubtask then
      var s' := Replan(s, r, None, failure);
      if s'.replans > b.maxReplans then Close(s', Abort(MaxReplansExceededAfter(failure))) else s'
    else
      s.(loc := Top,
         db := s.db.(subtasks := SetStatus(s.db.subtasks, r, Failed)),
         lastFailure := Some(failure))
  }

  /** A tool call's row with its final status and output, and what the tool returned. */
  function LogCall(s: RunState, r: nat, tool: string, args: Dict, output: Option<Dict>, status: CallStatus,
                   result: Option<Dict>): RunState
  {
    s.(db := s.db.(calls := s.db.calls + [CallRow(r, CallsOf(s.db.calls, r), tool, args, output, status)]),
       steps := s.steps + 1,
       invoked := s.invoked + [Invocation(tool, args, result)])
  }

  /** The call just logged is validated. */
  function LogValidation(s: RunState, failure: Option<FailureReason>): RunState
    requires s.db.calls != []
  {
    var kind := if failure.Some? then Some(failure.value.kind) else None;
    s.(db := s.db.(validations := s.db.validations + [ValidationRow(|s.db.calls| - 1, failure.None?, kind)]))
  }

  function Pass(s: RunState, r: nat, output: Dict): RunState
    requires r < |s.db.subtasks| && s.loc.InPlan?
  {
    s.(loc := s.loc.(next := s.loc.next + 1),
       db := s.db.(subtasks := SetStatus(s.db.subtasks, r, Done)),
       prior := s.prior + [output])
  }

  // ---------------------------------------------------------------------------------------------
  // What one attempt of a subtask observes
  // ---------------------------------------------------------------------------------------------

  /** Refused by the selector; called with unfit arguments; the tool failed; its output was
      rejected; or all went well. */
  datatype Observation =
    | NoTool(failure: FailureReason)
    | Unfit(tool: string, args: Dict)
    | ToolFails(tool: string, args: Dict, status: CallStatus, message: string, failure: FailureReason)
    | Rejected(tool: string, args: Dict, output: Dict, failure: FailureReason)
    | Passes(tool: string, args: Dict, output: Dict)

  /** The placeholder argument is replaced by the text of the latest prior output. */
  function WithPriorOutput(render: Dict -> string, args: Dict, prior: seq<Dict>): (args': Dict)
    ensures args'.Keys == args.Keys
    ensures forall k :: k in args && k != "text" ==> args'[k] == args[k]
    ensures "text" !in args || args["text"] != Str("__USE_PRIOR_OUTPUT__") || prior == [] ==> args' == args
    ensures "text" in args && args["text"] == Str("__USE_PRIOR_OUTPUT__") && prior != [] ==>
      var last := prior[|prior| - 1];
      || ("content" in last && Truthy(last["content"]) && args'["text"] == last["content"])
      || (("content" !in last || !Truthy(last["content"])) && "summary" in last && Truthy(last["summary"])
          && args'["text"] == last["summary"])
      || (("content" !in last || !Truthy(last["content"])) && ("summary" !in last || !Truthy(last["summary"]))
          && args'["text"] == Str(render(last)))
  {
    if "text" in args && args["text"] == Str("__USE_PRIOR_OUTPUT__") && prior != [] then
      var last := prior[|prior| - 1];
      var text :=
        if "content" in last && Truthy(last["content"]) then last["content"]
        else if "summary" in last && Truthy(last["summary"]) then last["summary"]
        else Str(render(last));
      args["text" := text]
    else args
  }

  function ObserveCall(tool: Tool, args: Dict, threshold: real, tools: ToolBehaviour): (o: Observation)
    ensures !o.NoTool?
    ensures o.ToolFails? ==> o.status != CallOk
    ensures o.ToolFails? || o.Rejected? ==> o.failure.kind != NoToolForSubtask
    ensures o.tool == tool.name && o.args == args
    ensures o.Passes? ==> tool.fitsOutput(o.output)
  {
    match InvokeWithGuard(tool, args, tools)
    case BadInput => Unfit(tool.name, args)
    case TimedOut(m) => ToolFails(tool.name, args, CallTimeout, m, FailureReason(Timeout, Some(tool.name)))
    case Errored(m) => ToolFails(tool.name, args, CallError, m, FailureReason(ToolReturnedError, Some(tool.name)))
    case Returned(output) =>
      var v := Validate(tool.name, output, tool.fitsOutput, threshold);
      if v.valid then Passes(tool.name, args, output) else Rejected(tool.name, args, output, v.failure.value)
  }

  function Observe(c: Config, ps: PlannedSubtask, around: Surroundings, prior: seq<Dict>): (o: Observation)
    ensures o.NoTool? ==> o.failure.kind == NoToolForSubtask
    ensures o.ToolFails? ==> o.status != CallOk
    ensures o.ToolFails? || o.Rejected? ==> o.failure.kind != NoToolForSubtask
  {
    var sel := ChooseTool(c.reg, ps.toolHint, ps.argsOverride, around.reply);
    if sel.failure.Some? then NoTool(sel.failure.value)
    else
      var args := WithPriorOutput(c.render, sel.toolCall.value.arguments, prior);
      ObserveCall(c.reg[sel.toolCall.value.name], args, ps.confidenceThreshold, around.tools)
  }

  /** What the loop writes down for an observation. */
  function Record(b: Budget, s: RunState, r: nat, o: Observation): RunState
    requires r < |s.db.subtasks| && s.loc.InPlan?
  {
    match o
    case NoTool(failure) => Refuse(b, s, r, failure)
    case Unfit(tool, args) => Close(LogCall(s, r, tool, args, None, CallOk, None), Crash)
    case ToolFails(tool, args, status, m, failure) =>
      Replan(LogCall(s, r, tool, args, Some(map["error" := Str(m)]), status, None), r, Some(|s.db.calls|), failure)
    case Rejected(tool, args, output, failure) =>
      var s' := LogValidation(LogCall(s, r, tool, args, Some(output), CallOk, Some(output)), Some(failure));
      Replan(s', r, Some(|s.db.calls|), failure)
    case Passes(tool, args, output) =>
      RecordPass(s, r, tool, args, output)
  }

  function RecordPass(s: RunState, r: nat, tool: string, args: Dict, output: Dict): RunState
    requires r < |s.db.subtasks| && s.loc.InPlan?
  {
    var s' := Pass(LogValidation(LogCall(s, r, tool, args, Some(output), CallOk, Some(output)), None), r, output);
    if tool != "finish" then s'
    else if FinalString(output).Some? then Close(s', Success(FinalString(output).value))
    else Close(s', Crash)
  }

  // ---------------------------------------------------------------------------------------------
  // One step, and the whole run
  // ---------------------------------------------------------------------------------------------

  function StepTop(c: Config, s: RunState): RunState {
    if c.world.late(s.planned) then Close(s, Abort(WallClockExceeded))
    else if s.replans > c.budget.maxReplans then Close(s, Abort(MaxReplansExceeded(s.replans)))
    else
      match c.world.plan(s.planned)
      case PlannerFails => Close(s.(planned := s.planned + 1), Abort(PlannerError))
      case Plans(subs, costUsd) =>
        var s1 := s.(planned := s.planned + 1, costUsd := s.costUsd + costUsd);
        if subs == [] then Close(s1, Abort(EmptyPlan))
        else if s1.costUsd > c.budget.maxCostUsd then Close(s1, Abort(MaxCostExceeded))
        else OpenPlan(s1, subs)
  }

  /** The selector is asked about a hint; the provider charges exactly when the hint names a
      registered tool. */
  function Ask(c: Config, s: RunState, ps: PlannedSubtask, around: Surroundings): RunState {
    var sel := ChooseTool(c.reg, ps.toolHint, ps.argsOverride, around.reply);
    s.(costUsd := s.costUsd + sel.costUsd, asked := s.asked + [ps.toolHint])
  }

  function StepSubtask(c: Config, s: RunState): RunState
    requires s.loc.InPlan? && s.loc.next < |s.loc.subs| && s.loc.base + s.loc.next < |s.db.subtasks|
  {
    if s.steps >= c.budget.maxSteps then Close(s, Abort(MaxStepsExceeded(s.steps)))
    else if s.costUsd > c.budget.maxCostUsd then Close(s, Abort(MaxCostExceeded))
    else
      var ps := s.loc.subs[s.loc.next];
      var around := c.world.around(|s.asked|);
      Record(c.budget, Ask(c, s, ps, around), s.loc.base + s.loc.next, Observe(c, ps, around, s.prior))
  }

  /** The rows of the plan being walked exist. */
  predicate Placed(s: RunState) {
    s.loc.InPlan? ==> s.loc.next <= |s.loc.subs| && s.loc.base + |s.loc.subs| <= |s.db.subtasks|
  }

  function Step(c: Config, s: RunState): (s': RunState)
    requires Placed(s)
    ensures Placed(s')
  {
    match s.loc
    case Top => StepTop(c, s)
    case InPlan(subs, _, next) => if next < |subs| then StepSubtask(c, s) else Close(s, Abort(PlanExhausted))
    case Exit(_) => s
  }

  // The measure: replans left, then where in the round, then subtasks left in the plan.

  function Slack(c: Config, s: RunState): nat {
    if s.replans > c.budget.maxReplans then 0 else c.budget.maxReplans + 1 - s.replans
  }

  function Rank(c: Config, s: RunState): nat {
    match s.loc
    case Exit(_) => 0
    case InPlan(_, _, _) => 2
    case Top => if s.replans > c.budget.maxReplans then 1 else 3
  }

  function Left(s: RunState): nat {
    if s.loc.InPlan? && s.loc.next <= |s.loc.subs| then |s.loc.subs| - s.loc.next else 0
  }

  ghost predicate Lower(c: Config, s': RunState, s: RunState) {
    || Slack(c, s') < Slack(c, s)
    || (Slack(c, s') == Slack(c, s) && Rank(c, s') < Rank(c, s))
    || (Slack(c, s') == Slack(c, s) && Rank(c, s') == Rank(c, s) && Left(s') < Left(s))
  }

  /** Every step lowers the measure.  This rests on the selector's contract: a refusal of any other
      kind would return to the planner without using up a replan. */
  lemma StepLowersMeasure(c: Config, s: RunState)
    requires Placed(s) && !s.loc.Exit?
    ensures Lower(c, Step(c, s), s)
  {
  }

  /** The whole run from a state: it always reaches an exit. */
  ghost function Run(c: Config, s: RunState): (end: RunState)
    requires Placed(s)
    ensures end.loc.Exit?
    decreases Slack(c, s), Rank(c, s), Left(s)
  {
    if s.loc.Exit? then s
    else
      StepLowersMeasure(c, s);
      Run(c, Step(c, s))
  }

  lemma RecordShape(b: Budget, s: RunState, r: nat, o: Observation)
    requires r < |s.db.subtasks| && s.loc.InPlan?
    requires o.NoTool? ==> o.failure.kind == NoToolForSubtask
    ensures var s' := Record(b, s, r, o);
      && (s'.loc.InPlan? ==>
            s'.loc == s.loc.(next := s.loc.next + 1) && s'.replans == s.replans
            && s'.db.subtasks == SetStatus(s.db.subtasks, r, Done))
      && (s'.loc.Top? ==> s'.replans == s.replans + 1)
      && s'.planned == s.planned
  {
  }

  /** A step inside a plan moves one row on after a pass, or returns to the planner one replan
      later, or exits. */
  lemma StepInPlan(c: Config, s: RunState)
    requires Placed(s) && s.loc.InPlan? && s.loc.next < |s.loc.subs|
    ensures var s' := Step(c, s);
      && (s'.loc.InPlan? ==>
            s'.loc == s.loc.(next := s.loc.next + 1) && s'.replans == s.replans
            && s'.db.subtasks == SetStatus(s.db.subtasks, s.loc.base + s.loc.next, Done))
      && (s'.loc.Top? ==> s'.replans == s.replans + 1)
      && s'.planned == s.planned
  {
    var ps := s.loc.subs[s.loc.next];
    var around := c.world.around(|s.asked|);
    RecordShape(c.budget, Ask(c, s, ps, around), s.loc.base + s.loc.next, Observe(c, ps, around, s.prior));
  }
}
