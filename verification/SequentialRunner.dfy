/** `_run_loop` as the nested loop it is, updating counters and rows in place.  It is proved to end
    exactly where the step function's run ends. */
module SequentialRunner {
  import opened Values
  import opened Tools
  import opened Selector
  import opened Validator
  import opened Attempt
  import opened Records
  import opened RunSpec
  import opened Trace

  datatype RunResult = RunResult(
    status: GoalStatus,
    finalResult: Option<string>,
    abortReason: Option<AbortReason>,
    totalSteps: int,
    replanCount: int,
    totalCostUsd: real,
    trace: TraceTree)

  /** What the caller sees of an end state; a crash is an exception, so there is no result. */
  ghost function ResultOf(end: RunState): Option<RunResult>
    requires end.loc.Exit?
  {
    match end.loc.ending
    case Success(text) =>
      Some(RunResult(GoalSucceeded, Some(text), None, end.steps, end.replans, end.costUsd, TraceOf(end.db)))
    case Abort(reason) =>
      Some(RunResult(GoalAborted, None, Some(reason), end.steps, end.replans, end.costUsd, TraceOf(end.db)))
    case Crash => None
  }

  /** The loop's variables are those of a state of the step function. */
  ghost predicate At(session: Session, s: RunState, steps: int, replans: int, costUsd: real, prior: seq<Dict>)
    reads session
  {
    && session.View() == s.db
    && s.steps == steps
    && s.replans == replans
    && s.costUsd == costUsd
    && s.prior == prior
  }

  /** `_succeed`, `_abort`, or an exception on its way out. */
  method CloseRun(session: Session, ending: Ending, steps: int, replans: int, costUsd: real)
    returns (result: Option<RunResult>)
    modifies session`goal
    ensures session.goal == ClosedGoal(old(session.goal), ending, steps, replans, costUsd)
    ensures ending.Success? ==>
      result == Some(RunResult(GoalSucceeded, Some(ending.text), None, steps, replans, costUsd,
        TraceOf(session.View())))
    ensures ending.Abort? ==>
      result == Some(RunResult(GoalAborted, None, Some(ending.reason), steps, replans, costUsd,
        TraceOf(session.View())))
    ensures ending.Crash? ==> result == None
  {
    match ending
    case Success(text) =>
      session.CloseGoal(session.goal.(status := GoalSucceeded, finalResult := Some(text),
                                      totalSteps := steps, replanCount := replans, totalCostUsd := costUsd));
      var tree := TraceForGoal(Db(session.goal, session.subtasks, session.calls, session.validations, session.replans));
      result := Some(RunResult(GoalSucceeded, Some(text), None, steps, replans, costUsd, tree));
    case Abort(reason) =>
      session.CloseGoal(session.goal.(status := GoalAborted, abortReason := Some(reason),
                                      totalSteps := steps, replanCount := replans, totalCostUsd := costUsd));
      var tree := TraceForGoal(Db(session.goal, session.subtasks, session.calls, session.validations, session.replans));
      result := Some(RunResult(GoalAborted, None, Some(reason), steps, replans, costUsd, tree));
    case Crash =>
      result := None;
  }

  /** One row per planned subtask, numbered from the current row count. */
  method PersistPlan(session: Session, subs: seq<PlannedSubtask>) returns (base: nat)
    modifies session`subtasks
    ensures base == old(|session.subtasks|)
    ensures session.subtasks == old(session.subtasks) + NewRows(subs, base, false)
  {
    base := |session.subtasks|;
    for i := 0 to |subs|
      invariant session.subtasks == old(session.subtasks) + NewRows(subs, base, false)[..i]
    {
      session.AddSubtask(SubtaskRow(base + i, subs[i].description, Pending, subs[i].confidenceThreshold, false, []));
    }
  }

  /** What the inner loop does after a subtask: go on, leave for a replan, or leave for good. */
  datatype Signal = GoOn | LeaveForReplan | Leave(ending: Ending)

  /** The state `Record` reaches, before the goal is closed. */
  ghost predicate Reaches(s': RunState, pre: RunState, signal: Signal) {
    match signal
    case GoOn => s' == pre && pre.loc.InPlan?
    case LeaveForReplan => s' == pre && pre.loc.Top?
    case Leave(ending) => s' == Close(pre, ending)
  }

  /** Select, invoke, validate and record one subtask: the body of the inner loop after its budget
      checks. */
  method WorkSubtask(c: Config, session: Session, ps: PlannedSubtask, r: nat, around: Surroundings,
                     steps: int, replans: int, costUsd: real, prior: seq<Dict>, ghost s: RunState)
    returns (signal: Signal, steps': int, replans': int, costUsd': real, prior': seq<Dict>, ghost pre: RunState)
    requires At(session, s, steps, replans, costUsd, prior) && s.loc.InPlan? && r < |session.subtasks|
    requires session.subtasks[r].status == Pending
    modifies session
    ensures At(session, pre, steps', replans', costUsd', prior')
    ensures Reaches(Record(c.budget, Ask(c, s, ps, around), r, Observe(c, ps, around, prior)), pre, signal)
  {
    steps', replans', prior' := steps, replans, prior;
    var sel := ChooseTool(c.reg, ps.toolHint, ps.argsOverride, around.reply);
    costUsd' := costUsd + sel.costUsd;
    ghost var s1 := Ask(c, s, ps, around);

    if sel.failure.Some? || sel.toolCall.None? {
      var failure := if sel.failure.Some? then sel.failure.value else FailureReason(NoToolForSubtask, None);
      session.MarkSubtask(r, Failed);
      if failure.kind == NoToolForSubtask {
        replans' := replans + 1;
        session.RecordReplan(replans', None, failure);
        pre := Replan(s1, r, None, failure);
        if replans' > c.budget.maxReplans {
          return Leave(Abort(MaxReplansExceededAfter(failure))), steps', replans', costUsd', prior', pre;
        }
      }
      return LeaveForReplan, steps', replans', costUsd', prior', pre;
    }

    var args := WithPriorOutput(c.render, sel.toolCall.value.arguments, prior);
    var tool := c.reg[sel.toolCall.value.name];
    signal, replans', prior', pre := CallTool(c, session, ps, r, around, tool, args, replans, prior, s1);
    steps' := steps + 1;
  }

  /** The session holds a state's rows, up to the status of subtask r. */
  ghost predicate AtUpToStatus(session: Session, s: RunState, r: nat)
    reads session
  {
    && r < |session.subtasks| == |s.db.subtasks|
    && session.subtasks == SetStatus(s.db.subtasks, r, session.subtasks[r].status)
    && session.View() == s.db.(subtasks := session.subtasks)
  }

  /** The current subtask fails and triggers a replan. */
  method FailSubtask(session: Session, r: nat, id: nat, failure: FailureReason, replans: int, ghost s: RunState)
    returns (replans': int, ghost pre: RunState)
    requires AtUpToStatus(session, s, r) && s.replans == replans
    modifies session
    ensures pre == Replan(s, r, Some(id), failure)
    ensures At(session, pre, s.steps, replans', s.costUsd, s.prior)
  {
    session.MarkSubtask(r, Failed);
    replans' := replans + 1;
    session.RecordReplan(replans', Some(id), failure);
    pre := Replan(s, r, Some(id), failure);
  }

  /** Validate the output of the call just made and settle the subtask. */
  method JudgeOutput(session: Session, ps: PlannedSubtask, r: nat, id: nat, tool: Tool, output: Dict,
                     replans: int, prior: seq<Dict>, ghost s: RunState)
    returns (signal: Signal, replans': int, prior': seq<Dict>, ghost pre: RunState)
    requires AtUpToStatus(session, s, r) && s.replans == replans && s.prior == prior
    requires s.loc.InPlan? && |s.db.calls| == id + 1
    modifies session
    ensures At(session, pre, s.steps, replans', s.costUsd, prior')
    ensures var v := Validate(tool.name, output, tool.fitsOutput, ps.confidenceThreshold);
      if v.valid then
        && pre == Pass(LogValidation(s, None), r, output)
        && signal == if tool.name != "finish" then GoOn
                     else Leave(if FinalString(output).Some? then Success(FinalString(output).value) else Crash)
      else
        && pre == Replan(LogValidation(s, v.failure), r, Some(id), v.failure.value)
        && signal == LeaveForReplan
  {
    var outcome := Validate(tool.name, output, tool.fitsOutput, ps.confidenceThreshold);
    session.AddValidation(ValidationRow(id, outcome.valid,
      if outcome.failure.Some? then Some(outcome.failure.value.kind) else None));
    ghost var validated := LogValidation(s, outcome.failure);
    if !outcome.valid {
      replans', pre := FailSubtask(session, r, id, outcome.failure.value, replans, validated);
      prior' := prior;
      signal := LeaveForReplan;
    } else {
      session.MarkSubtask(r, Done);
      replans', prior' := replans, prior + [output];
      pre := Pass(validated, r, output);
      if tool.name == "finish" {
        signal := Leave(if FinalString(output).Some? then Success(FinalString(output).value) else Crash);
      } else {
        signal := GoOn;
      }
    }
  }

  /** The call row is written and the subtask marked RUNNING; the call itself is under way. */
  ghost predicate Calling(session: Session, s: RunState, r: nat, id: nat, tool: string, args: Dict)
    reads session
  {
    && r < |s.db.subtasks| && id == |s.db.calls|
    && session.View() == s.db.(
         subtasks := SetStatus(s.db.subtasks, r, Running),
         calls := s.db.calls + [CallRow(r, CallsOf(s.db.calls, r), tool, args, None, CallOk)])
  }

  /** The exception escapes; closing the session discards the status that was not committed. */
  method EscapeCall(session: Session, r: nat, id: nat, tool: string, args: Dict, ghost s: RunState)
    returns (ghost pre: RunState)
    requires Calling(session, s, r, id, tool, args) && s.db.subtasks[r].status == Pending
    modifies session
    ensures pre == LogCall(s, r, tool, args, None, CallOk, None)
    ensures At(session, pre, s.steps + 1, s.replans, s.costUsd, s.prior)
  {
    session.MarkSubtask(r, Pending);
    pre := LogCall(s, r, tool, args, None, CallOk, None);
    assert session.subtasks == s.db.subtasks;
  }

  /** The call failed: its row gets the error, and the subtask fails. */
  method FailCall(session: Session, r: nat, id: nat, tool: string, args: Dict, status: CallStatus, message: string,
                  kind: FailureKind, replans: int, ghost s: RunState)
    returns (replans': int, ghost pre: RunState)
    requires Calling(session, s, r, id, tool, args) && s.replans == replans
    modifies session
    ensures pre == Replan(LogCall(s, r, tool, args, Some(map["error" := Str(message)]), status, None), r, Some(id),
                          FailureReason(kind, Some(tool)))
    ensures At(session, pre, s.steps + 1, replans', s.costUsd, s.prior)
  {
    session.SettleCall(id, status, map["error" := Str(message)]);
    pre := LogCall(s, r, tool, args, Some(map["error" := Str(message)]), status, None);
    replans', pre := FailSubtask(session, r, id, FailureReason(kind, Some(tool)), replans, pre);
  }

  /** The call returned: its row gets the output. */
  method SettleCall(session: Session, r: nat, id: nat, tool: string, args: Dict, output: Dict, ghost s: RunState)
    returns (ghost pre: RunState)
    requires Calling(session, s, r, id, tool, args)
    modifies session
    ensures pre == LogCall(s, r, tool, args, Some(output), CallOk, Some(output)) && AtUpToStatus(session, pre, r)
  {
    session.SettleCall(id, CallOk, output);
    pre := LogCall(s, r, tool, args, Some(output), CallOk, Some(output));
  }

  /** What is recorded for each way a call can end. */
  lemma RecordOfCall(b: Budget, s: RunState, r: nat, tool: Tool, args: Dict, threshold: real, tools: ToolBehaviour)
    requires r < |s.db.subtasks| && s.loc.InPlan?
    ensures var s' := Record(b, s, r, ObserveCall(tool, args, threshold, tools));
      var id := |s.db.calls|;
      match InvokeWithGuard(tool, args, tools)
      case BadInput => s' == Close(LogCall(s, r, tool.name, args, None, CallOk, None), Crash)
      case TimedOut(m) =>
        s' == Replan(LogCall(s, r, tool.name, args, Some(map["error" := Str(m)]), CallTimeout, None), r, Some(id),
                     FailureReason(Timeout, Some(tool.name)))
      case Errored(m) =>
        s' == Replan(LogCall(s, r, tool.name, args, Some(map["error" := Str(m)]), CallError, None), r, Some(id),
                     FailureReason(ToolReturnedError, Some(tool.name)))
      case Returned(output) =>
        var logged := LogCall(s, r, tool.name, args, Some(output), CallOk, Some(output));
        var v := Validate(tool.name, output, tool.fitsOutput, threshold);
        if !v.valid then s' == Replan(LogValidation(logged, v.failure), r, Some(id), v.failure.value)
        else
          var passed := Pass(LogValidation(logged, None), r, output);
          s' == if tool.name != "finish" then passed
                else Close(passed, if FinalString(output).Some? then Success(FinalString(output).value) else Crash)
  {
  }

  /** The tool call of a subtask, from the call row to the subtask's final status. */
  method CallTool(c: Config, session: Session, ps: PlannedSubtask, r: nat, around: Surroundings, tool: Tool, args: Dict,
                  replans: int, prior: seq<Dict>, ghost s: RunState)
    returns (signal: Signal, replans': int, prior': seq<Dict>, ghost pre: RunState)
    requires At(session, s, s.steps, replans, s.costUsd, prior) && s.loc.InPlan? && r < |session.subtasks|
    requires session.subtasks[r].status == Pending
    modifies session
    ensures At(session, pre, s.steps + 1, replans', s.costUsd, prior')
    ensures Reaches(Record(c.budget, s, r, ObserveCall(tool, args, ps.confidenceThreshold, around.tools)), pre, signal)
  {
    replans', prior' := replans, prior;
    var id := session.AddCall(r, tool.name, args);
    session.MarkSubtask(r, Running);
    RecordOfCall(c.budget, s, r, tool, args, ps.confidenceThreshold, around.tools);

    match InvokeWithGuard(tool, args, around.tools)
    case BadInput =>
      pre := EscapeCall(session, r, id, tool.name, args, s);
      signal := Leave(Crash);
    case TimedOut(m) =>
      replans', pre := FailCall(session, r, id, tool.name, args, CallTimeout, m, Timeout, replans, s);
      signal := LeaveForReplan;
    case Errored(m) =>
      replans', pre := FailCall(session, r, id, tool.name, args, CallError, m, ToolReturnedError, replans, s);
      signal := LeaveForReplan;
    case Returned(output) =>
      pre := SettleCall(session, r, id, tool.name, args, output, s);
      signal, replans', prior', pre := JudgeOutput(session, ps, r, id, tool, output, replans, prior, pre);
  }

  /** The rows still to be walked are untouched. */
  ghost predicate PendingFrom(session: Session, lo: nat, hi: nat)
    reads session
  {
    hi <= |session.subtasks| && forall j :: lo <= j < hi ==> session.subtasks[j].status == Pending
  }

  /** One iteration of the inner loop: the budget checks, then the subtask. */
  method WalkOne(c: Config, session: Session, subs: seq<PlannedSubtask>, base: nat, i: nat,
                 steps: int, replans: int, costUsd: real, prior: seq<Dict>, asked: nat, ghost s: RunState)
    returns (signal: Signal, steps': int, replans': int, costUsd': real, prior': seq<Dict>, asked': nat,
      ghost pre: RunState)
    requires At(session, s, steps, replans, costUsd, prior) && asked == |s.asked| && Placed(s)
    requires i < |subs| && s.loc == InPlan(subs, base, i)
    requires session.subtasks[base + i].status == Pending
    modifies session
    ensures At(session, pre, steps', replans', costUsd', prior')
    ensures Reaches(Step(c, s), pre, signal)
    ensures !signal.Leave? ==> asked' == |pre.asked|
  {
    steps', replans', costUsd', prior', asked' := steps, replans, costUsd, prior, asked;
    if steps >= c.budget.maxSteps {
      return Leave(Abort(MaxStepsExceeded(steps))), steps', replans', costUsd', prior', asked', s;
    }
    if costUsd > c.budget.maxCostUsd {
      return Leave(Abort(MaxCostExceeded)), steps', replans', costUsd', prior', asked', s;
    }
    var around := c.world.around(asked);
    RecordKeepsHistory(c.budget, Ask(c, s, subs[i], around), base + i, Observe(c, subs[i], around, s.prior));
    signal, steps', replans', costUsd', prior', pre :=
      WorkSubtask(c, session, subs[i], base + i, around, steps, replans, costUsd, prior, s);
    asked' := asked + 1;
  }

  lemma RecordKeepsHistory(b: Budget, s: RunState, r: nat, o: Observation)
    requires r < |s.db.subtasks| && s.loc.InPlan?
    ensures Record(b, s, r, o).asked == s.asked
  {
  }

  /** The inner loop: walk a persisted plan until a budget trips, a subtask ends it, or it is
      exhausted. */
  method WalkPlan(c: Config, session: Session, subs: seq<PlannedSubtask>, base: nat,
                  steps: int, replans: int, costUsd: real, prior: seq<Dict>, asked: nat, ghost s0: RunState)
    returns (signal: Signal, steps': int, replans': int, costUsd': real, prior': seq<Dict>, asked': nat,
      ghost s: RunState)
    requires At(session, s0, steps, replans, costUsd, prior) && asked == |s0.asked|
    requires s0.loc == InPlan(subs, base, 0) && Placed(s0) && PendingFrom(session, base, base + |subs|)
    modifies session
    ensures At(session, s, steps', replans', costUsd', prior')
    ensures !signal.GoOn?
    ensures signal.LeaveForReplan? ==>
      && s.loc.Top? && s.replans == s0.replans + 1 && s.planned == s0.planned && |s.asked| == asked'
      && Run(c, s) == Run(c, s0)
    ensures signal.Leave? ==> Close(s, signal.ending) == Run(c, s0)
  {
    steps', replans', costUsd', prior', asked' := steps, replans, costUsd, prior, asked;
    s := s0;
    for i := 0 to |subs|
      invariant At(session, s, steps', replans', costUsd', prior') && asked' == |s.asked|
      invariant s.loc == InPlan(subs, base, i) && Placed(s) && PendingFrom(session, base + i, base + |subs|)
      invariant s.replans == s0.replans && s.planned == s0.planned
      invariant Run(c, s) == Run(c, s0)
    {
      StepInPlan(c, s);
      signal, steps', replans', costUsd', prior', asked', s :=
        WalkOne(c, session, subs, base, i, steps', replans', costUsd', prior', asked', s);
      if !signal.GoOn? {
        return;
      }
    }
    signal := Leave(Abort(PlanExhausted));
  }

  /** `_run_loop`.  From any session it ends in the state the step function's run ends in: same
      rows, same goal row, same result. */
  method RunLoop(c: Config, session: Session) returns (result: Option<RunResult>, ghost end: RunState)
    modifies session
    ensures end == Run(c, Start(old(session.View())))
    ensures session.View() == end.db && result == ResultOf(end)
  {
    var steps, replans, costUsd := 0, 0, 0.0;
    var prior: seq<Dict> := [];
    var planned, asked := 0, 0;
    ghost var s := Start(session.View());
    while true
      invariant s.loc.Top? && At(session, s, steps, replans, costUsd, prior)
      invariant planned == s.planned && asked == |s.asked|
      invariant Run(c, s) == Run(c, Start(old(session.View())))
      decreases Slack(c, s)
    {
      if c.world.late(planned) {
        result := CloseRun(session, Abort(WallClockExceeded), steps, replans, costUsd);
        return result, Step(c, s);
      }
      if replans > c.budget.maxReplans {
        result := CloseRun(session, Abort(MaxReplansExceeded(replans)), steps, replans, costUsd);
        return result, Step(c, s);
      }
      var reply := c.world.plan(planned);
      planned := planned + 1;
      if reply.PlannerFails? {
        result := CloseRun(session, Abort(PlannerError), steps, replans, costUsd);
        return result, Step(c, s);
      }
      costUsd := costUsd + reply.costUsd;
      var subs := reply.subtasks;
      if subs == [] {
        result := CloseRun(session, Abort(EmptyPlan), steps, replans, costUsd);
        return result, Step(c, s);
      }
      if costUsd > c.budget.maxCostUsd {
        result := CloseRun(session, Abort(MaxCostExceeded), steps, replans, costUsd);
        return result, Step(c, s);
      }
      var base := PersistPlan(session, subs);
      s := Step(c, s);
      var signal;
      signal, steps, replans, costUsd, prior, asked, s :=
        WalkPlan(c, session, subs, base, steps, replans, costUsd, prior, asked, s);
      if signal.Leave? {
        result := CloseRun(session, signal.ending, steps, replans, costUsd);
        return result, Close(s, signal.ending);
      }
    }
  }
}
