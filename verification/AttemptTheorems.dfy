/** What one attempt of a subtask by the sequential loop writes, in terms of what the world answers. */
module AttemptTheorems {
  import opened Values
  import opened Tools
  import opened Selector
  import opened Validator
  import opened Records
  import opened RunSpec
  import opened RunFacts

  /** A subtask is due: the budgets allow it. */
  ghost predicate Due(c: Config, s: RunState) {
    && Placed(s) && s.loc.InPlan? && s.loc.next < |s.loc.subs|
    && s.steps < c.budget.maxSteps && s.costUsd <= c.budget.maxCostUsd
  }

  /** The tool call the selector decides on. */
  ghost function Chosen(c: Config, s: RunState): Option<ToolRequest>
    requires Due(c, s)
  {
    var ps := s.loc.subs[s.loc.next];
    ChooseTool(c.reg, ps.toolHint, ps.argsOverride, c.world.around(|s.asked|).reply).toolCall
  }

  /** The arguments it receives: the selector's, with the placeholder replaced. */
  ghost function Given(c: Config, s: RunState): Dict
    requires Due(c, s) && Chosen(c, s).Some?
  {
    WithPriorOutput(c.render, Chosen(c, s).value.arguments, s.prior)
  }

  ghost function Called(c: Config, s: RunState): Tool
    requires Due(c, s) && Chosen(c, s).Some?
  {
    c.reg[Chosen(c, s).value.name]
  }

  /** What the tool does with them. */
  ghost function Happens(c: Config, s: RunState): ToolRun
    requires Due(c, s) && Chosen(c, s).Some?
  {
    c.world.around(|s.asked|).tools(Chosen(c, s).value.name, Given(c, s))
  }

  /** It returns a payload in time. */
  ghost predicate Returns(c: Config, s: RunState)
    requires Due(c, s) && Chosen(c, s).Some?
  {
    Called(c, s).fitsInput(Given(c, s)) && Happens(c, s).Output? && Happens(c, s).latencyMs <= Called(c, s).maxRuntimeMs
  }

  /** Its payload is accepted. */
  ghost predicate Accepted(c: Config, s: RunState)
    requires Due(c, s) && Chosen(c, s).Some?
  {
    && Returns(c, s) && Called(c, s).fitsOutput(Happens(c, s).payload)
    && !LowConfidence(Happens(c, s).payload, s.loc.subs[s.loc.next].confidenceThreshold)
  }

  /** Why the subtask fails, when its call was made and its arguments fit. */
  ghost function Why(c: Config, s: RunState): FailureKind
    requires Due(c, s) && Chosen(c, s).Some?
  {
    if Returns(c, s) then
      if Called(c, s).fitsOutput(Happens(c, s).payload) then ConfidenceTooLow else OutputSchemaMismatch
    else if Happens(c, s).Output? || Happens(c, s).RaisesTimeoutError? then Timeout
    else ToolReturnedError
  }

  /** Why the selector chose nothing. */
  ghost function Refusal(c: Config, s: RunState): FailureReason
    requires Due(c, s) && Chosen(c, s).None?
  {
    var ps := s.loc.subs[s.loc.next];
    ChooseTool(c.reg, ps.toolHint, ps.argsOverride, c.world.around(|s.asked|).reply).failure.value
  }

  lemma ObservedIs(c: Config, s: RunState)
    requires RegistryOk(c.reg) && Due(c, s)
    ensures var o := Seen(c, s);
      if Chosen(c, s).None? then o == NoTool(Refusal(c, s)) && o.failure.kind == NoToolForSubtask
      else
        && !o.NoTool? && o.tool == Chosen(c, s).value.name && o.args == Given(c, s)
        && (o.Unfit? <==> !Called(c, s).fitsInput(Given(c, s)))
        && (o.Passes? <==> Accepted(c, s))
        && (o.Rejected? <==> Returns(c, s) && !Accepted(c, s))
        && (o.Passes? || o.Rejected? ==> o.output == Happens(c, s).payload)
        && (Fails(o) ==> o.failure == FailureReason(Why(c, s), Some(o.tool)))
        && (o.ToolFails? ==> o.status == if Why(c, s) == Timeout then CallTimeout else CallError)
        && (o.ToolFails? && Why(c, s) == ToolReturnedError ==> o.message == Happens(c, s).message)
  {
  }

  lemma DueIsAttempt(c: Config, s: RunState)
    requires RegistryOk(c.reg) && Due(c, s)
    ensures s.loc.base + s.loc.next < |s.db.subtasks|
    ensures RowsWritten(s, Step(c, s), s.loc.base + s.loc.next, Seen(c, s))
    ensures Step(c, s).loc == LocAfter(c.budget, s.replans, s.loc, Seen(c, s))
  {
    AttemptIsAttempt(c, s);
  }

  /** The row of the call: the chosen tool with the arguments it was given; status and output say what the
      tool did.  Without a chosen tool there is none. */
  lemma {:induction false} CallRowIs(c: Config, s: RunState)
    requires RegistryOk(c.reg) && Due(c, s)
    ensures Chosen(c, s).None? ==> Step(c, s).db.calls == s.db.calls && Step(c, s).steps == s.steps
    ensures Chosen(c, s).Some? ==>
      var calls := Step(c, s).db.calls;
      var run := Happens(c, s);
      && |calls| == |s.db.calls| + 1 && calls[..|s.db.calls|] == s.db.calls && Step(c, s).steps == s.steps + 1
      && var tc := calls[|s.db.calls|];
         && tc.subtask == s.loc.base + s.loc.next
         && tc.toolName == Chosen(c, s).value.name && tc.args == Given(c, s)
         && (Returns(c, s) ==> tc.status == CallOk && tc.output == Some(run.payload))
         && (!Called(c, s).fitsInput(tc.args) ==> tc.status == CallOk && tc.output.None?)
         && (Called(c, s).fitsInput(tc.args) && !Returns(c, s) ==>
               && tc.output.Some? && tc.output.value.Keys == {"error"}
               && if run.Output? || run.RaisesTimeoutError? then tc.status == CallTimeout
                  else tc.status == CallError && tc.output == Some(map["error" := Str(run.message)]))
  {
    ObservedIs(c, s);
    DueIsAttempt(c, s);
  }

  /** The subtask ends DONE exactly when its payload is accepted, stays PENDING exactly when the arguments
      do not fit, and is FAILED otherwise; no other row changes. */
  lemma {:induction false} SubtaskRowIs(c: Config, s: RunState)
    requires RegistryOk(c.reg) && Due(c, s)
    ensures s.loc.base + s.loc.next < |s.db.subtasks|
    ensures var r := s.loc.base + s.loc.next;
      Step(c, s).db.subtasks == s.db.subtasks[r := s.db.subtasks[r].(status :=
        if Chosen(c, s).None? then Failed
        else if !Called(c, s).fitsInput(Given(c, s)) then s.db.subtasks[r].status
        else if Accepted(c, s) then Done
        else Failed)]
    ensures Step(c, s).prior ==
      if Chosen(c, s).Some? && Accepted(c, s) then s.prior + [Happens(c, s).payload] else s.prior
  {
    ObservedIs(c, s);
    DueIsAttempt(c, s);
    var r := s.loc.base + s.loc.next;
    assert s.db.subtasks[r := s.db.subtasks[r]] == s.db.subtasks;
  }

  /** A payload that returned gets a validation row, with the reason when it is rejected; a subtask that
      fails gets the next replan event, for the same reason, naming its call unless no tool was chosen. */
  lemma {:induction false} ReasonsAre(c: Config, s: RunState)
    requires RegistryOk(c.reg) && Due(c, s)
    ensures var s' := Step(c, s);
      if Chosen(c, s).None? then
        && s'.db.validations == s.db.validations && s'.replans == s.replans + 1
        && s'.db.replans == s.db.replans + [ReplanRow(s.replans + 1, None, NoToolForSubtask)]
      else
        && s'.db.validations == s.db.validations +
             (if !Returns(c, s) then []
              else if Accepted(c, s) then [ValidationRow(|s.db.calls|, true, None)]
              else [ValidationRow(|s.db.calls|, false, Some(Why(c, s)))])
        && if Accepted(c, s) || !Called(c, s).fitsInput(Given(c, s)) then
             s'.replans == s.replans && s'.db.replans == s.db.replans
           else
             && s'.replans == s.replans + 1
             && s'.db.replans == s.db.replans + [ReplanRow(s.replans + 1, Some(|s.db.calls|), Why(c, s))]
  {
    ObservedIs(c, s);
    DueIsAttempt(c, s);
  }

  /** The placeholder argument receives the latest prior output: its content, else its summary, else its
      rendering; every other argument is the selector's. */
  lemma {:induction false} PlaceholderIsReplaced(c: Config, s: RunState)
    requires RegistryOk(c.reg) && Due(c, s) && Chosen(c, s).Some? && s.prior != []
    requires var args := Chosen(c, s).value.arguments;
      "text" in args && args["text"] == Str("__USE_PRIOR_OUTPUT__")
    ensures |Step(c, s).db.calls| == |s.db.calls| + 1
    ensures var args := Step(c, s).db.calls[|s.db.calls|].args;
      var last := s.prior[|s.prior| - 1];
      && args.Keys == Chosen(c, s).value.arguments.Keys
      && (forall k :: k in args && k != "text" ==> args[k] == Chosen(c, s).value.arguments[k])
      && "text" in args
      && args["text"] ==
           if "content" in last && Truthy(last["content"]) then last["content"]
           else if "summary" in last && Truthy(last["summary"]) then last["summary"]
           else Str(c.render(last))
  {
    CallRowIs(c, s);
  }

  lemma FailureIsKept(c: Config, s: RunState)
    requires Due(c, s)
    ensures Step(c, s).lastFailure == if Fails(Seen(c, s)) then Some(Seen(c, s).failure) else s.lastFailure
  {
  }

  /** The failure kept for the planner: the refusal, or the reason with the tool's name. */
  lemma {:induction false} FailureIsHandedOn(c: Config, s: RunState)
    requires RegistryOk(c.reg) && Due(c, s)
    ensures Step(c, s).lastFailure ==
      if Chosen(c, s).None? then Some(Refusal(c, s))
      else if Accepted(c, s) || !Called(c, s).fitsInput(Given(c, s)) then s.lastFailure
      else Some(FailureReason(Why(c, s), Some(Chosen(c, s).value.name)))
  {
    ObservedIs(c, s);
    FailureIsKept(c, s);
  }

  /** Where the loop goes: out with its text after an accepted `finish`, on after any other accepted call,
      back to the planner after a failure, unless a refusal finds the replans used up; unfit arguments end
      it in an exception. */
  lemma {:induction false} LoopGoesOn(c: Config, s: RunState)
    requires RegistryOk(c.reg) && Due(c, s)
    ensures var loc := Step(c, s).loc;
      if Chosen(c, s).None? then
        if s.replans + 1 > c.budget.maxReplans
        then loc == Exit(Abort(MaxReplansExceededAfter(Refusal(c, s))))
        else loc.Top?
      else if !Called(c, s).fitsInput(Given(c, s)) then loc == Exit(Crash)
      else if !Accepted(c, s) then loc.Top?
      else if Chosen(c, s).value.name != "finish" then loc == s.loc.(next := s.loc.next + 1)
      else
        && FinalString(Happens(c, s).payload).Some?
        && loc == Exit(Success(FinalString(Happens(c, s).payload).value))
  {
    ObservedIs(c, s);
    DueIsAttempt(c, s);
  }
}
