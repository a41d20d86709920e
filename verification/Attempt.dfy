/** One subtask as the parallel scheduler runs it: select, invoke, validate. */
module Attempt {
  import opened Values
  import opened Tools
  import opened Selector
  import opened Validator

  datatype SubtaskOutcome = SubtaskOutcome(
    idx: int,
    description: string,
    toolName: Option<string>,
    output: Option<Dict>,
    ok: bool,
    failure: Option<FailureReason>)

  /** What the outside world answers while one subtask runs: the provider's reply to the selector
      and the behaviour of the tools. */
  datatype Surroundings = Surroundings(reply: ChatReply, tools: ToolBehaviour)

  /** `Escapes` is the schema error of an unfit argument dict, which nothing catches. */
  datatype AttemptResult = Escapes | Settles(outcome: SubtaskOutcome)

  function FailedOutcome(idx: int, ps: PlannedSubtask, tool: Option<string>, output: Option<Dict>,
                         f: FailureReason): SubtaskOutcome
  {
    SubtaskOutcome(idx, ps.description, tool, output, false, Some(f))
  }

  predicate FailsWith(r: AttemptResult, kind: FailureKind) {
    r.Settles? && r.outcome.failure.Some? && r.outcome.failure.value.kind == kind
  }

  function RunOneSubtask(reg: map<string, Tool>, idx: int, ps: PlannedSubtask, around: Surroundings): (r: AttemptResult)
    ensures r.Settles? ==> r.outcome.idx == idx && r.outcome.description == ps.description
    ensures r.Settles? ==> (r.outcome.ok <==> r.outcome.failure.None?)
    ensures var call := ChooseTool(reg, ps.toolHint, ps.argsOverride, around.reply).toolCall;
      if call.None? then r.Settles? && r.outcome.failure.Some? && r.outcome.failure.value.kind == NoToolForSubtask
      else
        var g := InvokeWithGuard(reg[call.value.name], call.value.arguments, around.tools);
        && (r.Escapes? <==> g.BadInput?)
        && (FailsWith(r, Timeout) <==> g.TimedOut?)
        && (FailsWith(r, ToolReturnedError) <==> g.Errored?)
        && (g.Returned? ==> r.Settles? && r.outcome.output == Some(g.payload))
        && (r.Settles? && !g.Returned? ==> r.outcome.output.None?)
        && (r.Settles? ==> r.outcome.toolName == Some(reg[call.value.name].name))
        && (r.Settles? && !r.outcome.ok ==> r.outcome.failure.value.toolName == r.outcome.toolName)
    ensures var sel := ChooseTool(reg, ps.toolHint, ps.argsOverride, around.reply);
      sel.toolCall.None? ==>
        r.Settles? && r.outcome.toolName.None? && r.outcome.output.None? && r.outcome.failure == sel.failure
    ensures r.Settles? && r.outcome.output.Some? && r.outcome.toolName.Some? && RegistryOk(reg) ==>
      var fits := r.outcome.toolName.value in reg && reg[r.outcome.toolName.value].fitsOutput(r.outcome.output.value);
      var low := Confidence(r.outcome.output.value).Some? && 0.0 < ps.confidenceThreshold
                 && Confidence(r.outcome.output.value).value < ps.confidenceThreshold;
      && (r.outcome.ok <==> fits && !low)
      && (!r.outcome.ok ==> r.outcome.failure.value.kind == if fits then ConfidenceTooLow else OutputSchemaMismatch)
    ensures r.Settles? && r.outcome.ok ==> r.outcome.output.Some? && r.outcome.toolName.Some?
    ensures r.Settles? && r.outcome.ok && RegistryOk(reg) ==>
      r.outcome.toolName.value in reg && reg[r.outcome.toolName.value].fitsOutput(r.outcome.output.value)
  {
    var sel := ChooseTool(reg, ps.toolHint, ps.argsOverride, around.reply);
    if sel.failure.Some? || sel.toolCall.None? then
      Settles(FailedOutcome(idx, ps, None, None,
        if sel.failure.Some? then sel.failure.value else FailureReason(NoToolForSubtask, None)))
    else
      var tool := reg[sel.toolCall.value.name];
      match InvokeWithGuard(tool, sel.toolCall.value.arguments, around.tools)
      case BadInput => Escapes
      case TimedOut(_) =>
        Settles(FailedOutcome(idx, ps, Some(tool.name), None, FailureReason(Timeout, Some(tool.name))))
      case Errored(_) =>
        Settles(FailedOutcome(idx, ps, Some(tool.name), None, FailureReason(ToolReturnedError, Some(tool.name))))
      case Returned(payload) =>
        var v := Validate(tool.name, payload, tool.fitsOutput, ps.confidenceThreshold);
        if !v.valid then Settles(FailedOutcome(idx, ps, Some(tool.name), Some(payload), v.failure.value))
        else Settles(SubtaskOutcome(idx, ps.description, Some(tool.name), Some(payload), true, None))
  }
}
