/** Picks the tool and the arguments for one subtask. */
module Selector {
  import opened Values
  import opened Tools

  datatype ToolRequest = ToolRequest(name: string, arguments: Dict)

  /** The part of a provider reply the selector looks at. */
  datatype ChatReply = ChatReply(toolCalls: seq<ToolRequest>, costUsd: real)

  datatype SelectorResult = SelectorResult(
    toolCall: Option<ToolRequest>,
    failure: Option<FailureReason>,
    costUsd: real)

  function MergeArgs(arguments: Dict, override: Option<Dict>): Dict {
    if override.Some? then arguments + override.value else arguments
  }

  function NoTool(name: string): FailureReason {
    FailureReason(NoToolForSubtask, Some(name))
  }

  /** The contract the run loop's termination and its registry lookup rest on: exactly one of
      tool call and failure is present, every failure is of the one kind that counts as a replan,
      every chosen tool is registered, an override always wins, and the provider is charged
      exactly when it was asked. */
  function ChooseTool(reg: map<string, Tool>, hint: string, override: Option<Dict>,
                      reply: ChatReply): (r: SelectorResult)
    ensures r.failure.Some? <==> r.toolCall.None?
    ensures r.failure.Some? ==> r.failure.value.kind == NoToolForSubtask
    ensures r.toolCall.Some? ==> r.toolCall.value.name in reg
    ensures r.toolCall.Some? && override.Some? ==>
      forall k :: k in override.value ==>
        k in r.toolCall.value.arguments && r.toolCall.value.arguments[k] == override.value[k]
    ensures r.toolCall.Some? <==> hint in reg && |reply.toolCalls| > 0 && reply.toolCalls[0].name in reg
    ensures r.failure.Some? ==>
      r.failure.value.toolName ==
        Some(if hint in reg && |reply.toolCalls| > 0 then reply.toolCalls[0].name else hint)
    ensures r.toolCall.Some? ==>
      && r.toolCall.value.name == reply.toolCalls[0].name
      && r.toolCall.value.arguments.Keys ==
           reply.toolCalls[0].arguments.Keys + (if override.Some? then override.value.Keys else {})
      && forall k :: k in reply.toolCalls[0].arguments && (override.None? || k !in override.value) ==>
           r.toolCall.value.arguments[k] == reply.toolCalls[0].arguments[k]
    ensures r.costUsd == if hint in reg then reply.costUsd else 0.0
  {
    if hint !in reg then
      SelectorResult(None, Some(NoTool(hint)), 0.0)
    else if reply.toolCalls == [] then
      SelectorResult(None, Some(NoTool(hint)), reply.costUsd)
    else
      var chosen := reply.toolCalls[0];
      if chosen.name !in reg then
        SelectorResult(None, Some(NoTool(chosen.name)), reply.costUsd)
      else
        SelectorResult(Some(ToolRequest(chosen.name, MergeArgs(chosen.arguments, override))), None, reply.costUsd)
  }
}
