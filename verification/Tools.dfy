/** The tool registry and the guard every invocation goes through. */
module Tools {
  import opened Values

  datatype Tool = Tool(
    name: string,
    fitsInput: Dict -> bool,
    fitsOutput: Dict -> bool,
    maxRuntimeMs: int)

  /** What one call of a tool's `invoke` does: it returns a payload after some time, or it raises. */
  datatype ToolRun =
    | Output(payload: Dict, latencyMs: int)
    | RaisesInvocationError(message: string)
    | RaisesTimeoutError(message: string)
    | RaisesOther(message: string)

  /** How `invoke_with_guard` ends.  `BadInput` is the schema error that no caller catches. */
  datatype GuardResult =
    | BadInput
    | TimedOut(message: string)
    | Errored(message: string)
    | Returned(payload: Dict)

  /** A tool's behaviour at one moment: its name and its arguments decide what it does. */
  type ToolBehaviour = (string, Dict) -> ToolRun

  function InvokeWithGuard(tool: Tool, args: Dict, behaviour: ToolBehaviour): (r: GuardResult)
    ensures r.BadInput? <==> !tool.fitsInput(args)
    ensures var run := behaviour(tool.name, args);
      r.Returned? <==> tool.fitsInput(args) && run.Output? && run.latencyMs <= tool.maxRuntimeMs
    ensures var run := behaviour(tool.name, args);
      r.TimedOut? <==>
        tool.fitsInput(args) && (run.RaisesTimeoutError? || (run.Output? && run.latencyMs > tool.maxRuntimeMs))
    ensures var run := behaviour(tool.name, args);
      && (r.Errored? ==> (run.RaisesInvocationError? || run.RaisesOther?) && r.message == run.message)
      && (r.TimedOut? && run.RaisesTimeoutError? ==> r.message == run.message)
    ensures r.Returned? ==> behaviour(tool.name, args).payload == r.payload
  {
    if !tool.fitsInput(args) then BadInput
    else
      match behaviour(tool.name, args)
      case RaisesInvocationError(m) => Errored(m)
      case RaisesTimeoutError(m) => TimedOut(m)
      case RaisesOther(m) => Errored(m)
      case Output(payload, latencyMs) =>
        if latencyMs > tool.maxRuntimeMs then TimedOut("exceeded max_runtime_ms") else Returned(payload)
  }

  /** A tool answers to the key it is stored under. */
  ghost predicate NamesFit(reg: map<string, Tool>) {
    forall k :: k in reg ==> reg[k].name == k
  }

  /** The built-in `finish` tool declares an output model with a string field "final". */
  ghost predicate KeepsFinishPromise(tool: Tool) {
    tool.name == "finish" ==> forall o: Dict :: tool.fitsOutput(o) ==> FinalString(o).Some?
  }

  /** What the engines rely on: registration keeps names unique, and whoever provides `finish` keeps
      its promise. */
  ghost predicate RegistryOk(reg: map<string, Tool>) {
    NamesFit(reg) && ("finish" in reg ==> KeepsFinishPromise(reg["finish"]))
  }

  class Registry {
    var tools: map<string, Tool>

    constructor ()
      ensures tools == map[]
      ensures NamesFit(tools) && RegistryOk(tools)
    {
      tools := map[];
    }

    /** Adds a tool; a name already taken is refused and nothing changes. */
    method Register(tool: Tool) returns (accepted: bool)
      requires NamesFit(tools)
      modifies this
      ensures NamesFit(tools)
      ensures RegistryOk(old(tools)) && KeepsFinishPromise(tool) ==> RegistryOk(tools)
      ensures accepted <==> tool.name !in old(tools)
      ensures forall k :: k in old(tools) ==> k in tools && tools[k] == old(tools)[k]
      ensures tools.Keys == old(tools).Keys + {tool.name}
      ensures accepted ==> tools[tool.name] == tool
    {
      if tool.name in tools {
        return false;
      }
      tools := tools[tool.name := tool];
      return true;
    }
  }
}
