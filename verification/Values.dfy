/** JSON-like values, failure reasons and plans: the data every component passes around. */
module Values {

  datatype Option<+T> = None | Some(value: T)

  /** What `json.load` can produce.  Floats are reals: rounding is not modelled. */
  datatype Json =
    | Null
    | Bool(b: bool)
    | Int(n: int)
    | Float(r: real)
    | Str(s: string)
    | List(items: seq<Json>)
    | Obj(fields: map<string, Json>)

  type Dict = map<string, Json>

  datatype FailureKind =
    | OutputSchemaMismatch
    | ToolReturnedError
    | ConfidenceTooLow
    | PreconditionViolated
    | ResourceExhausted
    | PlanInvalid
    | NoToolForSubtask
    | Timeout

  datatype FailureReason = FailureReason(kind: FailureKind, toolName: Option<string>)

  datatype GoalStatus = GoalPending | GoalRunning | GoalSucceeded | GoalFailed | GoalAborted

  datatype PlannedSubtask = PlannedSubtask(
    description: string,
    toolHint: string,
    confidenceThreshold: real,
    argsOverride: Option<Dict>,
    parallel: bool,
    dependencies: seq<int>)

  /** The string a payload carries under "final", if it carries one. */
  function FinalString(output: Dict): Option<string> {
    if "final" in output && output["final"].Str? then Some(output["final"].s) else None
  }

  /** Python truthiness of a JSON value. */
  predicate Truthy(j: Json) {
    match j
    case Null => false
    case Bool(b) => b
    case Int(n) => n != 0
    case Float(r) => r != 0.0
    case Str(s) => s != ""
    case List(items) => items != []
    case Obj(fields) => fields != map[]
  }

  /** Truth as Python has it: everything but null, false, zero and the empty string, list and object. */
  lemma TruthyIff(j: Json)
    ensures Truthy(j) <==>
      && j != Null && j != Bool(false) && j != Int(0) && j != Float(0.0)
      && j != Str("") && j != List([]) && j != Obj(map[])
  {
  }

  /** A final text is exactly a string under "final". */
  lemma FinalStringIff(output: Dict, text: string)
    ensures FinalString(output) == Some(text) <==> "final" in output && output["final"] == Str(text)
  {
  }
}
