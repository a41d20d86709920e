/** The persisted rows of one goal, and the session that writes them.

    Tables are append-only sequences; a row's id is its position. */
module Records {
  import opened Values

  datatype SubtaskStatus = Pending | Running | Done | Failed | Skipped

  datatype CallStatus = CallOk | CallError | CallTimeout

  datatype SubtaskRow = SubtaskRow(
    idx: int,
    description: string,
    status: SubtaskStatus,
    confidenceThreshold: real,
    parallel: bool,
    dependencies: seq<nat>)

  datatype CallRow = CallRow(
    subtask: nat,
    idx: nat,
    toolName: string,
    args: Dict,
    output: Option<Dict>,
    status: CallStatus)

  datatype ValidationRow = ValidationRow(call: nat, valid: bool, failureReason: Option<FailureKind>)

  datatype ReplanRow = ReplanRow(idx: int, triggeredBy: Option<nat>, failureReason: FailureKind)

  datatype AbortReason =
    | WallClockExceeded
    | MaxReplansExceeded(count: int)
    | MaxReplansExceededAfter(failure: FailureReason)
    | PlannerError
    | EmptyPlan
    | MaxCostExceeded
    | MaxStepsExceeded(count: int)
    | PlanExhausted

  datatype GoalRow = GoalRow(
    status: GoalStatus,
    finalResult: Option<string>,
    abortReason: Option<AbortReason>,
    totalSteps: int,
    replanCount: int,
    totalCostUsd: real)

  datatype Db = Db(
    goal: GoalRow,
    subtasks: seq<SubtaskRow>,
    calls: seq<CallRow>,
    validations: seq<ValidationRow>,
    replans: seq<ReplanRow>)

  /** A goal no run has touched yet. */
  predicate Untouched(db: Db) {
    db.subtasks == [] && db.calls == [] && db.validations == [] && db.replans == []
  }

  /** One row per planned subtask, numbered from `base`. */
  function NewRows(subs: seq<PlannedSubtask>, base: nat, keepParallel: bool): seq<SubtaskRow> {
    seq(|subs|, i requires 0 <= i < |subs| =>
      SubtaskRow(base + i, subs[i].description, Pending, subs[i].confidenceThreshold,
                 keepParallel && subs[i].parallel, []))
  }

  /** Row i is number base + i; it takes over the subtask's description and threshold, and its parallel
      flag when asked to; it starts PENDING without dependencies. */
  lemma NewRowIs(subs: seq<PlannedSubtask>, base: nat, keepParallel: bool, i: nat)
    requires i < |subs|
    ensures |NewRows(subs, base, keepParallel)| == |subs|
    ensures var row := NewRows(subs, base, keepParallel)[i];
      && row.idx == base + i && row.status == Pending && row.dependencies == []
      && row.description == subs[i].description && row.confidenceThreshold == subs[i].confidenceThreshold
      && row.parallel == (if keepParallel then subs[i].parallel else false)
  {
  }

  function SetStatus(rows: seq<SubtaskRow>, r: nat, status: SubtaskStatus): (rows': seq<SubtaskRow>)
    requires r < |rows|
  {
    rows[r := rows[r].(status := status)]
  }

  /** How many tool calls a subtask has so far. */
  function CallsOf(calls: seq<CallRow>, r: nat): nat {
    if calls == [] then 0
    else CallsOf(calls[..|calls| - 1], r) + if calls[|calls| - 1].subtask == r then 1 else 0
  }

  lemma {:induction false} CallsOfCounts(calls: seq<CallRow>, r: nat)
    ensures CallsOf(calls, r) == |set k: nat | k < |calls| && calls[k].subtask == r|
  {
    var mine := set k: nat | k < |calls| && calls[k].subtask == r;
    if calls == [] {
      assert mine == {};
    } else {
      var n := |calls| - 1;
      var before := set k: nat | k < n && calls[..n][k].subtask == r;
      CallsOfCounts(calls[..n], r);
      assert mine == if calls[n].subtask == r then before + {n} else before;
    }
  }

  const NEW_GOAL := GoalRow(GoalRunning, None, None, 0, 0, 0.0)

  class Session {
    var goal: GoalRow
    var subtasks: seq<SubtaskRow>
    var calls: seq<CallRow>
    var validations: seq<ValidationRow>
    var replans: seq<ReplanRow>

    ghost function View(): Db
      reads this
    {
      Db(goal, subtasks, calls, validations, replans)
    }

    /** A new goal: `_init_goal` without an id. */
    constructor ()
      ensures Untouched(View()) && goal == NEW_GOAL
    {
      goal := NEW_GOAL;
      subtasks, calls, validations, replans := [], [], [], [];
    }

    method AddSubtask(row: SubtaskRow)
      modifies this`subtasks
      ensures subtasks == old(subtasks) + [row]
    {
      subtasks := subtasks + [row];
    }

    method MarkSubtask(r: nat, status: SubtaskStatus)
      requires r < |subtasks|
      modifies this`subtasks
      ensures subtasks == SetStatus(old(subtasks), r, status)
    {
      subtasks := subtasks[r := subtasks[r].(status := status)];
    }

    /** A tool call starts as a row without output and with the column's default status, ok. */
    method AddCall(r: nat, toolName: string, args: Dict) returns (id: nat)
      modifies this`calls
      ensures id == old(|calls|)
      ensures calls == old(calls) + [CallRow(r, CallsOf(old(calls), r), toolName, args, None, CallOk)]
      ensures calls[id].idx == |set k: nat | k < old(|calls|) && old(calls)[k].subtask == r|
    {
      id := |calls|;
      var n := 0;
      for k := 0 to |calls|
        invariant n == CallsOf(calls[..k], r)
      {
        assert calls[..k + 1][..k] == calls[..k];
        if calls[k].subtask == r {
          n := n + 1;
        }
      }
      assert calls[..|calls|] == calls;
      CallsOfCounts(calls, r);
      calls := calls + [CallRow(r, n, toolName, args, None, CallOk)];
    }

    method SettleCall(id: nat, status: CallStatus, output: Dict)
      requires id < |calls|
      modifies this`calls
      ensures calls == old(calls)[id := old(calls)[id].(status := status, output := Some(output))]
    {
      calls := calls[id := calls[id].(status := status, output := Some(output))];
    }

    method AddValidation(row: ValidationRow)
      modifies this`validations
      ensures validations == old(validations) + [row]
    {
      validations := validations + [row];
    }

    /** `_record_replan`. */
    method RecordReplan(idx: int, triggeredBy: Option<nat>, failure: FailureReason)
      modifies this`replans
      ensures replans == old(replans) + [ReplanRow(idx, triggeredBy, failure.kind)]
    {
      replans := replans + [ReplanRow(idx, triggeredBy, failure.kind)];
    }

    method CloseGoal(row: GoalRow)
      modifies this`goal
      ensures goal == row
    {
      goal := row;
    }
  }
}
