/** The scripted provider: per-goal cursors into a plan script and an argument script. */
module FakeProvider {
  import opened Values
  import opened Records
  import opened RunSpec
  import opened RunConservation

  /** The script tables.  Every scripted goal has at least one plan. */
  datatype Script = Script(plans: map<string, seq<seq<PlannedSubtask>>>, arguments: map<(string, string), seq<Dict>>)

  ghost predicate ScriptOk(script: Script) {
    forall key :: key in script.plans ==> script.plans[key] != []
  }

  /** A classified request; `None` is a goal no pattern matches, or a prompt without a tool name. */
  datatype Request =
    | Plan(goal: Option<string>)
    | Select(goal: Option<string>, tool: Option<string>)

  datatype Reply =
    | Empty
    | PlanText(subtasks: seq<PlannedSubtask>, costUsd: real)
    | NoArguments(costUsd: real)
    | ToolCall(tool: string, arguments: Dict, costUsd: real)

  const PLAN_COST := 0.0008
  const SELECT_COST := 0.0004
  const NO_ARGUMENTS_COST := 0.0001

  function Min(a: int, b: int): int {
    if a < b then a else b
  }

  // ---------------------------------------------------------------------------------------------
  // What the provider promises: answers counted from the history of requests
  // ---------------------------------------------------------------------------------------------

  function Count(history: seq<Request>, req: Request): nat {
    if history == [] then 0
    else Count(history[..|history| - 1], req) + if history[|history| - 1] == req then 1 else 0
  }

  function ArgumentsFor(script: Script, key: string, tool: string): seq<Dict> {
    if (key, tool) in script.arguments then script.arguments[(key, tool)] else []
  }

  /** The k-th plan request of a goal gets plan min(k, len - 1), the k-th selection of a tool gets
      arguments min(k, len - 1): one past the end repeats the last entry. */
  function Scripted(script: Script, history: seq<Request>, req: Request): Reply
    requires ScriptOk(script)
  {
    match req
    case Plan(None) => PlanText([], 0.0)
    case Plan(Some(key)) =>
      if key !in script.plans then PlanText([], 0.0)
      else
        var plans := script.plans[key];
        PlanText(plans[Min(Count(history, req), |plans| - 1)], PLAN_COST)
    case Select(Some(key), Some(tool)) =>
      var list := ArgumentsFor(script, key, tool);
      if list == [] then NoArguments(NO_ARGUMENTS_COST)
      else ToolCall(tool, list[Min(Count(history, req), |list| - 1)], SELECT_COST)
    case Select(_, _) => Empty
  }

  // ---------------------------------------------------------------------------------------------
  // The cursors
  // ---------------------------------------------------------------------------------------------

  datatype Cursors = Cursors(planIdx: nat, toolIdx: map<string, nat>)

  function PlanCursor(state: map<string, Cursors>, key: string): nat {
    if key in state then state[key].planIdx else 0
  }

  function ToolCursor(state: map<string, Cursors>, key: string, tool: string): nat {
    if key in state && tool in state[key].toolIdx then state[key].toolIdx[tool] else 0
  }

  /** Plan cursors stop at the end of the script. */
  ghost predicate PlansFit(script: Script, state: map<string, Cursors>, history: seq<Request>) {
    forall key :: key in script.plans ==>
      PlanCursor(state, key) == Min(Count(history, Plan(Some(key))), |script.plans[key]|)
  }

  /** Tool cursors count on. */
  ghost predicate ToolsFit(script: Script, state: map<string, Cursors>, history: seq<Request>) {
    forall key, tool :: ArgumentsFor(script, key, tool) != [] ==>
      ToolCursor(state, key, tool) == Count(history, Select(Some(key), Some(tool)))
  }

  lemma CountExtends(history: seq<Request>, req: Request, r: Request)
    ensures Count(history + [req], r) == Count(history, r) + if r == req then 1 else 0
  {
    assert (history + [req])[..|history|] == history;
  }

  /** The goal's cursors, created at zero when missing: `setdefault`. */
  function Entry(state: map<string, Cursors>, key: string): Cursors {
    if key in state then state[key] else Cursors(0, map[])
  }

  function MovePlan(state: map<string, Cursors>, key: string, n: nat): map<string, Cursors> {
    state[key := Entry(state, key).(planIdx := n)]
  }

  function MoveTool(state: map<string, Cursors>, key: string, tool: string, n: nat): map<string, Cursors> {
    state[key := Entry(state, key).(toolIdx := Entry(state, key).toolIdx[tool := n])]
  }

  /** A request the cursors do not serve leaves them where they are. */
  lemma PlansStay(script: Script, state: map<string, Cursors>, state': map<string, Cursors>, history: seq<Request>,
                  req: Request)
    requires PlansFit(script, state, history)
    requires req.Plan? ==> req.goal.None? || req.goal.value !in script.plans
    requires forall key :: PlanCursor(state', key) == PlanCursor(state, key)
    ensures PlansFit(script, state', history + [req])
  {
    forall key | key in script.plans
      ensures PlanCursor(state', key) == Min(Count(history + [req], Plan(Some(key))), |script.plans[key]|)
    {
      CountExtends(history, req, Plan(Some(key)));
    }
  }

  lemma ToolsStay(script: Script, state: map<string, Cursors>, state': map<string, Cursors>, history: seq<Request>,
                  req: Request)
    requires ToolsFit(script, state, history)
    requires req.Select? ==>
      req.goal.None? || req.tool.None? || ArgumentsFor(script, req.goal.value, req.tool.value) == []
    requires forall key, tool :: ToolCursor(state', key, tool) == ToolCursor(state, key, tool)
    ensures ToolsFit(script, state', history + [req])
  {
    forall key, tool | ArgumentsFor(script, key, tool) != []
      ensures ToolCursor(state', key, tool) == Count(history + [req], Select(Some(key), Some(tool)))
    {
      CountExtends(history, req, Select(Some(key), Some(tool)));
    }
  }

  lemma PlanMoves(script: Script, state: map<string, Cursors>, history: seq<Request>, key: string)
    requires ScriptOk(script) && PlansFit(script, state, history) && key in script.plans
    ensures var idx := Min(Entry(state, key).planIdx, |script.plans[key]| - 1);
      && 0 <= idx == Min(Count(history, Plan(Some(key))), |script.plans[key]| - 1)
      && PlansFit(script, MovePlan(state, key, idx + 1), history + [Plan(Some(key))])
  {
    var idx := Min(Entry(state, key).planIdx, |script.plans[key]| - 1);
    assert PlanCursor(state, key) == Entry(state, key).planIdx;
    forall k | k in script.plans
      ensures PlanCursor(MovePlan(state, key, idx + 1), k) ==
        Min(Count(history + [Plan(Some(key))], Plan(Some(k))), |script.plans[k]|)
    {
      CountExtends(history, Plan(Some(key)), Plan(Some(k)));
    }
  }

  lemma ToolMoves(script: Script, state: map<string, Cursors>, history: seq<Request>, key: string, tool: string)
    requires ToolsFit(script, state, history) && ArgumentsFor(script, key, tool) != []
    ensures var n := ToolCursor(state, key, tool);
      && n == Count(history, Select(Some(key), Some(tool)))
      && ToolsFit(script, MoveTool(state, key, tool, n + 1), history + [Select(Some(key), Some(tool))])
  {
    var n := ToolCursor(state, key, tool);
    forall k, t | ArgumentsFor(script, k, t) != []
      ensures ToolCursor(MoveTool(state, key, tool, n + 1), k, t) ==
        Count(history + [Select(Some(key), Some(tool))], Select(Some(k), Some(t)))
    {
      CountExtends(history, Select(Some(key), Some(tool)), Select(Some(k), Some(t)));
    }
  }

  /** A selection without scripted arguments creates the goal's entry and nothing else. */
  lemma EmptySelection(script: Script, state: map<string, Cursors>, history: seq<Request>, key: string, tool: string)
    requires PlansFit(script, state, history) && ToolsFit(script, state, history)
      && ArgumentsFor(script, key, tool) == []
    ensures var state' := state[key := Entry(state, key)];
      var history' := history + [Select(Some(key), Some(tool))];
      PlansFit(script, state', history') && ToolsFit(script, state', history')
  {
    var state' := state[key := Entry(state, key)];
    PlansStay(script, state, state', history, Select(Some(key), Some(tool)));
    ToolsStay(script, state, state', history, Select(Some(key), Some(tool)));
  }

  lemma Selection(script: Script, state: map<string, Cursors>, history: seq<Request>, key: string, tool: string)
    requires PlansFit(script, state, history) && ToolsFit(script, state, history)
      && ArgumentsFor(script, key, tool) != []
    ensures var n := ToolCursor(state, key, tool);
      var state' := MoveTool(state, key, tool, n + 1);
      var history' := history + [Select(Some(key), Some(tool))];
      && n == Count(history, Select(Some(key), Some(tool)))
      && PlansFit(script, state', history') && ToolsFit(script, state', history')
  {
    ToolMoves(script, state, history, key, tool);
    PlansStay(script, state, MoveTool(state, key, tool, ToolCursor(state, key, tool) + 1), history,
      Select(Some(key), Some(tool)));
  }

  class Provider {
    const script: Script
    var state: map<string, Cursors>
    ghost var history: seq<Request>

    ghost predicate Valid()
      reads this
    {
      ScriptOk(script) && PlansFit(script, state, history) && ToolsFit(script, state, history)
    }

    constructor (script: Script)
      requires ScriptOk(script)
      ensures Valid() && this.script == script && history == []
    {
      this.script := script;
      state := map[];
      history := [];
    }

    /** `_plan`. */
    method NextPlan(goal: Option<string>) returns (reply: Reply)
      requires Valid()
      modifies this
      ensures Valid() && history == old(history) + [Plan(goal)]
      ensures reply == Scripted(script, old(history), Plan(goal))
    {
      ghost var before := history;
      history := history + [Plan(goal)];
      if goal.None? || goal.value !in script.plans {
        PlansStay(script, state, state, before, Plan(goal));
        ToolsStay(script, state, state, before, Plan(goal));
        return PlanText([], 0.0);
      }
      var key := goal.value;
      var plans := script.plans[key];
      PlanMoves(script, state, before, key);
      state := state[key := Entry(state, key)];
      var idx := Min(state[key].planIdx, |plans| - 1);
      state := state[key := state[key].(planIdx := idx + 1)];
      assert state == MovePlan(old(state), key, idx + 1);
      ToolsStay(script, old(state), state, before, Plan(goal));
      reply := PlanText(plans[idx], PLAN_COST);
    }

    /** `_select`. */
    method NextCall(goal: Option<string>, tool: Option<string>) returns (reply: Reply)
      requires Valid()
      modifies this
      ensures Valid() && history == old(history) + [Select(goal, tool)]
      ensures reply == Scripted(script, old(history), Select(goal, tool))
      ensures reply.NoArguments? || reply.Empty? ==>
        forall k, t :: ToolCursor(state, k, t) == ToolCursor(old(state), k, t)
    {
      ghost var before := history;
      history := history + [Select(goal, tool)];
      if goal.None? || tool.None? {
        PlansStay(script, state, state, before, Select(goal, tool));
        ToolsStay(script, state, state, before, Select(goal, tool));
        return Empty;
      }
      var key, name := goal.value, tool.value;
      state := state[key := Entry(state, key)];
      var perTool := if name in state[key].toolIdx then state[key].toolIdx[name] else 0;
      var list := ArgumentsFor(script, key, name);
      if list == [] {
        EmptySelection(script, old(state), before, key, name);
        return NoArguments(NO_ARGUMENTS_COST);
      }
      Selection(script, old(state), before, key, name);
      var args := list[Min(perTool, |list| - 1)];
      state := state[key := state[key].(toolIdx := state[key].toolIdx[name := perTool + 1])];
      assert state == MoveTool(old(state), key, name, perTool + 1);
      reply := ToolCall(name, args, SELECT_COST);
    }
  }

  lemma {:induction false} CountIs(history: seq<Request>, req: Request)
    ensures Count(history, req) == |set j: nat | j < |history| && history[j] == req|
  {
    var same := set j: nat | j < |history| && history[j] == req;
    if history == [] {
      assert same == {};
    } else {
      var n := |history| - 1;
      var before := set j: nat | j < n && history[..n][j] == req;
      CountIs(history[..n], req);
      assert same == if history[n] == req then before + {n} else before;
    }
  }

  /** Entry k of a script, the last one for every k past its end. */
  function AtOrLast<T>(list: seq<T>, k: nat): T
    requires list != []
  {
    if k < |list| then list[k] else list[|list| - 1]
  }

  /** After k selections of the same goal and tool, whatever other requests lie between, a selection is
      answered with a call of that tool and entry k of its argument script, the last one past the end;
      without a script it is answered with no call. */
  lemma {:induction false} SelectionIs(script: Script, history: seq<Request>, key: string, tool: string)
    requires ScriptOk(script)
    ensures var req := Select(Some(key), Some(tool));
      var k := |set j: nat | j < |history| && history[j] == req|;
      Scripted(script, history, req) ==
        if (key, tool) in script.arguments && script.arguments[(key, tool)] != []
        then ToolCall(tool, AtOrLast(script.arguments[(key, tool)], k), 0.0004)
        else NoArguments(0.0001)
  {
    CountIs(history, Select(Some(key), Some(tool)));
  }

  /** After k plan requests of the same goal, a request is answered with its plan k, the last one past the
      end, at the price of a plan; a goal without a script gets an empty plan for nothing. */
  lemma {:induction false} PlanIs(script: Script, history: seq<Request>, goal: Option<string>)
    requires ScriptOk(script)
    ensures var k := |set j: nat | j < |history| && history[j] == Plan(goal)|;
      Scripted(script, history, Plan(goal)) ==
        if goal.Some? && goal.value in script.plans
        then PlanText(AtOrLast(script.plans[goal.value], k), 0.0008)
        else PlanText([], 0.0)
  {
    CountIs(history, Plan(goal));
  }

  /** The reply to request i: its script's entry for the number of equal requests before it. */
  ghost predicate Answers(script: Script, requests: seq<Request>, i: nat, reply: Reply)
    requires ScriptOk(script) && i < |requests|
  {
    var k := |set j: nat | j < i && requests[j] == requests[i]|;
    match requests[i]
    case Plan(goal) =>
      reply == if goal.Some? && goal.value in script.plans
               then PlanText(AtOrLast(script.plans[goal.value], k), 0.0008)
               else PlanText([], 0.0)
    case Select(Some(key), Some(tool)) =>
      reply == if (key, tool) in script.arguments && script.arguments[(key, tool)] != []
               then ToolCall(tool, AtOrLast(script.arguments[(key, tool)], k), 0.0004)
               else NoArguments(0.0001)
    case Select(_, _) => reply == Empty
  }

  lemma {:induction false} ScriptedAnswers(script: Script, requests: seq<Request>, i: nat)
    requires ScriptOk(script) && i < |requests|
    ensures Answers(script, requests, i, Scripted(script, requests[..i], requests[i]))
  {
    var before := requests[..i];
    var req := requests[i];
    assert (set j: nat | j < i && requests[j] == req) == set j: nat | j < |before| && before[j] == req;
    match req
    case Plan(goal) => PlanIs(script, before, goal);
    case Select(Some(key), Some(tool)) => SelectionIs(script, before, key, tool);
    case Select(_, _) =>
  }

  /** Any interleaving of requests from any goals is answered by the script alone. */
  method Serve(script: Script, requests: seq<Request>) returns (replies: seq<Reply>)
    requires ScriptOk(script)
    ensures |replies| == |requests|
    ensures forall i :: 0 <= i < |requests| ==> replies[i] == Scripted(script, requests[..i], requests[i])
    ensures forall i: nat :: i < |requests| ==> Answers(script, requests, i, replies[i])
  {
    var provider := new Provider(script);
    replies := [];
    for i := 0 to |requests|
      invariant provider.Valid() && provider.script == script && provider.history == requests[..i] && fresh(provider)
      invariant |replies| == i
      invariant forall j :: 0 <= j < i ==> replies[j] == Scripted(script, requests[..j], requests[j])
    {
      var reply;
      match requests[i] {
        case Plan(goal) => reply := provider.NextPlan(goal);
        case Select(goal, tool) => reply := provider.NextCall(goal, tool);
      }
      replies := replies + [reply];
      assert requests[..i + 1] == requests[..i] + [requests[i]];
    }
    forall i: nat | i < |requests|
      ensures Answers(script, requests, i, replies[i])
    {
      ScriptedAnswers(script, requests, i);
    }
  }

  /** The requests about one goal. */
  function About(history: seq<Request>, goal: Option<string>): seq<Request> {
    if history == [] then []
    else
      About(history[..|history| - 1], goal) +
      if history[|history| - 1].goal == goal then [history[|history| - 1]] else []
  }

  /** Goals do not disturb each other: an answer depends only on earlier requests about its goal. */
  lemma {:induction false} GoalsAreIndependent(script: Script, history: seq<Request>, req: Request)
    requires ScriptOk(script)
    ensures Scripted(script, history, req) == Scripted(script, About(history, req.goal), req)
  {
    CountsOwnGoalOnly(history, req);
  }

  lemma {:induction false} CountsOwnGoalOnly(history: seq<Request>, req: Request)
    ensures Count(About(history, req.goal), req) == Count(history, req)
  {
    if history != [] {
      var before, last := history[..|history| - 1], history[|history| - 1];
      CountsOwnGoalOnly(before, req);
      CountExtends(About(before, req.goal), last, req);
      assert About(before, req.goal) + [] == About(before, req.goal);
    }
  }

  // ---------------------------------------------------------------------------------------------
  // A scripted abort
  // ---------------------------------------------------------------------------------------------

  /** Every plan the planner hands out starts with a tool nobody registered; the clock never runs
      out, and no planner bill within the replan budget exceeds the cost cap. */
  ghost predicate AlwaysRefused(c: Config) {
    && (forall k: nat :: !c.world.late(k))
    && (forall k: nat ::
      c.world.plan(k).Plans? && c.world.plan(k).subtasks != [] && c.world.plan(k).subtasks[0].toolHint !in c.reg)
    && c.budget.maxReplans >= 0 && c.budget.maxSteps > 0
    && (forall k: nat :: k <= c.budget.maxReplans + 1 ==> PlannerBill(c.world, k) <= c.budget.maxCostUsd)
  }

  /** The loop is at its top with k refusals behind it and nothing else done. */
  ghost predicate RefusedTimes(c: Config, db: Db, s: RunState, k: nat) {
    && s.loc.Top? && s.replans == s.planned == k <= c.budget.maxReplans
    && s.steps == 0 && s.costUsd == PlannerBill(c.world, k)
    && s.db.calls == db.calls && s.db.validations == db.validations && |s.db.replans| == |db.replans| + k
    && s.prior == [] && s.invoked == []
  }

  /** The end of such a run. */
  ghost predicate RefusedOut(c: Config, db: Db, s: RunState) {
    var n := c.budget.maxReplans + 1;
    && n >= 1 && c.world.plan(n - 1).Plans? && c.world.plan(n - 1).subtasks != []
    && s.loc == Exit(Abort(MaxReplansExceededAfter(
         FailureReason(NoToolForSubtask, Some(c.world.plan(n - 1).subtasks[0].toolHint)))))
    && s.replans == s.planned == n && s.steps == 0 && s.costUsd == PlannerBill(c.world, n)
    && s.db.calls == db.calls && s.db.validations == db.validations && |s.db.replans| == |db.replans| + n
    && s.invoked == []
  }

  lemma PlanArrives(c: Config, db: Db, s: RunState, k: nat)
    requires AlwaysRefused(c) && RefusedTimes(c, db, s, k)
    ensures var subs := c.world.plan(k).subtasks;
      Step(c, s) == OpenPlan(s.(planned := k + 1, costUsd := PlannerBill(c.world, k + 1)), subs)
  {
  }

  lemma RefusalFollows(c: Config, db: Db, s: RunState, k: nat)
    requires AlwaysRefused(c) && RefusedTimes(c, db, s, k)
    ensures Placed(s) && Placed(Step(c, s)) && !Step(c, s).loc.Exit?
    ensures var s' := Step(c, Step(c, s));
      if k == c.budget.maxReplans then RefusedOut(c, db, s') else RefusedTimes(c, db, s', k + 1)
  {
    PlanArrives(c, db, s, k);
  }

  lemma {:induction false} RefusedToTheEnd(c: Config, db: Db, s: RunState, k: nat)
    requires AlwaysRefused(c) && RefusedTimes(c, db, s, k)
    ensures RefusedOut(c, db, Run(c, s))
    decreases c.budget.maxReplans - k
  {
    RefusalFollows(c, db, s, k);
    var s' := Step(c, Step(c, s));
    RunUnfoldsTwice(c, s);
    if k < c.budget.maxReplans {
      RefusedToTheEnd(c, db, s', k + 1);
    }
  }

  /** So the run aborts at plan number maxReplans + 1, whatever the plans are; at the second one if and
      only if one replan is allowed. */
  lemma {:induction false} SecondPlanAbortsIff(c: Config, db: Db)
    requires AlwaysRefused(c)
    ensures var end := Run(c, Start(db));
      && end.loc.Exit? && end.loc.ending.Abort? && end.loc.ending.reason.MaxReplansExceededAfter?
      && end.planned == c.budget.maxReplans + 1
      && (end.planned == 2 <==> c.budget.maxReplans == 1)
  {
    RefusedToTheEnd(c, db, Start(db), 0);
  }

  lemma RunUnfoldsTwice(c: Config, s: RunState)
    requires Placed(s) && !s.loc.Exit? && !Step(c, s).loc.Exit?
    ensures Run(c, s) == Run(c, Step(c, Step(c, s)))
    ensures Step(c, Step(c, s)).loc.Exit? ==> Run(c, s) == Step(c, Step(c, s))
  {
    var s1 := Step(c, s);
    assert Run(c, s) == Run(c, s1);
    assert Run(c, s1) == Run(c, Step(c, s1));
  }

  lemma FlatAbort(c: Config, db: Db, plan: seq<PlannedSubtask>)
    requires forall k: nat :: c.world.plan(k) == Plans(plan, PLAN_COST) && !c.world.late(k)
    requires plan != [] && plan[0].toolHint !in c.reg
    requires c.budget.maxReplans >= 0 && c.budget.maxSteps > 0
    requires (c.budget.maxReplans + 1) as real * PLAN_COST <= c.budget.maxCostUsd
    ensures var end := Run(c, Start(db));
      && end.loc == Exit(Abort(MaxReplansExceededAfter(FailureReason(NoToolForSubtask, Some(plan[0].toolHint)))))
      && end.replans == c.budget.maxReplans + 1 && end.steps == 0
      && end.costUsd == (c.budget.maxReplans + 1) as real * PLAN_COST
      && end.db.calls == db.calls && |end.db.replans| == |db.replans| + c.budget.maxReplans + 1
  {
    forall k: nat | k <= c.budget.maxReplans + 1
      ensures PlannerBill(c.world, k) == k as real * PLAN_COST <= c.budget.maxCostUsd
    {
      FlatBill(c.world, plan, k);
    }
    RefusedToTheEnd(c, db, Start(db), 0);
  }

  lemma {:induction false} FlatBill(w: World, plan: seq<PlannedSubtask>, k: nat)
    requires forall j: nat :: w.plan(j) == Plans(plan, PLAN_COST)
    ensures PlannerBill(w, k) == k as real * PLAN_COST
  {
    if k > 0 {
      FlatBill(w, plan, k - 1);
    }
  }

  /** The planner's tape when the provider plans for one goal. */
  function PlanTape(script: Script, key: string): nat -> PlanReply
    requires ScriptOk(script) && key in script.plans
  {
    (k: nat) => Plans(Scripted(script, seq(k, _ => Plan(Some(key))), Plan(Some(key))).subtasks, PLAN_COST)
  }

  lemma {:induction false} CountOfRepeats(k: nat, req: Request)
    ensures Count(seq(k, _ => req), req) == k
  {
    if k > 0 {
      assert seq(k, _ => req)[..k - 1] == seq(k - 1, _ => req);
      CountOfRepeats(k - 1, req);
    }
  }

  /** The tape repeats the last plan for ever; with one scripted plan it is that plan every time. */
  lemma PlanTapeIs(script: Script, key: string, k: nat)
    requires ScriptOk(script) && key in script.plans
    ensures PlanTape(script, key)(k) == Plans(AtOrLast(script.plans[key], k), 0.0008)
  {
    CountOfRepeats(k, Plan(Some(key)));
  }

  /** A goal whose only scripted plan starts with an unregistered tool, clock and cost permitting,
      aborts after exactly maxReplans + 1 replans and zero steps, having paid for every plan and for
      nothing else. */
  lemma {:induction false} ScriptedAbort(c: Config, db: Db, script: Script, key: string)
    requires ScriptOk(script) && key in script.plans && |script.plans[key]| == 1
    requires c.world.plan == PlanTape(script, key) && forall k: nat :: !c.world.late(k)
    requires var plan := script.plans[key][0]; plan != [] && plan[0].toolHint !in c.reg
    requires c.budget.maxReplans >= 0 && c.budget.maxSteps > 0
    requires (c.budget.maxReplans + 1) as real * PLAN_COST <= c.budget.maxCostUsd
    ensures var end := Run(c, Start(db));
      var hint := script.plans[key][0][0].toolHint;
      && end.loc == Exit(Abort(MaxReplansExceededAfter(FailureReason(NoToolForSubtask, Some(hint)))))
      && end.replans == c.budget.maxReplans + 1 && end.steps == 0
      && end.costUsd == (c.budget.maxReplans + 1) as real * PLAN_COST
      && end.db.calls == db.calls && |end.db.replans| == |db.replans| + c.budget.maxReplans + 1
  {
    forall k: nat
      ensures c.world.plan(k) == Plans(script.plans[key][0], PLAN_COST)
    {
      PlanTapeIs(script, key, k);
    }
    FlatAbort(c, db, script.plans[key][0]);
  }
}
