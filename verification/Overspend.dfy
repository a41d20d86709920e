/** How far a sequential run can overspend its cost cap, and that it can go that far. */
module Overspend {
  import opened Values
  import opened Tools
  import opened Selector
  import opened Attempt
  import opened Records
  import opened RunSpec
  import opened RunFacts
  import opened RunTheorems

  /** Every planner charge is between 0 and p, every selector charge between 0 and q. */
  ghost predicate ChargesWithin(w: World, p: real, q: real) {
    && 0.0 <= p && 0.0 <= q
    && (forall k: nat :: w.plan(k).Plans? ==> 0.0 <= w.plan(k).costUsd <= p)
    && (forall k: nat :: 0.0 <= w.around(k).reply.costUsd <= q)
  }

  ghost predicate OverspendInv(b: Budget, p: real, q: real, s: RunState) {
    match s.loc
    case Top => s.costUsd <= b.maxCostUsd + q
    case InPlan(_, _, _) => s.costUsd <= b.maxCostUsd + q
    case Exit(Success(_)) => s.costUsd <= b.maxCostUsd + q
    case Exit(_) => s.costUsd <= b.maxCostUsd + q + p
  }

  lemma StepKeepsOverspend(c: Config, p: real, q: real, s: RunState)
    requires ChargesWithin(c.world, p, q) && Placed(s) && OverspendInv(c.budget, p, q, s)
    ensures OverspendInv(c.budget, p, q, Step(c, s))
  {
    if !s.loc.Exit? {
      StepKind(c, s);
      assert IsAttempt(c, s, Step(c, s)) ==> SelectorCharge(c, |s.asked|, s.loc.subs[s.loc.next].toolHint) <= q;
    }
  }

  lemma {:induction false} EveryStateWithinOverspend(c: Config, p: real, q: real, db: Db, n: nat)
    requires ChargesWithin(c.world, p, q) && 0.0 <= c.budget.maxCostUsd
    ensures OverspendInv(c.budget, p, q, StateAt(c, Start(db), n))
  {
    forall t: RunState | OverspendInv(c.budget, p, q, t) && Placed(t)
      ensures OverspendInv(c.budget, p, q, Step(c, t))
    {
      StepKeepsOverspend(c, p, q, t);
    }
    KeptByEveryStep(c, Start(db), n, t => OverspendInv(c.budget, p, q, t));
  }

  /** Overspend bound: the total cost exceeds the cap by at most one selector charge plus one
      planner charge, and in a succeeded run by at most one selector charge. */
  lemma OverspendBound(c: Config, p: real, q: real, db: Db)
    requires ChargesWithin(c.world, p, q) && 0.0 <= c.budget.maxCostUsd
    ensures var s := Run(c, Start(db));
      && s.costUsd <= c.budget.maxCostUsd + q + p
      && (s.loc.ending.Success? ==> s.costUsd <= c.budget.maxCostUsd + q)
  {
    var n := RunIsAState(c, Start(db), 0);
    EveryStateWithinOverspend(c, p, q, db, n);
  }

  // ---------------------------------------------------------------------------------------------
  // The bounds are tight
  // ---------------------------------------------------------------------------------------------

  /** One subtask per plan; every plan costs p, which is also the cap; every selector answer costs q. */
  function Spender(p: real, q: real, calls: seq<ToolRequest>): Config {
    var finish := Tool("finish", _ => true, o => FinalString(o).Some?, 1000);
    var plan := [PlannedSubtask("d", "finish", 0.0, None, false, [])];
    var around := Surroundings(ChatReply(calls, q), (_, _) => Output(map["final" := Str("x")], 0));
    Config(Budget(1, 1, p), map["finish" := finish],
           World((_: nat) => false, (_: nat) => Plans(plan, p), (_: nat) => around), _ => "")
  }

  lemma SpenderIsWithin(p: real, q: real, calls: seq<ToolRequest>)
    requires 0.0 <= p && 0.0 <= q
    ensures ChargesWithin(Spender(p, q, calls).world, p, q) && RegistryOk(Spender(p, q, calls).reg)
  {
  }

  /** When the selector's answer names no tool, the next plan is paid for before the cap is checked. */
  lemma AbortBoundIsReached(p: real, q: real, db: Db)
    requires 0.0 <= p && 0.0 <= q && p + q > 0.0
    ensures var c := Spender(p, q, []);
      && ChargesWithin(c.world, p, q) && RegistryOk(c.reg) && 0.0 <= c.budget.maxCostUsd
      && Run(c, Start(db)).loc == Exit(Abort(MaxCostExceeded))
        && Run(c, Start(db)).costUsd == c.budget.maxCostUsd + q + p
  {
    var c := Spender(p, q, []);
    SpenderIsWithin(p, q, []);
    var s1 := Step(c, Start(db));
    assert s1.loc.InPlan? && s1.costUsd == p;
    var s2 := Step(c, s1);
    assert s2.loc.Top? && s2.costUsd == p + q;
    var s3 := Step(c, s2);
    assert s3.loc == Exit(Abort(MaxCostExceeded)) && s3.costUsd == p + q + p;
    assert Run(c, Start(db)) == Run(c, s1) == Run(c, s2) == Run(c, s3) == s3;
  }

  /** A `finish` picked at the cap overshoots by the selector's answer. */
  lemma SuccessBoundIsReached(p: real, q: real, db: Db)
    requires 0.0 <= p && 0.0 <= q
    ensures var c := Spender(p, q, [ToolRequest("finish", map[])]);
      && ChargesWithin(c.world, p, q) && RegistryOk(c.reg) && 0.0 <= c.budget.maxCostUsd
      && Run(c, Start(db)).loc == Exit(Success("x")) && Run(c, Start(db)).costUsd == c.budget.maxCostUsd + q
  {
    var c := Spender(p, q, [ToolRequest("finish", map[])]);
    SpenderIsWithin(p, q, [ToolRequest("finish", map[])]);
    var s1 := Step(c, Start(db));
    assert s1.loc.InPlan? && s1.costUsd == p;
    var s2 := Step(c, s1);
    assert s2.loc == Exit(Success("x")) && s2.costUsd == p + q;
    assert Run(c, Start(db)) == Run(c, s1) == Run(c, s2) == s2;
  }
}
