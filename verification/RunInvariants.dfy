/** What every step of the sequential loop keeps, field by field, on a goal that starts untouched. */
module RunInvariants {
  import opened Values
  import opened Records
  import opened RunSpec
  import opened RunFacts

  // ---------------------------------------------------------------------------------------------
  // The plans received so far
  // ---------------------------------------------------------------------------------------------

  function SubsOf(reply: PlanReply): seq<PlannedSubtask> {
    if reply.Plans? then reply.subtasks else []
  }

  /** The subtasks of the first m plans, in order. */
  ghost function PlansUpTo(w: World, m: nat): seq<PlannedSubtask> {
    if m == 0 then [] else PlansUpTo(w, m - 1) + SubsOf(w.plan(m - 1))
  }

  /** Where the rows of plan number m start. */
  ghost function Base(w: World, m: nat): nat {
    |PlansUpTo(w, m)|
  }

  lemma {:induction false} BaseGrows(w: World, k: nat, m: nat)
    requires k <= m
    ensures Base(w, k) <= Base(w, m)
    decreases m
  {
    if k < m {
      BaseGrows(w, k, m - 1);
    }
  }

  // ---------------------------------------------------------------------------------------------
  // Location and counters
  // ---------------------------------------------------------------------------------------------

  /** Plan number k is requested when exactly k replans have happened, and no plan is walked once
      the replans are used up. */
  ghost predicate LocInv(c: Config, s: RunState) {
    && s.replans >= 0
    && match s.loc
       case Top => s.persisted == s.planned == s.replans
       case InPlan(subs, base, next) =>
         && s.persisted == s.planned == s.replans + 1
         && s.replans <= c.budget.maxReplans
         && c.world.plan(s.replans).Plans? && subs == c.world.plan(s.replans).subtasks
         && base == Base(c.world, s.replans)
         && next <= |subs|
       case Exit(_) =>
         && s.replans <= s.persisted <= s.replans + 1
         && s.persisted <= s.planned <= s.persisted + 1
  }

  lemma StepKeepsLoc(c: Config, s: RunState, s': RunState)
    requires LocInv(c, s) && |s.db.subtasks| == Base(c.world, s.persisted)
    requires IsClose(s, s') || IsOpen(c, s, s') || IsAttempt(c, s, s')
    requires !s.loc.Exit?
    ensures LocInv(c, s')
  {
  }

  // ---------------------------------------------------------------------------------------------
  // Rows follow the plans
  // ---------------------------------------------------------------------------------------------

  /** The rows are the subtasks of the persisted plans in order, numbered 0, 1, 2, ... */
  ghost predicate FollowsPlans(w: World, m: nat, rows: seq<SubtaskRow>) {
    && |rows| == Base(w, m)
    && forall j :: 0 <= j < |rows| ==>
         && rows[j].idx == j
         && rows[j].description == PlansUpTo(w, m)[j].description
         && rows[j].confidenceThreshold == PlansUpTo(w, m)[j].confidenceThreshold
  }

  lemma OpenKeepsFollows(w: World, m: nat, rows: seq<SubtaskRow>)
    requires FollowsPlans(w, m, rows)
    ensures FollowsPlans(w, m + 1, rows + NewRows(SubsOf(w.plan(m)), |rows|, false))
  {
    var subs := SubsOf(w.plan(m));
    var rows' := rows + NewRows(subs, |rows|, false);
    forall j | 0 <= j < |rows'|
      ensures rows'[j].idx == j
      ensures rows'[j].description == PlansUpTo(w, m + 1)[j].description
      ensures rows'[j].confidenceThreshold == PlansUpTo(w, m + 1)[j].confidenceThreshold
    {
      if j >= |rows| {
        assert rows'[j] == NewRows(subs, |rows|, false)[j - |rows|];
        assert PlansUpTo(w, m + 1)[j] == subs[j - |rows|];
      }
    }
  }

  lemma AttemptKeepsFollows(w: World, m: nat, rows: seq<SubtaskRow>, r: nat, o: Observation)
    requires FollowsPlans(w, m, rows) && r < |rows|
    ensures FollowsPlans(w, m, RowsAfter(rows, r, o))
  {
  }

  lemma StepKeepsFollows(c: Config, s: RunState, s': RunState)
    requires FollowsPlans(c.world, s.persisted, s.db.subtasks) && LocInv(c, s)
    requires IsClose(s, s') || IsOpen(c, s, s') || IsAttempt(c, s, s')
    ensures FollowsPlans(c.world, s'.persisted, s'.db.subtasks)
  {
    if IsOpen(c, s, s') {
      OpenKeepsFollows(c.world, s.persisted, s.db.subtasks);
    } else if IsAttempt(c, s, s') {
      AttemptKeepsFollows(c.world, s.persisted, s.db.subtasks, s.loc.base + s.loc.next, Seen(c, s));
    }
  }

  // ---------------------------------------------------------------------------------------------
  // The shape of a plan's block of rows
  // ---------------------------------------------------------------------------------------------

  /** DONE up to mid, PENDING from there. */
  ghost predicate OpenSpan(rows: seq<SubtaskRow>, lo: nat, mid: nat, hi: nat) {
    && lo <= mid <= hi <= |rows|
    && (forall j :: lo <= j < mid ==> rows[j].status == Done)
    && (forall j :: mid <= j < hi ==> rows[j].status == Pending)
  }

  /** DONE up to f, FAILED at f, PENDING after it. */
  ghost predicate FailedSpan(rows: seq<SubtaskRow>, lo: nat, f: nat, hi: nat) {
    && lo <= f < hi <= |rows|
    && (forall j :: lo <= j < f ==> rows[j].status == Done)
    && rows[f].status == Failed
    && (forall j :: f < j < hi ==> rows[j].status == Pending)
  }

  ghost predicate IsOpenSpan(rows: seq<SubtaskRow>, lo: nat, hi: nat) {
    exists mid: nat :: OpenSpan(rows, lo, mid, hi)
  }

  ghost predicate IsFailedSpan(rows: seq<SubtaskRow>, lo: nat, hi: nat) {
    exists f: nat :: FailedSpan(rows, lo, f, hi)
  }

  /** The block of every one of the first n plans has exactly one FAILED row, with DONE rows before
      it and PENDING rows after it. */
  ghost predicate Superseded(w: World, rows: seq<SubtaskRow>, n: int) {
    forall k: nat :: k < n ==> IsFailedSpan(rows, Base(w, k), Base(w, k + 1))
  }

  ghost predicate ShapeInv(c: Config, s: RunState) {
    && Superseded(c.world, s.db.subtasks, s.replans)
    && match s.loc
       case Top => true
       case InPlan(subs, base, next) => OpenSpan(s.db.subtasks, base, base + next, base + |subs|)
       case Exit(_) =>
         s.persisted == s.replans + 1 && s.persisted > 0 ==>
           IsOpenSpan(s.db.subtasks, Base(c.world, s.persisted - 1), Base(c.world, s.persisted))
  }

  lemma SupersededFrame(w: World, rows: seq<SubtaskRow>, rows': seq<SubtaskRow>, n: nat)
    requires Superseded(w, rows, n)
    requires |rows| <= |rows'| && forall j :: 0 <= j < Base(w, n) && j < |rows| ==> rows'[j] == rows[j]
    ensures Superseded(w, rows', n)
  {
    forall k: nat | k < n
      ensures IsFailedSpan(rows', Base(w, k), Base(w, k + 1))
    {
      BaseGrows(w, k + 1, n);
      var f: nat :| FailedSpan(rows, Base(w, k), f, Base(w, k + 1));
      assert FailedSpan(rows', Base(w, k), f, Base(w, k + 1));
    }
  }

  lemma OpenKeepsShape(c: Config, s: RunState, s': RunState)
    requires ShapeInv(c, s) && LocInv(c, s) && IsOpen(c, s, s')
    ensures ShapeInv(c, s')
  {
    SupersededFrame(c.world, s.db.subtasks, s'.db.subtasks, s.replans);
  }

  lemma CloseKeepsShape(c: Config, s: RunState, s': RunState)
    requires ShapeInv(c, s) && LocInv(c, s) && IsClose(s, s') && !s.loc.Exit?
    ensures ShapeInv(c, s')
  {
    if s.loc.InPlan? {
      assert OpenSpan(s'.db.subtasks, Base(c.world, s.replans), s.loc.base + s.loc.next, Base(c.world, s.replans + 1));
    }
  }

  lemma FailKeepsShape(w: World, rows: seq<SubtaskRow>, n: nat, r: nat, o: Observation)
    requires Superseded(w, rows, n) && Fails(o)
    requires OpenSpan(rows, Base(w, n), r, Base(w, n + 1)) && r < Base(w, n + 1)
    ensures Superseded(w, RowsAfter(rows, r, o), n + 1)
  {
    var rows' := RowsAfter(rows, r, o);
    SupersededFrame(w, rows, rows', n);
    assert FailedSpan(rows', Base(w, n), r, Base(w, n + 1));
  }

  lemma PassKeepsShape(w: World, rows: seq<SubtaskRow>, n: nat, r: nat, o: Observation)
    requires Superseded(w, rows, n) && o.Passes?
    requires OpenSpan(rows, Base(w, n), r, Base(w, n + 1)) && r < Base(w, n + 1)
    ensures Superseded(w, RowsAfter(rows, r, o), n)
    ensures OpenSpan(RowsAfter(rows, r, o), Base(w, n), r + 1, Base(w, n + 1))
  {
    SupersededFrame(w, rows, RowsAfter(rows, r, o), n);
  }

  lemma AttemptKeepsShape(c: Config, s: RunState, s': RunState)
    requires ShapeInv(c, s) && LocInv(c, s) && IsAttempt(c, s, s')
    ensures ShapeInv(c, s')
  {
    var r := s.loc.base + s.loc.next;
    var o := Seen(c, s);
    assert s.loc.base + |s.loc.subs| == Base(c.world, s.replans + 1);
    if Fails(o) {
      FailKeepsShape(c.world, s.db.subtasks, s.replans, r, o);
    } else if o.Passes? {
      PassKeepsShape(c.world, s.db.subtasks, s.replans, r, o);
    }
  }
}
