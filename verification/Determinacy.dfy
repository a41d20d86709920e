/** What the dependency graph decides before anything runs: which failures a run can report, when the
    reported failure is the same in every run, and when what completed is always a prefix. */
module Determinacy {
  import opened Values
  import opened Dag
  import opened Scheduler
  import opened SchedulerTheorems

  /** Subtask i waits for d, directly or through others. */
  ghost predicate DependsOn(deps: Deps, i: nat, d: nat)
    requires Backward(deps)
    decreases i
  {
    i < |deps| && exists m: nat :: m in deps[i] && (m == d || DependsOn(deps, m, d))
  }

  lemma {:induction false} DependenciesAreEarlier(deps: Deps, i: nat, d: nat)
    requires Backward(deps) && DependsOn(deps, i, d)
    ensures d < i < |deps|
    decreases i
  {
    var m: nat :| m in deps[i] && (m == d || DependsOn(deps, m, d));
    if m != d {
      DependenciesAreEarlier(deps, m, d);
    }
  }

  /** The dependencies of a dependency are dependencies. */
  lemma {:induction false} DependsThrough(deps: Deps, i: nat, m: nat, d: nat)
    requires Backward(deps) && DependsOn(deps, i, m) && m < |deps| && d in deps[m]
    ensures DependsOn(deps, i, d)
    decreases i
  {
    var n: nat :| n in deps[i] && (n == m || DependsOn(deps, n, m));
    if n != m {
      DependsThrough(deps, n, m, d);
    } else {
      assert DependsOn(deps, m, d) by {
        assert d in deps[m] && d == d;
      }
    }
  }

  // ---------------------------------------------------------------------------------------------
  // What launching says about everything a subtask waits for
  // ---------------------------------------------------------------------------------------------

  lemma {:induction false} LaunchedAfterAll(p: Problem, s: State, i: nat, d: nat)
    requires Backward(p.deps) && LaunchedAfterDeps(p, s) && s.completed <= s.scheduled
    requires i in s.scheduled && DependsOn(p.deps, i, d)
    ensures d in s.completed && d < |p.ok| && p.ok[d]
    decreases i
  {
    var m: nat :| m in p.deps[i] && (m == d || DependsOn(p.deps, m, d));
    assert m in s.completed;
    if m != d {
      LaunchedAfterAll(p, s, m, d);
    }
  }

  /** In a run, everything a launched subtask waits for has completed ok. */
  lemma LaunchedNeedsAreDone(p: Problem, es: seq<Event>, i: nat, d: nat)
    requires WellFormed(p) && IsRun(p, es) && i in After(p, es).scheduled && DependsOn(p.deps, i, d)
    ensures d in After(p, es).completed && d < |p.ok| && p.ok[d]
  {
    RunKeepsInv(p, es);
    LaunchedAfterAll(p, After(p, es), i, d);
  }

  /** What an event reports was launched before it. */
  lemma ReportedWasLaunched(p: Problem, es: seq<Event>, i: nat)
    requires WellFormed(p) && es != [] && IsRun(p, es) && i in After(p, es).completed
    ensures i in After(p, es[..|es| - 1]).scheduled
  {
    RunKeepsInv(p, es[..|es| - 1]);
  }

  // ---------------------------------------------------------------------------------------------
  // Runs that take one body at a time
  // ---------------------------------------------------------------------------------------------

  /** At the head of the loop with no failure seen, nothing running and nothing waiting to be
      reported. */
  ghost predicate Quiet(p: Problem, es: seq<Event>) {
    && IsRun(p, es)
    && After(p, es).mode.LoopHead?
    && After(p, es).running == {} && After(p, es).finished == {}
  }

  lemma StartIsQuiet(p: Problem)
    ensures Quiet(p, []) && After(p, []).completed == {}
  {
  }

  /** The next subtask whose dependencies are done is launched, if it is not yet, takes a permit and
      finishes; the others stay queued. */
  lemma FinishNext(p: Problem, es: seq<Event>, i: nat) returns (es': seq<Event>)
    requires WellFormed(p) && Quiet(p, es) && i < |p.deps|
    requires i !in After(p, es).completed && p.deps[i] <= After(p, es).completed
    ensures IsRun(p, es') && After(p, es').mode.Waiting? && After(p, es').failure.None?
    ensures After(p, es').running == {} && After(p, es').finished == {i}
    ensures After(p, es').completed == After(p, es).completed
  {
    RunKeepsInv(p, es);
    var s := After(p, es);
    LaunchQueues(p, s, i);
    RunExtends(p, es, Launch);
    es' := es + [Launch];
    RunExtends(p, es', Acquire(i));
    es' := es' + [Acquire(i)];
    assert After(p, es').running == {i};
    RunExtends(p, es', Finish(i));
    es' := es' + [Finish(i)];
  }

  lemma LaunchQueues(p: Problem, s: State, i: nat)
    requires Inv(p, s) && WellFormed(p) && s.mode.LoopHead? && s.running == {} && s.finished == {}
    requires i < |p.deps| && i !in s.completed && p.deps[i] <= s.completed
    ensures var s' := ApplyLaunch(p, s);
      && s'.mode.Waiting? && i in s'.queued && s'.permits > 0 && s'.failure.None?
      && s'.running == {} && s'.finished == {} && s'.completed == s.completed
  {
    if i !in s.scheduled {
      assert i in Ready(p.deps, s.completed, s.scheduled);
    } else {
      assert i in s.inFlight;
    }
  }

  /** A finished ok body, reported alone, brings the run back to a quiet loop head. */
  lemma ReportOk(p: Problem, es: seq<Event>, i: nat) returns (es': seq<Event>)
    requires IsRun(p, es) && After(p, es).mode.Waiting? && After(p, es).failure.None?
    requires After(p, es).running == {} && After(p, es).finished == {i} && i < |p.ok| && p.ok[i]
    ensures es' == es + [Wake({i}, None)]
    ensures Quiet(p, es') && After(p, es').completed == After(p, es).completed + {i}
  {
    RunExtends(p, es, Wake({i}, None));
    es' := es + [Wake({i}, None)];
  }

  lemma ReportFailure(p: Problem, es: seq<Event>, f: nat) returns (es': seq<Event>)
    requires IsRun(p, es) && After(p, es).mode.Waiting? && After(p, es).failure.None?
    requires After(p, es).finished == {f} && f < |p.ok| && !p.ok[f]
    ensures IsRun(p, es') && After(p, es').failure == Some(f)
    ensures After(p, es').scheduled == After(p, es).scheduled
  {
    RunExtends(p, es, Wake({f}, Some(f)));
    es' := es + [Wake({f}, Some(f))];
  }

  /** Everything x waits for is ok. */
  ghost predicate NeedsOnlyOk(p: Problem, x: nat)
    requires Backward(p.deps)
  {
    forall a: nat :: DependsOn(p.deps, x, a) ==> a < |p.ok| && p.ok[a]
  }

  /** The completed subtasks are those among the first k that x waits for. */
  ghost predicate NeedsDone(p: Problem, es: seq<Event>, x: nat, k: nat)
    requires Backward(p.deps)
  {
    forall a: nat :: a in After(p, es).completed <==> a < k && DependsOn(p.deps, x, a)
  }

  /** A run that completes exactly the first k subtasks x waits for, one after the other. */
  lemma {:induction false} CompleteNeeds(p: Problem, x: nat, k: nat) returns (es: seq<Event>)
    requires WellFormed(p) && x < |p.deps| && k <= x && NeedsOnlyOk(p, x)
    ensures Quiet(p, es) && NeedsDone(p, es, x, k)
  {
    if k == 0 {
      es := [];
      StartIsQuiet(p);
    } else {
      es := CompleteNeeds(p, x, k - 1);
      if DependsOn(p.deps, x, k - 1) {
        forall d: nat | d in p.deps[k - 1]
          ensures d in After(p, es).completed
        {
          DependsThrough(p.deps, x, k - 1, d);
        }
        es := FinishNext(p, es, k - 1);
        es := ReportOk(p, es, k - 1);
      }
    }
  }

  /** A run that brings x itself to finish, before anything but its needs completed. */
  lemma FinishAfterNeeds(p: Problem, x: nat) returns (es: seq<Event>)
    requires WellFormed(p) && x < |p.deps| && NeedsOnlyOk(p, x)
    ensures IsRun(p, es) && After(p, es).mode.Waiting? && After(p, es).failure.None?
    ensures After(p, es).running == {} && After(p, es).finished == {x}
    ensures forall a :: a in After(p, es).completed ==> DependsOn(p.deps, x, a)
  {
    es := CompleteNeeds(p, x, x);
    forall d: nat | d in p.deps[x]
      ensures d in After(p, es).completed
    {
      assert DependsOn(p.deps, x, d) by {
        assert d in p.deps[x] && d == d;
      }
    }
    es := FinishNext(p, es, x);
  }

  /** What is scheduled when f is includes everything that waits for no more than f does. */
  ghost predicate NoLaterThan(deps: Deps, e: nat, f: nat)
    requires Backward(deps)
  {
    e < |deps| && forall d: nat :: d in deps[e] ==> DependsOn(deps, f, d)
  }

  lemma ReadyTogether(p: Problem, s: State, e: nat, f: nat)
    requires WellFormed(p) && Inv(p, s) && NoLaterThan(p.deps, e, f) && f in Ready(p.deps, s.completed, s.scheduled)
    ensures e in s.scheduled || e in Ready(p.deps, s.completed, s.scheduled)
  {
    forall d: nat | d in p.deps[e]
      ensures d in s.completed
    {
      var m: nat :| m in p.deps[f] && (m == d || DependsOn(p.deps, m, d));
      if m != d {
        LaunchedAfterAll(p, s, m, d);
      }
    }
  }

  /** Whoever waits for no more than f does is launched no later than f. */
  lemma {:induction false} LaunchedNoLater(p: Problem, es: seq<Event>, e: nat, f: nat)
    requires WellFormed(p) && IsRun(p, es) && NoLaterThan(p.deps, e, f) && f in After(p, es).scheduled
    ensures e in After(p, es).scheduled
  {
    if es != [] {
      var before := es[..|es| - 1];
      RunKeepsInv(p, before);
      if f in After(p, before).scheduled {
        LaunchedNoLater(p, before, e, f);
      } else {
        ReadyTogether(p, After(p, before), e, f);
      }
    }
  }

  /** Once a failure is seen, `scheduled` is final. */
  lemma {:induction false} ScheduledIsFinal(p: Problem, es: seq<Event>, j: nat, k: nat)
    requires WellFormed(p) && IsRun(p, es) && j <= k <= |es| && After(p, es[..j]).failure.Some?
    ensures After(p, es[..k]).scheduled == After(p, es[..j]).scheduled
    decreases k
  {
    if j < k {
      ScheduledIsFinal(p, es, j, k - 1);
      OnlyGrows(p, es, j, k - 1);
      PrefixIsRun(p, es, k - 1);
      RunKeepsInv(p, es[..k - 1]);
    }
  }

  /** A failure reported alone ends the run with what was launched by then. */
  lemma ReturnOnFailure(p: Problem, ready: seq<Event>, f: nat) returns (es: seq<Event>)
    requires WellFormed(p) && IsRun(p, ready) && After(p, ready).mode.Waiting? && After(p, ready).failure.None?
    requires After(p, ready).finished == {f} && f < |p.ok| && !p.ok[f]
    ensures IsRun(p, es) && After(p, es).mode.Returned?
    ensures After(p, es).completed <= After(p, ready).scheduled
  {
    var seen := ReportFailure(p, ready, f);
    es := EveryRunCanReturn(p, seen);
    assert es[..|seen|] == seen && es[..|es|] == es;
    ScheduledIsFinal(p, es, |seen|, |es|);
    ReturnVerdict(p, es);
  }

  // ---------------------------------------------------------------------------------------------
  // Which failures can be reported
  // ---------------------------------------------------------------------------------------------

  ghost predicate Reports(p: Problem, es: seq<Event>, f: nat) {
    IsRun(p, es) && After(p, es).mode.Returned? && After(p, es).failure == Some(f)
  }

  /** f fails although everything it waits for is ok. */
  ghost predicate FailsFirst(p: Problem, f: nat)
    requires Backward(p.deps)
  {
    f < |p.ok| && !p.ok[f] && NeedsOnlyOk(p, f)
  }

  lemma ReportedFailsFirst(p: Problem, es: seq<Event>, f: nat)
    requires WellFormed(p) && Reports(p, es, f)
    ensures FailsFirst(p, f)
  {
    RunKeepsInv(p, es);
    forall a: nat | DependsOn(p.deps, f, a)
      ensures a < |p.ok| && p.ok[a]
    {
      LaunchedNeedsAreDone(p, es, f, a);
    }
  }

  lemma FailsFirstIsReported(p: Problem, f: nat) returns (es: seq<Event>)
    requires WellFormed(p) && FailsFirst(p, f)
    ensures Reports(p, es, f)
  {
    var seen := FinishAfterNeeds(p, f);
    seen := ReportFailure(p, seen, f);
    es := EveryRunCanReturn(p, seen);
    OnlyGrows(p, es, |seen|, |es|);
    assert es[..|seen|] == seen && es[..|es|] == es;
  }

  /** Some run reports the failure of f if and only if f fails and everything it waits for, directly
      or through others, is ok. */
  lemma {:induction false} ReportableIffFailsFirst(p: Problem, f: nat)
    requires WellFormed(p)
    ensures (exists es: seq<Event> :: Reports(p, es, f)) <==> FailsFirst(p, f)
  {
    if FailsFirst(p, f) {
      var es := FailsFirstIsReported(p, f);
    }
    if es: seq<Event> :| Reports(p, es, f) {
      ReportedFailsFirst(p, es, f);
    }
  }

  // ---------------------------------------------------------------------------------------------
  // When the reported failure does not depend on the run
  // ---------------------------------------------------------------------------------------------

  /** Each subtask waits for the one before it. */
  ghost predicate Consecutive(deps: Deps) {
    forall i: nat :: 0 < i < |deps| ==> i - 1 in deps[i]
  }

  ghost predicate BothReturn(p: Problem, es: seq<Event>, q: Problem, fs: seq<Event>) {
    && IsRun(p, es) && After(p, es).mode.Returned?
    && IsRun(q, fs) && After(q, fs).mode.Returned?
  }

  /** Whatever the outcomes, any two returned runs under these caps report the same failure. */
  ghost predicate FailureDetermined(deps: Deps, cap: nat, cap': nat) {
    forall ok: seq<bool>, es: seq<Event>, fs: seq<Event> ::
      |ok| == |deps| && BothReturn(Problem(deps, ok, cap), es, Problem(deps, ok, cap'), fs) ==>
        After(Problem(deps, ok, cap), es).failure == After(Problem(deps, ok, cap'), fs).failure
  }

  lemma {:induction false} ConsecutiveDependsOnAll(deps: Deps, i: nat, d: nat)
    requires Backward(deps) && Consecutive(deps) && d < i < |deps|
    ensures DependsOn(deps, i, d)
    decreases i
  {
    assert i - 1 in deps[i];
    if d < i - 1 {
      ConsecutiveDependsOnAll(deps, i - 1, d);
    }
  }

  lemma ConsecutiveReportsOne(p: Problem, f: nat, g: nat)
    requires WellFormed(p) && Consecutive(p.deps) && FailsFirst(p, f) && FailsFirst(p, g)
    ensures f == g
  {
    if f < g {
      ConsecutiveDependsOnAll(p.deps, g, f);
    } else if g < f {
      ConsecutiveDependsOnAll(p.deps, f, g);
    }
  }

  lemma ConsecutiveDetermines(p: Problem, es: seq<Event>, q: Problem, fs: seq<Event>)
    requires WellFormed(p) && WellFormed(q) && p.deps == q.deps && p.ok == q.ok
    requires Consecutive(p.deps) && BothReturn(p, es, q, fs)
    ensures After(p, es).failure == After(q, fs).failure
  {
    Confluence(p, es, q, fs);
    RunKeepsInv(p, es);
    RunKeepsInv(q, fs);
    if After(p, es).failure.Some? {
      ReportedFailsFirst(p, es, After(p, es).failure.value);
      ReportedFailsFirst(q, fs, After(q, fs).failure.value);
      SameNeeds(p, q, After(q, fs).failure.value);
      ConsecutiveReportsOne(p, After(p, es).failure.value, After(q, fs).failure.value);
    }
  }

  lemma SameNeeds(p: Problem, q: Problem, f: nat)
    requires Backward(p.deps) && p.deps == q.deps && p.ok == q.ok && FailsFirst(q, f)
    ensures FailsFirst(p, f)
  {
  }

  /** All ok except two neighbours that are independent of each other. */
  function TwoFail(n: nat, i: nat): (ok: seq<bool>)
    ensures |ok| == n
    ensures forall k :: 0 <= k < n ==> (ok[k] <==> k != i && k + 1 != i)
  {
    seq(n, k => k != i && k + 1 != i)
  }

  lemma NeighboursFailFirst(p: Problem, i: nat)
    requires WellFormed(p) && 0 < i < |p.deps| && i - 1 !in p.deps[i] && p.ok == TwoFail(|p.deps|, i)
    ensures FailsFirst(p, i) && FailsFirst(p, i - 1)
  {
    forall a: nat | DependsOn(p.deps, i - 1, a)
      ensures a < |p.ok| && p.ok[a]
    {
      DependenciesAreEarlier(p.deps, i - 1, a);
    }
    forall a: nat | DependsOn(p.deps, i, a)
      ensures a < |p.ok| && p.ok[a]
    {
      DependenciesAreEarlier(p.deps, i, a);
      var m: nat :| m in p.deps[i] && (m == a || DependsOn(p.deps, m, a));
      if m != a {
        DependenciesAreEarlier(p.deps, m, a);
      }
    }
  }

  lemma IndependentNeighboursDiffer(deps: Deps, i: nat, cap: nat, cap': nat)
    returns (ok: seq<bool>, es: seq<Event>, fs: seq<Event>)
    requires Backward(deps) && cap >= 1 && cap' >= 1 && 0 < i < |deps| && i - 1 !in deps[i]
    ensures ok == TwoFail(|deps|, i)
    ensures BothReturn(Problem(deps, ok, cap), es, Problem(deps, ok, cap'), fs)
    ensures After(Problem(deps, ok, cap), es).failure == Some(i)
    ensures After(Problem(deps, ok, cap'), fs).failure == Some(i - 1)
  {
    ok := TwoFail(|deps|, i);
    NeighboursFailFirst(Problem(deps, ok, cap), i);
    NeighboursFailFirst(Problem(deps, ok, cap'), i);
    es := FailsFirstIsReported(Problem(deps, ok, cap), i);
    fs := FailsFirstIsReported(Problem(deps, ok, cap'), i - 1);
  }

  /** The reported failure is the same in all returned runs, for every outcome vector and under any
      two caps, if and only if each subtask waits for the one before it. */
  lemma {:induction false} DeterminedIffConsecutive(deps: Deps, cap: nat, cap': nat)
    requires Backward(deps) && cap >= 1 && cap' >= 1
    ensures FailureDetermined(deps, cap, cap') <==> Consecutive(deps)
  {
    if Consecutive(deps) {
      forall ok: seq<bool>, es: seq<Event>, fs: seq<Event> |
        |ok| == |deps| && BothReturn(Problem(deps, ok, cap), es, Problem(deps, ok, cap'), fs)
        ensures After(Problem(deps, ok, cap), es).failure == After(Problem(deps, ok, cap'), fs).failure
      {
        ConsecutiveDetermines(Problem(deps, ok, cap), es, Problem(deps, ok, cap'), fs);
      }
    } else {
      var i: nat :| 0 < i < |deps| && i - 1 !in deps[i];
      var ok, es, fs := IndependentNeighboursDiffer(deps, i, cap, cap');
    }
  }

  // ---------------------------------------------------------------------------------------------
  // When what completed is always a prefix
  // ---------------------------------------------------------------------------------------------

  ghost predicate IsPrefix(done: set<nat>) {
    exists k: nat :: done == Range(k)
  }

  /** Whatever an earlier subtask waits for directly, every later one waits for too. */
  ghost predicate Nested(deps: Deps)
    requires Backward(deps)
  {
    forall i: nat, j: nat, d: nat {:trigger DependsOn(deps, i, d), deps[j]} ::
      j < i < |deps| && d in deps[j] ==> DependsOn(deps, i, d)
  }

  /** Whatever the outcomes, what completed in a returned run under this cap has no gap. */
  ghost predicate GapFree(deps: Deps, cap: nat) {
    forall ok: seq<bool>, es: seq<Event> ::
      |ok| == |deps| && IsRun(Problem(deps, ok, cap), es) && After(Problem(deps, ok, cap), es).mode.Returned? ==>
        IsPrefix(After(Problem(deps, ok, cap), es).completed)
  }

  /** Whoever was scheduled, everyone before was. */
  ghost predicate NoGap(scheduled: set<nat>) {
    forall i: nat, j: nat :: i in scheduled && j < i ==> j in scheduled
  }

  lemma NestedReadyBefore(p: Problem, s: State, i: nat, j: nat)
    requires WellFormed(p) && Nested(p.deps) && LaunchedAfterDeps(p, s) && s.completed <= s.scheduled
    requires i in Ready(p.deps, s.completed, s.scheduled) && j < i && j !in s.scheduled
    ensures j in Ready(p.deps, s.completed, s.scheduled)
  {
    forall d: nat | d in p.deps[j]
      ensures d in s.completed
    {
      assert DependsOn(p.deps, i, d);
      var m: nat :| m in p.deps[i] && (m == d || DependsOn(p.deps, m, d));
      if m != d {
        LaunchedAfterAll(p, s, m, d);
      }
    }
  }

  lemma LaunchKeepsNoGap(p: Problem, s: State)
    requires WellFormed(p) && Nested(p.deps) && Inv(p, s) && NoGap(s.scheduled)
    ensures NoGap(ApplyLaunch(p, s).scheduled)
  {
    var s' := ApplyLaunch(p, s);
    forall i: nat, j: nat | i in s'.scheduled && j < i
      ensures j in s'.scheduled
    {
      if i !in s.scheduled && j !in s.scheduled {
        NestedReadyBefore(p, s, i, j);
      }
    }
  }

  lemma {:induction false} NestedRunsHaveNoGap(p: Problem, es: seq<Event>)
    requires WellFormed(p) && Nested(p.deps) && IsRun(p, es)
    ensures NoGap(After(p, es).scheduled)
  {
    if es != [] {
      var before := es[..|es| - 1];
      NestedRunsHaveNoGap(p, before);
      RunKeepsInv(p, before);
      if es[|es| - 1].Launch? {
        LaunchKeepsNoGap(p, After(p, before));
      }
    }
  }

  lemma GapHasLeast(done: set<nat>, n: nat) returns (j: nat, i: nat)
    requires done <= Range(n) && !IsPrefix(done)
    ensures Range(j) <= done && j !in done && j < i < n && i in done
  {
    assert done != Range(n);
    j := LeastMissing(n, done);
    assert done != Range(j);
    i :| i in done && i !in Range(j);
  }

  lemma NestedCompletesAPrefix(p: Problem, es: seq<Event>)
    requires WellFormed(p) && Nested(p.deps) && IsRun(p, es) && After(p, es).mode.Returned?
    ensures IsPrefix(After(p, es).completed)
  {
    NestedRunsHaveNoGap(p, es);
    RunKeepsInv(p, es);
    var done := After(p, es).completed;
    assert done == After(p, es).scheduled;
    if !IsPrefix(done) {
      var j, i := GapHasLeast(done, |p.deps|);
      assert false;
    }
  }

  /** When j waits for d and a later i does not, a failing d leaves a gap at j. */
  lemma UnnestedLeavesAGap(p: Problem, i: nat, j: nat, d: nat) returns (es: seq<Event>)
    requires WellFormed(p) && j < i < |p.deps| && d in p.deps[j] && !DependsOn(p.deps, i, d)
    requires forall k :: 0 <= k < |p.ok| ==> (p.ok[k] <==> k != d)
    ensures IsRun(p, es) && After(p, es).mode.Returned?
    ensures i in After(p, es).completed && j !in After(p, es).completed
  {
    forall a: nat | DependsOn(p.deps, i, a)
      ensures a < |p.ok| && p.ok[a]
    {
      DependenciesAreEarlier(p.deps, i, a);
    }
    var seen := FinishAfterNeeds(p, i);
    seen := ReportOk(p, seen, i);
    es := EveryRunCanReturn(p, seen);
    OnlyGrows(p, es, |seen|, |es|);
    assert es[..|seen|] == seen && es[..|es|] == es;
    RunKeepsInv(p, es);
    assert j !in After(p, es).scheduled;
  }

  /** All ok except one. */
  function OneFails(n: nat, d: nat): (ok: seq<bool>)
    ensures |ok| == n
    ensures forall k :: 0 <= k < n ==> (ok[k] <==> k != d)
  {
    seq(n, k => k != d)
  }

  lemma GapIsNoPrefix(done: set<nat>, i: nat, j: nat)
    requires j < i && i in done && j !in done
    ensures !IsPrefix(done)
  {
    forall k: nat
      ensures done != Range(k)
    {
      assert i in Range(k) ==> j in Range(k);
    }
  }

  lemma UnnestedIsNotGapFree(deps: Deps, cap: nat, i: nat, j: nat, d: nat) returns (ok: seq<bool>, es: seq<Event>)
    requires Backward(deps) && cap >= 1 && j < i < |deps| && d in deps[j] && !DependsOn(deps, i, d)
    ensures ok == OneFails(|deps|, d)
    ensures IsRun(Problem(deps, ok, cap), es) && After(Problem(deps, ok, cap), es).mode.Returned?
    ensures !IsPrefix(After(Problem(deps, ok, cap), es).completed)
  {
    ok := OneFails(|deps|, d);
    var p := Problem(deps, ok, cap);
    es := UnnestedLeavesAGap(p, i, j, d);
    GapIsNoPrefix(After(p, es).completed, i, j);
  }

  /** What completed is a prefix in all returned runs, for every outcome vector, if and only if
      whatever an earlier subtask waits for directly, every later one waits for too. */
  lemma {:induction false} GapFreeIffNested(deps: Deps, cap: nat)
    requires Backward(deps) && cap >= 1
    ensures GapFree(deps, cap) <==> Nested(deps)
  {
    if Nested(deps) {
      forall ok: seq<bool>, es: seq<Event> |
        |ok| == |deps| && IsRun(Problem(deps, ok, cap), es) && After(Problem(deps, ok, cap), es).mode.Returned?
        ensures IsPrefix(After(Problem(deps, ok, cap), es).completed)
      {
        NestedCompletesAPrefix(Problem(deps, ok, cap), es);
      }
    } else {
      var i: nat, j: nat, d: nat :| j < i < |deps| && d in deps[j] && !DependsOn(deps, i, d);
      var ok, es := UnnestedIsNotGapFree(deps, cap, i, j, d);
    }
  }
}
