/** What the scheduler's invariant means for whole runs: termination, progress, the concurrency cap,
    launch discipline, and independence of the interleaving. */
module SchedulerTheorems {
  import opened Values
  import opened Dag
  import opened Scheduler

  // ---------------------------------------------------------------------------------------------
  // Progress
  // ---------------------------------------------------------------------------------------------

  lemma {:induction false} LeastMissing(n: nat, done: set<nat>) returns (i: nat)
    requires !(Range(n) <= done)
    ensures i < n && i !in done && Range(i) <= done
  {
    if Range(n - 1) <= done {
      i := n - 1;
    } else {
      i := LeastMissing(n - 1, done);
    }
  }

  /** Edges point backwards, so the least unfinished subtask is never blocked: a failure-free state
      with unfinished subtasks has one ready or one in flight. */
  lemma ReadyOrInFlight(p: Problem, s: State)
    requires WellFormed(p) && Inv(p, s)
    requires !(Range(|p.deps|) <= s.completed)
    ensures Ready(p.deps, s.completed, s.scheduled) != {} || s.inFlight != {}
  {
    var i := LeastMissing(|p.deps|, s.completed);
    assert p.deps[i] <= s.completed;
    if i in s.scheduled {
      assert i in s.inFlight;
    } else {
      assert i in Ready(p.deps, s.completed, s.scheduled);
    }
  }

  /** With a permit to hand out, no reachable state is stuck before the scheduler returns. */
  lemma NeverStuck(p: Problem, s: State) returns (e: Event)
    requires WellFormed(p) && Inv(p, s) && !s.mode.Returned?
    ensures Enabled(p, s, e)
  {
    if s.mode.LoopHead? {
      e := Launch;
    } else if s.running != {} {
      var i :| i in s.running;
      e := Finish(i);
    } else if s.queued != {} {
      assert s.permits == p.cap;
      var i :| i in s.queued;
      e := Acquire(i);
    } else {
      assert s.inFlight == s.finished;
      if s.mode.Draining? {
        e := Drain;
      } else {
        e := WakeAll(p, s);
      }
    }
  }

  lemma WakeAll(p: Problem, s: State) returns (e: Event)
    requires s.mode.Waiting? && s.finished != {}
    ensures e.Wake? && e.batch == s.finished && Enabled(p, s, e)
  {
    if f: nat :| f in s.finished && f < |p.ok| && !p.ok[f] {
      e := Wake(s.finished, Some(f));
    } else {
      e := Wake(s.finished, None);
    }
  }

  /** A queued body can always be brought to run: some continuation of the run gives it a permit. */
  lemma {:induction false} QueuedBodyCanRun(p: Problem, es: seq<Event>, i: nat) returns (whole: seq<Event>)
    requires WellFormed(p) && IsRun(p, es) && i in After(p, es).queued
    ensures es <= whole && IsRun(p, whole) && i in After(p, whole).running
    ensures |whole| <= |es| + 3
  {
    RunKeepsInv(p, es);
    if After(p, es).mode.LoopHead? {
      RunExtends(p, es, Launch);
      assert i in After(p, es).inFlight;
      assert i in After(p, es + [Launch]).inFlight;
      whole := WaitingBodyCanRun(p, es + [Launch], i);
    } else {
      whole := WaitingBodyCanRun(p, es, i);
    }
  }

  lemma {:induction false} WaitingBodyCanRun(p: Problem, es: seq<Event>, i: nat) returns (whole: seq<Event>)
    requires WellFormed(p) && IsRun(p, es) && i in After(p, es).queued && !After(p, es).mode.LoopHead?
    ensures es <= whole && IsRun(p, whole) && i in After(p, whole).running
    ensures |whole| <= |es| + 2
  {
    RunKeepsInv(p, es);
    var s := After(p, es);
    QueuedIsInFlight(p, s, i);
    if s.permits > 0 {
      RunExtends(p, es, Acquire(i));
      whole := es + [Acquire(i)];
    } else {
      var j :| j in s.running;
      RunExtends(p, es, Finish(j));
      RunExtends(p, es + [Finish(j)], Acquire(i));
      whole := es + [Finish(j)] + [Acquire(i)];
    }
  }

  lemma QueuedIsInFlight(p: Problem, s: State, i: nat)
    requires Inv(p, s) && WellFormed(p) && i in s.queued && !s.mode.LoopHead?
    ensures s.mode.Waiting? || s.mode.Draining?
    ensures s.permits > 0 || s.running != {}
    ensures i !in s.running
  {
    assert i in s.inFlight;
  }

  /** Body i took a permit at some point of the run. */
  ghost predicate TookPermit(es: seq<Event>, i: nat) {
    es != [] && (es[|es| - 1] == Acquire(i) || TookPermit(es[..|es| - 1], i))
  }

  lemma {:induction false} BeyondTheQueueTookPermit(p: Problem, es: seq<Event>, i: nat)
    requires WellFormed(p) && IsRun(p, es)
    requires var s := After(p, es); i in s.running || i in s.finished || i in s.completed
    ensures TookPermit(es, i)
  {
    if es != [] {
      var before := es[..|es| - 1];
      RunKeepsInv(p, before);
      if es[|es| - 1] != Acquire(i) {
        BeyondTheQueueTookPermit(p, before, i);
      }
    }
  }

  /** In every run that returned, every launched body took a permit: none was left waiting. */
  lemma {:induction false} EveryLaunchedBodyRan(p: Problem, es: seq<Event>, i: nat)
    requires WellFormed(p) && IsRun(p, es) && After(p, es).mode.Returned? && i in After(p, es).scheduled
    ensures TookPermit(es, i) && i in After(p, es).completed
  {
    RunKeepsInv(p, es);
    BeyondTheQueueTookPermit(p, es, i);
  }

  // ---------------------------------------------------------------------------------------------
  // Termination: every run is short
  // ---------------------------------------------------------------------------------------------

  function Rank(m: Mode): nat {
    match m
    case LoopHead => 2
    case Waiting => 1
    case Draining => 1
    case Returned(_) => 0
  }

  function Potential(p: Problem, s: State): int {
    3 * (4 * (|p.deps| - |s.scheduled|) + 3 * |s.queued| + 2 * |s.running| + |s.finished|) + Rank(s.mode)
  }

  lemma DisjointUnionSize(a: set<nat>, b: set<nat>)
    requires a !! b
    ensures |a + b| == |a| + |b|
  {
  }

  lemma LaunchLowersPotential(p: Problem, s: State)
    requires Accounts(p, s) && s.mode.LoopHead?
    ensures Potential(p, ApplyLaunch(p, s)) < Potential(p, s)
  {
    var ready := Ready(p.deps, s.completed, s.scheduled);
    DisjointUnionSize(s.scheduled, ready);
    DisjointUnionSize(s.queued, ready);
  }

  lemma BodyStepLowersPotential(p: Problem, s: State, e: Event)
    requires Accounts(p, s) && Enabled(p, s, e) && (e.Acquire? || e.Finish?)
    ensures Potential(p, Apply(p, s, e)) < Potential(p, s)
  {
    if e.Acquire? {
      MoveBetweenStages(s.queued, s.running, e.body);
    } else {
      MoveBetweenStages(s.running, s.finished, e.body);
    }
  }

  lemma WakeLowersPotential(p: Problem, s: State, batch: set<nat>, noticed: Option<nat>)
    requires Enabled(p, s, Wake(batch, noticed))
    ensures Potential(p, ApplyWake(s, batch, noticed)) < Potential(p, s)
  {
    DisjointUnionSize(s.finished - batch, batch);
    assert s.finished - batch + batch == s.finished;
  }

  lemma StepLowersPotential(p: Problem, s: State, e: Event)
    requires Inv(p, s) && Enabled(p, s, e)
    ensures Potential(p, Apply(p, s, e)) < Potential(p, s)
  {
    match e
    case Launch => LaunchLowersPotential(p, s);
    case Acquire(_) => BodyStepLowersPotential(p, s, e);
    case Finish(_) => BodyStepLowersPotential(p, s, e);
    case Wake(batch, noticed) => WakeLowersPotential(p, s, batch, noticed);
    case Drain =>
  }

  lemma {:induction false} SubsetSize(a: set<nat>, b: set<nat>)
    requires a <= b
    ensures |a| <= |b|
  {
    DisjointUnionSize(a, b - a);
    assert a + (b - a) == b;
  }

  lemma PotentialIsNatural(p: Problem, s: State)
    requires Accounts(p, s)
    ensures Potential(p, s) >= 0
  {
    RangeSize(|p.deps|);
    SubsetSize(s.scheduled, Range(|p.deps|));
  }

  lemma {:induction false} RunLowersPotential(p: Problem, es: seq<Event>)
    requires WellFormed(p) && IsRun(p, es)
    ensures |es| + Potential(p, After(p, es)) <= 12 * |p.deps| + 2
  {
    if es != [] {
      var before := es[..|es| - 1];
      RunLowersPotential(p, before);
      RunKeepsInv(p, before);
      StepLowersPotential(p, After(p, before), es[|es| - 1]);
    }
  }

  /** Every run of a plan with n subtasks ends within 12n + 2 events, whatever the interleaving. */
  lemma RunsAreBounded(p: Problem, es: seq<Event>)
    requires WellFormed(p) && IsRun(p, es)
    ensures |es| <= 12 * |p.deps| + 2
  {
    RunLowersPotential(p, es);
    RunKeepsInv(p, es);
    PotentialIsNatural(p, After(p, es));
  }

  lemma OneMoreEvent(p: Problem, es: seq<Event>) returns (longer: seq<Event>)
    requires WellFormed(p) && IsRun(p, es) && !After(p, es).mode.Returned?
    ensures IsRun(p, longer) && es < longer && |es| < |longer| <= 12 * |p.deps| + 2
  {
    RunKeepsInv(p, es);
    var e := NeverStuck(p, After(p, es));
    RunExtends(p, es, e);
    longer := es + [e];
    RunsAreBounded(p, longer);
  }

  /** So every run can be continued until the scheduler returns. */
  lemma {:induction false} EveryRunCanReturn(p: Problem, es: seq<Event>) returns (whole: seq<Event>)
    requires WellFormed(p) && IsRun(p, es)
    ensures es <= whole && IsRun(p, whole) && After(p, whole).mode.Returned?
    decreases 12 * |p.deps| + 2 - |es|
  {
    if After(p, es).mode.Returned? {
      whole := es;
    } else {
      var longer := OneMoreEvent(p, es);
      whole := EveryRunCanReturn(p, longer);
    }
  }

  // ---------------------------------------------------------------------------------------------
  // The concurrency cap
  // ---------------------------------------------------------------------------------------------

  /** At every moment, drain included, free permits and running bodies add up to the cap. */
  lemma ConcurrencyCap(p: Problem, es: seq<Event>, k: nat)
    requires WellFormed(p) && IsRun(p, es) && k <= |es|
    ensures var s := After(p, es[..k]); |s.running| <= p.cap && s.permits == p.cap - |s.running|
  {
    PrefixIsRun(p, es, k);
    RunKeepsInv(p, es[..k]);
  }

  lemma {:induction false} PrefixIsRun(p: Problem, es: seq<Event>, k: nat)
    requires IsRun(p, es) && k <= |es|
    ensures IsRun(p, es[..k])
    ensures k < |es| ==>
      Enabled(p, After(p, es[..k]), es[k]) && After(p, es[..k + 1]) == Apply(p, After(p, es[..k]), es[k])
    decreases |es|
  {
    if k < |es| {
      var before := es[..|es| - 1];
      if k < |before| {
        PrefixIsRun(p, before, k);
        assert before[..k + 1] == es[..k + 1];
      } else {
        assert es[..k + 1] == es;
      }
      assert before[..k] == es[..k];
    } else {
      assert es[..k] == es;
    }
  }

  // ---------------------------------------------------------------------------------------------
  // Launch discipline
  // ---------------------------------------------------------------------------------------------

  /** Event number k launches subtask i. */
  ghost predicate LaunchedAt(p: Problem, es: seq<Event>, k: nat, i: nat) {
    k < |es| && es[k].Launch? && i in Ready(p.deps, After(p, es[..k]).completed, After(p, es[..k]).scheduled)
  }

  lemma {:induction false} OnlyGrows(p: Problem, es: seq<Event>, j: nat, k: nat)
    requires WellFormed(p) && IsRun(p, es) && j <= k <= |es|
    ensures After(p, es[..j]).scheduled <= After(p, es[..k]).scheduled
    ensures After(p, es[..j]).completed <= After(p, es[..k]).completed
    ensures After(p, es[..j]).failure.Some? ==> After(p, es[..k]).failure == After(p, es[..j]).failure
    decreases k
  {
    if j < k {
      OnlyGrows(p, es, j, k - 1);
      PrefixIsRun(p, es, k - 1);
    }
  }

  /** A subtask launches only after all its dependencies completed ok and before any failure was
      seen. */
  lemma LaunchIsLegal(p: Problem, es: seq<Event>, k: nat, i: nat)
    requires WellFormed(p) && IsRun(p, es) && LaunchedAt(p, es, k, i)
    ensures After(p, es[..k]).failure.None?
    ensures i < |p.deps| && forall d :: d in p.deps[i] ==> d in After(p, es[..k]).completed && p.ok[d]
  {
    PrefixIsRun(p, es, k);
    RunKeepsInv(p, es[..k]);
  }

  /** Nothing launches once a failure has been seen. */
  lemma NoLaunchAfterFailure(p: Problem, es: seq<Event>, j: nat, k: nat, i: nat)
    requires WellFormed(p) && IsRun(p, es) && j <= k && LaunchedAt(p, es, k, i)
    ensures After(p, es[..j]).failure.None?
  {
    LaunchIsLegal(p, es, k, i);
    OnlyGrows(p, es, j, k);
  }

  /** No subtask launches twice. */
  lemma LaunchesAtMostOnce(p: Problem, es: seq<Event>, j: nat, k: nat, i: nat)
    requires WellFormed(p) && IsRun(p, es) && LaunchedAt(p, es, j, i) && LaunchedAt(p, es, k, i)
    ensures j == k
  {
    if j < k {
      PrefixIsRun(p, es, j);
      OnlyGrows(p, es, j + 1, k);
    } else if k < j {
      PrefixIsRun(p, es, k);
      OnlyGrows(p, es, k + 1, j);
    }
  }

  lemma LaunchedStaysScheduled(p: Problem, es: seq<Event>, k: nat, n: nat, i: nat)
    requires WellFormed(p) && IsRun(p, es) && k < n <= |es| && LaunchedAt(p, es, k, i)
    ensures i in After(p, es[..n]).scheduled
  {
    PrefixIsRun(p, es, k);
    OnlyGrows(p, es, k + 1, n);
  }

  lemma OnlyLaunchSchedules(p: Problem, es: seq<Event>, n: nat, i: nat)
    requires IsRun(p, es) && n < |es|
    requires i in After(p, es[..n + 1]).scheduled && i !in After(p, es[..n]).scheduled
    ensures LaunchedAt(p, es, n, i)
  {
    PrefixIsRun(p, es, n);
  }

  /** A subtask is in `scheduled` exactly when some launch put it there. */
  lemma {:induction false} ScheduledIffLaunched(p: Problem, es: seq<Event>, n: nat, i: nat)
    requires WellFormed(p) && IsRun(p, es) && n <= |es|
    ensures i in After(p, es[..n]).scheduled <==> exists k: nat :: k < n && LaunchedAt(p, es, k, i)
    decreases n
  {
    if i in After(p, es[..n]).scheduled {
      if n > 0 {
        ScheduledIffLaunched(p, es, n - 1, i);
        if i !in After(p, es[..n - 1]).scheduled {
          OnlyLaunchSchedules(p, es, n - 1, i);
        }
      }
    } else if k: nat :| k < n && LaunchedAt(p, es, k, i) {
      LaunchedStaysScheduled(p, es, k, n, i);
    }
  }

  // ---------------------------------------------------------------------------------------------
  // The answer does not depend on the interleaving
  // ---------------------------------------------------------------------------------------------

  ghost predicate AllOk(p: Problem) {
    forall i :: 0 <= i < |p.ok| ==> p.ok[i]
  }

  lemma UnabortedIsComplete(p: Problem, s: State)
    requires WellFormed(p) && Inv(p, s) && s.mode == Returned(false)
    ensures s.completed == Range(|p.deps|) && AllOk(p)
  {
    if !(Range(|p.deps|) <= s.completed) {
      ReadyOrInFlight(p, s);
    }
    assert s.completed <= Range(|p.deps|);
  }

  /** The verdict of a finished run: it aborted if and only if some subtask's outcome is a failure;
      otherwise everything completed.  Either way what completed is what was scheduled, and is
      closed under dependencies. */
  ghost predicate VerdictOf(p: Problem, s: State) {
    && (s.mode == Returned(true) <==> !AllOk(p))
    && (s.mode == Returned(false) ==> s.completed == Range(|p.deps|))
    && s.completed == s.scheduled
    && (forall i, d {:trigger d in p.deps[i]} :: i in s.completed && i < |p.deps| && d in p.deps[i] ==>
      d in s.completed)
  }

  lemma {:induction false} ReturnedStateVerdict(p: Problem, s: State)
    requires WellFormed(p) && Inv(p, s) && s.mode.Returned?
    ensures VerdictOf(p, s)
  {
    if !s.mode.aborted {
      UnabortedIsComplete(p, s);
    }
    CompletedIsClosed(p, s);
  }

  lemma CompletedIsClosed(p: Problem, s: State)
    requires LaunchedAfterDeps(p, s) && s.completed <= s.scheduled
    ensures forall i, d {:trigger d in p.deps[i]} :: i in s.completed && i < |p.deps| && d in p.deps[i] ==>
      d in s.completed
  {
  }

  /** When the scheduler returns, the outcomes alone fix the verdict. */
  lemma {:induction false} ReturnVerdict(p: Problem, es: seq<Event>)
    requires WellFormed(p) && IsRun(p, es) && After(p, es).mode.Returned?
    ensures VerdictOf(p, After(p, es))
  {
    RunKeepsInv(p, es);
    ReturnedStateVerdict(p, After(p, es));
  }

  /** Confluence: two finished runs of the same plan with the same outcomes, under any two
      interleavings and any two caps, agree on whether they abort; if they do not, they completed
      the same subtasks. */
  lemma {:induction false} Confluence(p: Problem, es: seq<Event>, q: Problem, fs: seq<Event>)
    requires WellFormed(p) && WellFormed(q) && p.deps == q.deps && p.ok == q.ok
    requires IsRun(p, es) && After(p, es).mode.Returned?
    requires IsRun(q, fs) && After(q, fs).mode.Returned?
    ensures After(p, es).mode == After(q, fs).mode
    ensures !After(p, es).mode.aborted ==> After(p, es).completed == After(q, fs).completed
  {
    ReturnVerdict(p, es);
    ReturnVerdict(q, fs);
  }

  /** Where confluence stops: with two failing roots and two permits, which failure is reported is
      up to the interleaving. */
  lemma {:induction false} ReportedFailureMayDiffer() returns (p: Problem, es: seq<Event>, fs: seq<Event>)
    ensures WellFormed(p) && IsRun(p, es) && IsRun(p, fs)
    ensures After(p, es).mode == After(p, fs).mode == Returned(true)
    ensures After(p, es).failure != After(p, fs).failure
  {
    p := Problem([{}, {}], [false, false], 2);
    es := TwoRootsRun(p, 0, 1);
    fs := TwoRootsRun(p, 1, 0);
  }

  lemma RootsAreReady(deps: Deps, first: nat, second: nat)
    requires |deps| == 2 && deps[0] == {} && deps[1] == {} && first < 2 && second == 1 - first
    ensures Ready(deps, {}, {}) == {first, second}
  {
    forall i: nat
      ensures i in Ready(deps, {}, {}) <==> i in {first, second}
    {
      if i < 2 {
        assert deps[i] == {};
      }
    }
  }

  lemma TwoRootsLaunch(p: Problem, first: nat, second: nat)
    requires |p.deps| == 2 && p.deps[0] == {} && p.deps[1] == {} && p.cap == 2 && first < 2 && second == 1 - first
    ensures IsRun(p, [Launch])
    ensures After(p, [Launch]) == State(Waiting, {}, {first, second}, {first, second}, {first, second}, {}, {}, 2, None)
  {
    RunExtends(p, [], Launch);
    assert [] + [Launch] == [Launch];
    RootsAreReady(p.deps, first, second);
    assert first in {first, second};
  }

  lemma BothAcquire(p: Problem, first: nat, second: nat, es: seq<Event>) returns (es': seq<Event>)
    requires first != second && IsRun(p, es)
    requires After(p, es) == State(Waiting, {}, {first, second}, {first, second}, {first, second}, {}, {}, 2, None)
    ensures IsRun(p, es')
    ensures After(p, es') == State(Waiting, {}, {first, second}, {first, second}, {}, {first, second}, {}, 0, None)
  {
    RunExtends(p, es, Acquire(first));
    es' := es + [Acquire(first)];
    RunExtends(p, es', Acquire(second));
    es' := es' + [Acquire(second)];
  }

  lemma FirstFails(p: Problem, first: nat, second: nat, es: seq<Event>) returns (es': seq<Event>)
    requires first != second && IsRun(p, es) && first < |p.ok| && !p.ok[first]
    requires After(p, es) == State(Waiting, {}, {first, second}, {first, second}, {}, {first, second}, {}, 0, None)
    ensures IsRun(p, es')
    ensures After(p, es') == State(Draining, {first}, {first, second}, {second}, {}, {second}, {}, 1, Some(first))
  {
    RunExtends(p, es, Finish(first));
    es' := es + [Finish(first)];
    assert After(p, es').running == {second} && After(p, es').finished == {first};
    RunExtends(p, es', Wake({first}, Some(first)));
    es' := es' + [Wake({first}, Some(first))];
    assert After(p, es').inFlight == {second};
  }

  lemma TwoRootsRun(p: Problem, first: nat, second: nat) returns (es: seq<Event>)
    requires p == Problem([{}, {}], [false, false], 2)
    requires first < 2 && second == 1 - first
    ensures IsRun(p, es) && After(p, es).mode == Returned(true) && After(p, es).failure == Some(first)
  {
    TwoRootsLaunch(p, first, second);
    es := BothAcquire(p, first, second, [Launch]);
    es := FirstFails(p, first, second, es);
    RunExtends(p, es, Finish(second));
    es := es + [Finish(second)];
    RunExtends(p, es, Drain);
    es := es + [Drain];
  }

  // ---------------------------------------------------------------------------------------------
  // Plans that opt into nothing
  // ---------------------------------------------------------------------------------------------

  /** Every subtask waits for all earlier ones. */
  ghost predicate IsChain(deps: Deps) {
    forall i: nat :: i < |deps| ==> deps[i] == Range(i)
  }

  /** The for-loop answer: how many subtasks run when execution stops at the first failure. */
  function StopsAfter(ok: seq<bool>): (k: nat)
    ensures k <= |ok|
    ensures forall i :: 0 <= i < k - 1 ==> ok[i]
    ensures k < |ok| ==> k > 0 && !ok[k - 1]
  {
    if ok == [] then 0 else if !ok[0] then 1 else 1 + StopsAfter(ok[1..])
  }

  lemma ChainCompletesInOrder(p: Problem, s: State, i: nat, j: nat)
    requires IsChain(p.deps) && s.scheduled <= Range(|p.deps|) && LaunchedAfterDeps(p, s)
    requires i in s.scheduled && j < i
    ensures j in s.completed && j < |p.ok| && p.ok[j]
  {
    assert i < |p.deps| && j in p.deps[i];
  }

  lemma ChainStateOneAtATime(p: Problem, s: State, i: nat, j: nat)
    requires IsChain(p.deps) && Accounts(p, s) && LaunchedAfterDeps(p, s)
    requires i in s.inFlight
    ensures j in s.inFlight ==> i == j
    ensures j < i ==> j in s.completed
  {
    assert i in s.scheduled;
    if j < i {
      ChainCompletesInOrder(p, s, i, j);
    } else if j in s.inFlight && i < j {
      assert j in s.scheduled;
      ChainCompletesInOrder(p, s, j, i);
    }
  }

  /** In a chain at most one subtask is in flight, and everything before it has completed. */
  lemma ChainRunsOneAtATime(p: Problem, es: seq<Event>, i: nat, j: nat)
    requires WellFormed(p) && IsChain(p.deps) && IsRun(p, es)
    requires i in After(p, es).inFlight
    ensures j in After(p, es).inFlight ==> i == j
    ensures j < i ==> j in After(p, es).completed
  {
    RunKeepsInv(p, es);
    ChainStateOneAtATime(p, After(p, es), i, j);
  }

  /** The order of launches in a chain is 0, 1, 2, ...: subtask i launches when exactly 0..i-1 have
      completed. */
  lemma {:induction false} ChainLaunchesInOrder(p: Problem, es: seq<Event>, k: nat, i: nat)
    requires WellFormed(p) && IsChain(p.deps) && IsRun(p, es) && LaunchedAt(p, es, k, i)
    ensures After(p, es[..k]).completed == Range(i)
  {
    PrefixIsRun(p, es, k);
    RunKeepsInv(p, es[..k]);
    ChainLaunchState(p, After(p, es[..k]), i);
  }

  lemma ChainLaunchState(p: Problem, s: State, i: nat)
    requires IsChain(p.deps) && Accounts(p, s) && LaunchedAfterDeps(p, s)
    requires i in Ready(p.deps, s.completed, s.scheduled)
    ensures s.completed == Range(i)
  {
    assert p.deps[i] == Range(i);
    forall j: nat | j in s.completed
      ensures j in Range(i)
    {
      if i < j {
        ChainCompletesInOrder(p, s, j, i);
      }
    }
  }

  /** A finished run of a chain is the for-loop: it completed the prefix up to and including the
      first failure and reports that failure, under every interleaving and every cap. */
  lemma {:induction false} ChainRefinesForLoop(p: Problem, es: seq<Event>)
    requires WellFormed(p) && IsChain(p.deps) && IsRun(p, es) && After(p, es).mode.Returned?
    ensures After(p, es).completed == Range(StopsAfter(p.ok))
    ensures After(p, es).failure == if AllOk(p) then None else Some(StopsAfter(p.ok) - 1)
  {
    RunKeepsInv(p, es);
    var s := After(p, es);
    var k := StopsAfter(p.ok);
    if s.mode.aborted {
      ChainStopsAtFailure(p, s);
    } else {
      UnabortedIsComplete(p, s);
    }
  }

  lemma ChainStopsAtFailure(p: Problem, s: State)
    requires WellFormed(p) && IsChain(p.deps) && Inv(p, s) && s.mode == Returned(true)
    ensures !AllOk(p) && s.failure == Some(StopsAfter(p.ok) - 1)
    ensures s.completed == Range(StopsAfter(p.ok))
  {
    var f := s.failure.value;
    forall j: nat
      ensures j < f ==> j in s.completed && p.ok[j]
      ensures j in s.completed ==> j <= f
    {
      if j < f {
        ChainCompletesInOrder(p, s, f, j);
      } else if f < j && j in s.completed {
        ChainCompletesInOrder(p, s, j, f);
      }
    }
    StopsAtFirstFailure(p.ok, f);
    CompletedUpTo(s.completed, f);
  }

  lemma StopsAtFirstFailure(ok: seq<bool>, f: nat)
    requires f < |ok| && !ok[f] && forall j: nat :: j < f ==> ok[j]
    ensures StopsAfter(ok) == f + 1
  {
  }

  lemma CompletedUpTo(done: set<nat>, f: nat)
    requires f in done && (forall j: nat :: j < f ==> j in done) && (forall j: nat :: j in done ==> j <= f)
    ensures done == Range(f + 1)
  {
    assert forall j: nat :: j in done <==> j < f + 1;
  }
}
