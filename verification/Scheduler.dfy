/** The parallel scheduler as a small-step transition system.

    One run is a finite sequence of events.  Which event comes next is free: bodies may acquire a
    permit and finish in any order, and a wake-up may report any non-empty part of what has
    finished.  Everything proved here therefore holds of every interleaving. */
module Scheduler {
  import opened Values
  import opened Dag

  /** A plan's graph, the verdict each body will reach, and the semaphore's size. */
  datatype Problem = Problem(deps: Deps, ok: seq<bool>, cap: nat)

  ghost predicate WellFormed(p: Problem) {
    && |p.deps| == |p.ok|
    && Backward(p.deps)
    && p.cap >= 1
  }

  /** Where `run_parallel` is: about to schedule, awaiting the first completion, awaiting all of
      them after a failure, or done. */
  datatype Mode = LoopHead | Waiting | Draining | Returned(aborted: bool)

  /** `completed`, `scheduled`, `inFlight` and `failure` are the scheduler's own variables; the
      bodies in flight are queued for a permit, running, or finished but not yet reported. */
  datatype State = State(
    mode: Mode,
    completed: set<nat>,
    scheduled: set<nat>,
    inFlight: set<nat>,
    queued: set<nat>,
    running: set<nat>,
    finished: set<nat>,
    permits: int,
    failure: Option<nat>)

  datatype Event =
    | Launch
    | Acquire(body: nat)
    | Finish(body: nat)
    | Wake(batch: set<nat>, noticed: Option<nat>)
    | Drain

  function Init(cap: nat): State {
    State(LoopHead, {}, {}, {}, {}, {}, {}, cap, None)
  }

  /** `_ready`: neither done nor scheduled, and every dependency done. */
  function Ready(deps: Deps, done: set<nat>, scheduled: set<nat>): set<nat> {
    set i: nat | i < |deps| && i !in done && i !in scheduled && deps[i] <= done
  }

  /** Which failure the scheduler notices first when it walks a batch in some order. */
  ghost predicate Notices(ok: seq<bool>, batch: set<nat>, noticed: Option<nat>) {
    match noticed
    case None => forall i :: i in batch && i < |ok| ==> ok[i]
    case Some(f) => f in batch && f < |ok| && !ok[f]
  }

  ghost predicate Enabled(p: Problem, s: State, e: Event) {
    match e
    case Launch => s.mode.LoopHead?
    case Acquire(i) => (s.mode.Waiting? || s.mode.Draining?) && i in s.queued && s.permits > 0
    case Finish(i) => (s.mode.Waiting? || s.mode.Draining?) && i in s.running
    case Wake(batch, noticed) => s.mode.Waiting? && batch != {} && batch <= s.finished && Notices(p.ok, batch, noticed)
    case Drain => s.mode.Draining? && s.inFlight == s.finished
  }

  function ApplyLaunch(p: Problem, s: State): State {
    var ready := Ready(p.deps, s.completed, s.scheduled);
    s.(scheduled := s.scheduled + ready,
       inFlight := s.inFlight + ready,
       queued := s.queued + ready,
       mode := if s.inFlight + ready == {} then Returned(false) else Waiting)
  }

  function ApplyWake(s: State, batch: set<nat>, noticed: Option<nat>): State {
    var failure := if s.failure.Some? then s.failure else noticed;
    var inFlight := s.inFlight - batch;
    s.(completed := s.completed + batch,
       inFlight := inFlight,
       finished := s.finished - batch,
       failure := failure,
       mode := if failure.None? then LoopHead else if inFlight == {} then Returned(true) else Draining)
  }

  function Apply(p: Problem, s: State, e: Event): State {
    match e
    case Launch => ApplyLaunch(p, s)
    case Acquire(i) => s.(queued := s.queued - {i}, running := s.running + {i}, permits := s.permits - 1)
    case Finish(i) => s.(running := s.running - {i}, finished := s.finished + {i}, permits := s.permits + 1)
    case Wake(batch, noticed) => ApplyWake(s, batch, noticed)
    case Drain =>
      s.(completed := s.completed + s.inFlight, inFlight := {}, finished := {}, mode := Returned(true))
  }

  /** The state after a sequence of events, and whether each event could happen when it did. */
  ghost function After(p: Problem, es: seq<Event>): State {
    if es == [] then Init(p.cap) else Apply(p, After(p, es[..|es| - 1]), es[|es| - 1])
  }

  ghost predicate IsRun(p: Problem, es: seq<Event>) {
    es == [] || (IsRun(p, es[..|es| - 1]) && Enabled(p, After(p, es[..|es| - 1]), es[|es| - 1]))
  }

  lemma RunExtends(p: Problem, es: seq<Event>, e: Event)
    requires IsRun(p, es) && Enabled(p, After(p, es), e)
    ensures IsRun(p, es + [e]) && After(p, es + [e]) == Apply(p, After(p, es), e)
  {
    assert (es + [e])[..|es|] == es;
  }

  // ---------------------------------------------------------------------------------------------
  // What every step keeps
  // ---------------------------------------------------------------------------------------------

  /** `scheduled` is the disjoint union of `completed` and `inFlight`, and every body in flight is
      in exactly one of its three stages. */
  ghost predicate Accounts(p: Problem, s: State) {
    && s.scheduled == s.completed + s.inFlight
    && s.completed !! s.inFlight
    && s.inFlight == s.queued + s.running + s.finished
    && s.queued !! s.running && s.queued !! s.finished && s.running !! s.finished
    && s.scheduled <= Range(|p.deps|)
  }

  /** Permits are conserved: what is not free is held by a running body. */
  ghost predicate PermitsConserved(p: Problem, s: State) {
    && s.permits >= 0
    && s.permits + |s.running| == p.cap
  }

  /** Whatever was launched had all its dependencies completed, and completed ok. */
  ghost predicate LaunchedAfterDeps(p: Problem, s: State) {
    forall i, d {:trigger d in p.deps[i]} :: i in s.scheduled && i < |p.deps| && d in p.deps[i] ==>
      d in s.completed && d < |p.ok| && p.ok[d]
  }

  /** The recorded failure is a completed failure; without one, everything completed is ok. */
  ghost predicate VerdictFits(p: Problem, s: State) {
    match s.failure
    case None => forall i :: i in s.completed && i < |p.ok| ==> p.ok[i]
    case Some(f) => f in s.completed && f < |p.ok| && !p.ok[f]
  }

  ghost predicate ModeFits(p: Problem, s: State) {
    match s.mode
    case LoopHead => s.failure.None?
    case Waiting => s.failure.None? && s.inFlight != {} && Ready(p.deps, s.completed, s.scheduled) == {}
    case Draining => s.failure.Some? && s.inFlight != {}
    case Returned(aborted) =>
      && s.inFlight == {}
      && (aborted <==> s.failure.Some?)
      && (!aborted ==> Ready(p.deps, s.completed, s.scheduled) == {})
  }

  ghost predicate Inv(p: Problem, s: State) {
    && Accounts(p, s)
    && PermitsConserved(p, s)
    && LaunchedAfterDeps(p, s)
    && VerdictFits(p, s)
    && ModeFits(p, s)
  }

  lemma LaunchKeepsDeps(p: Problem, s: State)
    requires WellFormed(p) && Accounts(p, s) && LaunchedAfterDeps(p, s) && VerdictFits(p, s) && s.failure.None?
    ensures LaunchedAfterDeps(p, ApplyLaunch(p, s))
  {
    var s' := ApplyLaunch(p, s);
    forall i, d | i in s'.scheduled && i < |p.deps| && d in p.deps[i]
      ensures d in s'.completed && d < |p.ok| && p.ok[d]
    {
      if i !in s.scheduled {
        assert i in Ready(p.deps, s.completed, s.scheduled);
        assert d in s.completed && d < i;
      }
    }
  }

  lemma LaunchEmptiesReady(p: Problem, s: State)
    requires Accounts(p, s)
    ensures var s' := ApplyLaunch(p, s); Ready(p.deps, s'.completed, s'.scheduled) == {}
  {
    var s' := ApplyLaunch(p, s);
    forall i: nat | i < |p.deps| && i !in s'.completed && p.deps[i] <= s'.completed
      ensures i in s'.scheduled
    {
      if i !in s.scheduled {
        assert i in Ready(p.deps, s.completed, s.scheduled);
      }
    }
  }

  lemma LaunchKeepsAccounts(p: Problem, s: State)
    requires Accounts(p, s)
    ensures Accounts(p, ApplyLaunch(p, s))
  {
    var ready := Ready(p.deps, s.completed, s.scheduled);
    assert forall i :: i in ready ==> i in Range(|p.deps|) && i !in s.scheduled;
    assert ready !! s.scheduled;
  }

  lemma LaunchKeepsInv(p: Problem, s: State)
    requires WellFormed(p) && Inv(p, s) && s.mode.LoopHead?
    ensures Inv(p, ApplyLaunch(p, s))
  {
    LaunchKeepsAccounts(p, s);
    LaunchEmptiesReady(p, s);
    LaunchKeepsDeps(p, s);
  }

  lemma MoveBetweenStages(a: set<nat>, b: set<nat>, i: nat)
    requires a !! b && i in a
    ensures (a - {i}) !! (b + {i})
    ensures (a - {i}) + (b + {i}) == a + b
    ensures |a - {i}| == |a| - 1
    ensures |b + {i}| == |b| + 1
  {
  }

  /** In-flight bodies stay accounted for when one of them moves on by a stage. */
  lemma StageStillCounts(total: set<nat>, a: set<nat>, b: set<nat>, c: set<nat>, i: nat)
    requires total == a + b + c && a !! b && a !! c && b !! c && i in a
    ensures total == (a - {i}) + (b + {i}) + c
    ensures (a - {i}) !! (b + {i}) && (a - {i}) !! c && (b + {i}) !! c
  {
    forall j: nat
      ensures j in total <==> j in (a - {i}) + (b + {i}) + c
    {
    }
  }

  lemma AcquireKeepsAccounts(p: Problem, s: State, i: nat)
    requires Accounts(p, s) && i in s.queued
    ensures Accounts(p, Apply(p, s, Acquire(i)))
  {
    StageStillCounts(s.inFlight, s.queued, s.running, s.finished, i);
  }

  lemma FinishKeepsAccounts(p: Problem, s: State, i: nat)
    requires Accounts(p, s) && i in s.running
    ensures Accounts(p, Apply(p, s, Finish(i)))
  {
    assert s.inFlight == s.running + s.finished + s.queued;
    StageStillCounts(s.inFlight, s.running, s.finished, s.queued, i);
    assert s.inFlight == s.queued + (s.running - {i}) + (s.finished + {i});
  }

  lemma BodyStepKeepsAccounts(p: Problem, s: State, e: Event)
    requires Accounts(p, s)
    requires (e.Acquire? && e.body in s.queued) || (e.Finish? && e.body in s.running)
    ensures Accounts(p, Apply(p, s, e))
  {
    if e.Acquire? {
      AcquireKeepsAccounts(p, s, e.body);
    } else {
      FinishKeepsAccounts(p, s, e.body);
    }
  }

  lemma BodyStepKeepsPermits(p: Problem, s: State, e: Event)
    requires s.queued !! s.running && PermitsConserved(p, s)
    requires Enabled(p, s, e) && (e.Acquire? || e.Finish?)
    ensures PermitsConserved(p, Apply(p, s, e))
  {
    if e.Acquire? {
      MoveBetweenStages(s.queued, s.running, e.body);
    } else {
      assert |s.running - {e.body}| == |s.running| - 1;
    }
  }

  lemma BodyStepKeepsRest(p: Problem, s: State, e: Event)
    requires LaunchedAfterDeps(p, s) && VerdictFits(p, s) && ModeFits(p, s)
    requires e.Acquire? || e.Finish?
    ensures var s' := Apply(p, s, e); LaunchedAfterDeps(p, s') && VerdictFits(p, s') && ModeFits(p, s')
  {
  }

  lemma BodyStepKeepsInv(p: Problem, s: State, e: Event)
    requires Inv(p, s) && Enabled(p, s, e) && (e.Acquire? || e.Finish?)
    ensures Inv(p, Apply(p, s, e))
  {
    BodyStepKeepsAccounts(p, s, e);
    BodyStepKeepsPermits(p, s, e);
    BodyStepKeepsRest(p, s, e);
  }

  lemma WakeKeepsAccounts(p: Problem, s: State, batch: set<nat>, noticed: Option<nat>)
    requires Accounts(p, s) && batch <= s.finished
    ensures Accounts(p, ApplyWake(s, batch, noticed))
  {
    assert batch <= s.inFlight;
    assert s.inFlight - batch == s.queued + s.running + (s.finished - batch);
  }

  lemma WakeKeepsRest(p: Problem, s: State, batch: set<nat>, noticed: Option<nat>)
    requires |p.deps| == |p.ok|
    requires LaunchedAfterDeps(p, s) && VerdictFits(p, s) && s.failure.None? && Notices(p.ok, batch, noticed)
    ensures var s' := ApplyWake(s, batch, noticed); LaunchedAfterDeps(p, s') && VerdictFits(p, s') && ModeFits(p, s')
  {
  }

  lemma WakeKeepsInv(p: Problem, s: State, batch: set<nat>, noticed: Option<nat>)
    requires WellFormed(p) && Inv(p, s) && Enabled(p, s, Wake(batch, noticed))
    ensures Inv(p, ApplyWake(s, batch, noticed))
  {
    WakeKeepsAccounts(p, s, batch, noticed);
    WakeKeepsRest(p, s, batch, noticed);
  }

  lemma DrainKeepsInv(p: Problem, s: State)
    requires WellFormed(p) && Inv(p, s) && Enabled(p, s, Drain)
    ensures Inv(p, Apply(p, s, Drain))
  {
    var s' := Apply(p, s, Drain);
    assert s'.running == {};
    assert Accounts(p, s');
  }

  lemma StepKeepsInv(p: Problem, s: State, e: Event)
    requires WellFormed(p) && Inv(p, s) && Enabled(p, s, e)
    ensures Inv(p, Apply(p, s, e))
  {
    match e
    case Launch => LaunchKeepsInv(p, s);
    case Acquire(_) => BodyStepKeepsInv(p, s, e);
    case Finish(_) => BodyStepKeepsInv(p, s, e);
    case Wake(batch, noticed) => WakeKeepsInv(p, s, batch, noticed);
    case Drain => DrainKeepsInv(p, s);
  }

  /** Every state of every run satisfies the invariant. */
  lemma {:induction false} RunKeepsInv(p: Problem, es: seq<Event>)
    requires WellFormed(p) && IsRun(p, es)
    ensures Inv(p, After(p, es))
  {
    if es != [] {
      RunKeepsInv(p, es[..|es| - 1]);
      StepKeepsInv(p, After(p, es[..|es| - 1]), es[|es| - 1]);
    } else {
      assert Ready(p.deps, {}, {}) == Ready(p.deps, {}, {});
    }
  }
}
