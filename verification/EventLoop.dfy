/** The asyncio side of the scheduler: a semaphore and the bodies of the tasks in flight.  Which
    body moves next, and how far, is nondeterministic. */
module EventLoop {
  import opened Scheduler

  class Loop {
    var permits: int
    var queued: set<nat>
    var running: set<nat>
    var finished: set<nat>

    /** The bodies are where the transition system says they are. */
    ghost predicate Shows(s: State)
      reads this
    {
      s.permits == permits && s.queued == queued && s.running == running && s.finished == finished
    }

    constructor (maxConcurrency: nat)
      ensures permits == maxConcurrency && queued == running == finished == {}
    {
      permits := maxConcurrency;
      queued, running, finished := {}, {}, {};
    }

    /** `asyncio.create_task`: the body starts by queueing for a permit. */
    method CreateTask(i: nat)
      modifies this`queued
      ensures queued == old(queued) + {i}
    {
      queued := queued + {i};
    }

    /** A queued body takes a permit. */
    method Acquired(i: nat)
      requires i in queued && i !in running
      modifies this
      ensures queued == old(queued) - {i} && running == old(running) + {i}
      ensures permits == old(permits) - 1 && finished == old(finished)
      ensures 2 * |queued| + |running| < old(2 * |queued| + |running|)
    {
      queued := queued - {i};
      running := running + {i};
      permits := permits - 1;
    }

    /** A running body finishes and gives its permit back. */
    method Finished(i: nat)
      requires i in running
      modifies this
      ensures running == old(running) - {i} && finished == old(finished) + {i}
      ensures permits == old(permits) + 1 && queued == old(queued)
      ensures 2 * |queued| + |running| < old(2 * |queued| + |running|)
    {
      running := running - {i};
      finished := finished + {i};
      permits := permits + 1;
    }

    /** Some body moves. */
    method StepBody(ghost p: Problem, ghost es: seq<Event>) returns (ghost e: Event)
      requires WellFormed(p) && IsRun(p, es) && Shows(After(p, es))
      requires After(p, es).mode.Waiting? || After(p, es).mode.Draining?
      requires queued != {} || running != {}
      modifies this
      ensures IsRun(p, es + [e]) && Shows(After(p, es + [e]))
      ensures OnlyBodiesMoved(After(p, es), After(p, es + [e]))
      ensures 2 * |queued| + |running| < old(2 * |queued| + |running|)
    {
      StagesOfRun(p, es);
      var preferFinish: bool := *;
      if running != {} && (preferFinish || queued == {} || permits == 0) {
        var i :| i in running;
        e := Finish(i);
        Finished(i);
      } else {
        var i :| i in queued;
        e := Acquire(i);
        Acquired(i);
      }
      RunExtends(p, es, e);
    }

    /** `asyncio.wait(..., FIRST_COMPLETED)`: let bodies move until some have finished, and for as
        long after that as the loop pleases; report all that have finished by then. */
    method AwaitFirst(ghost p: Problem, ghost es: seq<Event>) returns (batch: set<nat>, ghost es': seq<Event>)
      requires WellFormed(p) && IsRun(p, es) && Shows(After(p, es))
      requires After(p, es).mode.Waiting?
      modifies this
      ensures IsRun(p, es') && Shows(After(p, es')) && OnlyBodiesMoved(After(p, es), After(p, es'))
      ensures batch == finished && batch != {} && |es'| >= |es|
    {
      es' := es;
      var linger: bool := *;
      while finished == {} || (linger && (queued != {} || running != {}))
        invariant IsRun(p, es') && Shows(After(p, es')) && OnlyBodiesMoved(After(p, es), After(p, es'))
        invariant |es'| >= |es|
        decreases 2 * |queued| + |running|
      {
        StagesOfRun(p, es');
        var e := StepBody(p, es');
        es' := es' + [e];
        linger := *;
      }
      batch := finished;
    }

    /** `asyncio.wait(..., ALL_COMPLETED)`: let bodies move until every one in flight has finished. */
    method AwaitAll(ghost p: Problem, ghost es: seq<Event>) returns (batch: set<nat>, ghost es': seq<Event>)
      requires WellFormed(p) && IsRun(p, es) && Shows(After(p, es))
      requires After(p, es).mode.Draining?
      modifies this
      ensures IsRun(p, es') && Shows(After(p, es')) && OnlyBodiesMoved(After(p, es), After(p, es'))
      ensures batch == finished == After(p, es').inFlight && |es'| >= |es|
    {
      es' := es;
      while queued != {} || running != {}
        invariant IsRun(p, es') && Shows(After(p, es')) && OnlyBodiesMoved(After(p, es), After(p, es'))
        invariant |es'| >= |es|
        decreases 2 * |queued| + |running|
      {
        var e := StepBody(p, es');
        es' := es' + [e];
      }
      StagesOfRun(p, es');
      batch := finished;
    }

    /** A batch of finished tasks has been taken over by the scheduler. */
    method Forget(batch: set<nat>)
      modifies this`finished
      ensures finished == old(finished) - batch
    {
      finished := finished - batch;
    }
  }

  /** What the event loop needs of the invariant. */
  lemma StagesOfRun(p: Problem, es: seq<Event>)
    requires WellFormed(p) && IsRun(p, es)
    ensures var s := After(p, es);
      && s.queued !! s.running
      && s.inFlight == s.queued + s.running + s.finished
      && (s.running == {} ==> s.permits > 0)
      && (s.permits >= 0)
      && (s.mode.Waiting? || s.mode.Draining? ==> s.inFlight != {})
  {
    RunKeepsInv(p, es);
  }

  /** The scheduler's own variables did not change. */
  ghost predicate OnlyBodiesMoved(s: State, t: State) {
    && s.mode == t.mode
    && s.completed == t.completed
    && s.scheduled == t.scheduled
    && s.inFlight == t.inFlight
    && s.failure == t.failure
  }
}
