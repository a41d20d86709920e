# agentic-runner, modelled and verified

`agentic-runner` asks a planner for a list of subtasks, lets a selector pick a tool for each, invokes it,
validates its output, and asks for a new plan when something fails.  Two engines execute a plan: a sequential
loop with four budgets (`Runner._run_loop`) and a parallel scheduler over a dependency graph (`run_parallel`,
driven by `Runner.run_parallel`).  This project models both, proves what each keeps on every run, and proves when
they give the same answer.  `dafny verify dfyconfig.toml` checks everything.

## How it is organised

* **The scheduler.** `Dag` turns planner output into a graph with backward edges.  `Scheduler` is a small-step
  transition system: a body is queued for a permit, running, or finished but not yet reported; the events are
  Launch, Acquire, Finish, Wake(batch) and Drain, and which one comes next is free, so a theorem about runs holds
  of every interleaving.  `SchedulerTheorems` has the invariant's consequences.  `EventLoop` (a class: semaphore
  and bodies) and `ParallelRunner` are the imperative loop; `RunParallel` is proved to perform a run of the
  transition system, up to the report of a body that raised.  `Determinacy` says what the graph alone decides: which
  failures a run can report, when the reported failure is the same in every run, and when what completed is always a
  prefix.
* **The sequential loop.** `Records` is the session (a class over append-only tables).  `RunSpec` is one step of
  the loop as a function of everything it owns; `Run` is its iteration, with the termination measure.
  `SequentialRunner.RunLoop` is the nested loop with its counters and in-place row updates, proved to end exactly
  where `Run` ends.  `AttemptTheorems` says what one attempt writes, in terms of what selector and tool answer.
  `RunFacts`, `RunInvariants`, `RunConservation`, `RunTheorems` and `Overspend` prove what every run keeps, for any
  planner, selector and tool behaviour; `Trace` reads the rows back; `GoalRunner` puts it together.
* **The parallel driver.** `ParallelDriver` (one round, and when mirroring by position is right) and `ParallelGoal`
  (the loop over rounds).
* **Agreement.** `Agreement` compares one round of the sequential loop with the scheduler on the same work;
  `RunAgreement` compares whole runs of the two engines.
* **Supporting pieces.** `Selector`, `Validator`, `Tools` (registry and guard), `Attempt`, `Bodies` (the outcome
  vectors that the bodies of a plan can come to), `Composed`, `FakeProvider`, `EvalHarness`, `Values`.

What the outside world does enters as functions of a position in the run: whether the clock has run out at the k-th
top of the loop, the planner's k-th reply, and the selector's reply and the tools' behaviour at the k-th attempted
subtask.  Nothing is assumed about them except where a theorem says so.

## Where the code and its documentation disagree

* `ARCHITECTURE.md:51` promises one more replan for an empty or malformed plan; the code aborts at once, in both
  engines: `RunTheorems.BadReplyEndsTheRun` and `ParallelGoal.BadReplyEndsTheRun`.
* `ARCHITECTURE.md:52` promises an abort at the second plan that names an unregistered tool; the code goes on until
  max_replans is used up (`FakeProvider.ScriptedAbort`), so the second such plan aborts if and only if max_replans
  is 1 (`FakeProvider.SecondPlanAbortsIff`).
* `src/agentic_runner/parallel_runner.py:253-256` says that any tool that ships a `final` string ends the plan; from
  another tool than `finish` the code accepts it only at the highest index.  `ParallelRunner.TextsIgnoredIff` says
  when texts are ignored, and `Agreement.EarlyTextIsIgnored` gives a plan where one is.  The sequential loop accepts it
  only from `finish`, and the first time.  `Agreement.EnginesAgree` names the three kinds of outcomes on which the
  engines therefore differ, and `Agreement.TextWithoutFinishHappens` and `Agreement.EarlyFinishHappens` exhibit them.

Two things the code does not promise, with the exact condition under which they hold nevertheless:

* The reported failure depends on the interleaving (`SchedulerTheorems.ReportedFailureMayDiffer`); it does not for
  exactly the plans of `ParallelRunner.ReasonDeterminedIff`.
* `src/agentic_runner/runner.py:200-205` mirrors outcomes onto rows by position, and after a failure rows can show the
  status of another subtask (`ParallelDriver.GapWitness`); they never do for exactly the plans of
  `ParallelDriver.AlwaysFaithfulIffNested`.

## Model

| member | source | states |
|---|---|---|
| Dag.BuildDependencyMap | src/agentic_runner/parallel_runner.py:73-91 | the in-place map building yields the graph the plan denotes: subtask i waits for d if and only if d is earlier and is listed, or nothing is listed and i did not opt into parallelism |
| Dag.ImplicitPlanIsAChain | src/agentic_runner/parallel_runner.py:84-85 | a subtask that lists nothing and did not opt into parallelism waits for every earlier one |
| Dag.DiscardedDependenciesMakeARoot | tests/unit/test_parallel_runner.py:91-98 | a subtask with explicit dependencies is a root if and only if all of them are discarded |
| Scheduler.StepKeepsInv | src/agentic_runner/parallel_runner.py:204-239 | every event keeps: scheduled is the disjoint union of completed and in flight, permits plus running bodies is the cap, whatever launched had its dependencies completed ok, the recorded failure is a completed failure |
| Scheduler.RunKeepsInv | src/agentic_runner/parallel_runner.py:198-239 | so does every state of every run, whatever the interleaving |
| SchedulerTheorems.ReadyOrInFlight | src/agentic_runner/parallel_runner.py:94-95 | a state with unfinished subtasks has one that is ready or in flight: backward edges cannot deadlock |
| SchedulerTheorems.NeverStuck | src/agentic_runner/parallel_runner.py:204-239 | some event is enabled until the scheduler returns |
| SchedulerTheorems.QueuedBodyCanRun | src/agentic_runner/parallel_runner.py:109 | a task waiting for the semaphore can be brought to run within three events, from any state of any run |
| SchedulerTheorems.EveryLaunchedBodyRan | src/agentic_runner/parallel_runner.py:98-109 | in a run that returned, every launched body took a permit and completed |
| SchedulerTheorems.RunsAreBounded | src/agentic_runner/parallel_runner.py:204-239 | a run over n subtasks has at most 12n + 2 events |
| SchedulerTheorems.EveryRunCanReturn | src/agentic_runner/parallel_runner.py:204-239 | every run extends to one that returns |
| SchedulerTheorems.ConcurrencyCap | src/agentic_runner/parallel_runner.py:196 | at every moment, drain included, at most max_concurrency bodies run and the rest of the permits is free |
| SchedulerTheorems.LaunchIsLegal | src/agentic_runner/parallel_runner.py:206-211 | a subtask launches only when all its dependencies completed ok and no failure was seen |
| ParallelRunner.LaunchesAfterListed | src/agentic_runner/parallel_runner.py:73-95 | on plans: when a subtask launches, every earlier subtask it lists has completed ok (every earlier one, when it lists nothing and did not opt into parallelism), and no failure was seen |
| ParallelRunner.NothingIsHeldBack | src/agentic_runner/parallel_runner.py:204-216 | on plans: while the scheduler waits, every subtask not yet launched waits for one that has not completed |
| SchedulerTheorems.NoLaunchAfterFailure | src/agentic_runner/parallel_runner.py:228-239 | nothing launches once a failure has been seen |
| SchedulerTheorems.LaunchesAtMostOnce | src/agentic_runner/parallel_runner.py:206-211 | no subtask launches twice in a run |
| SchedulerTheorems.ScheduledIffLaunched | src/agentic_runner/parallel_runner.py:206-211 | `scheduled` is exactly the set of indices some launch put there |
| SchedulerTheorems.ReturnVerdict | src/agentic_runner/parallel_runner.py:204-251 | a returned run aborted if and only if some outcome is a failure; otherwise every subtask completed; what completed is what was scheduled and is closed under dependencies |
| SchedulerTheorems.Confluence | src/agentic_runner/parallel_runner.py:204-239 | two returned runs of the same plan and outcomes, under any interleavings and caps, agree on aborting and, if they do not abort, on what completed |
| SchedulerTheorems.ReportedFailureMayDiffer | src/agentic_runner/parallel_runner.py:218-223 | where confluence stops: with two failing roots the reported failure depends on the interleaving |
| Determinacy.ReportableIffFailsFirst | src/agentic_runner/parallel_runner.py:204-239 | some run reports the failure of f if and only if f fails and everything it waits for, directly or through others, is ok |
| Determinacy.DeterminedIffConsecutive | src/agentic_runner/parallel_runner.py:218-223 | all returned runs report the same failure, for every outcome vector and any two caps, if and only if each subtask waits for the one before it |
| Determinacy.GapFreeIffNested | src/agentic_runner/parallel_runner.py:204-251 | what completed is a prefix in all returned runs, for every outcome vector, if and only if every subtask waits, directly or through others, for all that earlier ones wait for directly |
| SchedulerTheorems.ChainRunsOneAtATime | src/agentic_runner/parallel_runner.py:82-95 | in a plan that opts into nothing at most one subtask is in flight, with everything before it completed |
| SchedulerTheorems.ChainLaunchesInOrder | src/agentic_runner/parallel_runner.py:82-95 | there, subtask i launches when exactly 0..i-1 have completed |
| SchedulerTheorems.ChainRefinesForLoop | src/agentic_runner/parallel_runner.py:204-239 | there, a returned run completed exactly the prefix up to and including the first failure, and reports that failure |
| EventLoop.Loop.AwaitFirst | src/agentic_runner/parallel_runner.py:216 | waiting for the first completion moves bodies by legal events only and reports a non-empty batch of finished ones |
| EventLoop.Loop.AwaitAll | src/agentic_runner/parallel_runner.py:231-233 | waiting for all completions moves bodies by legal events only and reports everything in flight |
| EventLoop.Loop.StepBody | src/agentic_runner/parallel_runner.py:108-156 | one body takes a permit or finishes and returns it |
| ParallelRunner.LaunchReady | src/agentic_runner/parallel_runner.py:206-211 | exactly the ready subtasks are scheduled, put in flight and queued |
| ParallelRunner.Collect | src/agentic_runner/parallel_runner.py:217-226 | a batch is stored completely and the first failure met is noticed, whatever the order of the batch |
| ParallelRunner.SortedOutcomes | src/agentic_runner/parallel_runner.py:273 | the completed outcomes by index |
| ParallelRunner.FindFinal | src/agentic_runner/parallel_runner.py:257-267 | the reverse scan finds a text if and only if some outcome is finish-shaped |
| ParallelRunner.FinalTextIsHighest | src/agentic_runner/parallel_runner.py:253-267 | the final text is that of the highest finish-shaped outcome |
| ParallelRunner.RunParallel | src/agentic_runner/parallel_runner.py:181-275 | the imperative loop terminates and performs a run of the transition system; it raises exactly at the first report of a body that raised; otherwise it returns the answer of its run, which reports a failure if and only if some body settled with one, and is else a function of the outcomes, all bodies having settled |
| ParallelRunner.CanRaiseIff | src/agentic_runner/parallel_runner.py:218-219 | some run raises if and only if some body raises although everything it waits for is ok |
| ParallelRunner.CanReturnIff | src/agentic_runner/parallel_runner.py:218-239 | some run returns without raising if and only if all bodies pass, or some body fails with everything it waits for ok while every body that raises waits for something it does not wait for; otherwise every run raises |
| ParallelRunner.ReasonDeterminedIff | src/agentic_runner/parallel_runner.py:222-223 | the failure handed to the planner is the same in every run, whatever outcomes the bodies can come to and for any two caps, if and only if each subtask lists its predecessor or lists nothing and did not opt into parallelism |
| ParallelRunner.AnswerDependsOnOutcomesOnly | src/agentic_runner/parallel_runner.py:243-275 | of any returned run: a failure is reported if and only if some outcome failed, and otherwise the result is a function of the outcomes |
| ParallelRunner.AnswerListsCompleted | src/agentic_runner/parallel_runner.py:243-275 | of any returned run: the answer lists exactly what completed, by index, also with gaps; its status is SUCCEEDED with a text and otherwise RUNNING; a reported failure is that of a subtask that completed |
| ParallelRunner.TextsIgnoredIff | src/agentic_runner/parallel_runner.py:253-267 | when all are ok, the answer has no text if and only if every text comes from another tool than `finish` and before the highest index |
| ParallelRunner.AnswersAgree | tests/unit/test_parallel_runner.py:197-227 | two returned runs over the same outcomes under any two dependency layouts, interleavings and caps agree on failing and, if they do not fail, return the same outcomes, status and final text |
| Attempt.RunOneSubtask | src/agentic_runner/parallel_runner.py:98-178 | an outcome carries the subtask's index and is ok exactly when it has no failure; a refusal, a timeout, an error and a rejected payload each have their failure kind; a payload is ok exactly when it fits its tool's output model and passes the confidence check; only unfit arguments escape |
| Bodies.FatesAreProducible | src/agentic_runner/parallel_runner.py:98-156 | for every plan, any assignment of passing, being refused a tool and having a tool raise to its subtasks is what its bodies come to with some registry in some surroundings |
| Selector.ChooseTool | src/agentic_runner/selector.py:31-81 | exactly one of tool call and failure; every failure is of the kind that counts as a replan and names the hint, or the unregistered tool the reply picked; the chosen tool is the reply's first and is registered; its arguments are the reply's, overridden; the provider is charged exactly when it was asked |
| Validator.Validate | src/agentic_runner/validator.py:20-67 | invalid always carries a failure, naming the tool; valid if and only if the schema fits and no confidence below a positive threshold; the kind says which check failed |
| Validator.ConfidenceIsRead | src/agentic_runner/validator.py:48-66 | a fitting payload is rejected if and only if the threshold is positive and "confidence" is a float or integer below it, or a Boolean that is below it as 1 or 0; a missing field or any other type never is |
| Tools.InvokeWithGuard | src/agentic_runner/tools/_base.py:52-73 | a schema-invalid argument dict escapes; a payload returns if and only if the tool produced it in time; the rest is a timeout or an invocation error |
| Tools.Registry.Register | src/agentic_runner/tools/_base.py:39-49 | a taken name is refused and nothing changes; otherwise exactly that name is added; every tool answers to its key; and the engines' assumption survives unless the tool breaks the promise of `finish` |
| Records.Session.AddCall | src/agentic_runner/runner.py:424-431 | a call row is numbered by how many calls its subtask already has, and starts with status ok and no output |
| RunSpec.StepLowersMeasure | src/agentic_runner/runner.py:285-513 | every step of the loop lowers (replans left, place in the round, subtasks left) |
| RunSpec.Run | src/agentic_runner/runner.py:277-513 | every run reaches an exit |
| RunFacts.StepKind | src/agentic_runner/runner.py:285-513 | every step is an abort that writes only the goal row, the persisting of a plan, or one attempt of one subtask with exactly its writes |
| AttemptTheorems.CallRowIs | src/agentic_runner/runner.py:416-463 | an attempt writes a call row exactly when the selector chose a tool: that tool, its arguments with the placeholder replaced, and status and output as the tool behaved (payload in time, timeout, or error with its message) |
| AttemptTheorems.SubtaskRowIs | src/agentic_runner/runner.py:433-494 | its subtask row ends DONE if and only if the payload was in time, fits and is not too low in confidence, stays PENDING if and only if the arguments do not fit, and is FAILED otherwise; no other row changes; exactly an accepted payload becomes a prior output |
| AttemptTheorems.ReasonsAre | src/agentic_runner/runner.py:390-488 | a payload that returned gets a validation row; a failed subtask gets the next replan event, both with the true reason (no tool, timeout, tool error, schema, confidence); the event names its call unless no tool was chosen |
| AttemptTheorems.LoopGoesOn | src/agentic_runner/runner.py:390-502 | the run ends with its text after an accepted `finish`, goes on after any other accepted call, returns to the planner after a failure unless a refusal finds the replans used up, and crashes exactly on unfit arguments |
| AttemptTheorems.FailureIsHandedOn | src/agentic_runner/runner.py:391-488 | the failure kept for the planner is the selector's refusal, or the reason above with the tool's name; an accepted payload keeps the one before |
| AttemptTheorems.PlaceholderIsReplaced | src/agentic_runner/runner.py:416-421 | the call that was asked for the prior output receives the content, else the summary, else the rendering of the latest one |
| RunTheorems.StepKeepsInv | src/agentic_runner/runner.py:277-513 | one step keeps the whole invariant: plan blocks, replan events, call rows, prior outputs, validations, log, money, budgets |
| RunTheorems.EveryStateHolds | src/agentic_runner/runner.py:277-513 | every state of every run on an untouched goal satisfies it |
| RunTheorems.BudgetedTermination | src/agentic_runner/runner.py:297-312 | plan number k is requested when exactly k replans have happened; at most max_replans + 1 plans; steps never exceed max_steps; replans exceed their cap by at most one |
| RunTheorems.TopChecksInOrder | src/agentic_runner/runner.py:285-345 | at the top of the loop the clock, the replans, the planner's reply, an empty plan and the cost are checked in this order; each ends the run there if and only if it trips and none before it; a plan is opened if and only if none does |
| RunTheorems.SubtaskChecksInOrder | src/agentic_runner/runner.py:361-390 | before a subtask the steps come before the cost, each if and only if; the plan is exhausted exactly when no subtask is left |
| RunTheorems.ClockEndsTheRun | src/agentic_runner/runner.py:285-296 | at the top of the loop the clock has run out if and only if the run ends as wall_clock_exceeded with no further plan requested; then it ends at once, also with the replans used up, and nothing but the goal row changes |
| RunTheorems.NoPlanAfterTheClock | src/agentic_runner/runner.py:285-318 | in every state of every run the clock had not run out at any plan request so far |
| RunTheorems.BadReplyEndsTheRun | src/agentic_runner/runner.py:314-334 | at the top of the loop, clock and replans permitting, the run ends at once as PlannerError or EmptyPlan exactly when the reply is an error or empty; no replan is counted and no row written |
| RunTheorems.PlanBlockShape | src/agentic_runner/runner.py:347-513 | rows are the persisted plans in order; each superseded plan reads DONE*, FAILED, PENDING*; the last one, if not superseded, DONE*, PENDING* |
| RunTheorems.NoRowLeftRunning | src/agentic_runner/runner.py:433-494 | no row of an ended run is RUNNING |
| RunTheorems.Conservation | src/agentic_runner/runner.py:390-502 | FAILED rows, replan events numbered 1..k and the replan count agree; call rows are the steps; selector questions are steps plus refusals; validation rows are the verdicts of the settled ok calls; prior outputs are those of the DONE rows in order; the cost is the sum of the charges |
| RunConservation.EachReplyIsPaid | src/agentic_runner/runner.py:318-390 | in those sums each planner reply and each answer of the selector's provider is paid once; a planner error and an unregistered hint cost nothing |
| RunTheorems.OutcomeSoundness | src/agentic_runner/runner.py:515-576 | success: the last call is a validated `finish` whose text is the result, with every earlier row of its plan DONE; each abort: the reason given is true of the counters, the replies and the rows; a crash: one unsettled call on a PENDING row |
| RunTheorems.ClosedRowIs | src/agentic_runner/runner.py:515-576 | closing writes the verdict with its text or reason and the totals, and keeps a text or reason of an earlier run |
| RunTheorems.TraceFidelity | src/agentic_runner/eval_harness.py:57-64 | the tool sequence of the stored trace is the log of the invocations that returned, in order, if and only if the run did not crash; a crash adds the tool of the call that never ran |
| RunTheorems.TracedCallIsTrue | src/agentic_runner/runner.py:606-625 | call number k of the trace is invocation number k: its tool and arguments, and as output of an ok call what the tool returned; it has a validation exactly when the tool returned, and a valid one exactly when its subtask is DONE; this includes the last call of a crashed run, which returned nothing |
| RunTheorems.RunTraceRepeatsRows | src/agentic_runner/runner.py:598-646 | the trace of a run has one node per subtask row, in order, with its number, description, status and call, and the replan events in the order they were written |
| RunSpec.WithPriorOutput | src/agentic_runner/runner.py:416-421 | only the placeholder under `text` is replaced, and only when there is a prior output: by its content, else its summary, else its rendering; no argument is added or lost |
| Overspend.OverspendBound | src/agentic_runner/runner.py:308-390 | with charges up to p and q, the cost exceeds its cap by at most p + q, and by at most q in a succeeded run |
| Overspend.AbortBoundIsReached | src/agentic_runner/runner.py:336-345 | for all p and q not both zero some run whose charges are within p and q overspends by exactly p + q |
| Overspend.SuccessBoundIsReached | src/agentic_runner/runner.py:372-390 | for all p and q some succeeded run whose charges are within p and q overspends by exactly q |
| Trace.TraceForGoal | src/agentic_runner/runner.py:598-646 | the nested loop builds the trace tree of the rows, in the order of the relationships |
| Trace.ToolSequence | src/agentic_runner/eval_harness.py:57-64 | the nested loop lists the tools of the ok calls |
| Trace.OrderedAlready | src/agentic_runner/models.py:86-91 | ordering by a column that never decreases in insertion order changes nothing |
| Trace.OrderIdsSorts | src/agentic_runner/models.py:86-91 | ordering by any column lists each row once, by that column and then by insertion |
| Trace.TraceIsChronological | src/agentic_runner/models.py:112-115 | on rows numbered 0, 1, 2, ... the trace lists every call, ok or not, with all its fields, in the order the rows were written |
| Trace.TraceIsOrdered | src/agentic_runner/runner.py:598-646 | of any rows: one node per subtask row and one event per replan row, each ordered by its column, with the rows' fields; below a node exactly the subtask's calls, also several, ordered by theirs |
| Trace.TraceRepeatsRows | src/agentic_runner/runner.py:598-646 | on chronological rows that is the order they were written in |
| Trace.ToolSequenceOfRows | src/agentic_runner/eval_harness.py:57-64 | and its tool sequence is that of the ok rows |
| SequentialRunner.RunLoop | src/agentic_runner/runner.py:277-513 | the nested loop, from any session, ends with exactly the rows, goal row and result of the step function's run |
| SequentialRunner.WalkPlan | src/agentic_runner/runner.py:360-513 | the inner loop over a plan ends where the run from there ends, or back at the planner one replan later |
| SequentialRunner.WalkOne | src/agentic_runner/runner.py:361-502 | one iteration of the inner loop does what one step does |
| SequentialRunner.CallTool | src/agentic_runner/runner.py:423-502 | the writes of one tool call, from its row to the subtask's final status, are those of its observation |
| SequentialRunner.PersistPlan | src/agentic_runner/runner.py:347-358 | one PENDING row per planned subtask, numbered on from the rows there are |
| SequentialRunner.CloseRun | src/agentic_runner/runner.py:515-576 | the goal row and the result carry the same verdict and counters, and the trace of the rows |
| GoalRunner.InitGoal | src/agentic_runner/runner.py:258-275 | an unknown id is an error; a known goal is marked RUNNING and nothing else changes; without an id the goal is new |
| GoalRunner.RunGoal | src/agentic_runner/runner.py:90-97 | from any goal the run is that of the step function; on a goal no run has touched, whatever the world does, the result repeats the goal row and counts the rows, the budgets held, a reported success was earned, a reported reason is true, the cost is the sum of the charges, and the trace is the log of what returned |
| ParallelDriver.OutcomesInAreOutcomes | src/agentic_runner/parallel_runner.py:98-178 | what the bodies return when no argument dict is unfit is what the scheduler needs |
| ParallelDriver.TextOrFailure | src/agentic_runner/parallel_runner.py:243-275 | a round yields a final text or a failure, never both, and a failure if and only if some outcome failed |
| ParallelDriver.RoundSteps | src/agentic_runner/runner.py:197-198 | the steps a round adds are the subtasks that completed ok; they are all that completed if and only if none failed |
| ParallelDriver.OkCountIs | src/agentic_runner/runner.py:197-198 | the counting loop counts the ok outcomes |
| ParallelDriver.OkOutputsAre | src/agentic_runner/runner.py:208-212 | the prior outputs of a round are exactly the payloads of its ok outcomes, in index order |
| ParallelDriver.LinkedRowIs | src/agentic_runner/runner.py:166-187 | a round's row carries its subtask's number, description, threshold and parallel flag, and its j-th dependency id is the row of the j-th subtask it lists |
| ParallelDriver.MirrorFaithfulIffPrefix | src/agentic_runner/runner.py:200-206 | mirroring by position gives every row its own subtask's status if and only if the completed indices form a prefix |
| ParallelDriver.RoundFaithfulIffPrefix | src/agentic_runner/runner.py:200-206 | a round leaves every row with its own subtask's status if and only if what completed has no gap |
| ParallelDriver.FailureFreeRoundIsFaithful | src/agentic_runner/runner.py:200-206 | which a round without a failure does |
| ParallelDriver.AlwaysFaithfulIffNested | src/agentic_runner/runner.py:200-206 | the rows of a plan come out right in every round, whatever outcomes its bodies can come to and whatever the interleaving, if and only if every subtask waits for all that earlier ones wait for directly |
| ParallelDriver.ChainIsNested | src/agentic_runner/parallel_runner.py:84-85 | a plan that opts into nothing is such a plan |
| ParallelDriver.GapWitness | src/agentic_runner/runner.py:202-205 | a run, on outcomes the bodies come to when one tool raises, after which a row reads FAILED for a subtask that was never launched, and PENDING for the one that failed |
| ParallelGoal.PersistRound | src/agentic_runner/runner.py:166-182 | one PENDING row per planned subtask, keeping its parallel flag |
| ParallelGoal.LinkDependencies | src/agentic_runner/runner.py:183-187 | dependency ids are filled in if and only if every raw dependency of every subtask indexes the plan; otherwise nothing is kept |
| ParallelGoal.MirrorStatuses | src/agentic_runner/runner.py:202-206 | the j-th completed outcome lands on the j-th row of the plan and no other row changes |
| ParallelGoal.Tally | src/agentic_runner/runner.py:196-212 | the loop yields the number of ok outcomes and their outputs by index, as `ParallelDriver.OkCountIs` and `ParallelDriver.OkOutputsAre` say |
| ParallelGoal.EventsAreNumbered | src/agentic_runner/runner.py:229-232 | replan events of the parallel driver are numbered 1, 2, ... and name no call |
| ParallelGoal.FailedRoundsMakeEvents | src/agentic_runner/runner.py:229-243 | one replan event per failed round, with its number and the kind of its failure |
| ParallelGoal.DriveRounds | src/agentic_runner/runner.py:128-253 | the driver's loop ends within max_replans + 1 rounds, each a returned scheduler run on the planner's reply, all but the last failed |
| ParallelGoal.RunParallelGoal | src/agentic_runner/runner.py:99-256 | rows, replan events, prior outputs, goal row and the whole result (status, text or reason, steps, replans, cost, trace) are those of the rounds, and the ending is the one the last round calls for |
| ParallelGoal.RunIsBilled | src/agentic_runner/runner.py:133-256 | result and goal row of a run that ended report as steps the subtasks that completed ok over all rounds, as replans the failed rounds, and as cost every plan received, an empty one included, and 0.0004 for each step |
| ParallelGoal.PriorByRounds | src/agentic_runner/runner.py:208-212 | the prior outputs of each round follow those of the rounds before it |
| ParallelGoal.BadReplyEndsTheRun | src/agentic_runner/runner.py:143-164 | no run has a round for a bad reply or after it; a run that gets there within its replan budget ends as PlannerError or EmptyPlan exactly as the reply is an error or empty |
| ParallelGoal.RunLeavesFaithfulRows | src/agentic_runner/runner.py:200-206 | the rows each round left in the session show their own subtasks' statuses if and only if what completed in it has no gap; so they do without a failure, and for the plans above |
| ParallelGoal.RunLeavesPlanRows | src/agentic_runner/runner.py:166-187 | every row a run leaves carries its subtask's number, description, threshold and parallel flag, and its dependency ids are the rows of the subtasks it lists, of the same round |
| Agreement.SameVerdict | src/agentic_runner/parallel_runner.py:111-154 | on one subtask whose arguments do not ask for the prior output the two engines reach the same verdict, tool, payload and failure |
| Agreement.LayoutKeepsOutcomes | src/agentic_runner/parallel_runner.py:98-178 | a dependency layout changes no outcome |
| Agreement.RoundEndIsOnTheRun | src/agentic_runner/runner.py:360-513 | the end of a round is a state of the run |
| Agreement.EnginesAgree | src/agentic_runner/runner.py:361-502 | when no argument of an attempted subtask asks for the prior output and no budget trips, one round of the sequential loop and the scheduler under any layout, interleaving and cap give the same answer (final text, replan, or exhausted plan) for every outcome vector except exactly three kinds: all ok, no `finish`, and a text in the last payload; an ok `finish` and a failure behind it; all ok, and the highest finish-shaped outcome stands behind the first `finish` and carries another text |
| Agreement.BudgetsAreExact | src/agentic_runner/runner.py:372-414 | a budget ends the round if and only if steps or money run out before one of the subtasks up to its stop, or no replan is left for a refusal there |
| Agreement.OneDifferenceLeft | src/agentic_runner/runner.py:498-502 | when only the last subtask may call `finish`, the first kind is the only one left |
| Agreement.ChainsReportTheSameFailure | src/agentic_runner/parallel_runner.py:218-223 | when the layout is a chain and the loop asks for a replan, both report the same failure |
| Agreement.TextWithoutFinishHappens | src/agentic_runner/parallel_runner.py:257-267 | the first kind is inhabited: the loop exhausts its plan, the scheduler succeeds |
| Agreement.EarlyFinishHappens | src/agentic_runner/runner.py:498-502 | so are the other two: the loop takes the first text, the scheduler replans or takes the last |
| Agreement.EarlyTextIsIgnored | src/agentic_runner/parallel_runner.py:253-267 | a plan whose bodies all pass, with a text before the last subtask from another tool than `finish`, yields no text |
| RunAgreement.RoundLeaves | src/agentic_runner/runner.py:360-513 | a round that steps and money allow ends as its first failure or `finish` says, and leaves DONE rows before it and PENDING rows behind it |
| RunAgreement.ChainRound | src/agentic_runner/runner.py:189-206 | the rows of a driver round on a plan that opts into nothing read DONE up to the first failure, FAILED there and PENDING behind it |
| RunAgreement.RunsAgree | src/agentic_runner/runner.py:99-513 | whole runs of the two engines on the same goal, planner replies and outcomes, for plans that opt into nothing, arguments that do not ask for the prior output and no round of the three kinds above: unless clock, steps or cost end the sequential run, both end alike (same text; same reason, the driver always with the last failure) after the same number of replans for the same reasons; and they leave the same row statuses if and only if the loop did not stop at a `finish` with subtasks behind it |
| Composed.Invoke | src/agentic_runner/tools/composed.py:68-104 | the loop computes the fold over the steps, and its inner calls are the fold's |
| Composed.SucceedsIff | src/agentic_runner/tools/composed.py:68-104 | a payload comes back if and only if the arguments parse, outputs thread through all steps (each step got exactly the parsed input and the outputs before it, and ran once), and the payload is their combination and fits the output model |
| Composed.OtherFailuresIff | src/agentic_runner/tools/composed.py:68-104 | a schema error of the arguments, a failing combiner and a payload that does not fit, each if and only if: the arguments do not parse; outputs thread through all steps and cannot be combined; or combine to a payload that does not fit |
| Composed.FailureStopsTheFold | src/agentic_runner/tools/composed.py:71-95 | a failure at step i: the steps before it threaded, step i is the first that could not be completed and for the stated cause, and none after it ran |
| Composed.StepsCompose | src/agentic_runner/tools/composed.py:71-96 | running A ++ B is running A and resuming B with A's outputs |
| Composed.GuardedComposedCall | src/agentic_runner/tools/composed.py:101-104 | behind the guard a composed tool's payload always fits its output model, so only its confidence can be rejected; a failed step, combiner or payload is a tool error |
| Composed.SummaryIsOfTheDocument | src/agentic_runner/tools/composed.py:134-176 | a returned payload holds the summary and word count of the content that was read from the given path, that path and the bytes read; and `finish` was called on the summary |
| FakeProvider.Provider.NextPlan | src/agentic_runner/providers/fake.py:481-496 | the saturating plan cursor answers a goal's k-th plan request with plan min(k, len - 1) |
| FakeProvider.Provider.NextCall | src/agentic_runner/providers/fake.py:498-531 | the tool cursor answers the k-th selection of a tool with arguments min(k, len - 1), and no cursor moves when there are none |
| FakeProvider.Serve | src/agentic_runner/providers/fake.py:448-531 | so it is for any interleaving of requests from any goals: the reply to a request is its script's entry for the number of equal requests before it, the last one past the end, at its price |
| FakeProvider.SelectionIs | src/agentic_runner/providers/fake.py:498-531 | after k selections of the same goal and tool, whatever lies between, the reply calls that tool with arguments min(k, len - 1), and without a script makes no call |
| FakeProvider.PlanIs | src/agentic_runner/providers/fake.py:481-496 | after k plan requests of a goal the reply is plan min(k, len - 1) at 0.0008, and an empty plan for nothing without a script |
| FakeProvider.GoalsAreIndependent | src/agentic_runner/providers/fake.py:486-507 | an answer depends only on earlier requests about the same goal |
| FakeProvider.PlanTapeIs | src/agentic_runner/providers/fake.py:485-490 | a goal's plans as the sequential loop receives them |
| FakeProvider.ScriptedAbort | src/agentic_runner/runner.py:392-414 | a goal whose only scripted plan starts with an unregistered tool, clock and cost permitting, aborts after exactly max_replans + 1 replans and zero steps, having paid for every plan and nothing else |
| FakeProvider.RefusedToTheEnd | src/agentic_runner/runner.py:297-414 | the same for any sequence of plans that each start with an unregistered tool |
| FakeProvider.SecondPlanAbortsIff | src/agentic_runner/runner.py:392-414 | such a run aborts at plan number max_replans + 1, so at the second one if and only if max_replans is 1 |
| EvalHarness.Diff | src/agentic_runner/eval_harness.py:250-278 | the report lists exactly the places where the trees differ and what differs there; it is empty if and only if shape, types, keys and non-float leaves agree and floats are close |
| EvalHarness.DiffObjects | src/agentic_runner/eval_harness.py:253-264 | the same for two objects, walking the common keys in any order |
| EvalHarness.DiffLists | src/agentic_runner/eval_harness.py:265-271 | the same for two lists |
| EvalHarness.FindDifference | src/agentic_runner/eval_harness.py:250-278 | trees that are not close differ somewhere |
| EvalHarness.CloseDiffersNowhere | src/agentic_runner/eval_harness.py:250-278 | close trees differ nowhere |
| EvalHarness.SwapMirrors | src/agentic_runner/eval_harness.py:255-261 | swapping the arguments reports the same places, with missing and extra keys exchanged |
| EvalHarness.CloseIsReflexive | src/agentic_runner/eval_harness.py:272-278 | a tree is close to itself |
| EvalHarness.CloseIsSymmetric | src/agentic_runner/eval_harness.py:250-278 | closeness is symmetric |
| EvalHarness.CloseIsNotTransitive | src/agentic_runner/eval_harness.py:273 | closeness is not transitive |
| EvalHarness.CloseWithin | src/agentic_runner/eval_harness.py:273 | two floats are close if and only if they differ by at most 1e-6, or by at most 1e-6 of either |
| EvalHarness.OneSidedKeysAreReported | src/agentic_runner/eval_harness.py:255-261 | keys of the second object only are reported as missing, keys of the first only as extra, each set whole |

## Left out

- The wall clock, timestamps and durations: the clock check is an arbitrary answer at the top of the loop; a tool's
  latency is an arbitrary number.
- Floating point: costs, confidences and compared floats are reals, so rounding, infinities and NaN are not modelled.
- Message texts: abort reasons are constructors with their data, failure reasons keep kind and tool name; planner
  prompts and the state handed to the planner are part of its arbitrary reply.
- Exceptions from providers other than the planner's own error, and from the database.
- ParallelGoal.RunParallelGoal: takes outcomes of bodies that settled, so the driver's rows after a body that raised
  are not modelled (the scheduler, `ParallelRunner.RunParallel`, and the sequential loop do model it).  It states no
  bound on steps, cost or time, because the driver enforces only max_replans.
- Agreement.EnginesAgree: takes outcomes of bodies that settled, for the same reason.
- RunAgreement.RunsAgree: does not compare step counts and costs, because the engines count them differently: the
  loop counts tool calls and pays the selector's charge, the driver counts ok outcomes at a flat price.
- The order in which waiting tasks get the semaphore and the size of the thread pool: any waiting task may be next,
  which covers the real order.
- The concurrent use of one provider by several bodies: the scheduler takes one outcome per subtask, fixed beforehand.
- Runs on a goal that already has rows: `SequentialRunner.RunLoop` and `GoalRunner.RunGoal` tie them to the step
  function; the theorems about rows and counters start from a goal without rows.
- Row ids: a row's id is its position in its table.
- What inner tools of a composed tool do inside: they are behaviours, also when they are composed themselves.
- Concrete tools, `calculate`, the API, the CLI, settings, logging, migrations and the OpenAI and Anthropic adapters:
  glue and foreign calls.
- The contents of the scripts and goal patterns, `_jaccard`, `run_suite`, baselines and drift limits, and the
  planner's JSON parsing: finite data or easy members.
