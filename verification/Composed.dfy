/** A composed tool: a fixed sequence of inner tool calls behind one `invoke`. */
module Composed {
  import opened Values
  import opened Tools
  import opened Validator

  /** The builder gets the parsed input and the outputs so far; `None` is an exception. */
  datatype ComposedStep = ComposedStep(toolName: string, argsBuilder: (Dict, seq<Dict>) -> Option<Dict>)

  /** `parse` is the input model: the parsed and re-dumped arguments, or a schema error. */
  datatype ComposedTool = ComposedTool(
    name: string,
    parse: Dict -> Option<Dict>,
    fitsOutput: Dict -> bool,
    maxRuntimeMs: int,
    steps: seq<ComposedStep>,
    combine: (Dict, seq<Dict>) -> Option<Dict>)

  datatype Cause = Unregistered | BuilderFailed | UnfitArguments | InnerRaised

  datatype ComposedResult =
    | BadArguments
    | StepFailed(step: nat, cause: Cause)
    | CombinerFailed
    | BadPayload
    | Combined(payload: Dict)

  /** One inner invocation: the tool's name and the arguments it received. */
  datatype InnerCall = InnerCall(tool: string, args: Dict)

  /** The registry, the parsed input, and what the k-th inner invocation does. */
  datatype Setup = Setup(reg: map<string, Tool>, parsed: Dict, behaviour: nat -> ToolBehaviour)

  /** The loop's state: outputs so far, invocations so far, and why it stopped, if it did. */
  datatype Fold = Fold(prior: seq<Dict>, calls: seq<InnerCall>, stopped: Option<Cause>)

  // ---------------------------------------------------------------------------------------------
  // The fold
  // ---------------------------------------------------------------------------------------------

  function RunStep(u: Setup, step: ComposedStep, f: Fold): Fold {
    if f.stopped.Some? then f
    else if step.toolName !in u.reg then f.(stopped := Some(Unregistered))
    else
      match step.argsBuilder(u.parsed, f.prior)
      case None => f.(stopped := Some(BuilderFailed))
      case Some(args) =>
        if !u.reg[step.toolName].fitsInput(args) then f.(stopped := Some(UnfitArguments))
        else
          var calls := f.calls + [InnerCall(step.toolName, args)];
          match u.behaviour(|f.calls|)(step.toolName, args)
          case Output(payload, _) => Fold(f.prior + [payload], calls, None)
          case _ => Fold(f.prior, calls, Some(InnerRaised))
  }

  function RunSteps(u: Setup, steps: seq<ComposedStep>, f: Fold): Fold {
    if steps == [] then f else RunStep(u, steps[|steps| - 1], RunSteps(u, steps[..|steps| - 1], f))
  }

  function StartFold(): Fold {
    Fold([], [], None)
  }

  /** Running A ++ B is running A and then resuming B with A's outputs. */
  lemma {:induction false} StepsCompose(u: Setup, a: seq<ComposedStep>, b: seq<ComposedStep>, f: Fold)
    ensures RunSteps(u, a + b, f) == RunSteps(u, b, RunSteps(u, a, f))
  {
    if b == [] {
      assert a + b == a;
    } else {
      StepsCompose(u, a, b[..|b| - 1], f);
      assert (a + b)[..|a + b| - 1] == a + b[..|b| - 1];
    }
  }

  /** Step i received exactly the parsed input and the outputs of the steps before it, its tool
      accepted the arguments, and it returned output i. */
  ghost predicate StepThreads(u: Setup, steps: seq<ComposedStep>, f: Fold, i: nat)
    requires i < |steps| && i < |f.prior| && i < |f.calls|
  {
    && steps[i].toolName in u.reg
    && steps[i].argsBuilder(u.parsed, f.prior[..i]) == Some(f.calls[i].args)
    && u.reg[steps[i].toolName].fitsInput(f.calls[i].args)
    && f.calls[i].tool == steps[i].toolName
    && var run := u.behaviour(i)(f.calls[i].tool, f.calls[i].args);
       run.Output? && run.payload == f.prior[i]
  }

  /** The first n steps ran once each, in order, each on the outputs before it. */
  ghost predicate Threads(u: Setup, steps: seq<ComposedStep>, f: Fold, n: nat) {
    && n <= |steps| && n <= |f.prior| && n <= |f.calls|
    && forall i: nat :: i < n ==> StepThreads(u, steps, f, i)
  }

  lemma ThreadsFrame(u: Setup, steps: seq<ComposedStep>, f: Fold, steps': seq<ComposedStep>, f': Fold, n: nat)
    requires Threads(u, steps, f, n)
    requires n <= |steps'| && n <= |f'.prior| && n <= |f'.calls|
    requires steps'[..n] == steps[..n] && f'.prior[..n] == f.prior[..n] && f'.calls[..n] == f.calls[..n]
    ensures Threads(u, steps', f', n)
  {
    forall i: nat | i < n
      ensures StepThreads(u, steps', f', i)
    {
      assert StepThreads(u, steps, f, i);
      assert steps'[i] == steps'[..n][i] && f'.prior[i] == f'.prior[..n][i] && f'.calls[i] == f'.calls[..n][i];
      assert f'.prior[..i] == f'.prior[..n][..i] == f.prior[..i];
    }
  }

  /** What a fold from the start has done: the steps before the stop threaded, nothing after it ran,
      and the stop is at step number |prior|. */
  ghost predicate Done(u: Setup, steps: seq<ComposedStep>, f: Fold) {
    && Threads(u, steps, f, |f.prior|)
    && (f.stopped.None? ==> |f.prior| == |f.calls| == |steps|)
    && (f.stopped.Some? ==>
          && |f.prior| < |steps|
          && |f.calls| == |f.prior| + if f.stopped.value.InnerRaised? then 1 else 0)
  }

  lemma {:induction false} FoldIsDone(u: Setup, steps: seq<ComposedStep>)
    ensures Done(u, steps, RunSteps(u, steps, StartFold()))
  {
    if steps != [] {
      var before := steps[..|steps| - 1];
      FoldIsDone(u, before);
      var f := RunSteps(u, before, StartFold());
      var f' := RunSteps(u, steps, StartFold());
      ThreadsFrame(u, before, f, steps, f', |f.prior|);
    }
  }

  /** The converse: outputs and arguments that thread through all steps are what the fold computes. */
  lemma {:induction false} ThreadsDetermineFold(u: Setup, steps: seq<ComposedStep>, f: Fold)
    requires Threads(u, steps, f, |steps|) && |f.prior| == |f.calls| == |steps| && f.stopped.None?
    ensures RunSteps(u, steps, StartFold()) == f
  {
    if steps != [] {
      var n := |steps| - 1;
      var g := Fold(f.prior[..n], f.calls[..n], None);
      ThreadsFrame(u, steps, f, steps[..n], g, n);
      ThreadsDetermineFold(u, steps[..n], g);
      assert StepThreads(u, steps, f, n);
      assert f.prior == g.prior + [f.prior[n]] && f.calls == g.calls + [f.calls[n]];
    }
  }

  /** The step a stopped fold stopped at is the first that could not be completed, for its cause. */
  ghost predicate StopFits(u: Setup, steps: seq<ComposedStep>, f: Fold)
    requires f.stopped.Some? && |f.prior| < |steps|
  {
    var step := steps[|f.prior|];
    var built := step.argsBuilder(u.parsed, f.prior);
    match f.stopped.value
    case Unregistered => step.toolName !in u.reg
    case BuilderFailed => step.toolName in u.reg && built.None?
    case UnfitArguments => step.toolName in u.reg && built.Some? && !u.reg[step.toolName].fitsInput(built.value)
    case InnerRaised =>
      && step.toolName in u.reg && built.Some? && u.reg[step.toolName].fitsInput(built.value)
      && !u.behaviour(|f.prior|)(step.toolName, built.value).Output?
      && f.calls != [] && f.calls[|f.calls| - 1] == InnerCall(step.toolName, built.value)
  }

  lemma {:induction false} FoldStopFits(u: Setup, steps: seq<ComposedStep>)
    ensures var f := RunSteps(u, steps, StartFold());
      f.stopped.Some? ==> |f.prior| < |steps| && StopFits(u, steps, f)
  {
    if steps != [] {
      FoldStopFits(u, steps[..|steps| - 1]);
      FoldIsDone(u, steps[..|steps| - 1]);
    }
  }

  // ---------------------------------------------------------------------------------------------
  // invoke
  // ---------------------------------------------------------------------------------------------

  function Finished(tool: ComposedTool, parsed: Dict, f: Fold): ComposedResult {
    if f.stopped.Some? then StepFailed(|f.prior|, f.stopped.value)
    else
      match tool.combine(parsed, f.prior)
      case None => CombinerFailed
      case Some(payload) => if tool.fitsOutput(payload) then Combined(payload) else BadPayload
  }

  function InvokeComposed(tool: ComposedTool, reg: map<string, Tool>, args: Dict,
                          behaviour: nat -> ToolBehaviour): ComposedResult
  {
    var parsed := tool.parse(args);
    if parsed.None? then BadArguments
    else Finished(tool, parsed.value, RunSteps(Setup(reg, parsed.value, behaviour), tool.steps, StartFold()))
  }

  /** `ComposedTool.invoke`. */
  method Invoke(tool: ComposedTool, reg: map<string, Tool>, args: Dict, behaviour: nat -> ToolBehaviour)
    returns (result: ComposedResult, ghost calls: seq<InnerCall>)
    ensures result == InvokeComposed(tool, reg, args, behaviour)
    ensures tool.parse(args).Some? ==>
      calls == RunSteps(Setup(reg, tool.parse(args).value, behaviour), tool.steps, StartFold()).calls
  {
    calls := [];
    var parsed := tool.parse(args);
    if parsed.None? {
      return BadArguments, calls;
    }
    ghost var u := Setup(reg, parsed.value, behaviour);
    var prior: seq<Dict> := [];
    for idx := 0 to |tool.steps|
      invariant |prior| == |calls| == idx
      invariant RunSteps(u, tool.steps[..idx], StartFold()) == Fold(prior, calls, None)
    {
      StepsCompose(u, tool.steps[..idx + 1], tool.steps[idx + 1..], StartFold());
      StoppedStays(u, tool.steps[idx + 1..], RunSteps(u, tool.steps[..idx + 1], StartFold()));
      assert tool.steps[..idx + 1] + tool.steps[idx + 1..] == tool.steps;
      assert tool.steps[..idx + 1][..idx] == tool.steps[..idx];
      var step := tool.steps[idx];
      if step.toolName !in reg {
        return StepFailed(idx, Unregistered), calls;
      }
      var stepArgs := step.argsBuilder(parsed.value, prior);
      if stepArgs.None? {
        return StepFailed(idx, BuilderFailed), calls;
      }
      if !reg[step.toolName].fitsInput(stepArgs.value) {
        return StepFailed(idx, UnfitArguments), calls;
      }
      var run := behaviour(idx)(step.toolName, stepArgs.value);
      calls := calls + [InnerCall(step.toolName, stepArgs.value)];
      if !run.Output? {
        return StepFailed(idx, InnerRaised), calls;
      }
      prior := prior + [run.payload];
    }
    assert tool.steps[..|tool.steps|] == tool.steps;
    var combined := tool.combine(parsed.value, prior);
    if combined.None? {
      return CombinerFailed, calls;
    }
    if !tool.fitsOutput(combined.value) {
      return BadPayload, calls;
    }
    result := Combined(combined.value);
  }

  lemma {:induction false} StoppedStays(u: Setup, steps: seq<ComposedStep>, f: Fold)
    ensures f.stopped.Some? ==> RunSteps(u, steps, f) == f
  {
    if steps != [] {
      StoppedStays(u, steps[..|steps| - 1], f);
    }
  }

  /** Success, both ways: a composed call returns a payload if and only if its arguments parse,
      outputs thread through all its steps, and the payload is their combination and fits the
      output model. */
  lemma SucceedsIff(tool: ComposedTool, reg: map<string, Tool>, args: Dict, behaviour: nat -> ToolBehaviour,
                    payload: Dict)
    ensures InvokeComposed(tool, reg, args, behaviour) == Combined(payload) <==>
      && tool.parse(args).Some?
      && tool.fitsOutput(payload)
      && exists f: Fold ::
           && f.stopped.None? && |f.prior| == |f.calls| == |tool.steps|
           && Threads(Setup(reg, tool.parse(args).value, behaviour), tool.steps, f, |tool.steps|)
           && tool.combine(tool.parse(args).value, f.prior) == Some(payload)
  {
    if tool.parse(args).Some? {
      var u := Setup(reg, tool.parse(args).value, behaviour);
      FoldIsDone(u, tool.steps);
      if f: Fold :|
        && f.stopped.None? && |f.prior| == |f.calls| == |tool.steps|
        && Threads(u, tool.steps, f, |tool.steps|)
        && tool.combine(u.parsed, f.prior) == Some(payload)
      {
        ThreadsDetermineFold(u, tool.steps, f);
      }
    }
  }

  /** The fold ran through: outputs f.prior thread through all steps. */
  ghost predicate RanThrough(tool: ComposedTool, u: Setup, f: Fold) {
    && f.stopped.None? && |f.prior| == |f.calls| == |tool.steps|
    && Threads(u, tool.steps, f, |tool.steps|)
  }

  /** The failures that are not a step's: the arguments do not parse; all steps ran and the combiner fails
      on their outputs; or it combines them to a payload that does not fit. */
  lemma {:induction false} OtherFailuresIff(tool: ComposedTool, reg: map<string, Tool>, args: Dict,
                                            behaviour: nat -> ToolBehaviour)
    ensures var r := InvokeComposed(tool, reg, args, behaviour);
      && (r.BadArguments? <==> tool.parse(args).None?)
      && (r.CombinerFailed? <==> tool.parse(args).Some? && exists f: Fold ::
            && RanThrough(tool, Setup(reg, tool.parse(args).value, behaviour), f)
            && tool.combine(tool.parse(args).value, f.prior).None?)
      && (r.BadPayload? <==> tool.parse(args).Some? && exists f: Fold ::
            && RanThrough(tool, Setup(reg, tool.parse(args).value, behaviour), f)
            && tool.combine(tool.parse(args).value, f.prior).Some?
            && !tool.fitsOutput(tool.combine(tool.parse(args).value, f.prior).value))
  {
    if tool.parse(args).Some? {
      var u := Setup(reg, tool.parse(args).value, behaviour);
      FoldIsDone(u, tool.steps);
      var g := RunSteps(u, tool.steps, StartFold());
      assert g.stopped.None? ==> RanThrough(tool, u, g);
      forall f: Fold | RanThrough(tool, u, f)
        ensures f == g
      {
        ThreadsDetermineFold(u, tool.steps, f);
      }
    }
  }

  /** Failure at step i: the steps before i ran once each on the outputs before them, step i is the
      first that could not be completed, and none after it ran. */
  lemma FailureStopsTheFold(tool: ComposedTool, reg: map<string, Tool>, args: Dict, behaviour: nat -> ToolBehaviour)
    requires InvokeComposed(tool, reg, args, behaviour).StepFailed?
    ensures tool.parse(args).Some?
    ensures var u := Setup(reg, tool.parse(args).value, behaviour);
      var f := RunSteps(u, tool.steps, StartFold());
      var r := InvokeComposed(tool, reg, args, behaviour);
      && |f.prior| == r.step < |tool.steps| && f.stopped == Some(r.cause)
      && Threads(u, tool.steps, f, r.step) && StopFits(u, tool.steps, f)
      && |f.calls| <= r.step + 1
  {
    var u := Setup(reg, tool.parse(args).value, behaviour);
    FoldIsDone(u, tool.steps);
    FoldStopFits(u, tool.steps);
  }

  // ---------------------------------------------------------------------------------------------
  // A composed tool behind the guard
  // ---------------------------------------------------------------------------------------------

  function AsTool(tool: ComposedTool): Tool {
    Tool(tool.name, args => tool.parse(args).Some?, tool.fitsOutput, tool.maxRuntimeMs)
  }

  /** What the guard sees of a composed call: failed steps and combiners are invocation errors, a
      payload that does not fit is a schema error. */
  function AsToolRun(r: ComposedResult, latencyMs: int): ToolRun {
    match r
    case Combined(payload) => Output(payload, latencyMs)
    case StepFailed(_, _) => RaisesInvocationError("step failed")
    case CombinerFailed => RaisesInvocationError("combiner failed")
    case BadArguments => RaisesOther("schema")
    case BadPayload => RaisesOther("schema")
  }

  /** Whatever a composed tool returns through the guard fits its output model, so the validator can
      only object to its confidence; and the guard never sees a bad argument dict that `invoke`
      would accept, nor the other way round. */
  lemma GuardedComposedCall(tool: ComposedTool, reg: map<string, Tool>, args: Dict, behaviour: nat -> ToolBehaviour,
                            latencyMs: int, threshold: real)
    ensures var run := AsToolRun(InvokeComposed(tool, reg, args, behaviour), latencyMs);
      var g := InvokeWithGuard(AsTool(tool), args, (_, _) => run);
      && (g.BadInput? <==> InvokeComposed(tool, reg, args, behaviour).BadArguments?)
      && (g.Errored? <==>
            InvokeComposed(tool, reg, args, behaviour).StepFailed?
            || InvokeComposed(tool, reg, args, behaviour).CombinerFailed?
            || InvokeComposed(tool, reg, args, behaviour).BadPayload?)
      && (g.Returned? ==>
            && tool.fitsOutput(g.payload)
            && (Validate(tool.name, g.payload, tool.fitsOutput, threshold).failure.Some? ==>
                  Validate(tool.name, g.payload, tool.fitsOutput, threshold).failure.value.kind == ConfidenceTooLow))
  {
  }

  // ---------------------------------------------------------------------------------------------
  // read_file, then summarize, then finish
  // ---------------------------------------------------------------------------------------------

  function ReadArgs(parsed: Dict, prior: seq<Dict>): Option<Dict> {
    if "path" in parsed then Some(map["path" := parsed["path"]]) else None
  }

  function SummarizeArgs(parsed: Dict, prior: seq<Dict>): Option<Dict> {
    if prior != [] && "content" in prior[0] && "max_words" in parsed
    then Some(map["text" := prior[0]["content"], "max_words" := parsed["max_words"]])
    else None
  }

  function FinishArgs(parsed: Dict, prior: seq<Dict>): Option<Dict> {
    if |prior| > 1 && "summary" in prior[1] then Some(map["result" := prior[1]["summary"]]) else None
  }

  function CombineSummary(parsed: Dict, prior: seq<Dict>): Option<Dict> {
    if |prior| == 3 && "summary" in prior[1] && "path" in parsed && "bytes" in prior[0] && "word_count" in prior[1]
    then Some(map["summary" := prior[1]["summary"], "source_path" := parsed["path"],
                  "source_bytes" := prior[0]["bytes"], "word_count" := prior[1]["word_count"]])
    else None
  }

  function SummarizeDocument(parse: Dict -> Option<Dict>, fitsOutput: Dict -> bool): ComposedTool {
    ComposedTool("summarize_document", parse, fitsOutput, 6000,
                 [ComposedStep("read_file", ReadArgs), ComposedStep("summarize", SummarizeArgs),
                   ComposedStep("finish", FinishArgs)],
                 CombineSummary)
  }

  /** A summary that is returned is the summary of the content that was read from the given path. */
  lemma SummaryIsOfTheDocument(parse: Dict -> Option<Dict>, fitsOutput: Dict -> bool, reg: map<string, Tool>,
                               args: Dict, behaviour: nat -> ToolBehaviour, payload: Dict)
    requires InvokeComposed(SummarizeDocument(parse, fitsOutput), reg, args, behaviour) == Combined(payload)
    ensures parse(args).Some? && "path" in parse(args).value
    ensures var read := behaviour(0)("read_file", map["path" := parse(args).value["path"]]);
      && read.Output? && "content" in read.payload && "max_words" in parse(args).value
      && var summary := behaviour(1)("summarize",
           map["text" := read.payload["content"], "max_words" := parse(args).value["max_words"]]);
         && summary.Output? && "summary" in summary.payload && "bytes" in read.payload
         && "word_count" in summary.payload
         && behaviour(2)("finish", map["result" := summary.payload["summary"]]).Output?
         && payload == map["summary" := summary.payload["summary"], "source_path" := parse(args).value["path"],
                           "source_bytes" := read.payload["bytes"], "word_count" := summary.payload["word_count"]]
  {
    var tool := SummarizeDocument(parse, fitsOutput);
    var u := Setup(reg, parse(args).value, behaviour);
    FoldIsDone(u, tool.steps);
    var f := RunSteps(u, tool.steps, StartFold());
    assert StepThreads(u, tool.steps, f, 0) && StepThreads(u, tool.steps, f, 1) && StepThreads(u, tool.steps, f, 2);
  }
}
