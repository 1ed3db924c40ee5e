/**
 * The Pipeline (src/Core/Pipeline.php; src/Pipeflow/Core/Pipeline.php is the
 * same class under another namespace): an ordered list of stages and the
 * history of contexts, from the initial one to the output of each stage run.
 */
module PipelineCore {
  import opened Common
  import opened Values
  import opened Stages
  import opened StageExecution

  /**
   * What a run of a stage list records: the output of every stage that
   * completed, in order, and the error of the stage that failed, if any.
   */
  datatype Trace = Trace(outputs: seq<Context>, failure: Option<Error>)

  /**
   * The trace of running `stages` from `ctx`, each stage run by `step`. The
   * pipeline's own trace is TraceWith(Run, ...); the lemmas about traces
   * hold for any stage semantics.
   */
  function TraceWith(step: (Stage, Context) -> Result<Context>, stages: seq<Stage>, ctx: Context): Trace
  {
    if stages == [] then Trace([], None)
    else match step(stages[0], ctx)
      case Err(e) => Trace([], Some(e))
      case Ok(next) =>
        var rest := TraceWith(step, stages[1..], next);
        Trace([next] + rest.outputs, rest.failure)
  }

  function RunTrace(stages: seq<Stage>, ctx: Context): Trace
  {
    TraceWith(Run, stages, ctx)
  }

  /**
   * The trace and the block semantics agree: the run fails exactly when the
   * trace records a failure, with the same error and before the last stage
   * has produced an output; a successful run records one output per stage and
   * ends with the result.
   */
  lemma {:induction false} TraceMatchesRunBlock(stages: seq<Stage>, ctx: Context)
    ensures var t := RunTrace(stages, ctx);
      && (t.failure.None? <==> RunBlock(stages, ctx).Ok?)
      && (t.failure.Some? ==> RunBlock(stages, ctx) == Err(t.failure.value) && |t.outputs| < |stages|)
      && (t.failure.None? ==>
            && |t.outputs| == |stages|
            && RunBlock(stages, ctx).value == (if stages == [] then ctx else t.outputs[|t.outputs| - 1]))
    decreases stages
  {
    if stages != [] {
      match Run(stages[0], ctx)
      case Err(e) =>
      case Ok(next) =>
        TraceMatchesRunBlock(stages[1..], next);
    }
  }

  /**
   * Stages run strictly left to right: with h the history the run appends to
   * (the input, then the outputs), stage i turned h[i] into h[i + 1], and the
   * stage after the last output is the one that failed.
   */
  lemma {:induction false} TraceSteps(step: (Stage, Context) -> Result<Context>, stages: seq<Stage>, ctx: Context)
    ensures var t := TraceWith(step, stages, ctx);
      var h := [ctx] + t.outputs;
      && |t.outputs| <= |stages|
      && (forall i :: 0 <= i < |t.outputs| ==> step(stages[i], h[i]) == Ok(h[i + 1]))
      && (t.failure.Some? ==>
            && |t.outputs| < |stages|
            && step(stages[|t.outputs|], h[|t.outputs|]) == Err(t.failure.value))
    decreases stages
  {
    if stages != [] {
      match step(stages[0], ctx)
      case Err(e) =>
      case Ok(next) =>
        TraceSteps(step, stages[1..], next);
        var t := TraceWith(step, stages, ctx);
        var rest := TraceWith(step, stages[1..], next);
        var h := [ctx] + t.outputs;
        var h' := [next] + rest.outputs;
        assert h == [ctx] + h';
        forall i | 0 <= i < |t.outputs| ensures step(stages[i], h[i]) == Ok(h[i + 1]) {
          if i > 0 {
            assert stages[i] == stages[1..][i - 1];
            assert h[i] == h'[i - 1] && h[i + 1] == h'[i];
          }
        }
        if t.failure.Some? {
          assert stages[|t.outputs|] == stages[1..][|rest.outputs|];
        }
    }
  }

  /** The trace from stage i on, when stage i completes. */
  lemma StepOk(step: (Stage, Context) -> Result<Context>, stages: seq<Stage>, i: int, ctx: Context, next: Context)
    requires 0 <= i < |stages| && step(stages[i], ctx) == Ok(next)
    ensures TraceWith(step, stages[i..], ctx) ==
      Trace([next] + TraceWith(step, stages[i + 1..], next).outputs, TraceWith(step, stages[i + 1..], next).failure)
  {
    assert stages[i..][0] == stages[i];
    assert stages[i..][1..] == stages[i + 1..];
  }

  /** The trace from stage i on, when stage i fails. */
  lemma StepErr(step: (Stage, Context) -> Result<Context>, stages: seq<Stage>, i: int, ctx: Context, e: Error)
    requires 0 <= i < |stages| && step(stages[i], ctx) == Err(e)
    ensures TraceWith(step, stages[i..], ctx) == Trace([], Some(e))
  {
    assert stages[i..][0] == stages[i];
  }

  /** Appending the output of one more stage to the recorded prefix. */
  lemma ShiftOutput(outputs: seq<Context>, next: Context, rest: seq<Context>)
    ensures outputs + ([next] + rest) == (outputs + [next]) + rest
  {
  }

  class Pipeline {
    /** Every context the pipeline has seen, oldest first; the last is the current one. */
    var contextHistory: seq<Context>
    var stages: seq<Stage>

    ghost predicate Valid()
      reads this
    {
      |contextHistory| >= 1
    }

    /** A new pipeline: the given context (or an empty one) as its only history entry, and no stages. */
    constructor(initialContext: Option<Context>)
      ensures Valid()
      ensures contextHistory == [if initialContext.Some? then initialContext.value else map[]]
      ensures stages == []
    {
      contextHistory := [if initialContext.Some? then initialContext.value else map[]];
      stages := [];
    }

    /** addStage: the stage goes at the end; the stages before it stay in place and in order. */
    method AddStage(stage: Stage)
      modifies this
      ensures stages == old(stages) + [stage]
      ensures contextHistory == old(contextHistory)
    {
      stages := stages + [stage];
    }

    /** getCurrentContext: the last entry of the history. */
    function GetCurrentContext(): Context
      requires Valid()
      reads this
    {
      contextHistory[|contextHistory| - 1]
    }

    /**
     * execute: each stage runs on the current context and its output is
     * appended to the history. On success the result is the new current
     * context and the history has grown by one entry per stage; when a stage
     * fails the outputs of the stages before it stay recorded and its error is
     * returned.
     */
    method Execute() returns (r: Result<Context>)
      requires Valid()
      modifies this
      ensures Valid()
      ensures stages == old(stages)
      ensures r == RunBlock(stages, old(GetCurrentContext()))
      ensures contextHistory == old(contextHistory) + RunTrace(stages, old(GetCurrentContext())).outputs
      ensures r.Ok? ==> r.value == GetCurrentContext() && |contextHistory| == old(|contextHistory|) + |stages|
    {
      var start := GetCurrentContext();
      var ss := stages;
      ghost var outputs: seq<Context> := [];
      var c := start;
      var i := 0;
      assert ss[0..] == ss;
      while i < |ss|
        invariant 0 <= i <= |ss| && |outputs| == i && stages == ss
        invariant contextHistory == old(contextHistory) + outputs
        invariant c == contextHistory[|contextHistory| - 1]
        invariant RunTrace(ss, start).outputs == outputs + TraceWith(Run, ss[i..], c).outputs
        invariant RunTrace(ss, start).failure == TraceWith(Run, ss[i..], c).failure
      {
        var output := ExecuteStage(ss[i], c);
        if output.Err? {
          StepErr(Run, ss, i, c, output.error);
          TraceMatchesRunBlock(ss, start);
          return output;
        }
        StepOk(Run, ss, i, c, output.value);
        ShiftOutput(outputs, output.value, TraceWith(Run, ss[i + 1..], output.value).outputs);
        c := output.value;
        contextHistory := contextHistory + [c];
        outputs := outputs + [c];
        i := i + 1;
      }
      assert ss[i..] == [];
      TraceMatchesRunBlock(ss, start);
      return Ok(c);
    }

    /** clearContext: the history becomes one empty context; the stages stay. */
    method ClearContext()
      modifies this
      ensures Valid()
      ensures contextHistory == [map[]]
      ensures stages == old(stages)
    {
      contextHistory := [map[]];
    }
  }
}
