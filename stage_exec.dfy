/**
 * The stages' `execute` methods as the source writes them: `foreach` over a
 * block reassigning the context, and the For and ForEach loops. Each method
 * is proved to compute what Stages.Run specifies.
 */
module StageExecution {
  import opened Common
  import opened Values
  import opened StageSettings
  import opened Stages

  /** A stage's `execute`. */
  method ExecuteStage(s: Stage, ctx: Context) returns (r: Result<Context>)
    ensures r == Run(s, ctx)
    decreases s
  {
    match s
    case If(cfg, thenBlock, elseBlock) =>
      r := ExecuteIf(s, ctx);
    case For(cfg, body) =>
      r := ExecuteFor(s, ctx);
    case ForEach(cfg, body) =>
      r := ExecuteForEach(s, ctx);
    case SetValue(cfg) =>
      r := RunSetValue(cfg, ctx);
    case SumOperation(cfg) =>
      r := RunSumOperation(cfg, ctx);
    case ArrayCount(cfg) =>
      r := RunArrayCount(cfg, ctx);
  }

  /** `foreach ($block as $stage) { $context = $stage->execute($context); }` */
  method ExecuteBlock(block: seq<Stage>, ctx: Context) returns (r: Result<Context>)
    ensures r == RunBlock(block, ctx)
    decreases block
  {
    var c := ctx;
    var i := 0;
    while i < |block|
      invariant 0 <= i <= |block|
      invariant RunBlock(block, ctx) == RunBlock(block[i..], c)
    {
      assert block[i..][1..] == block[i + 1..];
      var next := ExecuteStage(block[i], c);
      if next.Err? {
        return next;
      }
      c := next.value;
      i := i + 1;
    }
    return Ok(c);
  }

  /** IfStage::execute. */
  method ExecuteIf(s: Stage, ctx: Context) returns (r: Result<Context>)
    requires s.If?
    ensures r == Run(s, ctx)
    decreases s, 0
  {
    var condition := IfCondition(s.config, ctx);
    if condition.Err? {
      return Err(condition.error);
    }
    if condition.value {
      if s.thenBlock == [] {
        return Err(MissingBlock("then"));
      }
      r := ExecuteBlock(s.thenBlock, ctx);
    } else {
      r := ExecuteBlock(s.elseBlock, ctx);
    }
  }

  /** ForStage::execute: the checks, the wrong-direction return, then the counted loop. */
  method ExecuteFor(s: Stage, ctx: Context) returns (r: Result<Context>)
    requires s.For?
    ensures r == Run(s, ctx)
    decreases s, 1
  {
    var settings := ForSettings(s.config, s.doBlock, ctx);
    if settings.Err? {
      return Err(settings.error);
    }
    var loop := settings.value;
    if WrongDirection(loop.from, loop.to, loop.step) {
      return Ok(ctx);
    }
    r := ForPasses(s, loop, ctx);
  }

  /**
   * The `for` statement of ForStage::execute: the index runs from `from` in
   * steps of `step` while it is in range, and each pass sets the index
   * parameter and runs the block.
   */
  method ForPasses(s: Stage, loop: ForLoop, ctx: Context) returns (r: Result<Context>)
    requires s.For? && loop.step != 0
    ensures r == RunPasses(s.doBlock, IndexUpdates(loop.index, loop.start, ForIndices(loop.from, loop.to, loop.step)), ctx)
    decreases s, 0
  {
    var body := s.doBlock;
    ghost var indices := ForIndices(loop.from, loop.to, loop.step);
    ghost var updates := IndexUpdates(loop.index, loop.start, indices);
    var c := ctx;
    var i := loop.from;
    var k := 0;
    while InRange(i, loop.to, loop.step)
      invariant 0 <= k <= |updates| == |indices|
      invariant indices[k..] == ForIndices(i, loop.to, loop.step)
      invariant RunPasses(body, updates, ctx) == RunPasses(body, updates[k..], c)
      decreases Remaining(i, loop.to, loop.step)
    {
      ForIndicesStep(i, loop.to, loop.step);
      SuffixStep(indices, k, i, ForIndices(i + loop.step, loop.to, loop.step));
      var value := if k == 0 then loop.start else Int(i);
      assert updates[k] == map[loop.index := value];
      PassStep(body, updates, k, c);
      MergeSingle(c, loop.index, value);
      var next := ExecuteBlock(body, c[loop.index := value]);
      if next.Err? {
        return next;
      }
      c := next.value;
      i := i + loop.step;
      k := k + 1;
    }
    assert ForIndices(i, loop.to, loop.step) == [];
    return Ok(c);
  }

  /** Taking one more element off the front of a suffix. */
  lemma SuffixStep(xs: seq<int>, k: int, x: int, rest: seq<int>)
    requires 0 <= k <= |xs| && xs[k..] == [x] + rest
    ensures k < |xs| && xs[k] == x && xs[k + 1..] == rest
  {
    assert xs[k..][0] == xs[k];
    assert xs[k..][1..] == xs[k + 1..];
  }

  /** Pass k of a loop: run the block on the updated context, then the remaining passes. */
  lemma PassStep(body: seq<Stage>, updates: seq<Context>, k: int, c: Context)
    requires 0 <= k < |updates|
    ensures RunPasses(body, updates[k..], c) ==
      match RunBlock(body, c + updates[k])
      case Err(e) => Err(e)
      case Ok(next) => RunPasses(body, updates[k + 1..], next)
  {
    assert updates[k..][0] == updates[k];
    assert updates[k..][1..] == updates[k + 1..];
  }

  /** Merging a one-entry map is assigning that entry (`setParameter`). */
  lemma MergeSingle(c: Context, key: string, v: Value)
    ensures c + map[key := v] == c[key := v]
  {
  }

  /** One pass of the For loop: the first index is `i`, the rest start at `i + step`. */
  lemma ForIndicesStep(i: int, to: int, step: int)
    requires step != 0 && InRange(i, to, step)
    ensures ForIndices(i, to, step) == [i] + ForIndices(i + step, to, step)
  {
  }

  /** ForEachStage::execute: the checks, then one pass per element. */
  method ExecuteForEach(s: Stage, ctx: Context) returns (r: Result<Context>)
    requires s.ForEach?
    ensures r == Run(s, ctx)
    decreases s, 0
  {
    var settings := ForEachItems(s.config, s.doBlock, ctx);
    if settings.Err? {
      return Err(settings.error);
    }
    var items := settings.value;
    ghost var updates := ItemUpdates(items);
    var c := ctx;
    var k := 0;
    while k < |items|
      invariant 0 <= k <= |items|
      invariant RunPasses(s.doBlock, updates, ctx) == RunPasses(s.doBlock, updates[k..], c)
    {
      PassStep(s.doBlock, updates, k, c);
      assert c + updates[k] == c["currentItem" := items[k]]["currentItem_index" := Int(k)];
      var next := ExecuteBlock(s.doBlock, c["currentItem" := items[k]]["currentItem_index" := Int(k)]);
      if next.Err? {
        return next;
      }
      c := next.value;
      k := k + 1;
    }
    return Ok(c);
  }
}
