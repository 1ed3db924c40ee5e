/**
 * The stage tree and what executing it means. Every stage takes a context and
 * returns the context for the next stage, or raises an error that aborts the
 * rest of the run. The control-flow stages (If, For, ForEach) own blocks of
 * child stages and run them in order, threading the context through the
 * stages of a block and across loop passes.
 *
 * A stage's block map is represented by one field per block name the stage
 * allows (If: then/else; For and ForEach: do). An absent block and an empty
 * one behave the same everywhere, so both are the empty sequence here.
 */
module Stages {
  import opened Common
  import opened Values
  import opened StageSettings

  datatype Stage =
    | If(config: StageConfiguration, thenBlock: seq<Stage>, elseBlock: seq<Stage>)
    | For(config: StageConfiguration, doBlock: seq<Stage>)
    | ForEach(config: StageConfiguration, doBlock: seq<Stage>)
    | SetValue(config: StageConfiguration)
    | SumOperation(config: StageConfiguration)
    | ArrayCount(config: StageConfiguration)

  /**
   * `after` is `before` with `key` set to `v` (setParameter): the only
   * parameter written is `key`, every other one is kept.
   */
  ghost predicate Updated(before: Context, after: Context, key: string, v: Value)
  {
    && key in after && after[key] == v
    && after.Keys == before.Keys + {key}
    && forall p :: p in before && p != key ==> after[p] == before[p]
  }

  // ---------------------------------------------------------------------
  // If: the ten operators

  datatype Operator =
    | Equal | NotEqual | Greater | Less | GreaterOrEqual | LessOrEqual
    | Contains | NotContains | CaseInsensitiveContains | CaseInsensitiveNotContains

  function OperatorName(op: Operator): string
  {
    match op
    case Equal => "equal"
    case NotEqual => "notEqual"
    case Greater => "greater"
    case Less => "less"
    case GreaterOrEqual => "greaterOrEqual"
    case LessOrEqual => "lessOrEqual"
    case Contains => "contains"
    case NotContains => "notContains"
    case CaseInsensitiveContains => "caseInsensitiveContains"
    case CaseInsensitiveNotContains => "caseInsensitiveNotContains"
  }

  /** The cases of the operator `switch`, in the order they are tried. */
  const Operators: seq<Operator> :=
    [Equal, NotEqual, Greater, Less, GreaterOrEqual, LessOrEqual,
     Contains, NotContains, CaseInsensitiveContains, CaseInsensitiveNotContains]

  /** A PHP `switch` compares loosely: the first case name equal to `v` wins. */
  function MatchOperator(v: Value): Option<Operator>
  {
    FirstMatch(v, Operators)
  }

  /**
   * The first of `ops` whose name is loosely equal to `v`: every case before
   * the one chosen fails to match, and none matches when there is no result.
   */
  function FirstMatch(v: Value, ops: seq<Operator>): (r: Option<Operator>)
    ensures r.Some? ==> r.value in ops && LooseEqual(v, Str(OperatorName(r.value)))
    ensures r.None? ==> forall op :: op in ops ==> !LooseEqual(v, Str(OperatorName(op)))
    ensures r.Some? ==> exists i :: && 0 <= i < |ops| && ops[i] == r.value
                                    && forall j :: 0 <= j < i ==> !LooseEqual(v, Str(OperatorName(ops[j])))
  {
    if ops == [] then None
    else if LooseEqual(v, Str(OperatorName(ops[0]))) then
      Some(ops[0])
    else
      var r := FirstMatch(v, ops[1..]);
      if r.Some? then
        var i :| && 0 <= i < |ops[1..]| && ops[1..][i] == r.value
                 && forall j :: 0 <= j < i ==> !LooseEqual(v, Str(OperatorName(ops[1..][j])));
        assert ops[i + 1] == r.value;
        assert forall j :: 1 <= j < i + 1 ==> ops[j] == ops[1..][j - 1];
        r
      else
        r
  }

  /** The operators that search text (str_contains, stripos) rather than compare. */
  predicate IsTextOperator(op: Operator)
  {
    op.Contains? || op.NotContains? || op.CaseInsensitiveContains? || op.CaseInsensitiveNotContains?
  }

  /** The condition an operator computes on the two operands. */
  function EvalCondition(op: Operator, left: Value, right: Value): (r: Result<bool>)
    ensures r.Err? ==> r.error.TypeError?
    ensures r.Err? <==> IsTextOperator(op) && (left.List? || right.List?)
  {
    match op
    case Equal => Ok(LooseEqual(left, right))
    case NotEqual => Ok(!LooseEqual(left, right))
    case Greater => Ok(Compare(left, right) > 0)
    case Less => Ok(Compare(left, right) < 0)
    case GreaterOrEqual => Ok(Compare(left, right) >= 0)
    case LessOrEqual => Ok(Compare(left, right) <= 0)
    case Contains =>
      var h :- TextArgument(left, "leftOperand");
      var n :- TextArgument(right, "rightOperand");
      Ok(ContainsText(h, n))
    case NotContains =>
      var h :- TextArgument(left, "leftOperand");
      var n :- TextArgument(right, "rightOperand");
      Ok(!ContainsText(h, n))
    case CaseInsensitiveContains =>
      var h :- TextArgument(left, "leftOperand");
      var n :- TextArgument(right, "rightOperand");
      Ok(ContainsText(Lower(h), Lower(n)))
    case CaseInsensitiveNotContains =>
      var h :- TextArgument(left, "leftOperand");
      var n :- TextArgument(right, "rightOperand");
      Ok(!ContainsText(Lower(h), Lower(n)))
  }

  /**
   * The If stage's condition: the three required settings in order, then the
   * operator lookup (an unknown operator is an execution error), then the test.
   */
  function IfCondition(cfg: StageConfiguration, ctx: Context): (r: Result<bool>)
    ensures r.Err? && r.error.InvalidOperator? ==>
      Resolve(cfg, "operator", ctx).Some? && MatchOperator(Resolve(cfg, "operator", ctx).value).None?
  {
    var left :- GetSettingValue(cfg, "leftOperand", ctx, true, Null);
    var operator :- GetSettingValue(cfg, "operator", ctx, true, Null);
    var right :- GetSettingValue(cfg, "rightOperand", ctx, true, Null);
    match MatchOperator(operator)
    case None => Err(InvalidOperator(Stringify(operator)))
    case Some(op) => EvalCondition(op, left, right)
  }

  /** The If stage reports the first of its three settings that is missing. */
  lemma IfConditionMissing(cfg: StageConfiguration, ctx: Context)
    ensures Resolve(cfg, "leftOperand", ctx).None? ==> IfCondition(cfg, ctx) == Err(MissingSetting("leftOperand"))
    ensures Resolve(cfg, "leftOperand", ctx).Some? && Resolve(cfg, "operator", ctx).None? ==>
      IfCondition(cfg, ctx) == Err(MissingSetting("operator"))
    ensures (Resolve(cfg, "leftOperand", ctx).Some? && Resolve(cfg, "operator", ctx).Some? &&
             Resolve(cfg, "rightOperand", ctx).None?) ==> IfCondition(cfg, ctx) == Err(MissingSetting("rightOperand"))
  {
  }

  /**
   * With all three settings present, an unknown operator is an execution error
   * naming it, and a known one decides the condition.
   */
  lemma IfConditionEvaluates(cfg: StageConfiguration, ctx: Context, left: Value, operator: Value, right: Value)
    requires Resolve(cfg, "leftOperand", ctx) == Some(left)
    requires Resolve(cfg, "operator", ctx) == Some(operator)
    requires Resolve(cfg, "rightOperand", ctx) == Some(right)
    ensures MatchOperator(operator).None? ==> IfCondition(cfg, ctx) == Err(InvalidOperator(Stringify(operator)))
    ensures MatchOperator(operator).Some? ==> IfCondition(cfg, ctx) == EvalCondition(MatchOperator(operator).value, left, right)
  {
  }

  // ---------------------------------------------------------------------
  // For: the counted loop

  /**
   * The resolved and checked settings of a For stage. `start` is the `from`
   * setting as given, which is what the index parameter holds on the first
   * pass; from the second pass on it holds the integer sum `$i += $step`.
   */
  datatype ForLoop = ForLoop(index: string, start: Value, from: int, to: int, step: int)

  /**
   * An integer operand for the loop arithmetic: an integer or an integer
   * numeric string. Anything else makes `+=` fail with a TypeError.
   */
  function AsInteger(v: Value, what: string): (r: Result<int>)
    ensures v.Int? ==> r == Ok(v.i)
    ensures v.Str? && IsNumeric(v.s) ==> r == Ok(ParseInt(v.s).value)
    ensures !v.Int? && !(v.Str? && IsNumeric(v.s)) ==> r == Err(TypeError(what))
  {
    match v
    case Int(i) => Ok(i)
    case Str(s) => if IsNumeric(s) then Ok(ParseInt(s).value) else Err(TypeError(what))
    case _ => Err(TypeError(what))
  }

  /**
   * The For stage's setup, in the order it checks: `from` and `to` are
   * required, `step` defaults to 1 and `indexParameterName` to
   * "currentIndex"; then the `do` block must be non-empty, then a step
   * loosely equal to 0 is refused, and only then are the bounds and the step
   * read as integers. The source compares the raw settings loosely;
   * IntegerOperandsCompare shows that on integer operands this is the
   * integer comparison made here.
   */
  function ForSettings(cfg: StageConfiguration, body: seq<Stage>, ctx: Context): (r: Result<ForLoop>)
    ensures Resolve(cfg, "from", ctx).None? ==> r == Err(MissingSetting("from"))
    ensures Resolve(cfg, "from", ctx).Some? && Resolve(cfg, "to", ctx).None? ==> r == Err(MissingSetting("to"))
    ensures Resolve(cfg, "from", ctx).Some? && Resolve(cfg, "to", ctx).Some? && body == [] ==>
      r == Err(MissingBlock("do"))
    ensures r.Ok? ==> r.value.step != 0 && body != []
    ensures r.Ok? && Resolve(cfg, "step", ctx).None? ==> r.value.step == 1
    ensures r.Ok? && Resolve(cfg, "indexParameterName", ctx).None? ==> r.value.index == "currentIndex"
    ensures r.Ok? ==> Resolve(cfg, "from", ctx) == Some(r.value.start) && AsInteger(r.value.start, "from") == Ok(r.value.from)
    ensures r.Ok? ==> Resolve(cfg, "to", ctx).Some? && AsInteger(Resolve(cfg, "to", ctx).value, "to") == Ok(r.value.to)
    ensures r.Ok? && Resolve(cfg, "step", ctx).Some? ==>
      AsInteger(Resolve(cfg, "step", ctx).value, "step") == Ok(r.value.step)
    ensures r.Ok? && Resolve(cfg, "indexParameterName", ctx).Some? ==>
      r.value.index == Stringify(Resolve(cfg, "indexParameterName", ctx).value)
    ensures Resolve(cfg, "from", ctx).Some? && Resolve(cfg, "to", ctx).Some? && body != [] ==>
      (LooseEqual(OptionalSetting(cfg, "step", ctx, Int(1)), Int(0)) <==> r == Err(ZeroStep))
    ensures Resolve(cfg, "from", ctx).Some? && Resolve(cfg, "to", ctx).Some? && body != [] &&
            !LooseEqual(OptionalSetting(cfg, "step", ctx, Int(1)), Int(0)) ==>
      (AsInteger(Resolve(cfg, "from", ctx).value, "from").Err? ==> r == Err(TypeError("from")))
    ensures Resolve(cfg, "from", ctx).Some? && Resolve(cfg, "to", ctx).Some? && body != [] &&
            !LooseEqual(OptionalSetting(cfg, "step", ctx, Int(1)), Int(0)) &&
            AsInteger(Resolve(cfg, "from", ctx).value, "from").Ok? ==>
      (AsInteger(Resolve(cfg, "to", ctx).value, "to").Err? ==> r == Err(TypeError("to")))
    ensures Resolve(cfg, "from", ctx).Some? && Resolve(cfg, "to", ctx).Some? && body != [] &&
            !LooseEqual(OptionalSetting(cfg, "step", ctx, Int(1)), Int(0)) &&
            AsInteger(Resolve(cfg, "from", ctx).value, "from").Ok? &&
            AsInteger(Resolve(cfg, "to", ctx).value, "to").Ok? && Resolve(cfg, "step", ctx).Some? ==>
      (AsInteger(Resolve(cfg, "step", ctx).value, "step").Err? ==> r == Err(TypeError("step")))
    ensures r == Err(ZeroStep) ==> body != []
  {
    var from :- GetSettingValue(cfg, "from", ctx, true, Null);
    var to :- GetSettingValue(cfg, "to", ctx, true, Null);
    var step := OptionalSetting(cfg, "step", ctx, Int(1));
    var index := OptionalSetting(cfg, "indexParameterName", ctx, Str("currentIndex"));
    if body == [] then Err(MissingBlock("do"))
    else if LooseEqual(step, Int(0)) then Err(ZeroStep)
    else
      var f :- AsInteger(from, "from");
      var t :- AsInteger(to, "to");
      var s :- AsInteger(step, "step");
      AsIntegerLooselyEqual(step, "step");
      Ok(ForLoop(Stringify(index), from, f, t, s))
  }

  /**
   * A step that reads as the integer 0 is refused as a zero step whatever the
   * bounds are, even bounds that are not integers.
   */
  lemma ZeroStepBeforeBounds(cfg: StageConfiguration, body: seq<Stage>, ctx: Context)
    requires Resolve(cfg, "from", ctx).Some? && Resolve(cfg, "to", ctx).Some? && body != []
    requires AsInteger(OptionalSetting(cfg, "step", ctx, Int(1)), "step") == Ok(0)
    ensures ForSettings(cfg, body, ctx) == Err(ZeroStep)
  {
    AsIntegerLooselyEqual(OptionalSetting(cfg, "step", ctx, Int(1)), "step");
  }

  /** The loop test of `for ($i = $from; $step > 0 ? $i < $to : $i > $to; $i += $step)`. */
  predicate InRange(i: int, to: int, step: int)
  {
    if step > 0 then i < to else i > to
  }

  /** The short-circuit taken before the loop when the step points away from `to`. */
  predicate WrongDirection(from: int, to: int, step: int)
  {
    (step > 0 && from >= to) || (step < 0 && from <= to)
  }

  /** The distance the loop still has to cover; it shrinks by |step| per pass. */
  function Remaining(i: int, to: int, step: int): int
  {
    if step > 0 then to - i else i - to
  }

  /** The values the index takes, starting at `i`, in the order the loop visits them. */
  function ForIndices(i: int, to: int, step: int): seq<int>
    requires step != 0
    decreases Remaining(i, to, step)
  {
    if InRange(i, to, step) then [i] + ForIndices(i + step, to, step) else []
  }

  /**
   * The parameter assignments made before each pass of a For loop: the first
   * pass sees `start` itself, the later ones the integer index.
   */
  function IndexUpdates(name: string, start: Value, indices: seq<int>): (us: seq<Context>)
    ensures |us| == |indices|
  {
    seq(|indices|, k requires 0 <= k < |indices| => map[name := if k == 0 then start else Int(indices[k])])
  }

  // ---------------------------------------------------------------------
  // ForEach: the collection loop

  /**
   * The ForEach stage's setup, in the order it checks: `collection` is
   * required and must be an array, then the `do` block must be non-empty.
   */
  function ForEachItems(cfg: StageConfiguration, body: seq<Stage>, ctx: Context): (r: Result<seq<Value>>)
    ensures Resolve(cfg, "collection", ctx).None? ==> r == Err(MissingSetting("collection"))
    ensures Resolve(cfg, "collection", ctx).Some? && !Resolve(cfg, "collection", ctx).value.List? ==>
      r == Err(NotAnArray("collection"))
    ensures Resolve(cfg, "collection", ctx).Some? && Resolve(cfg, "collection", ctx).value.List? && body == [] ==>
      r == Err(MissingBlock("do"))
    ensures r.Ok? ==> body != [] && Resolve(cfg, "collection", ctx) == Some(List(r.value))
  {
    var collection :- GetSettingValue(cfg, "collection", ctx, true, Null);
    if !collection.List? then Err(NotAnArray("collection"))
    else if body == [] then Err(MissingBlock("do"))
    else Ok(collection.items)
  }

  /** The parameter assignments made before each pass: the item and its position. */
  function ItemUpdates(items: seq<Value>): (us: seq<Context>)
    ensures |us| == |items|
  {
    seq(|items|, k requires 0 <= k < |items| => map["currentItem" := items[k], "currentItem_index" := Int(k)])
  }

  // ---------------------------------------------------------------------
  // Leaf stages

  /** SetValueStage: `parameterName` and `parameterValue` are required; only that parameter is written. */
  function RunSetValue(cfg: StageConfiguration, ctx: Context): (r: Result<Context>)
    ensures r.Ok? <==> Resolve(cfg, "parameterName", ctx).Some? && Resolve(cfg, "parameterValue", ctx).Some?
    ensures r.Ok? ==>
      Updated(ctx, r.value, Stringify(Resolve(cfg, "parameterName", ctx).value),
              Resolve(cfg, "parameterValue", ctx).value)
  {
    var name :- GetSettingValue(cfg, "parameterName", ctx, true, Null);
    var value :- GetSettingValue(cfg, "parameterValue", ctx, true, Null);
    Ok(ctx[Stringify(name) := value])
  }

  /** ArrayCountStage: the named parameter must hold an array; its size goes to `resultTo`. */
  function RunArrayCount(cfg: StageConfiguration, ctx: Context): (r: Result<Context>)
    ensures r.Ok? <==>
      && Resolve(cfg, "arrayParameterName", ctx).Some?
      && Resolve(cfg, "resultTo", ctx).Some?
      && Lookup(ctx, Stringify(Resolve(cfg, "arrayParameterName", ctx).value)).List?
    ensures r.Ok? ==>
      Updated(ctx, r.value, Stringify(Resolve(cfg, "resultTo", ctx).value),
              Int(|Lookup(ctx, Stringify(Resolve(cfg, "arrayParameterName", ctx).value)).items|))
    ensures r.Err? && Resolve(cfg, "arrayParameterName", ctx).Some? && Resolve(cfg, "resultTo", ctx).Some? ==>
      r.error.NotAnArray?
  {
    var arrayName :- GetSettingValue(cfg, "arrayParameterName", ctx, true, Null);
    var resultTo :- GetSettingValue(cfg, "resultTo", ctx, true, Null);
    var arr := Lookup(ctx, Stringify(arrayName));
    if !arr.List? then Err(NotAnArray(Stringify(arrayName)))
    else Ok(ctx[Stringify(resultTo) := Int(|arr.items|)])
  }

  /**
   * isNumericLike: integers are, strings are when their trimmed form is a
   * non-empty numeric string, nothing else is.
   */
  predicate IsNumericLike(v: Value)
  {
    match v
    case Int(_) => true
    case Str(s) => Trim(s) != "" && IsNumeric(Trim(s))
    case _ => false
  }

  /** `$x + 0` for a numeric-like value. */
  function NumericValue(v: Value): int
    requires IsNumericLike(v)
  {
    match v
    case Int(i) => i
    case Str(s) => ParseInt(Trim(s)).value
  }

  /**
   * The sum operation: numbers add, other scalars concatenate as strings,
   * arrays merge, and a scalar is pushed onto the end of an array operand.
   */
  function SumValues(a: Value, b: Value): Value
  {
    if !a.List? && !b.List? then
      if IsNumericLike(a) && IsNumericLike(b) then Int(NumericValue(a) + NumericValue(b))
      else Str(Stringify(a) + Stringify(b))
    else if a.List? && b.List? then List(a.items + b.items)
    else if a.List? then List(a.items + [b])
    else List(b.items + [a])
  }

  /** SumOperationStage: both operands required, the result goes to `resultTo` (default "SUM_RESULT"). */
  function RunSumOperation(cfg: StageConfiguration, ctx: Context): (r: Result<Context>)
    ensures r.Ok? <==> Resolve(cfg, "operandA", ctx).Some? && Resolve(cfg, "operandB", ctx).Some?
    ensures r.Ok? ==>
      var key := if Resolve(cfg, "resultTo", ctx).Some?
                 then Stringify(Resolve(cfg, "resultTo", ctx).value) else "SUM_RESULT";
      Updated(ctx, r.value, key,
              SumValues(Resolve(cfg, "operandA", ctx).value, Resolve(cfg, "operandB", ctx).value))
  {
    var a :- GetSettingValue(cfg, "operandA", ctx, true, Null);
    var b :- GetSettingValue(cfg, "operandB", ctx, true, Null);
    var resultTo := OptionalSetting(cfg, "resultTo", ctx, Str("SUM_RESULT"));
    Ok(ctx[Stringify(resultTo) := SumValues(a, b)])
  }

  // ---------------------------------------------------------------------
  // Executing the tree

  /** `execute` of one stage. */
  function Run(s: Stage, ctx: Context): Result<Context>
    decreases s, 0, 0
  {
    match s
    case If(cfg, thenBlock, elseBlock) =>
      var condition :- IfCondition(cfg, ctx);
      if condition then
        if thenBlock == [] then Err(MissingBlock("then")) else RunBlock(thenBlock, ctx)
      else RunBlock(elseBlock, ctx)
    case For(cfg, body) =>
      var loop :- ForSettings(cfg, body, ctx);
      if WrongDirection(loop.from, loop.to, loop.step) then Ok(ctx)
      else RunPasses(body, IndexUpdates(loop.index, loop.start, ForIndices(loop.from, loop.to, loop.step)), ctx)
    case ForEach(cfg, body) =>
      var items :- ForEachItems(cfg, body, ctx);
      RunPasses(body, ItemUpdates(items), ctx)
    case SetValue(cfg) => RunSetValue(cfg, ctx)
    case SumOperation(cfg) => RunSumOperation(cfg, ctx)
    case ArrayCount(cfg) => RunArrayCount(cfg, ctx)
  }

  /** The stages of a block, left to right, each fed the previous one's output. */
  function RunBlock(block: seq<Stage>, ctx: Context): Result<Context>
    decreases block, 0, 0
  {
    if block == [] then Ok(ctx)
    else
      var next :- Run(block[0], ctx);
      RunBlock(block[1..], next)
  }

  /** One pass of `body` per assignment: set the loop parameters, then run the block. */
  function RunPasses(body: seq<Stage>, updates: seq<Context>, ctx: Context): Result<Context>
    decreases body, 1, |updates|
  {
    if updates == [] then Ok(ctx)
    else
      var next :- RunBlock(body, ctx + updates[0]);
      RunPasses(body, updates[1..], next)
  }

  // ---------------------------------------------------------------------
  // Properties

  /** Running two blocks one after the other is running their concatenation. */
  lemma {:induction false} RunBlockAppend(b1: seq<Stage>, b2: seq<Stage>, ctx: Context)
    ensures RunBlock(b1 + b2, ctx) ==
      match RunBlock(b1, ctx)
      case Err(e) => Err(e)
      case Ok(mid) => RunBlock(b2, mid)
    decreases b1
  {
    if b1 == [] {
      assert b1 + b2 == b2;
    } else {
      assert b1 + b2 != [];
      assert (b1 + b2)[0] == b1[0];
      assert (b1 + b2)[1..] == b1[1..] + b2;
      match Run(b1[0], ctx)
      case Err(_) =>
      case Ok(next) => RunBlockAppend(b1[1..], b2, next);
    }
  }

  /** A block of one stage is that stage. */
  lemma RunBlockSingle(s: Stage, ctx: Context)
    ensures RunBlock([s], ctx) == Run(s, ctx)
  {
    assert [s][1..] == [];
  }

  /**
   * The contexts each pass starts from, up to and including the first pass
   * whose block fails.
   */
  function PassInputs(body: seq<Stage>, updates: seq<Context>, ctx: Context): (inputs: seq<Context>)
    ensures |inputs| <= |updates|
    decreases |updates|
  {
    if updates == [] then []
    else
      var start := ctx + updates[0];
      [start] + match RunBlock(body, start)
                case Err(_) => []
                case Ok(next) => PassInputs(body, updates[1..], next)
  }

  /**
   * When the loop completes, there was one pass per assignment, and pass k
   * started from a context holding every parameter assignment k makes.
   */
  lemma {:induction false} PassInputsComplete(body: seq<Stage>, updates: seq<Context>, ctx: Context)
    requires RunPasses(body, updates, ctx).Ok?
    ensures |PassInputs(body, updates, ctx)| == |updates|
    ensures forall k, p :: 0 <= k < |updates| && p in updates[k] ==>
      p in PassInputs(body, updates, ctx)[k] && PassInputs(body, updates, ctx)[k][p] == updates[k][p]
    decreases |updates|
  {
    if updates != [] {
      var start := ctx + updates[0];
      var next := RunBlock(body, start).value;
      PassInputsComplete(body, updates[1..], next);
      var inputs := PassInputs(body, updates, ctx);
      assert inputs == [start] + PassInputs(body, updates[1..], next);
      forall k, p | 0 <= k < |updates| && p in updates[k]
        ensures p in inputs[k] && inputs[k][p] == updates[k][p]
      {
        if k > 0 {
          assert inputs[k] == PassInputs(body, updates[1..], next)[k - 1];
          assert updates[k] == updates[1..][k - 1];
        }
      }
    }
  }

  /** With no assignments the loop leaves the context as it was. */
  lemma RunPassesEmpty(body: seq<Stage>, ctx: Context)
    ensures RunPasses(body, [], ctx) == Ok(ctx)
  {
  }

  /** Pass k of a For loop sees the index `from + k * step`, and it passes the loop test. */
  lemma {:induction false} ForIndexAt(from: int, to: int, step: int, k: int)
    requires step != 0 && 0 <= k < |ForIndices(from, to, step)|
    ensures ForIndices(from, to, step)[k] == from + k * step
    ensures InRange(from + k * step, to, step)
    decreases k
  {
    assert InRange(from, to, step);
    if k > 0 {
      assert ForIndices(from, to, step)[k] == ForIndices(from + step, to, step)[k - 1];
      ForIndexAt(from + step, to, step, k - 1);
      assert from + step + (k - 1) * step == from + k * step;
    }
  }

  /** The index after the last pass fails the loop test. */
  lemma {:induction false} ForIndicesEnd(from: int, to: int, step: int)
    requires step != 0
    ensures !InRange(from + |ForIndices(from, to, step)| * step, to, step)
    decreases Remaining(from, to, step)
  {
    if InRange(from, to, step) {
      ForIndicesEnd(from + step, to, step);
      var n := |ForIndices(from + step, to, step)|;
      assert |ForIndices(from, to, step)| == n + 1;
      assert from + step + n * step == from + (n + 1) * step;
    }
  }

  /**
   * The index values of a For loop: pass k sees `from + k * step`, every
   * value passes the loop test, and the next one would not.
   */
  lemma ForIndicesShape(from: int, to: int, step: int)
    requires step != 0
    ensures var xs := ForIndices(from, to, step);
      && (forall k :: 0 <= k < |xs| ==> xs[k] == from + k * step && InRange(xs[k], to, step))
      && !InRange(from + |xs| * step, to, step)
  {
    var xs := ForIndices(from, to, step);
    forall k | 0 <= k < |xs| ensures xs[k] == from + k * step && InRange(xs[k], to, step) {
      ForIndexAt(from, to, step, k);
    }
    ForIndicesEnd(from, to, step);
  }

  /** The division fact behind the pass count. */
  lemma CeilingQuotient(d: int, step: int, n: int)
    requires step > 0 && (n - 1) * step < d <= n * step
    ensures (d + step - 1) / step == n
  {
    var q := d + step - 1;
    var m := q / step;
    assert m * step <= q < m * step + step;
    if m < n {
      MultiplyMonotone(m + 1, n, step);
      assert false;
    } else if m > n {
      MultiplyMonotone(n + 1, m, step);
      assert false;
    }
  }

  lemma MultiplyMonotone(a: int, b: int, c: int)
    requires a <= b && c > 0
    ensures a * c <= b * c
  {
    assert b * c - a * c == (b - a) * c;
  }

  /** A For loop with a positive step makes ceil((to - from) / step) passes. */
  lemma ForPassCount(from: int, to: int, step: int)
    requires step > 0 && from < to
    ensures |ForIndices(from, to, step)| == (to - from + step - 1) / step
  {
    ForIndicesShape(from, to, step);
    var n := |ForIndices(from, to, step)|;
    assert ForIndices(from, to, step)[0] == from;
    assert n >= 1;
    assert ForIndices(from, to, step)[n - 1] == from + (n - 1) * step;
    CeilingQuotient(to - from, step, n);
  }

  /** A For loop with a negative step makes ceil((from - to) / |step|) passes. */
  lemma ForPassCountDown(from: int, to: int, step: int)
    requires step < 0 && from > to
    ensures |ForIndices(from, to, step)| == (from - to - step - 1) / -step
  {
    ForIndicesShape(from, to, step);
    var n := |ForIndices(from, to, step)|;
    assert ForIndices(from, to, step)[0] == from;
    assert n >= 1;
    assert ForIndices(from, to, step)[n - 1] == from + (n - 1) * step;
    assert (n - 1) * -step == -((n - 1) * step) && n * -step == -(n * step);
    CeilingQuotient(from - to, -step, n);
  }

  /** The short-circuit for a step pointing away from `to` agrees with the loop making no pass. */
  lemma WrongDirectionMeansNoPass(from: int, to: int, step: int)
    requires step != 0
    ensures WrongDirection(from, to, step) <==> ForIndices(from, to, step) == []
  {
  }

  /**
   * The For stage's passes: when it completes, there were as many passes as
   * indices the loop test admits, and pass k started with the index
   * parameter holding `from + k * step` (the first pass: the `from` setting
   * as given, which loosely equals `from`).
   */
  lemma ForStagePasses(cfg: StageConfiguration, body: seq<Stage>, ctx: Context)
    requires ForSettings(cfg, body, ctx).Ok?
    requires Run(For(cfg, body), ctx).Ok?
    ensures var loop := ForSettings(cfg, body, ctx).value;
      var inputs := PassInputs(body, IndexUpdates(loop.index, loop.start, ForIndices(loop.from, loop.to, loop.step)), ctx);
      && |inputs| == |ForIndices(loop.from, loop.to, loop.step)|
      && (|inputs| > 0 ==> loop.index in inputs[0] && inputs[0][loop.index] == loop.start
                           && LooseEqual(loop.start, Int(loop.from)))
      && forall k :: 0 < k < |inputs| ==>
           loop.index in inputs[k] && inputs[k][loop.index] == Int(loop.from + k * loop.step)
  {
    var loop := ForSettings(cfg, body, ctx).value;
    AsIntegerLooselyEqual(loop.start, "from");
    if WrongDirection(loop.from, loop.to, loop.step) {
      WrongDirectionMeansNoPass(loop.from, loop.to, loop.step);
    }
    IndexedPasses(body, loop.index, loop.start, loop.from, loop.to, loop.step, ctx);
  }

  /** The passes of a counted loop that completes, whatever the stage it belongs to. */
  lemma IndexedPasses(body: seq<Stage>, index: string, start: Value, from: int, to: int, step: int, ctx: Context)
    requires step != 0
    requires RunPasses(body, IndexUpdates(index, start, ForIndices(from, to, step)), ctx).Ok?
    ensures var inputs := PassInputs(body, IndexUpdates(index, start, ForIndices(from, to, step)), ctx);
      && |inputs| == |ForIndices(from, to, step)|
      && (|inputs| > 0 ==> index in inputs[0] && inputs[0][index] == start)
      && forall k :: 0 < k < |inputs| ==> index in inputs[k] && inputs[k][index] == Int(from + k * step)
  {
    var xs := ForIndices(from, to, step);
    var us := IndexUpdates(index, start, xs);
    ForIndicesShape(from, to, step);
    PassInputsComplete(body, us, ctx);
    forall k | 0 <= k < |us| ensures index in us[k] {
    }
  }

  /** An operand accepted as an integer loosely equals that integer. */
  lemma AsIntegerLooselyEqual(v: Value, what: string)
    requires AsInteger(v, what).Ok?
    ensures LooseEqual(v, Int(AsInteger(v, what).value))
  {
  }

  /**
   * On operands accepted as integers, PHP's loose comparison is integer
   * comparison: the source's `$step == 0`, `$step > 0`, `$from >= $to` and
   * `$i < $to` on the raw settings decide as the model's tests on integers.
   */
  lemma IntegerOperandsCompare(v: Value, w: Value)
    requires AsInteger(v, "v").Ok? && AsInteger(w, "w").Ok?
    ensures Compare(v, w) == CompareInt(AsInteger(v, "v").value, AsInteger(w, "w").value)
  {
  }

  /**
   * The ForEach stage's passes: when it completes, there was one pass per
   * element, and pass k started with `currentItem` holding element k and
   * `currentItem_index` holding k.
   */
  lemma ForEachStagePasses(cfg: StageConfiguration, body: seq<Stage>, ctx: Context)
    requires ForEachItems(cfg, body, ctx).Ok?
    requires Run(ForEach(cfg, body), ctx).Ok?
    ensures var items := ForEachItems(cfg, body, ctx).value;
      var inputs := PassInputs(body, ItemUpdates(items), ctx);
      && |inputs| == |items|
      && forall k :: 0 <= k < |items| ==>
           && "currentItem" in inputs[k] && inputs[k]["currentItem"] == items[k]
           && "currentItem_index" in inputs[k] && inputs[k]["currentItem_index"] == Int(k)
  {
    var items := ForEachItems(cfg, body, ctx).value;
    var us := ItemUpdates(items);
    PassInputsComplete(body, us, ctx);
    forall k | 0 <= k < |items| ensures "currentItem" in us[k] && "currentItem_index" in us[k] {
    }
  }

  /** An empty collection with a non-empty `do` block leaves the context as it was. */
  lemma ForEachEmptyCollection(cfg: StageConfiguration, body: seq<Stage>, ctx: Context)
    requires Resolve(cfg, "collection", ctx) == Some(List([])) && body != []
    ensures Run(ForEach(cfg, body), ctx) == Ok(ctx)
  {
  }

  /** A false condition with no `else` stages returns the input context unchanged. */
  lemma IfFalseWithoutElse(cfg: StageConfiguration, thenBlock: seq<Stage>, ctx: Context)
    requires IfCondition(cfg, ctx) == Ok(false)
    ensures Run(If(cfg, thenBlock, []), ctx) == Ok(ctx)
  {
  }

  // ---- operators

  /** equal/notEqual and contains/notContains are complementary. */
  lemma ComplementaryOperators(left: Value, right: Value)
    ensures EvalCondition(Equal, left, right).Ok? && EvalCondition(NotEqual, left, right).Ok?
    ensures EvalCondition(NotEqual, left, right).value == !EvalCondition(Equal, left, right).value
    ensures EvalCondition(Contains, left, right).Ok? == EvalCondition(NotContains, left, right).Ok?
    ensures EvalCondition(Contains, left, right).Ok? ==>
      EvalCondition(NotContains, left, right).value == !EvalCondition(Contains, left, right).value
  {
  }

  /** The case-insensitive pair is complementary too, and ignores the case of both operands. */
  lemma CaseInsensitiveOperators(left: Value, right: Value)
    ensures EvalCondition(CaseInsensitiveContains, left, right).Ok? ==
            EvalCondition(CaseInsensitiveNotContains, left, right).Ok?
    ensures EvalCondition(CaseInsensitiveContains, left, right).Ok? ==>
      && EvalCondition(CaseInsensitiveNotContains, left, right).value ==
         !EvalCondition(CaseInsensitiveContains, left, right).value
      && EvalCondition(CaseInsensitiveContains, left, right).value ==
         ContainsText(Lower(Stringify(left)), Lower(Stringify(right)))
  {
    if !left.List? && !right.List? {
      CaseInsensitiveContainsOperator(left, right);
    }
  }

  /** On two non-array operands, the case-insensitive pair searches the lower-cased string forms. */
  lemma CaseInsensitiveContainsOperator(left: Value, right: Value)
    requires !left.List? && !right.List?
    ensures EvalCondition(CaseInsensitiveContains, left, right) ==
            Ok(ContainsText(Lower(Stringify(left)), Lower(Stringify(right))))
    ensures EvalCondition(CaseInsensitiveNotContains, left, right) ==
            Ok(!ContainsText(Lower(Stringify(left)), Lower(Stringify(right))))
  {
  }

  /** On two non-array operands, `contains` is substring search on their string forms. */
  lemma ContainsOperator(left: Value, right: Value)
    requires !left.List? && !right.List?
    ensures EvalCondition(Contains, left, right) == Ok(ContainsText(Stringify(left), Stringify(right)))
    ensures EvalCondition(NotContains, left, right) == Ok(!ContainsText(Stringify(left), Stringify(right)))
  {
  }

  /**
   * The case-insensitive operators see only the lower-cased text: changing
   * the ASCII case of either operand does not change the condition.
   */
  lemma CaseInsensitiveIgnoresCase(s: string, s': string, t: string, t': string)
    requires Lower(s) == Lower(s') && Lower(t) == Lower(t')
    ensures EvalCondition(CaseInsensitiveContains, Str(s), Str(t)) ==
            EvalCondition(CaseInsensitiveContains, Str(s'), Str(t'))
    ensures EvalCondition(CaseInsensitiveNotContains, Str(s), Str(t)) ==
            EvalCondition(CaseInsensitiveNotContains, Str(s'), Str(t'))
  {
    CaseInsensitiveContainsOperator(Str(s), Str(t));
    CaseInsensitiveContainsOperator(Str(s'), Str(t'));
  }

  /** The ordering operators are converses, and equality is symmetric. */
  lemma ConverseOperators(left: Value, right: Value)
    ensures EvalCondition(Greater, left, right) == EvalCondition(Less, right, left)
    ensures EvalCondition(GreaterOrEqual, left, right) == EvalCondition(LessOrEqual, right, left)
    ensures EvalCondition(Equal, left, right) == EvalCondition(Equal, right, left)
  {
    CompareAntisymmetric(left, right);
  }

  /** On integers the operators are integer equality and order. */
  lemma IntegerOperators(x: int, y: int)
    ensures EvalCondition(Greater, Int(x), Int(y)) == Ok(x > y)
    ensures EvalCondition(Less, Int(x), Int(y)) == Ok(x < y)
    ensures EvalCondition(GreaterOrEqual, Int(x), Int(y)) == Ok(x >= y)
    ensures EvalCondition(LessOrEqual, Int(x), Int(y)) == Ok(x <= y)
    ensures EvalCondition(Equal, Int(x), Int(y)) == Ok(x == y)
    ensures EvalCondition(NotEqual, Int(x), Int(y)) == Ok(x != y)
  {
  }

  /** A decimal string compares with an integer by its value ("5" equals 5). */
  lemma DecimalStringOperators(x: int, y: int)
    ensures EvalCondition(Equal, Str(IntToString(x)), Int(y)) == Ok(x == y)
    ensures EvalCondition(Less, Str(IntToString(x)), Int(y)) == Ok(x < y)
    ensures EvalCondition(Greater, Int(y), Str(IntToString(x))) == Ok(y > x)
  {
    NumericStringComparesAsInteger(x, y);
  }

  /** Every value is equal to itself under `equal`. */
  lemma EqualIsReflexive(v: Value)
    ensures EvalCondition(Equal, v, v) == Ok(true)
  {
    CompareReflexive(v);
  }

  // ---- leaf stages

  /** isNumericLike: true for integers, false for non-strings and for blank strings. */
  lemma NumericLikeCases(v: Value)
    ensures v.Int? ==> IsNumericLike(v)
    ensures !v.Int? && !v.Str? ==> !IsNumericLike(v)
    ensures v.Str? && Trim(v.s) == "" ==> !IsNumericLike(v)
  {
  }

  /** A decimal string is numeric-like and adds as the integer it spells. */
  lemma DecimalIsNumericLike(x: int)
    ensures IsNumericLike(Str(IntToString(x))) && NumericValue(Str(IntToString(x))) == x
  {
    DecimalIsTrimmed(x);
    IntToStringRoundTrip(x);
    NumericLikeString(IntToString(x), x);
  }

  lemma NumericLikeString(t: string, x: int)
    requires Trim(t) == t && ParseInt(t) == Some(x)
    ensures IsNumericLike(Str(t)) && NumericValue(Str(t)) == x
  {
  }

  lemma DecimalIsTrimmed(x: int)
    ensures Trim(IntToString(x)) == IntToString(x)
  {
    var s := IntToString(x);
    forall k | 0 <= k < |s| ensures s[k] !in TrimChars {
      NoTrimInIntToString(x, k);
    }
  }

  lemma NoTrimInIntToString(x: int, k: int)
    requires 0 <= k < |IntToString(x)|
    ensures IntToString(x)[k] !in TrimChars
  {
    if x < 0 {
      assert IntToString(x) == "-" + NatToString(-x);
      if k > 0 {
        assert IntToString(x)[k] == NatToString(-x)[k - 1];
      }
    }
  }

  /** Integers add as integers. */
  lemma SumOfIntegers(x: int, y: int)
    ensures SumValues(Int(x), Int(y)) == Int(x + y)
  {
    SumOfNumericLike(Int(x), Int(y));
  }

  /** Decimal strings add as numbers: "2" + "3" stores 5. */
  lemma SumOfDecimals(x: int, y: int)
    ensures SumValues(Str(IntToString(x)), Str(IntToString(y))) == Int(x + y)
  {
    DecimalIsNumericLike(x);
    DecimalIsNumericLike(y);
    SumOfNumericLike(Str(IntToString(x)), Str(IntToString(y)));
  }

  /** Two numeric-like operands add as numbers. */
  lemma SumOfNumericLike(a: Value, b: Value)
    requires IsNumericLike(a) && IsNumericLike(b)
    ensures SumValues(a, b) == Int(NumericValue(a) + NumericValue(b))
  {
  }

  /**
   * Arrays merge A then B; a scalar is appended to the array whichever side
   * it is on; scalars that are not both numeric concatenate A then B.
   */
  lemma SumShapes(a: Value, b: Value)
    ensures a.List? && b.List? ==> SumValues(a, b) == List(a.items + b.items)
    ensures a.List? && !b.List? ==> SumValues(a, b) == List(a.items + [b]) == SumValues(b, a)
    ensures !a.List? && !b.List? && !(IsNumericLike(a) && IsNumericLike(b)) ==>
      SumValues(a, b) == Str(Stringify(a) + Stringify(b))
  {
  }
}
