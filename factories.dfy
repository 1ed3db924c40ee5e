/**
 * Building stages from their configurations: IfStageFactory, which checks
 * the operator before the stage exists, and the lookup of a stage type name.
 */
module StageFactories {
  import opened Common
  import opened Values
  import opened StageSettings
  import opened Stages

  /**
   * IfStageFactory::instantiate: the operator is required and read against
   * a fresh empty context; a value that is none of the ten operators is a
   * configuration error; otherwise an If stage holding the configuration
   * (its blocks are attached elsewhere).
   */
  function InstantiateIf(cfg: StageConfiguration): (r: Result<Stage>)
    ensures Resolve(cfg, "operator", map[]).None? ==> r == Err(MissingSetting("operator"))
    ensures Resolve(cfg, "operator", map[]).Some? ==>
      (r.Ok? <==> exists op :: op in Operators && LooseEqual(Resolve(cfg, "operator", map[]).value, Str(OperatorName(op))))
    ensures r.Ok? ==> r.value == If(cfg, [], [])
    ensures r.Err? && Resolve(cfg, "operator", map[]).Some? ==>
      r.error == InvalidOperatorConfiguration(Stringify(Resolve(cfg, "operator", map[]).value))
  {
    var operator :- GetSettingValue(cfg, "operator", map[], true, Null);
    if MatchOperator(operator).None? then Err(InvalidOperatorConfiguration(Stringify(operator)))
    else Ok(If(cfg, [], []))
  }

  /**
   * StageFactory::instantiateStageOfType over the stage types of this model:
   * If goes through its factory, the others are built as they are; any other
   * type name is a configuration error.
   */
  function InstantiateStageOfType(stageType: string, cfg: StageConfiguration): (r: Result<Stage>)
    ensures stageType !in StageTypes ==> r == Err(UnknownStageType(stageType))
    ensures r.Ok? ==> r.value.config == cfg && StageTypeName(r.value) == stageType
    ensures stageType in StageTypes && stageType != "If" ==> r.Ok?
    ensures stageType == "If" ==> r == InstantiateIf(cfg)
  {
    match stageType
    case "If" => InstantiateIf(cfg)
    case "For" => Ok(For(cfg, []))
    case "ForEach" => Ok(ForEach(cfg, []))
    case "SetValue" => Ok(SetValue(cfg))
    case "SumOperation" => Ok(SumOperation(cfg))
    case "ArrayCount" => Ok(ArrayCount(cfg))
    case _ => Err(UnknownStageType(stageType))
  }

  const StageTypes: set<string> := {"If", "For", "ForEach", "SetValue", "SumOperation", "ArrayCount"}

  /** The type name a stage is registered under. */
  function StageTypeName(s: Stage): string
  {
    match s
    case If(_, _, _) => "If"
    case For(_, _) => "For"
    case ForEach(_, _) => "ForEach"
    case SetValue(_) => "SetValue"
    case SumOperation(_) => "SumOperation"
    case ArrayCount(_) => "ArrayCount"
  }

  /** No operator name reads as a number, so operator names compare as plain strings. */
  lemma OperatorNameNotNumeric(op: Operator)
    ensures !IsNumeric(OperatorName(op))
  {
    LetterEndsNotNumeric(OperatorName(op));
  }

  /** A string operator matches a case exactly when it is that case's name. */
  lemma StringOperatorMatches(name: string, op: Operator)
    ensures LooseEqual(Str(name), Str(OperatorName(op))) <==> name == OperatorName(op)
  {
    OperatorNameNotNumeric(op);
    NonNumericStringEquality(name, OperatorName(op));
  }

  /** The operator names are distinct, so a name picks out one operator. */
  lemma OperatorNamesDistinct(a: Operator, b: Operator)
    ensures OperatorName(a) == OperatorName(b) ==> a == b
  {
  }

  /** Every operator is one of the switch's cases. */
  lemma OperatorsComplete(op: Operator)
    ensures op in Operators
  {
  }

  /**
   * A literal string operator is accepted by the factory exactly when it is
   * one of the ten operator names.
   */
  lemma FactoryAcceptsTheTenNames(cfg: StageConfiguration, name: string)
    requires "operator" in cfg.settings && cfg.settings["operator"] == Literal("operator", Str(name))
    ensures InstantiateIf(cfg).Ok? <==> exists op :: OperatorName(op) == name
  {
    if InstantiateIf(cfg).Ok? {
      var op :| op in Operators && LooseEqual(Str(name), Str(OperatorName(op)));
      StringOperatorMatches(name, op);
    }
    if op :| OperatorName(op) == name {
      OperatorsComplete(op);
      StringOperatorMatches(name, op);
    }
  }

  /**
   * Loose comparison lets the boolean true through both the factory and the
   * stage's switch: it equals the first case, "equal".
   */
  lemma TrueIsTheEqualOperator()
    ensures MatchOperator(Bool(true)) == Some(Equal)
  {
    assert LooseEqual(Bool(true), Str(OperatorName(Equal)));
  }

  /**
   * An If stage whose operator is a literal the factory accepted never takes
   * the invalid-operator branch of IfStage::execute, in any context.
   */
  lemma AcceptedOperatorIsNeverInvalid(cfg: StageConfiguration, ctx: Context)
    requires InstantiateIf(cfg).Ok?
    requires "operator" in cfg.settings && cfg.settings["operator"].Literal?
    ensures !(IfCondition(cfg, ctx).Err? && IfCondition(cfg, ctx).error.InvalidOperator?)
  {
    LiteralIgnoresContext(cfg, "operator", ctx, map[]);
  }

  /**
   * A reference operator always fails the factory: it is resolved against an
   * empty context, where no parameter exists.
   */
  lemma ReferenceOperatorRejected(cfg: StageConfiguration)
    requires "operator" in cfg.settings && cfg.settings["operator"].Reference?
    ensures InstantiateIf(cfg) == Err(MissingSetting("operator"))
  {
  }
}
