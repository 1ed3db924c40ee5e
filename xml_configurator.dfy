/**
 * PipelineXMLConfigurator (src/Utils/PipelineXMLConfigurator.php): reads a
 * pipeline description and appends one stage per top-level `<stage>` to a
 * pipeline. The XML document is given here already parsed: whether it passed
 * schema validation, and for each stage its `type` attribute and its
 * `<param>` elements as records.
 */
module XmlConfigurator {
  import opened Common
  import opened Values
  import opened StageSettings
  import opened Stages
  import opened StageFactories
  import opened PipelineCore

  /**
   * A `<param>`: its `name`, `contextReference` and `keypath` attributes
   * (an absent attribute reads as ""), its text, and the texts of its
   * `<item>` children in document order.
   */
  datatype ParamNode = ParamNode(name: string, contextReference: string, keypath: string, text: string, items: seq<string>)

  /** A top-level `<stage>`: its `type` attribute and its `settings/param` elements. */
  datatype StageNode = StageNode(stageType: string, params: seq<ParamNode>)

  /** A loaded document: the outcome of schema validation and the `/pipeline/stages/stage` elements. */
  datatype Document = Document(schemaValid: bool, stages: seq<StageNode>)

  /** PHP truthiness of a string: everything but "" and "0". */
  predicate IsTruthy(s: string)
  {
    s != "" && s != "0"
  }

  /** The value each reference kind is written as. */
  function KindValue(k: ReferenceKind): string
  {
    match k
    case Plain => "plain"
    case KeyPath => "keypath"
  }

  /**
   * getReferenceTypeFromTypeAttribute: the first kind whose value loosely
   * equals the attribute, and `plain` when none does.
   */
  function ReferenceKindFromAttribute(attribute: string): (k: ReferenceKind)
    ensures k == KeyPath <==> attribute == KindValue(KeyPath)
    ensures attribute == KindValue(Plain) ==> k == Plain
  {
    LetterEndsNotNumeric(KindValue(Plain));
    LetterEndsNotNumeric(KindValue(KeyPath));
    NonNumericStringEquality(attribute, KindValue(Plain));
    NonNumericStringEquality(attribute, KindValue(KeyPath));
    if LooseEqual(Str(attribute), Str(KindValue(Plain))) then Plain
    else if LooseEqual(Str(attribute), Str(KindValue(KeyPath))) then KeyPath
    else Plain
  }

  /** Reading a kind's own value gives that kind back. */
  lemma KindValueRoundTrip(k: ReferenceKind)
    ensures ReferenceKindFromAttribute(KindValue(k)) == k
  {
  }

  /** An attribute that is no kind's value falls back to `plain`. */
  lemma UnknownKindIsPlain(attribute: string)
    requires forall k :: attribute != KindValue(k)
    ensures ReferenceKindFromAttribute(attribute) == Plain
  {
    assert attribute != KindValue(KeyPath);
  }

  /**
   * The setting one `<param>` becomes: a reference (with `<item>` children
   * a configuration error), an array of trimmed items, or its trimmed text.
   */
  function ClassifyParam(p: ParamNode): (r: Result<Setting>)
    ensures r.Err? <==> IsTruthy(p.contextReference) && p.items != []
    ensures r.Err? ==> r.error == ReferenceWithItems(p.name)
    ensures r.Ok? ==> r.value.name == p.name && (r.value.Reference? <==> IsTruthy(p.contextReference))
  {
    if IsTruthy(p.contextReference) then
      if p.items != [] then Err(ReferenceWithItems(p.name))
      else Ok(Reference(ReferenceKindFromAttribute(p.contextReference), p.name, Trim(p.text), p.keypath))
    else if p.items != [] then Ok(Literal(p.name, List(TrimmedItems(p.items))))
    else Ok(Literal(p.name, Str(Trim(p.text))))
  }

  /** The `<item>` texts, each trimmed, in document order. */
  function TrimmedItems(items: seq<string>): (vs: seq<Value>)
    ensures |vs| == |items| && forall k :: 0 <= k < |items| ==> vs[k] == Str(Trim(items[k]))
  {
    seq(|items|, k requires 0 <= k < |items| => Str(Trim(items[k])))
  }

  /**
   * What a classified param reads as once it is in a configuration: a
   * literal reads as its trimmed text or trimmed items in every context; a
   * reference reads the context parameter named by its trimmed text.
   */
  lemma ClassifiedParamResolves(p: ParamNode, cfg: StageConfiguration, ctx: Context)
    requires ClassifyParam(p).Ok?
    ensures var read := Resolve(cfg.AddSetting(ClassifyParam(p).value), p.name, ctx);
      && (!IsTruthy(p.contextReference) && p.items == [] ==> read == Some(Str(Trim(p.text))))
      && (!IsTruthy(p.contextReference) && p.items != [] ==> read == Some(List(TrimmedItems(p.items))))
      && (IsTruthy(p.contextReference) ==>
            read == if Trim(p.text) in ctx && ctx[Trim(p.text)] != Null then Some(ctx[Trim(p.text)]) else None)
  {
  }

  /** A reference param keeps its resolved kind and its `keypath` attribute. */
  lemma ReferenceParamKind(p: ParamNode)
    requires IsTruthy(p.contextReference) && p.items == []
    ensures ClassifyParam(p) ==
      Ok(Reference(ReferenceKindFromAttribute(p.contextReference), p.name, Trim(p.text), p.keypath))
  {
  }

  /**
   * The configuration built from `params` on top of `cfg`, one addSetting per
   * param in document order, each param classified by `classify`; the first
   * param that cannot be classified stops it. The lemmas about building hold
   * for any classification.
   */
  function BuildWith(classify: ParamNode -> Result<Setting>, cfg: StageConfiguration, params: seq<ParamNode>)
    : Result<StageConfiguration>
    decreases |params|
  {
    if params == [] then Ok(cfg)
    else
      var setting :- classify(params[0]);
      BuildWith(classify, cfg.AddSetting(setting), params[1..])
  }

  /** The configuration processStage builds from a stage's params. */
  function BuildConfiguration(params: seq<ParamNode>): Result<StageConfiguration>
  {
    BuildWith(ClassifyParam, EmptyConfiguration, params)
  }

  /** Building fails exactly when some param fails, with the error of the first one that does. */
  lemma {:induction false} BuildFails(classify: ParamNode -> Result<Setting>, cfg: StageConfiguration,
                                      params: seq<ParamNode>)
    ensures BuildWith(classify, cfg, params).Err? <==> exists i :: 0 <= i < |params| && classify(params[i]).Err?
    ensures BuildWith(classify, cfg, params).Err? ==>
      exists i :: && 0 <= i < |params| && classify(params[i]).Err?
                  && (forall j :: 0 <= j < i ==> classify(params[j]).Ok?)
                  && BuildWith(classify, cfg, params).error == classify(params[i]).error
    decreases |params|
  {
    if params != [] {
      var first := classify(params[0]);
      if first.Ok? {
        var rest := params[1..];
        BuildFails(classify, cfg.AddSetting(first.value), rest);
        if i :| 0 <= i < |params| && classify(params[i]).Err? {
          assert rest[i - 1] == params[i];
        }
        if BuildWith(classify, cfg, params).Err? {
          var i :| && 0 <= i < |rest| && classify(rest[i]).Err?
                   && (forall j :: 0 <= j < i ==> classify(rest[j]).Ok?)
                   && BuildWith(classify, cfg, params).error == classify(rest[i]).error;
          assert rest[i] == params[i + 1];
          forall j | 0 <= j < i + 1 ensures classify(params[j]).Ok? {
            if j > 0 {
              assert params[j] == rest[j - 1];
            }
          }
        }
      }
    }
  }

  /**
   * A built configuration has a setting for each earlier setting and each
   * param name, and no other; a setting no param names is kept as it was.
   */
  lemma BuildSettings(classify: ParamNode -> Result<Setting>, cfg: StageConfiguration, params: seq<ParamNode>)
    requires forall p :: classify(p).Ok? ==> classify(p).value.name == p.name
    requires BuildWith(classify, cfg, params).Ok?
    ensures forall i :: 0 <= i < |params| ==> classify(params[i]).Ok?
    ensures var built := BuildWith(classify, cfg, params).value;
      && built.settings.Keys == cfg.settings.Keys + (set p | p in params :: p.name)
      && (forall n :: n in cfg.settings && (forall p :: p in params ==> p.name != n) ==>
            built.settings[n] == cfg.settings[n])
  {
    BuildFails(classify, cfg, params);
    BuildKeys(classify, cfg, params);
    BuildKeeps(classify, cfg, params);
  }

  /** The settings of a built configuration are the earlier ones and the param names. */
  lemma {:induction false} BuildKeys(classify: ParamNode -> Result<Setting>, cfg: StageConfiguration,
                                     params: seq<ParamNode>)
    requires forall p :: classify(p).Ok? ==> classify(p).value.name == p.name
    requires BuildWith(classify, cfg, params).Ok?
    ensures BuildWith(classify, cfg, params).value.settings.Keys == cfg.settings.Keys + (set p | p in params :: p.name)
    decreases |params|
  {
    if params != [] {
      var next := cfg.AddSetting(classify(params[0]).value);
      var rest := params[1..];
      assert BuildWith(classify, cfg, params) == BuildWith(classify, next, rest);
      BuildKeys(classify, next, rest);
      assert params == [params[0]] + rest;
      assert (set p | p in params :: p.name) == {params[0].name} + (set p | p in rest :: p.name);
    }
  }

  /** A setting that no param names comes through the build as it was. */
  lemma {:induction false} BuildKeeps(classify: ParamNode -> Result<Setting>, cfg: StageConfiguration,
                                      params: seq<ParamNode>)
    requires forall p :: classify(p).Ok? ==> classify(p).value.name == p.name
    requires BuildWith(classify, cfg, params).Ok?
    ensures forall n :: n in cfg.settings && (forall p :: p in params ==> p.name != n) ==>
      && n in BuildWith(classify, cfg, params).value.settings
      && BuildWith(classify, cfg, params).value.settings[n] == cfg.settings[n]
    decreases |params|
  {
    if params != [] {
      var next := cfg.AddSetting(classify(params[0]).value);
      var rest := params[1..];
      assert BuildWith(classify, cfg, params) == BuildWith(classify, next, rest);
      BuildKeeps(classify, next, rest);
      assert forall p :: p in rest ==> p in params;
      assert params[0] in params;
    }
  }

  /** A name given by several params keeps the setting of the last of them. */
  lemma {:induction false} BuildLastWins(classify: ParamNode -> Result<Setting>, cfg: StageConfiguration,
                                         params: seq<ParamNode>, i: int)
    requires BuildWith(classify, cfg, params).Ok?
    requires forall p :: classify(p).Ok? ==> classify(p).value.name == p.name
    requires 0 <= i < |params| && forall j :: i < j < |params| ==> params[j].name != params[i].name
    ensures var built := BuildWith(classify, cfg, params).value;
      && classify(params[i]).Ok? && params[i].name in built.settings
      && built.settings[params[i].name] == classify(params[i]).value
    decreases |params|
  {
    var setting := classify(params[0]).value;
    var next := cfg.AddSetting(setting);
    var rest := params[1..];
    assert BuildWith(classify, cfg, params) == BuildWith(classify, next, rest);
    if i == 0 {
      BuildKeeps(classify, next, rest);
      assert forall p :: p in rest ==> p.name != params[0].name;
    } else {
      assert params[i] == rest[i - 1];
      assert forall j :: i - 1 < j < |rest| ==> rest[j].name != rest[i - 1].name;
      BuildLastWins(classify, next, rest, i - 1);
    }
  }

  /**
   * The configuration of a stage's params: a setting per param name, each
   * holding what the last param of that name classifies to.
   */
  lemma ParamsConfiguration(params: seq<ParamNode>, i: int)
    requires BuildConfiguration(params).Ok?
    requires 0 <= i < |params| && forall j :: i < j < |params| ==> params[j].name != params[i].name
    ensures var built := BuildConfiguration(params).value;
      && built.settings.Keys == (set p | p in params :: p.name)
      && ClassifyParam(params[i]).Ok? && built.settings[params[i].name] == ClassifyParam(params[i]).value
  {
    BuildSettings(ClassifyParam, EmptyConfiguration, params);
    BuildLastWins(ClassifyParam, EmptyConfiguration, params, i);
  }

  /**
   * processStage's result: the configuration built from the params, then the
   * stage the factory makes of the `type` attribute and that configuration.
   */
  function StageFromNode(node: StageNode): (r: Result<Stage>)
    ensures BuildConfiguration(node.params).Err? ==> r == Err(BuildConfiguration(node.params).error)
    ensures BuildConfiguration(node.params).Ok? ==>
      r == InstantiateStageOfType(node.stageType, BuildConfiguration(node.params).value)
  {
    var cfg :- BuildConfiguration(node.params);
    InstantiateStageOfType(node.stageType, cfg)
  }

  /**
   * processStage attaches no sub-blocks, so a For or ForEach stage built from
   * a document fails whenever it runs, in every context.
   */
  lemma LoopStagesFromDocumentFail(node: StageNode, ctx: Context)
    requires StageFromNode(node).Ok? && node.stageType in {"For", "ForEach"}
    ensures Run(StageFromNode(node).value, ctx).Err?
  {
  }

  /** An If stage built from a document fails whenever its condition holds. */
  lemma IfStageFromDocumentHasNoThen(node: StageNode, ctx: Context)
    requires StageFromNode(node).Ok? && node.stageType == "If"
    requires IfCondition(StageFromNode(node).value.config, ctx) == Ok(true)
    ensures Run(StageFromNode(node).value, ctx) == Err(MissingBlock("then"))
  {
  }

  /** What configure appends: the stages built before the first failure, and that failure. */
  datatype Outcome = Outcome(built: seq<Stage>, failure: Option<Error>)

  function BuildStages(nodes: seq<StageNode>): Outcome
  {
    if nodes == [] then Outcome([], None)
    else match StageFromNode(nodes[0])
      case Err(e) => Outcome([], Some(e))
      case Ok(s) =>
        var rest := BuildStages(nodes[1..]);
        Outcome([s] + rest.built, rest.failure)
  }

  /**
   * Stages are built in document order: built stage i is the stage of node
   * i, and when building stops, the node right after the last built stage is
   * the one that failed.
   */
  lemma {:induction false} BuildStagesInOrder(nodes: seq<StageNode>)
    ensures var o := BuildStages(nodes);
      && |o.built| <= |nodes|
      && (forall i :: 0 <= i < |o.built| ==> StageFromNode(nodes[i]) == Ok(o.built[i]))
      && (o.failure.None? ==> |o.built| == |nodes|)
      && (o.failure.Some? ==> |o.built| < |nodes| && StageFromNode(nodes[|o.built|]) == Err(o.failure.value))
    decreases |nodes|
  {
    if nodes != [] {
      match StageFromNode(nodes[0])
      case Err(e) =>
      case Ok(s) =>
        BuildStagesInOrder(nodes[1..]);
        var o := BuildStages(nodes);
        var rest := BuildStages(nodes[1..]);
        forall i | 0 <= i < |o.built| ensures StageFromNode(nodes[i]) == Ok(o.built[i]) {
          if i > 0 {
            assert nodes[i] == nodes[1..][i - 1];
          }
        }
        if o.failure.Some? {
          assert nodes[|o.built|] == nodes[1..][|rest.built|];
        }
    }
  }

  /** The outcome from node i on, when node i builds. */
  lemma NodeOk(nodes: seq<StageNode>, i: int, s: Stage)
    requires 0 <= i < |nodes| && StageFromNode(nodes[i]) == Ok(s)
    ensures BuildStages(nodes[i..]) ==
      Outcome([s] + BuildStages(nodes[i + 1..]).built, BuildStages(nodes[i + 1..]).failure)
  {
    assert nodes[i..][0] == nodes[i];
    assert nodes[i..][1..] == nodes[i + 1..];
  }

  /** The outcome from node i on, when node i fails. */
  lemma NodeErr(nodes: seq<StageNode>, i: int, e: Error)
    requires 0 <= i < |nodes| && StageFromNode(nodes[i]) == Err(e)
    ensures BuildStages(nodes[i..]) == Outcome([], Some(e))
  {
    assert nodes[i..][0] == nodes[i];
  }

  class Configurator {
    const pipeline: Pipeline

    /** A configurator that appends to `pipeline`. */
    constructor(pipeline: Pipeline)
      ensures this.pipeline == pipeline
    {
      this.pipeline := pipeline;
    }

    /**
     * processStage: classify each param into the configuration, build the
     * stage and append it to the pipeline. On an error nothing is appended.
     */
    method ProcessStage(node: StageNode) returns (r: Result<Stage>)
      modifies pipeline
      ensures r == StageFromNode(node)
      ensures r.Ok? ==> pipeline.stages == old(pipeline.stages) + [r.value]
      ensures r.Err? ==> pipeline.stages == old(pipeline.stages)
      ensures pipeline.contextHistory == old(pipeline.contextHistory)
    {
      var params := node.params;
      var cfg := EmptyConfiguration;
      var i := 0;
      assert params[0..] == params;
      while i < |params|
        invariant 0 <= i <= |params|
        invariant BuildConfiguration(params) == BuildWith(ClassifyParam, cfg, params[i..])
      {
        assert params[i..][0] == params[i];
        assert params[i..][1..] == params[i + 1..];
        var setting := ClassifyParam(params[i]);
        if setting.Err? {
          return Err(setting.error);
        }
        cfg := cfg.AddSetting(setting.value);
        i := i + 1;
      }
      assert params[i..] == [];
      r := InstantiateStageOfType(node.stageType, cfg);
      if r.Ok? {
        pipeline.AddStage(r.value);
      }
    }

    /**
     * configure: a document that fails validation gives false and adds
     * nothing; otherwise the stages are appended in document order and the
     * result is true. An error stops it, with the stages before the failing
     * one already appended.
     */
    method Configure(doc: Document) returns (r: Result<bool>)
      modifies pipeline
      ensures !doc.schemaValid ==> r == Ok(false) && pipeline.stages == old(pipeline.stages)
      ensures doc.schemaValid ==>
        && pipeline.stages == old(pipeline.stages) + BuildStages(doc.stages).built
        && r == if BuildStages(doc.stages).failure.None? then Ok(true) else Err(BuildStages(doc.stages).failure.value)
      ensures pipeline.contextHistory == old(pipeline.contextHistory)
    {
      if !doc.schemaValid {
        return Ok(false);
      }
      var nodes := doc.stages;
      ghost var added: seq<Stage> := [];
      var i := 0;
      assert nodes[0..] == nodes;
      while i < |nodes|
        invariant 0 <= i <= |nodes|
        invariant pipeline.stages == old(pipeline.stages) + added
        invariant pipeline.contextHistory == old(pipeline.contextHistory)
        invariant BuildStages(nodes).built == added + BuildStages(nodes[i..]).built
        invariant BuildStages(nodes).failure == BuildStages(nodes[i..]).failure
      {
        var stage := ProcessStage(nodes[i]);
        if stage.Err? {
          NodeErr(nodes, i, stage.error);
          assert added + [] == added;
          return Err(stage.error);
        }
        NodeOk(nodes, i, stage.value);
        assert added + ([stage.value] + BuildStages(nodes[i + 1..]).built) ==
               (added + [stage.value]) + BuildStages(nodes[i + 1..]).built;
        added := added + [stage.value];
        i := i + 1;
      }
      assert nodes[i..] == [];
      assert added + [] == added;
      return Ok(true);
    }
  }
}
