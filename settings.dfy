/**
 * Stage configurations: the named settings a stage is built from, and how a
 * stage reads them against the running context (StageConfiguration and
 * getSettingValue, whose code is not part of this model; the behaviour below
 * is the contract every stage relies on).
 */
module StageSettings {
  import opened Common
  import opened Values

  /** ReferenceStageSettingType: a whole parameter, or an element addressed by a key path. */
  datatype ReferenceKind = Plain | KeyPath

  /** StageSetting (a literal) or ReferenceStageSetting (a reference into the context). */
  datatype Setting =
    | Literal(name: string, value: Value)
    | Reference(kind: ReferenceKind, name: string, reference: string, keypath: string)

  /** The settings of one stage, by name. */
  datatype StageConfiguration = StageConfiguration(settings: map<string, Setting>) {

    /** addSetting: the new setting is found under its name; every other one stays. */
    function AddSetting(s: Setting): (c: StageConfiguration)
      ensures s.name in c.settings && c.settings[s.name] == s
      ensures c.settings.Keys == settings.Keys + {s.name}
      ensures forall n :: n in settings && n != s.name ==> c.settings[n] == settings[n]
    {
      StageConfiguration(settings[s.name := s])
    }
  }

  const EmptyConfiguration := StageConfiguration(map[])

  /**
   * What a setting resolves to in `ctx`: a literal's own value, or the value of
   * the referenced context parameter. An absent or null parameter gives no value.
   */
  function Resolve(cfg: StageConfiguration, name: string, ctx: Context): (r: Option<Value>)
    ensures name !in cfg.settings ==> r == None
    ensures name in cfg.settings && cfg.settings[name].Literal? ==> r == Some(cfg.settings[name].value)
    ensures r.Some? ==> r.value != Null || cfg.settings[name].Literal?
  {
    if name !in cfg.settings then None
    else match cfg.settings[name]
      case Literal(_, v) => Some(v)
      case Reference(_, _, ref, _) =>
        if ref in ctx && ctx[ref] != Null then Some(ctx[ref]) else None
  }

  /**
   * getSettingValue(name, context, required, default): the resolved value;
   * when there is none, an execution error if the setting is required and the
   * default otherwise.
   */
  function GetSettingValue(cfg: StageConfiguration, name: string, ctx: Context, required: bool, default: Value)
    : (r: Result<Value>)
    ensures r.Err? <==> required && Resolve(cfg, name, ctx).None?
    ensures r.Err? ==> r.error == MissingSetting(name)
    ensures r.Ok? && Resolve(cfg, name, ctx).Some? ==> r.value == Resolve(cfg, name, ctx).value
    ensures r.Ok? && Resolve(cfg, name, ctx).None? ==> r.value == default
  {
    match Resolve(cfg, name, ctx)
    case Some(v) => Ok(v)
    case None => if required then Err(MissingSetting(name)) else Ok(default)
  }

  /** getSettingValue with `required` false never fails: the resolved value or the default. */
  function OptionalSetting(cfg: StageConfiguration, name: string, ctx: Context, default: Value): (v: Value)
    ensures GetSettingValue(cfg, name, ctx, false, default) == Ok(v)
    ensures Resolve(cfg, name, ctx).None? <==> v == default && Resolve(cfg, name, ctx) != Some(default)
  {
    match Resolve(cfg, name, ctx)
    case Some(v) => v
    case None => default
  }

  /** A literal setting reads the same in every context. */
  lemma LiteralIgnoresContext(cfg: StageConfiguration, name: string, c1: Context, c2: Context)
    requires name in cfg.settings && cfg.settings[name].Literal?
    ensures Resolve(cfg, name, c1) == Resolve(cfg, name, c2)
  {
  }
}
