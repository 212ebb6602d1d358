/** The strategy configuration (the `variables`, `skills` and `tasks` sections), with the shape the
  * code reads. A key the code reads with `.get(k, default)` is optional; a key read with `[k]` is
  * optional too, and the reader raises `KeyError` when it is absent. */
module Config {
  import opened Wrappers
  import opened Dicts
  import opened Json

  /** Which code base interprets the configuration: `Current` is the engine under
    * src/task/math_optimizer/strategy/, `Legacy` is src/strategy/strategy.py with the skills of
    * rto/skills/ and src/strategy/skills/models.py. */
  datatype Lineage = Current | Legacy

  /** A key that may be absent, present with the value `null`, or present with a value; the code
    * treats the first two differently where it uses `.get(k, default)`. */
  datatype Field<T> = Absent | Null | Given(value: T)

  /** One entry of the `variables` section. `type` and `units` are read with `config['type']` by the
    * strategy's queries and with `.get(k, default)` by the variable, so an explicit `null` is kept
    * apart from an absent key. */
  datatype VariableConfig = VariableConfig(
    varType: Field<string>,
    units: Field<string>,
    threshold: Field<real>,
    minHardLimit: Option<real>,
    maxHardLimit: Option<real>)

  /** `dataframe_formula`: the pandas method applied across the input columns, and its axis. */
  datatype DataframeFormula = DataframeFormula(methodName: Option<string>, axis: Option<int>)

  /** One value of a `lag_offset` block: a dict of `lag`, `offset` and `variation`, or something else.
    * `lag` and `offset` are read with `.get(k, 0)`, so an explicit `null` stays None; `variation` is
    * read with `.get(k)`, where absent and `null` agree. */
  datatype LagOffsetEntry =
    | EntryNotADict
    | Params(lag: Field<int>, offset: Field<int>, variation: Option<string>)

  /** `lag = params.get("lag", 0)`, `offset = params.get("offset", 0)`, then `lag + offset`: the
    * pair, or the `TypeError` of an addition with a `null` operand. */
  function LagAndOffset(entry: LagOffsetEntry): (r: Result<(int, int)>)
    requires entry.Params?
    ensures r.Ok? <==> !entry.lag.Null? && !entry.offset.Null?
    ensures r.Ok? ==> r.value == (GetOrDefault(entry.lag, 0).value, GetOrDefault(entry.offset, 0).value)
    ensures r.Err? ==> r.error.TypeError?
  {
    match (GetOrDefault(entry.lag, 0), GetOrDefault(entry.offset, 0))
    case (Some(lag), Some(offset)) => Ok((lag, offset))
    case (lag, offset) =>
      Err(TypeError("unsupported operand type(s) for +: '" + OperandType(lag) + "' and '" + OperandType(offset) + "'"))
  }

  /** The operand's `type(...).__name__` in an addition of `lag` and `offset`. */
  function OperandType(x: Option<int>): string {
    if x.Some? then "int" else "NoneType"
  }

  /** The `lag_offset` block: a dict from variable id to entry, or something else. */
  datatype LagOffsetBlock = BlockNotADict | Block(entries: Dict<LagOffsetEntry>)

  /** The `smoothing` block: a dict with `method` and `alpha`, or something else. */
  datatype SmoothingBlock = SmoothingNotADict | Smoothing(methodName: Field<string>, alpha: Field<real>)

  /** `feature_engineering`: both blocks are read with `.get(k, {})`, so an explicit `null` stays
    * None. */
  datatype FeatureEngineering = FeatureEngineering(
    lagOffset: Field<LagOffsetBlock>,
    smoothing: Field<SmoothingBlock>)

  /** The class-specific `config` block of a skill. A key the constructors read with `[k]` or
    * `.get(k, default)` keeps an explicit `null` apart from an absent key; `dataframe_formula` is
    * None either way. */
  datatype SkillBlock = SkillBlock(
    formula: Field<string>,
    dataframeFormula: Option<DataframeFormula>,
    skillSequence: Field<seq<string>>,
    costSkillName: Field<string>,
    costFeatureName: Field<string>,
    algorithm: Field<string>,
    modelPath: Option<string>,
    scalerPath: Option<string>,
    metadataPath: Option<string>,
    featureEngineering: Field<FeatureEngineering>,
    template: Option<Json>,
    varMin: Field<real>,
    varMax: Field<real>,
    opMin: Field<real>,
    opMax: Field<real>)

  /** One entry of the `skills` section: `class`, `inputs`, `outputs` and the `config` block, each
    * absent, `null` or given. */
  datatype SkillConfig = SkillConfig(
    className: Field<string>,
    inputs: Field<seq<string>>,
    outputs: Field<seq<string>>,
    block: Field<SkillBlock>)

  /** One entry of the `tasks` list. */
  datatype TaskConfig = TaskConfig(name: string, skillSequence: Field<seq<string>>)

  datatype StrategyConfig = StrategyConfig(
    variables: Dict<VariableConfig>,
    skills: Dict<SkillConfig>,
    tasks: seq<TaskConfig>)

  /** `config.get(k)` for a list-valued key: absent and `null` both read as None. */
  function GetList(f: Field<seq<string>>): Option<seq<string>> {
    match f
    case Given(l) => Some(l)
    case _ => None
  }

  /** `d.get(k, default)`: absent reads as the default, `null` as None. */
  function GetOrDefault<T>(f: Field<T>, default: T): (r: Option<T>)
    ensures f.Absent? ==> r == Some(default)
    ensures f.Null? ==> r.None?
    ensures f.Given? ==> r == Some(f.value)
  {
    match f
    case Absent => Some(default)
    case Null => None
    case Given(v) => Some(v)
  }

  /** `config.get(k, [])` for a list-valued key: absent reads as `[]`, `null` as None. */
  function GetListOrEmpty(f: Field<seq<string>>): Option<seq<string>> {
    match f
    case Absent => Some([])
    case Null => None
    case Given(l) => Some(l)
  }
}
