/** A process variable: a fixed identity and kind, and three values a cycle updates in place
  * (rto/variable.py). */
module Variables {
  import opened Wrappers
  import opened Texts
  import opened XReals
  import opened Config

  /** Which `Variable` class builds the context. `Plain` is rto/variable.py, which has no
    * hard-limit attributes; `WithHardLimits` also reads `min_hard_limit`/`max_hard_limit` from the
    * configuration, defaulting to minus and plus infinity. */
  datatype Shape = Plain | WithHardLimits

  datatype HardLimits = HardLimits(min: XReal, max: XReal)

  /** `config.get('threshold', 0.0)`: absent reads as 0.0, `null` as None. */
  function ThresholdOf(f: Field<real>): (t: Option<real>)
    ensures f.Absent? ==> t == Some(0.0)
    ensures f.Null? ==> t.None?
    ensures f.Given? ==> t == Some(f.value)
  {
    match f
    case Absent => Some(0.0)
    case Null => None
    case Given(x) => Some(x)
  }

  function LimitsOf(cfg: VariableConfig, shape: Shape): Option<HardLimits> {
    if shape == Plain then None
    else
      var lo := if cfg.minHardLimit.Some? then Fin(cfg.minHardLimit.value) else NegInf;
      var hi := if cfg.maxHardLimit.Some? then Fin(cfg.maxHardLimit.value) else PosInf;
      Some(HardLimits(lo, hi))
  }

  /** The three values of a variable at one moment. */
  datatype VarState = VarState(current: Option<real>, dof: Option<real>, recommended: Option<real>)

  class Variable {
    const id: string
    /** `config.get('type', 'Unknown')` and `config.get('units', '')`: None when given as `null`. */
    const varType: Option<string>
    const units: Option<string>
    const threshold: Option<real>
    const hardLimits: Option<HardLimits>
    var current: Option<real>
    var dof: Option<real>
    var recommended: Option<real>

    /** The kind defaults to `'Unknown'`, the units to `''`, the threshold to 0.0, and each of them
      * is None when given as `null`; all three values start as None. */
    constructor (id: string, cfg: VariableConfig, shape: Shape)
      ensures this.id == id
      ensures cfg.varType.Absent? ==> varType == Some("Unknown")
      ensures cfg.units.Absent? ==> units == Some("")
      ensures cfg.varType.Null? ==> varType.None?
      ensures cfg.units.Null? ==> units.None?
      ensures cfg.varType.Given? ==> varType == Some(cfg.varType.value)
      ensures cfg.units.Given? ==> units == Some(cfg.units.value)
      ensures threshold == ThresholdOf(cfg.threshold)
      ensures hardLimits == LimitsOf(cfg, shape)
      ensures current.None? && dof.None? && recommended.None?
    {
      this.id := id;
      varType := GetOrDefault(cfg.varType, "Unknown");
      units := GetOrDefault(cfg.units, "");
      threshold := ThresholdOf(cfg.threshold);
      hardLimits := LimitsOf(cfg, shape);
      current := None;
      dof := None;
      recommended := None;
    }

    function State(): VarState
      reads this
    {
      VarState(current, dof, recommended)
    }

    /** `set_initial_value`: all three values become `value`. */
    method SetInitialValue(value: real)
      modifies this
      ensures State() == VarState(Some(value), Some(value), Some(value))
    {
      current := Some(value);
      dof := Some(value);
      recommended := Some(value);
    }

    /** `__repr__`. */
    function Repr(): string
      reads this
    {
      VariableRepr(id, State())
    }
  }

  /** One value as `__repr__` prints it: `None`, or two decimals. */
  function ValueRepr(v: Option<real>): string {
    match v
    case None => "None"
    case Some(x) => Fixed2(x)
  }

  /** `Variable(id=<id>, current=<v>, dof=<v>, rec=<v>)`. */
  function VariableRepr(id: string, s: VarState): string {
    "Variable(id=" + id + ", current=" + ValueRepr(s.current) + ", dof=" + ValueRepr(s.dof)
    + ", rec=" + ValueRepr(s.recommended) + ")"
  }

  /** Reads one printed value back: `None`, or the two-decimal number. */
  function ParseValue(s: string): Option<Option<real>> {
    if s == "None" then Some(None)
    else match ParseFixed2(s)
      case Some(x) => Some(Some(x))
      case None => None
  }

  /** A printed value reads back as None exactly when it was None, and otherwise as the value
    * rounded to two decimals, within half a hundredth of it. */
  lemma ValueReprRoundTrip(v: Option<real>)
    ensures v.None? ==> ParseValue(ValueRepr(v)) == Some(None)
    ensures v.Some? ==>
      (ParseValue(ValueRepr(v)) == Some(Some(Fixed2Value(v.value)))
       && -0.005 <= Fixed2Value(v.value) - v.value <= 0.005)
  {
    if v.Some? {
      Fixed2RoundTrip(v.value);
      var s := Fixed2(v.value);
      assert s != "None" by {
        assert s[|s| - 3] == '.';
      }
    }
  }
}
