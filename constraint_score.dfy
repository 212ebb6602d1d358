/** The legacy constraint skill (rto/skills/constraints.py): a score of how well the decision value
  * of its input keeps to the operating limits, with a linear fall-off between the operating and
  * the physical limits, written into its output's decision value. */
module ConstraintScores {
  import opened Wrappers
  import opened XReals
  import opened Variables
  import opened DataContexts
  import opened Skills

  /** A float score: a number, or NaN (what `inf / inf` gives when a physical limit is infinite). */
  datatype Score = Finite(r: real) | NotANumber

  /** `(value - phys_min) / (op_min - phys_min)` for a value below a distinct operating minimum. */
  function LowerRatio(v: real, opMin: XReal, physMin: XReal): (s: Score)
    requires Lt(Fin(v), opMin) && opMin != physMin
    ensures physMin.Fin? && opMin.Fin? ==> s == Finite((v - physMin.r) / (opMin.r - physMin.r))
    ensures physMin.Fin? && opMin.PosInf? ==> s == Finite(0.0)
    ensures !physMin.Fin? ==> s == NotANumber
  {
    match physMin
    case Fin(p) => if opMin.Fin? then Finite((v - p) / (opMin.r - p)) else Finite(0.0)
    case _ => NotANumber
  }

  /** `(phys_max - value) / (phys_max - op_max)` for a value above a distinct operating maximum. */
  function UpperRatio(v: real, opMax: XReal, physMax: XReal): (s: Score)
    requires Lt(opMax, Fin(v)) && opMax != physMax
    ensures physMax.Fin? && opMax.Fin? ==> s == Finite((physMax.r - v) / (physMax.r - opMax.r))
    ensures physMax.Fin? && opMax.NegInf? ==> s == Finite(0.0)
    ensures !physMax.Fin? ==> s == NotANumber
  {
    match physMax
    case Fin(p) => if opMax.Fin? then Finite((p - v) / (p - opMax.r)) else Finite(0.0)
    case _ => NotANumber
  }

  /** `calculate_constraint`: 0 outside an operating limit that equals its physical limit, 1 within
    * the operating limits, the linear fall-off below or above a distinct operating limit, and 0
    * in every other case. */
  function ScoreOf(v: real, opMin: XReal, opMax: XReal, physMin: XReal, physMax: XReal): Score {
    if opMin == physMin && Lt(Fin(v), opMin) then Finite(0.0)
    else if opMax == physMax && Lt(opMax, Fin(v)) then Finite(0.0)
    else if Le(opMin, Fin(v)) && Le(Fin(v), opMax) then Finite(1.0)
    else if Lt(Fin(v), opMin) && opMin != physMin then LowerRatio(v, opMin, physMin)
    else if Lt(opMax, Fin(v)) && opMax != physMax then UpperRatio(v, opMax, physMax)
    else Finite(0.0)
  }

  /** The `TypeError` of an ordering comparison or a subtraction with a `null` operand. */
  function Unsupported(op: string, left: string, right: string): Error {
    if op == "-" then TypeError("unsupported operand type(s) for -: '" + left + "' and '" + right + "'")
    else TypeError("'" + op + "' not supported between instances of '" + left + "' and '" + right + "'")
  }

  /** `calculate_constraint` on the limits as the constructor keeps them, None for a limit given as
    * `null`: `==` and `!=` compare None without raising, while `<`, `<=`, `>` and `-` raise
    * `TypeError`, in the order the code makes its comparisons. With every limit present it is
    * `ScoreOf`. */
  function ScoreOfNullable(v: real, opMin: Option<XReal>, opMax: Option<XReal>, physMin: Option<XReal>, physMax: Option<XReal>)
    : (r: Result<Score>)
    ensures opMin.Some? && opMax.Some? && physMin.Some? && physMax.Some? ==>
              r == Ok(ScoreOf(v, opMin.value, opMax.value, physMin.value, physMax.value))
    ensures opMin.None? ==> r.Err? || r == Ok(Finite(0.0))
    ensures opMin.None? && opMax.None? ==> r.Err?
    ensures r.Err? ==> r.error.TypeError?
  {
    if opMin == physMin && opMin.None? then Err(Unsupported("<", "float", "NoneType"))
    else if opMin == physMin && Lt(Fin(v), opMin.value) then Ok(Finite(0.0))
    else if opMax == physMax && opMax.None? then Err(Unsupported(">", "float", "NoneType"))
    else if opMax == physMax && Lt(opMax.value, Fin(v)) then Ok(Finite(0.0))
    else if opMin.None? then Err(Unsupported("<=", "NoneType", "float"))
    else if Le(opMin.value, Fin(v)) && opMax.None? then Err(Unsupported("<=", "float", "NoneType"))
    else if Le(opMin.value, Fin(v)) && Le(Fin(v), opMax.value) then Ok(Finite(1.0))
    else if Lt(Fin(v), opMin.value) && opMin != physMin then
      (if physMin.None? then Err(Unsupported("-", "float", "NoneType")) else Ok(LowerRatio(v, opMin.value, physMin.value)))
    else if opMax.None? then Err(Unsupported(">", "float", "NoneType"))
    else if Lt(opMax.value, Fin(v)) && opMax != physMax then
      (if physMax.None? then Err(Unsupported("-", "NoneType", "float")) else Ok(UpperRatio(v, opMax.value, physMax.value)))
    else Ok(Finite(0.0))
  }

  /** Within the operating limits the score is 1. */
  lemma ScoreInside(v: real, opMin: XReal, opMax: XReal, physMin: XReal, physMax: XReal)
    requires Le(opMin, Fin(v)) && Le(Fin(v), opMax)
    ensures ScoreOf(v, opMin, opMax, physMin, physMax) == Finite(1.0)
  {
  }

  lemma RatioInUnit(a: real, b: real)
    requires 0.0 <= a <= b && b > 0.0
    ensures 0.0 <= a / b <= 1.0
  {
    assert a / b * b == a;
  }

  /** With finite physical limits that enclose ordered operating limits, a value inside the
    * physical limits scores between 0 and 1, and below 1 exactly when it leaves the operating
    * limits. */
  lemma ScoreInUnitRange(v: real, opMin: XReal, opMax: XReal, p: real, q: real)
    requires Le(Fin(p), opMin) && Le(opMin, opMax) && Le(opMax, Fin(q))
    requires p <= v <= q
    ensures ScoreOf(v, opMin, opMax, Fin(p), Fin(q)).Finite?
    ensures 0.0 <= ScoreOf(v, opMin, opMax, Fin(p), Fin(q)).r <= 1.0
    ensures ScoreOf(v, opMin, opMax, Fin(p), Fin(q)).r == 1.0 <==> Le(opMin, Fin(v)) && Le(Fin(v), opMax)
  {
    var s := ScoreOf(v, opMin, opMax, Fin(p), Fin(q));
    if Lt(Fin(v), opMin) && opMin != Fin(p) {
      var o := opMin.r;
      RatioInUnit(v - p, o - p);
      assert (v - p) / (o - p) != 1.0 by {
        if (v - p) / (o - p) == 1.0 {
          assert (v - p) / (o - p) * (o - p) == v - p;
        }
      }
    } else if Lt(opMax, Fin(v)) && opMax != Fin(q) {
      var o := opMax.r;
      RatioInUnit(q - v, q - o);
      assert (q - v) / (q - o) != 1.0 by {
        if (q - v) / (q - o) == 1.0 {
          assert (q - v) / (q - o) * (q - o) == q - v;
        }
      }
    }
  }

  /** Below a finite physical minimum (with a distinct, finite operating minimum, below the operating
    * maximum) the score is
    * negative: it keeps falling instead of stopping at 0. */
  lemma ScoreBelowPhysical(v: real, o: real, opMax: XReal, p: real, physMax: XReal)
    requires p < o && v < p && Le(Fin(o), opMax)
    ensures ScoreOf(v, Fin(o), opMax, Fin(p), physMax).Finite?
    ensures ScoreOf(v, Fin(o), opMax, Fin(p), physMax).r < 0.0
  {
    assert ScoreOf(v, Fin(o), opMax, Fin(p), physMax) == Finite((v - p) / (o - p));
    NegativeRatio(v - p, o - p);
  }

  lemma NegativeRatio(a: real, b: real)
    requires a < 0.0 < b
    ensures a / b < 0.0
  {
    assert a / b * b == a;
  }

  /** With the default physical minimum of minus infinity and a finite operating minimum, a value
    * below it scores NaN. */
  lemma ScoreInfiniteMinimum(v: real, o: real, opMax: XReal, physMax: XReal)
    requires v < o && Le(Fin(o), opMax)
    ensures ScoreOf(v, Fin(o), opMax, NegInf, physMax) == NotANumber
  {
  }

  /** The float written for a score: NaN is written as None. */
  function Written(s: Score): Option<real> {
    match s
    case Finite(r) => Some(r)
    case NotANumber => None
  }

  /** `Constraint.execute`: reads the decision value of `inputs[0]` (None reads as 0.0), scores it,
    * and writes the score into the decision value of `outputs[0]`. `inputs` or `outputs` None raises
    * `TypeError`, an empty list `IndexError`, an unknown variable `KeyError`, a comparison with a
    * `null` limit `TypeError`; the input is read and scored before the output is looked up. Nothing
    * else changes. */
  method Execute(s: Skill, ctx: DataContext) returns (r: Result<()>)
    requires ctx.Valid() && s.spec.ScoreSpec?
    modifies ctx.variables.Values
    ensures r.Err? ==> ctx.Values() == old(ctx.Values())
    ensures s.inputs.None? ==> r == Err(TypeError("'NoneType' object is not subscriptable"))
    ensures s.inputs.Some? && |s.inputs.value| == 0 ==> r == Err(IndexError("list index out of range"))
    ensures s.inputs.Some? && |s.inputs.value| > 0 && s.inputs.value[0] !in ctx.variables ==>
              r == Err(NotFound(s.inputs.value[0]))
    ensures s.inputs.Some? && |s.inputs.value| > 0 && s.inputs.value[0] in ctx.variables ==>
              var v := old(ctx.Values())[s.inputs.value[0]].dof.GetOr(0.0);
              var score := ScoreOfNullable(v, s.spec.opMin, s.spec.opMax, s.spec.varMin, s.spec.varMax);
              (score.Err? ==> r == Err(score.error))
              && (score.Ok? ==>
                    (r.Err? <==> s.outputs.None? || |s.outputs.value| == 0 || s.outputs.value[0] !in ctx.variables)
                    && (r.Ok? ==>
                          var o := s.outputs.value[0];
                          ctx.Values() == old(ctx.Values())[o := old(ctx.Values())[o].(dof := Written(score.value))]))
  {
    if s.inputs.None? {
      return Err(TypeError("'NoneType' object is not subscriptable"));
    }
    if |s.inputs.value| == 0 {
      return Err(IndexError("list index out of range"));
    }
    var input := ctx.GetVariable(s.inputs.value[0]);
    if input.Err? {
      return Err(input.error);
    }
    var value := if input.value.dof.Some? then input.value.dof.value else 0.0;
    var scored := ScoreOfNullable(value, s.spec.opMin, s.spec.opMax, s.spec.varMin, s.spec.varMax);
    if scored.Err? {
      return Err(scored.error);
    }
    var score := scored.value;
    if s.outputs.None? {
      return Err(TypeError("'NoneType' object is not subscriptable"));
    }
    if |s.outputs.value| == 0 {
      return Err(IndexError("list index out of range"));
    }
    var output := ctx.GetVariable(s.outputs.value[0]);
    if output.Err? {
      return Err(output.error);
    }
    ctx.SetDof(s.outputs.value[0], Written(score));
    return Ok(());
  }
}
