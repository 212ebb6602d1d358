/** The constraint builder of the current engine (src/task/math_optimizer/strategy/skills/constraints.py):
  * it validates its template and turns every entry into a two-sided nonlinear constraint on a
  * predicted variable, which the optimizer later hands to the solver. */
module ConstraintTemplates {
  import opened Wrappers
  import opened Texts
  import opened XReals
  import opened Json
  import opened Oracles
  import opened DataContexts
  import opened Skills

  /** What the builder reads from the first optimizer skill of the strategy: its `inputs`, and its
    * cost skill's name when the registry holds a skill of that name (None otherwise). */
  datatype OptimizerRef = OptimizerRef(inputs: Option<seq<string>>, costSkill: Option<string>)

  /** `[v for v in xs if v in allowed]`. */
  function Kept(xs: seq<string>, allowed: set<string>): (r: seq<string>)
    ensures |r| <= |xs|
    ensures forall v :: v in r <==> v in xs && v in allowed
    ensures multiset(r) <= multiset(xs)
  {
    if |xs| == 0 then []
    else
      var rest := Kept(xs[..|xs| - 1], allowed);
      assert xs == xs[..|xs| - 1] + [xs[|xs| - 1]];
      if xs[|xs| - 1] in allowed then rest + [xs[|xs| - 1]] else rest
  }

  /** Filtering keeps the order: it distributes over concatenation. */
  lemma {:induction false} KeptAppend(xs: seq<string>, ys: seq<string>, allowed: set<string>)
    ensures Kept(xs + ys, allowed) == Kept(xs, allowed) + Kept(ys, allowed)
    decreases |ys|
  {
    if |ys| == 0 {
      assert xs + ys == xs;
    } else {
      var n := |ys| - 1;
      assert (xs + ys)[..|xs + ys| - 1] == xs + ys[..n];
      assert (xs + ys)[|xs + ys| - 1] == ys[n];
      KeptAppend(xs, ys[..n], allowed);
    }
  }

  /** The error for entry `idx` missing one of the three keys. */
  function MissingKeys(idx: nat): Error {
    ValueError("Constraints: template[" + NatToString(idx) + "] missing required keys: 'predicted_var', 'op_min', 'op_max'")
  }

  /** The check of entry `idx`: `'predicted_var' in c`, then `'op_min'`, then `'op_max'`; a value
    * that is not a container raises `TypeError` on the first test. */
  function EntryCheck(idx: nat, c: Json): (r: Result<()>)
    ensures c.JObj? ==> (r.Ok? <==> "predicted_var" in c.o && "op_min" in c.o && "op_max" in c.o)
    ensures c.JObj? && r.Err? ==> r.error == MissingKeys(idx)
    ensures c.JNull? || c.JBool? || c.JNum? ==> r.Err? && r.error.TypeError?
  {
    match In("predicted_var", c)
    case Err(e) => Err(e)
    case Ok(false) => Err(MissingKeys(idx))
    case Ok(true) =>
      match In("op_min", c)
      case Err(e) => Err(e)
      case Ok(false) => Err(MissingKeys(idx))
      case Ok(true) =>
        match In("op_max", c)
        case Err(e) => Err(e)
        case Ok(false) => Err(MissingKeys(idx))
        case Ok(true) => Ok(())
  }

  /** The validation loop: the first failing entry decides the error. */
  function Validation(t: seq<Json>): (r: Result<()>)
    ensures r.Ok? <==> forall i :: 0 <= i < |t| ==> EntryCheck(i, t[i]).Ok?
    ensures r.Err? ==> exists i :: 0 <= i < |t| && EntryCheck(i, t[i]) == r
                                   && forall j :: 0 <= j < i ==> EntryCheck(j, t[j]).Ok?
  {
    if |t| == 0 then Ok(())
    else
      var n := |t| - 1;
      assert forall i :: 0 <= i < n ==> t[..n][i] == t[i];
      match Validation(t[..n])
      case Err(e) => Err(e)
      case Ok(_) => EntryCheck(n, t[n])
  }

  /** For a template of dicts, validation passes exactly when every entry has the three keys, and
    * otherwise names the first entry that lacks one. */
  lemma ValidationOfDicts(t: seq<Json>)
    requires forall i :: 0 <= i < |t| ==> t[i].JObj?
    ensures Validation(t).Ok? <==> forall i :: 0 <= i < |t| ==> "predicted_var" in t[i].o && "op_min" in t[i].o && "op_max" in t[i].o
    ensures Validation(t).Err? ==> exists i :: 0 <= i < |t| && Validation(t).error == MissingKeys(i)
                                              && !("predicted_var" in t[i].o && "op_min" in t[i].o && "op_max" in t[i].o)
  {
    if Validation(t).Err? {
      var i :| 0 <= i < |t| && EntryCheck(i, t[i]) == Validation(t) && forall j :: 0 <= j < i ==> EntryCheck(j, t[j]).Ok?;
    }
  }

  /** The constraint of one entry: `c['predicted_var']`, `float(c['op_min'])`, `float(c['op_max'])`,
    * in that order, with lower bounds 0 and upper bounds infinity on both components. */
  function EntryConstraint(c: Json, inputs: seq<string>, cost: Option<string>): (r: Result<SolverConstraint>)
    ensures c.JObj? && "predicted_var" in c.o && "op_min" in c.o && "op_max" in c.o
            && c.o["op_min"].JNum? && c.o["op_max"].JNum? ==>
              r == Ok(NonlinearConstraint(inputs, cost, c.o["predicted_var"], c.o["op_min"].r, c.o["op_max"].r,
                                          [Fin(0.0), Fin(0.0)], [PosInf, PosInf]))
    ensures c.JObj? && "predicted_var" in c.o && "op_min" in c.o && "op_max" in c.o ==>
              var lo, hi := ToFloat(c.o["op_min"]), ToFloat(c.o["op_max"]);
              (lo.Err? ==> r == Err(lo.error))
              && (lo.Ok? && hi.Err? ==> r == Err(hi.error))
              && (lo.Ok? && hi.Ok? ==> r.Ok? && r.value.opMin == lo.value && r.value.opMax == hi.value)
  {
    match Index(c, "predicted_var")
    case Err(e) => Err(e)
    case Ok(pv) =>
      match Index(c, "op_min")
      case Err(e) => Err(e)
      case Ok(a) =>
        match ToFloat(a)
        case Err(e) => Err(e)
        case Ok(lo) =>
          match Index(c, "op_max")
          case Err(e) => Err(e)
          case Ok(b) =>
            match ToFloat(b)
            case Err(e) => Err(e)
            case Ok(hi) => Ok(NonlinearConstraint(inputs, cost, pv, lo, hi, [Fin(0.0), Fin(0.0)], [PosInf, PosInf]))
  }

  /** Limits written as digit strings are read as the numbers they spell, as `float` reads them. */
  lemma EntryConstraintText(c: Json, inputs: seq<string>, cost: Option<string>, lo: nat, hi: nat)
    requires c.JObj? && "predicted_var" in c.o && "op_min" in c.o && "op_max" in c.o
    requires c.o["op_min"] == JStr(NatToString(lo)) && c.o["op_max"] == JStr("-" + NatToString(hi))
    ensures EntryConstraint(c, inputs, cost).Ok?
    ensures EntryConstraint(c, inputs, cost).value.opMin == lo as real
    ensures EntryConstraint(c, inputs, cost).value.opMax == -(hi as real)
  {
    ToFloatNat(lo);
    ToFloatNat(hi);
  }

  /** The build loop: one constraint per entry, in template order, or the first entry's error. */
  function Built(t: seq<Json>, inputs: seq<string>, cost: Option<string>): (r: Result<seq<SolverConstraint>>)
    ensures r.Ok? <==> forall i :: 0 <= i < |t| ==> EntryConstraint(t[i], inputs, cost).Ok?
    ensures r.Ok? ==> |r.value| == |t| && forall i :: 0 <= i < |t| ==> EntryConstraint(t[i], inputs, cost) == Ok(r.value[i])
  {
    if |t| == 0 then Ok([])
    else
      var n := |t| - 1;
      assert forall i :: 0 <= i < n ==> t[..n][i] == t[i];
      match Built(t[..n], inputs, cost)
      case Err(e) => Err(e)
      case Ok(cs) =>
        match EntryConstraint(t[n], inputs, cost)
        case Err(e) => Err(e)
        case Ok(c) => Ok(cs + [c])
  }

  /** The list `execute` stores. A template that is not a non-empty list stores `[]`; otherwise a
    * failed validation raises. Without a strategy, or with no optimizer skill in it, the list is
    * empty. Otherwise the optimizable ids are computed (which may raise), the optimizer's inputs are
    * filtered by them (`inputs` None raises `TypeError`), and every entry is built. */
  function Stored(template: Option<Json>, hasStrategy: bool, opt: Option<OptimizerRef>,
                  optimizable: Result<set<string>>): (r: Result<seq<SolverConstraint>>)
    ensures !(template.Some? && template.value.JArr? && |template.value.a| > 0) ==> r == Ok([])
    ensures template.Some? && template.value.JArr? && Validation(template.value.a).Err? ==>
              r == Err(Validation(template.value.a).error)
    ensures r.Ok? && |r.value| > 0 ==>
              hasStrategy && opt.Some? && opt.value.inputs.Some? && optimizable.Ok?
              && r == Built(template.value.a, Kept(opt.value.inputs.value, optimizable.value), opt.value.costSkill)
  {
    if template.None? || !template.value.JArr? || |template.value.a| == 0 then Ok([])
    else
      var t := template.value.a;
      match Validation(t)
      case Err(e) => Err(e)
      case Ok(_) =>
        if !hasStrategy || opt.None? then Ok([])
        else match optimizable
          case Err(e) => Err(e)
          case Ok(ids) =>
            if opt.value.inputs.None? then Err(TypeError("'NoneType' object is not iterable"))
            else Built(t, Kept(opt.value.inputs.value, ids), opt.value.costSkill)
  }

  /** Without a strategy a valid, non-empty template still stores no constraint at all. */
  lemma StoredWithoutStrategy(t: seq<Json>, opt: Option<OptimizerRef>, optimizable: Result<set<string>>)
    requires |t| > 0 && Validation(t).Ok?
    ensures Stored(Some(JArr(t)), false, opt, optimizable) == Ok([])
  {
  }

  /** With a strategy whose optimizer has inputs, a valid template of dicts with numeric limits
    * stores one constraint per entry, in order, each on the entry's predicted variable and
    * limits. */
  lemma StoredPerEntry(t: seq<Json>, inputs: seq<string>, cost: Option<string>, optimizable: set<string>)
    requires |t| > 0
    requires forall i :: 0 <= i < |t| ==>
               t[i].JObj? && "predicted_var" in t[i].o && "op_min" in t[i].o && "op_max" in t[i].o
               && t[i].o["op_min"].JNum? && t[i].o["op_max"].JNum?
    ensures var r := Stored(Some(JArr(t)), true, Some(OptimizerRef(Some(inputs), cost)), Ok(optimizable));
            r.Ok? && |r.value| == |t|
            && forall i :: 0 <= i < |t| ==>
                 r.value[i] == NonlinearConstraint(Kept(inputs, optimizable), cost, t[i].o["predicted_var"],
                                                   t[i].o["op_min"].r, t[i].o["op_max"].r, [Fin(0.0), Fin(0.0)], [PosInf, PosInf])
  {
    ValidationOfDicts(t);
    var b := Built(t, Kept(inputs, optimizable), cost);
    assert b.Ok?;
  }

  /** The value of a constraint's function for a predicted value `v`. */
  function ConstraintVector(c: SolverConstraint, v: real): seq<real> {
    [v - c.opMin, c.opMax - v]
  }

  /** A built constraint is satisfied (both components within `[0, inf]`) exactly when the
    * predicted value lies within the entry's limits. */
  lemma ConstraintFeasible(c: SolverConstraint, v: real)
    requires c.lb == [Fin(0.0), Fin(0.0)] && c.ub == [PosInf, PosInf]
    ensures (forall k :: 0 <= k < 2 ==> Le(c.lb[k], Fin(ConstraintVector(c, v)[k])) && Le(Fin(ConstraintVector(c, v)[k]), c.ub[k]))
            <==> c.opMin <= v <= c.opMax
  {
    var r := ConstraintVector(c, v);
    if c.opMin <= v <= c.opMax {
      forall k | 0 <= k < 2
        ensures Le(c.lb[k], Fin(r[k])) && Le(Fin(r[k]), c.ub[k])
      {
      }
    } else {
      if v < c.opMin {
        assert !Le(c.lb[0], Fin(r[0]));
      } else {
        assert !Le(c.lb[1], Fin(r[1]));
      }
    }
  }

  /** The validation loop of `execute`. */
  method Validate(t: seq<Json>) returns (r: Result<()>)
    ensures r == Validation(t)
  {
    var i := 0;
    while i < |t|
      invariant 0 <= i <= |t|
      invariant Validation(t[..i]) == Ok(())
    {
      assert t[..i + 1][..i] == t[..i] && t[..i + 1][i] == t[i];
      var check := EntryCheck(i, t[i]);
      if check.Err? {
        ValidationErrPersists(t, i + 1);
        return check;
      }
      i := i + 1;
    }
    assert t[..i] == t;
    return Ok(());
  }

  lemma {:induction false} ValidationErrPersists(t: seq<Json>, k: nat)
    requires k <= |t| && Validation(t[..k]).Err?
    ensures Validation(t) == Validation(t[..k])
    decreases |t| - k
  {
    if k < |t| {
      assert t[..k + 1][..k] == t[..k];
      ValidationErrPersists(t, k + 1);
    } else {
      assert t[..k] == t;
    }
  }

  /** The build loop of `execute`. */
  method Build(t: seq<Json>, inputs: seq<string>, cost: Option<string>) returns (r: Result<seq<SolverConstraint>>)
    ensures r == Built(t, inputs, cost)
  {
    var cs: seq<SolverConstraint> := [];
    var i := 0;
    while i < |t|
      invariant 0 <= i <= |t|
      invariant Built(t[..i], inputs, cost) == Ok(cs)
    {
      assert t[..i + 1][..i] == t[..i] && t[..i + 1][i] == t[i];
      var c := EntryConstraint(t[i], inputs, cost);
      if c.Err? {
        BuiltErrPersists(t, i + 1, inputs, cost);
        return Err(c.error);
      }
      cs := cs + [c.value];
      i := i + 1;
    }
    assert t[..i] == t;
    return Ok(cs);
  }

  lemma {:induction false} BuiltErrPersists(t: seq<Json>, k: nat, inputs: seq<string>, cost: Option<string>)
    requires k <= |t| && Built(t[..k], inputs, cost).Err?
    ensures Built(t, inputs, cost) == Built(t[..k], inputs, cost)
    decreases |t| - k
  {
    if k < |t| {
      assert t[..k + 1][..k] == t[..k];
      BuiltErrPersists(t, k + 1, inputs, cost);
    } else {
      assert t[..k] == t;
    }
  }

  /** `Constraints.execute`: the stored list replaces the context's solver constraints; an error
    * leaves them as they were. `opt` is the first optimizer skill of the linked strategy, and
    * `optimizable` what its `get_optimizable_variable_ids` gives. */
  method Execute(s: Skill, ctx: DataContext, opt: Option<OptimizerRef>, optimizable: Result<set<string>>)
    returns (r: Result<()>)
    requires s.spec.ConstraintsSpec?
    modifies ctx
    ensures var st := Stored(s.spec.template, s.hasStrategy, opt, optimizable);
            (r.Ok? <==> st.Ok?)
            && (r.Err? ==> r.error == st.error && ctx.solverConstraints == old(ctx.solverConstraints))
            && (r.Ok? ==> ctx.solverConstraints == st.value)
    ensures ctx.frame == old(ctx.frame) && ctx.dynamicBounds == old(ctx.dynamicBounds)
  {
    var template := s.spec.template;
    if template.None? || !template.value.JArr? || |template.value.a| == 0 {
      ctx.SetSolverConstraints(Some([]));
      return Ok(());
    }
    var t := template.value.a;
    var valid := Validate(t);
    if valid.Err? {
      return Err(valid.error);
    }
    var cs: seq<SolverConstraint> := [];
    if s.hasStrategy && opt.Some? {
      if optimizable.Err? {
        return Err(optimizable.error);
      }
      if opt.value.inputs.None? {
        return Err(TypeError("'NoneType' object is not iterable"));
      }
      var built := Build(t, Kept(opt.value.inputs.value, optimizable.value), opt.value.costSkill);
      if built.Err? {
        return Err(built.error);
      }
      cs := built.value;
    }
    ctx.SetSolverConstraints(Some(cs));
    return Ok(());
  }
}
