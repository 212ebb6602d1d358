/** The optimizer skill's own work, in both lineages (src/task/math_optimizer/strategy/skills/optimizer.py
  * and rto/skills/optimizer.py): the start point and bounds of the search, the choice of scipy
  * routine, the candidate writes of the objective, and the write-back of the solution. Running the
  * cost skill inside the objective belongs to the engine, which dispatches skills. */
module Optimizers {
  import opened Wrappers
  import opened Texts
  import opened XReals
  import opened Config
  import opened Oracles
  import opened Variables
  import opened DataContexts
  import Bounds

  /** The start point and the box of the search, one entry per optimizable input. */
  datatype Prepared = Prepared(x0: seq<real>, bounds: seq<(XReal, XReal)>)

  /** `zip(ids, x)`: stops at the shorter of the two. */
  function Zip(ids: seq<string>, x: seq<real>): (r: seq<(string, real)>)
    ensures |r| == if |ids| <= |x| then |ids| else |x|
    ensures forall i :: 0 <= i < |r| ==> r[i] == (ids[i], x[i])
  {
    if |ids| == 0 || |x| == 0 then [] else [(ids[0], x[0])] + Zip(ids[1..], x[1..])
  }

  /** The state after the preparation loop has visited `touched`: a visited variable with no current
    * value gets 0.0 as current and decision value. */
  function ZeroCurrents(values: map<string, VarState>, touched: seq<string>): (r: map<string, VarState>)
    ensures r.Keys == values.Keys
    ensures forall id :: id in values && id !in touched ==> r[id] == values[id]
    ensures forall id :: id in values && values[id].current.Some? ==> r[id] == values[id]
    ensures forall id :: id in values ==> r[id].current.GetOr(0.0) == values[id].current.GetOr(0.0)
  {
    map id | id in values ::
      if id in touched && values[id].current.None? then VarState(Some(0.0), Some(0.0), values[id].recommended)
      else values[id]
  }

  /** Whether the preparation loop gets past input `v`: it must be in the context, and the current
    * engine also reads its hard limits and needs its dynamic bounds. */
  predicate Ready(v: string, lineage: Lineage, present: set<string>,
                  limits: map<string, Option<HardLimits>>, dyn: map<string, BoundPair>)
    requires present <= limits.Keys
  {
    v in present && (lineage == Current ==> limits[v].Some? && v in dyn)
  }

  /** The messages of the preparation loop's errors. */
  const NoHardLimits := "'Variable' object has no attribute 'min_hard_limit'"
  const MissingBoundsHead := "Missing dynamic bounds for '"
  const MissingBoundsTail := "'. Ensure BoundsBuilderSkill provides bounds for all optimizer inputs."

  /** The error of the first input the loop does not get past. */
  function StepError(v: string, present: set<string>, limits: map<string, Option<HardLimits>>): Error
    requires present <= limits.Keys
  {
    if v !in present then NotFound(v)
    else if limits[v].None? then AttributeError(NoHardLimits)
    else RuntimeError(MissingBoundsHead + v + MissingBoundsTail)
  }

  /** The bounds of one input: the dynamic bounds in the current engine; the threshold around the
    * current value in the legacy one, a None threshold counting as 1.0. */
  function BoundOf(v: string, x: real, lineage: Lineage, threshold: Option<real>, dyn: map<string, BoundPair>): (XReal, XReal)
    requires lineage == Current ==> v in dyn
  {
    if lineage == Current then (dyn[v].min, dyn[v].max)
    else (Fin(x - threshold.GetOr(1.0)), Fin(x + threshold.GetOr(1.0)))
  }

  /** The preparation loop: the start point and bounds, or the error of the first input the loop does
    * not get past, with the number of inputs whose missing current value was zeroed. */
  function PrepareRun(ids: seq<string>, lineage: Lineage, present: set<string>, values: map<string, VarState>,
                      thresholds: map<string, Option<real>>, limits: map<string, Option<HardLimits>>,
                      dyn: map<string, BoundPair>): (r: (Result<Prepared>, nat))
    requires present <= values.Keys && present <= thresholds.Keys && present <= limits.Keys
    ensures r.1 <= |ids|
    ensures r.0.Ok? ==> r.1 == |ids| && |r.0.value.x0| == |ids| && |r.0.value.bounds| == |ids|
  {
    if |ids| == 0 then (Ok(Prepared([], [])), 0)
    else
      var n := |ids| - 1;
      var v := ids[n];
      var prev := PrepareRun(ids[..n], lineage, present, values, thresholds, limits, dyn);
      if prev.0.Err? then prev
      else if !Ready(v, lineage, present, limits, dyn) then
        (Err(StepError(v, present, limits)), if v in present then n + 1 else n)
      else
        var x := values[v].current.GetOr(0.0);
        (Ok(Prepared(prev.0.value.x0 + [x], prev.0.value.bounds + [BoundOf(v, x, lineage, thresholds[v], dyn)])), n + 1)
  }

  /** The position of the first input the loop does not get past (`|ids|` when there is none). */
  function FirstUnready(ids: seq<string>, lineage: Lineage, present: set<string>,
                        limits: map<string, Option<HardLimits>>, dyn: map<string, BoundPair>): (k: nat)
    requires present <= limits.Keys
    ensures k <= |ids|
    ensures forall j :: 0 <= j < k ==> Ready(ids[j], lineage, present, limits, dyn)
    ensures k < |ids| ==> !Ready(ids[k], lineage, present, limits, dyn)
  {
    if |ids| == 0 || !Ready(ids[0], lineage, present, limits, dyn) then 0
    else 1 + FirstUnready(ids[1..], lineage, present, limits, dyn)
  }

  /** The loop gets through exactly when every input is ready, and then starts each input at its
    * current value (None read as 0.0) within that input's bounds. */
  lemma {:induction false} PrepareRunOk(ids: seq<string>, lineage: Lineage, present: set<string>, values: map<string, VarState>,
                                        thresholds: map<string, Option<real>>, limits: map<string, Option<HardLimits>>,
                                        dyn: map<string, BoundPair>)
    requires present <= values.Keys && present <= thresholds.Keys && present <= limits.Keys
    ensures var r := PrepareRun(ids, lineage, present, values, thresholds, limits, dyn);
            (r.0.Ok? <==> forall i :: 0 <= i < |ids| ==> Ready(ids[i], lineage, present, limits, dyn))
            && (r.0.Ok? ==>
                  forall i :: 0 <= i < |ids| ==>
                    r.0.value.x0[i] == values[ids[i]].current.GetOr(0.0)
                    && r.0.value.bounds[i] == BoundOf(ids[i], r.0.value.x0[i], lineage, thresholds[ids[i]], dyn))
  {
    if |ids| > 0 {
      var n := |ids| - 1;
      assert forall i :: 0 <= i < n ==> ids[..n][i] == ids[i];
      PrepareRunOk(ids[..n], lineage, present, values, thresholds, limits, dyn);
      var prev := PrepareRun(ids[..n], lineage, present, values, thresholds, limits, dyn);
      var r := PrepareRun(ids, lineage, present, values, thresholds, limits, dyn);
      if r.0.Ok? {
        assert prev.0.Ok?;
        assert r.0.value.x0 == prev.0.value.x0 + [values[ids[n]].current.GetOr(0.0)];
      }
    }
  }

  /** A failing loop stops at the first input that is not ready, with that input's error; the
    * inputs before it, and the failing one when it is in the context, have been visited. */
  lemma {:induction false} PrepareRunErr(ids: seq<string>, lineage: Lineage, present: set<string>, values: map<string, VarState>,
                                         thresholds: map<string, Option<real>>, limits: map<string, Option<HardLimits>>,
                                         dyn: map<string, BoundPair>)
    requires present <= values.Keys && present <= thresholds.Keys && present <= limits.Keys
    ensures var r := PrepareRun(ids, lineage, present, values, thresholds, limits, dyn);
            var k := FirstUnready(ids, lineage, present, limits, dyn);
            r.0.Err? ==> k < |ids| && r.0.error == StepError(ids[k], present, limits)
                         && r.1 == (if ids[k] in present then k + 1 else k)
  {
    if |ids| > 0 {
      var n := |ids| - 1;
      var k := FirstUnready(ids, lineage, present, limits, dyn);
      var prev := PrepareRun(ids[..n], lineage, present, values, thresholds, limits, dyn);
      var r := PrepareRun(ids, lineage, present, values, thresholds, limits, dyn);
      FirstUnreadyPrefix(ids, lineage, present, limits, dyn, n);
      if prev.0.Err? {
        PrepareRunErr(ids[..n], lineage, present, values, thresholds, limits, dyn);
        var j := FirstUnready(ids[..n], lineage, present, limits, dyn);
        assert ids[..n][j] == ids[j];
        assert r == prev && k == j;
      } else if r.0.Err? {
        PrepareRunGetsThrough(ids[..n], lineage, present, values, thresholds, limits, dyn);
        assert !Ready(ids[n], lineage, present, limits, dyn);
        assert k == n;
        assert r == (Err(StepError(ids[n], present, limits)), if ids[n] in present then n + 1 else n);
      }
    }
  }

  lemma {:induction false} PrepareRunGetsThrough(ids: seq<string>, lineage: Lineage, present: set<string>, values: map<string, VarState>,
                                                 thresholds: map<string, Option<real>>, limits: map<string, Option<HardLimits>>,
                                                 dyn: map<string, BoundPair>)
    requires present <= values.Keys && present <= thresholds.Keys && present <= limits.Keys
    ensures PrepareRun(ids, lineage, present, values, thresholds, limits, dyn).0.Ok?
            <==> FirstUnready(ids, lineage, present, limits, dyn) == |ids|
  {
    if |ids| > 0 {
      var n := |ids| - 1;
      PrepareRunGetsThrough(ids[..n], lineage, present, values, thresholds, limits, dyn);
      FirstUnreadyPrefix(ids, lineage, present, limits, dyn, n);
    }
  }

  /** The first unready input of a prefix is that of the whole list, when the prefix has one. */
  lemma {:induction false} FirstUnreadyPrefix(ids: seq<string>, lineage: Lineage, present: set<string>,
                                              limits: map<string, Option<HardLimits>>, dyn: map<string, BoundPair>, n: nat)
    requires present <= limits.Keys && n <= |ids|
    ensures var k := FirstUnready(ids[..n], lineage, present, limits, dyn);
            k < n ==> FirstUnready(ids, lineage, present, limits, dyn) == k
    ensures var k := FirstUnready(ids[..n], lineage, present, limits, dyn);
            k == n ==> FirstUnready(ids, lineage, present, limits, dyn) >= n
  {
    var k := FirstUnready(ids[..n], lineage, present, limits, dyn);
    var all := FirstUnready(ids, lineage, present, limits, dyn);
    assert forall j :: 0 <= j < n ==> ids[..n][j] == ids[j];
  }

  /** The current values of a value map. */
  function Currents(values: map<string, VarState>): (r: map<string, Option<real>>)
    ensures r.Keys == values.Keys
  {
    map v | v in values :: values[v].current
  }

  /** In the current engine, inputs whose bounds the bounds builder produced from ordered hard limits
    * are searched inside those limits, with ordered bounds. */
  lemma PreparedWithinHardLimits(ids: seq<string>, present: set<string>, values: map<string, VarState>,
                                 thresholds: map<string, Option<real>>, limits: map<string, Option<HardLimits>>,
                                 builderInputs: seq<string>)
    requires present <= values.Keys && present <= thresholds.Keys && present <= limits.Keys
    requires Bounds.BoundsMap(builderInputs, present, Currents(values), thresholds, limits).Ok?
    ensures var dyn := Bounds.BoundsMap(builderInputs, present, Currents(values), thresholds, limits).value;
            var run := PrepareRun(ids, Current, present, values, thresholds, limits, dyn);
            run.0.Ok? ==>
              forall i :: 0 <= i < |ids| && ids[i] in present && limits[ids[i]].Some? ==>
                Le(run.0.value.bounds[i].0, run.0.value.bounds[i].1)
                && (Le(limits[ids[i]].value.min, limits[ids[i]].value.max) ==>
                      Le(limits[ids[i]].value.min, run.0.value.bounds[i].0)
                      && Le(run.0.value.bounds[i].1, limits[ids[i]].value.max))
  {
    var dyn := Bounds.BoundsMap(builderInputs, present, Currents(values), thresholds, limits).value;
    PrepareRunOk(ids, Current, present, values, thresholds, limits, dyn);
    Bounds.BoundsMapOrdered(builderInputs, present, Currents(values), thresholds, limits);
  }

  /** In the legacy engine, a non-negative threshold gives bounds that hold the start point, centred
    * on it, with no hard-limit clamp. */
  lemma LegacyBoundsCentred(ids: seq<string>, present: set<string>, values: map<string, VarState>,
                            thresholds: map<string, Option<real>>, limits: map<string, Option<HardLimits>>,
                            dyn: map<string, BoundPair>)
    requires present <= values.Keys && present <= thresholds.Keys && present <= limits.Keys
    requires forall v :: v in ids ==> v in present
    ensures var run := PrepareRun(ids, Legacy, present, values, thresholds, limits, dyn);
            run.0.Ok?
            && forall i :: 0 <= i < |ids| ==>
                 var x := run.0.value.x0[i];
                 var t := thresholds[ids[i]].GetOr(1.0);
                 run.0.value.bounds[i] == (Fin(x - t), Fin(x + t))
                 && (t >= 0.0 ==> Le(run.0.value.bounds[i].0, Fin(x)) && Le(Fin(x), run.0.value.bounds[i].1))
  {
    PrepareRunOk(ids, Legacy, present, values, thresholds, limits, dyn);
  }

  /** The preparation loop of `execute`: builds the start point and bounds, zeroing a missing current
    * value (and the decision value with it) before it is read. */
  method Prepare(ctx: DataContext, ids: seq<string>, lineage: Lineage) returns (r: Result<Prepared>)
    requires ctx.Valid()
    modifies ctx.variables.Values
    ensures var run := PrepareRun(ids, lineage, ctx.variables.Keys, old(ctx.Values()), Bounds.ThresholdsOf(ctx),
                                  Bounds.LimitsOf(ctx), ctx.dynamicBounds);
            r == run.0 && ctx.Values() == ZeroCurrents(old(ctx.Values()), ids[..run.1])
  {
    ghost var v0 := ctx.Values();
    ghost var thr := Bounds.ThresholdsOf(ctx);
    ghost var lim := Bounds.LimitsOf(ctx);
    var x0: seq<real> := [];
    var bs: seq<(XReal, XReal)> := [];
    var i := 0;
    while i < |ids|
      invariant 0 <= i <= |ids|
      invariant PrepareRun(ids[..i], lineage, ctx.variables.Keys, v0, thr, lim, ctx.dynamicBounds) == (Ok(Prepared(x0, bs)), i)
      invariant ctx.Values() == ZeroCurrents(v0, ids[..i])
    {
      var v := ids[i];
      var got := ctx.GetVariable(v);
      if got.Err? {
        PrepareStepErr(ids, i, lineage, ctx.variables.Keys, v0, thr, lim, ctx.dynamicBounds);
        return Err(got.error);
      }
      ZeroCurrentsSnoc(v0, ids, i);
      assert thr[v] == ctx.variables[v].threshold;
      var step := Visit(ctx, v, lineage);
      if step.Err? {
        PrepareStepErr(ids, i, lineage, ctx.variables.Keys, v0, thr, lim, ctx.dynamicBounds);
        return Err(step.error);
      }
      var (x, b) := step.value;
      PrepareStepOk(ids, i, lineage, ctx.variables.Keys, v0, thr, lim, ctx.dynamicBounds, x0, bs);
      bs := bs + [b];
      x0 := x0 + [x];
      i := i + 1;
    }
    assert ids[..i] == ids;
    return Ok(Prepared(x0, bs));
  }

  /** One pass of the preparation loop over a variable in the context: a missing current value is
    * zeroed with the decision value, then the input's start value and bounds are read. */
  method Visit(ctx: DataContext, v: string, lineage: Lineage) returns (r: Result<(real, (XReal, XReal))>)
    requires ctx.Valid() && v in ctx.variables
    modifies ctx.variables[v]
    ensures var s := old(ctx.Values())[v];
            ctx.Values() == if s.current.None? then old(ctx.Values())[v := VarState(Some(0.0), Some(0.0), s.recommended)]
                            else old(ctx.Values())
    ensures var x := old(ctx.Values())[v].current.GetOr(0.0);
            var lim := Bounds.LimitsOf(ctx);
            r == if Ready(v, lineage, ctx.variables.Keys, lim, ctx.dynamicBounds)
                 then Ok((x, BoundOf(v, x, lineage, ctx.variables[v].threshold, ctx.dynamicBounds)))
                 else Err(StepError(v, ctx.variables.Keys, lim))
  {
    var variable := ctx.variables[v];
    var x := if variable.current.Some? then variable.current.value else 0.0;
    if variable.current.None? {
      ctx.SetState(v, VarState(Some(0.0), Some(0.0), variable.recommended));
    }
    if lineage == Current {
      if variable.hardLimits.None? {
        return Err(AttributeError(NoHardLimits));
      }
      if v !in ctx.dynamicBounds {
        return Err(RuntimeError(MissingBoundsHead + v + MissingBoundsTail));
      }
      var b := ctx.dynamicBounds[v];
      return Ok((x, (b.min, b.max)));
    }
    var t := if variable.threshold.Some? then variable.threshold.value else 1.0;
    return Ok((x, (Fin(x - t), Fin(x + t))));
  }

  /** A step of the loop over a ready input extends the start point and the bounds. */
  lemma PrepareStepOk(ids: seq<string>, i: nat, lineage: Lineage, present: set<string>, values: map<string, VarState>,
                      thresholds: map<string, Option<real>>, limits: map<string, Option<HardLimits>>,
                      dyn: map<string, BoundPair>, x0: seq<real>, bs: seq<(XReal, XReal)>)
    requires i < |ids|
    requires present <= values.Keys && present <= thresholds.Keys && present <= limits.Keys
    requires PrepareRun(ids[..i], lineage, present, values, thresholds, limits, dyn) == (Ok(Prepared(x0, bs)), i)
    requires Ready(ids[i], lineage, present, limits, dyn)
    ensures var x := values[ids[i]].current.GetOr(0.0);
            PrepareRun(ids[..i + 1], lineage, present, values, thresholds, limits, dyn)
              == (Ok(Prepared(x0 + [x], bs + [BoundOf(ids[i], x, lineage, thresholds[ids[i]], dyn)])), i + 1)
  {
    PrepareRunSnoc(ids, i, lineage, present, values, thresholds, limits, dyn);
  }

  /** A step of the loop over an input that is not ready ends the whole loop with its error. */
  lemma PrepareStepErr(ids: seq<string>, i: nat, lineage: Lineage, present: set<string>, values: map<string, VarState>,
                       thresholds: map<string, Option<real>>, limits: map<string, Option<HardLimits>>,
                       dyn: map<string, BoundPair>)
    requires i < |ids|
    requires present <= values.Keys && present <= thresholds.Keys && present <= limits.Keys
    requires PrepareRun(ids[..i], lineage, present, values, thresholds, limits, dyn).0.Ok?
    requires !Ready(ids[i], lineage, present, limits, dyn)
    ensures PrepareRun(ids, lineage, present, values, thresholds, limits, dyn)
            == (Err(StepError(ids[i], present, limits)), if ids[i] in present then i + 1 else i)
  {
    PrepareRunSnoc(ids, i, lineage, present, values, thresholds, limits, dyn);
    PrepareErrPersists(ids, i + 1, lineage, present, values, thresholds, limits, dyn);
  }

  lemma PrepareRunSnoc(ids: seq<string>, i: nat, lineage: Lineage, present: set<string>, values: map<string, VarState>,
                       thresholds: map<string, Option<real>>, limits: map<string, Option<HardLimits>>,
                       dyn: map<string, BoundPair>)
    requires i < |ids|
    requires present <= values.Keys && present <= thresholds.Keys && present <= limits.Keys
    ensures var prev := PrepareRun(ids[..i], lineage, present, values, thresholds, limits, dyn);
            var v := ids[i];
            PrepareRun(ids[..i + 1], lineage, present, values, thresholds, limits, dyn) ==
              if prev.0.Err? then prev
              else if !Ready(v, lineage, present, limits, dyn) then
                (Err(StepError(v, present, limits)), if v in present then i + 1 else i)
              else
                var x := values[v].current.GetOr(0.0);
                (Ok(Prepared(prev.0.value.x0 + [x], prev.0.value.bounds + [BoundOf(v, x, lineage, thresholds[v], dyn)])), i + 1)
  {
    assert ids[..i + 1][..i] == ids[..i];
    assert ids[..i + 1][i] == ids[i];
  }

  lemma {:induction false} PrepareErrPersists(ids: seq<string>, k: nat, lineage: Lineage, present: set<string>,
                                              values: map<string, VarState>, thresholds: map<string, Option<real>>,
                                              limits: map<string, Option<HardLimits>>, dyn: map<string, BoundPair>)
    requires k <= |ids|
    requires present <= values.Keys && present <= thresholds.Keys && present <= limits.Keys
    requires PrepareRun(ids[..k], lineage, present, values, thresholds, limits, dyn).0.Err?
    ensures PrepareRun(ids, lineage, present, values, thresholds, limits, dyn)
            == PrepareRun(ids[..k], lineage, present, values, thresholds, limits, dyn)
    decreases |ids| - k
  {
    if k < |ids| {
      assert ids[..k + 1][..k] == ids[..k];
      PrepareErrPersists(ids, k + 1, lineage, present, values, thresholds, limits, dyn);
    } else {
      assert ids[..k] == ids;
    }
  }

  lemma ZeroCurrentsSnoc(values: map<string, VarState>, ids: seq<string>, i: nat)
    requires i < |ids| && ids[i] in values
    ensures var before := ZeroCurrents(values, ids[..i]);
            ZeroCurrents(values, ids[..i + 1])
              == if before[ids[i]].current.None?
                 then before[ids[i] := VarState(Some(0.0), Some(0.0), before[ids[i]].recommended)]
                 else before
  {
    assert ids[..i + 1] == ids[..i] + [ids[i]];
  }

  /** The scipy call `execute` makes first, and the call it falls back on when that one raises. */
  datatype Plan = Plan(primary: SolverCall, fallback: Option<SolverCall>)

  /** The routines with native constraint support. */
  predicate Native(m: string) {
    m == "SLSQP" || m == "COBYLA" || m == "trust-constr" || m == "COBYQA"
  }

  /** The current engine's dispatch on the stripped algorithm name (None reads as `''`): the native
    * routines and any other name run `minimize` with 1000 iterations and the constraints, the
    * other names falling back on a bounds-only `minimize`; `differential_evolution` and `shgo` run
    * with their fixed settings. */
  function PlanOf(algorithm: Option<string>, p: Prepared, cs: seq<SolverConstraint>): (r: Plan)
    ensures r.primary.bounds == p.bounds && r.primary.constraints == cs
    ensures r.fallback.Some? <==> !Native(Strip(algorithm.GetOr(""))) && Strip(algorithm.GetOr("")) != "differential_evolution"
                                  && Strip(algorithm.GetOr("")) != "shgo"
    ensures r.fallback.Some? ==>
              r.fallback.value == SolverCall(Minimize(Some(Strip(algorithm.GetOr(""))), p.x0, 1000, None), p.bounds, [])
              && r.primary.routine == r.fallback.value.routine
    ensures Native(Strip(algorithm.GetOr(""))) ==> r.primary.routine == Minimize(Some(Strip(algorithm.GetOr(""))), p.x0, 1000, None)
    ensures Strip(algorithm.GetOr("")) == "differential_evolution" ==>
              r.primary.routine == DifferentialEvolution(100, 15, 0.000001, true, 42)
    ensures Strip(algorithm.GetOr("")) == "shgo" ==> r.primary.routine == Shgo(100, 3, "sobol")
  {
    PlanFor(Strip(algorithm.GetOr("")), p, cs)
  }

  /** The dispatch on an already stripped name `m`. */
  function PlanFor(m: string, p: Prepared, cs: seq<SolverConstraint>): (r: Plan)
    ensures r.primary.bounds == p.bounds && r.primary.constraints == cs
    ensures r.fallback.Some? <==> !Native(m) && m != "differential_evolution" && m != "shgo"
    ensures r.fallback.Some? ==>
              r.fallback.value == SolverCall(Minimize(Some(m), p.x0, 1000, None), p.bounds, [])
              && r.primary.routine == r.fallback.value.routine
    ensures Native(m) ==> r.primary.routine == Minimize(Some(m), p.x0, 1000, None)
    ensures m == "differential_evolution" ==> r.primary.routine == DifferentialEvolution(100, 15, 0.000001, true, 42)
    ensures m == "shgo" ==> r.primary.routine == Shgo(100, 3, "sobol")
  {
    if Native(m) then Plan(SolverCall(Minimize(Some(m), p.x0, 1000, None), p.bounds, cs), None)
    else if m == "differential_evolution" then
      Plan(SolverCall(DifferentialEvolution(100, 15, 0.000001, true, 42), p.bounds, cs), None)
    else if m == "shgo" then Plan(SolverCall(Shgo(100, 3, "sobol"), p.bounds, cs), None)
    else
      var call := Minimize(Some(m), p.x0, 1000, None);
      Plan(SolverCall(call, p.bounds, cs), Some(SolverCall(call, p.bounds, [])))
  }

  /** Surrounding white space in the configured name does not change the routine chosen. */
  lemma PlanIgnoresSpace(algorithm: string, p: Prepared, cs: seq<SolverConstraint>)
    ensures PlanOf(Some(algorithm), p, cs) == PlanOf(Some(Strip(algorithm)), p, cs)
  {
    var m := Strip(algorithm);
    StripIdempotent(algorithm);
    assert PlanOf(Some(algorithm), p, cs) == PlanFor(m, p, cs);
    assert PlanOf(Some(m), p, cs) == PlanFor(Strip(m), p, cs);
  }

  /** The legacy engine's only call: `minimize` with the configured method as given, 1000 iterations,
    * `ftol` 1e-8 and no constraints. */
  function LegacyPlan(algorithm: Option<string>, p: Prepared): (r: Plan)
    ensures r.fallback.None? && r.primary.constraints == [] && r.primary.bounds == p.bounds
    ensures r.primary.routine.Minimize? && r.primary.routine.methodName == algorithm
            && r.primary.routine.x0 == p.x0 && r.primary.routine.ftol == Some(0.00000001)
  {
    Plan(SolverCall(Minimize(algorithm, p.x0, 1000, Some(0.00000001)), p.bounds, []), None)
  }

  /** The number of leading pairs whose variable is in the context: the writes that happen before
    * `get_variable` raises. */
  function Writable(pairs: seq<(string, real)>, present: set<string>): (n: nat)
    ensures n <= |pairs|
    ensures forall i :: 0 <= i < n ==> pairs[i].0 in present
    ensures n < |pairs| ==> pairs[n].0 !in present
  {
    if |pairs| == 0 || pairs[0].0 !in present then 0 else 1 + Writable(pairs[1..], present)
  }

  /** One write: the decision value, and with `recommend` the recommended value too. */
  function Write(st: VarState, x: real, recommend: bool): VarState {
    if recommend then st.(dof := Some(x), recommended := Some(x)) else st.(dof := Some(x))
  }

  /** The values after writing each pair in order. */
  function Applied(values: map<string, VarState>, pairs: seq<(string, real)>, recommend: bool): (r: map<string, VarState>)
    requires forall i :: 0 <= i < |pairs| ==> pairs[i].0 in values
    ensures r.Keys == values.Keys
  {
    if |pairs| == 0 then values
    else
      var n := |pairs| - 1;
      var prev := Applied(values, pairs[..n], recommend);
      var (id, x) := pairs[n];
      prev[id := Write(prev[id], x, recommend)]
  }

  /** Writes never change a current value, and leave a variable no pair names as it was. */
  lemma {:induction false} AppliedUntouched(values: map<string, VarState>, pairs: seq<(string, real)>, recommend: bool, id: string)
    requires forall i :: 0 <= i < |pairs| ==> pairs[i].0 in values
    requires id in values
    ensures Applied(values, pairs, recommend)[id].current == values[id].current
    ensures (forall i :: 0 <= i < |pairs| ==> pairs[i].0 != id) ==> Applied(values, pairs, recommend)[id] == values[id]
  {
    if |pairs| > 0 {
      var n := |pairs| - 1;
      assert forall i :: 0 <= i < n ==> pairs[..n][i] == pairs[i];
      AppliedUntouched(values, pairs[..n], recommend, id);
    }
  }

  /** A named variable takes the value of the last pair naming it, as decision value and, with
    * `recommend`, as recommended value. */
  lemma {:induction false} AppliedLast(values: map<string, VarState>, pairs: seq<(string, real)>, recommend: bool, i: nat)
    requires forall k :: 0 <= k < |pairs| ==> pairs[k].0 in values
    requires i < |pairs| && forall j :: i < j < |pairs| ==> pairs[j].0 != pairs[i].0
    ensures var r := Applied(values, pairs, recommend)[pairs[i].0];
            r.dof == Some(pairs[i].1)
            && r.recommended == (if recommend then Some(pairs[i].1) else Applied(values, pairs[..i], recommend)[pairs[i].0].recommended)
  {
    var n := |pairs| - 1;
    if i < n {
      assert forall k :: 0 <= k < n ==> pairs[..n][k] == pairs[k];
      AppliedLast(values, pairs[..n], recommend, i);
      assert pairs[..n][..i] == pairs[..i];
    } else {
      assert pairs[..n] == pairs[..i];
    }
  }

  lemma AppliedSnoc(values: map<string, VarState>, pairs: seq<(string, real)>, recommend: bool, i: nat)
    requires i < |pairs| && forall k :: 0 <= k <= i ==> pairs[k].0 in values
    ensures var prev := Applied(values, pairs[..i], recommend);
            var (id, x) := pairs[i];
            Applied(values, pairs[..i + 1], recommend)
              == prev[id := Write(prev[id], x, recommend)]
  {
    assert pairs[..i + 1][..i] == pairs[..i];
    assert pairs[..i + 1][i] == pairs[i];
  }

  /** The writes of the objective (decision values only) and of the write-back (decision and
    * recommended values): pair by pair, raising `KeyError` at the first variable missing from the
    * context, after the writes before it. */
  method WriteValues(ctx: DataContext, pairs: seq<(string, real)>, recommend: bool) returns (r: Result<()>)
    requires ctx.Valid()
    modifies ctx.variables.Values
    ensures var w := Writable(pairs, ctx.variables.Keys);
            ctx.Values() == Applied(old(ctx.Values()), pairs[..w], recommend)
            && r == (if w == |pairs| then Ok(()) else Err(NotFound(pairs[w].0)))
  {
    ghost var v0 := ctx.Values();
    ghost var w := Writable(pairs, ctx.variables.Keys);
    ghost var writable := pairs[..w];
    var i := 0;
    while i < |pairs|
      invariant 0 <= i <= w
      invariant ctx.Values() == Applied(v0, writable[..i], recommend)
    {
      var (id, x) := pairs[i];
      var got := ctx.GetVariable(id);
      if got.Err? {
        assert writable[..i] == pairs[..w];
        return Err(got.error);
      }
      AppliedSnoc(v0, writable, recommend, i);
      ctx.SetState(id, Write(got.value.State(), x, recommend));
      i := i + 1;
    }
    assert writable[..i] == pairs[..w];
    return Ok(());
  }

  /** How the solver's answer ends `execute`: a raised exception propagates, a failed run raises
    * `RuntimeError` with the solver's message, and a successful one is written back. */
  function Verdict(outcome: SolverOutcome): (r: Result<seq<real>>)
    ensures outcome.Raised? ==> r == Err(LibraryError(outcome.kind, outcome.message))
    ensures outcome.Finished? && !outcome.success ==> r == Err(RuntimeError("Optimization failed: " + outcome.message))
    ensures r.Ok? <==> outcome.Finished? && outcome.success
    ensures r.Ok? ==> r.value == outcome.x
  {
    match outcome
    case Raised(kind, message) => Err(LibraryError(kind, message))
    case Finished(success, x, message) =>
      if success then Ok(x) else Err(RuntimeError("Optimization failed: " + message))
  }

  /** The end of `execute`: on success every optimizable input takes the solver's value as decision
    * and recommended value (zip order); on failure nothing is written. */
  method WriteBack(ctx: DataContext, ids: seq<string>, outcome: SolverOutcome) returns (r: Result<()>)
    requires ctx.Valid()
    modifies ctx.variables.Values
    ensures Verdict(outcome).Err? ==> r == Err(Verdict(outcome).error) && ctx.Values() == old(ctx.Values())
    ensures Verdict(outcome).Ok? ==>
              var pairs := Zip(ids, outcome.x);
              var w := Writable(pairs, ctx.variables.Keys);
              ctx.Values() == Applied(old(ctx.Values()), pairs[..w], true)
              && r == (if w == |pairs| then Ok(()) else Err(NotFound(pairs[w].0)))
  {
    var v := Verdict(outcome);
    if v.Err? {
      return Err(v.error);
    }
    r := WriteValues(ctx, Zip(ids, v.value), true);
  }
}
