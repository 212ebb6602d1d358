/** The bounds builder (src/task/math_optimizer/strategy/skills/bounds.py): for every input variable
  * present in the context, a search window of the threshold around the current value, clamped to
  * the variable's hard limits, with the hard limits themselves as fallback when the clamped window
  * is empty. The map replaces the context's dynamic bounds. */
module Bounds {
  import opened Wrappers
  import opened XReals
  import opened Variables
  import opened DataContexts
  import opened Skills

  /** `getattr(var, 'threshold', 0.0) or 0.0`: None and 0.0 both read as 0.0. */
  function EffectiveThreshold(t: Option<real>): (r: real)
    ensures t.Some? ==> r == t.value
    ensures t.None? ==> r == 0.0
  {
    if t.Some? then t.value else 0.0
  }

  /** The window of one variable. */
  function Window(current: real, threshold: real, limits: HardLimits): BoundPair {
    var mn := Max(limits.min, Fin(current - threshold));
    var mx := Min(limits.max, Fin(current + threshold));
    if Lt(mx, mn) then BoundPair(Min(limits.min, limits.max), Max(limits.min, limits.max))
    else BoundPair(mn, mx)
  }

  /** The window is ordered, always. */
  lemma WindowOrdered(current: real, threshold: real, limits: HardLimits)
    ensures Le(Window(current, threshold, limits).min, Window(current, threshold, limits).max)
  {
    LeTotal(limits.min, limits.max);
    LeTotal(Max(limits.min, Fin(current - threshold)), Min(limits.max, Fin(current + threshold)));
  }

  /** With ordered hard limits the window lies inside them. */
  lemma WindowWithinLimits(current: real, threshold: real, limits: HardLimits)
    requires Le(limits.min, limits.max)
    ensures Le(limits.min, Window(current, threshold, limits).min)
    ensures Le(Window(current, threshold, limits).max, limits.max)
  {
    var mn := Max(limits.min, Fin(current - threshold));
    var mx := Min(limits.max, Fin(current + threshold));
    if Lt(mx, mn) {
      assert Min(limits.min, limits.max) == limits.min;
      assert Max(limits.min, limits.max) == limits.max;
    }
  }

  /** The clamped window is used exactly when it is ordered; otherwise the window is the hard-limit
    * interval, whichever way round the limits are given. */
  lemma WindowShape(current: real, threshold: real, limits: HardLimits)
    ensures var mn := Max(limits.min, Fin(current - threshold));
            var mx := Min(limits.max, Fin(current + threshold));
            (Le(mn, mx) ==> Window(current, threshold, limits) == BoundPair(mn, mx))
            && (!Le(mn, mx) ==> Window(current, threshold, limits) == BoundPair(Min(limits.min, limits.max), Max(limits.min, limits.max)))
  {
    var mn := Max(limits.min, Fin(current - threshold));
    var mx := Min(limits.max, Fin(current + threshold));
    LeTotal(mn, mx);
  }

  /** A non-negative threshold around a current value inside ordered limits gives a window that
    * holds the current value. */
  lemma WindowHoldsCurrent(current: real, threshold: real, limits: HardLimits)
    requires threshold >= 0.0
    requires Le(limits.min, Fin(current)) && Le(Fin(current), limits.max)
    ensures Le(Window(current, threshold, limits).min, Fin(current))
    ensures Le(Fin(current), Window(current, threshold, limits).max)
  {
    var mn := Max(limits.min, Fin(current - threshold));
    var mx := Min(limits.max, Fin(current + threshold));
    assert Le(mn, Fin(current)) && Le(Fin(current), mx);
    LeTransitive(mn, Fin(current), mx);
  }

  /** The bounds of the inputs `ids`, from the variables' states, kinds and limits: ids outside the
    * context are skipped; a variable without hard-limit attributes raises `AttributeError`. */
  function BoundsMap(ids: seq<string>, present: set<string>, current: map<string, Option<real>>,
                     threshold: map<string, Option<real>>, limits: map<string, Option<HardLimits>>): (r: Result<map<string, BoundPair>>)
    requires present <= current.Keys && present <= threshold.Keys && present <= limits.Keys
    ensures r.Ok? <==> forall v :: v in ids && v in present ==> limits[v].Some?
    ensures r.Ok? ==> r.value.Keys == set v | v in ids && v in present
    ensures r.Ok? ==> forall v :: v in r.value ==>
      r.value[v] == Window(current[v].GetOr(0.0), EffectiveThreshold(threshold[v]), limits[v].value)
    ensures r.Err? ==> r.error == AttributeError("'Variable' object has no attribute 'min_hard_limit'")
    decreases |ids|
  {
    if |ids| == 0 then Ok(map[])
    else
      var v := ids[|ids| - 1];
      match BoundsMap(ids[..|ids| - 1], present, current, threshold, limits)
      case Err(e) =>
        assert forall w :: w in ids[..|ids| - 1] ==> w in ids;
        Err(e)
      case Ok(m) =>
        assert forall w :: w in ids <==> w in ids[..|ids| - 1] || w == v;
        if v !in present then Ok(m)
        else if limits[v].None? then Err(AttributeError("'Variable' object has no attribute 'min_hard_limit'"))
        else Ok(m[v := Window(current[v].GetOr(0.0), EffectiveThreshold(threshold[v]), limits[v].value)])
  }

  /** Every entry of a built bounds map is ordered, and lies within ordered hard limits. */
  lemma BoundsMapOrdered(ids: seq<string>, present: set<string>, current: map<string, Option<real>>,
                         threshold: map<string, Option<real>>, limits: map<string, Option<HardLimits>>)
    requires present <= current.Keys && present <= threshold.Keys && present <= limits.Keys
    requires BoundsMap(ids, present, current, threshold, limits).Ok?
    ensures var m := BoundsMap(ids, present, current, threshold, limits).value;
            forall v :: v in m ==>
              (Le(m[v].min, m[v].max)
               && (Le(limits[v].value.min, limits[v].value.max) ==>
                     Le(limits[v].value.min, m[v].min) && Le(m[v].max, limits[v].value.max)))
  {
    var m := BoundsMap(ids, present, current, threshold, limits).value;
    forall v | v in m
      ensures Le(m[v].min, m[v].max)
      ensures Le(limits[v].value.min, limits[v].value.max) ==>
                Le(limits[v].value.min, m[v].min) && Le(m[v].max, limits[v].value.max)
    {
      var lim := limits[v].value;
      WindowOrdered(current[v].GetOr(0.0), EffectiveThreshold(threshold[v]), lim);
      if Le(lim.min, lim.max) {
        WindowWithinLimits(current[v].GetOr(0.0), EffectiveThreshold(threshold[v]), lim);
      }
    }
  }

  /** A variable built by rto/variable.py has no hard-limit attributes, so a bounds builder that
    * finds it in the context raises `AttributeError`; a variable that reads its limits from the
    * configuration (unbounded where they are absent) gets its window. */
  lemma PlainVariableFails(id: string, cfg: Config.VariableConfig, cur: Option<real>, t: Option<real>)
    ensures BoundsMap([id], {id}, map[id := cur], map[id := t], map[id := Variables.LimitsOf(cfg, Plain)])
            == Err(AttributeError("'Variable' object has no attribute 'min_hard_limit'"))
    ensures BoundsMap([id], {id}, map[id := cur], map[id := t], map[id := Variables.LimitsOf(cfg, WithHardLimits)]).Ok?
  {
  }

  /** `BoundsBuilderSkill.execute`: one entry per input found in the context (`inputs` None reads as
    * `[]`), written over the context's dynamic bounds as a whole. */
  method Execute(s: Skill, ctx: DataContext) returns (r: Result<()>)
    requires ctx.Valid()
    modifies ctx
    ensures var b := BoundsMap(s.inputs.GetOr([]), ctx.variables.Keys, CurrentOf(ctx), ThresholdsOf(ctx), LimitsOf(ctx));
            r == (if b.Ok? then Ok(()) else Err(b.error))
            && (r.Ok? ==> ctx.dynamicBounds == b.value)
            && (r.Err? ==> ctx.dynamicBounds == old(ctx.dynamicBounds))
    ensures ctx.frame == old(ctx.frame) && ctx.solverConstraints == old(ctx.solverConstraints)
  {
    var m := Collect(s.inputs.GetOr([]), ctx);
    if m.Err? {
      return Err(m.error);
    }
    ctx.SetDynamicBounds(Some(m.value));
    return Ok(());
  }

  /** The loop of `execute`: the window of every input found in the context, in input order; the
    * first variable without hard limits raises. */
  method Collect(ids: seq<string>, ctx: DataContext) returns (r: Result<map<string, BoundPair>>)
    requires ctx.Valid()
    ensures r == BoundsMap(ids, ctx.variables.Keys, CurrentOf(ctx), ThresholdsOf(ctx), LimitsOf(ctx))
  {
    ghost var cur := CurrentOf(ctx);
    ghost var thr := ThresholdsOf(ctx);
    ghost var lim := LimitsOf(ctx);
    var m: map<string, BoundPair> := map[];
    var i := 0;
    while i < |ids|
      invariant 0 <= i <= |ids|
      invariant BoundsMap(ids[..i], ctx.variables.Keys, cur, thr, lim) == Ok(m)
    {
      var v := ids[i];
      BoundsMapSnoc(ids, i, ctx.variables.Keys, cur, thr, lim);
      if ctx.HasVariable(v) {
        var variable := ctx.GetVariable(v).value;
        assert variable.current == cur[v] && variable.threshold == thr[v] && variable.hardLimits == lim[v];
        if variable.hardLimits.None? {
          BoundsErrPersists(ids, i + 1, ctx.variables.Keys, cur, thr, lim);
          return Err(AttributeError("'Variable' object has no attribute 'min_hard_limit'"));
        }
        var current := if variable.current.Some? then variable.current.value else 0.0;
        var threshold := if variable.threshold.Some? then variable.threshold.value else 0.0;
        var pair := Window(current, threshold, variable.hardLimits.value);
        m := m[v := pair];
      }
      i := i + 1;
    }
    assert ids[..i] == ids;
    return Ok(m);
  }

  lemma BoundsMapSnoc(ids: seq<string>, i: nat, present: set<string>, current: map<string, Option<real>>,
                      threshold: map<string, Option<real>>, limits: map<string, Option<HardLimits>>)
    requires i < |ids|
    requires present <= current.Keys && present <= threshold.Keys && present <= limits.Keys
    ensures var prev := BoundsMap(ids[..i], present, current, threshold, limits);
            var v := ids[i];
            BoundsMap(ids[..i + 1], present, current, threshold, limits) ==
              if prev.Err? then prev
              else if v !in present then prev
              else if limits[v].None? then Err(AttributeError("'Variable' object has no attribute 'min_hard_limit'"))
              else Ok(prev.value[v := Window(current[v].GetOr(0.0), EffectiveThreshold(threshold[v]), limits[v].value)])
  {
    assert ids[..i + 1][..i] == ids[..i];
    assert ids[..i + 1][i] == ids[i];
  }

  /** Once a prefix of the inputs raises, the whole list raises. */
  lemma {:induction false} BoundsErrPersists(ids: seq<string>, k: nat, present: set<string>, current: map<string, Option<real>>,
                         threshold: map<string, Option<real>>, limits: map<string, Option<HardLimits>>)
    requires k <= |ids|
    requires present <= current.Keys && present <= threshold.Keys && present <= limits.Keys
    requires BoundsMap(ids[..k], present, current, threshold, limits).Err?
    ensures BoundsMap(ids, present, current, threshold, limits).Err?
    decreases |ids| - k
  {
    if k < |ids| {
      assert ids[..k + 1][..k] == ids[..k];
      BoundsErrPersists(ids, k + 1, present, current, threshold, limits);
    } else {
      assert ids[..k] == ids;
    }
  }

  /** The current values, thresholds and hard limits of the context's variables. */
  function CurrentOf(ctx: DataContext): (r: map<string, Option<real>>)
    reads ctx.variables.Values
    ensures r.Keys == ctx.variables.Keys
  {
    map v | v in ctx.variables :: ctx.variables[v].current
  }

  function ThresholdsOf(ctx: DataContext): (r: map<string, Option<real>>)
    ensures r.Keys == ctx.variables.Keys
  {
    map v | v in ctx.variables :: ctx.variables[v].threshold
  }

  function LimitsOf(ctx: DataContext): (r: map<string, Option<HardLimits>>)
    ensures r.Keys == ctx.variables.Keys
  {
    map v | v in ctx.variables :: ctx.variables[v].hardLimits
  }
}
