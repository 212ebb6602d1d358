/** The inference model's execution (`InferenceModel.execute` and `_predict_with_nn` in
  * src/task/math_optimizer/strategy/skills/models.py and src/strategy/skills/models.py): one feature
  * per input variable, the network prediction over the scaled features, and the write of the
  * predicted value into the first output's decision value. */
module Inference {
  import opened Wrappers
  import opened Texts
  import opened Frames
  import opened Config
  import opened Dicts
  import opened Oracles
  import opened Variables
  import opened DataContexts
  import opened Artifacts
  import opened Skills

  /** One input value: a number, or None (pandas NaN, which a window of missing readings yields, is
    * treated like None). */
  datatype Feature = FNum(x: real) | FNone

  /** What the model reads from one variable: its kind (None when configured as `null`) and values. */
  datatype InputView = InputView(varType: Option<string>, state: VarState)

  function Views(ctx: DataContext): (m: map<string, InputView>)
    reads ctx.variables.Values
    ensures m.Keys == ctx.variables.Keys
  {
    map id | id in ctx.variables :: InputView(ctx.variables[id].varType, ctx.variables[id].State())
  }

  // ---------------------------------------------------------------------------------------------
  // Python slices and the pandas reductions

  /** A slice bound as Python normalises it for a sequence of length `n`: negative bounds count from
    * the end, and both are clamped into `[0, n]`. */
  function SliceBound(n: nat, x: int): (b: nat)
    ensures b <= n
    ensures x < 0 ==> b == (if n + x < 0 then 0 else n + x)
    ensures 0 <= x ==> b == (if x > n then n else x)
  {
    if x < 0 then (if n + x < 0 then 0 else n + x) else (if x > n then n else x)
  }

  /** `s[start:stop]`. */
  function Slice<T>(s: seq<T>, start: int, stop: int): (r: seq<T>)
    ensures SliceBound(|s|, start) < SliceBound(|s|, stop) ==> r == s[SliceBound(|s|, start)..SliceBound(|s|, stop)]
    ensures SliceBound(|s|, stop) <= SliceBound(|s|, start) ==> r == []
  {
    var lo := SliceBound(|s|, start);
    var hi := SliceBound(|s|, stop);
    if lo < hi then s[lo..hi] else []
  }

  /** `iloc[-(lag + offset):-lag]` of a column of `n` rows: a lag of 0 gives the empty window (the
    * stop bound is `-0`, i.e. 0); a positive lag and a non-negative offset give the `offset` rows
    * that end `lag` rows before the last, as many of them as exist. */
  lemma WindowLength<T>(col: seq<T>, lag: int, offset: int)
    ensures lag == 0 ==> Slice(col, -(lag + offset), -lag) == []
    ensures lag > 0 && offset >= 0 ==>
              var avail := if |col| - lag < 0 then 0 else |col| - lag;
              var len := if offset < avail then offset else avail;
              Slice(col, -(lag + offset), -lag) == col[avail - len..avail]
  {
  }

  /** The numeric readings of a window: missing readings are skipped (pandas skips NaN); a text or
    * nested cell makes the reduction raise. */
  function Numbers(w: seq<Cell>): (r: Result<seq<real>>)
    ensures r.Ok? <==> forall i :: 0 <= i < |w| ==> w[i].Missing? || w[i].Num?
    ensures r.Ok? ==> |r.value| <= |w|
    ensures r.Ok? ==> forall x :: x in r.value <==> Num(x) in w
  {
    if |w| == 0 then Ok([])
    else match Numbers(w[..|w| - 1])
      case Err(e) =>
        assert forall i :: 0 <= i < |w| - 1 ==> w[..|w| - 1][i] == w[i];
        Err(e)
      case Ok(xs) =>
        assert forall c :: c in w <==> c in w[..|w| - 1] || c == w[|w| - 1];
        assert forall i :: 0 <= i < |w| - 1 ==> w[..|w| - 1][i] == w[i];
        match w[|w| - 1]
        case Missing => Ok(xs)
        case Num(x) => Ok(xs + [x])
        case Text(_) => Err(TypeError("unsupported operand type(s) for +: 'float' and 'str'"))
        case Nested(kind) => Err(TypeError("unsupported operand type(s) for +: 'float' and '" + kind + "'"))
  }

  function Sum(xs: seq<real>): real {
    if |xs| == 0 then 0.0 else Sum(xs[..|xs| - 1]) + xs[|xs| - 1]
  }

  /** `Series.mean()`. */
  function Mean(xs: seq<real>): real
    requires |xs| > 0
  {
    Sum(xs) / (|xs| as real)
  }

  lemma {:induction false} SumBounds(xs: seq<real>, lo: real, hi: real)
    requires forall i :: 0 <= i < |xs| ==> lo <= xs[i] <= hi
    ensures (|xs| as real) * lo <= Sum(xs) <= (|xs| as real) * hi
  {
    if |xs| > 0 {
      SumBounds(xs[..|xs| - 1], lo, hi);
    }
  }

  /** The least and the greatest reading. */
  function Lowest(xs: seq<real>): (m: real)
    requires |xs| > 0
    ensures m in xs && forall i :: 0 <= i < |xs| ==> m <= xs[i]
  {
    if |xs| == 1 then xs[0]
    else
      var m := Lowest(xs[..|xs| - 1]);
      assert forall i :: 0 <= i < |xs| - 1 ==> xs[..|xs| - 1][i] == xs[i];
      if xs[|xs| - 1] < m then xs[|xs| - 1] else m
  }

  function Highest(xs: seq<real>): (m: real)
    requires |xs| > 0
    ensures m in xs && forall i :: 0 <= i < |xs| ==> xs[i] <= m
  {
    if |xs| == 1 then xs[0]
    else
      var m := Highest(xs[..|xs| - 1]);
      assert forall i :: 0 <= i < |xs| - 1 ==> xs[..|xs| - 1][i] == xs[i];
      if xs[|xs| - 1] > m then xs[|xs| - 1] else m
  }

  /** The mean lies between any lower and upper bound of the readings. */
  lemma MeanBounded(xs: seq<real>, lo: real, hi: real)
    requires |xs| > 0
    requires forall i :: 0 <= i < |xs| ==> lo <= xs[i] <= hi
    ensures lo <= Mean(xs) <= hi
  {
    SumBounds(xs, lo, hi);
    var n := |xs| as real;
    assert Mean(xs) * n == Sum(xs);
  }

  /** The textbook recurrence of `ewm(alpha, adjust=False).mean()` on readings without gaps:
    * `y0 = x0`, then `y = (1 - alpha) * y + alpha * x` for every later reading. */
  function EwmLast(xs: seq<real>, alpha: real): real
    requires |xs| > 0
  {
    if |xs| == 1 then xs[0] else (1.0 - alpha) * EwmLast(xs[..|xs| - 1], alpha) + alpha * xs[|xs| - 1]
  }

  /** Where pandas' `ewm(alpha, adjust=False).mean()` stands after a prefix of the window (with
    * `ignore_na=False`, its default): the smoothed value so far, None before the first reading, and
    * the weight that value carries. */
  datatype EwmState = EwmState(value: Option<real>, weight: real)

  /** The weight of the value so far after one more cell. */
  function Decay(weight: real, alpha: real): (w: real)
    requires 0.0 < alpha <= 1.0 && 0.0 <= weight <= 1.0
    ensures 0.0 <= w <= 1.0
  {
    NonNegProduct(weight, 1.0 - alpha);
    NonNegProduct(1.0 - weight, 1.0 - alpha);
    weight * (1.0 - alpha)
  }

  /** The value so far, of weight `w`, averaged with a reading `x` of weight `alpha`. */
  function Blend(w: real, y: real, alpha: real, x: real): real
    requires 0.0 <= w && 0.0 < alpha
  {
    (w * y + alpha * x) / (w + alpha)
  }

  /** One cell of the pandas recurrence. Before the first reading, a reading starts the value. After
    * it, every cell, missing or not, decays the weight by `1 - alpha`; a reading is then averaged in
    * with weight `alpha` against the decayed weight, and the weight restarts at 1. */
  function EwmStep(s: EwmState, c: Cell, alpha: real): (t: EwmState)
    requires 0.0 < alpha <= 1.0 && 0.0 <= s.weight <= 1.0
    ensures 0.0 <= t.weight <= 1.0
    ensures t.value.Some? <==> s.value.Some? || c.Num?
  {
    if s.value.None? then (if c.Num? then EwmState(Some(c.r), s.weight) else s)
    else if c.Num? then EwmState(Some(Blend(Decay(s.weight, alpha), s.value.value, alpha, c.r)), 1.0)
    else EwmState(s.value, Decay(s.weight, alpha))
  }

  /** The recurrence over a whole window; its value is `ewm(...).mean().iloc[-1]`, None standing for
    * the NaN of a window without readings. */
  function EwmRun(cells: seq<Cell>, alpha: real): (s: EwmState)
    requires 0.0 < alpha <= 1.0
    ensures 0.0 <= s.weight <= 1.0
  {
    if |cells| == 0 then EwmState(None, 1.0) else EwmStep(EwmRun(cells[..|cells| - 1], alpha), cells[|cells| - 1], alpha)
  }

  /** The smoothed value exists exactly when the window holds a reading. */
  lemma {:induction false} EwmStarted(cells: seq<Cell>, alpha: real)
    requires 0.0 < alpha <= 1.0
    ensures EwmRun(cells, alpha).value.Some? <==> exists i :: 0 <= i < |cells| && cells[i].Num?
  {
    if |cells| > 0 {
      var n := |cells| - 1;
      EwmStarted(cells[..n], alpha);
      assert forall i :: 0 <= i < n ==> cells[..n][i] == cells[i];
    }
  }

  /** With a valid smoothing factor the smoothed value lies between any bounds of the readings,
    * however the missing cells fall. */
  lemma {:induction false} EwmBounded(cells: seq<Cell>, alpha: real, lo: real, hi: real)
    requires 0.0 < alpha <= 1.0
    requires forall i :: 0 <= i < |cells| && cells[i].Num? ==> lo <= cells[i].r <= hi
    ensures EwmRun(cells, alpha).value.Some? ==> lo <= EwmRun(cells, alpha).value.value <= hi
  {
    if |cells| > 0 {
      var n := |cells| - 1;
      assert forall i :: 0 <= i < n ==> cells[..n][i] == cells[i];
      EwmBounded(cells[..n], alpha, lo, hi);
      var s := EwmRun(cells[..n], alpha);
      var t := EwmRun(cells, alpha);
      assert t == EwmStep(s, cells[n], alpha);
      if s.value.Some? && cells[n].Num? {
        var y, x := s.value.value, cells[n].r;
        assert lo <= x <= hi;
        var w := Decay(s.weight, alpha);
        assert t.value == Some(Blend(w, y, alpha, x));
        Weighted(w, alpha, y, x, lo, hi);
      } else if cells[n].Num? {
        assert t.value == Some(cells[n].r);
      } else {
        assert t.value == s.value;
      }
    }
  }

  /** A weighted average with non-negative weights of positive total stays between bounds of its
    * two operands. */
  lemma Weighted(p: real, q: real, y: real, x: real, lo: real, hi: real)
    requires p >= 0.0 && q > 0.0 && lo <= y <= hi && lo <= x <= hi
    ensures lo <= Blend(p, y, q, x) <= hi
  {
    NonNegProduct(p, y - lo);
    NonNegProduct(q, x - lo);
    NonNegProduct(p, hi - y);
    NonNegProduct(q, hi - x);
    var t := p + q;
    var v := Blend(p, y, q, x);
    assert v * t == p * y + q * x;
    assert (v - lo) * t == p * (y - lo) + q * (x - lo);
    assert (hi - v) * t == p * (hi - y) + q * (hi - x);
    ProductSign(v - lo, t);
    ProductSign(hi - v, t);
  }

  lemma ProductSign(a: real, t: real)
    requires t > 0.0 && a * t >= 0.0
    ensures a >= 0.0
  {
    assert a == (a * t) / t;
  }

  /** The cells of gap-free readings. */
  function Readings(xs: seq<real>): (cs: seq<Cell>)
    ensures |cs| == |xs| && forall i :: 0 <= i < |xs| ==> cs[i] == Num(xs[i])
  {
    if |xs| == 0 then [] else Readings(xs[..|xs| - 1]) + [Num(xs[|xs| - 1])]
  }

  /** On a window without missing cells the pandas recurrence is the textbook one, and the weight
    * stays at 1. */
  lemma {:induction false} EwmGapFree(xs: seq<real>, alpha: real)
    requires |xs| > 0 && 0.0 < alpha <= 1.0
    ensures EwmRun(Readings(xs), alpha) == EwmState(Some(EwmLast(xs, alpha)), 1.0)
  {
    var n := |xs| - 1;
    var x := xs[n];
    var pre := xs[..n];
    assert Readings(xs) == Readings(pre) + [Num(x)];
    EwmRunSnoc(Readings(pre), Num(x), alpha);
    if n > 0 {
      EwmGapFree(pre, alpha);
      var y := EwmLast(pre, alpha);
      StepAfterReading(y, x, alpha);
      EwmLastStep(xs, alpha);
      assert EwmRun(Readings(pre), alpha) == EwmState(Some(y), 1.0);
      assert EwmStep(EwmState(Some(y), 1.0), Num(x), alpha) == EwmState(Some((1.0 - alpha) * y + alpha * x), 1.0);
      assert EwmRun(Readings(xs), alpha) == EwmStep(EwmRun(Readings(pre), alpha), Num(x), alpha);
      assert EwmRun(Readings(xs), alpha) == EwmState(Some((1.0 - alpha) * y + alpha * x), 1.0);
      assert EwmLast(xs, alpha) == (1.0 - alpha) * y + alpha * x;
    }
  }

  /** The recurrence over a window with one more cell is one more step. */
  lemma EwmRunSnoc(cells: seq<Cell>, c: Cell, alpha: real)
    requires 0.0 < alpha <= 1.0
    ensures EwmRun(cells + [c], alpha) == EwmStep(EwmRun(cells, alpha), c, alpha)
  {
    assert (cells + [c])[..|cells|] == cells;
  }

  /** One more reading of `EwmLast`. */
  lemma EwmLastStep(xs: seq<real>, alpha: real)
    requires |xs| > 1
    ensures EwmLast(xs, alpha) == (1.0 - alpha) * EwmLast(xs[..|xs| - 1], alpha) + alpha * xs[|xs| - 1]
  {
  }

  /** After a reading (weight 1), the next reading blends in as `(1 - alpha) y + alpha x`. */
  lemma StepAfterReading(y: real, x: real, alpha: real)
    requires 0.0 < alpha <= 1.0
    ensures EwmStep(EwmState(Some(y), 1.0), Num(x), alpha) == EwmState(Some((1.0 - alpha) * y + alpha * x), 1.0)
  {
    var s := EwmState(Some(y), 1.0);
    var w := Decay(s.weight, alpha);
    assert w == 1.0 - alpha;
    assert EwmStep(s, Num(x), alpha) == EwmState(Some(Blend(w, y, alpha, x)), 1.0);
    assert Blend(w, y, alpha, x) == (w * y + alpha * x) / 1.0;
    assert w * y == (1.0 - alpha) * y;
    assert Blend(w, y, alpha, x) == (1.0 - alpha) * y + alpha * x;
    assert EwmStep(s, Num(x), alpha) == EwmState(Some((1.0 - alpha) * y + alpha * x), 1.0);
  }

  /** A missing cell is not skipped: it decays the old value's weight. On `[0, missing, 1]` with
    * factor 0.5 the result is `(0.25 * 0 + 0.5 * 1) / 0.75`, not the 0.5 of the readings alone. */
  lemma EwmAcrossGap()
    ensures EwmRun([Num(0.0), Missing, Num(1.0)], 0.5).value == Some(2.0 / 3.0)
    ensures EwmLast([0.0, 1.0], 0.5) == 0.5
  {
    var c := [Num(0.0), Missing, Num(1.0)];
    assert c[..2] == [Num(0.0), Missing] && c[..2][..1] == [Num(0.0)] && c[..1][..0] == [];
    assert EwmRun(c[..1], 0.5) == EwmState(Some(0.0), 1.0);
    assert EwmRun(c[..2], 0.5) == EwmState(Some(0.0), 0.5);
    assert [0.0, 1.0][..1] == [0.0];
  }

  lemma NonNegProduct(p: real, q: real)
    requires p >= 0.0 && q >= 0.0
    ensures p * q >= 0.0
  {
  }

  /** A smoothing factor of 1 keeps only the last cell when it is a reading. */
  lemma {:induction false} EwmAlphaOne(cells: seq<Cell>, x: real)
    requires |cells| > 0 && cells[|cells| - 1] == Num(x)
    ensures EwmRun(cells, 1.0).value == Some(x)
  {
    var prev := EwmRun(cells[..|cells| - 1], 1.0);
    assert EwmRun(cells, 1.0) == EwmStep(prev, Num(x), 1.0);
    if prev.value.Some? {
      var w := Decay(prev.weight, 1.0);
      assert w == 0.0;
      assert Blend(w, prev.value.value, 1.0, x) == x;
    }
  }

  /** `dof_value - current_value`: None on either side raises `TypeError`. */
  function Difference(st: VarState): (r: Result<Feature>)
    ensures r.Ok? <==> st.dof.Some? && st.current.Some?
    ensures r.Ok? ==> r.value == FNum(st.dof.value - st.current.value)
  {
    if st.dof.Some? && st.current.Some? then Ok(FNum(st.dof.value - st.current.value))
    else Err(TypeError("unsupported operand type(s) for -"))
  }

  /** `self.lag_offset.get(var_id, {})`: the entry of the variable, or an empty dict; a block that
    * is not a dict raises `AttributeError`. */
  function EntryOf(block: LagOffsetBlock, id: string): (r: Result<LagOffsetEntry>)
    ensures r.Err? <==> block.BlockNotADict?
  {
    match block
    case BlockNotADict => Err(AttributeError("object has no attribute 'get'"))
    case Block(entries) => Ok(if id in entries.m then entries.m[id] else Params(Absent, Absent, None))
  }

  /** `.get('variation')` on the entry: an entry that is not a dict raises `AttributeError`. */
  function VariationOf(block: LagOffsetBlock, id: string): (r: Result<Option<string>>)
    ensures r.Ok? <==> EntryOf(block, id).Ok? && EntryOf(block, id).value.Params?
    ensures r.Ok? ==> r.value == EntryOf(block, id).value.variation
  {
    match EntryOf(block, id)
    case Err(e) => Err(e)
    case Ok(EntryNotADict) => Err(AttributeError("object has no attribute 'get'"))
    case Ok(p) => Ok(p.variation)
  }

  /** The smoothed value of a non-empty window. `ewm` first builds its window object, which needs a
    * factor (0.7 when absent; `null` raises) in `(0, 1]`, then reduces the cells with the pandas
    * recurrence; `mean` averages the readings, skipping missing ones. A text cell makes either
    * reduction raise, and a window without any reading gives NaN (None here). Any other method,
    * `null` included, leaves the value at 0. */
  function Smoothed(methodName: Option<string>, alpha: Field<real>, window: seq<Cell>): (r: Result<Feature>)
    ensures methodName !in {Some("ewm"), Some("mean")} ==> r == Ok(FNum(0.0))
    ensures methodName == Some("ewm") && alpha.Null? ==>
              r == Err(ValueError("Must pass one of comass, span, halflife, or alpha"))
    ensures methodName == Some("ewm") && alpha.Given? && !(0.0 < alpha.value <= 1.0) ==>
              r == Err(ValueError("alpha must satisfy: 0 < alpha <= 1"))
    ensures methodName == Some("mean") || (methodName == Some("ewm") && !alpha.Null? && 0.0 < GetOrDefault(alpha, 0.7).value <= 1.0) ==>
              (r.Ok? <==> Numbers(window).Ok?)
              && (r.Ok? ==> (r.value.FNone? <==> |Numbers(window).value| == 0))
    ensures methodName == Some("mean") && Numbers(window).Ok? && |Numbers(window).value| > 0 ==>
              r == Ok(FNum(Mean(Numbers(window).value)))
    ensures methodName == Some("ewm") && !alpha.Null? && 0.0 < GetOrDefault(alpha, 0.7).value <= 1.0 && Numbers(window).Ok? ==>
              var v := EwmRun(window, GetOrDefault(alpha, 0.7).value).value;
              r == Ok(if v.Some? then FNum(v.value) else FNone)
    ensures r.Ok? && r.value.FNum? && methodName in {Some("ewm"), Some("mean")} ==>
              Numbers(window).Ok? && |Numbers(window).value| > 0
              && Lowest(Numbers(window).value) <= r.value.x <= Highest(Numbers(window).value)
  {
    if methodName == Some("ewm") then
      match GetOrDefault(alpha, 0.7)
      case None => Err(ValueError("Must pass one of comass, span, halflife, or alpha"))
      case Some(a) =>
        if !(0.0 < a <= 1.0) then Err(ValueError("alpha must satisfy: 0 < alpha <= 1"))
        else match Numbers(window)
          case Err(e) => Err(e)
          case Ok(xs) =>
            var s := EwmRun(window, a);
            EwmStarted(window, a);
            ReadingsExist(window, xs);
            if s.value.None? then Ok(FNone)
            else
              ReadingsWithin(window, xs);
              EwmBounded(window, a, Lowest(xs), Highest(xs));
              Ok(FNum(s.value.value))
    else if methodName == Some("mean") then
      match Numbers(window)
      case Err(e) => Err(e)
      case Ok(xs) =>
        if |xs| == 0 then Ok(FNone)
        else
          MeanBounded(xs, Lowest(xs), Highest(xs));
          Ok(FNum(Mean(xs)))
    else Ok(FNum(0.0))
  }

  /** A window has numbers exactly when some cell is a reading. */
  lemma ReadingsExist(window: seq<Cell>, xs: seq<real>)
    requires forall x :: x in xs <==> Num(x) in window
    ensures |xs| > 0 <==> exists i :: 0 <= i < |window| && window[i].Num?
  {
    if |xs| > 0 {
      assert xs[0] in xs;
      assert Num(xs[0]) in window;
      var i :| 0 <= i < |window| && window[i] == Num(xs[0]);
      assert window[i].Num?;
    }
    forall i | 0 <= i < |window| && window[i].Num?
      ensures window[i].r in xs
    {
      assert Num(window[i].r) in window;
    }
  }

  /** Every reading of a window lies between the least and the greatest of its numbers. */
  lemma ReadingsWithin(window: seq<Cell>, xs: seq<real>)
    requires Numbers(window) == Ok(xs) && |xs| > 0
    ensures forall i :: 0 <= i < |window| && window[i].Num? ==> Lowest(xs) <= window[i].r <= Highest(xs)
  {
    forall i | 0 <= i < |window| && window[i].Num?
      ensures Lowest(xs) <= window[i].r <= Highest(xs)
    {
      assert Num(window[i].r) in window;
      var j :| 0 <= j < |xs| && xs[j] == window[i].r;
    }
  }

  /** The rows `iloc[-(lag + offset):-lag]` of a column. */
  function WindowOf(col: seq<Cell>, lag: int, offset: int): seq<Cell> {
    Slice(col, -(lag + offset), -lag)
  }

  /** The smoothed reading of an informative variable with `Absolute` variation. In the order the
    * code reads them: the smoothing block must be a dict; the snapshot must exist and hold the
    * variable's column; `lag` and `offset` must not be `null`. An empty window gives 0, any other
    * the smoothed value of the method (`mean` when absent). */
  function WindowFeature(id: string, entry: LagOffsetEntry, smoothing: SmoothingBlock, frame: Option<Frame>): (r: Result<Feature>)
    requires entry.Params?
    ensures smoothing.SmoothingNotADict? ==> r == Err(AttributeError("object has no attribute 'get'"))
    ensures smoothing.Smoothing? && frame.None? ==> r == Err(TypeError("'NoneType' object is not subscriptable"))
    ensures smoothing.Smoothing? && frame.Some? && id !in frame.value.columns ==> r == Err(KeyError(id))
    ensures smoothing.Smoothing? && frame.Some? && id in frame.value.columns && LagAndOffset(entry).Err? ==>
              r == Err(LagAndOffset(entry).error)
    ensures smoothing.Smoothing? && frame.Some? && id in frame.value.columns && LagAndOffset(entry).Ok? ==>
              var w := WindowOf(frame.value.columns[id], LagAndOffset(entry).value.0, LagAndOffset(entry).value.1);
              r == if |w| == 0 then Ok(FNum(0.0)) else Smoothed(GetOrDefault(smoothing.methodName, "mean"), smoothing.alpha, w)
    ensures smoothing.Smoothing? && smoothing.methodName.Null? && r.Ok? ==> r.value == FNum(0.0)
  {
    match smoothing
    case SmoothingNotADict => Err(AttributeError("object has no attribute 'get'"))
    case Smoothing(m, a) =>
      if frame.None? then Err(TypeError("'NoneType' object is not subscriptable"))
      else if id !in frame.value.columns then Err(KeyError(id))
      else match LagAndOffset(entry)
        case Err(e) => Err(e)
        case Ok((lag, offset)) =>
          var w := WindowOf(frame.value.columns[id], lag, offset);
          if |w| == 0 then Ok(FNum(0.0))
          else Smoothed(GetOrDefault(m, "mean"), a, w)
  }

  /** The feature of one input. Legacy: a `Delta` variable gives its difference, any other 0.
    * Current: `Delta` gives the difference; `Operative` and `Calculated` follow the configured
    * variation (`Increment` the difference, `Absolute` the decision value, otherwise 0);
    * `Informative` gives the difference for `Increment` and the smoothed window for `Absolute`;
    * every other kind 0. */
  function FeatureOf(lineage: Lineage, id: string, v: InputView, lagOffset: LagOffsetBlock,
                     smoothing: SmoothingBlock, frame: Option<Frame>): (r: Result<Feature>)
    ensures v.varType == Some("Delta") ==> r == Difference(v.state)
    ensures lineage == Legacy && v.varType != Some("Delta") ==> r == Ok(FNum(0.0))
    ensures lineage == Current && v.varType !in {Some("Delta"), Some("Operative"), Some("Calculated"), Some("Informative")} ==>
              r == Ok(FNum(0.0))
    ensures lineage == Current && v.varType in {Some("Operative"), Some("Calculated"), Some("Informative")} && VariationOf(lagOffset, id).Err? ==>
              r == Err(VariationOf(lagOffset, id).error)
    ensures lineage == Current && v.varType in {Some("Operative"), Some("Calculated"), Some("Informative")} && VariationOf(lagOffset, id).Ok? ==>
              (VariationOf(lagOffset, id).value == Some("Increment") ==> r == Difference(v.state))
              && (VariationOf(lagOffset, id).value !in {Some("Increment"), Some("Absolute")} ==> r == Ok(FNum(0.0)))
    ensures lineage == Current && v.varType in {Some("Operative"), Some("Calculated")} && VariationOf(lagOffset, id) == Ok(Some("Absolute")) ==>
              r == Ok(if v.state.dof.Some? then FNum(v.state.dof.value) else FNone)
    ensures lineage == Current && v.varType == Some("Informative") && VariationOf(lagOffset, id) == Ok(Some("Absolute")) ==>
              r == WindowFeature(id, EntryOf(lagOffset, id).value, smoothing, frame)
  {
    if v.varType == Some("Delta") then Difference(v.state)
    else if lineage == Legacy then Ok(FNum(0.0))
    else if v.varType in {Some("Operative"), Some("Calculated")} then
      match VariationOf(lagOffset, id)
      case Err(e) => Err(e)
      case Ok(variation) =>
        if variation == Some("Increment") then Difference(v.state)
        else if variation == Some("Absolute") then Ok(if v.state.dof.Some? then FNum(v.state.dof.value) else FNone)
        else Ok(FNum(0.0))
    else if v.varType == Some("Informative") then
      match VariationOf(lagOffset, id)
      case Err(e) => Err(e)
      case Ok(variation) =>
        if variation == Some("Increment") then Difference(v.state)
        else if variation == Some("Absolute") then WindowFeature(id, EntryOf(lagOffset, id).value, smoothing, frame)
        else Ok(FNum(0.0))
    else Ok(FNum(0.0))
  }

  /** The features of `ids` in order, or the first error: an id outside the context raises
    * `KeyError`. */
  function Features(lineage: Lineage, ids: seq<string>, views: map<string, InputView>, lagOffset: LagOffsetBlock,
                    smoothing: SmoothingBlock, frame: Option<Frame>): (r: Result<seq<Feature>>)
    ensures r.Ok? ==> |r.value| == |ids|
    ensures r.Ok? ==> forall i :: 0 <= i < |ids| ==>
              ids[i] in views && FeatureOf(lineage, ids[i], views[ids[i]], lagOffset, smoothing, frame) == Ok(r.value[i])
  {
    if |ids| == 0 then Ok([])
    else
      var pre := ids[..|ids| - 1];
      var id := ids[|ids| - 1];
      assert forall i :: 0 <= i < |pre| ==> pre[i] == ids[i];
      match Features(lineage, pre, views, lagOffset, smoothing, frame)
      case Err(e) => Err(e)
      case Ok(fs) =>
        if id !in views then Err(NotFound(id))
        else match FeatureOf(lineage, id, views[id], lagOffset, smoothing, frame)
          case Err(e) => Err(e)
          case Ok(f) => Ok(fs + [f])
  }

  // ---------------------------------------------------------------------------------------------
  // Prediction

  /** The scaler key of a feature or output id: every `delta_` removed. */
  function ScalerId(id: string): string {
    RemoveAll(id, "delta_")
  }

  /** The input features scaled one by one: an id whose scaler key the set holds is transformed,
    * the others pass through. */
  function Scaled(env: Env, sc: ScalerSet, ids: seq<string>, xs: seq<real>): (r: Result<seq<real>>)
    requires |ids| == |xs|
    ensures r.Ok? ==> |r.value| == |xs|
    ensures r.Ok? ==> forall i :: 0 <= i < |xs| && ScalerId(ids[i]) !in sc.keys ==> r.value[i] == xs[i]
    ensures r.Ok? ==> forall i :: 0 <= i < |xs| && ScalerId(ids[i]) in sc.keys ==>
              env.transform(sc.handle, ScalerId(ids[i]), xs[i]) == Ok(r.value[i])
  {
    if |xs| == 0 then Ok([])
    else
      var n := |xs| - 1;
      match Scaled(env, sc, ids[..n], xs[..n])
      case Err(e) => Err(e)
      case Ok(ys) =>
        var sid := ScalerId(ids[n]);
        if sid in sc.keys then
          match env.transform(sc.handle, sid, xs[n])
          case Err(e) => Err(e)
          case Ok(y) => Ok(ys + [y])
        else Ok(ys + [xs[n]])
  }

  /** Without a scaler for any input, scaling is the identity. */
  lemma {:induction false} ScaledUnscaled(env: Env, sc: ScalerSet, ids: seq<string>, xs: seq<real>)
    requires |ids| == |xs|
    requires forall i :: 0 <= i < |ids| ==> ScalerId(ids[i]) !in sc.keys
    ensures Scaled(env, sc, ids, xs) == Ok(xs)
  {
    if |xs| > 0 {
      var n := |xs| - 1;
      assert forall i :: 0 <= i < n ==> ids[..n][i] == ids[i];
      ScaledUnscaled(env, sc, ids[..n], xs[..n]);
      assert ScalerId(ids[n]) !in sc.keys;
      assert Scaled(env, sc, ids, xs) == Ok(xs[..n] + [xs[n]]);
      assert xs[..n] + [xs[n]] == xs;
    }
  }

  /** The numbers of the features, when none is None. */
  function FeatureNumbers(fs: seq<Feature>): (r: Option<seq<real>>)
    ensures r.Some? <==> forall i :: 0 <= i < |fs| ==> fs[i].FNum?
    ensures r.Some? ==> |r.value| == |fs| && forall i :: 0 <= i < |fs| ==> r.value[i] == fs[i].x
  {
    if |fs| == 0 then Some([])
    else match FeatureNumbers(fs[..|fs| - 1])
      case None =>
        assert forall i :: 0 <= i < |fs| - 1 ==> fs[..|fs| - 1][i] == fs[i];
        None
      case Some(xs) =>
        if fs[|fs| - 1].FNone? then None else Some(xs + [fs[|fs| - 1].x])
  }

  /** `_predict_with_nn`: a None feature gives 0.0; otherwise the scaled features go through the
    * network, the output is inverse-scaled when its scaler exists and added to the output
    * variable's current value (None reads as 0.0). Every exception on the way (a scaler, the
    * network, a missing or empty `outputs`, an unknown output variable) gives 0.0. */
  function Prediction(env: Env, model: nat, sc: ScalerSet, ids: seq<string>, outputs: Option<seq<string>>,
                      fs: seq<Feature>, views: map<string, InputView>): real
    requires |ids| == |fs|
  {
    match FeatureNumbers(fs)
    case None => 0.0
    case Some(xs) =>
      match Scaled(env, sc, ids, xs)
      case Err(_) => 0.0
      case Ok(scaled) =>
        match env.net(model, scaled)
        case Err(_) => 0.0
        case Ok(d) =>
          if outputs.None? || |outputs.value| == 0 then 0.0
          else
            var oid := outputs.value[0];
            var sid := ScalerId(oid);
            var inv := if sid in sc.keys then env.inverse(sc.handle, sid, d) else Ok(d);
            if inv.Err? then 0.0
            else if oid !in views then 0.0
            else views[oid].state.current.GetOr(0.0) + inv.value
  }

  /** A None feature short-circuits the prediction to 0.0. */
  lemma PredictionNoneFeature(env: Env, model: nat, sc: ScalerSet, ids: seq<string>, outputs: Option<seq<string>>,
                              fs: seq<Feature>, views: map<string, InputView>, i: nat)
    requires |ids| == |fs| && i < |fs| && fs[i].FNone?
    ensures Prediction(env, model, sc, ids, outputs, fs, views) == 0.0
  {
  }

  /** With no scaler for any input or the output, the prediction is the output's current value
    * plus the network's output on the raw features. */
  lemma PredictionUnscaled(env: Env, model: nat, sc: ScalerSet, ids: seq<string>, oid: string,
                           xs: seq<real>, views: map<string, InputView>)
    requires |ids| == |xs|
    requires forall i :: 0 <= i < |ids| ==> ScalerId(ids[i]) !in sc.keys
    requires ScalerId(oid) !in sc.keys && oid in views
    requires env.net(model, xs).Ok?
    ensures Prediction(env, model, sc, ids, Some([oid]), seq(|xs|, i requires 0 <= i < |xs| => FNum(xs[i])), views)
            == views[oid].state.current.GetOr(0.0) + env.net(model, xs).value
  {
    var fs := seq(|xs|, i requires 0 <= i < |xs| => FNum(xs[i]));
    assert FeatureNumbers(fs).Some?;
    assert FeatureNumbers(fs).value == xs;
    ScaledUnscaled(env, sc, ids, xs);
  }

  /** The prediction as the code computes it. */
  method Predict(env: Env, model: nat, sc: ScalerSet, ids: seq<string>, outputs: Option<seq<string>>,
                 fs: seq<Feature>, ctx: DataContext) returns (result: real)
    requires |ids| == |fs|
    ensures result == Prediction(env, model, sc, ids, outputs, fs, Views(ctx))
  {
    var numbers := FeatureNumbers(fs);
    if numbers.None? {
      return 0.0;
    }
    var scaled := ScaleFeatures(env, sc, ids, numbers.value);
    if scaled.Err? {
      return 0.0;
    }
    var net := env.net(model, scaled.value);
    if net.Err? {
      return 0.0;
    }
    var diff := net.value;
    if outputs.None? || |outputs.value| == 0 {
      return 0.0;
    }
    var oid := outputs.value[0];
    var osid := RemoveAll(oid, "delta_");
    if osid in sc.keys {
      var inv := env.inverse(sc.handle, osid, diff);
      if inv.Err? {
        return 0.0;
      }
      diff := inv.value;
    }
    var target := ctx.GetVariable(oid);
    if target.Err? {
      return 0.0;
    }
    var current := if target.value.current.Some? then target.value.current.value else 0.0;
    return current + diff;
  }

  /** The scaling loop of `_predict_with_nn`. */
  method ScaleFeatures(env: Env, sc: ScalerSet, ids: seq<string>, xs: seq<real>) returns (r: Result<seq<real>>)
    requires |ids| == |xs|
    ensures r.Ok? <==> Scaled(env, sc, ids, xs).Ok?
    ensures r.Ok? ==> r == Scaled(env, sc, ids, xs)
  {
    var scaled: seq<real> := [];
    var i := 0;
    while i < |ids|
      invariant 0 <= i <= |ids|
      invariant Scaled(env, sc, ids[..i], xs[..i]) == Ok(scaled)
    {
      assert ids[..i + 1][..i] == ids[..i] && xs[..i + 1][..i] == xs[..i];
      var sid := RemoveAll(ids[i], "delta_");
      var v := xs[i];
      if sid in sc.keys {
        var t := env.transform(sc.handle, sid, v);
        if t.Err? {
          ScaledErrPersists(env, sc, ids, xs, i + 1);
          return Err(t.error);
        }
        v := t.value;
      }
      scaled := scaled + [v];
      i := i + 1;
    }
    assert ids[..i] == ids && xs[..i] == xs;
    return Ok(scaled);
  }

  /** Once scaling a prefix fails, scaling the whole list fails. */
  lemma {:induction false} ScaledErrPersists(env: Env, sc: ScalerSet, ids: seq<string>, xs: seq<real>, k: nat)
    requires |ids| == |xs| && k <= |xs|
    requires Scaled(env, sc, ids[..k], xs[..k]).Err?
    ensures Scaled(env, sc, ids, xs).Err?
    decreases |xs| - k
  {
    if k < |xs| {
      assert ids[..k + 1][..k] == ids[..k] && xs[..k + 1][..k] == xs[..k];
      ScaledErrPersists(env, sc, ids, xs, k + 1);
    } else {
      assert ids[..k] == ids && xs[..k] == xs;
    }
  }

  // ---------------------------------------------------------------------------------------------
  // Execution

  /** The value `execute` writes: the prediction when both the network and the scaler set are
    * loaded, 0.0 otherwise. */
  function Output(env: Env, arts: Artifacts, ids: seq<string>, outputs: Option<seq<string>>,
                  fs: seq<Feature>, views: map<string, InputView>): real
    requires |ids| == |fs|
  {
    if arts.model.Some? && arts.scaler.Some? then Prediction(env, arts.model.value, arts.scaler.value, ids, outputs, fs, views)
    else 0.0
  }

  /** The feature loop of `execute`. */
  method CollectFeatures(s: Skill, ids: seq<string>, ctx: DataContext) returns (r: Result<seq<Feature>>)
    requires s.spec.InferenceSpec? && ctx.Valid()
    ensures r == Features(s.lineage, ids, Views(ctx), s.spec.lagOffset, s.spec.smoothing, ctx.frame)
  {
    ghost var views := Views(ctx);
    var fs: seq<Feature> := [];
    var i := 0;
    while i < |ids|
      invariant 0 <= i <= |ids|
      invariant Features(s.lineage, ids[..i], views, s.spec.lagOffset, s.spec.smoothing, ctx.frame) == Ok(fs)
    {
      assert ids[..i + 1][..i] == ids[..i];
      var found := ctx.GetVariable(ids[i]);
      if found.Err? {
        FeaturesErrPersists(s.lineage, ids, views, s.spec.lagOffset, s.spec.smoothing, ctx.frame, i + 1);
        return Err(found.error);
      }
      var f := FeatureOf(s.lineage, ids[i], InputView(found.value.varType, found.value.State()),
                         s.spec.lagOffset, s.spec.smoothing, ctx.frame);
      if f.Err? {
        FeaturesErrPersists(s.lineage, ids, views, s.spec.lagOffset, s.spec.smoothing, ctx.frame, i + 1);
        return Err(f.error);
      }
      fs := fs + [f.value];
      i := i + 1;
    }
    assert ids[..i] == ids;
    return Ok(fs);
  }

  /** The first failing input decides the error of the whole list. */
  lemma {:induction false} FeaturesErrPersists(lineage: Lineage, ids: seq<string>, views: map<string, InputView>,
                                               lagOffset: LagOffsetBlock, smoothing: SmoothingBlock, frame: Option<Frame>, k: nat)
    requires k <= |ids|
    requires Features(lineage, ids[..k], views, lagOffset, smoothing, frame).Err?
    ensures Features(lineage, ids, views, lagOffset, smoothing, frame) == Features(lineage, ids[..k], views, lagOffset, smoothing, frame)
    decreases |ids| - k
  {
    if k < |ids| {
      assert ids[..k + 1][..k] == ids[..k];
      FeaturesErrPersists(lineage, ids, views, lagOffset, smoothing, frame, k + 1);
    } else {
      assert ids[..k] == ids;
    }
  }

  /** `InferenceModel.execute`: `inputs` None raises `TypeError`; a failing feature raises; then the
    * output value is computed and written into the decision value of `outputs[0]` (`outputs` None
    * raises `TypeError`, an empty list `IndexError`, an unknown variable `KeyError`). Nothing else
    * changes. */
  method Execute(s: Skill, ctx: DataContext, env: Env) returns (r: Result<()>)
    requires ctx.Valid() && s.spec.InferenceSpec?
    modifies ctx.variables.Values
    ensures s.inputs.None? ==> r == Err(TypeError("'NoneType' object is not iterable")) && ctx.Values() == old(ctx.Values())
    ensures s.inputs.Some? ==>
              var fs := Features(s.lineage, s.inputs.value, old(Views(ctx)), s.spec.lagOffset, s.spec.smoothing, ctx.frame);
              (fs.Err? ==> r == Err(fs.error) && ctx.Values() == old(ctx.Values()))
              && (fs.Ok? && s.outputs.None? ==> r == Err(TypeError("'NoneType' object is not subscriptable")) && ctx.Values() == old(ctx.Values()))
              && (fs.Ok? && s.outputs.Some? && |s.outputs.value| == 0 ==>
                    r == Err(IndexError("list index out of range")) && ctx.Values() == old(ctx.Values()))
              && (fs.Ok? && s.outputs.Some? && |s.outputs.value| > 0 && s.outputs.value[0] !in ctx.variables ==>
                    r == Err(NotFound(s.outputs.value[0])) && ctx.Values() == old(ctx.Values()))
              && (fs.Ok? && s.outputs.Some? && |s.outputs.value| > 0 && s.outputs.value[0] in ctx.variables ==>
                    var o := s.outputs.value[0];
                    var value := Output(env, s.spec.artifacts, s.inputs.value, s.outputs, fs.value, old(Views(ctx)));
                    r == Ok(()) && ctx.Values() == old(ctx.Values())[o := old(ctx.Values())[o].(dof := Some(value))])
  {
    if s.inputs.None? {
      return Err(TypeError("'NoneType' object is not iterable"));
    }
    var fs := CollectFeatures(s, s.inputs.value, ctx);
    if fs.Err? {
      return Err(fs.error);
    }
    var result := 0.0;
    var arts := s.spec.artifacts;
    if arts.model.Some? && arts.scaler.Some? {
      result := Predict(env, arts.model.value, arts.scaler.value, s.inputs.value, s.outputs, fs.value, ctx);
    }
    if s.outputs.None? {
      return Err(TypeError("'NoneType' object is not subscriptable"));
    }
    if |s.outputs.value| == 0 {
      return Err(IndexError("list index out of range"));
    }
    var out := ctx.GetVariable(s.outputs.value[0]);
    if out.Err? {
      return Err(out.error);
    }
    ctx.SetDof(s.outputs.value[0], Some(result));
    return Ok(());
  }
}
