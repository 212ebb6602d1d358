/** The math-function skill (src/task/math_optimizer/strategy/skills/functions.py): it binds each
  * input's values into the evaluator's symbol table, evaluates its formula, and writes the number
  * into the first output's decision value. Its dataframe formula adds a computed column to the
  * cycle's snapshot. */
module MathFunctions {
  import opened Wrappers
  import opened Texts
  import opened Frames
  import opened Config
  import opened Oracles
  import opened Variables
  import opened DataContexts
  import opened Skills

  /** What a math function reads from one input variable. */
  datatype Reading = Reading(dof: Option<real>, current: Option<real>, threshold: Option<real>)

  /** The readings of every variable of the context. */
  function Readings(ctx: DataContext): (m: map<string, Reading>)
    reads ctx.variables.Values
    ensures m.Keys == ctx.variables.Keys
  {
    map id | id in ctx.variables :: Reading(ctx.variables[id].dof, ctx.variables[id].current, ctx.variables[id].threshold)
  }

  /** The symbol names one input `id` binds. */
  function DofName(id: string): string { id + "_dof" }
  function CurrentName(id: string): string { id + "_current" }
  function ThresholdName(id: string): string { id + "_threshold" }

  /** The names bound for one input: the threshold name only for a threshold other than 0.0. */
  function BoundNames(id: string, rd: Reading): set<string> {
    {DofName(id), CurrentName(id), id} + (if rd.threshold != Some(0.0) then {ThresholdName(id)} else {})
  }

  /** The bindings of one input, in the order the loop body makes them: the decision and current
    * values (None reads as 0.0), the threshold unless it is 0.0 (None is bound as None), and the
    * bare id as the decision value. */
  function Bind(t: map<string, Option<real>>, id: string, rd: Reading): map<string, Option<real>> {
    var dof := rd.dof.GetOr(0.0);
    var t1 := t[DofName(id) := Some(dof)][CurrentName(id) := Some(rd.current.GetOr(0.0))];
    var t2 := if rd.threshold != Some(0.0) then t1[ThresholdName(id) := rd.threshold] else t1;
    t2[id := Some(dof)]
  }

  /** The four names of one input are pairwise different, so every binding of one input reads back,
    * and every other name is untouched. */
  lemma BindReads(t: map<string, Option<real>>, id: string, rd: Reading)
    ensures var b := Bind(t, id, rd);
            b.Keys == t.Keys + BoundNames(id, rd)
            && b[id] == Some(rd.dof.GetOr(0.0)) && b[DofName(id)] == Some(rd.dof.GetOr(0.0))
            && b[CurrentName(id)] == Some(rd.current.GetOr(0.0))
            && (rd.threshold != Some(0.0) ==> b[ThresholdName(id)] == rd.threshold)
            && (forall k :: k in t && k !in BoundNames(id, rd) ==> b[k] == t[k])
  {
    assert |DofName(id)| == |id| + 4 && |CurrentName(id)| == |id| + 8 && |ThresholdName(id)| == |id| + 10;
  }

  /** The symbol table after the loop over `ids` has bound every one of them, in order. */
  function BindAll(t: map<string, Option<real>>, ids: seq<string>, view: map<string, Reading>): map<string, Option<real>>
    requires forall id :: id in ids ==> id in view
  {
    if |ids| == 0 then t
    else Bind(BindAll(t, ids[..|ids| - 1], view), ids[|ids| - 1], view[ids[|ids| - 1]])
  }

  /** Every name bound for some input is in the table, the last input's bindings are the ones that
    * stay, and a name no input binds keeps its old value. */
  lemma {:induction false} BindAllSpec(t: map<string, Option<real>>, ids: seq<string>, view: map<string, Reading>)
    requires forall id :: id in ids ==> id in view
    ensures forall i :: 0 <= i < |ids| ==> BoundNames(ids[i], view[ids[i]]) <= BindAll(t, ids, view).Keys
    ensures t.Keys <= BindAll(t, ids, view).Keys
    ensures forall k :: k in t && (forall i :: 0 <= i < |ids| ==> k !in BoundNames(ids[i], view[ids[i]])) ==>
              BindAll(t, ids, view)[k] == t[k]
    ensures |ids| > 0 ==>
              var id := ids[|ids| - 1];
              BindAll(t, ids, view)[id] == Some(view[id].dof.GetOr(0.0))
              && BindAll(t, ids, view)[CurrentName(id)] == Some(view[id].current.GetOr(0.0))
    decreases |ids|
  {
    if |ids| > 0 {
      var pre := ids[..|ids| - 1];
      BindAllSpec(t, pre, view);
      var id := ids[|ids| - 1];
      BindReads(BindAll(t, pre, view), id, view[id]);
      forall i | 0 <= i < |ids| - 1 ensures ids[i] == pre[i] { }
    }
  }

  /** The length of the longest prefix of `ids` whose every id names a variable: the loop stops with
    * `KeyError` at the id after it. */
  function PresentPrefix(ids: seq<string>, present: set<string>): (k: nat)
    ensures k <= |ids|
    ensures forall j :: 0 <= j < k ==> ids[j] in present
    ensures k < |ids| ==> ids[k] !in present
  {
    if |ids| == 0 || ids[0] !in present then 0
    else
      var k := PresentPrefix(ids[1..], present);
      assert forall j :: 1 <= j < 1 + k ==> ids[j] == ids[1..][j - 1];
      1 + k
  }

  /** `aeval.eval(formula, show_errors=False)` with its fallbacks: a raised error and a None result
    * both give 0.0. */
  function EvalNumber(e: EvalResult): (x: real)
    ensures e.EvalValue? && e.value.Some? ==> x == e.value.value
    ensures e.EvalRaised? || e.value.None? ==> x == 0.0
  {
    match e
    case EvalRaised(_) => 0.0
    case EvalValue(v) => v.GetOr(0.0)
  }

  /** `if self.outputs: self.outputs[0]`: the variable the result goes to, if any. */
  function OutputTarget(outputs: Option<seq<string>>): (o: Option<string>)
    ensures o.Some? <==> outputs.Some? && |outputs.value| > 0
    ensures o.Some? ==> o.value == outputs.value[0]
  {
    if outputs.Some? && |outputs.value| > 0 then Some(outputs.value[0]) else None
  }

  /** The symbol-table loop of `execute`: binds each input in order; an id outside the context
    * raises `KeyError` and leaves the inputs before it bound. */
  method BindInputs(s: Skill, ids: seq<string>, ctx: DataContext) returns (r: Result<()>)
    requires ctx.Valid()
    modifies s.aeval
    ensures var k := PresentPrefix(ids, ctx.variables.Keys);
            s.aeval.symtable == BindAll(old(s.aeval.symtable), ids[..k], Readings(ctx))
            && (r.Ok? <==> k == |ids|)
            && (r.Err? ==> r.error == NotFound(ids[k]))
  {
    ghost var view := Readings(ctx);
    ghost var k := PresentPrefix(ids, ctx.variables.Keys);
    var i := 0;
    while i < |ids|
      invariant 0 <= i <= k
      invariant s.aeval.symtable == BindAll(old(s.aeval.symtable), ids[..i], view)
    {
      var id := ids[i];
      var found := ctx.GetVariable(id);
      if found.Err? {
        return Err(found.error);
      }
      var variable := found.value;
      s.aeval.symtable := Bind(s.aeval.symtable, id, Reading(variable.dof, variable.current, variable.threshold));
      assert ids[..i + 1][..i] == ids[..i];
      i := i + 1;
    }
    return Ok(());
  }

  /** The handler of a raised evaluation prints the symbol-table entries whose name occurs in the
    * formula; with a `null` formula that membership test raises. */
  const FormulaNotIterable := TypeError("argument of type 'NoneType' is not iterable")

  /** `MathFunction.execute`. `inputs` None raises `TypeError`; an unknown input raises `KeyError`
    * after the inputs before it are bound; otherwise the formula is evaluated over the whole symbol
    * table (bindings of earlier executions stay), and the number replaces the decision value of the
    * first output, which raises `KeyError` when it is not a variable. A raised evaluation of a `null`
    * formula raises `TypeError` in the handler. Nothing else changes. */
  method Execute(s: Skill, ctx: DataContext, env: Env) returns (r: Result<()>)
    requires ctx.Valid() && s.spec.MathSpec?
    modifies s.aeval, ctx.variables.Values
    ensures s.inputs.None? ==>
              r == Err(TypeError("'NoneType' object is not iterable"))
              && s.aeval.symtable == old(s.aeval.symtable) && ctx.Values() == old(ctx.Values())
    ensures s.inputs.Some? ==>
              var ids := s.inputs.value;
              var k := PresentPrefix(ids, ctx.variables.Keys);
              s.aeval.symtable == BindAll(old(s.aeval.symtable), ids[..k], old(Readings(ctx)))
              && (k < |ids| ==> r == Err(NotFound(ids[k]))
                                && ctx.Values() == old(ctx.Values()))
    ensures s.inputs.Some? && PresentPrefix(s.inputs.value, ctx.variables.Keys) == |s.inputs.value| ==>
              var result := env.eval(s.spec.formula, s.aeval.symtable);
              (result.EvalRaised? && s.spec.formula.None? ==>
                 r == Err(FormulaNotIterable) && ctx.Values() == old(ctx.Values()))
              && (result.EvalValue? || s.spec.formula.Some? ==>
                 var value := EvalNumber(result);
                 var o := OutputTarget(s.outputs);
                 (o.None? ==> r == Ok(()) && ctx.Values() == old(ctx.Values()))
                 && (o.Some? && o.value !in ctx.variables ==>
                       r == Err(NotFound(o.value))
                       && ctx.Values() == old(ctx.Values()))
                 && (o.Some? && o.value in ctx.variables ==>
                       r == Ok(())
                       && ctx.Values() == old(ctx.Values())[o.value := old(ctx.Values())[o.value].(dof := Some(value))]))
  {
    if s.inputs.None? {
      return Err(TypeError("'NoneType' object is not iterable"));
    }
    var bound := BindInputs(s, s.inputs.value, ctx);
    if bound.Err? {
      return bound;
    }
    var result := env.eval(s.spec.formula, s.aeval.symtable);
    if result.EvalRaised? && s.spec.formula.None? {
      return Err(FormulaNotIterable);
    }
    var value := if result.EvalRaised? then 0.0 else if result.value.None? then 0.0 else result.value.value;
    r := WriteResult(ctx, s.outputs, value);
  }

  /** The end of `execute`: the number replaces the decision value of the first output, if there is
    * one; an output that is not a variable raises `KeyError`. */
  method WriteResult(ctx: DataContext, outputs: Option<seq<string>>, value: real) returns (r: Result<()>)
    requires ctx.Valid()
    modifies ctx.variables.Values
    ensures var o := OutputTarget(outputs);
            (o.None? ==> r == Ok(()) && ctx.Values() == old(ctx.Values()))
            && (o.Some? && o.value !in ctx.variables ==>
                  r == Err(NotFound(o.value)) && ctx.Values() == old(ctx.Values()))
            && (o.Some? && o.value in ctx.variables ==>
                  r == Ok(())
                  && ctx.Values() == old(ctx.Values())[o.value := old(ctx.Values())[o.value].(dof := Some(value))])
  {
    if outputs.Some? && |outputs.value| > 0 {
      var out := ctx.GetVariable(outputs.value[0]);
      if out.Err? {
        return Err(out.error);
      }
      out.value.dof := Some(value);
    }
    return Ok(());
  }

  /** How many positional arguments `resolve_dataframe_formula` takes besides `self`. */
  const ResolveArity: nat := 1

  /** The pieces of Python's message for a call with the wrong number of positional arguments. */
  const ResolveHead := "MathFunction.resolve_dataframe_formula() takes "
  const ResolveMiddle := " positional arguments but "
  const ResolveTail := " were given"

  /** Calling the bound method with `given` positional arguments. */
  function CallResolve(given: nat): (r: Result<()>)
    ensures r.Ok? <==> given == ResolveArity
  {
    if given == ResolveArity then Ok(())
    else Err(TypeError(ResolveHead + NatToString(ResolveArity + 1) + ResolveMiddle + NatToString(given + 1) + ResolveTail))
  }

  /** The pre-calculation task calls the method with the skill name and the context, one argument
    * too many, so every pre-calculation math function raises `TypeError` ("takes 2 positional
    * arguments but 3 were given") before its formula runs; the call with the context alone is
    * accepted. */
  lemma ResolveCallAsWritten()
    ensures CallResolve(2) == Err(TypeError(ResolveHead + "2" + ResolveMiddle + "3" + ResolveTail))
    ensures CallResolve(1) == Ok(())
  {
    assert NatToString(2) == "2";
    assert NatToString(3) == "3";
  }

  /** The columns `df[inputs]` selects: every input must be a column. */
  function SelectColumns(f: Frame, inputs: seq<string>): (r: Result<seq<seq<Cell>>>)
    ensures r.Ok? <==> forall c :: c in inputs ==> c in f.columns
    ensures r.Ok? ==> |r.value| == |inputs| && forall i :: 0 <= i < |inputs| ==> r.value[i] == f.columns[inputs[i]]
  {
    if forall c :: c in inputs ==> c in f.columns then Ok(seq(|inputs|, i requires 0 <= i < |inputs| => f.columns[inputs[i]]))
    else Err(KeyError("None of the input columns are all in the index"))
  }

  /** `df[self.outputs[0]] = getattr(df[self.inputs], method)(axis=axis)` followed by
    * `set_dataframe(df)`, for the math function's own inputs, outputs and dataframe formula. The
    * right-hand side is evaluated first: no dataframe formula raises `AttributeError` (on `.get`),
    * no snapshot raises `TypeError`, inputs None or a missing column raise `KeyError`, a method name
    * None raises `TypeError`, the pandas method may raise; then `outputs` None raises `TypeError`,
    * an empty list `IndexError`, and a result of the wrong length `ValueError`. On success the
    * snapshot gains (or replaces) the output column and nothing else changes. */
  function ResolvedFrame(inputs: Option<seq<string>>, outputs: Option<seq<string>>, dff: Option<DataframeFormula>,
                         frame: Option<Frame>, env: Env): (r: Result<Frame>)
    ensures r.Ok? ==> frame.Some? && dff.Some? && inputs.Some? && OutputTarget(outputs).Some?
    ensures r.Ok? ==> r.value.rows == frame.value.rows
                      && r.value.columns.Keys == frame.value.columns.Keys + {OutputTarget(outputs).value}
                      && |r.value.columns[OutputTarget(outputs).value]| == frame.value.rows
                      && forall c :: c in frame.value.columns && c != OutputTarget(outputs).value ==>
                           r.value.columns[c] == frame.value.columns[c]
    ensures dff.None? ==> r == Err(AttributeError("'NoneType' object has no attribute 'get'"))
    ensures dff.Some? && frame.None? ==> r == Err(TypeError("'NoneType' object is not subscriptable"))
    ensures dff.Some? && frame.Some? && inputs.None? ==> r == Err(KeyError("None"))
  {
    if dff.None? then Err(AttributeError("'NoneType' object has no attribute 'get'"))
    else if frame.None? then Err(TypeError("'NoneType' object is not subscriptable"))
    else if inputs.None? then Err(KeyError("None"))
    else
      var f := frame.value;
      match SelectColumns(f, inputs.value)
      case Err(e) => Err(e)
      case Ok(cols) =>
        if dff.value.methodName.None? then Err(TypeError("attribute name must be string, not 'NoneType'"))
        else match env.reduce(dff.value.methodName.value, dff.value.axis, cols)
          case Err(e) => Err(e)
          case Ok(column) =>
            if outputs.None? then Err(TypeError("'NoneType' object is not subscriptable"))
            else if |outputs.value| == 0 then Err(IndexError("list index out of range"))
            else if |column| != f.rows then Err(ValueError("Length of values (" + NatToString(|column|) + ") does not match length of index (" + NatToString(f.rows) + ")"))
            else Ok(Frame(f.rows, f.columns[outputs.value[0] := column]))
  }

  /** `resolve_dataframe_formula(data_context)`: the snapshot is replaced by the resolved one; on an
    * error nothing changes. */
  method ResolveDataframeFormula(s: Skill, ctx: DataContext, env: Env) returns (r: Result<()>)
    requires s.spec.MathSpec?
    modifies ctx
    ensures var rf := ResolvedFrame(s.inputs, s.outputs, s.spec.dataframeFormula, old(ctx.frame), env);
            (rf.Ok? ==> r == Ok(()) && ctx.frame == Some(rf.value))
            && (rf.Err? ==> r == Err(rf.error) && ctx.frame == old(ctx.frame))
    ensures ctx.dynamicBounds == old(ctx.dynamicBounds) && ctx.solverConstraints == old(ctx.solverConstraints)
  {
    var rf := ResolvedFrame(s.inputs, s.outputs, s.spec.dataframeFormula, ctx.frame, env);
    if rf.Err? {
      return Err(rf.error);
    }
    ctx.SetDataframe(Some(rf.value));
    return Ok(());
  }
}
