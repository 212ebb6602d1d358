/** The on-demand optimization endpoint (src/services/api_service.py): the validation of the
  * request body, the required-variable check before a cycle, the extraction of the results from
  * the final data context, and the status code of the answer. Flask, the temporary YAML file and
  * the clock are not modelled. */
module ApiService {
  import opened Wrappers
  import opened Texts
  import opened Json
  import opened Dicts
  import opened Config
  import opened Variables
  import opened DataContexts
  import opened StrategyQueries
  import opened Schedules

  const RequiredFields: seq<string> := ["input_data", "config"]
  const RequiredSections: seq<string> := ["variables", "skills", "tasks"]

  const NotObject: string := "Request body must be a JSON object"
  const InputNotObject: string := "input_data must be a JSON object"
  const ConfigNotObject: string := "config must be a JSON object"

  /** A body the endpoint accepts, stated on its own: an object with an object `input_data` and an
    * object `config` holding the three sections. */
  predicate WellFormed(data: Json) {
    data.JObj? && "input_data" in data.o && "config" in data.o
    && data.o["input_data"].JObj? && data.o["config"].JObj?
    && "variables" in data.o["config"].o && "skills" in data.o["config"].o && "tasks" in data.o["config"].o
  }

  /** The message of the first check that fails, in the order `_validate_request_data` makes them,
    * or None when all pass. */
  function Diagnosis(data: Json): Option<string> {
    if !data.JObj? then Some(NotObject)
    else if FirstMissing(RequiredFields, data.o.Keys).Some? then
      Some("Missing required field: " + FirstMissing(RequiredFields, data.o.Keys).value)
    else if !data.o["input_data"].JObj? then Some(InputNotObject)
    else if !data.o["config"].JObj? then Some(ConfigNotObject)
    else if FirstMissing(RequiredSections, data.o["config"].o.Keys).Some? then
      Some("Missing required config section: " + FirstMissing(RequiredSections, data.o["config"].o.Keys).value)
    else None
  }

  /** A body passes every check exactly when it is well formed. */
  lemma DiagnosisSpec(data: Json)
    ensures Diagnosis(data).None? <==> WellFormed(data)
  {
    if data.JObj? && FirstMissing(RequiredFields, data.o.Keys).None? {
      assert RequiredFields[0] in data.o && RequiredFields[1] in data.o;
      if data.o["config"].JObj? && FirstMissing(RequiredSections, data.o["config"].o.Keys).None? {
        assert RequiredSections[0] in data.o["config"].o;
        assert RequiredSections[1] in data.o["config"].o && RequiredSections[2] in data.o["config"].o;
      }
    }
  }

  /** `input_data` is checked before `config`: a body lacking both is told about `input_data`. */
  lemma InputDataFirst(o: map<string, Json>)
    requires "input_data" !in o
    ensures Diagnosis(JObj(o)) == Some("Missing required field: input_data")
  {
    FirstMissingAt(RequiredFields, o.Keys, 0);
    assert "Missing required field: " + RequiredFields[0] == "Missing required field: input_data";
  }

  /** The first name a list lacks, once every name before index `i` is present. */
  lemma {:induction false} FirstMissingAt(names: seq<string>, present: set<string>, i: nat)
    requires i < |names| && names[i] !in present
    requires forall j :: 0 <= j < i ==> names[j] in present
    ensures FirstMissing(names, present) == Some(names[i])
  {
    if i > 0 {
      FirstMissingAt(names[1..], present, i - 1);
    }
  }

  /** The first name of `names` that `present` lacks, searched the way the validator's loops do. */
  method FindMissing(names: seq<string>, present: set<string>) returns (r: Option<string>)
    ensures r == FirstMissing(names, present)
  {
    var i := 0;
    while i < |names|
      invariant 0 <= i <= |names|
      invariant forall j :: 0 <= j < i ==> names[j] in present
    {
      if names[i] !in present {
        FirstMissingAt(names, present, i);
        return Some(names[i]);
      }
      i := i + 1;
    }
    return None;
  }

  /** `_validate_request_data`: `(True, "")` for a well-formed body, otherwise False and the
    * message of the first failing check. */
  method ValidateRequestData(data: Json) returns (ok: bool, message: string)
    ensures ok <==> WellFormed(data)
    ensures ok ==> message == ""
    ensures !ok ==> Diagnosis(data) == Some(message)
  {
    DiagnosisSpec(data);
    if !data.JObj? {
      return false, NotObject;
    }
    var field := FindMissing(RequiredFields, data.o.Keys);
    if field.Some? {
      return false, "Missing required field: " + field.value;
    }
    var inputData := data.o["input_data"];
    if !inputData.JObj? {
      return false, InputNotObject;
    }
    var config := data.o["config"];
    if !config.JObj? {
      return false, ConfigNotObject;
    }
    var section := FindMissing(RequiredSections, config.o.Keys);
    if section.Some? {
      return false, "Missing required config section: " + section.value;
    }
    return true, "";
  }

  /** The four bodies the invalid-request test sends are all rejected, each with its reason. */
  lemma InvalidTestBodies(sample: map<string, Json>)
    ensures Diagnosis(JObj(map[])) == Some("Missing required field: input_data")
    ensures Diagnosis(JObj(map["config" := JObj(map[])])) == Some("Missing required field: input_data")
    ensures Diagnosis(JObj(map["input_data" := JObj(map[])])) == Some("Missing required field: config")
    ensures Diagnosis(JObj(map["input_data" := JObj(sample), "config" := JObj(map["invalid" := JStr("config")])]))
            == Some("Missing required config section: variables")
  {
    InputDataFirst(map[]);
    InputDataFirst(map["config" := JObj(map[])]);
    var o := map["input_data" := JObj(map[])];
    FirstMissingAt(RequiredFields, o.Keys, 1);
    assert "Missing required field: " + RequiredFields[1] == "Missing required field: config";
    var bad := map["input_data" := JObj(sample), "config" := JObj(map["invalid" := JStr("config")])];
    assert RequiredFields[0] in bad && RequiredFields[1] in bad;
    FirstMissingAt(RequiredSections, map["invalid" := JStr("config")].Keys, 0);
    assert "Missing required config section: " + RequiredSections[0] == "Missing required config section: variables";
  }

  /** The ids of `required` absent from `present`, in order. */
  function Absent(required: seq<string>, present: set<string>): (r: seq<string>) {
    if |required| == 0 then []
    else
      var n := |required| - 1;
      Absent(required[..n], present) + (if required[n] in present then [] else [required[n]])
  }

  /** Exactly the required ids not present are reported. */
  lemma {:induction false} AbsentSpec(required: seq<string>, present: set<string>)
    ensures forall x :: x in Absent(required, present) <==> x in required && x !in present
  {
    if |required| > 0 {
      var n := |required| - 1;
      AbsentSpec(required[..n], present);
      assert required == required[..n] + [required[n]];
    }
  }

  /** The loop of `_run_single_optimization_cycle` collecting `missing_vars`. */
  method MissingVars(required: seq<string>, present: set<string>) returns (missing: seq<string>)
    ensures missing == Absent(required, present)
  {
    missing := [];
    var i := 0;
    while i < |required|
      invariant 0 <= i <= |required|
      invariant missing == Absent(required[..i], present)
    {
      assert required[..i + 1][..i] == required[..i];
      if required[i] !in present {
        missing := missing + [required[i]];
      }
      i := i + 1;
    }
    assert required[..i] == required;
  }

  /** The required variables are the operative and then the informative ids (the `type` lookup of
    * src/strategy/strategy.py, a `KeyError` for a variable without one); any of them absent from
    * `input_data` raises `ValueError` listing them in order. */
  method CheckRequiredVariables(vars: Dict<VariableConfig>, inputData: map<string, Json>) returns (r: Result<()>)
    ensures IdsOfType(vars, "Operative").Err? ==> r == Err(KeyError("type"))
    ensures IdsOfType(vars, "Operative").Ok? ==>
              var required := IdsOfType(vars, "Operative").value + IdsOfType(vars, "Informative").value;
              var missing := Absent(required, inputData.Keys);
              (r.Ok? <==> forall id :: id in required ==> id in inputData)
              && (r.Err? ==> r.error == ValueError("Missing required variables in input_data: " + ListRepr(missing)))
  {
    var operative := IdsOfType(vars, "Operative");
    if operative.Err? {
      return Err(operative.error);
    }
    var informative := IdsOfType(vars, "Informative");
    var missing := MissingVars(operative.value + informative.value, inputData.Keys);
    AbsentSpec(operative.value + informative.value, inputData.Keys);
    if |missing| > 0 {
      assert missing[0] in missing;
      return Err(ValueError("Missing required variables in input_data: " + ListRepr(missing)));
    }
    return Ok(());
  }

  /** The id the extraction reads the cost from. */
  const CostId: string := "cost_function_total"

  /** The optimized values: the ids of `ids` whose variable has a degree-of-freedom value. */
  function Dofs(ids: seq<string>, values: map<string, VarState>): map<string, real> {
    map id | id in ids && id in values && values[id].dof.Some? :: values[id].dof.value
  }

  /** Each total counts distinct ids of its kind, so it is at most the number of ids. */
  lemma {:induction false} DofsAtMost(ids: seq<string>, values: map<string, VarState>)
    ensures |Dofs(ids, values)| <= |ids|
  {
    if |ids| > 0 {
      var n := |ids| - 1;
      DofsAtMost(ids[..n], values);
      var d := Dofs(ids, values);
      var d0 := Dofs(ids[..n], values);
      assert ids == ids[..n] + [ids[n]];
      assert d.Keys <= d0.Keys + {ids[n]};
      assert |d.Keys| <= |d0.Keys + {ids[n]}| by {
        SubsetSize(d.Keys, d0.Keys + {ids[n]});
      }
    } else {
      assert Dofs(ids, values).Keys == {};
    }
  }

  lemma SubsetSize(a: set<string>, b: set<string>)
    requires a <= b
    ensures |a| <= |b|
  {
    assert b == a + (b - a);
  }

  /** The loop over one kind of ids: `get_variable` for each (a `KeyError` for an absent id), and
    * the degree-of-freedom value of those that have one. */
  method DofsOf(ctx: DataContext, ids: seq<string>) returns (r: Result<map<string, real>>)
    ensures r.Ok? <==> forall id :: id in ids ==> id in ctx.variables
    ensures r.Err? ==> r.error == NotFound(FirstMissing(ids, ctx.variables.Keys).value)
    ensures r.Ok? ==> r.value == Dofs(ids, ctx.Values())
  {
    var out: map<string, real> := map[];
    var i := 0;
    while i < |ids|
      invariant 0 <= i <= |ids|
      invariant forall j :: 0 <= j < i ==> ids[j] in ctx.variables
      invariant out == Dofs(ids[..i], ctx.Values())
    {
      var v := ctx.GetVariable(ids[i]);
      if v.Err? {
        FirstMissingAt(ids, ctx.variables.Keys, i);
        return Err(v.error);
      }
      assert ids[..i + 1] == ids[..i] + [ids[i]];
      if v.value.dof.Some? {
        out := out[ids[i] := v.value.dof.value];
      }
      i := i + 1;
    }
    assert ids[..i] == ids;
    return Ok(out);
  }

  /** The entries of `optimized_variables`, `predicted_variables` and `constraint_variables`. */
  /** A `units` or `type` given as `null` is answered as None. */
  datatype OptimizedEntry = OptimizedEntry(current: Option<real>, optimized: real, units: Option<string>, threshold: Option<real>)
  datatype PredictedEntry = PredictedEntry(predicted: real, units: Option<string>, varType: Option<string>)
  datatype ConstraintEntry = ConstraintEntry(value: real, units: Option<string>)

  /** The dictionary `_extract_optimization_results` answers (its status is `success`). */
  datatype Extraction = Extraction(
    optimized: map<string, OptimizedEntry>,
    predicted: map<string, PredictedEntry>,
    constraints: map<string, ConstraintEntry>,
    cost: Option<real>,
    totalOptimized: nat,
    totalPredicted: nat,
    totalConstraints: nat)

  /** `variables_config.get(id, {}).get(key, default)` for the three keys read. */
  function UnitsOf(vars: map<string, VariableConfig>, id: string): Option<string> {
    if id in vars then GetOrDefault(vars[id].units, "") else Some("")
  }

  function TypeOf(vars: map<string, VariableConfig>, id: string): Option<string> {
    if id in vars then GetOrDefault(vars[id].varType, "") else Some("")
  }

  function ThresholdReported(vars: map<string, VariableConfig>, id: string): Option<real> {
    if id in vars && vars[id].threshold.Given? then Some(vars[id].threshold.value) else None
  }

  /** The entries of `optimized_variables`, one per collected value. */
  function OptimizedEntries(vars: map<string, VariableConfig>, values: map<string, VarState>, opt: map<string, real>)
    : (m: map<string, OptimizedEntry>)
    ensures m.Keys == opt.Keys
    ensures forall id :: id in opt ==> m[id].optimized == opt[id] && m[id].units == UnitsOf(vars, id)
  {
    map id | id in opt ::
      OptimizedEntry(if id in values then values[id].current else None, opt[id], UnitsOf(vars, id), ThresholdReported(vars, id))
  }

  /** The entries of `predicted_variables`. */
  function PredictedEntries(vars: map<string, VariableConfig>, pred: map<string, real>): (m: map<string, PredictedEntry>)
    ensures m.Keys == pred.Keys
    ensures forall id :: id in pred ==> m[id].predicted == pred[id] && m[id].varType == TypeOf(vars, id)
  {
    map id | id in pred :: PredictedEntry(pred[id], UnitsOf(vars, id), TypeOf(vars, id))
  }

  /** The entries of `constraint_variables`. */
  function ConstraintEntries(vars: map<string, VariableConfig>, cons: map<string, real>): (m: map<string, ConstraintEntry>)
    ensures m.Keys == cons.Keys
    ensures forall id :: id in cons ==> m[id].value == cons[id]
  {
    map id | id in cons :: ConstraintEntry(cons[id], UnitsOf(vars, id))
  }

  /** The answer built from the three collected maps and the cost variable's value; each total is
    * the number of entries of its map. */
  function Report(vars: map<string, VariableConfig>, values: map<string, VarState>,
                  opt: map<string, real>, pred: map<string, real>, cons: map<string, real>, cost: Option<real>): (e: Extraction)
    ensures e.optimized.Keys == opt.Keys && e.predicted.Keys == pred.Keys && e.constraints.Keys == cons.Keys
    ensures e.cost == cost
    ensures e.totalOptimized == |opt| && e.totalPredicted == |pred| && e.totalConstraints == |cons|
  {
    var optimized := OptimizedEntries(vars, values, opt);
    var predictedVars := PredictedEntries(vars, pred);
    var constraintVars := ConstraintEntries(vars, cons);
    assert |optimized.Keys| == |opt.Keys| && |predictedVars.Keys| == |pred.Keys| && |constraintVars.Keys| == |cons.Keys|;
    Extraction(optimized, predictedVars, constraintVars, cost, |optimized|, |predictedVars|, |constraintVars|)
  }

  /** `_extract_optimization_results`: the three loops in order, then the cost variable; an id the
    * context lacks stops it with that id's `KeyError`. Each map holds the ids of its kind whose
    * variable has a degree-of-freedom value. */
  method ExtractOptimizationResults(ctx: DataContext, vars: map<string, VariableConfig>,
                                    optimizable: seq<string>, predicted: seq<string>, constraints: seq<string>)
    returns (r: Result<Extraction>)
    ensures var all := optimizable + predicted + constraints + [CostId];
            (r.Ok? <==> forall id :: id in all ==> id in ctx.variables)
            && (r.Err? ==> r.error == NotFound(FirstMissing(all, ctx.variables.Keys).value))
    ensures r.Ok? ==>
              var values := ctx.Values();
              r.value == Report(vars, values, Dofs(optimizable, values), Dofs(predicted, values),
                                Dofs(constraints, values), values[CostId].dof)
  {
    var opt := DofsOf(ctx, optimizable);
    if opt.Err? {
      MissingInPrefix(optimizable, predicted + constraints + [CostId], ctx.variables.Keys);
      assert optimizable + predicted + constraints + [CostId] == optimizable + (predicted + constraints + [CostId]);
      return Err(opt.error);
    }
    var pred := DofsOf(ctx, predicted);
    if pred.Err? {
      MissingAfter(optimizable, predicted + constraints + [CostId], ctx.variables.Keys);
      MissingInPrefix(predicted, constraints + [CostId], ctx.variables.Keys);
      assert predicted + constraints + [CostId] == predicted + (constraints + [CostId]);
      assert optimizable + predicted + constraints + [CostId] == optimizable + (predicted + constraints + [CostId]);
      return Err(pred.error);
    }
    var cons := DofsOf(ctx, constraints);
    if cons.Err? {
      MissingAfter(optimizable + predicted, constraints + [CostId], ctx.variables.Keys);
      MissingInPrefix(constraints, [CostId], ctx.variables.Keys);
      assert optimizable + predicted + constraints + [CostId] == (optimizable + predicted) + (constraints + [CostId]);
      return Err(cons.error);
    }
    var cost := ctx.GetVariable(CostId);
    MissingAfter(optimizable + predicted + constraints, [CostId], ctx.variables.Keys);
    if cost.Err? {
      return Err(cost.error);
    }
    r := Ok(Report(vars, ctx.Values(), opt.value, pred.value, cons.value, cost.value.dof));
  }

  /** A name missing from the first part of a list is the list's first missing name. */
  lemma {:induction false} MissingInPrefix(a: seq<string>, b: seq<string>, present: set<string>)
    requires FirstMissing(a, present).Some?
    ensures FirstMissing(a + b, present) == FirstMissing(a, present)
  {
    if a[0] in present {
      assert (a + b)[1..] == a[1..] + b;
      MissingInPrefix(a[1..], b, present);
    }
  }

  /** When the first part lacks nothing, the first missing name is the second part's. */
  lemma {:induction false} MissingAfter(a: seq<string>, b: seq<string>, present: set<string>)
    requires forall x :: x in a ==> x in present
    ensures FirstMissing(a + b, present) == FirstMissing(b, present)
  {
    if |a| > 0 {
      assert (a + b)[1..] == a[1..] + b;
      MissingAfter(a[1..], b, present);
    } else {
      assert a + b == b;
    }
  }

  /** What `_run_single_optimization_cycle` answers: the extraction, or `status: error` with the
    * exception's class name. */
  datatype CycleResult = Success(extraction: Extraction) | Failure(error: Error)

  /** Python's `type(e).__name__`. */
  function ErrorType(e: Error): string {
    match e
    case ValueError(_) => "ValueError"
    case KeyError(_) => "KeyError"
    case RuntimeError(_) => "RuntimeError"
    case TypeError(_) => "TypeError"
    case AttributeError(_) => "AttributeError"
    case ImportError(_) => "ImportError"
    case IndexError(_) => "IndexError"
    case RecursionError => "RecursionError"
    case LibraryError(kind, _) => kind
  }

  /** The `status` field of a cycle's answer. */
  function StatusOf(c: CycleResult): string {
    if c.Success? then "success" else "error"
  }


  /** A step's outcome with its value dropped. */
  function Done<T>(r: Result<T>): Result<()> {
    if r.Ok? then Ok(()) else Err(r.error)
  }

  /** A cycle: building the strategy from the configuration (`construction`), the required-variable
    * check, the run, the post-processing, then the extraction, each outcome given. The first
    * exception is the answer. */
  function Cycle(construction: Result<()>, required: Result<()>, run: Result<()>, postProcess: Result<()>,
                 extraction: Result<Extraction>): (c: CycleResult)
    ensures c.Success? <==> construction.Ok? && required.Ok? && run.Ok? && postProcess.Ok? && extraction.Ok?
    ensures c.Success? ==> c.extraction == extraction.value
    ensures c.Failure? ==> Some(c.error) == FirstErr([construction, required, run, postProcess, Done(extraction)])
  {
    var steps := [construction, required, run, postProcess, Done(extraction)];
    if construction.Err? then Failure(construction.error)
    else if required.Err? then FirstErrAt(steps, 1); Failure(required.error)
    else if run.Err? then FirstErrAt(steps, 2); Failure(run.error)
    else if postProcess.Err? then FirstErrAt(steps, 3); Failure(postProcess.error)
    else if extraction.Err? then FirstErrAt(steps, 4); Failure(extraction.error)
    else Success(extraction.value)
  }

  /** The first failing step is the one after a run of successes. */
  lemma {:induction false} FirstErrAt(steps: seq<Result<()>>, i: nat)
    requires i < |steps| && steps[i].Err? && forall j :: 0 <= j < i ==> steps[j].Ok?
    ensures FirstErr(steps) == Some(steps[i].error)
  {
    if i > 0 {
      FirstErrAt(steps[1..], i - 1);
    }
  }

  /** `_run_optimization`'s status code: 400 when the request is not JSON or the body fails
    * validation; otherwise 200 when the cycle's status is `success`, else 500. */
  function StatusCode(isJson: bool, data: Json, cycle: CycleResult): (code: int)
  {
    if !isJson then 400
    else if Diagnosis(data).Some? then 400
    else if StatusOf(cycle) == "success" then 200
    else 500
  }

  /** A request is refused with 400 exactly when it is not JSON or not well formed; a valid one
    * gets 200 exactly when its cycle succeeds, and 500 otherwise. */
  lemma StatusCodeSpec(isJson: bool, data: Json, cycle: CycleResult)
    ensures StatusCode(isJson, data, cycle) == 400 <==> !isJson || !WellFormed(data)
    ensures StatusCode(isJson, data, cycle) == 200 <==> isJson && WellFormed(data) && cycle.Success?
    ensures StatusCode(isJson, data, cycle) == 500 <==> isJson && WellFormed(data) && cycle.Failure?
  {
    DiagnosisSpec(data);
  }

  /** A well-formed request whose input lacks a required variable is answered 500, not 400: the
    * check runs inside the cycle, after validation, and its error is the answer when the strategy
    * could be built. */
  lemma MissingVariableIs500(data: Json, construction: Result<()>, run: Result<()>, postProcess: Result<()>,
                             extraction: Result<Extraction>, msg: string)
    requires WellFormed(data)
    ensures var c := Cycle(construction, Err(ValueError(msg)), run, postProcess, extraction);
            StatusCode(true, data, c) == 500 && (construction.Ok? ==> c.error == ValueError(msg))
  {
    StatusCodeSpec(true, data, Cycle(construction, Err(ValueError(msg)), run, postProcess, extraction));
  }

}
