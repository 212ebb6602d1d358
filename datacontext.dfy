/** The per-cycle context: the variables of the configuration, the record snapshot, and the stores
  * the bounds and constraint skills fill for the optimizer
  * (src/task/math_optimizer/strategy/data_context.py). */
module DataContexts {
  import opened Wrappers
  import opened XReals
  import opened Dicts
  import opened Config
  import opened Frames
  import opened Oracles
  import opened Variables
  import opened Json
  import opened Texts

  /** One dynamic-bounds entry, `{'min': ..., 'max': ...}`. */
  datatype BoundPair = BoundPair(min: XReal, max: XReal)

  /** The `records` argument of `populate_initial_data`: a list of records, a flat
    * `{var: value}` dict, or one record dict (a dict with a `data` key). */
  datatype Records =
    | RecordList(rows: seq<RecordRow>)
    | FlatDict(values: Dict<Json>)
    | RecordDict(row: RecordRow)

  /** `not records`: an empty list or an empty dict. */
  predicate Falsy(records: Records) {
    match records
    case RecordList(rows) => |rows| == 0
    case FlatDict(values) => |values.keys| == 0
    case RecordDict(_) => false
  }

  /** The list of records after normalisation: a flat dict becomes one record with no timestamp,
    * a record dict becomes a one-element list. */
  function Normalize(records: Records): (r: Result<seq<RecordRow>>)
    ensures r.Err? <==> Falsy(records)
    ensures r.Err? ==> r.error == ValueError("No data provided to populate_initial_data")
    ensures r.Ok? ==> |r.value| > 0
    ensures records.FlatDict? && r.Ok? ==> r.value == [RecordRow(None, records.values)]
    ensures records.RecordDict? ==> r == Ok([records.row])
    ensures records.RecordList? && r.Ok? ==> r.value == records.rows
  {
    if Falsy(records) then Err(ValueError("No data provided to populate_initial_data"))
    else match records
      case RecordList(rows) => Ok(rows)
      case FlatDict(values) => Ok([RecordRow(None, values)])
      case RecordDict(row) => Ok([row])
  }

  /** Kinds whose missing values are zeroed after population; a `null` kind is none of them. */
  predicate ZeroedKind(varType: Option<string>) {
    varType in [Some("Delta"), Some("Predicted"), Some("Constraint"), Some("CalculatedKPI")] || varType == Some("Calculated")
  }

  /** The `KeyError` of a lookup of an id the context lacks. */
  function NotFound(id: string): Error {
    KeyError("Variable '" + id + "' not found in DataContext.")
  }

  /** What the first pass of `populate_initial_data` gets through: the keys of the last record
    * that name a variable, with `float` of their values, up to the first value `float` rejects,
    * and that rejection. */
  datatype Conversion = Conversion(applied: map<string, real>, error: Option<Error>)

  /** `float` of each value of a record, under the same keys in the same order. */
  function Floats(rec: Dict<Json>): Dict<Result<real>> {
    ODict(rec.keys, map k | k in rec.m :: ToFloat(rec.m[k]))
  }

  /** The first pass over the first `n` keys of a record, given `float` of each of its values as
    * `floats`; `known` are the variable ids. */
  function ConversionsUpTo(floats: Dict<Result<real>>, n: nat, known: set<string>): Conversion
    requires n <= |floats.keys|
  {
    if n == 0 then Conversion(map[], None)
    else
      var p := ConversionsUpTo(floats, n - 1, known);
      var k := floats.keys[n - 1];
      if p.error.Some? || k !in known then p
      else match floats.m[k]
        case Ok(x) => Conversion(p.applied[k := x], None)
        case Err(e) => Conversion(p.applied, Some(e))
  }

  /** The pass over a prefix assigns only known keys their `float`, stops exactly when some known
    * key's `float` fails, with that failure, and otherwise assigns every known key. */
  lemma {:induction false} ConversionsUpToSpec(floats: Dict<Result<real>>, n: nat, known: set<string>)
    requires n <= |floats.keys|
    ensures var c := ConversionsUpTo(floats, n, known);
            && (forall k :: k in c.applied ==> k in floats.m && k in known && floats.m[k] == Ok(c.applied[k]))
            && (c.error.None? <==> forall i :: 0 <= i < n && floats.keys[i] in known ==> floats.m[floats.keys[i]].Ok?)
            && (c.error.None? ==> forall i :: 0 <= i < n && floats.keys[i] in known ==> floats.keys[i] in c.applied)
            && (c.error.Some? ==> exists i :: 0 <= i < n && floats.keys[i] in known && floats.m[floats.keys[i]] == Err(c.error.value))
  {
    if n > 0 {
      ConversionsUpToSpec(floats, n - 1, known);
    }
  }

  /** The first pass over all the keys of the record `rec`. */
  function Conversions(rec: Dict<Json>, known: set<string>): Conversion {
    ConversionsUpTo(Floats(rec), |rec.keys|, known)
  }

  /** Every assigned value is `float` of the record's value under a known id; the pass stops
    * exactly when some known id's value is rejected, with that rejection; otherwise every known
    * id in the record is assigned. */
  lemma {:induction false} ConversionsSpec(rec: Dict<Json>, known: set<string>)
    ensures var c := Conversions(rec, known);
            && (forall k :: k in c.applied ==> k in rec.m && k in known && ToFloat(rec.m[k]) == Ok(c.applied[k]))
            && (c.error.None? <==> forall k :: k in rec.m && k in known ==> ToFloat(rec.m[k]).Ok?)
            && (c.error.None? ==> forall k :: k in rec.m && k in known ==> k in c.applied)
            && (c.error.Some? ==> exists k :: k in rec.m && k in known && ToFloat(rec.m[k]) == Err(c.error.value))
  {
    var floats := Floats(rec);
    var c := ConversionsUpTo(floats, |rec.keys|, known);
    ConversionsUpToSpec(floats, |rec.keys|, known);
    if c.error.None? {
      forall k | k in rec.m && k in known
        ensures ToFloat(rec.m[k]).Ok? && k in c.applied
      {
        var i := KeyAt(rec, k);
        assert floats.keys[i] == k;
      }
    } else {
      var i :| 0 <= i < |rec.keys| && floats.keys[i] in known && floats.m[floats.keys[i]] == Err(c.error.value);
      assert rec.keys[i] in rec.m;
    }
  }

  /** Once the first pass has stopped, later keys change nothing. */
  lemma {:induction false} ConversionsStopped(floats: Dict<Result<real>>, known: set<string>, n: nat, m: nat)
    requires n <= m <= |floats.keys| && ConversionsUpTo(floats, n, known).error.Some?
    ensures ConversionsUpTo(floats, m, known) == ConversionsUpTo(floats, n, known)
    decreases m
  {
    if n < m {
      ConversionsStopped(floats, known, n, m - 1);
      var p := ConversionsUpTo(floats, m - 1, known);
      assert p.error.Some?;
      assert ConversionsUpTo(floats, m, known) == p;
    }
  }

  /** One more key of the first pass, while it has not stopped. */
  lemma {:induction false} ConversionsNext(floats: Dict<Result<real>>, i: nat, known: set<string>)
    requires i < |floats.keys| && ConversionsUpTo(floats, i, known).error.None?
    ensures var p := ConversionsUpTo(floats, i, known); var k := floats.keys[i];
            ConversionsUpTo(floats, i + 1, known)
            == if k !in known then p
               else if floats.m[k].Ok? then Conversion(p.applied[k := floats.m[k].value], None)
               else Conversion(p.applied, Some(floats.m[k].error))
  {
  }

  /** A known key whose `float` fails, reached before the pass stopped, is the pass's outcome. */
  lemma {:induction false} ConversionsFail(floats: Dict<Result<real>>, i: nat, known: set<string>)
    requires i < |floats.keys| && ConversionsUpTo(floats, i, known).error.None?
    requires floats.keys[i] in known && floats.m[floats.keys[i]].Err?
    ensures ConversionsUpTo(floats, |floats.keys|, known)
            == Conversion(ConversionsUpTo(floats, i, known).applied, Some(floats.m[floats.keys[i]].error))
  {
    ConversionsNext(floats, i, known);
    ConversionsStopped(floats, known, i + 1, |floats.keys|);
  }

  /** A record whose values are all numbers sets every variable it names to its number, as the
    * first pass did before values were checked. */
  lemma ConversionsNumeric(rec: Dict<Json>, known: set<string>)
    requires forall k :: k in rec.m ==> rec.m[k].JNum?
    ensures Conversions(rec, known) == Conversion(map k | k in rec.m && k in known :: rec.m[k].r, None)
  {
    var c := Conversions(rec, known);
    ConversionsSpec(rec, known);
    assert c.applied == map k | k in rec.m && k in known :: rec.m[k].r;
  }

  /** A null value under a variable's id raises `TypeError` and stops the pass, so the later
    * numeric value is not assigned. */
  lemma ConversionsNullStops()
    ensures Conversions(ODict(["a", "b"], map["a" := JNull, "b" := JNum(1.0)]), {"a", "b"})
            == Conversion(map[], Some(TypeError("float() argument must be a string or a real number, not 'NoneType'")))
  {
    var rec: Dict<Json> := ODict(["a", "b"], map["a" := JNull, "b" := JNum(1.0)]);
    assert ConversionsUpTo(Floats(rec), 1, {"a", "b"}).error.Some?;
    ConversionsStopped(Floats(rec), {"a", "b"}, 1, 2);
  }

  /** An id outside the schema is skipped whatever its value, and a digit string is read as its
    * number. */
  lemma {:induction false} ConversionsSkipAndParse(n: nat)
    ensures Conversions(ODict(["x", "b"], map["x" := JNull, "b" := JStr(NatToString(n))]), {"b"})
            == Conversion(map["b" := n as real], None)
  {
    var rec: Dict<Json> := ODict(["x", "b"], map["x" := JNull, "b" := JStr(NatToString(n))]);
    assert ConversionsUpTo(Floats(rec), 1, {"b"}) == Conversion(map[], None);
    ToFloatNat(n);
  }

  /** The state of one variable after the first pass: a value in the last record sets all three
    * values. */
  function Assigned(s: VarState, id: string, last: map<string, real>): VarState {
    if id in last then VarState(Some(last[id]), Some(last[id]), Some(last[id])) else s
  }

  /** The state of one variable after the second pass: a zeroed kind with no current value gets 0.0
    * in all three. */
  function Zeroed(s: VarState, varType: Option<string>): VarState {
    if s.current.None? && ZeroedKind(varType) then VarState(Some(0.0), Some(0.0), Some(0.0)) else s
  }

  /** The state of one variable after `populate_initial_data`. */
  function Populated(s: VarState, varType: Option<string>, id: string, last: map<string, real>): VarState {
    Zeroed(Assigned(s, id, last), varType)
  }

  class DataContext {
    const variables: map<string, Variable>
    /** The variable ids in configuration order (the dict's iteration order). */
    const ids: seq<string>
    var frame: Option<Frame>
    var dynamicBounds: map<string, BoundPair>
    var solverConstraints: seq<SolverConstraint>

    ghost predicate Valid() {
      (forall id :: id in variables ==> variables[id].id == id)
      && Distinct(ids) && (forall id :: id in variables <==> id in ids)
    }

    /** The values of every variable. */
    function Values(): map<string, VarState>
      reads variables.Values
    {
      map id | id in variables :: variables[id].State()
    }

    /** One variable per configured id, all values None; no snapshot, no bounds, no constraints. */
    constructor (cfg: Dict<VariableConfig>, shape: Shape)
      ensures Valid() && variables.Keys == cfg.m.Keys && ids == cfg.keys
      ensures forall id :: id in variables ==>
        (fresh(variables[id])
         && variables[id].varType == GetOrDefault(cfg.m[id].varType, "Unknown")
         && variables[id].threshold == ThresholdOf(cfg.m[id].threshold)
         && variables[id].hardLimits == LimitsOf(cfg.m[id], shape)
         && variables[id].State() == VarState(None, None, None))
      ensures frame.None? && dynamicBounds == map[] && solverConstraints == []
    {
      var m: map<string, Variable> := map[];
      var i := 0;
      while i < |cfg.keys|
        invariant 0 <= i <= |cfg.keys|
        invariant forall id :: id in m <==> id in cfg.keys[..i]
        invariant forall id :: id in m ==>
          (fresh(m[id]) && m[id].id == id
           && m[id].varType == GetOrDefault(cfg.m[id].varType, "Unknown")
           && m[id].threshold == ThresholdOf(cfg.m[id].threshold)
           && m[id].hardLimits == LimitsOf(cfg.m[id], shape)
           && m[id].State() == VarState(None, None, None))
      {
        var k := cfg.keys[i];
        var v := new Variable(k, cfg.m[k], shape);
        m := m[k := v];
        i := i + 1;
      }
      assert cfg.keys[..i] == cfg.keys;
      variables := m;
      ids := cfg.keys;
      frame := None;
      dynamicBounds := map[];
      solverConstraints := [];
    }

    /** `get_variable`: the variable, or `KeyError` for an id outside the schema. */
    function GetVariable(id: string): (r: Result<Variable>)
      ensures r.Ok? <==> id in variables
      ensures r.Ok? ==> r.value == variables[id]
      ensures r.Err? ==> r.error == NotFound(id)
    {
      if id in variables then Ok(variables[id])
      else Err(NotFound(id))
    }

    /** `has_variable`. */
    predicate HasVariable(id: string) {
      id in variables
    }

    /** `populate_initial_data`: raises `ValueError` on falsy records; otherwise stores one snapshot
      * row per record in input order and sets the variables from the last record only (ids
      * outside the schema ignored), raising at the first value `float` rejects, then zeroes the
      * missing values of the zeroed kinds. */
    method PopulateInitialData(records: Records) returns (r: Result<()>)
      requires Valid()
      modifies this, variables.Values
      ensures Falsy(records) ==> r == Err(ValueError("No data provided to populate_initial_data"))
                                 && Values() == old(Values()) && frame == old(frame)
      ensures !Falsy(records) ==>
                var rows := Normalize(records).value;
                var last := rows[|rows| - 1].data;
                var c := Conversions(last, variables.Keys);
                frame == Some(BuildFrame(rows))
                && r == (if c.error.Some? then Err(c.error.value) else Ok(()))
                && forall id :: id in variables ==>
                     variables[id].State() == if c.error.Some? then Assigned(old(variables[id].State()), id, c.applied)
                                              else Populated(old(variables[id].State()), variables[id].varType, id, c.applied)
      ensures dynamicBounds == old(dynamicBounds) && solverConstraints == old(solverConstraints)
    {
      var rows := Normalize(records);
      if rows.Err? {
        return Err(rows.error);
      }
      r := Populate(rows.value);
    }

    /** `populate_initial_data` on normalised, non-empty records: the snapshot is stored before the
      * variables are set, so a rejected value leaves it in place. */
    method Populate(rows: seq<RecordRow>) returns (r: Result<()>)
      requires Valid() && |rows| > 0
      modifies this, variables.Values
      ensures frame == Some(BuildFrame(rows))
      ensures var last := rows[|rows| - 1].data; var c := Conversions(last, variables.Keys);
              r == (if c.error.Some? then Err(c.error.value) else Ok(()))
              && forall id :: id in variables ==>
                   variables[id].State() == if c.error.Some? then Assigned(old(variables[id].State()), id, c.applied)
                                            else Populated(old(variables[id].State()), variables[id].varType, id, c.applied)
      ensures dynamicBounds == old(dynamicBounds) && solverConstraints == old(solverConstraints)
    {
      frame := Some(BuildFrame(rows));
      var last := rows[|rows| - 1].data;
      r := AssignFromRecord(last);
      if r.Err? {
        return;
      }
      ZeroMissingValues();
    }

    /** The first pass of `populate_initial_data`: the keys of the record, in order, that name a
      * variable set its three values to `float` of the value; the first value `float` rejects
      * raises, leaving the variables before it set; other keys are ignored. */
    method AssignFromRecord(last: Dict<Json>) returns (r: Result<()>)
      requires Valid()
      modifies variables.Values
      ensures var c := Conversions(last, variables.Keys);
              r == (if c.error.Some? then Err(c.error.value) else Ok(()))
              && forall id :: id in variables ==> variables[id].State() == Assigned(old(variables[id].State()), id, c.applied)
      ensures unchanged(this)
    {
      ghost var floats := Floats(last);
      ghost var known := variables.Keys;
      ghost var before := Values();
      var i := 0;
      while i < |last.keys|
        invariant 0 <= i <= |last.keys|
        invariant ConversionsUpTo(floats, i, known).error.None?
        invariant forall id :: id in variables ==>
          variables[id].State() == Assigned(before[id], id, ConversionsUpTo(floats, i, known).applied)
      {
        var k := last.keys[i];
        ConversionsNext(floats, i, known);
        if HasVariable(k) {
          var x := ToFloat(last.m[k]);
          assert floats.m[k] == x;
          if x.Err? {
            ConversionsFail(floats, i, known);
            assert Conversions(last, known) == ConversionsUpTo(floats, |last.keys|, known);
            return Err(x.error);
          }
          AssignKey(k, x.value, before, ConversionsUpTo(floats, i, known).applied);
        }
        i := i + 1;
      }
      assert Conversions(last, known) == ConversionsUpTo(floats, i, known);
      r := Ok(());
    }

    /** One known key of the first pass: its variable takes the key's value, and the others keep
      * what the earlier keys `applied` gave them. */
    method AssignKey(k: string, value: real, ghost before: map<string, VarState>, ghost applied: map<string, real>)
      requires Valid() && k in variables && variables.Keys <= before.Keys
      requires forall id :: id in variables ==> variables[id].State() == Assigned(before[id], id, applied)
      modifies variables.Values
      ensures forall id :: id in variables ==> variables[id].State() == Assigned(before[id], id, applied[k := value])
    {
      SetInitialValueOf(k, value);
    }

    /** `get_variable(id).set_initial_value(value)`: that variable's three values become `value`,
      * and no other variable changes. */
    method SetInitialValueOf(id: string, value: real)
      requires Valid() && id in variables
      modifies variables[id]
      ensures forall k :: k in variables ==>
                variables[k].State() == if k == id then VarState(Some(value), Some(value), Some(value)) else old(variables[k].State())
    {
      variables[id].SetInitialValue(value);
      assert forall k :: k in variables && k != id ==> variables[k] != variables[id];
    }

    /** The second pass of `populate_initial_data`: a variable of a zeroed kind with no current value
      * gets 0.0 as its current, decision and recommended value. */
    method ZeroMissingValues()
      requires Valid()
      modifies variables.Values
      ensures forall id :: id in variables ==> variables[id].State() == Zeroed(old(variables[id].State()), variables[id].varType)
      ensures unchanged(this)
    {
      var i := 0;
      while i < |ids|
        invariant 0 <= i <= |ids|
        invariant forall id :: id in variables ==>
          variables[id].State() == if id in ids[..i] then Zeroed(old(variables[id].State()), variables[id].varType)
                                   else old(variables[id].State())
      {
        var v := variables[ids[i]];
        if v.current.None? {
          if v.varType in [Some("Delta"), Some("Predicted"), Some("Constraint"), Some("CalculatedKPI")] {
            v.current, v.dof, v.recommended := Some(0.0), Some(0.0), Some(0.0);
          } else if v.varType == Some("Calculated") {
            v.current, v.dof, v.recommended := Some(0.0), Some(0.0), Some(0.0);
          }
        }
        i := i + 1;
      }
      assert forall id :: id in variables ==> id in ids[..i];
    }

    /** `get_variable(id).dof_value = value`: only that variable's decision value changes. */
    method SetDof(id: string, value: Option<real>)
      requires Valid() && id in variables
      modifies variables[id]
      ensures Values() == old(Values())[id := old(Values())[id].(dof := value)]
    {
      variables[id].dof := value;
      assert forall k :: k in variables && k != id ==> variables[k] != variables[id];
    }

    /** Several fields of one variable written at once: only that variable's values change. */
    method SetState(id: string, st: VarState)
      requires Valid() && id in variables
      modifies variables[id]
      ensures Values() == old(Values())[id := st]
    {
      variables[id].current := st.current;
      variables[id].dof := st.dof;
      variables[id].recommended := st.recommended;
      assert forall k :: k in variables && k != id ==> variables[k] != variables[id];
    }

    /** `set_dataframe`. */
    method SetDataframe(f: Option<Frame>)
      modifies this
      ensures frame == f
      ensures dynamicBounds == old(dynamicBounds) && solverConstraints == old(solverConstraints)
    {
      frame := f;
    }

    /** `set_dynamic_bounds`: replaces the whole map; None (or an empty map) stores `{}`. */
    method SetDynamicBounds(b: Option<map<string, BoundPair>>)
      modifies this
      ensures dynamicBounds == (if b.Some? then b.value else map[])
      ensures frame == old(frame) && solverConstraints == old(solverConstraints)
    {
      dynamicBounds := if b.Some? then b.value else map[];
    }

    /** `set_solver_constraints`: replaces the whole list; None stores `[]`. */
    method SetSolverConstraints(cs: Option<seq<SolverConstraint>>)
      modifies this
      ensures solverConstraints == (if cs.Some? then cs.value else [])
      ensures frame == old(frame) && dynamicBounds == old(dynamicBounds)
    {
      solverConstraints := if cs.Some? then cs.value else [];
    }
  }
}
