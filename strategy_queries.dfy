/** What the strategy derives from its configuration alone (src/task/math_optimizer/strategy/strategy.py
  * and src/strategy/strategy.py): the variable ids of each kind, the inputs the pre-calculation task
  * fixes, the ids the optimizer may move, the raw inputs of the calculated variables, and the
  * lag/offset extremes of the inference features. */
module StrategyQueries {
  import opened Wrappers
  import opened Dicts
  import opened Config

  /** The ids whose configured `type` is `t`, in configuration order, or the `KeyError` of a
    * variable without a `type` key (the comprehension reads every entry); a `null` type equals no
    * kind. */
  function IdsOfType(vars: Dict<VariableConfig>, t: string): (r: Result<seq<string>>)
    ensures r.Ok? <==> forall id :: id in vars.m ==> !vars.m[id].varType.Absent?
    ensures r.Err? ==> r.error == KeyError("type")
  {
    if forall id :: id in vars.m ==> !vars.m[id].varType.Absent? then Ok(Matching(vars.keys, vars.m, t))
    else Err(KeyError("type"))
  }

  /** The keys, in order, whose entry has type `t`. */
  function Matching(keys: seq<string>, m: map<string, VariableConfig>, t: string): (r: seq<string>)
    requires forall k :: k in keys ==> k in m
  {
    if |keys| == 0 then []
    else
      var n := |keys| - 1;
      Matching(keys[..n], m, t) + (if m[keys[n]].varType == Given(t) then [keys[n]] else [])
  }

  /** The ids of one kind are exactly the configured ids of that kind. */
  lemma {:induction false} MatchingMembers(keys: seq<string>, m: map<string, VariableConfig>, t: string)
    requires forall k :: k in keys ==> k in m
    ensures forall id :: id in Matching(keys, m, t) <==> id in keys && m[id].varType == Given(t)
  {
    if |keys| > 0 {
      var n := |keys| - 1;
      assert forall k :: k in keys <==> k in keys[..n] || k == keys[n] by {
        assert keys == keys[..n] + [keys[n]];
      }
      MatchingMembers(keys[..n], m, t);
    }
  }

  /** Each id of a kind is listed once. */
  lemma {:induction false} MatchingDistinct(keys: seq<string>, m: map<string, VariableConfig>, t: string)
    requires forall k :: k in keys ==> k in m
    requires Distinct(keys)
    ensures Distinct(Matching(keys, m, t))
  {
    if |keys| > 0 {
      var n := |keys| - 1;
      assert forall i, j :: 0 <= i < j < n ==> keys[..n][i] != keys[..n][j];
      MatchingDistinct(keys[..n], m, t);
      MatchingMembers(keys[..n], m, t);
      assert keys[n] !in keys[..n];
    }
  }

  /** A variable whose `type` is `null` does not make the queries raise, and is of no kind. */
  lemma NullTypeNoKind(vars: Dict<VariableConfig>, t: string, id: string)
    requires forall k :: k in vars.m && k != id ==> !vars.m[k].varType.Absent?
    requires id in vars.m && vars.m[id].varType.Null?
    ensures IdsOfType(vars, t).Ok? && id !in IdsOfType(vars, t).value
  {
    MatchingMembers(vars.keys, vars.m, t);
  }

  /** The id lists of two different kinds share no id. */
  lemma KindsDisjoint(vars: Dict<VariableConfig>, t1: string, t2: string)
    requires t1 != t2
    requires IdsOfType(vars, t1).Ok?
    ensures IdsOfType(vars, t2).Ok?
    ensures forall id :: !(id in IdsOfType(vars, t1).value && id in IdsOfType(vars, t2).value)
  {
    MatchingMembers(vars.keys, vars.m, t1);
    MatchingMembers(vars.keys, vars.m, t2);
  }

  /** The first task of a name, as the `for ... break` search finds it. */
  function FirstTaskNamed(tasks: seq<TaskConfig>, name: string): (r: Option<TaskConfig>)
    ensures r.Some? ==> r.value in tasks && r.value.name == name
    ensures r.None? <==> forall t :: t in tasks ==> t.name != name
  {
    if |tasks| == 0 then None
    else if tasks[0].name == name then Some(tasks[0])
    else FirstTaskNamed(tasks[1..], name)
  }

  const PreCalc := "PreCalculateVariables"

  /** A skill entry that reads as false: an empty dict. */
  predicate EmptyEntry(c: SkillConfig) {
    c.className.Absent? && c.inputs.Absent? && c.outputs.Absent? && c.block.Absent?
  }

  /** The inputs of the listed skills, unioned: unknown names and empty entries add nothing, a
    * `null` input list raises `TypeError`. */
  function InputsOf(names: seq<string>, skills: Dict<SkillConfig>): (r: Result<set<string>>)
    ensures r.Ok? <==> forall n :: n in names && n in skills.m && !EmptyEntry(skills.m[n]) ==> !skills.m[n].inputs.Null?
    ensures r.Ok? ==> forall v :: v in r.value <==>
              exists n :: n in names && n in skills.m && skills.m[n].inputs.Given? && v in skills.m[n].inputs.value
    ensures r.Err? ==> r.error == TypeError("'NoneType' object is not iterable")
  {
    if |names| == 0 then Ok({})
    else
      var n := |names| - 1;
      var name := names[n];
      assert forall x :: x in names <==> x in names[..n] || x == name by {
        assert names == names[..n] + [name];
      }
      match InputsOf(names[..n], skills)
      case Err(e) => Err(e)
      case Ok(acc) =>
        if name !in skills.m || EmptyEntry(skills.m[name]) then Ok(acc)
        else match skills.m[name].inputs
          case Absent => Ok(acc)
          case Null => Err(TypeError("'NoneType' object is not iterable"))
          case Given(l) => Ok(acc + set v | v in l)
  }

  /** `get_fixed_input_variable_ids`: the inputs of the skills the first pre-calculation task lists
    * (absent `skill_sequence` reads as `[]`, `null` raises); nothing without such a task. The
    * result is a set: the code returns `list(set)`, whose order Python leaves unspecified. */
  function FixedInputs(cfg: StrategyConfig): (r: Result<set<string>>)
    ensures FirstTaskNamed(cfg.tasks, PreCalc).None? ==> r == Ok({})
  {
    match FirstTaskNamed(cfg.tasks, PreCalc)
    case None => Ok({})
    case Some(task) =>
      match task.skillSequence
      case Absent => Ok({})
      case Null => Err(TypeError("'NoneType' object is not iterable"))
      case Given(names) => InputsOf(names, cfg.skills)
  }

  /** The optimizable ids: the calculated ids in configuration order, followed by the operative ids
    * the pre-calculation does not fix (a set, in unspecified order). */
  datatype Optimizable = Optimizable(calculated: seq<string>, remaining: set<string>) {
    function Members(): set<string> {
      (set v | v in calculated) + remaining
    }
  }

  /** `get_optimizable_variable_ids`. */
  function OptimizableIds(cfg: StrategyConfig): (r: Result<Optimizable>)
  {
    match IdsOfType(cfg.variables, "Calculated")
    case Err(e) => Err(e)
    case Ok(calcIds) =>
      match FixedInputs(cfg)
      case Err(e) => Err(e)
      case Ok(fixed) =>
        var operative := IdsOfType(cfg.variables, "Operative").value;
        Ok(Optimizable(calcIds, (set v | v in operative) - fixed))
  }

  /** The optimizable ids are the calculated ones and the operative ones the pre-calculation task
    * does not fix; no fixed input is among the operative part, and the list has no duplicate. */
  lemma OptimizableSpec(cfg: StrategyConfig)
    requires OptimizableIds(cfg).Ok?
    ensures var o := OptimizableIds(cfg).value;
            var fixed := FixedInputs(cfg).value;
            (forall v :: v in o.Members() <==>
               v in cfg.variables.m
               && (cfg.variables.m[v].varType == Given("Calculated")
                   || (cfg.variables.m[v].varType == Given("Operative") && v !in fixed)))
            && (forall v :: v in o.remaining ==> v !in fixed)
            && Distinct(o.calculated)
            && (forall v :: v in o.calculated ==> v !in o.remaining)
  {
    MatchingMembers(cfg.variables.keys, cfg.variables.m, "Calculated");
    MatchingDistinct(cfg.variables.keys, cfg.variables.m, "Calculated");
    MatchingMembers(cfg.variables.keys, cfg.variables.m, "Operative");
  }

  /** For each calculated id some math function outputs, the inputs of the last such function (the
    * map is overwritten in skill order); `class` is required (a `null` class is no math function), a
    * `null` output list raises, a `null` input list is stored as None. */
  function CalcInputs(keys: seq<string>, skills: map<string, SkillConfig>, calcIds: seq<string>): (r: Result<map<string, Option<seq<string>>>>)
    requires forall k :: k in keys ==> k in skills
    ensures r.Ok? ==> forall o :: o in r.value ==>
              o in calcIds && exists k :: k in keys && skills[k].className == Given("MathFunction")
                                       && skills[k].outputs.Given? && o in skills[k].outputs.value
                                       && r.value[o] == GetListOrEmpty(skills[k].inputs)
  {
    if |keys| == 0 then Ok(map[])
    else
      var n := |keys| - 1;
      var k := keys[n];
      assert forall x :: x in keys[..n] ==> x in keys;
      match CalcInputs(keys[..n], skills, calcIds)
      case Err(e) => Err(e)
      case Ok(m) =>
        var c := skills[k];
        if c.className.Absent? then Err(KeyError("class"))
        else if c.className != Given("MathFunction") then Ok(m)
        else match GetListOrEmpty(c.outputs)
          case None => Err(TypeError("'NoneType' object is not iterable"))
          case Some(outs) => Ok(Record(m, outs, calcIds, GetListOrEmpty(c.inputs)))
  }

  /** Skill `c` is a math function that lists `o` among its outputs. */
  predicate Writes(c: SkillConfig, o: string) {
    c.className == Given("MathFunction") && c.outputs.Given? && o in c.outputs.value
  }

  /** The position of the last skill, in configuration order, that is a math function listing `o`
    * among its outputs. */
  function LastWriter(keys: seq<string>, skills: map<string, SkillConfig>, o: string): (w: Option<nat>)
    requires forall k :: k in keys ==> k in skills
    ensures w.Some? ==> w.value < |keys| && Writes(skills[keys[w.value]], o)
                        && forall j :: w.value < j < |keys| ==> !Writes(skills[keys[j]], o)
    ensures w.None? ==> forall j :: 0 <= j < |keys| ==> !Writes(skills[keys[j]], o)
  {
    if |keys| == 0 then None
    else if Writes(skills[keys[|keys| - 1]], o) then Some(|keys| - 1)
    else
      assert forall x :: x in keys[..|keys| - 1] ==> x in keys;
      LastWriter(keys[..|keys| - 1], skills, o)
  }

  /** The converse of `CalcInputs`'s contract: every calculated output of a math function is
    * recorded, and with the inputs of the last math function listing it, since later skills
    * overwrite earlier ones. */
  lemma {:induction false} CalcInputsLast(keys: seq<string>, skills: map<string, SkillConfig>, calcIds: seq<string>, o: string)
    requires forall k :: k in keys ==> k in skills
    requires CalcInputs(keys, skills, calcIds).Ok?
    ensures var m := CalcInputs(keys, skills, calcIds).value;
            var w := LastWriter(keys, skills, o);
            (o in m <==> o in calcIds && w.Some?)
            && (o in m ==> m[o] == GetListOrEmpty(skills[keys[w.value]].inputs))
  {
    if |keys| > 0 {
      var n := |keys| - 1;
      var init := keys[..n];
      assert forall x :: x in init ==> x in keys;
      var c := skills[keys[n]];
      CalcInputsStep(keys, skills, calcIds);
      var m0 := CalcInputs(init, skills, calcIds).value;
      var m := CalcInputs(keys, skills, calcIds).value;
      CalcInputsLast(init, skills, calcIds, o);
      LastWriterStep(keys, skills, o);
      if c.className == Given("MathFunction") {
        var outs := GetListOrEmpty(c.outputs).value;
        assert o in outs <==> Writes(c, o);
        assert o in m <==> o in m0 || (o in outs && o in calcIds);
      }
    }
  }

  /** One more skill of the recording loop: a math function records its calculated outputs over
    * what the earlier skills recorded; any other skill changes nothing. */
  lemma CalcInputsStep(keys: seq<string>, skills: map<string, SkillConfig>, calcIds: seq<string>)
    requires forall k :: k in keys ==> k in skills
    requires |keys| > 0 && CalcInputs(keys, skills, calcIds).Ok?
    ensures var init := keys[..|keys| - 1]; var c := skills[keys[|keys| - 1]];
            (forall k :: k in init ==> k in skills)
            && CalcInputs(init, skills, calcIds).Ok?
            && (c.className == Given("MathFunction") ==> GetListOrEmpty(c.outputs).Some?)
            && CalcInputs(keys, skills, calcIds).value
               == (if c.className == Given("MathFunction")
                   then Record(CalcInputs(init, skills, calcIds).value, GetListOrEmpty(c.outputs).value, calcIds, GetListOrEmpty(c.inputs))
                   else CalcInputs(init, skills, calcIds).value)
  {
    assert forall x :: x in keys[..|keys| - 1] ==> x in keys;
  }

  /** The last writer among one more skill: that skill when it writes `o`, the earlier last writer
    * otherwise. */
  lemma LastWriterStep(keys: seq<string>, skills: map<string, SkillConfig>, o: string)
    requires forall k :: k in keys ==> k in skills
    requires |keys| > 0
    ensures var n := |keys| - 1; var init := keys[..n];
            (forall k :: k in init ==> k in skills)
            && (LastWriter(init, skills, o).Some? ==> keys[LastWriter(init, skills, o).value] == init[LastWriter(init, skills, o).value])
            && LastWriter(keys, skills, o) == (if Writes(skills[keys[n]], o) then Some(n) else LastWriter(init, skills, o))
  {
    assert forall x :: x in keys[..|keys| - 1] ==> x in keys;
  }

  /** `m[o] = inputs` for every listed output that is calculated. */
  function Record(m: map<string, Option<seq<string>>>, outs: seq<string>, calcIds: seq<string>, inputs: Option<seq<string>>): (r: map<string, Option<seq<string>>>)
    ensures forall o :: o in r <==> o in m || (o in outs && o in calcIds)
    ensures forall o :: o in r ==> if o in outs && o in calcIds then r[o] == inputs else r[o] == m[o]
  {
    if |outs| == 0 then m
    else
      var n := |outs| - 1;
      var rest := Record(m, outs[..n], calcIds, inputs);
      assert forall x :: x in outs <==> x in outs[..n] || x == outs[n] by {
        assert outs == outs[..n] + [outs[n]];
      }
      if outs[n] in calcIds then rest[outs[n] := inputs] else rest
  }

  /** The inputs of the calculated ids in order, with repetitions; iterating a None list raises. */
  function Flattened(calcIds: seq<string>, m: map<string, Option<seq<string>>>): (r: Result<seq<string>>)
    ensures r.Ok? ==> forall x :: x in r.value <==> exists v :: v in calcIds && v in m && m[v].Some? && x in m[v].value
  {
    if |calcIds| == 0 then Ok([])
    else
      var n := |calcIds| - 1;
      var v := calcIds[n];
      assert forall x :: x in calcIds <==> x in calcIds[..n] || x == v by {
        assert calcIds == calcIds[..n] + [v];
      }
      match Flattened(calcIds[..n], m)
      case Err(e) => Err(e)
      case Ok(xs) =>
        if v !in m then Ok(xs)
        else if m[v].None? then Err(TypeError("'NoneType' object is not iterable"))
        else Ok(xs + m[v].value)
  }

  /** Each element once, at its first occurrence. */
  function Dedup(xs: seq<string>): (r: seq<string>)
    ensures forall x :: x in r <==> x in xs
  {
    if |xs| == 0 then []
    else
      var n := |xs| - 1;
      var prev := Dedup(xs[..n]);
      assert forall x :: x in xs <==> x in xs[..n] || x == xs[n] by {
        assert xs == xs[..n] + [xs[n]];
      }
      if xs[n] in prev then prev else prev + [xs[n]]
  }

  /** The deduplicated list has no repetition, and it only grows as the input grows, so every
    * element keeps the place of its first occurrence. */
  lemma {:induction false} DedupSpec(xs: seq<string>, k: nat)
    requires k <= |xs|
    ensures Distinct(Dedup(xs))
    ensures Dedup(xs[..k]) <= Dedup(xs)
    decreases |xs|
  {
    if |xs| > 0 {
      var n := |xs| - 1;
      if k <= n {
        assert xs[..n][..k] == xs[..k];
        DedupSpec(xs[..n], k);
      } else {
        assert xs[..k] == xs;
        DedupSpec(xs[..n], n);
      }
    }
  }

  /** `get_raw_vars_from_calculated_vars` before its dedupe loop. */
  function RawCandidates(cfg: StrategyConfig): (r: Result<seq<string>>)
  {
    match IdsOfType(cfg.variables, "Calculated")
    case Err(e) => Err(e)
    case Ok(calcIds) =>
      match CalcInputs(cfg.skills.keys, cfg.skills.m, calcIds)
      case Err(e) => Err(e)
      case Ok(m) => Flattened(calcIds, m)
  }

  /** Every raw variable is an input of a math function that outputs a calculated variable. */
  lemma RawCandidatesSource(cfg: StrategyConfig, x: string)
    requires RawCandidates(cfg).Ok? && x in RawCandidates(cfg).value
    ensures exists k :: k in cfg.skills.m && cfg.skills.m[k].className == Given("MathFunction")
                        && cfg.skills.m[k].outputs.Given? && cfg.skills.m[k].inputs.Given?
                        && x in cfg.skills.m[k].inputs.value
                        && exists o :: o in cfg.skills.m[k].outputs.value && o in IdsOfType(cfg.variables, "Calculated").value
  {
    var calcIds := IdsOfType(cfg.variables, "Calculated").value;
    var m := CalcInputs(cfg.skills.keys, cfg.skills.m, calcIds).value;
    var v :| v in calcIds && v in m && m[v].Some? && x in m[v].value;
    var k :| k in cfg.skills.keys && cfg.skills.m[k].className == Given("MathFunction")
             && cfg.skills.m[k].outputs.Given? && v in cfg.skills.m[k].outputs.value
             && m[v] == GetListOrEmpty(cfg.skills.m[k].inputs);
  }

  /** The raw variables are exactly the inputs of the math function recorded for some calculated
    * id: the last math function, in configuration order, that lists it as an output. */
  lemma RawCandidatesExactly(cfg: StrategyConfig, x: string)
    requires RawCandidates(cfg).Ok?
    ensures var calcIds := IdsOfType(cfg.variables, "Calculated").value;
            x in RawCandidates(cfg).value
            <==> exists v :: v in calcIds && LastWriter(cfg.skills.keys, cfg.skills.m, v).Some?
                             && var c := cfg.skills.m[cfg.skills.keys[LastWriter(cfg.skills.keys, cfg.skills.m, v).value]];
                                c.inputs.Given? && x in c.inputs.value
  {
    var calcIds := IdsOfType(cfg.variables, "Calculated").value;
    var m := CalcInputs(cfg.skills.keys, cfg.skills.m, calcIds).value;
    forall v | v in calcIds
      ensures (v in m && m[v].Some? && x in m[v].value)
              <==> (LastWriter(cfg.skills.keys, cfg.skills.m, v).Some?
                    && var c := cfg.skills.m[cfg.skills.keys[LastWriter(cfg.skills.keys, cfg.skills.m, v).value]];
                       c.inputs.Given? && x in c.inputs.value)
    {
      CalcInputsFeed(cfg.skills.keys, cfg.skills.m, calcIds, v, x);
    }
  }

  /** A calculated id's recorded inputs hold `x` exactly when its last writer takes `x` as input. */
  lemma CalcInputsFeed(keys: seq<string>, skills: map<string, SkillConfig>, calcIds: seq<string>, v: string, x: string)
    requires forall k :: k in keys ==> k in skills
    requires CalcInputs(keys, skills, calcIds).Ok? && v in calcIds
    ensures var m := CalcInputs(keys, skills, calcIds).value;
            (v in m && m[v].Some? && x in m[v].value)
            <==> (LastWriter(keys, skills, v).Some?
                  && var c := skills[keys[LastWriter(keys, skills, v).value]]; c.inputs.Given? && x in c.inputs.value)
  {
    CalcInputsLast(keys, skills, calcIds, v);
  }

  /** The dedupe loop of `get_raw_vars_from_calculated_vars`, with its `seen` set. */
  method RawVars(cfg: StrategyConfig) returns (r: Result<seq<string>>)
    ensures RawCandidates(cfg).Err? ==> r == Err(RawCandidates(cfg).error)
    ensures RawCandidates(cfg).Ok? ==> r == Ok(Dedup(RawCandidates(cfg).value))
  {
    var candidates := RawCandidates(cfg);
    if candidates.Err? {
      return Err(candidates.error);
    }
    var xs := candidates.value;
    var required: seq<string> := [];
    var seen: set<string> := {};
    var i := 0;
    while i < |xs|
      invariant 0 <= i <= |xs|
      invariant required == Dedup(xs[..i])
      invariant seen == set x | x in required
    {
      assert xs[..i + 1][..i] == xs[..i];
      if xs[i] !in seen {
        seen := seen + {xs[i]};
        required := required + [xs[i]];
      }
      i := i + 1;
    }
    assert xs[..i] == xs;
    return Ok(required);
  }

  /** Two results in sequence: the first error, or both lists concatenated. */
  function Then(a: Result<seq<(int, int)>>, b: Result<seq<(int, int)>>): (r: Result<seq<(int, int)>>)
    ensures a.Err? ==> r == a
    ensures a.Ok? && b.Err? ==> r == b
    ensures a.Ok? && b.Ok? ==> r == Ok(a.value + b.value)
  {
    if a.Err? then a else if b.Err? then b else Ok(a.value + b.value)
  }

  /** `(lag, lag + offset)` of one `lag_offset` value: none for a value that is not a dict, and the
    * `TypeError` of `lag + offset` when either is `null`. */
  function EntryWindow(e: LagOffsetEntry): Result<seq<(int, int)>> {
    match e
    case EntryNotADict => Ok([])
    case Params(_, _, _) =>
      match LagAndOffset(e)
      case Err(x) => Err(x)
      case Ok((lag, offset)) => Ok([(lag, lag + offset)])
  }

  /** The windows of the first `n` entries of a dict block, in order, or the first entry's error. */
  function EntryWindowsUpTo(entries: Dict<LagOffsetEntry>, n: nat): Result<seq<(int, int)>>
    requires n <= |entries.keys|
  {
    if n == 0 then Ok([]) else Then(EntryWindowsUpTo(entries, n - 1), EntryWindow(entries.m[entries.keys[n - 1]]))
  }

  /** The windows of all the entries of a dict block. */
  function EntryWindows(entries: Dict<LagOffsetEntry>): Result<seq<(int, int)>> {
    EntryWindowsUpTo(entries, |entries.keys|)
  }

  /** The windows of one skill: only an inference model with a `feature_engineering` block whose
    * `lag_offset` is a dict contributes (a missing or `null` block is skipped); `.get` on a `null`
    * `config` raises `AttributeError`. */
  function SkillWindows(c: SkillConfig): Result<seq<(int, int)>> {
    if c.className != Given("InferenceModel") then Ok([])
    else match c.block
      case Absent => Ok([])
      case Null => Err(AttributeError("'NoneType' object has no attribute 'get'"))
      case Given(b) =>
        match b.featureEngineering
        case Given(fe) =>
          (match fe.lagOffset
           case Given(Block(entries)) => EntryWindows(entries)
           case _ => Ok([]))
        case _ => Ok([])
  }

  /** The windows of the first `n` skills in configuration order, or the first error. */
  function AllWindowsUpTo(skills: Dict<SkillConfig>, n: nat): Result<seq<(int, int)>>
    requires n <= |skills.keys|
  {
    if n == 0 then Ok([]) else Then(AllWindowsUpTo(skills, n - 1), SkillWindows(skills.m[skills.keys[n - 1]]))
  }

  /** The windows of every skill. */
  function AllWindows(skills: Dict<SkillConfig>): Result<seq<(int, int)>> {
    AllWindowsUpTo(skills, |skills.keys|)
  }

  /** One update of the two accumulators. */
  function Step(acc: Option<(int, int)>, w: (int, int)): Option<(int, int)> {
    match acc
    case None => Some(w)
    case Some((lo, hi)) => Some((if w.0 < lo then w.0 else lo, if w.1 > hi then w.1 else hi))
  }

  /** The accumulators after the windows `ws`. */
  function Extremes(ws: seq<(int, int)>): Option<(int, int)> {
    if |ws| == 0 then None else Step(Extremes(ws[..|ws| - 1]), ws[|ws| - 1])
  }

  /** Without a window the result is `(None, None)`; otherwise the minimum lag and the maximum
    * window, both attained. */
  lemma {:induction false} ExtremesSpec(ws: seq<(int, int)>)
    ensures Extremes(ws).None? <==> |ws| == 0
    ensures Extremes(ws).Some? ==>
              var (lo, hi) := Extremes(ws).value;
              (forall i :: 0 <= i < |ws| ==> lo <= ws[i].0 && ws[i].1 <= hi)
              && (exists i :: 0 <= i < |ws| && ws[i].0 == lo)
              && (exists j :: 0 <= j < |ws| && ws[j].1 == hi)
  {
    if |ws| > 0 {
      var n := |ws| - 1;
      ExtremesSpec(ws[..n]);
      assert forall i :: 0 <= i < n ==> ws[..n][i] == ws[i];
      if n > 0 {
        var (lo, hi) := Extremes(ws[..n]).value;
        var i :| 0 <= i < n && ws[..n][i].0 == lo;
        var j :| 0 <= j < n && ws[..n][j].1 == hi;
      }
    }
  }

  /** A `null` lag or offset anywhere in a dict block of an inference model makes the query raise. */
  lemma {:induction false} NullLagRaises(entries: Dict<LagOffsetEntry>, j: nat)
    requires j < |entries.keys|
    requires var e := entries.m[entries.keys[j]]; e.Params? && (e.lag.Null? || e.offset.Null?)
    ensures EntryWindows(entries).Err?
  {
    assert EntryWindowsUpTo(entries, j + 1).Err?;
    EntryWindowsErrPersists(entries, j + 1, |entries.keys|);
  }

  /** An inference model whose `config` is `null` makes the query raise. */
  lemma {:induction false} NullConfigRaises(skills: Dict<SkillConfig>, j: nat)
    requires j < |skills.keys|
    requires var c := skills.m[skills.keys[j]]; c.className == Given("InferenceModel") && c.block.Null?
    ensures AllWindows(skills).Err?
  {
    assert AllWindowsUpTo(skills, j + 1).Err?;
    AllWindowsErrPersists(skills, j + 1, |skills.keys|);
  }

  /** `get_lag_offset_bounds` of the current engine, with its two nested loops: the extremes of the
    * windows, or the `TypeError` of the first `null` lag or offset. */
  method LagOffsetBounds(cfg: StrategyConfig) returns (r: Result<Option<(int, int)>>)
    ensures AllWindows(cfg.skills).Err? ==> r == Err(AllWindows(cfg.skills).error)
    ensures AllWindows(cfg.skills).Ok? ==> r == Ok(Extremes(AllWindows(cfg.skills).value))
  {
    var skills := cfg.skills;
    var acc: Option<(int, int)> := None;
    var i := 0;
    while i < |skills.keys|
      invariant 0 <= i <= |skills.keys|
      invariant AllWindowsUpTo(skills, i).Ok?
      invariant acc == Extremes(AllWindowsUpTo(skills, i).value)
    {
      ghost var before := AllWindowsUpTo(skills, i).value;
      var next := Scan(acc, skills.m[skills.keys[i]], before);
      if next.Err? {
        AllWindowsErrPersists(skills, i + 1, |skills.keys|);
        return Err(next.error);
      }
      acc := next.value;
      i := i + 1;
    }
    return Ok(acc);
  }

  /** Once the skills up to some point fail, the query fails with that error. */
  lemma {:induction false} AllWindowsErrPersists(skills: Dict<SkillConfig>, n: nat, m: nat)
    requires n <= m <= |skills.keys| && AllWindowsUpTo(skills, n).Err?
    ensures AllWindowsUpTo(skills, m) == AllWindowsUpTo(skills, n)
    decreases m
  {
    if n < m {
      AllWindowsErrPersists(skills, n, m - 1);
    }
  }

  /** Once the entries up to some point fail, the block fails with that error. */
  lemma {:induction false} EntryWindowsErrPersists(entries: Dict<LagOffsetEntry>, n: nat, m: nat)
    requires n <= m <= |entries.keys| && EntryWindowsUpTo(entries, n).Err?
    ensures EntryWindowsUpTo(entries, m) == EntryWindowsUpTo(entries, n)
    decreases m
  {
    if n < m {
      EntryWindowsErrPersists(entries, n, m - 1);
    }
  }

  /** One more entry whose lag and offset are not `null` adds its window. */
  lemma {:induction false} EntryWindowsNext(entries: Dict<LagOffsetEntry>, j: nat)
    requires j < |entries.keys| && EntryWindowsUpTo(entries, j).Ok?
    requires var e := entries.m[entries.keys[j]]; e.Params? && LagAndOffset(e).Ok?
    ensures var (lag, offset) := LagAndOffset(entries.m[entries.keys[j]]).value;
            EntryWindowsUpTo(entries, j + 1) == Ok(EntryWindowsUpTo(entries, j).value + [(lag, lag + offset)])
  {
  }

  /** The inner loop over one skill's `lag_offset` entries. */
  method Scan(acc: Option<(int, int)>, c: SkillConfig, ghost before: seq<(int, int)>) returns (r: Result<Option<(int, int)>>)
    requires acc == Extremes(before)
    ensures SkillWindows(c).Err? ==> r == Err(SkillWindows(c).error)
    ensures SkillWindows(c).Ok? ==> r == Ok(Extremes(before + SkillWindows(c).value))
  {
    if c.className != Given("InferenceModel") || c.block.Absent? {
      assert before + SkillWindows(c).value == before;
      return Ok(acc);
    }
    if c.block.Null? {
      return Err(AttributeError("'NoneType' object has no attribute 'get'"));
    }
    if !c.block.value.featureEngineering.Given? {
      assert before + SkillWindows(c).value == before;
      return Ok(acc);
    }
    var fe := c.block.value.featureEngineering.value;
    if !fe.lagOffset.Given? || fe.lagOffset.value.BlockNotADict? {
      assert before + SkillWindows(c).value == before;
      return Ok(acc);
    }
    assert SkillWindows(c) == EntryWindows(fe.lagOffset.value.entries);
    r := ScanEntries(acc, fe.lagOffset.value.entries, before);
  }

  /** The inner loop over the entries of one dict `lag_offset` block. */
  method ScanEntries(acc: Option<(int, int)>, entries: Dict<LagOffsetEntry>, ghost before: seq<(int, int)>)
    returns (r: Result<Option<(int, int)>>)
    requires acc == Extremes(before)
    ensures EntryWindows(entries).Err? ==> r == Err(EntryWindows(entries).error)
    ensures EntryWindows(entries).Ok? ==> r == Ok(Extremes(before + EntryWindows(entries).value))
  {
    var cur := acc;
    var j := 0;
    assert before + EntryWindowsUpTo(entries, 0).value == before;
    while j < |entries.keys|
      invariant 0 <= j <= |entries.keys|
      invariant EntryWindowsUpTo(entries, j).Ok?
      invariant cur == Extremes(before + EntryWindowsUpTo(entries, j).value)
    {
      ghost var done := before + EntryWindowsUpTo(entries, j).value;
      var e := entries.m[entries.keys[j]];
      match e {
        case EntryNotADict =>
          assert before + EntryWindowsUpTo(entries, j + 1).value == done;
        case Params(lag, offset, _) =>
          if lag.Null? || offset.Null? {
            EntryWindowsErrPersists(entries, j + 1, |entries.keys|);
            return Err(LagAndOffset(e).error);
          }
          var l := if lag.Given? then lag.value else 0;
          var o := if offset.Given? then offset.value else 0;
          var w := (l, l + o);
          assert LagAndOffset(e) == Ok((l, o));
          EntryWindowsNext(entries, j);
          ghost var prior := EntryWindowsUpTo(entries, j).value;
          assert before + (prior + [w]) == done + [w];
          ExtremesSnoc(done, w);
          cur := Step(cur, w);
      }
      j := j + 1;
    }
    return Ok(cur);
  }

  lemma ExtremesSnoc(ws: seq<(int, int)>, w: (int, int))
    ensures Extremes(ws + [w]) == Step(Extremes(ws), w)
  {
    assert (ws + [w])[..|ws|] == ws;
  }
}
