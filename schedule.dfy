/** What the strategy engine (src/task/math_optimizer/strategy/strategy.py and src/strategy/strategy.py)
  * does, stated on values: the registry `_build_skills` builds or the error it raises, the effect of
  * `_mark_calculated_as_operative`, and the order in which `run_cycle` marks, resolves and runs. */
module Schedules {
  import opened Wrappers
  import opened Dicts
  import opened Config
  import opened Variables
  import opened DataContexts
  import opened Oracles
  import opened Skills
  import opened StrategyQueries

  /** The `Variable` class each lineage's context is built from. */
  function ShapeOf(lineage: Lineage): Shape {
    if lineage == Current then WithHardLimits else Plain
  }

  // ----- _build_skills -----

  /** The class and settings of one skill entry: the class lookup, then the constructor. */
  function Entry(c: SkillConfig, lineage: Lineage, env: Env): (r: Result<(Kind, KindSpec)>)
    ensures r.Ok? ==> ClassLookup(ClassMap(lineage), c.className) == Ok(r.value.0) && Fits(r.value.0, r.value.1)
    ensures ClassLookup(ClassMap(lineage), c.className).Err? ==> r == Err(ClassLookup(ClassMap(lineage), c.className).error)
  {
    match ClassLookup(ClassMap(lineage), c.className)
    case Err(e) => Err(e)
    case Ok(kind) =>
      match SpecOf(kind, lineage, c, env)
      case Err(e) => Err(e)
      case Ok(spec) => Ok((kind, spec))
  }

  /** The first pass over the entries in configuration order: every entry's class and settings, or
    * the error of the first entry that has none. */
  function Entries(keys: seq<string>, cfg: map<string, SkillConfig>, lineage: Lineage, env: Env): (r: Result<map<string, (Kind, KindSpec)>>)
    requires forall k :: k in keys ==> k in cfg
    ensures r.Ok? ==> r.value.Keys == set k | k in keys
    ensures r.Ok? ==> forall k :: k in r.value ==> Entry(cfg[k], lineage, env) == Ok(r.value[k])
    ensures r.Ok? <==> forall k :: k in keys ==> Entry(cfg[k], lineage, env).Ok?
  {
    if |keys| == 0 then Ok(map[])
    else
      var n := |keys| - 1;
      assert forall k :: k in keys <==> k in keys[..n] || k == keys[n] by {
        assert keys == keys[..n] + [keys[n]];
      }
      match Entries(keys[..n], cfg, lineage, env)
      case Err(e) => Err(e)
      case Ok(m) =>
        match Entry(cfg[keys[n]], lineage, env)
        case Err(e) => Err(e)
        case Ok(ks) => Ok(m[keys[n] := ks])
  }

  /** The first name of a list the registry lacks. */
  function FirstMissing(names: seq<string>, registry: set<string>): (r: Option<string>)
    ensures r.None? <==> forall n :: n in names ==> n in registry
    ensures r.Some? ==> r.value in names && r.value !in registry
  {
    if |names| == 0 then None
    else if names[0] !in registry then Some(names[0])
    else FirstMissing(names[1..], registry)
  }

  /** What resolving a composition's `skill_sequence` raises: a null list is not iterable, and
    * otherwise the first name the registry lacks is a `ValueError`. */
  function CompositionError(names: Option<seq<string>>, registry: set<string>): (r: Option<Error>)
    ensures r.None? <==> names.Some? && forall n :: n in names.value ==> n in registry
    ensures names.None? ==> r == Some(TypeError("'NoneType' object is not iterable"))
    ensures names.Some? && r.Some? ==>
              exists n :: n in names.value && n !in registry && r.value == ValueError("Skill '" + n + "' not found in registry")
  {
    if names.None? then Some(TypeError("'NoneType' object is not iterable"))
    else match FirstMissing(names.value, registry)
      case None => None
      case Some(n) => Some(ValueError("Skill '" + n + "' not found in registry"))
  }

  /** The second pass in configuration order: the error of the first composition whose names do
    * not resolve. */
  function Unresolved(keys: seq<string>, entries: map<string, (Kind, KindSpec)>, registry: set<string>): (r: Option<Error>)
    requires forall k :: k in keys ==> k in entries
    ensures r.None? <==> forall k :: k in keys && entries[k].1.CompositionSpec? ==> CompositionError(entries[k].1.names, registry).None?
  {
    if |keys| == 0 then None
    else
      var k := keys[0];
      if entries[k].1.CompositionSpec? && CompositionError(entries[k].1.names, registry).Some? then
        CompositionError(entries[k].1.names, registry)
      else Unresolved(keys[1..], entries, registry)
  }

  /** Which skills `_build_skills` gives the strategy reference: the optimizer, and in the current
    * engine also the constraints skill, whose `execute` needs it to build anything. */
  predicate Injected(kind: Kind, lineage: Lineage) {
    kind == Optimization || (lineage == Current && kind == Constraints)
  }

  /** The error `_build_skills` raises, if any, for the entries `cfg` listed in the order `keys`. */
  function BuildError(keys: seq<string>, cfg: map<string, SkillConfig>, lineage: Lineage, env: Env): Option<Error>
    requires forall k :: k in keys ==> k in cfg
  {
    match Entries(keys, cfg, lineage, env)
    case Err(e) => Some(e)
    case Ok(es) => Unresolved(keys, es, cfg.Keys)
  }

  /** Building fails for a skill whose `class` is missing or not in `SKILL_CLASS_MAP`. */
  lemma BuildRejectsUnknownClass(keys: seq<string>, cfg: map<string, SkillConfig>, lineage: Lineage, env: Env, k: string)
    requires forall k :: k in keys ==> k in cfg
    requires k in keys
    requires !cfg[k].className.Given? || cfg[k].className.value !in ClassMap(lineage)
    ensures BuildError(keys, cfg, lineage, env).Some?
  {
    assert Entry(cfg[k], lineage, env).Err?;
  }

  // ----- _mark_calculated_as_operative -----

  /** The values after marking `id`: a variable with a decision value takes it as its current
    * value. */
  function MarkOne(values: map<string, VarState>, id: string): (r: map<string, VarState>)
    requires id in values
    ensures r.Keys == values.Keys
  {
    var s := values[id];
    values[id := if s.dof.Some? then s.(current := s.dof) else s]
  }

  /** The values after marking `ids` in order. */
  function Marked(values: map<string, VarState>, ids: seq<string>): (r: map<string, VarState>)
    requires forall id :: id in ids ==> id in values
    ensures r.Keys == values.Keys
  {
    if |ids| == 0 then values
    else
      var n := |ids| - 1;
      MarkOne(Marked(values, ids[..n]), ids[n])
  }

  /** A marked variable's current value becomes its decision value when it has one; nothing else
    * changes, and the other variables are untouched. */
  lemma {:induction false} MarkedEffect(values: map<string, VarState>, ids: seq<string>, id: string)
    requires forall v :: v in ids ==> v in values
    requires id in values
    ensures Marked(values, ids)[id] ==
              if id in ids && values[id].dof.Some? then values[id].(current := values[id].dof) else values[id]
  {
    if |ids| > 0 {
      var n := |ids| - 1;
      assert forall v :: v in ids <==> v in ids[..n] || v == ids[n] by {
        assert ids == ids[..n] + [ids[n]];
      }
      MarkedEffect(values, ids[..n], id);
    }
  }

  /** Marking twice is marking once. */
  lemma MarkedIdempotent(values: map<string, VarState>, ids: seq<string>)
    requires forall v :: v in ids ==> v in values
    ensures Marked(Marked(values, ids), ids) == Marked(values, ids)
  {
    var once := Marked(values, ids);
    forall id | id in values
      ensures Marked(once, ids)[id] == once[id]
    {
      MarkedEffect(values, ids, id);
      MarkedEffect(once, ids, id);
    }
  }

  lemma MarkedSnoc(values: map<string, VarState>, ids: seq<string>, i: nat)
    requires i < |ids| && forall v :: v in ids ==> v in values
    ensures forall v :: v in ids[..i] ==> v in values
    ensures Marked(values, ids[..i + 1]) == MarkOne(Marked(values, ids[..i]), ids[i])
  {
    assert ids[..i + 1][..i] == ids[..i];
  }

  /** What the legacy engine looks up after marking: the fixed inputs, then the operative ids that
    * stay operative; both are sets, so the lookup order among them is unspecified. */
  function LegacyLookups(cfg: StrategyConfig): Result<(set<string>, set<string>)> {
    match FixedInputs(cfg)
    case Err(e) => Err(e)
    case Ok(fixed) =>
      match IdsOfType(cfg.variables, "Operative")
      case Err(e) => Err(e)
      case Ok(operative) => Ok((fixed, (set v | v in operative) - fixed))
  }

  // ----- run_cycle -----

  /** One step of a cycle: marking, the dataframe resolution of a pre-calculation math function,
    * running a registered skill, or the configuration error that ends the cycle. */
  datatype Event = Mark | ResolveFrame(skill: string) | Exec(skill: string) | Fail(error: Error)

  predicate Stopped(log: seq<Event>) {
    |log| > 0 && log[|log| - 1].Fail?
  }

  /** The steps for one listed skill. In the current engine a pre-calculation entry that is a math
    * function first resolves its dataframe formula (a non-empty entry without `class` raises
    * `KeyError`); then the skill runs, or `ValueError` ends the cycle if it is not registered. */
  function StepEvents(lineage: Lineage, task: string, name: string, skills: Dict<SkillConfig>): (r: seq<Event>)
    ensures |r| > 0
    ensures r[|r| - 1] == Exec(name) || Stopped(r)
    ensures FailsOnlyAtEnd(r)
  {
    var pre := PreEvents(lineage, task, name, skills);
    if Stopped(pre) then pre
    else if name in skills.m then pre + [Exec(name)]
    else pre + [Fail(ValueError("Skill '" + name + "' in task '" + task + "' not found."))]
  }

  /** The dataframe step before one listed skill runs. */
  function PreEvents(lineage: Lineage, task: string, name: string, skills: Dict<SkillConfig>): (r: seq<Event>)
    ensures |r| <= 1
  {
    if lineage == Current && task == PreCalc && name in skills.m && !EmptyEntry(skills.m[name]) then
      (if skills.m[name].className.Absent? then [Fail(KeyError("class"))]
       else if skills.m[name].className == Given("MathFunction") then [ResolveFrame(name)]
       else [])
    else []
  }

  /** The steps of a list of items, item by item, up to the first configuration error: the common
    * shape of a cycle over its tasks and of a task over its skills. */
  function Chain<T>(steps: T -> seq<Event>, xs: seq<T>): seq<Event> {
    if |xs| == 0 then []
    else
      var prev := Chain(steps, xs[..|xs| - 1]);
      if Stopped(prev) then prev else prev + steps(xs[|xs| - 1])
  }

  /** The steps for a task's skill list, up to the first configuration error. */
  function NamesEvents(lineage: Lineage, task: string, names: seq<string>, skills: Dict<SkillConfig>): seq<Event> {
    Chain(name => StepEvents(lineage, task, name, skills), names)
  }

  /** The marking that comes before a task's skills: the current engine's pre-calculation task. */
  function Before(lineage: Lineage, t: TaskConfig): seq<Event> {
    if lineage == Current && t.name == PreCalc then [Mark] else []
  }

  /** The steps of one task: the legacy engine marks after the pre-calculation task's skills; a task
    * without `skill_sequence` raises `KeyError`, a null one `TypeError`. */
  function TaskEvents(lineage: Lineage, t: TaskConfig, skills: Dict<SkillConfig>): seq<Event> {
    match t.skillSequence
    case Absent => Before(lineage, t) + [Fail(KeyError("skill_sequence"))]
    case Null => Before(lineage, t) + [Fail(TypeError("'NoneType' object is not iterable"))]
    case Given(names) =>
      var body := NamesEvents(lineage, t.name, names, skills);
      Before(lineage, t) + body
      + (if lineage == Legacy && t.name == PreCalc && !Stopped(body) then [Mark] else [])
  }

  /** The steps of a whole cycle, task by task, up to the first configuration error. */
  function Schedule(lineage: Lineage, tasks: seq<TaskConfig>, skills: Dict<SkillConfig>): seq<Event> {
    Chain(t => TaskEvents(lineage, t, skills), tasks)
  }

  lemma ChainExtends<T>(steps: T -> seq<Event>, xs: seq<T>)
    requires |xs| > 0
    ensures Chain(steps, xs[..|xs| - 1]) <= Chain(steps, xs)
  {
    var prev := Chain(steps, xs[..|xs| - 1]);
    if !Stopped(prev) {
      var all := prev + steps(xs[|xs| - 1]);
      assert all[..|prev|] == prev;
    }
  }

  /** The steps of a prefix of the items are a prefix of the steps. */
  lemma {:induction false} ChainMonotone<T>(steps: T -> seq<Event>, xs: seq<T>, k: nat)
    requires k <= |xs|
    ensures Chain(steps, xs[..k]) <= Chain(steps, xs)
    decreases |xs|
  {
    if k < |xs| {
      var n := |xs| - 1;
      assert xs[..n][..k] == xs[..k];
      ChainMonotone(steps, xs[..n], k);
      ChainExtends(steps, xs);
      PrefixTransitive(Chain(steps, xs[..k]), Chain(steps, xs[..n]), Chain(steps, xs));
    } else {
      assert xs[..k] == xs;
    }
  }

  lemma ChainStep<T>(steps: T -> seq<Event>, xs: seq<T>, i: nat)
    requires i < |xs| && !Stopped(Chain(steps, xs[..i]))
    ensures Chain(steps, xs[..i + 1]) == Chain(steps, xs[..i]) + steps(xs[i])
  {
    assert xs[..i + 1][..i] == xs[..i];
  }

  /** The steps of items `..i` and part of item `i`'s steps are where the whole chain starts. */
  lemma ChainWithin<T>(steps: T -> seq<Event>, xs: seq<T>, i: nat, partial: seq<Event>)
    requires i < |xs| && !Stopped(Chain(steps, xs[..i]))
    requires partial <= steps(xs[i])
    ensures Chain(steps, xs[..i]) + partial <= Chain(steps, xs)
  {
    ChainStep(steps, xs, i);
    ChainMonotone(steps, xs, i + 1);
    PrefixAppend(Chain(steps, xs[..i]), partial, steps(xs[i]));
    PrefixTransitive(Chain(steps, xs[..i]) + partial, Chain(steps, xs[..i + 1]), Chain(steps, xs));
  }

  lemma NamesStep(lineage: Lineage, task: string, names: seq<string>, skills: Dict<SkillConfig>, j: nat)
    requires j < |names| && !Stopped(NamesEvents(lineage, task, names[..j], skills))
    ensures NamesEvents(lineage, task, names[..j + 1], skills)
            == NamesEvents(lineage, task, names[..j], skills) + StepEvents(lineage, task, names[j], skills)
  {
    ChainStep(name => StepEvents(lineage, task, name, skills), names, j);
  }

  lemma ScheduleStep(lineage: Lineage, tasks: seq<TaskConfig>, skills: Dict<SkillConfig>, i: nat)
    requires i < |tasks| && !Stopped(Schedule(lineage, tasks[..i], skills))
    ensures Schedule(lineage, tasks[..i + 1], skills)
            == Schedule(lineage, tasks[..i], skills) + TaskEvents(lineage, tasks[i], skills)
  {
    ChainStep(t => TaskEvents(lineage, t, skills), tasks, i);
  }

  /** Everything done so far in task `i`, followed by part of its next steps, is where the cycle's
    * schedule starts. */
  lemma WithinTask(lineage: Lineage, tasks: seq<TaskConfig>, skills: Dict<SkillConfig>, i: nat, partial: seq<Event>)
    requires i < |tasks| && !Stopped(Schedule(lineage, tasks[..i], skills))
    requires partial <= TaskEvents(lineage, tasks[i], skills)
    ensures Schedule(lineage, tasks[..i], skills) + partial <= Schedule(lineage, tasks, skills)
  {
    ChainWithin(t => TaskEvents(lineage, t, skills), tasks, i, partial);
  }

  lemma PrefixWrap<T>(a: seq<T>, b: seq<T>, c: seq<T>, d: seq<T>)
    requires b <= c
    ensures a + b <= a + c + d
  {
    assert (a + c + d)[..|a + b|] == a + c[..|b|];
  }

  lemma WithinAllNames(lineage: Lineage, task: string, names: seq<string>, skills: Dict<SkillConfig>, j: nat, partial: seq<Event>)
    requires j < |names| && !Stopped(NamesEvents(lineage, task, names[..j], skills))
    requires partial <= StepEvents(lineage, task, names[j], skills)
    ensures NamesEvents(lineage, task, names[..j], skills) + partial <= NamesEvents(lineage, task, names, skills)
  {
    ChainWithin(name => StepEvents(lineage, task, name, skills), names, j, partial);
  }

  lemma PrefixTransitive<T>(a: seq<T>, b: seq<T>, c: seq<T>)
    requires a <= b && b <= c
    ensures a <= c
  {
    assert c[..|a|] == b[..|a|];
  }

  lemma PrefixAppend<T>(a: seq<T>, b: seq<T>, c: seq<T>)
    requires b <= c
    ensures a + b <= a + c
  {
    assert (a + c)[..|a + b|] == a + c[..|b|];
  }

  /** Only the last step of `s` may be a configuration error. */
  predicate FailsOnlyAtEnd(s: seq<Event>) {
    forall i :: 0 <= i < |s| - 1 ==> !s[i].Fail?
  }

  lemma {:induction false} ChainFailsOnlyAtEnd<T>(steps: T -> seq<Event>, xs: seq<T>)
    requires forall x :: FailsOnlyAtEnd(steps(x))
    ensures FailsOnlyAtEnd(Chain(steps, xs))
  {
    if |xs| > 0 {
      var n := |xs| - 1;
      ChainFailsOnlyAtEnd(steps, xs[..n]);
      var prev := Chain(steps, xs[..n]);
      if !Stopped(prev) {
        var last := steps(xs[n]);
        var s := prev + last;
        forall i | 0 <= i < |s| - 1
          ensures !s[i].Fail?
        {
          if i < |prev| {
            assert s[i] == prev[i];
          } else {
            assert s[i] == last[i - |prev|];
          }
        }
      }
    }
  }

  lemma TaskFailsOnlyAtEnd(lineage: Lineage, t: TaskConfig, skills: Dict<SkillConfig>)
    ensures FailsOnlyAtEnd(TaskEvents(lineage, t, skills))
  {
    if t.skillSequence.Given? {
      var body := NamesEvents(lineage, t.name, t.skillSequence.value, skills);
      ChainFailsOnlyAtEnd(name => StepEvents(lineage, t.name, name, skills), t.skillSequence.value);
      var s := TaskEvents(lineage, t, skills);
      var before := Before(lineage, t);
      forall i | 0 <= i < |s| - 1
        ensures !s[i].Fail?
      {
        if i < |before| {
          assert s[i] == Mark;
        } else {
          assert s[i] == body[i - |before|];
        }
      }
    }
  }

  /** A configuration error anywhere in the cycle's schedule is its last step. */
  lemma StoppedOnlyAtEnd(lineage: Lineage, tasks: seq<TaskConfig>, skills: Dict<SkillConfig>)
    ensures FailsOnlyAtEnd(Schedule(lineage, tasks, skills))
  {
    forall t | true
      ensures FailsOnlyAtEnd(TaskEvents(lineage, t, skills))
    {
      TaskFailsOnlyAtEnd(lineage, t, skills);
    }
    ChainFailsOnlyAtEnd(t => TaskEvents(lineage, t, skills), tasks);
  }

  /** The first error of a list of results: the error of the first step that fails, whether the
    * steps are the members of an inference group or the stages of an optimization request. */
  function FirstErr(rs: seq<Result<()>>): (r: Option<Error>)
    ensures r.None? <==> forall k :: 0 <= k < |rs| ==> rs[k].Ok?
    ensures r.Some? ==> exists k :: 0 <= k < |rs| && rs[k] == Err(r.value) && forall l :: 0 <= l < k ==> rs[l].Ok?
  {
    if |rs| == 0 then None
    else if rs[0].Err? then Some(rs[0].error)
    else
      var r := FirstErr(rs[1..]);
      assert forall k :: 1 <= k < |rs| ==> rs[k] == rs[1..][k - 1];
      if r.Some? then
        var k :| 0 <= k < |rs[1..]| && rs[1..][k] == Err(r.value) && forall l :: 0 <= l < k ==> rs[1..][l].Ok?;
        assert rs[k + 1] == Err(r.value) && forall l :: 0 <= l < k + 1 ==> rs[l].Ok?;
        r
      else r
  }
}
