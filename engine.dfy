/** The strategy engine (src/task/math_optimizer/strategy/strategy.py and src/strategy/strategy.py): the
  * skill registry, the dispatch of `execute` by skill class, compositions, the optimizer's search
  * with the solver's objective and constraint evaluations replayed on the context, the marking of
  * calculated variables, and the cycle. */
module Engine {
  import opened Wrappers
  import opened Dicts
  import opened Json
  import opened Config
  import opened Oracles
  import opened Variables
  import opened DataContexts
  import opened Skills
  import opened StrategyQueries
  import opened Schedules
  import Optimizers
  import ConstraintTemplates
  import Bounds
  import MathFunctions
  import Inference
  import ConstraintScores

  /** The end of the run of consecutive inference models that starts at `i`. */
  function GroupEnd(sq: seq<Skill>, i: nat): (j: nat)
    requires i <= |sq|
    ensures i <= j <= |sq|
    ensures forall k :: i <= k < j ==> sq[k].kind == Inference
    ensures j < |sq| ==> sq[j].kind != Inference
    decreases |sq| - i
  {
    if i == |sq| || sq[i].kind != Inference then i else GroupEnd(sq, i + 1)
  }

  /** The checks the optimizer's `execute` makes before it touches the context: the strategy
    * reference, the cost skill (`_skills[cost_skill_name]`; a null name is the key `None`, which no
    * registry of string names holds), the optimizable ids, and the inputs it filters by them. */
  function OptimizerSetup(spec: KindSpec, inputs: Option<seq<string>>, hasStrategy: bool, registry: set<string>,
                          cfg: StrategyConfig): (r: Result<seq<string>>)
    requires spec.OptimizationSpec?
    ensures !hasStrategy ==> r == Err(RuntimeError("Strategy reference not set in OptimizationSkill"))
    ensures hasStrategy && spec.costSkillName.None? ==> r == Err(KeyError("None"))
    ensures hasStrategy && spec.costSkillName.Some? && spec.costSkillName.value !in registry ==>
              r == Err(KeyError(spec.costSkillName.value))
    ensures r.Ok? <==> hasStrategy && spec.costSkillName.Some? && spec.costSkillName.value in registry
                       && OptimizableIds(cfg).Ok? && inputs.Some?
    ensures r.Ok? ==> forall v :: v in r.value <==> v in inputs.value && v in OptimizableIds(cfg).value.Members()
    ensures r.Ok? ==> multiset(r.value) <= multiset(inputs.value)
  {
    if !hasStrategy then Err(RuntimeError("Strategy reference not set in OptimizationSkill"))
    else if spec.costSkillName.None? then Err(KeyError("None"))
    else if spec.costSkillName.value !in registry then Err(KeyError(spec.costSkillName.value))
    else match OptimizableIds(cfg)
      case Err(e) => Err(e)
      case Ok(o) =>
        if inputs.None? then Err(TypeError("'NoneType' object is not iterable"))
        else Ok(ConstraintTemplates.Kept(inputs.value, o.Members()))
  }

  /** The optimizable ids as the constraints skill tests membership in them. */
  function OptimizableSet(cfg: StrategyConfig): Result<set<string>> {
    match OptimizableIds(cfg)
    case Err(e) => Err(e)
    case Ok(o) => Ok(o.Members())
  }

  /** What the constraints skill takes from the first optimizer in the registry: its inputs, and its
    * cost skill when the registry has one of that name. */
  function FirstOptimizer(keys: seq<string>, skills: map<string, Skill>): (r: Option<ConstraintTemplates.OptimizerRef>)
    requires forall k :: k in keys ==> k in skills
    ensures r.None? <==> forall k :: k in keys ==> skills[k].kind != Optimization
  {
    if |keys| == 0 then None
    else
      var s := skills[keys[0]];
      if s.kind == Optimization then
        Some(ConstraintTemplates.OptimizerRef(
               s.inputs,
               if s.spec.OptimizationSpec? && s.spec.costSkillName.Some? && s.spec.costSkillName.value in skills
               then s.spec.costSkillName else None))
      else FirstOptimizer(keys[1..], skills)
  }

  /** The variable a constraint's `predicted_var` names: ids are strings, so any other value is a
    * `KeyError`. */
  function Predicted(v: Json, present: set<string>): (r: Result<()>)
    ensures r.Ok? <==> v.JStr? && v.s in present
  {
    if v.JStr? then (if v.s in present then Ok(()) else Err(NotFound(v.s)))
    else Err(NotFound(TypeName(v)))
  }

  /** `resolve_skills` fails exactly when a name is missing, naming the first one. */
  lemma {:induction false} ResolveNamesFirstMissing(names: seq<string>, registry: map<string, Skill>)
    ensures Resolve(names, registry).Err? <==> FirstMissing(names, registry.Keys).Some?
    ensures Resolve(names, registry).Err? ==>
              Resolve(names, registry).error == ValueError("Skill '" + FirstMissing(names, registry.Keys).value + "' not found in registry")
  {
    if |names| > 0 && names[0] in registry {
      ResolveNamesFirstMissing(names[1..], registry);
    }
  }

  /** A composition's resolution raises exactly the error the second pass of `_build_skills`
    * expects of its names. */
  lemma ResolveSequenceError(names: Option<seq<string>>, registry: map<string, Skill>)
    ensures ResolveSequence(names, registry).Err? <==> CompositionError(names, registry.Keys).Some?
    ensures ResolveSequence(names, registry).Err? ==> ResolveSequence(names, registry).error == CompositionError(names, registry.Keys).value
  {
    if names.Some? {
      ResolveNamesFirstMissing(names.value, registry);
    }
  }

  lemma UnresolvedStep(keys: seq<string>, es: map<string, (Kind, KindSpec)>, registry: set<string>, j: nat)
    requires j < |keys| && forall k :: k in keys ==> k in es
    requires !(es[keys[j]].1.CompositionSpec? && CompositionError(es[keys[j]].1.names, registry).Some?)
    ensures Unresolved(keys[j..], es, registry) == Unresolved(keys[j + 1..], es, registry)
  {
    assert keys[j..][1..] == keys[j + 1..];
  }

  /** A skill as `_build_skills` makes it for entry `k` of the configuration. */
  predicate Made(sk: Skill, k: string, c: SkillConfig, e: (Kind, KindSpec)) {
    sk.name == k && sk.kind == e.0 && sk.spec == e.1 && sk.inputs == GetList(c.inputs)
  }

  /** A new skill: the strategy reference given to the classes that take it, no sequence yet. */
  ghost predicate Blank(sk: Skill, lineage: Lineage)
    reads sk
  {
    sk.hasStrategy == Injected(sk.kind, lineage) && sk.sequence == []
  }

  /** No skill object is registered under two names. */
  ghost predicate OneEach(reg: map<string, Skill>) {
    forall a, b :: a in reg && b in reg && a != b ==> reg[a] != reg[b]
  }

  /** A composition holds the registry's skills for its names; any other skill holds none. */
  ghost predicate Sequenced(sk: Skill, reg: map<string, Skill>)
    reads sk
  {
    if sk.spec.CompositionSpec? then ResolveSequence(sk.spec.names, reg).Ok? && sk.sequence == ResolveSequence(sk.spec.names, reg).value
    else sk.sequence == []
  }

  /** Every registered skill has the settings of its class, and the skills of a composition are
    * registered ones. */
  ghost predicate Closed(reg: map<string, Skill>)
    reads reg.Values
  {
    forall s :: s in reg.Values ==> Fits(s.kind, s.spec) && forall t :: t in s.sequence ==> t in reg.Values
  }

  lemma ClosedRegistry(reg: map<string, Skill>, es: map<string, (Kind, KindSpec)>, cfg: map<string, SkillConfig>)
    requires reg.Keys == es.Keys && es.Keys <= cfg.Keys
    requires forall k :: k in es ==> Fits(es[k].0, es[k].1)
    requires forall k :: k in reg ==> Made(reg[k], k, cfg[k], es[k]) && Sequenced(reg[k], reg)
    ensures Closed(reg)
  {
    forall s | s in reg.Values
      ensures Fits(s.kind, s.spec) && forall t :: t in s.sequence ==> t in reg.Values
    {
      var k :| k in reg && reg[k] == s;
    }
  }

  /** One new skill for entry `k`, given the strategy reference when its class takes it. */
  method Create(k: string, c: SkillConfig, e: (Kind, KindSpec), lineage: Lineage) returns (sk: Skill)
    requires Fits(e.0, e.1)
    ensures fresh(sk) && Made(sk, k, c, e) && Blank(sk, lineage)
  {
    sk := new Skill(k, e.0, lineage, c, e.1);
    if Injected(e.0, lineage) {
      sk.SetStrategy();
    }
  }

  /** The first pass of `_build_skills`: one new skill per entry, in configuration order, from the
    * entries' classes and settings. */
  method Instantiate(keys: seq<string>, cfg: map<string, SkillConfig>, es: map<string, (Kind, KindSpec)>, lineage: Lineage)
    returns (reg: map<string, Skill>)
    requires forall k :: k in keys ==> k in cfg && k in es && Fits(es[k].0, es[k].1)
    ensures forall k :: k in reg <==> k in keys
    ensures OneEach(reg)
    ensures forall k :: k in reg ==> fresh(reg[k]) && Blank(reg[k], lineage) && Made(reg[k], k, cfg[k], es[k])
  {
    reg := map[];
    var i := 0;
    while i < |keys|
      invariant 0 <= i <= |keys|
      invariant (forall m :: 0 <= m < i ==> keys[m] in reg) && forall k :: k in reg ==> k in keys
      invariant OneEach(reg)
      invariant forall k :: k in reg ==> fresh(reg[k]) && Blank(reg[k], lineage) && Made(reg[k], k, cfg[k], es[k])
    {
      var k := keys[i];
      var sk := Create(k, cfg[k], es[k], lineage);
      reg := reg[k := sk];
      i := i + 1;
    }
  }

  /** One skill of the second pass: a composition resolves its names against the registry. */
  method ResolveOne(reg: map<string, Skill>, sk: Skill) returns (r: Result<()>)
    requires Fits(sk.kind, sk.spec) && (!sk.spec.CompositionSpec? ==> sk.sequence == [])
    modifies sk`sequence
    ensures r.Err? <==> sk.spec.CompositionSpec? && CompositionError(sk.spec.names, reg.Keys).Some?
    ensures r.Err? ==> r.error == CompositionError(sk.spec.names, reg.Keys).value
    ensures r.Ok? ==> Sequenced(sk, reg)
  {
    r := Ok(());
    if sk.kind == Composition {
      r := sk.ResolveSkills(reg);
      ResolveSequenceError(sk.spec.names, reg);
    }
  }

  /** The state of the second pass after the first `j` entries: those are resolved, no other
    * skill has gained a sequence, and what is left to fail is what the remaining entries make. */
  ghost predicate ResolvedUpTo(keys: seq<string>, reg: map<string, Skill>, es: map<string, (Kind, KindSpec)>, j: nat)
    requires j <= |keys| && forall k :: k in keys ==> k in reg && k in es
    reads reg.Values
  {
    Unresolved(keys, es, reg.Keys) == Unresolved(keys[j..], es, reg.Keys)
    && (forall m :: 0 <= m < j ==> Sequenced(reg[keys[m]], reg))
    && forall k :: k in reg && !reg[k].spec.CompositionSpec? ==> reg[k].sequence == []
  }

  /** The second pass of `_build_skills`: each composition resolved against the complete
    * registry, in configuration order, stopping at the first unknown name. */
  method ResolveAll(keys: seq<string>, reg: map<string, Skill>, ghost es: map<string, (Kind, KindSpec)>) returns (r: Result<()>)
    requires reg.Keys == es.Keys && (forall k :: k in reg <==> k in keys) && OneEach(reg)
    requires forall k :: k in reg ==> reg[k].spec == es[k].1 && Fits(reg[k].kind, reg[k].spec) && reg[k].sequence == []
    modifies reg.Values`sequence
    ensures r.Err? <==> Unresolved(keys, es, reg.Keys).Some?
    ensures r.Err? ==> r.error == Unresolved(keys, es, reg.Keys).value
    ensures r.Ok? ==> forall k :: k in reg ==> Sequenced(reg[k], reg)
  {
    var j := 0;
    while j < |keys|
      invariant 0 <= j <= |keys|
      invariant ResolvedUpTo(keys, reg, es, j)
    {
      r := ResolveNext(keys, reg, es, j);
      if r.Err? {
        return;
      }
      j := j + 1;
    }
    assert keys[j..] == [];
    return Ok(());
  }

  /** One step of the second pass: entry `j` is resolved, or its first unknown name is the error
    * the remaining entries make. */
  method ResolveNext(keys: seq<string>, reg: map<string, Skill>, ghost es: map<string, (Kind, KindSpec)>, j: nat) returns (r: Result<()>)
    requires reg.Keys == es.Keys && (forall k :: k in reg <==> k in keys) && OneEach(reg)
    requires forall k :: k in reg ==> reg[k].spec == es[k].1 && Fits(reg[k].kind, reg[k].spec)
    requires j < |keys| && ResolvedUpTo(keys, reg, es, j)
    modifies reg.Values`sequence
    ensures r.Err? ==> Unresolved(keys, es, reg.Keys) == Some(r.error)
    ensures r.Ok? ==> ResolvedUpTo(keys, reg, es, j + 1)
  {
    var k := keys[j];
    assert reg[k].spec == es[k].1;
    r := ResolveOne(reg, reg[k]);
    if r.Err? {
      assert keys[j..][0] == k;
      return;
    }
    UnresolvedStep(keys, es, reg.Keys, j);
  }

  /** The registry `_build_skills` makes from the entries `cfg` listed in the order `keys`: one skill
    * per entry with the class and settings of the entry, the strategy reference where its class
    * takes it, and each composition resolved. */
  ghost predicate Built(reg: map<string, Skill>, keys: seq<string>, cfg: map<string, SkillConfig>, lineage: Lineage, env: Env)
    requires forall k :: k in keys ==> k in cfg
    reads reg.Values
  {
    Entries(keys, cfg, lineage, env).Ok? && Registered(reg, keys, cfg, Entries(keys, cfg, lineage, env).value, lineage)
  }

  /** One skill per listed entry, made from the entry's class and settings `es`, with the strategy
    * reference where its class takes it, and each composition resolved. */
  ghost predicate Registered(reg: map<string, Skill>, keys: seq<string>, cfg: map<string, SkillConfig>,
                             es: map<string, (Kind, KindSpec)>, lineage: Lineage)
    reads reg.Values
  {
    (forall k :: k in reg <==> k in keys)
    && forall k :: k in reg ==>
         k in cfg && k in es && Made(reg[k], k, cfg[k], es[k])
         && reg[k].hasStrategy == Injected(reg[k].kind, lineage) && Sequenced(reg[k], reg)
  }

  /** `_build_skills`: the first entry without a known class or settings raises, then the first
    * composition naming an unknown skill. */
  method BuildRegistry(keys: seq<string>, cfg: map<string, SkillConfig>, lineage: Lineage, env: Env)
    returns (r: Result<map<string, Skill>>)
    requires forall k :: k in cfg <==> k in keys
    ensures r.Err? <==> BuildError(keys, cfg, lineage, env).Some?
    ensures r.Err? ==> r.error == BuildError(keys, cfg, lineage, env).value
    ensures r.Ok? ==> Built(r.value, keys, cfg, lineage, env) && r.value.Keys == cfg.Keys && Closed(r.value)
    ensures r.Ok? ==> forall k :: k in r.value ==> fresh(r.value[k])
  {
    var entries := Entries(keys, cfg, lineage, env);
    if entries.Err? {
      return Err(entries.error);
    }
    r := BuildFrom(keys, cfg, lineage, entries.value);
  }

  /** Both passes of `_build_skills` once every entry has its class and settings `es`. */
  method BuildFrom(keys: seq<string>, cfg: map<string, SkillConfig>, lineage: Lineage, es: map<string, (Kind, KindSpec)>)
    returns (r: Result<map<string, Skill>>)
    requires (forall k :: k in cfg <==> k in keys) && es.Keys == cfg.Keys
    requires forall k :: k in es ==> Fits(es[k].0, es[k].1)
    ensures r.Err? <==> Unresolved(keys, es, cfg.Keys).Some?
    ensures r.Err? ==> r.error == Unresolved(keys, es, cfg.Keys).value
    ensures r.Ok? ==> Registered(r.value, keys, cfg, es, lineage) && r.value.Keys == cfg.Keys && Closed(r.value)
    ensures r.Ok? ==> forall k :: k in r.value ==> fresh(r.value[k])
  {
    var reg := Instantiate(keys, cfg, es, lineage);
    var resolved := ResolveAll(keys, reg, es);
    if resolved.Err? {
      return Err(resolved.error);
    }
    ClosedRegistry(reg, es, cfg);
    return Ok(reg);
  }

  /** `Strategy.__init__` on a loaded configuration: `_build_skills`, whose error is the
    * constructor's. */
  method NewStrategy(lineage: Lineage, config: StrategyConfig, env: Env) returns (r: Result<Strategy>)
    ensures r.Err? <==> BuildError(config.skills.keys, config.skills.m, lineage, env).Some?
    ensures r.Err? ==> r.error == BuildError(config.skills.keys, config.skills.m, lineage, env).value
    ensures r.Ok? ==> fresh(r.value) && r.value.lineage == lineage && r.value.config == config && r.value.env == env
    ensures r.Ok? ==> r.value.Valid() && Built(r.value.skills, config.skills.keys, config.skills.m, lineage, env)
    ensures r.Ok? ==> forall k :: k in r.value.skills ==> fresh(r.value.skills[k])
  {
    var built := BuildRegistry(config.skills.keys, config.skills.m, lineage, env);
    if built.Err? {
      return Err(built.error);
    }
    var st := new Strategy(lineage, config, env, built.value);
    return Ok(st);
  }

  class Strategy {
    const lineage: Lineage
    const config: StrategyConfig
    const env: Env
    /** `_skills`; its iteration order is the configuration's, `config.skills.keys`. */
    const skills: map<string, Skill>

    /** The registry holds one skill per configured name, each with the settings of its class, and a
      * composition's skills come from the registry. */
    ghost predicate Valid()
      reads skills.Values
    {
      skills.Keys == config.skills.m.Keys && Closed(skills)
    }

    /** The expression evaluators of the registered skills: what running a skill may change besides
      * the context. */
    ghost function Evaluators(): set<Evaluator> {
      set s | s in skills.Values :: s.aeval
    }

    /** A strategy over a registry that `_build_skills` has made. */
    constructor (lineage: Lineage, config: StrategyConfig, env: Env, skills: map<string, Skill>)
      ensures this.lineage == lineage && this.config == config && this.env == env && this.skills == skills
    {
      this.lineage := lineage;
      this.config := config;
      this.env := env;
      this.skills := skills;
    }

    /** `skill.execute(context)`, by the skill's class. The optimizer and the constraints skill read
      * the strategy; `fuel` bounds the nesting of compositions and cost skills, which Python bounds
      * with its recursion limit. */
    method Run(s: Skill, ctx: DataContext, fuel: nat) returns (r: Result<()>)
      requires Valid() && s in skills.Values && ctx.Valid()
      modifies ctx, ctx.variables.Values, Evaluators()
      ensures fuel == 0 ==> r == Err(RecursionError) && ctx.Values() == old(ctx.Values())
      decreases fuel, 5
    {
      if fuel == 0 {
        return Err(RecursionError);
      }
      match s.kind {
        case Inference =>
          r := Inference.Execute(s, ctx, env);
        case Math =>
          assert s.aeval in Evaluators();
          r := MathFunctions.Execute(s, ctx, env);
        case Constraints =>
          r := ConstraintTemplates.Execute(s, ctx, FirstOptimizer(config.skills.keys, skills), OptimizableSet(config));
        case ConstraintScore =>
          r := ConstraintScores.Execute(s, ctx);
        case Composition =>
          var ran;
          r, ran := RunComposition(s, ctx, fuel);
        case Optimization =>
          var ids, x;
          r, ids, x := RunOptimizer(s, ctx, fuel);
        case BoundsBuilder =>
          r := Bounds.Execute(s, ctx);
      }
    }

    /** A composition's `execute`: its skills once each, in order. The legacy engine stops at the
      * first error; the current one runs a group of consecutive inference models to the end before
      * raising the first error of the group. */
    method RunComposition(s: Skill, ctx: DataContext, fuel: nat) returns (r: Result<()>, ran: seq<Skill>)
      requires Valid() && s in skills.Values && ctx.Valid() && fuel > 0
      modifies ctx, ctx.variables.Values, Evaluators()
      ensures r.Ok? ==> ran == s.sequence
      ensures r.Err? ==> 0 < |ran| <= |s.sequence| && ran == s.sequence[..|ran|]
      ensures r.Err? && lineage == Current && ran[|ran| - 1].kind == Inference ==>
                |ran| == |s.sequence| || s.sequence[|ran|].kind != Inference
      decreases fuel, 2
    {
      var sq := s.sequence;
      ran := [];
      var i := 0;
      while i < |sq|
        invariant 0 <= i <= |sq| && ran == sq[..i]
        invariant sq == s.sequence
      {
        if lineage == Legacy || sq[i].kind != Inference {
          ran := ran + [sq[i]];
          r := Run(sq[i], ctx, fuel - 1);
          if r.Err? {
            return;
          }
          i := i + 1;
        } else {
          var j := GroupEnd(sq, i);
          ghost var results;
          var failure;
          failure, results := RunGroup(sq, i, j, ctx, fuel);
          assert sq[..j] == sq[..i] + sq[i..j];
          ran := sq[..j];
          if failure.Some? {
            return Err(failure.value), ran;
          }
          i := j;
        }
      }
      assert sq[..i] == sq;
      r := Ok(());
    }

    /** A group of consecutive inference models `sq[i..j]`: every one runs, and the first error among
      * their `results` is the group's. */
    method RunGroup(sq: seq<Skill>, i: nat, j: nat, ctx: DataContext, fuel: nat)
      returns (failure: Option<Error>, ghost results: seq<Result<()>>)
      requires Valid() && i <= j <= |sq| && (forall t :: t in sq ==> t in skills.Values) && ctx.Valid() && fuel > 0
      modifies ctx, ctx.variables.Values, Evaluators()
      ensures |results| == j - i && failure == FirstErr(results)
      decreases fuel, 1
    {
      failure := None;
      results := [];
      var k := i;
      while k < j
        invariant i <= k <= j && |results| == k - i && failure == FirstErr(results)
      {
        var rk := Run(sq[k], ctx, fuel - 1);
        FirstErrSnoc(results, rk);
        if rk.Err? && failure.None? {
          failure := Some(rk.error);
        }
        results := results + [rk];
        k := k + 1;
      }
    }

    /** The optimizer's `execute`: the checks it makes before touching the context, then the
      * optimization over the optimizable inputs `ids`, whose solution is `x`. */
    method RunOptimizer(s: Skill, ctx: DataContext, fuel: nat) returns (r: Result<()>, ids: seq<string>, x: seq<real>)
      requires Valid() && s in skills.Values && s.spec.OptimizationSpec? && ctx.Valid() && fuel > 0
      modifies ctx, ctx.variables.Values, Evaluators()
      ensures OptimizerSetup(s.spec, s.inputs, s.hasStrategy, skills.Keys, config).Err? ==>
                r == Err(OptimizerSetup(s.spec, s.inputs, s.hasStrategy, skills.Keys, config).error)
                && ctx.Values() == old(ctx.Values())
      ensures r.Ok? ==> OptimizerSetup(s.spec, s.inputs, s.hasStrategy, skills.Keys, config) == Ok(ids)
      ensures r.Ok? ==> Solution(ctx.Values(), ids, x)
      decreases fuel, 4
    {
      var setup := OptimizerSetup(s.spec, s.inputs, s.hasStrategy, skills.Keys, config);
      if setup.Err? {
        return Err(setup.error), [], [];
      }
      ids := setup.value;
      r, x := Optimize(s, ids, ctx, fuel);
    }

    /** The optimization proper: the start point and bounds, the scipy call chosen by the lineage
      * (the current engine falls back on a bounds-only call when a call of another name raises),
      * and the write-back of a successful solution `x`. */
    method Optimize(s: Skill, ids: seq<string>, ctx: DataContext, fuel: nat) returns (r: Result<()>, x: seq<real>)
      requires Valid() && s.spec.OptimizationSpec? && s.spec.costSkillName.Some? && s.spec.costSkillName.value in skills && ctx.Valid() && fuel > 0
      modifies ctx, ctx.variables.Values, Evaluators()
      ensures r.Ok? ==> Solution(ctx.Values(), ids, x)
      decreases fuel, 3
    {
      x := [];
      var prepared := Optimizers.Prepare(ctx, ids, lineage);
      if prepared.Err? {
        return Err(prepared.error), x;
      }
      var plan := if lineage == Current then Optimizers.PlanOf(s.spec.algorithm, prepared.value, ctx.solverConstraints)
                  else Optimizers.LegacyPlan(s.spec.algorithm, prepared.value);
      var attempt := Attempt(plan, skills[s.spec.costSkillName.value], s.spec.costFeatureName, ids, ctx, fuel);
      if attempt.Err? {
        return Err(attempt.error), x;
      }
      var outcome := attempt.value;
      if outcome.Finished? {
        x := outcome.x;
      }
      ghost var before := ctx.Values();
      r := Optimizers.WriteBack(ctx, ids, outcome);
      if r.Ok? {
        WrittenBack(before, ids, x, ctx.variables.Keys);
      }
    }
    /** The planned scipy call, and the fallback call when the plan has one and the first call raises. */
    method Attempt(plan: Optimizers.Plan, cost: Skill, feature: Option<string>, ids: seq<string>, ctx: DataContext, fuel: nat)
      returns (r: Result<SolverOutcome>)
      requires Valid() && cost in skills.Values && ctx.Valid() && fuel > 0
      modifies ctx, ctx.variables.Values, Evaluators()
      ensures r.Ok? && plan.fallback.None? ==> r.value == env.solve(plan.primary).outcome
      ensures r.Ok? && plan.fallback.Some? ==>
                (r.value == env.solve(plan.primary).outcome && !r.value.Raised?) || r.value == env.solve(plan.fallback.value).outcome
      decreases fuel, 2
    {
      r := Search(plan.primary, cost, feature, ids, ctx, fuel);
      if plan.fallback.Some? && (r.Err? || r.value.Raised?) {
        r := Search(plan.fallback.value, cost, feature, ids, ctx, fuel);
      }
    }

    /** One scipy call: the solver's evaluations replayed in order, stopping at the first that
      * raises; otherwise how the call ends. */
    method Search(call: SolverCall, cost: Skill, feature: Option<string>, ids: seq<string>, ctx: DataContext, fuel: nat)
      returns (r: Result<SolverOutcome>)
      requires Valid() && cost in skills.Values && ctx.Valid() && fuel > 0
      modifies ctx, ctx.variables.Values, Evaluators()
      ensures r.Ok? ==> r.value == env.solve(call).outcome
      decreases fuel, 1
    {
      var run := env.solve(call);
      var i := 0;
      while i < |run.probes|
        invariant 0 <= i <= |run.probes|
      {
        var e := Evaluate(run.probes[i], call, cost, feature, ids, ctx, fuel);
        if e.Err? {
          return Err(e.error);
        }
        i := i + 1;
      }
      return Ok(run.outcome);
    }

    /** One evaluation. The objective writes the candidate into the optimizable inputs' decision
      * values, runs the cost skill and reads the cost variable. A constraint writes the candidate
      * into its own inputs, runs its cost skill (a missing one is `None`, which has no `execute`)
      * and reads the predicted variable. */
    method Evaluate(p: Probe, call: SolverCall, cost: Skill, feature: Option<string>, ids: seq<string>, ctx: DataContext, fuel: nat)
      returns (r: Result<()>)
      requires Valid() && cost in skills.Values && ctx.Valid() && fuel > 0
      modifies ctx, ctx.variables.Values, Evaluators()
      ensures p.ConstraintAt? && p.index >= |call.constraints| ==> r == Ok(()) && ctx.Values() == old(ctx.Values())
      decreases fuel, 0
    {
      match p {
        case ObjectiveAt(x) =>
          r := Optimizers.WriteValues(ctx, Optimizers.Zip(ids, x), false);
          if r.Err? {
            return;
          }
          r := Run(cost, ctx, fuel - 1);
          if r.Err? {
            return;
          }
          if feature.None? {
            return Err(NotFound("None"));
          }
          var got := ctx.GetVariable(feature.value);
          if got.Err? {
            return Err(got.error);
          }
          return Ok(());
        case ConstraintAt(index, x) =>
          if index >= |call.constraints| {
            return Ok(());
          }
          var c := call.constraints[index];
          r := Optimizers.WriteValues(ctx, Optimizers.Zip(c.inputs, x), false);
          if r.Err? {
            return;
          }
          if c.costSkill.None? || c.costSkill.value !in skills {
            return Err(AttributeError("'NoneType' object has no attribute 'execute'"));
          }
          r := Run(skills[c.costSkill.value], ctx, fuel - 1);
          if r.Err? {
            return;
          }
          r := Predicted(c.predictedVar, ctx.variables.Keys);
      }
    }

    /** The legacy engine's lookups after marking: the fixed inputs first, then the operative ids
      * that stay operative; the first one the context lacks raises `KeyError`. */
    method LegacyLookup(ctx: DataContext) returns (r: Result<()>)
      ensures var look := LegacyLookups(config);
              (look.Err? ==> r == Err(look.error))
              && (look.Ok? ==>
                    (r.Ok? <==> look.value.0 <= ctx.variables.Keys && look.value.1 <= ctx.variables.Keys)
                    && (r.Err? ==> exists v :: v !in ctx.variables && r.error == NotFound(v)
                                               && (v in look.value.0 || (look.value.0 <= ctx.variables.Keys && v in look.value.1))))
    {
      var look := LegacyLookups(config);
      if look.Err? {
        return Err(look.error);
      }
      var (fixed, remaining) := look.value;
      if exists v :: v in fixed && v !in ctx.variables {
        var v :| v in fixed && v !in ctx.variables;
        return Err(NotFound(v));
      }
      if exists v :: v in remaining && v !in ctx.variables {
        var v :| v in remaining && v !in ctx.variables;
        return Err(NotFound(v));
      }
      return Ok(());
    }

    /** `_mark_calculated_as_operative`: the calculated ids, marked in order; the legacy engine then
      * makes its lookups. */
    method MarkCalculated(ctx: DataContext) returns (r: Result<()>)
      requires ctx.Valid()
      modifies ctx.variables.Values
      ensures IdsOfType(config.variables, "Calculated").Err? ==>
                r == Err(IdsOfType(config.variables, "Calculated").error) && ctx.Values() == old(ctx.Values())
      ensures IdsOfType(config.variables, "Calculated").Ok? ==>
                var cs := IdsOfType(config.variables, "Calculated").value;
                var k := MathFunctions.PresentPrefix(cs, ctx.variables.Keys);
                ctx.Values() == Marked(old(ctx.Values()), cs[..k])
                && (k < |cs| ==> r == Err(NotFound(cs[k])))
                && (k == |cs| && lineage == Current ==> r == Ok(()))
      ensures IdsOfType(config.variables, "Calculated").Ok? && lineage == Legacy
              && MathFunctions.PresentPrefix(IdsOfType(config.variables, "Calculated").value, ctx.variables.Keys)
                 == |IdsOfType(config.variables, "Calculated").value| ==>
                var look := LegacyLookups(config);
                (look.Err? ==> r == Err(look.error))
                && (look.Ok? ==>
                      (r.Ok? <==> look.value.0 <= ctx.variables.Keys && look.value.1 <= ctx.variables.Keys)
                      && (r.Err? ==> exists v :: v !in ctx.variables && r.error == NotFound(v)
                                                 && (v in look.value.0 || (look.value.0 <= ctx.variables.Keys && v in look.value.1))))
    {
      var calcIds := IdsOfType(config.variables, "Calculated");
      if calcIds.Err? {
        return Err(calcIds.error);
      }
      r := MarkIds(ctx, calcIds.value);
      if r.Err? || lineage == Current {
        return;
      }
      r := LegacyLookup(ctx);
    }

    /** One listed skill of a task: the dataframe resolution of a current pre-calculation math
      * function, then the registered skill's `execute`. */
    method RunStep(task: string, name: string, ctx: DataContext, fuel: nat) returns (r: Result<()>, ghost events: seq<Event>)
      requires Valid() && ctx.Valid()
      modifies ctx, ctx.variables.Values, Evaluators()
      ensures r.Ok? ==> events == StepEvents(lineage, task, name, config.skills) && !Stopped(events)
      ensures r.Err? ==> 0 < |events| && events <= StepEvents(lineage, task, name, config.skills)
                         && (Stopped(events) ==> r.error == events[|events| - 1].error)
    {
      r, events := ResolveBefore(task, name, ctx);
      if r.Err? {
        return;
      }
      if name !in skills {
        var e := ValueError("Skill '" + name + "' in task '" + task + "' not found.");
        events := events + [Fail(e)];
        return Err(e), events;
      }
      events := events + [Exec(name)];
      r := Run(skills[name], ctx, fuel);
    }

    /** The dataframe resolution of a current pre-calculation math function, before the skill
      * runs: an entry without `class` raises `KeyError`, and the resolution's own errors end the
      * task. */
    method ResolveBefore(task: string, name: string, ctx: DataContext) returns (r: Result<()>, ghost events: seq<Event>)
      requires Valid()
      modifies ctx
      ensures events == PreEvents(lineage, task, name, config.skills)
      ensures r.Ok? ==> !Stopped(events)
      ensures r.Err? ==> 0 < |events| && (Stopped(events) ==> r.error == events[|events| - 1].error)
    {
      events := [];
      r := Ok(());
      if lineage == Current && task == PreCalc && name in config.skills.m && !EmptyEntry(config.skills.m[name]) {
        var c := config.skills.m[name];
        if c.className.Absent? {
          events := [Fail(KeyError("class"))];
          return Err(KeyError("class")), events;
        }
        if c.className == Given("MathFunction") {
          events := [ResolveFrame(name)];
          var spec := SpecOf(Math, lineage, c, env);
          if spec.Err? {
            return Err(spec.error), events;
          }
          var fn := new Skill(name, Math, lineage, c, spec.value);
          r := MathFunctions.ResolveDataframeFormula(fn, ctx, env);
        }
      }
    }

    /** A task's listed skills in order, stopping at the first that raises. */
    method RunNames(task: string, names: seq<string>, ctx: DataContext, fuel: nat) returns (r: Result<()>, ghost events: seq<Event>)
      requires Valid() && ctx.Valid()
      modifies ctx, ctx.variables.Values, Evaluators()
      ensures r.Ok? ==> events == NamesEvents(lineage, task, names, config.skills) && !Stopped(events)
      ensures r.Err? ==> 0 < |events| && events <= NamesEvents(lineage, task, names, config.skills)
                         && (Stopped(events) ==> r.error == events[|events| - 1].error)
    {
      events := [];
      var j := 0;
      while j < |names|
        invariant 0 <= j <= |names|
        invariant events == NamesEvents(lineage, task, names[..j], config.skills) && !Stopped(events)
      {
        ghost var step;
        r, step := RunStep(task, names[j], ctx, fuel);
        NamesStep(lineage, task, names, config.skills, j);
        if r.Err? {
          WithinAllNames(lineage, task, names, config.skills, j, step);
          events := events + step;
          return;
        }
        events := events + step;
        j := j + 1;
      }
      assert names[..j] == names;
      r := Ok(());
    }

    /** One task of `run_cycle`: marking before (current) or after (legacy) the pre-calculation
      * task's skills, and its own skills in order. */
    method RunTask(t: TaskConfig, ctx: DataContext, fuel: nat) returns (r: Result<()>, ghost events: seq<Event>)
      requires Valid() && ctx.Valid()
      modifies ctx, ctx.variables.Values, Evaluators()
      ensures r.Ok? ==> events == TaskEvents(lineage, t, config.skills) && !Stopped(events)
      ensures r.Err? ==> 0 < |events| && events <= TaskEvents(lineage, t, config.skills)
                         && (Stopped(events) ==> r.error == events[|events| - 1].error)
    {
      ghost var before := Before(lineage, t);
      if lineage == Current && t.name == PreCalc {
        r := MarkCalculated(ctx);
        if r.Err? {
          return r, before;
        }
      }
      if t.skillSequence.Absent? {
        return Err(KeyError("skill_sequence")), TaskEvents(lineage, t, config.skills);
      }
      if t.skillSequence.Null? {
        return Err(TypeError("'NoneType' object is not iterable")), TaskEvents(lineage, t, config.skills);
      }
      ghost var body;
      r, body := RunNames(t.name, t.skillSequence.value, ctx, fuel);
      ghost var all := NamesEvents(lineage, t.name, t.skillSequence.value, config.skills);
      ghost var after := if lineage == Legacy && t.name == PreCalc && !Stopped(all) then [Mark] else [];
      if r.Err? {
        PrefixWrap(before, body, all, after);
        StoppedAppend(before, body);
        return r, before + body;
      }
      events := before + body + after;
      StoppedAppend(before, body);
      StoppedAppend(before + body, after);
      if lineage == Legacy && t.name == PreCalc {
        r := MarkCalculated(ctx);
      }
    }
    /** `run_cycle`: a new context for the cycle, filled from the records, then every task in order.
      * `log` is what the cycle got through: the schedule of the configuration when it succeeds, and
      * a beginning of it otherwise, ending with the configuration error when there is one. */
    method RunCycle(records: Records, fuel: nat) returns (r: Result<()>, ctx: DataContext, ghost log: seq<Event>)
      requires Valid()
      modifies Evaluators()
      ensures fresh(ctx) && ctx.Valid() && ctx.variables.Keys == config.variables.m.Keys
      ensures Falsy(records) ==> r == Err(ValueError("No data provided to populate_initial_data")) && log == []
      ensures r.Ok? ==> log == Schedule(lineage, config.tasks, config.skills) && !Stopped(log)
      ensures r.Err? ==> log <= Schedule(lineage, config.tasks, config.skills)
      ensures r.Err? && Stopped(log) ==> r.error == log[|log| - 1].error
    {
      log := [];
      r, ctx := StartCycle(records);
      if r.Err? {
        return;
      }
      r, log := RunTasks(ctx, fuel);
    }

    /** The cycle's new context, one variable per configured id and none shared with anything
      * older, filled from the records. */
    method StartCycle(records: Records) returns (r: Result<()>, ctx: DataContext)
      ensures fresh(ctx) && ctx.Valid() && ctx.variables.Keys == config.variables.m.Keys
      ensures forall id :: id in ctx.variables ==> fresh(ctx.variables[id])
      ensures Falsy(records) ==> r == Err(ValueError("No data provided to populate_initial_data"))
    {
      ctx := NewContext();
      r := ctx.PopulateInitialData(records);
    }

    /** The cycle's new context: one variable per configured id, none shared with anything older. */
    method NewContext() returns (ctx: DataContext)
      ensures fresh(ctx) && ctx.Valid() && ctx.variables.Keys == config.variables.m.Keys
      ensures forall id :: id in ctx.variables ==> fresh(ctx.variables[id])
    {
      ctx := new DataContext(config.variables, ShapeOf(lineage));
    }

    /** Every task of `run_cycle` in order, stopping at the first that raises. */
    method RunTasks(ctx: DataContext, fuel: nat) returns (r: Result<()>, ghost log: seq<Event>)
      requires Valid() && ctx.Valid()
      modifies ctx, ctx.variables.Values, Evaluators()
      ensures r.Ok? ==> log == Schedule(lineage, config.tasks, config.skills) && !Stopped(log)
      ensures r.Err? ==> log <= Schedule(lineage, config.tasks, config.skills)
      ensures r.Err? && Stopped(log) ==> r.error == log[|log| - 1].error
    {
      var tasks := config.tasks;
      log := [];
      var i := 0;
      while i < |tasks|
        invariant 0 <= i <= |tasks|
        invariant log == Schedule(lineage, tasks[..i], config.skills) && !Stopped(log)
      {
        ghost var events;
        r, events := RunTask(tasks[i], ctx, fuel);
        StoppedAppend(log, events);
        if r.Err? {
          WithinTask(lineage, tasks, config.skills, i, events);
          log := log + events;
          return;
        }
        ScheduleStep(lineage, tasks, config.skills, i);
        log := log + events;
        i := i + 1;
      }
      assert tasks[..i] == tasks;
      r := Ok(());
    }
  }

  /** The marking loop of `_mark_calculated_as_operative`: each id in order is looked up (an absent
    * one raises `KeyError`) and, when it has a decision value, takes it as its current value. */
  method MarkIds(ctx: DataContext, cs: seq<string>) returns (r: Result<()>)
    requires ctx.Valid()
    modifies ctx.variables.Values
    ensures var k := MathFunctions.PresentPrefix(cs, ctx.variables.Keys);
            ctx.Values() == Marked(old(ctx.Values()), cs[..k])
            && (k < |cs| ==> r == Err(NotFound(cs[k])))
            && (k == |cs| ==> r == Ok(()))
  {
    ghost var v0 := ctx.Values();
    ghost var k := MathFunctions.PresentPrefix(cs, ctx.variables.Keys);
    ghost var present := cs[..k];
    assert forall v :: v in present ==> v in v0;
    var i := 0;
    while i < |cs|
      invariant 0 <= i <= k
      invariant ctx.Values() == Marked(v0, present[..i])
    {
      var got := ctx.GetVariable(cs[i]);
      if got.Err? {
        assert present[..i] == cs[..k];
        return Err(got.error);
      }
      MarkedSnoc(v0, present, i);
      assert present[i] == cs[i];
      MarkOneIn(ctx, cs[i], Marked(v0, present[..i]));
      i := i + 1;
    }
    assert present[..i] == cs[..k];
    return Ok(());
  }

  /** One step of the marking loop: the variable `id` takes its decision value as its current
    * value when it has one. */
  method MarkOneIn(ctx: DataContext, id: string, ghost values: map<string, VarState>)
    requires ctx.Valid() && id in ctx.variables && ctx.Values() == values
    modifies ctx.variables.Values
    ensures ctx.Values() == MarkOne(values, id)
  {
    var st := ctx.variables[id].State();
    if st.dof.Some? {
      ctx.SetState(id, st.(current := st.dof));
    } else {
      assert ctx.Values()[id := st] == ctx.Values();
    }
  }

  /** A log ends with an error exactly when its last part does, when that part is not empty. */
  lemma StoppedAppend(a: seq<Event>, b: seq<Event>)
    ensures |b| > 0 ==> (Stopped(a + b) <==> Stopped(b)) && (a + b)[|a + b| - 1] == b[|b| - 1]
    ensures |b| == 0 ==> a + b == a
  {
  }


  /** A result added at the end changes the first error only when there was none. */
  lemma {:induction false} FirstErrSnoc(rs: seq<Result<()>>, x: Result<()>)
    ensures FirstErr(rs + [x]) == if FirstErr(rs).Some? then FirstErr(rs) else if x.Err? then Some(x.error) else None
  {
    if |rs| > 0 {
      assert (rs + [x])[1..] == rs[1..] + [x];
      FirstErrSnoc(rs[1..], x);
    }
  }

  /** Every optimizable input holds the solution's value for its last position in `ids`, as decision
    * and as recommended value. */
  predicate Solution(values: map<string, VarState>, ids: seq<string>, x: seq<real>) {
    forall i :: 0 <= i < |ids| && i < |x| && (forall j :: i < j < |ids| && j < |x| ==> ids[j] != ids[i]) ==>
      ids[i] in values && values[ids[i]].dof == Some(x[i]) && values[ids[i]].recommended == Some(x[i])
  }

  /** Writing back every pair of a solution leaves each input with its value. */
  lemma WrittenBack(before: map<string, VarState>, ids: seq<string>, x: seq<real>, present: set<string>)
    requires before.Keys == present
    requires Optimizers.Writable(Optimizers.Zip(ids, x), present) == |Optimizers.Zip(ids, x)|
    ensures Solution(Optimizers.Applied(before, Optimizers.Zip(ids, x)[..|Optimizers.Zip(ids, x)|], true), ids, x)
  {
    var pairs := Optimizers.Zip(ids, x);
    assert pairs[..|pairs|] == pairs;
    forall i | 0 <= i < |ids| && i < |x| && (forall j :: i < j < |ids| && j < |x| ==> ids[j] != ids[i])
      ensures var after := Optimizers.Applied(before, pairs, true);
              ids[i] in after && after[ids[i]].dof == Some(x[i]) && after[ids[i]].recommended == Some(x[i])
    {
      Optimizers.AppliedLast(before, pairs, true, i);
    }
  }
}
