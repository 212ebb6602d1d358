/** The skill records the strategy builds from the `skills` section: the common fields every skill
  * copies from its entry (src/strategy/skills/base.py), the class-specific settings each constructor
  * reads, and the class map that chooses the class. */
module Skills {
  import opened Wrappers
  import opened Texts
  import opened XReals
  import opened Dicts
  import opened Json
  import opened Config
  import opened Oracles
  import opened Artifacts

  /** The skill classes. `Constraints` is the template builder of the current code; `ConstraintScore`
    * is the piecewise score of rto/skills/constraints.py, which the legacy code calls `Constraint`. */
  datatype Kind = Inference | Math | Constraints | ConstraintScore | Composition | Optimization | BoundsBuilder

  /** `SKILL_CLASS_MAP` as the engine uses it. In the current code the `Constraint` entry is bound to
    * the class the constraints module defines, and `BoundsBuilderSkill` is registered (see the
    * as-written forms below). */
  function ClassMap(lineage: Lineage): map<string, Kind> {
    match lineage
    case Current =>
      map["InferenceModel" := Inference, "MathFunction" := Math, "Constraint" := Constraints,
          "CompositionSkill" := Composition, "OptimizationSkill" := Optimization,
          "BoundsBuilderSkill" := BoundsBuilder]
    case Legacy =>
      map["InferenceModel" := Inference, "MathFunction" := Math, "Constraint" := ConstraintScore,
          "CompositionSkill" := Composition, "OptimizationSkill" := Optimization]
  }

  /** The map of the current strategy as written: five entries, no `BoundsBuilderSkill`. */
  function ClassMapAsWritten(): map<string, Kind> {
    map["InferenceModel" := Inference, "MathFunction" := Math, "Constraint" := Constraints,
        "CompositionSkill" := Composition, "OptimizationSkill" := Optimization]
  }

  /** `self.SKILL_CLASS_MAP.get(config['class'])`: a missing `class` key raises `KeyError`; a `null`
    * class, like a name the map does not hold, raises `ValueError` naming the class as Python prints
    * it. */
  function ClassLookup(classes: map<string, Kind>, className: Field<string>): (r: Result<Kind>)
    ensures r.Ok? <==> className.Given? && className.value in classes
    ensures className.Absent? ==> r == Err(KeyError("class"))
    ensures className.Null? ==> r == Err(ValueError("Unknown skill class: None"))
    ensures className.Given? && className.value !in classes ==> r == Err(ValueError("Unknown skill class: " + className.value))
  {
    match className
    case Absent => Err(KeyError("class"))
    case Null => Err(ValueError("Unknown skill class: None"))
    case Given(c) => if c in classes then Ok(classes[c]) else Err(ValueError("Unknown skill class: " + c))
  }

  /** A bounds builder cannot be built with the map as written; the corrected map differs from it
    * exactly by that entry. */
  lemma BoundsBuilderUnknownAsWritten()
    ensures ClassLookup(ClassMapAsWritten(), Given("BoundsBuilderSkill")) == Err(ValueError("Unknown skill class: BoundsBuilderSkill"))
    ensures ClassLookup(ClassMap(Current), Given("BoundsBuilderSkill")) == Ok(BoundsBuilder)
    ensures ClassMap(Current) == ClassMapAsWritten()["BoundsBuilderSkill" := BoundsBuilder]
  {
    assert "BoundsBuilderSkill" != "InferenceModel" && "BoundsBuilderSkill" != "MathFunction"
      && "BoundsBuilderSkill" != "Constraint" && "BoundsBuilderSkill" != "CompositionSkill"
      && "BoundsBuilderSkill" != "OptimizationSkill";
    assert "BoundsBuilderSkill" !in ClassMapAsWritten();
    assert "Unknown skill class: " + "BoundsBuilderSkill" == "Unknown skill class: BoundsBuilderSkill";
  }

  /** The class names src/task/math_optimizer/strategy/skills/constraints.py defines. */
  const ConstraintsModuleClasses: set<string> := {"Constraints"}

  /** `from .skills.constraints import <name>` against that module. */
  function ImportFromConstraints(name: string): (r: Result<Kind>)
    ensures r.Ok? <==> name in ConstraintsModuleClasses
  {
    if name in ConstraintsModuleClasses then Ok(Constraints)
    else Err(ImportError("cannot import name '" + name + "' from 'task.math_optimizer.strategy.skills.constraints'"))
  }

  /** The import as written names `Constraint`, which fails, so the strategy module cannot be loaded;
    * importing the defined name gives the class the corrected map binds to `Constraint`. */
  lemma ConstraintImportAsWritten()
    ensures ImportFromConstraints("Constraint").Err? && ImportFromConstraints("Constraint").error.ImportError?
    ensures ImportFromConstraints("Constraints") == Ok(ClassMap(Current)["Constraint"])
  {
    assert "Constraint" != "Constraints" by {
      assert |"Constraint"| != |"Constraints"|;
    }
  }

  /** The settings each class's constructor reads from the entry's `config` block. None stands for a
    * setting that was given as `null`, which the constructors keep. */
  datatype KindSpec =
    | InferenceSpec(lagOffset: LagOffsetBlock, smoothing: SmoothingBlock, artifacts: Artifacts)
    | MathSpec(formula: Option<string>, dataframeFormula: Option<DataframeFormula>)
    | ConstraintsSpec(template: Option<Json>)
    | ScoreSpec(varMin: Option<XReal>, varMax: Option<XReal>, opMin: Option<XReal>, opMax: Option<XReal>)
    | CompositionSpec(names: Option<seq<string>>)
    | OptimizationSpec(costSkillName: Option<string>, costFeatureName: Option<string>, algorithm: Option<string>)
    | BoundsSpec

  /** The settings a kind carries. */
  predicate Fits(kind: Kind, spec: KindSpec) {
    match kind
    case Inference => spec.InferenceSpec?
    case Math => spec.MathSpec?
    case Constraints => spec.ConstraintsSpec?
    case ConstraintScore => spec.ScoreSpec?
    case Composition => spec.CompositionSpec?
    case Optimization => spec.OptimizationSpec?
    case BoundsBuilder => spec.BoundsSpec?
  }

  /** `cfg.get(k, default)` for a limit: absent reads as the default, `null` as None. */
  function LimitOf(f: Field<real>, default: Option<XReal>): Option<XReal> {
    match f
    case Absent => default
    case Null => None
    case Given(x) => Some(Fin(x))
  }

  /** `config['config'][k]` on a key that is present: `null` reads as None. */
  function Present<T>(f: Field<T>): Option<T> {
    if f.Given? then Some(f.value) else None
  }

  /** `config['config'].get(...)` on a `null` block. */
  const NoGet := AttributeError("'NoneType' object has no attribute 'get'")

  /** `config['config'][k]` on a `null` block. */
  const NotSubscriptable := TypeError("'NoneType' object is not subscriptable")

  /** `feature_engineering.get('lag_offset', {})`: an explicit `null` is kept, and the later `.get`
    * on it raises like on any other non-dict. */
  function LagOffsetOf(f: Field<LagOffsetBlock>): LagOffsetBlock {
    match f
    case Absent => Block(Empty())
    case Null => BlockNotADict
    case Given(b) => b
  }

  /** `feature_engineering.get('smoothing', {})`, likewise. */
  function SmoothingOf(f: Field<SmoothingBlock>): SmoothingBlock {
    match f
    case Absent => Smoothing(Absent, Absent)
    case Null => SmoothingNotADict
    case Given(b) => b
  }

  /** The class-specific part of each constructor. Every class but the bounds builder and the
    * template builder reads `config['config']`, so a missing block raises `KeyError`; a `null` block
    * raises `TypeError` where the constructor indexes it and `AttributeError` where it calls `.get`
    * on it (the template builder too, through `config.get('config', {})`). The current inference
    * model raises `AttributeError` on a null `feature_engineering`; the math function needs
    * `formula` and the optimizer `cost_skill_name` and `cost_feature_name` to be present, and keep
    * them as None when they are `null`. The inference model loads its artifacts here. */
  function SpecOf(kind: Kind, lineage: Lineage, cfg: SkillConfig, env: Env): (r: Result<KindSpec>)
    ensures r.Ok? ==> Fits(kind, r.value)
    ensures cfg.block.Absent? && kind !in {BoundsBuilder, Constraints} ==> r == Err(KeyError("config"))
    ensures cfg.block.Null? && kind in {Math, Optimization} ==> r == Err(NotSubscriptable)
    ensures cfg.block.Null? && kind in {Inference, ConstraintScore, Composition, Constraints} ==> r == Err(NoGet)
    ensures kind == BoundsBuilder ==> r.Ok?
    ensures kind == Constraints ==> (r.Ok? <==> !cfg.block.Null?)
    ensures kind == Constraints && cfg.block.Absent? ==> r == Ok(ConstraintsSpec(None))
    ensures kind == Math && cfg.block.Given? ==>
      (cfg.block.value.formula.Absent? <==> r.Err?)
      && (r.Err? ==> r.error == KeyError("formula"))
      && (r.Ok? ==> r.value.formula == Present(cfg.block.value.formula))
    ensures kind == Composition && cfg.block.Given? ==>
      r.Ok? && r.value.names == (match cfg.block.value.skillSequence
                                 case Absent => Some([])
                                 case Null => None
                                 case Given(l) => Some(l))
    ensures kind == Optimization && cfg.block.Given? ==>
      var b := cfg.block.value;
      (r.Ok? <==> !b.costSkillName.Absent? && !b.costFeatureName.Absent?)
      && (b.costSkillName.Absent? ==> r == Err(KeyError("cost_skill_name")))
      && (r.Ok? ==> r.value.costSkillName == Present(b.costSkillName)
                    && r.value.costFeatureName == Present(b.costFeatureName))
    ensures r.Ok? && kind == Optimization ==>
      r.value.algorithm == (match cfg.block.value.algorithm
                            case Absent => Some("SLSQP")
                            case Null => None
                            case Given(a) => Some(a))
    ensures kind == ConstraintScore && cfg.block.Given? ==>
      var b := cfg.block.value;
      r.Ok?
      && (b.varMin.Absent? ==> r.value.varMin == Some(NegInf))
      && (b.varMax.Absent? ==> r.value.varMax == Some(PosInf))
      && (b.varMin.Null? ==> r.value.varMin.None?)
      && (b.varMax.Null? ==> r.value.varMax.None?)
      && (b.opMin.Absent? ==> r.value.opMin == r.value.varMin)
      && (b.opMax.Absent? ==> r.value.opMax == r.value.varMax)
      && (b.opMin.Null? ==> r.value.opMin.None?)
      && (b.opMax.Null? ==> r.value.opMax.None?)
    ensures kind == Inference && lineage == Current && cfg.block.Given? ==>
      (cfg.block.value.featureEngineering.Null? <==> r.Err?)
      && (r.Ok? && cfg.block.value.featureEngineering.Given? ==>
            var fe := cfg.block.value.featureEngineering.value;
            (fe.lagOffset.Null? ==> r.value.lagOffset.BlockNotADict?)
            && (fe.smoothing.Null? ==> r.value.smoothing.SmoothingNotADict?))
  {
    match kind
    case BoundsBuilder => Ok(BoundsSpec)
    case Constraints =>
      (match cfg.block
       case Null => Err(NoGet)
       case Absent => Ok(ConstraintsSpec(None))
       case Given(b) => Ok(ConstraintsSpec(b.template)))
    case Inference =>
      (match cfg.block
       case Absent => Err(KeyError("config"))
       case Null => Err(NoGet)
       case Given(b) =>
         var arts := Load(env, lineage, GetList(cfg.inputs), b.modelPath, b.scalerPath, b.metadataPath);
         if lineage == Legacy then Ok(InferenceSpec(Block(Empty()), Smoothing(Absent, Absent), arts))
         else (match b.featureEngineering
               case Null => Err(NoGet)
               case Absent => Ok(InferenceSpec(Block(Empty()), Smoothing(Absent, Absent), arts))
               case Given(fe) =>
                 Ok(InferenceSpec(LagOffsetOf(fe.lagOffset), SmoothingOf(fe.smoothing), arts))))
    case Math =>
      (match cfg.block
       case Absent => Err(KeyError("config"))
       case Null => Err(NotSubscriptable)
       case Given(b) =>
         if b.formula.Absent? then Err(KeyError("formula"))
         else Ok(MathSpec(Present(b.formula), b.dataframeFormula)))
    case ConstraintScore =>
      (match cfg.block
       case Absent => Err(KeyError("config"))
       case Null => Err(NoGet)
       case Given(b) =>
         var vmin := LimitOf(b.varMin, Some(NegInf));
         var vmax := LimitOf(b.varMax, Some(PosInf));
         Ok(ScoreSpec(vmin, vmax, LimitOf(b.opMin, vmin), LimitOf(b.opMax, vmax))))
    case Composition =>
      (match cfg.block
       case Absent => Err(KeyError("config"))
       case Null => Err(NoGet)
       case Given(b) => Ok(CompositionSpec(GetListOrEmpty(b.skillSequence))))
    case Optimization =>
      (match cfg.block
       case Absent => Err(KeyError("config"))
       case Null => Err(NotSubscriptable)
       case Given(b) =>
         if b.costSkillName.Absent? then Err(KeyError("cost_skill_name"))
         else if b.costFeatureName.Absent? then Err(KeyError("cost_feature_name"))
         else
           var alg := match b.algorithm
                      case Absent => Some("SLSQP")
                      case Null => None
                      case Given(a) => Some(a);
           Ok(OptimizationSpec(Present(b.costSkillName), Present(b.costFeatureName), alg)))
  }

  /** `self.__class__.__name__`. */
  function ClassName(kind: Kind): string {
    match kind
    case Inference => "InferenceModel"
    case Math => "MathFunction"
    case Constraints => "Constraints"
    case ConstraintScore => "Constraint"
    case Composition => "CompositionSkill"
    case Optimization => "OptimizationSkill"
    case BoundsBuilder => "BoundsBuilderSkill"
  }

  /** `__repr__`: `ClassName(name='<name>')`. */
  function SkillRepr(className: string, name: string): (r: string)
    ensures StartsWith(r, className + "(name='")
    ensures |r| == |className| + |name| + 9
  {
    className + "(name='" + name + "')"
  }

  /** Two skills of one class print alike only when their names are equal. */
  lemma SkillReprInjective(className: string, n1: string, n2: string)
    requires SkillRepr(className, n1) == SkillRepr(className, n2)
    ensures n1 == n2
  {
    var k := |className| + 7;
    assert |n1| == |n2|;
    assert n1 == SkillRepr(className, n1)[k..k + |n1|];
    assert n2 == SkillRepr(className, n2)[k..k + |n2|];
  }

  /** The expression interpreter a math function keeps for its whole life; its symbol table is
    * updated in place on every execution. `symtable` holds the variable bindings only: the
    * interpreter's builtins (math and numpy functions, `pi`, `e`) are part of `Env.eval`. */
  class Evaluator {
    var symtable: map<string, Option<real>>

    constructor ()
      ensures symtable == map[]
    {
      symtable := map[];
    }
  }

  /** The resolved skills of a composition: the registry entry of every configured name, in order,
    * or `ValueError` naming the first name the registry lacks. */
  function Resolve(names: seq<string>, registry: map<string, Skill>): (r: Result<seq<Skill>>)
    ensures r.Ok? <==> (forall n :: n in names ==> n in registry)
    ensures r.Ok? ==> |r.value| == |names| && forall i :: 0 <= i < |names| ==> r.value[i] == registry[names[i]]
    ensures r.Err? ==> exists i :: 0 <= i < |names| && names[i] !in registry && r.error == ValueError("Skill '" + names[i] + "' not found in registry")
  {
    if |names| == 0 then Ok([])
    else if names[0] !in registry then Err(ValueError("Skill '" + names[0] + "' not found in registry"))
    else match Resolve(names[1..], registry)
      case Err(e) =>
        assert forall i :: 0 <= i < |names| - 1 ==> names[1..][i] == names[i + 1];
        Err(e)
      case Ok(rest) =>
        assert forall n :: n in names ==> n == names[0] || n in names[1..];
        Ok([registry[names[0]]] + rest)
  }

  /** `resolve_skills` over the names the constructor kept: a `null` `skill_sequence` makes the loop
    * raise `TypeError`. */
  function ResolveSequence(names: Option<seq<string>>, registry: map<string, Skill>): (r: Result<seq<Skill>>)
    ensures names.None? ==> r == Err(TypeError("'NoneType' object is not iterable"))
  {
    if names.None? then Err(TypeError("'NoneType' object is not iterable")) else Resolve(names.value, registry)
  }

  /** Resolution fails at the first name the registry lacks. */
  lemma {:induction false} ResolveFirstMissing(names: seq<string>, registry: map<string, Skill>, i: nat)
    requires i < |names| && names[i] !in registry && forall j :: 0 <= j < i ==> names[j] in registry
    ensures Resolve(names, registry) == Err(ValueError("Skill '" + names[i] + "' not found in registry"))
    decreases i
  {
    if i > 0 {
      assert names[0] in registry;
      ResolveFirstMissing(names[1..], registry, i - 1);
    }
  }

  class Skill {
    const name: string
    const kind: Kind
    const lineage: Lineage
    /** `config.get('inputs')` and `config.get('outputs')`: None when absent or null. */
    const inputs: Option<seq<string>>
    const outputs: Option<seq<string>>
    const spec: KindSpec
    const aeval: Evaluator
    /** The resolved skills of a composition. */
    var sequence: seq<Skill>
    /** Whether `set_strategy` has given the skill its strategy. */
    var hasStrategy: bool

    /** The common part of every constructor: the name as given, `inputs` and `outputs` without a
      * default, a fresh evaluator, no resolved sequence, no strategy. */
    constructor (name: string, kind: Kind, lineage: Lineage, cfg: SkillConfig, spec: KindSpec)
      requires Fits(kind, spec)
      ensures this.name == name && this.kind == kind && this.lineage == lineage && this.spec == spec
      ensures inputs == GetList(cfg.inputs) && outputs == GetList(cfg.outputs)
      ensures fresh(aeval) && aeval.symtable == map[]
      ensures sequence == [] && !hasStrategy
    {
      this.name := name;
      this.kind := kind;
      this.lineage := lineage;
      this.spec := spec;
      inputs := GetList(cfg.inputs);
      outputs := GetList(cfg.outputs);
      aeval := new Evaluator();
      sequence := [];
      hasStrategy := false;
    }

    function Repr(): string {
      SkillRepr(ClassName(kind), name)
    }

    /** `set_strategy`. */
    method SetStrategy()
      modifies this`hasStrategy
      ensures hasStrategy
    {
      hasStrategy := true;
    }

    /** `resolve_skills`: the sequence is reset, then each configured name's skill is appended; an
      * unknown name raises `ValueError` and leaves the skills resolved before it; a `null` list
      * raises `TypeError` with the sequence empty. */
    method ResolveSkills(registry: map<string, Skill>) returns (r: Result<()>)
      requires spec.CompositionSpec?
      modifies this`sequence
      ensures r.Ok? <==> ResolveSequence(spec.names, registry).Ok?
      ensures r.Err? ==> r.error == ResolveSequence(spec.names, registry).error
      ensures r.Ok? ==> sequence == ResolveSequence(spec.names, registry).value
      ensures spec.names.None? ==> sequence == []
      ensures spec.names.Some? ==>
                |sequence| <= |spec.names.value|
                && forall i :: 0 <= i < |sequence| ==> spec.names.value[i] in registry && sequence[i] == registry[spec.names.value[i]]
    {
      sequence := [];
      if spec.names.None? {
        return Err(TypeError("'NoneType' object is not iterable"));
      }
      var names := spec.names.value;
      var i := 0;
      while i < |names|
        invariant 0 <= i <= |names|
        invariant forall n :: n in names[..i] ==> n in registry
        invariant |sequence| == i && forall j :: 0 <= j < i ==> sequence[j] == registry[names[j]]
      {
        if names[i] !in registry {
          ResolveFirstMissing(names, registry, i);
          return Err(ValueError("Skill '" + names[i] + "' not found in registry"));
        }
        sequence := sequence + [registry[names[i]]];
        i := i + 1;
      }
      return Ok(());
    }
  }
}
