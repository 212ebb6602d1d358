# Process-optimization strategy engine, in Dafny

This project models the core of a process-optimization service. A *strategy* is a configuration
of process variables, skills and tasks. The engine builds a registry of typed skills from the
configuration and runs a cycle over a per-cycle `DataContext` of variables. The skills are
inference models, math functions, constraint templates, constraint scores, compositions,
a bounds builder and an optimizer. The cycle populates the variables from records and marks the
calculated variables as operative. It then runs each task's skills in order, and the optimizer
hands a bounded search to a solver and writes the solution back.

Two lineages of the engine are modelled side by side, selected by `Config.Lineage`:

- `Current` is src/task/math_optimizer/strategy/. It marks variables before the
  pre-calculation task, groups consecutive inference models inside a composition, clamps bounds
  to hard limits and dispatches among several scipy routines.
- `Legacy` is src/strategy/strategy.py with the rto/skills/ classes and
  src/strategy/skills/models.py. It marks variables after the pre-calculation task, runs
  compositions strictly in sequence, builds bounds inline, scores constraints piecewise and
  uses only Delta features.

Three smaller state machines are modelled as well:

- `MemoryCaches` and `CacheManagers` model utils/cache_manager.py: TTL caches over an explicit
  clock, version-triggered invalidation, a cached timestamp and read-through loaders.
- `InMemoryCaches` models src/storage/in_memory_cache.py: one prefix-keyed dictionary with
  version checks, clearing and statistics.
- `ApiService` models src/services/api_service.py: the request validator, the required-variable
  check, the extraction of results and the status codes.

Objects whose fields the source updates in place are classes: `Variable`, `DataContext`,
`Skill`, `Strategy`, `MemoryCache`, `CacheManager` and `InMemoryCache`. Their methods carry
`modifies` clauses and state the new state. Pure parts are functions with lemmas. The foreign
numeric collaborators are uninterpreted function parameters bundled in `Oracles.Env`: the
asteval evaluator, the pandas reduction, the artifact store, the torch network, the sklearn
scalers and the scipy solvers. A solver run is the sequence of evaluations it asks for and how
it ends. The engine replays those evaluations, so the objective's and the constraints' writes
into the context are part of the model. Exceptions are `Wrappers.Error` values carried by
`Result`.

## Model

| member | source | states |
|---|---|---|
| Skills.ClassLookup | src/task/math_optimizer/strategy/strategy.py:47-49 | the class of an entry is its `class` name's entry in the class map; a missing `class` key raises `KeyError`, a `null` class raises `ValueError("Unknown skill class: None")`, a name the map lacks raises `ValueError("Unknown skill class: …")`, and only a mapped name succeeds |
| Skills.BoundsBuilderUnknownAsWritten | src/task/math_optimizer/strategy/strategy.py:14-20 | with the five-entry map as written a `BoundsBuilderSkill` entry is rejected as unknown; the corrected map is the written one plus that entry, and resolves it to the bounds builder |
| Skills.ImportFromConstraints | src/task/math_optimizer/strategy/strategy.py:5 | importing a name from the constraints module succeeds exactly for the classes that module defines, and raises `ImportError` otherwise |
| Skills.ConstraintImportAsWritten | src/task/math_optimizer/strategy/strategy.py:5 | the import as written (`Constraint`) fails with `ImportError`, while the name the module defines (`Constraints`) imports the class the map binds to `Constraint` |
| Skills.SpecOf | src/task/math_optimizer/strategy/skills/optimizer.py:8-12 | each class's constructor settings: a missing `config` block raises `KeyError('config')` except for the bounds builder and the constraints template; a `null` block is not subscriptable for the math function and the optimizer (`TypeError`) and has no `get` for the others (`AttributeError`), except the bounds builder, which reads nothing; a missing `formula` or `cost_skill_name` raises `KeyError`, and a `null` one is kept as None; a missing `skill_sequence` is the empty list and a `null` one None; the optimizer's algorithm defaults to SLSQP only when absent; the score's operating limits default to its variable limits, which default to minus and plus infinity, and a `null` limit stays None; the current inference model (src/task/math_optimizer/strategy/skills/models.py:49-51) raises `AttributeError` exactly when `feature_engineering` is null; a null `lag_offset` or `smoothing` block is kept as a value that is not a dict |
| Skills.SkillRepr | src/strategy/skills/base.py:19-20 | the text of a skill begins with its class name and `(name='`, and is exactly nine characters longer than class name and skill name together |
| Skills.SkillReprInjective | src/strategy/skills/base.py:19-20 | two skills of one class print alike only when their names are equal |
| Skills.Evaluator.constructor | src/task/math_optimizer/strategy/skills/functions.py:10 | a math function starts with an interpreter holding no variable bindings; its builtins (math and numpy functions, `pi`, `e`) belong to the eval oracle |
| Skills.Resolve | src/task/math_optimizer/strategy/skills/composition.py:18-27 | resolution succeeds exactly when every configured name is registered, giving the registered skill of each name in order; otherwise the error is `ValueError` naming an unregistered name |
| Skills.ResolveFirstMissing | src/task/math_optimizer/strategy/skills/composition.py:24-26 | the error names the first configured name the registry lacks |
| Skills.ResolveSequence | src/task/math_optimizer/strategy/skills/composition.py:18-27 | a `null` sequence is not iterable and raises `TypeError` |
| Skills.Skill.constructor | src/strategy/skills/base.py:5-9 | a skill keeps its name, reads `inputs` and `outputs` without a default, and starts with no resolved sequence and no strategy |
| Skills.Skill.SetStrategy | src/task/math_optimizer/strategy/skills/optimizer.py:15 | after `set_strategy` the skill holds its strategy |
| Skills.Skill.ResolveSkills | rto/skills/composition.py:12-21 | the loop resets the sequence and appends each configured name's skill; it succeeds exactly when `Resolve` does, with the same sequence, and on failure raises the same error having kept only the skills resolved before it |
| Bounds.EffectiveThreshold | src/task/math_optimizer/strategy/skills/bounds.py:23 | a given threshold is used as is and a missing one reads as 0.0 |
| Bounds.WindowOrdered | src/task/math_optimizer/strategy/skills/bounds.py:25-29 | every window has its minimum at or below its maximum |
| Bounds.WindowWithinLimits | src/task/math_optimizer/strategy/skills/bounds.py:25-29 | with ordered hard limits the window lies within them |
| Bounds.WindowShape | src/task/math_optimizer/strategy/skills/bounds.py:25-29 | the clamped window `[max(lo, cur - t), min(hi, cur + t)]` is used exactly when it is ordered, otherwise the hard limits in order |
| Bounds.WindowHoldsCurrent | src/task/math_optimizer/strategy/skills/bounds.py:23-26 | a non-negative threshold around a current value inside ordered limits gives a window containing the current value |
| Bounds.BoundsMap | src/task/math_optimizer/strategy/skills/bounds.py:14-35 | the bounds map has an entry for exactly the inputs present in the context; it fails with `AttributeError` exactly when a present input has no hard limits |
| Bounds.BoundsMapOrdered | src/task/math_optimizer/strategy/skills/bounds.py:25-33 | every entry of a built bounds map is ordered, and lies within its variable's hard limits when those are ordered |
| Bounds.PlainVariableFails | src/task/math_optimizer/strategy/skills/bounds.py:25-26 | the builder reads `min_hard_limit` and `max_hard_limit` off the variable: a variable without those attributes (the shape of rto/variable.py) makes it raise `AttributeError`, while one that carries its configured limits gets a window |
| Bounds.Execute | src/task/math_optimizer/strategy/skills/bounds.py:14-35 | `execute` stores the bounds map of the skill's inputs (no inputs when `inputs` is None) as the dynamic bounds, raises its error leaving them unchanged, and changes nothing else in the context |
| Bounds.Collect | src/task/math_optimizer/strategy/skills/bounds.py:15-33 | the loop over the inputs computes `BoundsMap` |
| Bounds.BoundsMapSnoc | src/task/math_optimizer/strategy/skills/bounds.py:18-33 | one more input adds its window to the map, or raises, or is skipped when not in the context |
| Bounds.BoundsErrPersists | src/task/math_optimizer/strategy/skills/bounds.py:18-26 | once a prefix of the inputs raises, the whole list raises |
| ConstraintScores.LowerRatio | rto/skills/constraints.py:38-39 | below a distinct operating minimum the score is `(value - phys_min) / (op_min - phys_min)` for finite limits, 0.0 when the operating minimum is plus infinity, and NaN when the physical minimum is infinite |
| ConstraintScores.UpperRatio | rto/skills/constraints.py:40-41 | above a distinct operating maximum the score is `(phys_max - value) / (phys_max - op_max)` for finite limits, 0.0 when the operating maximum is minus infinity, and NaN when the physical maximum is infinite |
| ConstraintScores.ScoreInside | rto/skills/constraints.py:36-37 | a value within the operating limits scores 1 |
| ConstraintScores.ScoreInUnitRange | rto/skills/constraints.py:26-43 | with finite physical limits enclosing ordered operating limits, a value within the physical limits scores between 0 and 1, and scores 1 exactly when it is within the operating limits |
| ConstraintScores.ScoreBelowPhysical | rto/skills/constraints.py:38-39 | below a finite physical minimum, with a distinct operating minimum, the score is negative: the documented range 0..1 does not hold outside the physical limits |
| ConstraintScores.ScoreInfiniteMinimum | rto/skills/constraints.py:11-13 | with the default physical minimum of minus infinity, a value below a finite operating minimum scores NaN |
| ConstraintScores.ScoreOfNullable | rto/skills/constraints.py:25-43 | with every limit present the score is `ScoreOf`; a `null` limit raises `TypeError` where the code first compares or subtracts it, so a `null` operating minimum scores 0.0 or raises, and `null` operating limits on both sides always raise |
| ConstraintScores.Execute | rto/skills/constraints.py:16-50 | `execute` reads the input's decision value (None read as 0.0) and scores it with `ScoreOfNullable`, raising the scoring's `TypeError` before the output is looked up; otherwise it writes the score into the output's decision value and changes nothing else; it fails, changing nothing, when `inputs` or `outputs` is None (`TypeError`), empty (`IndexError`) or names an unknown variable (`KeyError`) |
| ConstraintTemplates.Kept | src/task/math_optimizer/strategy/skills/constraints.py:46 | an id is in the filtered list exactly when it is an input and optimizable; the filtered list is no longer than the inputs and a sub-multiset of them |
| ConstraintTemplates.KeptAppend | src/task/math_optimizer/strategy/skills/constraints.py:46 | filtering keeps the input order: it distributes over concatenation |
| ConstraintTemplates.EntryCheck | src/task/math_optimizer/strategy/skills/constraints.py:33-34 | a dict entry passes exactly when it has `predicted_var`, `op_min` and `op_max`, and otherwise raises the `ValueError` naming its index; a null, boolean or number entry raises `TypeError` |
| ConstraintTemplates.Validation | src/task/math_optimizer/strategy/skills/constraints.py:32-34 | validation passes exactly when every entry passes, and otherwise raises the error of a failing entry |
| ConstraintTemplates.ValidationOfDicts | src/task/math_optimizer/strategy/skills/constraints.py:32-34 | for a template of dicts, validation passes exactly when every entry has the three keys, and its error names a failing index |
| ConstraintTemplates.EntryConstraint | src/task/math_optimizer/strategy/skills/constraints.py:65-73 | a complete entry gives the constraint on its predicted variable with `float` of its limits, lower bounds 0 and upper bounds infinity; the first limit `float` rejects is the error, `op_min` before `op_max` |
| ConstraintTemplates.EntryConstraintText | src/task/math_optimizer/strategy/skills/constraints.py:66-67 | limits written as digit strings, signed or not, are read as the numbers they spell |
| ConstraintTemplates.Built | src/task/math_optimizer/strategy/skills/constraints.py:64-74 | building succeeds exactly when every entry builds, and then gives one constraint per entry in template order |
| ConstraintTemplates.Stored | src/task/math_optimizer/strategy/skills/constraints.py:26-76 | a template that is not a non-empty list stores `[]`; a failing validation raises its error; a non-empty stored list needs a strategy with an optimizer whose inputs exist and is the built list over its optimizable inputs |
| ConstraintTemplates.StoredWithoutStrategy | src/task/math_optimizer/strategy/skills/constraints.py:38 | without a linked strategy a valid, non-empty template stores no constraint at all |
| ConstraintTemplates.StoredPerEntry | src/task/math_optimizer/strategy/skills/constraints.py:38-76 | with a linked strategy whose optimizer has inputs, a valid template of dicts with numeric limits stores one constraint per entry, in order, on the entry's predicted variable and limits over the optimizable inputs |
| ConstraintTemplates.ConstraintFeasible | src/task/math_optimizer/strategy/skills/constraints.py:58-73 | a built constraint is satisfied exactly when the predicted value lies within `[op_min, op_max]` |
| ConstraintTemplates.Validate | src/task/math_optimizer/strategy/skills/constraints.py:32-34 | the validation loop computes `Validation` |
| ConstraintTemplates.ValidationErrPersists | src/task/math_optimizer/strategy/skills/constraints.py:32-34 | once a prefix fails validation, the whole template fails with the same error |
| ConstraintTemplates.Build | src/task/math_optimizer/strategy/skills/constraints.py:64-74 | the build loop computes `Built` |
| ConstraintTemplates.BuiltErrPersists | src/task/math_optimizer/strategy/skills/constraints.py:64-74 | once a prefix fails to build, the whole template fails with the same error |
| ConstraintTemplates.Execute | src/task/math_optimizer/strategy/skills/constraints.py:26-76 | `execute` succeeds exactly when `Stored` does, replacing the solver constraints with its list; an error leaves them unchanged; the frame and the dynamic bounds never change |
| Schedules.Entry | src/task/math_optimizer/strategy/strategy.py:47-55 | an entry builds only when its class name is in the lineage's class map, with the mapped class and settings that fit it; a failed lookup is the entry's error |
| Schedules.Entries | src/strategy/strategy.py:53-62 | the first pass builds every listed entry, keyed by name, each as `Entry` gives it, and succeeds exactly when every entry builds |
| Schedules.FirstMissing | src/strategy/strategy.py:69-71 | no name is reported exactly when every name is registered; a reported name is listed and unregistered |
| Schedules.CompositionError | src/strategy/strategy.py:68-71 | a composition's names resolve exactly when they are a list of registered names; `null` names raise `TypeError`, and an unregistered name a `ValueError` naming it |
| Schedules.Unresolved | src/strategy/strategy.py:68-71 | the second pass reports no error exactly when every composition's names are a list of registered skills |
| Schedules.BuildRejectsUnknownClass | src/strategy/strategy.py:54-56 | building fails for a skill whose `class` is missing, `null` or not in the class map |
| Schedules.MarkedEffect | src/strategy/strategy.py:184-196 | marking sets a calculated variable's current value to its decision value when it has one; every other variable, and every other field, is unchanged |
| Schedules.Marked | src/task/math_optimizer/strategy/strategy.py:254-260 | marking a list of ids in order changes no variable's presence |
| Schedules.MarkedIdempotent | src/task/math_optimizer/strategy/strategy.py:246-263 | marking twice is marking once |
| Schedules.StepEvents | src/task/math_optimizer/strategy/strategy.py:233-242 | the steps of one listed skill end with running it, or with the configuration error that stops the cycle, and no earlier step is an error |
| Schedules.ChainMonotone | src/task/math_optimizer/strategy/strategy.py:226-242 | the steps of a prefix of a task list (or of a task's skills) are a prefix of the whole schedule |
| Schedules.ChainFailsOnlyAtEnd | src/strategy/strategy.py:163-171 | when every step's events can end with an error only at their last event, so can the events of the whole chain |
| Schedules.TaskFailsOnlyAtEnd | src/strategy/strategy.py:163-175 | within one task, a configuration error can only be the last step |
| Schedules.StoppedOnlyAtEnd | src/task/math_optimizer/strategy/strategy.py:226-244 | a configuration error anywhere in the cycle is its last step: nothing runs after it |
| StrategyQueries.IdsOfType | src/task/math_optimizer/strategy/strategy.py:68-108 | an id query succeeds exactly when every variable has a `type` key, and otherwise raises `KeyError('type')`; the ids are those whose type is given and equal to the kind asked for |
| StrategyQueries.NullTypeNoKind | src/task/math_optimizer/strategy/strategy.py:68-108 | a variable whose `type` is `null` does not make the id queries raise and is of no kind |
| StrategyQueries.MatchingMembers | src/strategy/strategy.py:75-115 | the ids of one kind are exactly the configured ids of that kind |
| StrategyQueries.MatchingDistinct | src/strategy/strategy.py:75-115 | each id of a kind is listed once |
| StrategyQueries.KindsDisjoint | src/task/math_optimizer/strategy/strategy.py:68-108 | the id lists of two different kinds share no id |
| StrategyQueries.FirstTaskNamed | src/task/math_optimizer/strategy/strategy.py:131-135 | the search finds a task of the name, listed in the configuration, and finds none exactly when no task has the name |
| StrategyQueries.InputsOf | src/task/math_optimizer/strategy/strategy.py:137-143 | the fixed inputs are exactly the inputs of the listed, configured skills; it raises `TypeError` exactly when a listed non-empty entry has `inputs: null` |
| StrategyQueries.FixedInputs | src/strategy/strategy.py:129-152 | without a pre-calculation task nothing is fixed |
| StrategyQueries.OptimizableSpec | src/task/math_optimizer/strategy/strategy.py:110-120 | the optimizable ids are exactly the calculated ids and the operative ids the pre-calculation task does not fix; no fixed input is among them, and no id is listed twice |
| StrategyQueries.CalcInputs | src/task/math_optimizer/strategy/strategy.py:155-160 | every recorded calculated id is an output of a math function, and its recorded inputs are that function's inputs |
| StrategyQueries.LastWriter | src/task/math_optimizer/strategy/strategy.py:155-160 | the position found is a math function listing the output, and no later skill is one; none is found exactly when no skill is one |
| StrategyQueries.CalcInputsLast | src/task/math_optimizer/strategy/strategy.py:155-160 | a calculated id is recorded exactly when some math function lists it as an output, and its recorded inputs are those of the last such function in configuration order |
| StrategyQueries.Record | src/task/math_optimizer/strategy/strategy.py:158-160 | recording a function's outputs sets the inputs of exactly its calculated outputs and keeps every other entry |
| StrategyQueries.Flattened | src/task/math_optimizer/strategy/strategy.py:166-168 | the collected raw ids are exactly the recorded inputs of the calculated ids |
| StrategyQueries.Dedup | src/task/math_optimizer/strategy/strategy.py:163-171 | deduplication keeps exactly the elements of its input |
| StrategyQueries.DedupSpec | src/task/math_optimizer/strategy/strategy.py:163-171 | the deduplicated list has no repetition, and each element keeps the place of its first occurrence |
| StrategyQueries.RawCandidatesSource | src/task/math_optimizer/strategy/strategy.py:147-172 | every raw variable is an input of a math function that outputs a calculated variable |
| StrategyQueries.RawCandidatesExactly | src/task/math_optimizer/strategy/strategy.py:147-172 | a name is a raw candidate exactly when it is an input of the math function recorded for some calculated id |
| StrategyQueries.RawVars | src/task/math_optimizer/strategy/strategy.py:147-172 | `get_raw_vars_from_calculated_vars` is the deduplicated list of the calculated variables' inputs, or the error of reading the configuration |
| StrategyQueries.ExtremesSpec | src/task/math_optimizer/strategy/strategy.py:201-209 | without any lag/offset entry the result is `(None, None)`; otherwise it is the smallest lag and the largest lag plus offset, both attained by some entry |
| StrategyQueries.LagOffsetBounds | src/task/math_optimizer/strategy/strategy.py:174-209 | the nested loops compute the extremes over the dict entries of every dict `lag_offset` block of the inference models, a missing lag or offset counting as 0 |
| StrategyQueries.NullLagRaises | src/task/math_optimizer/strategy/strategy.py:198-200 | a null `lag` or `offset` in any dict entry of a block makes the block raise |
| StrategyQueries.AllWindowsErrPersists | src/task/math_optimizer/strategy/strategy.py:184-204 | once the skills up to some point raise, the whole query raises with that error |
| StrategyQueries.NullConfigRaises | src/task/math_optimizer/strategy/strategy.py:183-185 | an inference model whose `config` is `null` makes the lag/offset query raise |
| StrategyQueries.Scan | src/task/math_optimizer/strategy/strategy.py:184-195 | one skill's pass extends the accumulators by that skill's windows |
| StrategyQueries.ScanEntries | src/task/math_optimizer/strategy/strategy.py:195-204 | the inner loop extends the accumulators by the windows of the block's dict entries |
| MathFunctions.Readings | src/task/math_optimizer/strategy/skills/functions.py:36-50 | a math function can read the decision value, current value and threshold of every variable of the context, and of nothing else |
| MathFunctions.BindReads | src/task/math_optimizer/strategy/skills/functions.py:40-52 | binding one input sets `<id>_dof` and the bare id to its decision value and `<id>_current` to its current value (None read as 0.0), `<id>_threshold` to its threshold unless that is 0.0, and leaves every other name as it was |
| MathFunctions.BindAllSpec | src/task/math_optimizer/strategy/skills/functions.py:35-52 | after the loop every name of every input is bound; the last input's values are the ones that stay; a name no input binds keeps its old value, so bindings of earlier executions remain |
| MathFunctions.PresentPrefix | src/task/math_optimizer/strategy/skills/functions.py:35-36 | the loop gets through exactly the inputs before the first id that is not a variable |
| MathFunctions.EvalNumber | src/task/math_optimizer/strategy/skills/functions.py:57-69 | the evaluated value is the interpreter's number, and 0.0 when evaluation raises or gives None |
| MathFunctions.OutputTarget | src/task/math_optimizer/strategy/skills/functions.py:72-73 | the result goes to the first output exactly when the output list is given and non-empty |
| MathFunctions.BindInputs | src/task/math_optimizer/strategy/skills/functions.py:35-52 | the symbol-table loop binds the inputs in order up to the first unknown id, and raises `KeyError` for that id |
| MathFunctions.Execute | src/task/math_optimizer/strategy/skills/functions.py:33-74 | `execute` raises `TypeError` for `inputs` None and `KeyError` for an unknown input, changing no value; a `null` formula whose evaluation raises makes the handler's `in` test raise `TypeError`, changing no value; otherwise the evaluated number replaces the decision value of the first output, an unknown output raises `KeyError`, no output writes nothing, and no other value changes |
| MathFunctions.WriteResult | src/task/math_optimizer/strategy/skills/functions.py:72-74 | the number replaces the first output's decision value and nothing else; an unknown output raises `KeyError` |
| MathFunctions.CallResolve | src/task/math_optimizer/strategy/skills/functions.py:12 | a call of `resolve_dataframe_formula` succeeds exactly with its one argument |
| MathFunctions.ResolveCallAsWritten | src/task/math_optimizer/strategy/strategy.py:238 | the call with the skill name and the context raises `TypeError` ("takes 2 positional arguments but 3 were given"); the call with the context alone is accepted |
| MathFunctions.SelectColumns | src/task/math_optimizer/strategy/skills/functions.py:30 | `df[inputs]` succeeds exactly when every input is a column, and selects those columns in input order |
| MathFunctions.ResolvedFrame | src/task/math_optimizer/strategy/skills/functions.py:27-31 | on success the snapshot keeps its rows and every other column and gains or replaces the first output's column, one value per row; no dataframe formula raises `AttributeError`, no snapshot `TypeError`, `inputs` None `KeyError` |
| MathFunctions.ResolveDataframeFormula | src/task/math_optimizer/strategy/skills/functions.py:12-31 | the snapshot is replaced by the resolved one; on an error it is unchanged; bounds and solver constraints never change |
| Optimizers.Zip | src/task/math_optimizer/strategy/skills/optimizer.py:170 | `zip` pairs the i-th id with the i-th value and stops at the shorter list |
| Optimizers.ZeroCurrents | src/task/math_optimizer/strategy/skills/optimizer.py:59-65 | a visited input with no current value gets 0.0 as current and decision value; every other variable, and every input with a current value, is unchanged |
| Optimizers.PrepareRun | src/task/math_optimizer/strategy/skills/optimizer.py:59-85 | a completed preparation has visited every input and holds one start value and one bound pair per input |
| Optimizers.FirstUnready | src/task/math_optimizer/strategy/skills/optimizer.py:59-80 | the loop gets past exactly the inputs before the first one that is missing, lacks hard limits or lacks dynamic bounds |
| Optimizers.PrepareRunOk | src/task/math_optimizer/strategy/skills/optimizer.py:59-85 | preparation succeeds exactly when every input is ready, and then starts each input at its current value (None read as 0.0) with its dynamic bounds (current engine) or its threshold window (legacy) |
| Optimizers.PrepareRunErr | src/task/math_optimizer/strategy/skills/optimizer.py:60-80 | a failing preparation stops at the first input that is not ready with that input's error (`KeyError`, `AttributeError` for missing hard limits, `RuntimeError` for missing dynamic bounds), having visited the inputs before it |
| Optimizers.PrepareErrPersists | src/task/math_optimizer/strategy/skills/optimizer.py:59-85 | once preparing a prefix of the inputs fails, preparing all of them fails with the same error |
| Optimizers.PrepareRunGetsThrough | src/task/math_optimizer/strategy/skills/optimizer.py:59-85 | preparation succeeds exactly when no input is unready |
| Optimizers.PreparedWithinHardLimits | src/task/math_optimizer/strategy/skills/optimizer.py:77-84 | in the current engine, inputs whose bounds the bounds builder produced are searched inside ordered bounds that lie within ordered hard limits |
| Optimizers.LegacyBoundsCentred | rto/skills/optimizer.py:51-69 | in the legacy engine preparation succeeds when every input is in the context, and each input's bounds are its start value minus and plus its threshold (1.0 when None), holding the start value for a non-negative threshold |
| Optimizers.Prepare | src/task/math_optimizer/strategy/skills/optimizer.py:50-85 | the preparation loop answers `PrepareRun` and zeroes the missing current values of exactly the inputs it visited |
| Optimizers.Visit | rto/skills/optimizer.py:52-69 | one pass zeroes a missing current value together with the decision value, then gives the input's start value and bounds or its error |
| Optimizers.PlanOf | src/task/math_optimizer/strategy/skills/optimizer.py:96-163 | the stripped algorithm name (None read as empty) picks the routine: the native ones run `minimize` with 1000 iterations and the constraints, `differential_evolution` and `shgo` run with their fixed settings, and every other name runs `minimize` with the constraints and falls back on the same call without them |
| Optimizers.PlanIgnoresSpace | src/task/math_optimizer/strategy/skills/optimizer.py:97 | white space around the configured name does not change the routine chosen |
| Optimizers.LegacyPlan | rto/skills/optimizer.py:73-85 | the legacy engine makes one `minimize` call with the configured method as given, 1000 iterations, `ftol` 1e-8, the prepared bounds and no constraints |
| Optimizers.Writable | src/task/math_optimizer/strategy/skills/optimizer.py:170-171 | the writes get through exactly the pairs before the first variable missing from the context |
| Optimizers.Applied | src/task/math_optimizer/strategy/skills/optimizer.py:170-173 | writing keeps the set of variables |
| Optimizers.AppliedUntouched | src/task/math_optimizer/strategy/skills/optimizer.py:170-173 | writes never change a current value, and leave a variable no pair names as it was |
| Optimizers.AppliedLast | src/task/math_optimizer/strategy/skills/optimizer.py:170-173 | a written variable takes the value of the last pair naming it, as decision value and, in the write-back, as recommended value |
| Optimizers.WriteValues | src/task/math_optimizer/strategy/skills/optimizer.py:36-39 | the objective's writes (decision values) and the write-back's (decision and recommended values) are applied pair by pair, raising `KeyError` at the first missing variable after the writes before it |
| Optimizers.Verdict | src/task/math_optimizer/strategy/skills/optimizer.py:164-176 | only a successful run is written back, with the solver's point; a failed run raises `RuntimeError("Optimization failed: …")`, a raised exception propagates |
| Optimizers.WriteBack | rto/skills/optimizer.py:87-95 | on success every optimizable input takes the solver's value as decision and recommended value, in zip order; on failure nothing is written |
| Inference.Views | src/task/math_optimizer/strategy/skills/models.py:143-145 | the model can read the kind and values of every variable of the context, and of nothing else |
| Inference.SliceBound | src/task/math_optimizer/strategy/skills/models.py:171 | a slice bound counts from the end when negative and is clamped into the sequence |
| Inference.Slice | src/task/math_optimizer/strategy/skills/models.py:171 | a slice is the elements between its normalised bounds, and empty when they cross |
| Inference.WindowLength | src/task/math_optimizer/strategy/skills/models.py:166-171 | a lag of 0 gives an empty window; a positive lag and non-negative offset give the `offset` rows ending `lag` rows before the last, as many as exist |
| Inference.Numbers | src/task/math_optimizer/strategy/skills/models.py:177-183 | a window's readings are its numbers with missing readings skipped; a text, list or dict cell makes the reduction raise |
| Inference.MeanBounded | src/task/math_optimizer/strategy/skills/models.py:180-183 | the mean of a window lies between any lower and upper bound of its readings |
| Inference.EwmStep | src/task/math_optimizer/strategy/skills/models.py:176-179 | one cell of the pandas recurrence keeps the weight in [0, 1], and there is a value after it exactly when there was one before or the cell is a reading |
| Inference.EwmStarted | src/task/math_optimizer/strategy/skills/models.py:176-179 | the recurrence has a value exactly when the window holds a reading; a window of only missing cells gives NaN |
| Inference.EwmGapFree | src/task/math_optimizer/strategy/skills/models.py:176-179 | on a window without missing cells the recurrence is the textbook `y = (1 - alpha) y + alpha x` |
| Inference.EwmAcrossGap | src/task/math_optimizer/strategy/skills/models.py:176-179 | a missing cell between two readings decays the earlier one's weight: `[0, NaN, 1]` at 0.5 gives 2/3, not the 0.5 of dropping the gap |
| Inference.EwmBounded | src/task/math_optimizer/strategy/skills/models.py:176-179 | with a smoothing factor in (0, 1] the exponentially weighted mean lies between any bounds of the readings |
| Inference.EwmAlphaOne | src/task/math_optimizer/strategy/skills/models.py:177-179 | a smoothing factor of 1 keeps only the last reading |
| Inference.Difference | src/task/math_optimizer/strategy/skills/models.py:146-148 | the difference `dof_value - current_value` is defined exactly when both are set, and raises `TypeError` otherwise |
| Inference.EntryOf | src/task/math_optimizer/strategy/skills/models.py:150 | looking up a variable's lag/offset entry fails exactly when the block is not a dict |
| Inference.VariationOf | src/task/math_optimizer/strategy/skills/models.py:150 | the variation is read exactly when the variable's entry is a dict, and is that entry's `variation` |
| Inference.Smoothed | src/task/math_optimizer/strategy/skills/models.py:160-183 | an unknown smoothing method, null included, leaves the value at 0; `ewm` takes the factor 0.7 when absent, raises `ValueError` for a null factor or one outside (0, 1], and otherwise gives the last value of the recurrence over the window, gaps included; `mean` gives the mean of the readings; a window without readings gives NaN (None); a smoothed number lies between the window's lowest and highest reading |
| Inference.WindowFeature | src/task/math_optimizer/strategy/skills/models.py:160-183 | in the order the code reads them, the windowed feature needs a dict smoothing block (`AttributeError`), a snapshot (`TypeError`), the variable's column (`KeyError`) and a non-null `lag` and `offset` (`TypeError`); an empty window gives 0; otherwise it is the smoothed window with `mean` as the default method, and a null method gives 0 |
| Inference.FeatureOf | src/task/math_optimizer/strategy/skills/models.py:143-184 | a `Delta` input gives its difference in both engines; the legacy engine gives 0 for every other kind; the current engine follows the configured variation for operative, calculated and informative inputs (`Increment` the difference, `Absolute` the decision value for operative and calculated ones and the smoothed window of the lag/offset entry for informative ones, otherwise 0) and gives 0 for other kinds, a `null` type included |
| Inference.Features | src/task/math_optimizer/strategy/skills/models.py:143-184 | the features are one per input, each as `FeatureOf` gives it for that input's variable |
| Inference.Scaled | src/task/math_optimizer/strategy/skills/models.py:204-213 | each input whose scaler key (`delta_` removed) has a scaler is transformed by it, every other input passes through unchanged |
| Inference.ScaledUnscaled | src/task/math_optimizer/strategy/skills/models.py:204-213 | with no scaler for any input, scaling is the identity |
| Inference.FeatureNumbers | src/task/math_optimizer/strategy/skills/models.py:200-201 | the features are all numbers exactly when none is None |
| Inference.PredictionNoneFeature | src/strategy/skills/models.py:206-207 | a None feature makes the prediction 0.0 |
| Inference.PredictionUnscaled | src/task/math_optimizer/strategy/skills/models.py:197-233 | with no scaler for any input or the output, the prediction is the output's current value plus the network's output on the raw features |
| Inference.Predict | src/task/math_optimizer/strategy/skills/models.py:197-238 | `_predict_with_nn` computes `Prediction`: every exception on the way gives 0.0 |
| Inference.ScaleFeatures | src/strategy/skills/models.py:209-219 | the scaling loop computes `Scaled` |
| Inference.ScaledErrPersists | src/strategy/skills/models.py:209-219 | once scaling a prefix fails, scaling the whole list fails |
| Inference.CollectFeatures | src/strategy/skills/models.py:180-191 | the feature loop computes `Features` |
| Inference.FeaturesErrPersists | src/task/math_optimizer/strategy/skills/models.py:143-184 | the first failing input decides the error of the whole list |
| Inference.Execute | src/task/math_optimizer/strategy/skills/models.py:139-195 | `execute` raises `TypeError` for `inputs` None and the first feature's error, changing nothing; then writes the prediction (or 0.0 without loaded artifacts) into the first output's decision value, raising `TypeError`, `IndexError` or `KeyError` for a None, empty or unknown output; nothing else changes |
| Engine.GroupEnd | src/task/math_optimizer/strategy/skills/composition.py:46-50 | the inference group that starts at `i` runs up to the first skill that is not an inference model, or to the end |
| Engine.OptimizerSetup | src/task/math_optimizer/strategy/skills/optimizer.py:19-30 | `RuntimeError` without a strategy reference, `KeyError` for a `null` or unregistered cost skill; succeeds exactly when the reference is set, the cost skill is registered, the optimizable ids are computable and `inputs` is present; the result holds exactly the inputs that are optimizable, in a sub-multiset of `inputs` |
| Engine.FirstOptimizer | src/task/math_optimizer/strategy/skills/constraints.py:41-46 | there is no optimizer reference exactly when no registered skill is an optimization skill |
| Engine.Predicted | src/task/math_optimizer/strategy/skills/constraints.py:56-57 | the predicted variable is found exactly when the entry is a string naming a context variable |
| Engine.ResolveNamesFirstMissing | rto/skills/composition.py:12-21 | `resolve_skills` fails exactly when some name is unregistered, with the `ValueError` naming the first such name |
| Engine.ResolveSequenceError | rto/skills/composition.py:12-21 | resolving a composition raises exactly when the second pass expects an error of its names, and the same error |
| Engine.UnresolvedStep | src/task/math_optimizer/strategy/strategy.py:61-64 | a skill whose names all resolve does not change which composition fails first in the second pass |
| Engine.ClosedRegistry | src/task/math_optimizer/strategy/strategy.py:42-66 | a registry of made and resolved skills is closed: each skill has its class's settings and a composition holds only registered skills |
| Engine.Create | src/task/math_optimizer/strategy/strategy.py:52-59 | a new skill carries its name, class, settings and `inputs`; the strategy reference is given to the optimization skill (and, in the current engine, to the constraints skill); no sequence yet |
| Engine.Instantiate | src/task/math_optimizer/strategy/strategy.py:46-59 | the first pass registers exactly the configured names, one fresh, distinct skill each, made from its entry |
| Engine.ResolveOne | src/task/math_optimizer/strategy/skills/composition.py:18-27 | resolving a skill fails exactly for a composition whose names are `null` (`TypeError`) or hold an unregistered name (the `ValueError` for the first); otherwise the composition holds the registered skills of its names in order |
| Engine.ResolveAll | src/task/math_optimizer/strategy/strategy.py:61-64 | the second pass fails exactly when some composition has an unregistered name, with the error of the first such composition in configuration order; otherwise every composition is resolved |
| Engine.ResolveNext | src/task/math_optimizer/strategy/strategy.py:62-64 | one step of the second pass: an error is the first unresolved composition's, success extends the resolved prefix |
| Engine.BuildRegistry | src/task/math_optimizer/strategy/strategy.py:42-66 | `_build_skills` fails exactly when the configuration has a build error (unknown class, missing settings, unresolved name), with that error; otherwise every configured skill is built from its entry, fresh, and the registry is closed |
| Engine.BuildFrom | src/strategy/strategy.py:49-73 | both passes over entries whose class and settings are known: fails exactly with the first unresolved composition's error, otherwise a closed registry of the configured names |
| Engine.NewStrategy | src/task/math_optimizer/strategy/strategy.py:36-40 | the constructor fails exactly with the configuration's build error; otherwise it keeps the lineage, configuration and environment and holds a valid, fresh, built registry |
| Engine.Strategy.constructor | src/strategy/strategy.py:43-47 | the strategy holds the lineage, configuration, environment and registry it is given |
| Engine.Strategy.Run | src/strategy/skills/base.py:11-17 | the dispatch of `execute` by class raises before doing anything when the nesting bound is used up |
| Engine.Strategy.RunComposition | src/task/math_optimizer/strategy/skills/composition.py:29-67 | success runs the whole sequence in order; a failure has run a non-empty prefix of it; in the current engine a failing inference model ends a whole inference group |
| Engine.Strategy.RunGroup | src/task/math_optimizer/strategy/skills/composition.py:53-67 | every model of the group runs and the group's failure is the first error among their results |
| Engine.Strategy.RunOptimizer | src/task/math_optimizer/strategy/skills/optimizer.py:19-30 | a setup error is raised with the context untouched; on success the optimized ids are the setup's and each holds its solution value |
| Engine.Strategy.Optimize | src/task/math_optimizer/strategy/skills/optimizer.py:50-176 | on success every optimizable input holds the solution's value as decision and recommended value |
| Engine.Strategy.Attempt | src/task/math_optimizer/strategy/skills/optimizer.py:141-163 | without a fallback the outcome is the planned call's; with one it is the planned call's when that does not raise, else the bounds-only call's |
| Engine.Strategy.Search | src/task/math_optimizer/strategy/skills/optimizer.py:96-140 | a scipy call that gets through all its evaluations ends as the solver says |
| Engine.Strategy.Evaluate | src/task/math_optimizer/strategy/skills/constraints.py:48-62 | a constraint index the call does not have changes nothing |
| Engine.Strategy.LegacyLookup | src/strategy/strategy.py:198-210 | the lookups fail exactly when a fixed input, or then a remaining operative id, is missing from the context, with a `KeyError` naming one; a query error is passed on |
| Engine.Strategy.MarkCalculated | src/task/math_optimizer/strategy/strategy.py:246-263 | the calculated ids present in order are marked and the first missing one raises `KeyError`; the current engine then succeeds, the legacy one makes its lookups |
| Engine.Strategy.RunStep | src/task/math_optimizer/strategy/strategy.py:233-242 | one listed skill: success produces exactly its scheduled events; a failure produced a non-empty prefix of them ending with its error |
| Engine.Strategy.ResolveBefore | src/task/math_optimizer/strategy/strategy.py:234-238 | the resolution step produces exactly its scheduled events; a failure ends with its error |
| Engine.Strategy.RunNames | src/task/math_optimizer/strategy/strategy.py:233-242 | a task's skills: success produces exactly the scheduled events, a failure a prefix of them ending with its error |
| Engine.Strategy.RunTask | src/strategy/strategy.py:163-175 | one task, with marking before (current) or after (legacy) the pre-calculation skills: success produces exactly its scheduled events, a failure a prefix ending with its error |
| Engine.Strategy.RunCycle | src/task/math_optimizer/strategy/strategy.py:211-244 | a fresh context on the configured variables; no records raise `ValueError` before any task; success goes through the whole schedule, a failure through a prefix of it ending with its error |
| Engine.Strategy.RunTasks | src/strategy/strategy.py:162-177 | every task in order: success goes through the whole schedule, a failure through a prefix ending with its error |
| Engine.MarkIds | src/strategy/strategy.py:186-196 | the ids present in order are marked and the first missing one raises `KeyError`; success exactly when all are present |
| Engine.MarkOneIn | src/task/math_optimizer/strategy/strategy.py:255-260 | a variable with a decision value takes it as its current value; otherwise nothing changes |
| Engine.StoppedAppend | src/strategy/strategy.py:163-171 | a log ends with an error exactly when its non-empty last part does |
| Engine.FirstErrSnoc | src/task/math_optimizer/strategy/skills/composition.py:62-67 | a later result changes the first error only when there was none |
| Engine.WrittenBack | src/task/math_optimizer/strategy/skills/optimizer.py:170-173 | writing back a full solution leaves every input with the value of its last position, as decision and recommended value |
| Config.GetOrDefault | src/task/math_optimizer/strategy/skills/models.py:161-167 | `d.get(k, default)`: an absent key gives the default, an explicit null gives None, a given value is kept |
| Config.LagAndOffset | src/task/math_optimizer/strategy/skills/models.py:166-171 | `lag` and `offset` default to 0 when absent; the sum raises `TypeError` exactly when either is null |
| Variables.ThresholdOf | rto/variable.py:11 | an absent `threshold` defaults to 0.0, an explicit null stays None, a given one is kept |
| Variables.Variable.constructor | rto/variable.py:5-16 | a variable keeps its id; an absent type defaults to `Unknown` and absent units to the empty string, a `null` one stays None and a given one is kept; threshold as `ThresholdOf`; the three values start as None |
| Variables.Variable.SetInitialValue | rto/variable.py:27-31 | the initial value becomes the current, decision and recommended value at once |
| Variables.ValueReprRoundTrip | rto/variable.py:18-25 | a value's `__repr__` field reads back as `None` for no value, and otherwise as its two-decimal rounding, within half a hundredth of it |
| DataContexts.Normalize | src/task/math_optimizer/strategy/data_context.py:36-43 | empty records raise `ValueError` and nothing else does; a flat dict becomes one row without timestamp, a record dict one row, a list is kept |
| DataContexts.ConversionsUpToSpec | src/task/math_optimizer/strategy/data_context.py:53-56 | over the first n keys, every assigned value is `float` of the value under a known key; the pass stops exactly when some known key among them is rejected, with that rejection; otherwise every known key among them is assigned |
| DataContexts.ConversionsSpec | src/task/math_optimizer/strategy/data_context.py:53-56 | every assigned value is `float` of the record's value for a known id; the pass stops exactly when some known id's value is rejected, with that rejection; otherwise every known id in the record is assigned |
| DataContexts.ConversionsStopped | src/task/math_optimizer/strategy/data_context.py:53-56 | once the pass has stopped, later keys change nothing |
| DataContexts.ConversionsNumeric | src/task/math_optimizer/strategy/data_context.py:53-56 | a record of numbers assigns every known id its number and raises nothing |
| DataContexts.ConversionsNullStops | src/task/math_optimizer/strategy/data_context.py:53-56 | a null value under a variable's id raises `TypeError` and stops the pass before a later numeric value is assigned |
| DataContexts.ConversionsSkipAndParse | src/task/math_optimizer/strategy/data_context.py:53-56 | a key outside the schema is skipped whatever its value, and a digit string is read as its number |
| DataContexts.DataContext.constructor | src/task/math_optimizer/strategy/data_context.py:8-16 | one variable per configured id, built from its entry; no dataframe, empty dynamic bounds and solver constraints |
| DataContexts.DataContext.GetVariable | src/task/math_optimizer/strategy/data_context.py:17-20 | the variable is returned exactly when its id is present; otherwise `KeyError` naming the id |
| DataContexts.DataContext.PopulateInitialData | src/task/math_optimizer/strategy/data_context.py:25-70 | empty records raise `ValueError` with nothing changed; otherwise the dataframe holds every row; the last row's values set the variables they name, in key order, until the first value `float` rejects, whose error is raised; without such a value every variable is then given its type's default; bounds and solver constraints are untouched |
| DataContexts.DataContext.Populate | src/task/math_optimizer/strategy/data_context.py:45-70 | the dataframe of the rows is stored first, so it stays when a value is rejected; then the variables are assigned from the last row, and zeroed by type only when every value converted |
| DataContexts.DataContext.AssignFromRecord | src/task/math_optimizer/strategy/data_context.py:53-56 | each known variable named in the last row, in key order, takes `float` of its value until a value is rejected; the error is that rejection, and the variables assigned before it keep their new values |
| DataContexts.DataContext.SetInitialValueOf | src/task/math_optimizer/strategy/data_context.py:56 | the named variable's current, decision and recommended values all become the given number, and no other variable changes |
| DataContexts.DataContext.ZeroMissingValues | src/task/math_optimizer/strategy/data_context.py:58-70 | each variable still without a current value gets 0.0 in all three values when its type is a derived one, and is unchanged otherwise |
| DataContexts.DataContext.SetDof | src/task/math_optimizer/strategy/skills/optimizer.py:38-39 | only the named variable's decision value changes |
| DataContexts.DataContext.SetState | src/task/math_optimizer/strategy/strategy.py:255-260 | only the named variable's values change |
| DataContexts.DataContext.SetDataframe | src/task/math_optimizer/strategy/data_context.py:75-77 | the dataframe is replaced and nothing else changes |
| DataContexts.DataContext.SetDynamicBounds | src/task/math_optimizer/strategy/data_context.py:83-88 | the bounds map is replaced, None by an empty map, and nothing else changes |
| DataContexts.DataContext.SetSolverConstraints | src/task/math_optimizer/strategy/data_context.py:94-98 | the solver constraints are replaced, None by an empty list, and nothing else changes |
| Frames.BuildFrame | src/task/math_optimizer/strategy/data_context.py:46-48 | one row per record and one column per key of any record, each cell the record's value as pandas stores it, or missing |
| Frames.CellValue | src/task/math_optimizer/strategy/data_context.py:46-48 | a JSON null becomes a missing cell and nothing else does; a number is stored as itself |
| Artifacts.ArtifactPath | src/task/math_optimizer/strategy/skills/models.py:71 | the object path is under `models/` and never longer than the prefix plus the configured path |
| Artifacts.ArtifactPathPlain | src/task/math_optimizer/strategy/skills/models.py:71 | a path without `../` is used as is under `models/` |
| Artifacts.ArtifactPathMayKeepParent | src/task/math_optimizer/strategy/skills/models.py:71 | the one-pass deletion can leave a `../` in the path (`..././x` becomes `models/../x`) |
| Artifacts.LoadModel | src/task/math_optimizer/strategy/skills/models.py:69-97 | at most one cache invalidation, of the model's own path; a model without inputs is not loaded |
| Artifacts.LoadScaler | src/task/math_optimizer/strategy/skills/models.py:100-119 | at most one cache invalidation, of the scaler's own path |
| Artifacts.Load | src/task/math_optimizer/strategy/skills/models.py:65-132 | an unconfigured artifact is not loaded; when anything is loaded, exactly the configured artifacts are; invalidations are of the configured model and scaler paths only, at most two |
| Texts.RemoveAll | src/task/math_optimizer/strategy/skills/models.py:206 | `replace(p, '')` never lengthens the string |
| Texts.RemoveAllAbsent | src/task/math_optimizer/strategy/skills/models.py:206 | deleting a pattern that does not occur leaves the string unchanged |
| Texts.RemoveAllShrinks | src/task/math_optimizer/strategy/skills/models.py:206 | a string holding the pattern gets strictly shorter |
| Texts.StripSpec | src/task/math_optimizer/strategy/skills/optimizer.py:97 | `strip()` is the infix left after removing all whitespace at both ends, starting and ending with a non-space |
| Texts.StripIdempotent | src/task/math_optimizer/strategy/skills/optimizer.py:97 | stripping twice is stripping once |
| Texts.LowerAscii | src/task/math_optimizer/strategy/skills/models.py:82 | same length; exactly the upper-case letters change |
| Texts.Fixed2RoundTrip | rto/variable.py:19-21 | the `:.2f` rendering reads back as the value it denotes, within half a hundredth of the input |
| Texts.ListRepr | src/services/api_service.py:139-140 | a list's repr is bracketed, and is `[]` exactly for the empty list |
| Texts.ParseFloatNat | rto/variable.py:27-31 | `float(str(n))` is `n`, and `float("-" + str(n))` is `-n` |
| Json.ToFloat | src/task/math_optimizer/strategy/skills/constraints.py:66-67 | `float` keeps a number, converts a string exactly when it spells a decimal (to that decimal) and raises `ValueError` otherwise, and raises `TypeError` for null, lists and dicts |
| MemoryCaches.LookupSpec | utils/cache_manager.py:33-55 | a read answers a value exactly when the key is stored and not expired, and then answers it as stored |
| MemoryCaches.SetThenLookup | utils/cache_manager.py:57-67 | a value stored at `now` reads back until the TTL has passed and reads as absent afterwards |
| MemoryCaches.ExpiredStep | utils/cache_manager.py:96-100 | counting one more key adds one to the expired count exactly when that key is expired |
| MemoryCaches.ExpiredWithin | utils/cache_manager.py:88-109 | no more keys are expired than are stored, so the active count is never negative |
| MemoryCaches.MemoryCache.constructor | utils/cache_manager.py:21-31 | both dictionaries start empty and the TTL is the given hours in microseconds |
| MemoryCaches.MemoryCache.Get | utils/cache_manager.py:33-55 | the answer is `Lookup` of the old state; an expired entry is deleted from both dictionaries, otherwise nothing changes; the dictionaries keep the same keys |
| MemoryCaches.MemoryCache.Set | utils/cache_manager.py:57-67 | the value is stored with the current time, nothing else changes |
| MemoryCaches.MemoryCache.Delete | utils/cache_manager.py:69-80 | the key leaves both dictionaries, a missing one without error |
| MemoryCaches.MemoryCache.Clear | utils/cache_manager.py:82-86 | both dictionaries become empty |
| MemoryCaches.MemoryCache.GetStats | utils/cache_manager.py:88-109 | total is the number of keys, expired the number of expired timestamps, active the difference; the entries are counted, not removed |
| MemoryCaches.ReadThrough | utils/cache_manager.py:147-172 | a live entry is answered and the cache unchanged; otherwise the loader's answer is returned and cached with the current time when it is not None, and when it is None the key's expired entry is gone |
| MemoryCaches.ReadThroughTwice | utils/cache_manager.py:147-172 | a second read of the same key at the same time answers what the first did, without the loader, and changes nothing |
| MemoryCaches.ReadThroughMiss | utils/cache_manager.py:33-55 | with no live entry and no loaded value the answer is None and the key is in neither dictionary, the other keys unchanged |
| CacheManagers.RepeatedCheckQuiet | utils/cache_manager.py:255-283 | a version check never clears the caches on the first version it sees, nor on the version already recorded |
| CacheManagers.CacheManager.constructor | utils/cache_manager.py:126-145 | five empty caches with TTLs of 24 hours (6 for configurations); no version, no timestamp |
| CacheManagers.CacheManager.GetPytorchModel | utils/cache_manager.py:147-172 | the read-through of the model cache: a live entry is answered and the cache unchanged; otherwise the loaded value is answered and stored with the current time, or, when there is none, the key's expired entry is deleted |
| CacheManagers.CacheManager.GetPickleScaler | utils/cache_manager.py:201-226 | the read-through of the scaler cache: a live entry is answered and the cache unchanged; otherwise the loaded value is answered and stored with the current time, or, when there is none, the key's expired entry is deleted |
| CacheManagers.CacheManager.GetJsonMetadata | utils/cache_manager.py:228-253 | the read-through of the metadata cache: a live entry is answered and the cache unchanged; otherwise the loaded value is answered and stored with the current time, or, when there is none, the key's expired entry is deleted |
| CacheManagers.CacheManager.GetTempModelPath | utils/cache_manager.py:174-199 | a live cached path is answered only while its file exists, leaving the cache unchanged; otherwise the downloaded path is answered and stored with the current time; without one a live entry stays and an expired one is deleted |
| CacheManagers.CacheManager.ClearAllCachesInternal | utils/cache_manager.py:329-341 | every cache emptied and the timestamp forgotten; the version stays |
| CacheManagers.CacheManager.CheckAndInvalidateOnVersionChange | utils/cache_manager.py:255-283 | the new version is recorded; the answer is whether a different version was recorded, and exactly then every cache and the timestamp are cleared; otherwise nothing else changes |
| CacheManagers.CacheManager.SetCachedLastRunTimestamp | utils/cache_manager.py:295-299 | the timestamp is cached |
| CacheManagers.CacheManager.GetLastRunTimestampWithCache | utils/cache_manager.py:301-327 | a cached timestamp is answered without reading; otherwise the read one is answered and cached |
| CacheManagers.CacheManager.GetConfigByVersion | utils/cache_manager.py:343-376 | without a version change the other four caches and the timestamp are unchanged and the configuration cache is read through: a live hit is answered with the cache unchanged, else the loaded configuration is answered and cached under the version, and when there is none only the key's expired entry is gone; after a change every cache is empty but for the loaded configuration, which is answered |
| CacheManagers.CacheManager.ClearAllCaches | utils/cache_manager.py:378-383 | every cache and the timestamp cleared, and the version forgotten |
| CacheManagers.CacheManager.GetCacheStats | utils/cache_manager.py:385-401 | the version, the timestamp, and the total, expired and active counts and keys of each of the five caches |
| CacheManagers.CacheManager.CleanupExpiredTempFiles | utils/cache_manager.py:403-422 | exactly the expired temp-file entries are removed |
| CacheManagers.CollectExpired | utils/cache_manager.py:409-418 | the collected keys are exactly the expired ones |
| CacheManagers.DeleteAll | utils/cache_manager.py:420-422 | exactly the collected keys leave both dictionaries |
| CacheManagers.ClearThenCheck | src/tests/test_timestamp_caching.py:105-136 | after `clear_all_caches` a version check does not report a change and leaves a cached timestamp in place |
| CacheManagers.RecordedThenChanged | src/tests/test_timestamp_caching.py:113-136 | with a different version recorded, the check reports a change and the cached timestamp is gone |
| InMemoryCaches.PrefixKind | src/storage/in_memory_cache.py:348-360 | a key built on a prefix is classified under that prefix's kind by the `startswith` chain |
| InMemoryCaches.KeyKinds | src/storage/in_memory_cache.py:24-28 | every key the cache writes (configuration, model, scaler, timestamp, version) has the kind of its prefix |
| InMemoryCaches.NamesApart | src/storage/in_memory_cache.py:24-28 | keys of different kinds never collide, whatever names they are built from |
| InMemoryCaches.ReadsStored | src/storage/in_memory_cache.py:86-106 | in a well-keyed cache each getter answers a value exactly when its key is stored |
| InMemoryCaches.ConfigRoundTrip | src/storage/in_memory_cache.py:108-128 | a stored configuration reads back, and no model, scaler, timestamp, version or other configuration changes |
| InMemoryCaches.ModelRoundTrip | src/storage/in_memory_cache.py:152-172 | a stored model reads back, and nothing of another kind or path changes |
| InMemoryCaches.ScalerRoundTrip | src/storage/in_memory_cache.py:196-216 | a stored scaler reads back, and nothing of another kind or path changes |
| InMemoryCaches.InvalidateModelOnly | src/storage/in_memory_cache.py:218-238 | invalidating a model forgets it and no configuration, scaler, timestamp or version |
| InMemoryCaches.KeptByRemoval | src/storage/in_memory_cache.py:362-364 | deleting exactly the collected keys leaves the versions and the keys of no kind |
| InMemoryCaches.ClearKeepsOnlyVersion | src/storage/in_memory_cache.py:334-372 | after a clear no configuration, model, scaler or timestamp reads back, and the version still does |
| InMemoryCaches.CountStep | src/storage/in_memory_cache.py:399-409 | one more key raises the count of its kind by one and no other |
| InMemoryCaches.KindsPartition | src/storage/in_memory_cache.py:420-424 | the per-kind counts add up to the number of keys |
| InMemoryCaches.NoStrayKeys | src/storage/in_memory_cache.py:399-409 | a well-keyed cache has no key that the prefix chain leaves uncounted |
| InMemoryCaches.BumpCounts | src/storage/in_memory_cache.py:348-360 | `cleared[name] = cleared.get(name, 0) + 1` keeps the reported counts equal to the number of keys of each removable kind seen so far |
| InMemoryCaches.InMemoryCache.constructor | src/storage/in_memory_cache.py:15-28 | the cache starts empty |
| InMemoryCaches.InMemoryCache.GetLastRunTimestampWithCache | src/storage/in_memory_cache.py:32-63 | a cached timestamp is answered and the cache unchanged; otherwise the loaded one is answered and cached when present |
| InMemoryCaches.InMemoryCache.SetCachedLastRunTimestamp | src/storage/in_memory_cache.py:65-84 | the timestamp is overwritten, reads back, and True is answered |
| InMemoryCaches.InMemoryCache.GetCachedConfig | src/storage/in_memory_cache.py:86-106 | a configuration is answered exactly when its key is stored, as stored |
| InMemoryCaches.InMemoryCache.SetCachedConfig | src/storage/in_memory_cache.py:108-128 | only the configuration's key is written, and True is answered |
| InMemoryCaches.InMemoryCache.GetCachedModel | src/storage/in_memory_cache.py:130-150 | a model is answered exactly when its key is stored, as stored |
| InMemoryCaches.InMemoryCache.SetCachedModel | src/storage/in_memory_cache.py:152-172 | only the model's key is written, and True is answered |
| InMemoryCaches.InMemoryCache.GetCachedScaler | src/storage/in_memory_cache.py:174-194 | a scaler is answered exactly when its key is stored, as stored |
| InMemoryCaches.InMemoryCache.SetCachedScaler | src/storage/in_memory_cache.py:196-216 | only the scaler's key is written, and True is answered |
| InMemoryCaches.InMemoryCache.InvalidateCachedModel | src/storage/in_memory_cache.py:218-238 | only the model's key is removed, and True is answered even when it was absent |
| InMemoryCaches.InMemoryCache.InvalidateCachedScaler | src/storage/in_memory_cache.py:240-260 | only the scaler's key is removed, and True is answered |
| InMemoryCaches.InMemoryCache.InvalidateCachedConfig | src/storage/in_memory_cache.py:262-282 | only the configuration's key is removed, and True is answered |
| InMemoryCaches.InMemoryCache.GetCurrentCachedVersion | src/storage/in_memory_cache.py:324-332 | the version is answered exactly when one is recorded |
| InMemoryCaches.InMemoryCache.ClearAllCaches | src/storage/in_memory_cache.py:334-372 | exactly the configuration, timestamp, model and scaler keys are removed, and the counts reported per kind are the numbers removed |
| InMemoryCaches.InMemoryCache.RemoveKeys | src/storage/in_memory_cache.py:362-364 | exactly the collected keys are deleted |
| InMemoryCaches.InMemoryCache.CheckVersionAndInvalidateIfNeeded | src/storage/in_memory_cache.py:284-322 | the version ends recorded; the answer is True exactly when the recorded version differed (including none), and then the cache is cleared before recording it; otherwise nothing changes |
| InMemoryCaches.InMemoryCache.GetCacheStats | src/storage/in_memory_cache.py:374-433 | the recorded version and timestamp, the number of entries, per-kind counts with nothing expired, and 100% efficiency |
| InMemoryCaches.CollectStep | src/storage/in_memory_cache.py:348-360 | the collected keys stay exactly the removable keys seen so far |
| InMemoryCaches.CountRemovable | src/storage/in_memory_cache.py:346-360 | the collected keys are exactly the removable ones and the counts are right per kind |
| InMemoryCaches.TallyStep | src/storage/in_memory_cache.py:399-409 | one more key raises the counter of its kind and no other |
| InMemoryCaches.CountKinds | src/storage/in_memory_cache.py:391-409 | the five counters hold the number of keys of each kind |
| InMemoryCaches.TimestampThenFirstCheck | src/storage/in_memory_cache.py:296-316 | on a cache with no version recorded, the first check answers True and drops a timestamp stored before it |
| ApiService.DiagnosisSpec | src/services/api_service.py:67-102 | a body passes every check exactly when it is an object whose `input_data` and `config` are objects and whose `config` has `variables`, `skills` and `tasks` |
| ApiService.InputDataFirst | src/services/api_service.py:81-84 | a body lacking `input_data` is told about `input_data`, whatever else it lacks |
| ApiService.FirstMissingAt | src/services/api_service.py:82-84 | the first absent name is the one at the first index whose predecessors are all present |
| ApiService.FindMissing | src/services/api_service.py:97-100 | the search loop answers the first name the set lacks, or none |
| ApiService.ValidateRequestData | src/services/api_service.py:67-102 | `(True, "")` exactly for a well-formed body; otherwise False with the message of the first failing check |
| ApiService.InvalidTestBodies | src/tests/test_api.py:179-207 | the four bodies of the invalid-request test are each rejected, with the message naming what is missing |
| ApiService.AbsentSpec | src/services/api_service.py:134-137 | exactly the required ids absent from `input_data` are listed |
| ApiService.MissingVars | src/services/api_service.py:134-137 | the loop lists the absent required ids in order |
| ApiService.CheckRequiredVariables | src/services/api_service.py:128-140 | a variable without `type` raises `KeyError`; otherwise the check passes exactly when every operative and informative id is in `input_data`, and fails with the `ValueError` listing the absent ones in order |
| ApiService.DofsAtMost | src/services/api_service.py:222-224 | each reported total is at most the number of ids of its kind |
| ApiService.DofsOf | src/services/api_service.py:177-206 | one kind's loop succeeds exactly when every id is in the context, failing with the `KeyError` of the first absent id; it collects the ids whose variable has a decision value |
| ApiService.OptimizedEntries | src/services/api_service.py:176-185 | one entry per collected id, with its decision value and configured units |
| ApiService.PredictedEntries | src/services/api_service.py:188-196 | one entry per collected id, with its predicted value and configured type |
| ApiService.ConstraintEntries | src/services/api_service.py:199-206 | one entry per collected id, with its value |
| ApiService.Report | src/services/api_service.py:214-226 | the answer's maps have the collected ids, the cost is the cost variable's, and each total is the size of its map |
| ApiService.ExtractOptimizationResults | src/services/api_service.py:173-226 | succeeds exactly when every optimizable, predicted and constraint id and `cost_function_total` is in the context, failing with the `KeyError` of the first absent one in that order; the answer reports the decision values present |
| ApiService.MissingInPrefix | src/services/api_service.py:177-178 | a name missing from the first loop's ids is the first missing name overall |
| ApiService.MissingAfter | src/services/api_service.py:189-190 | when the first loop's ids are all present, the first missing name is the later loops' |
| ApiService.Cycle | src/services/api_service.py:115-171 | a cycle succeeds exactly when building the strategy, the required check, the run, the post-processing and the extraction all do, answering the extraction; otherwise the answer is the error of the first of those that failed |
| Schedules.FirstErr | src/services/api_service.py:115-171 | the first error of a run of steps (the stages of a request here, the members of an inference group at src/task/math_optimizer/strategy/skills/composition.py:62-67) is that of a failing step all of whose predecessors succeeded, and there is none exactly when every step succeeds |
| ApiService.StatusCodeSpec | src/services/api_service.py:246-280 | 400 exactly for a request that is not JSON or not well formed; 200 exactly for a valid one whose cycle succeeds; 500 exactly for a valid one whose cycle fails |
| ApiService.MissingVariableIs500 | src/services/api_service.py:128-140 | a well-formed request whose input lacks a required variable is answered 500, not 400, and the missing-variable error is the answer when the strategy could be built |

## Left out

- Concurrency: the thread pool that runs an inference group, and the caches' locks. An
  inference group runs its models one after another and still raises the group's first error
  after all of them ran.
- Singletons and global accessors (`CacheManager.__new__`, `get_cache_manager`, `get_cache`) are
  plumbing. Each cache is an ordinary object here.
- Python's recursion limit: a `fuel` bound on the nesting of compositions and cost skills stands
  in for it. Running out of fuel is `RecursionError`; the bound does not say at which depth
  Python would raise.
- The scipy solvers, the torch network, the sklearn scalers, the asteval evaluator and the
  pandas reduction are oracles. The numbers they compute are not modelled.
- The costs the objective returns (0.0 for a None cost in the current engine, no default in the
  legacy one) and `round(cost, 2)` are not fed back to the solver oracle. The oracle fixes its
  evaluations and outcome from the call alone.
- Artifact loading (MinIO downloads, unpickling, temp files), the clock and the existence of
  files are parameters: the loaded value, `now` and `onDisk`. Unlinking expired temp files is
  not modelled; only the cache entries are removed.
- Times are integers (microseconds) rather than `datetime` values. The statistics report the
  timestamp as that integer, not as `str(datetime)`.
- The exception fallbacks of the caches are not modelled, because no modelled operation raises
  there. Most answer None or False; the fallback of
  `InMemoryCache.get_last_run_timestamp_with_cache` calls the loader a second time and answers
  its result.
- The exception fallback of `InMemoryCache.get_cache_stats`, which returns zeros, is not
  modelled for the same reason.
- Dictionary key order in the statistics is not modelled; the counts are.
- Logging and `print` are left out.
- The Flask glue is left out: routing, `jsonify`, the health and cache endpoints, and the
  `timestamp` fields of the answers. The status-code logic of `_run_optimization` is modelled.
- `_run_single_optimization_cycle` writes the configuration to a temp YAML file and reads it
  back. The model takes the configuration as typed data.
- Variables.LimitsOf: the current data_context.py builds its variables from a sibling `variable`
  module that is not part of this model. Those variables are assumed to carry `min_hard_limit` and
  `max_hard_limit` from the configuration, defaulting to minus and plus infinity, because
  bounds.py:25-26 and optimizer.py:74 read them. The legacy lineage uses rto/variable.py, which
  has no such attributes.
- Python floats are modelled as exact reals (`real`), so rounding and overflow are not modelled.
  This affects the bounds windows, the ratios of `ConstraintScores`, `Inference.Mean` and the
  exponentially weighted mean.
- Inference.WindowFeature: a NaN result is modelled as None (`FNone`). A window without readings
  gives NaN in Python; here it gives `FNone`, and the prediction then reads it as 0.0.
- Inference.Smoothed: a mean or exponentially weighted mean over no readings is NaN in Python and
  None here.
- ConstraintScores.Execute: a NaN score is written as None; a later constraint reads it as 0.0
  and scores that, where Python's comparisons with NaN fall through to the 0.0 fallback
  (rto/skills/constraints.py:43). A missing decision value is read as 0.0 and scored, as in
  Python.
- Json.ToFloat: `float` of a string follows Python for optional signs, digits, one decimal point,
  an exponent and surrounding whitespace. It rejects `inf`, `infinity`, `nan` and digits with
  underscores, which Python accepts.
- Json.TypeName: decoded JSON numbers are one kind of value, so an error message names every
  number `float`, where Python says `int` for a JSON integer. Only message text differs.
- Frames.CellValue: a boolean cell is stored as the number 1 or 0. A list or dict cell is stored
  as a nested value, so reducing a window that holds one raises `TypeError`.
- Frames.BuildFrame: a record's timestamp is an optional string, and its `data` dictionary is
  always present. A row without a `data` key is not modelled.
- Texts.Quote: Python's `repr` of a string escapes quotes and backslashes; the model assumes ids
  hold neither, so `ListRepr` differs from `str(list)` for an id that does.
- Engine.OptimizerSetup: a `null` cost skill name raises `KeyError("None")`, and a `null` cost
  feature name makes `Engine.Strategy.Evaluate` raise the `KeyError` for the id `None`. Errors
  carry text, so the key None is not told apart from a string key spelled `None`.
- Engine.Predicted: a `predicted_var` that is not a string is a `KeyError` naming its type name.
  Python's message shows the value itself, and an unhashable value raises `TypeError` instead.
- Config.TaskConfig: a task without `name` is not modelled. Python raises `KeyError` when it reads
  `task['name']` (src/task/math_optimizer/strategy/strategy.py:133 and :227).
- `post_process_optimization_result` is not part of this model; its outcome is a parameter of
  `ApiService.Cycle`.
- The YAML and MinIO loading of the strategy configuration is left out. `Config.StrategyConfig`
  is the parsed configuration.
- rto/strategy.py is not part of this model. The required-variable check uses the type filter of
  src/strategy/strategy.py.
- src/strategy/data_context.py and src/strategy/skills/functions.py, constraints.py,
  composition.py and optimizer.py are not part of this model. For the legacy lineage the
  rto/skills/ classes of the same names stand in for the last three. The current
  data_context.py and functions.py stand in for the first two, with variables built as in
  rto/variable.py.
- `replace('../', '')` makes one pass, so `..././x` still names a parent directory
  (`Artifacts.ArtifactPathMayKeepParent`). It is stated as written; whether the object store
  resolves `..` is outside the model.
- Engine.Strategy.Run: states only that an exhausted nesting bound raises. What each skill class
  does is the contract of that class's `Execute`, and the dispatch does not restate it.
- Engine.Strategy.Evaluate: states only that a constraint index the call lacks changes nothing.
  The writes of an evaluation are those of `Optimizers.WriteValues` and of the cost skill.
- Engine.Strategy.Search: states the outcome of a call that gets through its evaluations, not
  the context those evaluations leave.
- Engine.Strategy.Optimize: states the successful write-back. A failure passes on the error of
  the preparation, the solver call or the write-back, and its context is not characterised.
- Engine.Strategy.RunComposition: states which skills ran and how an inference group ends, not
  the context they leave.
- Engine.Strategy.RunCycle: states the schedule the cycle went through and the context's
  variables, not their final values.

## Findings

| source | as written | input that shows it | evidently intended | confidence | as-written member | corrected member |
|---|---|---|---|---|---|---|
| src/task/math_optimizer/strategy/strategy.py:238 | `resolve_dataframe_formula(skill_name, data_context)` passes two arguments to a method that takes one (functions.py:12) | any `PreCalculateVariables` task listing a math function: the call raises `TypeError` before the skill runs | the call with the context alone | not executed | MathFunctions.ResolveCallAsWritten | MathFunctions.ResolveDataframeFormula |
| src/task/math_optimizer/strategy/strategy.py:5 | imports `Constraint`, while constraints.py:6 defines `Constraints` | loading the module raises `ImportError` | import `Constraints` and map `'Constraint'` to it | not executed | Skills.ConstraintImportAsWritten | Skills.ImportFromConstraints |
| src/task/math_optimizer/strategy/strategy.py:14-20 | the class map has no `BoundsBuilderSkill` | a skill entry with `class: BoundsBuilderSkill` raises `ValueError("Unknown skill class: BoundsBuilderSkill")` | the map also binds `BoundsBuilderSkill` | not executed | Skills.BoundsBuilderUnknownAsWritten | Skills.ClassLookup |
| src/task/math_optimizer/strategy/strategy.py:57-59 | only the optimization skill gets `set_strategy`, so the constraints skill's `_strategy` stays `None` (constraints.py:38) | a valid non-empty constraint template stores `[]`, and the optimizer runs unconstrained | the constraints skill also receives the strategy | not executed | ConstraintTemplates.StoredWithoutStrategy | ConstraintTemplates.StoredPerEntry |

The corrected behaviour is what the rest of the model uses. `Engine.Create` gives the strategy
to the constraints skill of the current engine. `Skills.ClassLookup` resolves over the map that
includes the bounds builder. `Engine.Strategy.ResolveBefore` makes the one-argument call.
