/** The foreign numeric collaborators, as uninterpreted functions the model is parameterised by:
  * the asteval evaluator, the pandas reduction used by `dataframe_formula`, the artifact store,
  * the torch network with its per-feature sklearn scalers, and the scipy solvers. */
module Oracles {
  import opened Wrappers
  import opened XReals
  import opened Json
  import opened Frames

  /** A `scipy.optimize.NonlinearConstraint` built from one template entry. Its function writes the
    * candidate into `inputs` (zip order), runs the cost skill (None when the registry has no skill of
    * the optimizer's cost name) and returns `[v - opMin, opMax - v]` for the predicted variable. */
  datatype SolverConstraint = NonlinearConstraint(
    inputs: seq<string>,
    costSkill: Option<string>,
    predictedVar: Json,
    opMin: real,
    opMax: real,
    lb: seq<XReal>,
    ub: seq<XReal>)

  /** The scipy routine called, with the options the code passes. */
  datatype Routine =
    | Minimize(methodName: Option<string>, x0: seq<real>, maxiter: nat, ftol: Option<real>)
    | DifferentialEvolution(maxiter: nat, popsize: nat, tol: real, polish: bool, seed: int)
    | Shgo(n: nat, iters: nat, sampling: string)

  datatype SolverCall = SolverCall(routine: Routine, bounds: seq<(XReal, XReal)>, constraints: seq<SolverConstraint>)

  /** One evaluation the solver asks for: the objective, or constraint `index`, at `x`. */
  datatype Probe = ObjectiveAt(x: seq<real>) | ConstraintAt(index: nat, x: seq<real>)

  /** How the solver call ends: it raises, or it returns an `OptimizeResult`. */
  datatype SolverOutcome = Raised(kind: string, message: string) | Finished(success: bool, x: seq<real>, message: string)

  /** The evaluations a solver run performs, in order, and how it ends. */
  datatype SolverRun = SolverRun(probes: seq<Probe>, outcome: SolverOutcome)

  /** `aeval.eval(formula, show_errors=False)`, given the formula as the skill keeps it (None for a
    * `null` formula): raises, or returns a number or None. */
  datatype EvalResult = EvalRaised(message: string) | EvalValue(value: Option<real>)

  /** One artifact-store call: the loaded object, or the exception raised (class name and text). */
  datatype Fetch<T> = Fetched(value: T) | FetchFailed(kind: string, message: string)

  /** An unpickled scaler dictionary: a handle and the feature ids it has a scaler for. */
  datatype ScalerSet = ScalerSet(handle: nat, keys: set<string>)

  /** The collaborators. `fetchModel(path, attempt)` downloads a state dict (attempt 0, then 1 after a
    * cache invalidation); `loadModel(inputSize, stateDict)` builds the network and loads the weights;
    * `fetchScaler` and `fetchMetadata` unpickle and parse; `net`, `transform` and `inverse` run the
    * network and one feature's scaler; `solve` runs a scipy routine. */
  datatype Env = Env(
    eval: (Option<string>, map<string, Option<real>>) -> EvalResult,
    reduce: (string, Option<int>, seq<seq<Cell>>) -> Result<seq<Cell>>,
    fetchModel: (string, nat) -> Fetch<nat>,
    loadModel: (nat, nat) -> Fetch<nat>,
    fetchScaler: (string, nat) -> Fetch<ScalerSet>,
    fetchMetadata: string -> Fetch<Json>,
    net: (nat, seq<real>) -> Result<real>,
    transform: (nat, string, real) -> Result<real>,
    inverse: (nat, string, real) -> Result<real>,
    solve: SolverCall -> SolverRun)
}
