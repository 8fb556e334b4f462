/** The sandbox runner: the shared vocabulary of its five minimise-only
    routines and the dispatch `run_optimization`.

    In the sandbox every coordinate shares one scalar box `[lb, ub]`, and the
    user's objective is called without any validity check, so it is a total
    function `Vec -> real`.  Random draws are parameters indexed by the loop
    counters that reach them. */
module Sandbox {
  import opened PyValues
  import opened SearchSpace
  import opened Base

  /** The dictionary every routine returns. */
  datatype RunResult = RunResult(
    bestSolution: Vec,
    bestFitness: real,
    iterations: nat,
    history: seq<real>)

  /** `x` has `dims` coordinates, each within `[lb, ub]`. */
  predicate InBox(x: Vec, dims: nat, lb: real, ub: real) {
    |x| == dims && forall d :: 0 <= d < |x| ==> lb <= x[d] <= ub
  }

  /** Every vector of `s` has `dims` coordinates. */
  predicate Rows(s: seq<Vec>, dims: nat) {
    forall i :: 0 <= i < |s| ==> |s[i]| == dims
  }

  /** Every vector of `s` lies in the box. */
  predicate AllInBox(s: seq<Vec>, dims: nat, lb: real, ub: real) {
    forall i :: 0 <= i < |s| ==> InBox(s[i], dims, lb, ub)
  }

  /** `np.clip(x, lb, ub)` with scalar limits. */
  function ClipBox(x: Vec, lb: real, ub: real): (r: Vec)
    ensures |r| == |x|
    ensures lb <= ub ==> InBox(r, |x|, lb, ub)
    ensures forall d :: 0 <= d < |x| && lb <= x[d] <= ub ==> r[d] == x[d]
  {
    seq(|x|, d requires 0 <= d < |x| => Clip(x[d], lb, ub))
  }

  /** Row `i` of `np.random.uniform(lb, ub, (n, dims))`, from the draws
      `draw(i, d)` in [0, 1). */
  function BoxPoint(dims: nat, lb: real, ub: real, draw: (nat, nat) -> real, i: nat): (x: Vec)
    requires forall j, d :: 0.0 <= draw(j, d) < 1.0
    ensures |x| == dims
    ensures lb <= ub ==> InBox(x, dims, lb, ub)
  {
    var x := seq(dims, d requires 0 <= d < dims => Uniform(lb, ub, draw(i, d)));
    assert forall d :: 0 <= d < dims ==> x[d] == Uniform(lb, ub, draw(i, d));
    x
  }

  /** `np.random.uniform(lb, ub, (n, dims))`: `n` rows drawn in the box. */
  function BoxPoints(n: nat, dims: nat, lb: real, ub: real, draw: (nat, nat) -> real): (xs: seq<Vec>)
    requires forall j, d :: 0.0 <= draw(j, d) < 1.0
    ensures |xs| == n
    ensures forall i :: 0 <= i < n ==> |xs[i]| == dims
    ensures lb <= ub ==> forall i :: 0 <= i < n ==> InBox(xs[i], dims, lb, ub)
  {
    seq(n, i requires 0 <= i < n => BoxPoint(dims, lb, ub, draw, i))
  }

  /** `np.array([fitness_func(x) for x in xs])` */
  function Scores(fitness: Vec -> real, xs: seq<Vec>): (s: seq<real>)
    ensures |s| == |xs| && forall i :: 0 <= i < |xs| ==> s[i] == fitness(xs[i])
  {
    seq(|xs|, i requires 0 <= i < |xs| => fitness(xs[i]))
  }

  /** What `np.argmin` raises on an empty array. */
  const EmptyArgmin := "attempt to get argmin of an empty sequence"

  /** What `np.random.choice(n, k, replace=False)` raises when `k > n`. */
  const SampleTooLarge := "Cannot take a larger sample than population when 'replace=False'"

  // ---------------------------------------------------------------- dispatch

  datatype Routine = RunPso | RunGa | RunDe | RunSa | RunAcor

  /** The routine `run_optimization` calls, with the arguments it passes. */
  datatype Call = Call(
    routine: Routine,
    dimensions: Value,
    lowerBound: Value,
    upperBound: Value,
    params: map<string, Value>)

  /** The algorithm name that selects each routine. */
  function RoutineName(r: Routine): string {
    match r
    case RunPso => "PSO"
    case RunGa => "GA"
    case RunDe => "DE"
    case RunSa => "SA"
    case RunAcor => "ACOR"
  }

  /** The `if`/`elif` chain of `run_optimization` on the algorithm name. */
  function RoutineFor(name: string): (r: Option<Routine>)
    ensures r.Some? ==> RoutineName(r.value) == name
    ensures r.None? ==> forall x: Routine :: RoutineName(x) != name
  {
    if name == "PSO" then Some(RunPso)
    else if name == "GA" then Some(RunGa)
    else if name == "DE" then Some(RunDe)
    else if name == "SA" then Some(RunSa)
    else if name == "ACOR" then Some(RunAcor)
    else None
  }

  const UnknownAlgorithm := "Unknown algorithm: "

  /** `run_optimization`: the algorithm defaults to PSO, the problem to ten
      dimensions in [-5, 5]; an unknown name raises `ValueError`.  An absent
      `parameters` or `problem` entry is the empty map. */
  function RunOptimization(algorithm: Option<string>, params: map<string, Value>, problem: map<string, Value>): (r: Outcome<Call>)
    ensures r.Returns? <==> algorithm.None? || RoutineFor(algorithm.value).Some?
    ensures r.Returns? ==> RoutineName(r.value.routine) == (if algorithm.None? then "PSO" else algorithm.value)
    ensures r.Returns? ==> r.value.params == params
    ensures r.Returns? ==>
              && r.value.dimensions == (if "dimensions" in problem then problem["dimensions"] else PInt(10))
              && r.value.lowerBound == (if "lower_bound" in problem then problem["lower_bound"] else PFloat(-5.0))
              && r.value.upperBound == (if "upper_bound" in problem then problem["upper_bound"] else PFloat(5.0))
    ensures r.Raises? ==> r.error == ValueError(UnknownAlgorithm + algorithm.value)
  {
    var name := if algorithm.None? then "PSO" else algorithm.value;
    var dimensions := Get(problem, "dimensions", PInt(10));
    var lower := Get(problem, "lower_bound", PFloat(-5.0));
    var upper := Get(problem, "upper_bound", PFloat(5.0));
    match RoutineFor(name)
    case Some(routine) => Returns(Call(routine, dimensions, lower, upper, params))
    case None => Raises(ValueError(UnknownAlgorithm + name))
  }
}
