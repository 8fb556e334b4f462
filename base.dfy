/** What every engine shares through `OptimizationAlgorithm`: the optional best
    solution and the result dictionary `get_results` builds. */
module Base {
  import opened PyValues
  import opened SearchSpace

  datatype Option<+T> = None | Some(value: T)

  /** The dictionary `get_results` returns: the class name, the best solution
      (`None` before `initialize`), the convergence trace and the raw parameters. */
  datatype Results = Results(
    algorithm: string,
    bestSolution: Option<Vec>,
    convergenceCurve: seq<real>,
    params: map<string, Value>)
}
