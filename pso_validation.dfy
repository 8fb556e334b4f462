/** Problem-schema and parameter validation of the particle swarm.  The genetic
    algorithm's `_validate_problem_schema` is the same code word for word and
    uses `ValidateProblemSchema` below. */
module PsoValidation {
  import opened PyValues
  import opened SearchSpace

  /** A bound the schema check accepts: a list or tuple of two numbers, lower
      strictly below upper. */
  predicate BoundOk(b: Value) {
    IsSequence(b) && |b.items| == 2 &&
    IsNumber(b.items[0]) && IsNumber(b.items[1]) &&
    AsReal(b.items[0]) < AsReal(b.items[1])
  }

  function ToBound(b: Value): Bound
    requires BoundOk(b)
  {
    Bound(AsReal(b.items[0]), AsReal(b.items[1]))
  }

  /** Everything `_validate_problem_schema` demands of a problem dictionary. */
  predicate SchemaOk(problem: map<string, Value>) {
    && "dimensions" in problem && "bounds" in problem && "fitness_function" in problem
    && IsInt(problem["dimensions"]) && AsInt(problem["dimensions"]) > 0
    && problem["bounds"].PList?
    && |problem["bounds"].items| == AsInt(problem["dimensions"])
    && (forall i :: 0 <= i < |problem["bounds"].items| ==> BoundOk(problem["bounds"].items[i]))
    && problem["fitness_function"].PCallable?
    && IsOneOf(Get(problem, "objective", PStr("minimize")), ["minimize", "maximize"])
  }

  /** The per-bound loop, from index `start` on: the first offending bound raises. */
  function CheckBounds(items: seq<Value>, start: nat): (r: Outcome<seq<Bound>>)
    requires start <= |items|
    ensures r.Returns? <==> forall i :: start <= i < |items| ==> BoundOk(items[i])
    ensures r.Returns? ==>
              && |r.value| == |items| - start
              && forall i :: 0 <= i < |r.value| ==> BoundOk(items[start + i]) && r.value[i] == ToBound(items[start + i])
    ensures r.Raises? ==> r.error.ValueError?
    decreases |items| - start
  {
    if start == |items| then Returns([])
    else
      var b := items[start];
      var at := NatToString(start);
      if !IsSequence(b) || |b.items| != 2 then
        Raises(ValueError("Bound at index " + at + " must be a tuple/list of (lower, upper)"))
      else if !IsNumber(b.items[0]) || !IsNumber(b.items[1]) then
        Raises(ValueError("Bound at index " + at + " contains non-numeric values"))
      else if AsReal(b.items[0]) >= AsReal(b.items[1]) then
        Raises(ValueError("Invalid bound at index " + at + ": lower >= upper"))
      else
        match CheckBounds(items, start + 1)
        case Raises(e) => Raises(e)
        case Returns(rest) => Returns([ToBound(b)] + rest)
  }

  function ObjectiveOf(v: Value): Objective {
    if v == PStr("minimize") then Minimize else Maximize
  }

  /** `_validate_problem_schema`: accepts exactly the dictionaries `SchemaOk`
      describes and then yields the validated problem. */
  function ValidateProblemSchema(problem: map<string, Value>): (r: Outcome<Problem>)
    ensures r.Returns? <==> SchemaOk(problem)
    ensures r.Returns? ==>
              && WellFormed(r.value)
              && r.value.dimensions == AsInt(problem["dimensions"])
              && (forall i :: 0 <= i < r.value.dimensions ==>
                    r.value.bounds[i] == ToBound(problem["bounds"].items[i]))
              && r.value.fitness == problem["fitness_function"].fn
              && (r.value.objective == Minimize <==> Get(problem, "objective", PStr("minimize")) == PStr("minimize"))
    ensures r.Raises? ==> r.error.ValueError?
  {
    if "dimensions" !in problem then Raises(ValueError("Problem schema missing required field: 'dimensions'"))
    else if "bounds" !in problem then Raises(ValueError("Problem schema missing required field: 'bounds'"))
    else if "fitness_function" !in problem then Raises(ValueError("Problem schema missing required field: 'fitness_function'"))
    else
      var dims := problem["dimensions"];
      var bounds := problem["bounds"];
      if !IsInt(dims) || AsInt(dims) <= 0 then Raises(ValueError("Invalid dimensions. Must be a positive integer."))
      else if !bounds.PList? then Raises(ValueError("Bounds must be a list of tuples"))
      else if |bounds.items| != AsInt(dims) then Raises(ValueError("Bounds length does not match dimensions"))
      else
        match CheckBounds(bounds.items, 0)
        case Raises(e) => Raises(e)
        case Returns(bs) =>
          var objective := Get(problem, "objective", PStr("minimize"));
          if !problem["fitness_function"].PCallable? then Raises(ValueError("fitness_function must be callable"))
          else if !IsOneOf(objective, ["minimize", "maximize"]) then
            Raises(ValueError("Invalid objective. Must be 'minimize' or 'maximize'"))
          else
            Returns(Problem(AsInt(dims), bs, ObjectiveOf(objective), problem["fitness_function"].fn))
  }

  /** The swarm's settings once `_validate_parameters` has accepted them. */
  datatype Settings = Settings(swarmSize: nat, maxIterations: nat, w: real, c1: real, c2: real)

  /** Everything `_validate_parameters` demands: negative inertia and a single
      zero acceleration coefficient are accepted. */
  predicate ParametersOk(swarmSize: Value, maxIterations: Value, w: Value, c1: Value, c2: Value) {
    && IsInt(swarmSize) && AsInt(swarmSize) >= 10
    && IsInt(maxIterations) && 1 <= AsInt(maxIterations) <= 100
    && IsNumber(w) && IsNumber(c1) && IsNumber(c2)
    && !(AsReal(c1) == 0.0 && AsReal(c2) == 0.0)
  }

  const SwarmSizeMessage := "swarm_size must be >=10 for viable PSO behavior. Sizes < 10 don't exhibit proper swarm intelligence."
  const BothCoefficientsZeroMessage :=
    "Both c1 and c2 cannot be zero - particles would not move. Use c1>0 for cognition-only or c2>0 for social-only PSO."
  const PlatformLimitMessage := LimitHead + PlatformConstraint + LimitTail
  const LimitHead := "max_iterations limited to 100 ("
  const PlatformConstraint := "platform constraint"
  const LimitTail := "). Contact support for higher limits."

  lemma PlatformLimitMessageMentionsConstraint()
    ensures Contains(PlatformLimitMessage, "platform constraint")
  {
    assert PlatformLimitMessage[|LimitHead|..] == PlatformConstraint + LimitTail;
    assert PlatformConstraint <= PlatformConstraint + LimitTail;
  }

  /** `_validate_parameters`, applied to the values read with their defaults. */
  function ValidateParameters(swarmSize: Value, maxIterations: Value, w: Value, c1: Value, c2: Value): (r: Outcome<Settings>)
    ensures r.Returns? <==> ParametersOk(swarmSize, maxIterations, w, c1, c2)
    ensures r.Returns? ==> r.value == Settings(AsInt(swarmSize), AsInt(maxIterations), AsReal(w), AsReal(c1), AsReal(c2))
    ensures r.Raises? ==> r.error.ValueError?
    ensures IsInt(swarmSize) && AsInt(swarmSize) >= 10 && IsInt(maxIterations) && AsInt(maxIterations) > 100 ==>
              r == Raises(ValueError(PlatformLimitMessage))
  {
    if !IsInt(swarmSize) || AsInt(swarmSize) < 10 then
      Raises(ValueError(SwarmSizeMessage))
    else if !IsInt(maxIterations) || AsInt(maxIterations) < 1 then
      Raises(ValueError("max_iterations must be >=1"))
    else if AsInt(maxIterations) > 100 then
      Raises(ValueError(PlatformLimitMessage))
    else if !IsNumber(w) then
      Raises(ValueError("Inertia weight (w) must be numeric"))
    else if !IsNumber(c1) then
      Raises(ValueError("Cognitive coefficient (c1) must be numeric"))
    else if !IsNumber(c2) then
      Raises(ValueError("Social coefficient (c2) must be numeric"))
    else if AsReal(c1) == 0.0 && AsReal(c2) == 0.0 then
      Raises(ValueError(BothCoefficientsZeroMessage))
    else
      Returns(Settings(AsInt(swarmSize), AsInt(maxIterations), AsReal(w), AsReal(c1), AsReal(c2)))
  }
}
