/** The stand-alone validators of a problem definition and of algorithm
    parameters.

    Unlike the algorithms' own checks, which raise on the first problem, these
    collect every complaint into an error list and a warning list; a report is
    valid exactly when its error list is empty.  A complaint is kept as an
    `Issue` carrying the values its message prints, not as the rendered text. */
module Validation {
  import opened PyValues
  import Config
  import PsoValidation
  import GaOperators
  import ParticleSwarm
  import GeneticAlgorithm

  datatype Side = Lower | Upper

  datatype Issue =
    // errors
    | MissingField(field: string)
    | NotInteger(field: string, typeName: string)
    | NotNumeric(field: string, typeName: string)
    | NotPositive(field: string, got: int)
    | AboveMaximum(field: string, maximum: int, got: int)
    | BelowMinimum(field: string, minimum: int, got: int)
    | BoundsNotList(typeName: string)
    | ProblemBoundsLength(length: nat, dimensions: Value)
    | BoundsLength(length: nat, expected: int)
    | BadObjective(objective: Value)
    | BoundNotSequence(index: nat, typeName: string)
    | BoundArity(index: nat, length: nat)
    | BoundNotNumeric(index: nat, side: Side, typeName: string)
    | BoundOrder(index: nat, lower: real, upper: real)
    | OutsideUnitInterval(field: string, rate: real)
    | BothCoefficientsZero
    | TournamentAbovePopulation(tournament: int, population: Value)
    // warnings
    | HighDimensionCount(got: int)
    | LowIterationCount(got: int)
    | LargeSize(field: string, got: int)
    | NegativeInertia(w: real)
    | DivergentInertia(w: real)
    | HighMutationRate(mutationRate: real)

  /** `(is_valid, errors, warnings)` */
  datatype Report = Report(valid: bool, errors: seq<Issue>, warnings: seq<Issue>)

  /** An issue `validate_bound` reports about the bound at `index`. */
  predicate AboutBound(e: Issue, index: nat) {
    (e.BoundNotSequence? || e.BoundArity? || e.BoundNotNumeric? || e.BoundOrder?) && e.index == index
  }

  // ------------------------------------------------------------------ bounds

  /** `validate_bound(bound, index)`: a non-sequence or a sequence of the wrong
      length gets exactly one complaint; otherwise each non-numeric end gets
      one, and the order is checked only between two numbers. */
  function ValidateBound(bound: Value, index: nat): (errs: seq<Issue>)
    ensures |errs| == 0 <==> PsoValidation.BoundOk(bound)
  {
    if !IsSequence(bound) then [BoundNotSequence(index, TypeName(bound))]
    else if |bound.items| != 2 then [BoundArity(index, |bound.items|)]
    else
      var lower, upper := bound.items[0], bound.items[1];
      (if IsNumber(lower) then [] else [BoundNotNumeric(index, Lower, TypeName(lower))])
      + (if IsNumber(upper) then [] else [BoundNotNumeric(index, Upper, TypeName(upper))])
      + (if IsNumber(lower) && IsNumber(upper) && AsReal(lower) >= AsReal(upper)
         then [BoundOrder(index, AsReal(lower), AsReal(upper))] else [])
  }

  /** The shape of `validate_bound`'s answer: one complaint for a value that
      is not a pair, at most two otherwise, all naming the bound's index, and an
      order complaint only about two numbers the wrong way round. */
  lemma ValidateBoundComplaints(bound: Value, index: nat)
    ensures var errs := ValidateBound(bound, index);
            && (!IsSequence(bound) || |bound.items| != 2 ==> |errs| == 1)
            && |errs| <= 2
            && (forall e :: e in errs ==> AboutBound(e, index))
            && (forall e :: e in errs && e.BoundOrder? ==>
                  && IsSequence(bound) && |bound.items| == 2
                  && IsNumber(bound.items[0]) && IsNumber(bound.items[1])
                  && e.lower >= e.upper && e.lower == AsReal(bound.items[0]) && e.upper == AsReal(bound.items[1]))
  {
  }

  /** What the loop over the first `j` bounds has collected: the complaints of
      each bound, in index order. */
  function BoundIssues(items: seq<Value>, j: nat): seq<Issue>
    requires j <= |items|
  {
    if j == 0 then [] else BoundIssues(items, j - 1) + ValidateBound(items[j - 1], j - 1)
  }

  /** When every bound the loop visited is well formed, it collects nothing. */
  lemma {:induction false} BoundIssuesEmpty(items: seq<Value>, j: nat)
    requires j <= |items|
    requires forall i :: 0 <= i < j ==> PsoValidation.BoundOk(items[i])
    ensures |BoundIssues(items, j)| == 0
  {
    if j > 0 {
      BoundIssuesEmpty(items, j - 1);
      assert |ValidateBound(items[j - 1], j - 1)| == 0;
    }
  }

  /** When the loop collects nothing, every bound it visited is well formed. */
  lemma {:induction false} BoundIssuesOk(items: seq<Value>, j: nat, i: nat)
    requires i < j <= |items|
    requires |BoundIssues(items, j)| == 0
    ensures PsoValidation.BoundOk(items[i])
  {
    var prev, last := BoundIssues(items, j - 1), ValidateBound(items[j - 1], j - 1);
    assert |prev| + |last| == 0;
    if i < j - 1 {
      BoundIssuesOk(items, j - 1, i);
    }
  }

  /** What the loop collects is exactly the complaints of the bounds it
      visited. */
  lemma {:induction false} BoundIssuesMembers(items: seq<Value>, j: nat)
    requires j <= |items|
    ensures forall e :: e in BoundIssues(items, j) <==> exists i :: 0 <= i < j && e in ValidateBound(items[i], i)
  {
    if j > 0 {
      BoundIssuesMembers(items, j - 1);
      forall e | e in BoundIssues(items, j)
        ensures exists i :: 0 <= i < j && e in ValidateBound(items[i], i)
      {
        if e !in BoundIssues(items, j - 1) {
          assert e in ValidateBound(items[j - 1], j - 1);
        }
      }
      forall e, i | 0 <= i < j && e in ValidateBound(items[i], i)
        ensures e in BoundIssues(items, j)
      {
        if i < j - 1 {
          assert e in BoundIssues(items, j - 1);
        }
      }
    }
  }

  /** `validate_bounds(bounds, dimensions)`: a length mismatch is the only
      complaint, without looking at the bounds; otherwise every bound's
      complaints, in order. */
  method ValidateBounds(bounds: seq<Value>, dimensions: int) returns (valid: bool, errors: seq<Issue>)
    ensures |bounds| != dimensions ==> !valid && errors == [BoundsLength(|bounds|, dimensions)]
    ensures |bounds| == dimensions ==> errors == BoundIssues(bounds, |bounds|)
    ensures valid <==> errors == []
    ensures valid <==> |bounds| == dimensions && forall i :: 0 <= i < |bounds| ==> PsoValidation.BoundOk(bounds[i])
  {
    errors := [];
    if |bounds| != dimensions {
      errors := errors + [BoundsLength(|bounds|, dimensions)];
      return false, errors;
    }
    for i := 0 to |bounds|
      invariant errors == BoundIssues(bounds, i)
    {
      errors := errors + ValidateBound(bounds[i], i);
    }
    if forall i :: 0 <= i < |bounds| ==> PsoValidation.BoundOk(bounds[i]) {
      BoundIssuesEmpty(bounds, |bounds|);
    }
    valid := |errors| == 0;
    if valid {
      forall i | 0 <= i < |bounds| ensures PsoValidation.BoundOk(bounds[i]) {
        BoundIssuesOk(bounds, |bounds|, i);
      }
    }
  }

  // ----------------------------------------------------------------- problem

  /** Everything `validate_problem` demands of a problem dictionary. */
  predicate ProblemOk(problem: map<string, Value>) {
    && "dimensions" in problem && "bounds" in problem
    && IsInt(problem["dimensions"]) && 1 <= AsInt(problem["dimensions"]) <= Config.MaxDimensions
    && problem["bounds"].PList? && |problem["bounds"].items| == AsInt(problem["dimensions"])
    && (forall i :: 0 <= i < |problem["bounds"].items| ==> PsoValidation.BoundOk(problem["bounds"].items[i]))
    && IsOneOf(Get(problem, "objective", PStr("minimize")), ["minimize", "maximize"])
  }

  /** The complaints about `dimensions`, and its warning. */
  function DimensionIssues(dimensions: Value): (r: (seq<Issue>, seq<Issue>))
    ensures r.0 == [] <==> IsInt(dimensions) && 1 <= AsInt(dimensions) <= Config.MaxDimensions
    ensures r.1 == if IsInt(dimensions) && 30 < AsInt(dimensions) <= Config.MaxDimensions
                   then [HighDimensionCount(AsInt(dimensions))] else []
  {
    if !IsInt(dimensions) then ([NotInteger("dimensions", TypeName(dimensions))], [])
    else if AsInt(dimensions) <= 0 then ([NotPositive("dimensions", AsInt(dimensions))], [])
    else if AsInt(dimensions) > Config.MaxDimensions then
      ([AboveMaximum("dimensions", Config.MaxDimensions, AsInt(dimensions))], [])
    else if AsInt(dimensions) > 30 then ([], [HighDimensionCount(AsInt(dimensions))])
    else ([], [])
  }

  /** The bounds part of `validate_problem`: a non-list gets one complaint, so
      does a length that differs from a truthy `dimensions`; otherwise every
      bound is inspected, whatever `dimensions` is. */
  method ProblemBoundIssues(dimensions: Value, bounds: Value) returns (errors: seq<Issue>)
    ensures !bounds.PList? ==> errors == [BoundsNotList(TypeName(bounds))]
    ensures bounds.PList? && Truthy(dimensions) && !EqualsInt(dimensions, |bounds.items|) ==>
              errors == [ProblemBoundsLength(|bounds.items|, dimensions)]
    ensures bounds.PList? && !(Truthy(dimensions) && !EqualsInt(dimensions, |bounds.items|)) ==>
              && (|errors| == 0 <==> forall i :: 0 <= i < |bounds.items| ==> PsoValidation.BoundOk(bounds.items[i]))
              && (forall e :: e in errors <==> exists i :: 0 <= i < |bounds.items| && e in ValidateBound(bounds.items[i], i))
  {
    errors := [];
    if !bounds.PList? {
      errors := errors + [BoundsNotList(TypeName(bounds))];
    } else if Truthy(dimensions) && !EqualsInt(dimensions, |bounds.items|) {
      errors := errors + [ProblemBoundsLength(|bounds.items|, dimensions)];
    } else {
      for i := 0 to |bounds.items|
        invariant errors == BoundIssues(bounds.items, i)
      {
        errors := errors + ValidateBound(bounds.items[i], i);
      }
      ghost var items := bounds.items;
      if forall i :: 0 <= i < |items| ==> PsoValidation.BoundOk(items[i]) {
        BoundIssuesEmpty(items, |items|);
      }
      if |errors| == 0 {
        forall i | 0 <= i < |items| ensures PsoValidation.BoundOk(items[i]) {
          BoundIssuesOk(items, |items|, i);
        }
      }
      BoundIssuesMembers(items, |items|);
    }
  }

  /** `validate_problem(problem)`.  A missing required field ends the check
      with only those complaints.  The bounds are inspected one by one unless
      they are not a list or their length differs from a truthy `dimensions`
      (so with `dimensions == 0` every bound is still inspected). */
  method ValidateProblem(problem: map<string, Value>) returns (r: Report)
    ensures r.valid <==> r.errors == []
    ensures r.valid <==> ProblemOk(problem)
    ensures "dimensions" !in problem || "bounds" !in problem ==>
              && r.warnings == []
              && r.errors == (if "dimensions" !in problem then [MissingField("dimensions")] else [])
                             + (if "bounds" !in problem then [MissingField("bounds")] else [])
    ensures "dimensions" in problem && "bounds" in problem ==>
              r.warnings == DimensionIssues(problem["dimensions"]).1
    ensures "dimensions" in problem && "bounds" in problem && !problem["bounds"].PList? ==>
              BoundsNotList(TypeName(problem["bounds"])) in r.errors
    ensures "dimensions" in problem && "bounds" in problem && problem["bounds"].PList? ==>
              var d, items := problem["dimensions"], problem["bounds"].items;
              if Truthy(d) && !EqualsInt(d, |items|)
              then ProblemBoundsLength(|items|, d) in r.errors && forall e, i :: e in r.errors ==> !AboutBound(e, i)
              else forall i, e :: 0 <= i < |items| && e in ValidateBound(items[i], i) ==> e in r.errors
  {
    var errors: seq<Issue> := [];
    var warnings: seq<Issue> := [];
    if "dimensions" !in problem {
      errors := errors + [MissingField("dimensions")];
    }
    if "bounds" !in problem {
      errors := errors + [MissingField("bounds")];
    }
    if |errors| != 0 {
      return Report(false, errors, warnings);
    }

    var dimensions := problem["dimensions"];
    var dimIssues := DimensionIssues(dimensions);
    errors := errors + dimIssues.0;
    warnings := warnings + dimIssues.1;
    ghost var afterDimensions := errors;

    var boundIssues := ProblemBoundIssues(dimensions, problem["bounds"]);
    errors := errors + boundIssues;
    ghost var afterBounds := errors;

    var objective := Get(problem, "objective", PStr("minimize"));
    if !IsOneOf(objective, ["minimize", "maximize"]) {
      errors := errors + [BadObjective(objective)];
    }
    assert |errors| == 0 <==> |afterBounds| == 0 && IsOneOf(objective, ["minimize", "maximize"]);
    return Report(|errors| == 0, errors, warnings);
  }

  /** What `validate_problem` accepts is what the algorithms' own schema check
      accepts, apart from the callable objective, which only the latter
      demands, and the cap on `dimensions`, which only the former imposes. */
  lemma ProblemOkAgreesWithSchema(problem: map<string, Value>)
    ensures ProblemOk(problem) && "fitness_function" in problem && problem["fitness_function"].PCallable? ==>
              PsoValidation.SchemaOk(problem)
    ensures PsoValidation.SchemaOk(problem) && AsInt(problem["dimensions"]) <= Config.MaxDimensions ==>
              ProblemOk(problem)
  {
  }

  // -------------------------------------------------------------- parameters

  /** The check on `max_iterations` every algorithm shares (default 50). */
  function IterationIssues(params: map<string, Value>): (r: (seq<Issue>, seq<Issue>))
    ensures var m := Get(params, "max_iterations", PInt(50));
            && (r.0 == [] <==> IsInt(m) && 1 <= AsInt(m) <= Config.MaxIterations)
            && |r.0| <= 1
            && r.1 == if IsInt(m) && 1 <= AsInt(m) < 10 then [LowIterationCount(AsInt(m))] else []
  {
    var m := Get(params, "max_iterations", PInt(50));
    if !IsInt(m) then ([NotInteger("max_iterations", TypeName(m))], [])
    else if AsInt(m) < 1 then ([BelowMinimum("max_iterations", 1, AsInt(m))], [])
    else if AsInt(m) > Config.MaxIterations then ([AboveMaximum("max_iterations", Config.MaxIterations, AsInt(m))], [])
    else if AsInt(m) < 10 then ([], [LowIterationCount(AsInt(m))])
    else ([], [])
  }

  /** What `_validate_pso_params` demands. */
  predicate PsoParamsOk(params: map<string, Value>) {
    var swarm := Get(params, "swarm_size", PInt(30));
    var c1, c2 := Get(params, "c1", PFloat(1.5)), Get(params, "c2", PFloat(1.5));
    && IsInt(swarm) && AsInt(swarm) >= 10
    && IsNumber(Get(params, "w", PFloat(0.7))) && IsNumber(c1) && IsNumber(c2)
    && !(AsReal(c1) == 0.0 && AsReal(c2) == 0.0)
  }

  /** `_validate_pso_params(params)`: a negative inertia or one of at least 1
      is only warned about, and so is a swarm above 200. */
  function PsoParamIssues(params: map<string, Value>): (r: (seq<Issue>, seq<Issue>))
    ensures r.0 == [] <==> PsoParamsOk(params)
    ensures var swarm, w := Get(params, "swarm_size", PInt(30)), Get(params, "w", PFloat(0.7));
            r.1 == (if IsInt(swarm) && AsInt(swarm) > 200 then [LargeSize("swarm_size", AsInt(swarm))] else [])
                   + (if IsNumber(w) && AsReal(w) < 0.0 then [NegativeInertia(AsReal(w))]
                      else if IsNumber(w) && AsReal(w) >= 1.0 then [DivergentInertia(AsReal(w))] else [])
    ensures var c1, c2 := Get(params, "c1", PFloat(1.5)), Get(params, "c2", PFloat(1.5));
            BothCoefficientsZero in r.0 <==> IsNumber(c1) && IsNumber(c2) && AsReal(c1) == 0.0 && AsReal(c2) == 0.0
  {
    var swarm := Get(params, "swarm_size", PInt(30));
    var swarmIssues :=
      if !IsInt(swarm) then ([NotInteger("swarm_size", TypeName(swarm))], [])
      else if AsInt(swarm) < 10 then ([BelowMinimum("swarm_size", 10, AsInt(swarm))], [])
      else if AsInt(swarm) > 200 then ([], [LargeSize("swarm_size", AsInt(swarm))])
      else ([], []);
    var w := Get(params, "w", PFloat(0.7));
    var wIssues :=
      if !IsNumber(w) then ([NotNumeric("w", TypeName(w))], [])
      else if AsReal(w) < 0.0 then ([], [NegativeInertia(AsReal(w))])
      else if AsReal(w) >= 1.0 then ([], [DivergentInertia(AsReal(w))])
      else ([], []);
    var c1 := Get(params, "c1", PFloat(1.5));
    var c2 := Get(params, "c2", PFloat(1.5));
    var coefficientIssues :=
      (if IsNumber(c1) then [] else [NotNumeric("c1", TypeName(c1))])
      + (if IsNumber(c2) then [] else [NotNumeric("c2", TypeName(c2))])
      + (if IsNumber(c1) && IsNumber(c2) && AsReal(c1) == 0.0 && AsReal(c2) == 0.0 then [BothCoefficientsZero] else []);
    (swarmIssues.0 + wIssues.0 + coefficientIssues, swarmIssues.1 + wIssues.1)
  }

  /** What `_validate_ga_params` demands. */
  predicate GaParamsOk(params: map<string, Value>) {
    var population := Get(params, "population_size", PInt(50));
    var crossover, mutation := Get(params, "crossover_rate", PFloat(0.8)), Get(params, "mutation_rate", PFloat(0.1));
    var tournament := Get(params, "tournament_size", PInt(3));
    && IsInt(population) && AsInt(population) >= 10
    && IsNumber(crossover) && 0.0 <= AsReal(crossover) <= 1.0
    && IsNumber(mutation) && 0.0 <= AsReal(mutation) <= 1.0
    && IsInt(tournament) && 2 <= AsInt(tournament) <= AsInt(population)
  }

  /** What comparing an integer with a value of another type raises. */
  const ComparisonHead := "'>' not supported between instances of 'int' and '"
  const ComparisonTail := "'"

  /** `_validate_ga_params(params)`.  The tournament size is compared with the
      population size even when the latter was already rejected, so a
      population size that is not a number makes the comparison raise. */
  function GaParamIssues(params: map<string, Value>): (r: Outcome<(seq<Issue>, seq<Issue>)>)
    ensures var population, tournament := Get(params, "population_size", PInt(50)), Get(params, "tournament_size", PInt(3));
            r.Raises? <==> IsInt(tournament) && AsInt(tournament) >= 2 && !IsNumber(population)
    ensures r.Raises? ==>
              r.error == TypeError(ComparisonHead + TypeName(Get(params, "population_size", PInt(50))) + ComparisonTail)
    ensures r.Returns? ==> (r.value.0 == [] <==> GaParamsOk(params))
    ensures r.Returns? ==>
              var population, mutation := Get(params, "population_size", PInt(50)), Get(params, "mutation_rate", PFloat(0.1));
              r.value.1 == (if IsInt(population) && AsInt(population) > 200 then [LargeSize("population_size", AsInt(population))] else [])
                           + (if IsNumber(mutation) && 0.5 < AsReal(mutation) <= 1.0 then [HighMutationRate(AsReal(mutation))] else [])
  {
    var population := Get(params, "population_size", PInt(50));
    var populationIssues :=
      if !IsInt(population) then ([NotInteger("population_size", TypeName(population))], [])
      else if AsInt(population) < 10 then ([BelowMinimum("population_size", 10, AsInt(population))], [])
      else if AsInt(population) > 200 then ([], [LargeSize("population_size", AsInt(population))])
      else ([], []);
    var crossover := Get(params, "crossover_rate", PFloat(0.8));
    var crossoverIssues :=
      if !IsNumber(crossover) then [NotNumeric("crossover_rate", TypeName(crossover))]
      else if !(0.0 <= AsReal(crossover) <= 1.0) then [OutsideUnitInterval("crossover_rate", AsReal(crossover))]
      else [];
    var mutation := Get(params, "mutation_rate", PFloat(0.1));
    var mutationIssues :=
      if !IsNumber(mutation) then ([NotNumeric("mutation_rate", TypeName(mutation))], [])
      else if !(0.0 <= AsReal(mutation) <= 1.0) then ([OutsideUnitInterval("mutation_rate", AsReal(mutation))], [])
      else if AsReal(mutation) > 0.5 then ([], [HighMutationRate(AsReal(mutation))])
      else ([], []);
    var tournament := Get(params, "tournament_size", PInt(3));
    if IsInt(tournament) && AsInt(tournament) >= 2 && !IsNumber(population) then
      Raises(TypeError(ComparisonHead + TypeName(population) + ComparisonTail))
    else
      var tournamentIssues :=
        if !IsInt(tournament) then [NotInteger("tournament_size", TypeName(tournament))]
        else if AsInt(tournament) < 2 then [BelowMinimum("tournament_size", 2, AsInt(tournament))]
        else if AsInt(tournament) as real > AsReal(population) then [TournamentAbovePopulation(AsInt(tournament), population)]
        else [];
      Returns((populationIssues.0 + crossoverIssues + mutationIssues.0 + tournamentIssues,
               populationIssues.1 + mutationIssues.1))
  }

  /** `validate_algorithm_params(algorithm, params)`: the shared iteration check,
      then the particle swarm's or the genetic algorithm's own checks; other
      algorithms get only the shared one.  For the two algorithms with their
      own checks, the report is valid exactly when the algorithm's constructor
      accepts the same parameters. */
  function ValidateAlgorithmParams(algorithm: string, params: map<string, Value>): (r: Outcome<Report>)
    ensures r.Raises? <==> algorithm == "genetic_algorithm" && GaParamIssues(params).Raises?
    ensures r.Returns? ==> (r.value.valid <==> r.value.errors == [])
    ensures r.Returns? ==> IterationIssues(params).1 <= r.value.warnings
    ensures algorithm == "particle_swarm" ==>
              r.Returns? &&
              (r.value.valid <==>
                 PsoValidation.ParametersOk(ParticleSwarm.SwarmSizeParam(params), ParticleSwarm.MaxIterationsParam(params),
                                            ParticleSwarm.InertiaParam(params), ParticleSwarm.CognitiveParam(params),
                                            ParticleSwarm.SocialParam(params)))
    ensures algorithm == "genetic_algorithm" && r.Returns? ==>
              (r.value.valid <==>
                 GaOperators.ParametersOk(GeneticAlgorithm.PopulationSizeParam(params), GeneticAlgorithm.MaxIterationsParam(params),
                                          GeneticAlgorithm.CrossoverRateParam(params), GeneticAlgorithm.MutationRateParam(params),
                                          GeneticAlgorithm.TournamentSizeParam(params)))
    ensures algorithm != "particle_swarm" && algorithm != "genetic_algorithm" ==>
              r == Returns(Report(IterationIssues(params).0 == [], IterationIssues(params).0, IterationIssues(params).1))
  {
    var common := IterationIssues(params);
    if algorithm == "particle_swarm" then
      var own := PsoParamIssues(params);
      var errors := common.0 + own.0;
      Returns(Report(|errors| == 0, errors, common.1 + own.1))
    else if algorithm == "genetic_algorithm" then
      match GaParamIssues(params)
      case Raises(e) => Raises(e)
      case Returns(own) =>
        var errors := common.0 + own.0;
        Returns(Report(|errors| == 0, errors, common.1 + own.1))
    else
      Returns(Report(|common.0| == 0, common.0, common.1))
  }
}
