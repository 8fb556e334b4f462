/** The differential evolution engine `DifferentialEvolution`.

    A sweep of iteration `t` visits every target `i` in order, builds a trial
    from the CURRENT population (earlier targets of the same sweep may already
    have been replaced) and keeps it in place when it is strictly better.  The
    step is specified by the function `SelectAt` over a `Snapshot` of the
    engine's state, and the class's methods are proved to follow it.  Random draws are parameters: `picks(t, i)` the positions
    `np.random.choice` takes from the candidate list, `crossRand(t, i, d)` the
    crossover draws and `forced(t, i)` the coordinate `randint` forces. */
module DifferentialEvolution {
  import opened PyValues
  import opened SearchSpace
  import opened DeOperators
  import opened Base

  datatype DeDraws = DeDraws(
    picks: (nat, nat) -> seq<nat>,
    crossRand: (nat, nat, nat) -> real,
    forced: (nat, nat) -> nat)

  /** What numpy guarantees of the draws for a population of `n` and `dims`
      coordinates. */
  ghost predicate DrawsOk(d: DeDraws, s: DeSettings, dims: nat) {
    s.populationSize >= 1 &&
    forall t, i :: PicksOk(d.picks(t, i), s.populationSize - 1, DonorCount(s.strategy)) && d.forced(t, i) < dims
  }

  /** `np.random.rand(dims)` for target `i` of iteration `t`. */
  function CrossRands(d: DeDraws, t: nat, i: nat, dims: nat): (r: seq<real>)
    ensures |r| == dims
  {
    seq(dims, k requires 0 <= k < dims => d.crossRand(t, i, k))
  }

  /** `_evaluate` of differential evolution.  Its message embeds the text of
      the vector, which is not modelled; the error is the reason alone. */
  function EvaluateIndividual(fitness: Vec -> FitnessValue, x: Vec): (r: Outcome<real>)
    ensures r.Returns? <==> fitness(x).Finite?
    ensures r.Returns? ==> r.value == fitness(x).value
    ensures r.Raises? ==> r.error.RuntimeError?
  {
    match fitness(x)
    case Finite(v) => Returns(v)
    case NaN => Raises(RuntimeError(NotFiniteMessage))
    case Infinite => Raises(RuntimeError(NotFiniteMessage))
    case NonNumeric => Raises(RuntimeError(NotNumericMessage))
    case Raised => Raises(RuntimeError(CallFailedMessage))
  }

  const NotFiniteMessage := "Fitness function returned NaN or Inf"
  const NotNumericMessage := "Fitness function must return numeric scalar"
  const CallFailedMessage := "Error evaluating individual"
  const NoBestMessage := "float() argument must be a string or a real number, not 'NoneType'"


  /** The state one selection step reads and writes. */
  datatype Snapshot = Snapshot(pop: seq<Vec>, fit: seq<real>, best: Vec, bestFitness: real)

  /** The engine's settings are the validated ones. */
  predicate SettingsOk(p: Problem, s: DeSettings) {
    && WellFormed(p)
    && s.populationSize >= 10 && s.maxIterations >= 1
    && 0.0 < s.f <= 2.0 && 0.0 <= s.cr <= 1.0 && s.timeout > 0.0
  }

  /** A state the selection loop keeps: one row and one score per individual,
      every individual inside the bounds and scored by its fitness, and the
      best scored, inside the bounds and at least as good as every score. */
  ghost predicate Consistent(p: Problem, s: DeSettings, st: Snapshot) {
    && |st.pop| == s.populationSize && |st.fit| == s.populationSize
    && (forall k :: 0 <= k < |st.pop| ==> InBounds(st.pop[k], p.bounds))
    && (forall k :: 0 <= k < |st.pop| ==> p.fitness(st.pop[k]) == Finite(st.fit[k]))
    && InBounds(st.best, p.bounds) && p.fitness(st.best) == Finite(st.bestFitness)
    && (forall k :: 0 <= k < |st.fit| ==> !IsBetter(p.objective, st.fit[k], st.bestFitness))
  }

  /** The trial vector for target `i`: mutate with the drawn donors, apply
      the boundary policy, cross over with the target, apply the policy again. */
  function TrialFor(p: Problem, s: DeSettings, d: DeDraws, t: nat, pop: seq<Vec>, best: Vec, i: nat): (trial: Vec)
    requires WellFormed(p) && i < |pop|
    requires forall k :: 0 <= k < |pop| ==> InBounds(pop[k], p.bounds)
    requires InBounds(best, p.bounds)
    requires PicksOk(d.picks(t, i), |pop| - 1, DonorCount(s.strategy)) && d.forced(t, i) < p.dimensions
    ensures InBounds(trial, p.bounds)
  {
    var donors := Donors(|pop|, i, d.picks(t, i));
    DonorsExcludeTarget(|pop|, i, d.picks(t, i), DonorCount(s.strategy));
    assert forall j :: 0 <= j < |donors| ==> donors[j] < |pop| && InBounds(pop[donors[j]], p.bounds);
    var mutant := BoundaryImage(s.boundary, Mutant(s.strategy, pop, best, donors, s.f), p.bounds);
    var mask := CrossMask(CrossRands(d, t, i, p.dimensions), s.cr, d.forced(t, i));
    assert InBounds(pop[i], p.bounds) && InBounds(mutant, p.bounds);
    BoundaryImage(s.boundary, Trial(mask, mutant, pop[i]), p.bounds)
  }

  /** Target `i`'s selection step: the trial replaces the target only when it
      is strictly better, and then also the best when it is strictly better
      than the best.  A trial whose fitness is not finite raises. */
  function SelectAt(p: Problem, s: DeSettings, d: DeDraws, t: nat, st: Snapshot, i: nat): Outcome<Snapshot>
    requires SettingsOk(p, s) && Consistent(p, s, st) && DrawsOk(d, s, p.dimensions) && i < s.populationSize
  {
    var trial := TrialFor(p, s, d, t, st.pop, st.best, i);
    match EvaluateIndividual(p.fitness, trial)
    case Raises(e) => Raises(e)
    case Returns(v) => Returns(Greedy(p.objective, st, i, trial, v))
  }

  /** Greedy selection of a scored trial for target `i`. */
  function Greedy(obj: Objective, st: Snapshot, i: nat, trial: Vec, v: real): Snapshot
    requires i < |st.pop| && i < |st.fit|
  {
    if IsBetter(obj, v, st.fit[i]) then
      if IsBetter(obj, v, st.bestFitness) then Snapshot(st.pop[i := trial], st.fit[i := v], trial, v)
      else Snapshot(st.pop[i := trial], st.fit[i := v], st.best, st.bestFitness)
    else st
  }

  /** A selection step keeps the state consistent and never makes the best
      worse; what it raises is a `RuntimeError`. */
  lemma SelectAtKeepsConsistent(p: Problem, s: DeSettings, d: DeDraws, t: nat, st: Snapshot, i: nat)
    requires SettingsOk(p, s) && Consistent(p, s, st) && DrawsOk(d, s, p.dimensions) && i < s.populationSize
    ensures var r := SelectAt(p, s, d, t, st, i);
            && (r.Raises? ==> r.error.RuntimeError?)
            && (r.Returns? ==> Consistent(p, s, r.value) && !IsBetter(p.objective, st.bestFitness, r.value.bestFitness))
  {
    var trial := TrialFor(p, s, d, t, st.pop, st.best, i);
    var r := SelectAt(p, s, d, t, st, i);
    if r.Returns? && p.fitness(trial).Finite? {
      var v := p.fitness(trial).value;
      if IsBetter(p.objective, v, st.fit[i]) {
        var st' := r.value;
        forall k | 0 <= k < |st'.fit|
          ensures !IsBetter(p.objective, st'.fit[k], st'.bestFitness)
        {
          if k != i {
            assert !IsBetter(p.objective, st.fit[k], st.bestFitness);
          }
        }
      }
    }
  }

  /** A selection step raises exactly when the trial's fitness is not
      finite, touches only target `i`, leaves there either the target or the
      trial, and never makes the target's score worse. */
  lemma SelectAtProperties(p: Problem, s: DeSettings, d: DeDraws, t: nat, st: Snapshot, i: nat)
    requires SettingsOk(p, s) && Consistent(p, s, st) && DrawsOk(d, s, p.dimensions) && i < s.populationSize
    ensures var r := SelectAt(p, s, d, t, st, i);
            && (r.Returns? <==> p.fitness(TrialFor(p, s, d, t, st.pop, st.best, i)).Finite?)
            && (r.Returns? ==>
                  && |r.value.pop| == |st.pop| && |r.value.fit| == |st.fit|
                  && (forall k :: 0 <= k < s.populationSize && k != i ==> r.value.pop[k] == st.pop[k] && r.value.fit[k] == st.fit[k])
                  && (r.value.pop[i] == st.pop[i] || r.value.pop[i] == TrialFor(p, s, d, t, st.pop, st.best, i))
                  && !IsBetter(p.objective, st.fit[i], r.value.fit[i]))
  {
  }

  /** The selection steps of one sweep from target `i` on, each against the
      state the previous steps left; the first step that raises ends the
      sweep with its error. */
  ghost function SweepFrom(p: Problem, s: DeSettings, d: DeDraws, t: nat, st: Snapshot, i: nat): Outcome<Snapshot>
    requires SettingsOk(p, s) && Consistent(p, s, st) && DrawsOk(d, s, p.dimensions) && i <= s.populationSize
    decreases s.populationSize - i
  {
    if i == s.populationSize then Returns(st)
    else
      SelectAtKeepsConsistent(p, s, d, t, st, i);
      match SelectAt(p, s, d, t, st, i)
      case Raises(e) => Raises(e)
      case Returns(next) => SweepFrom(p, s, d, t, next, i + 1)
  }

  /** The state `after` (or a raise) is what a whole sweep of iteration `t`
      makes of `before`. */
  ghost predicate Swept(p: Problem, s: DeSettings, d: DeDraws, t: nat, before: Snapshot, raised: bool, after: Snapshot) {
    && SettingsOk(p, s) && Consistent(p, s, before) && DrawsOk(d, s, p.dimensions)
    && (raised <==> SweepFrom(p, s, d, t, before, 0).Raises?)
    && (!raised ==> after == SweepFrom(p, s, d, t, before, 0).value)
  }

  /** One step of `SweepFrom`: target `i`'s selection either raises, ending
      the sweep with its error, or hands its state to the rest of the sweep. */
  lemma SweepFromStep(p: Problem, s: DeSettings, d: DeDraws, t: nat, st: Snapshot, i: nat)
    requires SettingsOk(p, s) && Consistent(p, s, st) && DrawsOk(d, s, p.dimensions) && i < s.populationSize
    ensures SelectAt(p, s, d, t, st, i).Raises? ==>
              SweepFrom(p, s, d, t, st, i) == Raises(SelectAt(p, s, d, t, st, i).error)
    ensures SelectAt(p, s, d, t, st, i).Returns? ==>
              && Consistent(p, s, SelectAt(p, s, d, t, st, i).value)
              && SweepFrom(p, s, d, t, st, i) == SweepFrom(p, s, d, t, SelectAt(p, s, d, t, st, i).value, i + 1)
  {
    SelectAtKeepsConsistent(p, s, d, t, st, i);
  }

  /** A sweep raises only `RuntimeError`; a completed sweep leaves a
      consistent state in which no individual scores worse than before and
      the best has not regressed. */
  lemma {:induction false} SweepFromProperties(p: Problem, s: DeSettings, d: DeDraws, t: nat, st: Snapshot, i: nat)
    requires SettingsOk(p, s) && Consistent(p, s, st) && DrawsOk(d, s, p.dimensions) && i <= s.populationSize
    ensures var r := SweepFrom(p, s, d, t, st, i);
            && (r.Raises? ==> r.error.RuntimeError?)
            && (r.Returns? ==>
                  && Consistent(p, s, r.value)
                  && (forall k :: 0 <= k < s.populationSize ==> !IsBetter(p.objective, st.fit[k], r.value.fit[k]))
                  && !IsBetter(p.objective, st.bestFitness, r.value.bestFitness))
    decreases s.populationSize - i
  {
    if i < s.populationSize {
      SweepFromStep(p, s, d, t, st, i);
      SelectAtKeepsConsistent(p, s, d, t, st, i);
      SelectAtProperties(p, s, d, t, st, i);
      var step := SelectAt(p, s, d, t, st, i);
      if step.Returns? {
        var next := step.value;
        SweepFromProperties(p, s, d, t, next, i + 1);
        var r := SweepFrom(p, s, d, t, next, i + 1);
        if r.Returns? {
          forall k | 0 <= k < s.populationSize
            ensures !IsBetter(p.objective, st.fit[k], r.value.fit[k])
          {
            assert !IsBetter(p.objective, st.fit[k], next.fit[k]);
            assert !IsBetter(p.objective, next.fit[k], r.value.fit[k]);
          }
        }
      }
    }
  }

  /** The iteration count `get_results` reports: the index of the last
      iteration the loop entered, plus one.  A loop stopped by the clock at
      `t` therefore reports `t + 1` although only `t` sweeps ran. */
  function ReportedIterations(maxIterations: nat, timedOut: nat -> bool): (n: nat)
    requires maxIterations >= 1
    ensures var c := CompletedIterations(maxIterations, timedOut, 0);
            && 1 <= n <= maxIterations
            && (c == maxIterations ==> n == c)
            && (c < maxIterations ==> n == c + 1 && timedOut(c))
  {
    var c := CompletedIterations(maxIterations, timedOut, 0);
    if c < maxIterations then c + 1 else maxIterations
  }

  /** What `get_results` returns.  The algorithm's name is built from the
      strategy, `CR` and `F`; the elapsed time is read from the clock and not
      modelled. */
  datatype DeResults = DeResults(
    strategy: string,
    cr: real,
    f: real,
    bestSolution: Option<Vec>,
    bestFitness: real,
    convergenceCurve: seq<real>,
    params: map<string, Value>,
    iterations: nat,
    status: string)

  /** The parameter values the constructor reads, with their defaults. */
  function PopulationSizeParam(params: map<string, Value>): Value { Get(params, "population_size", PInt(50)) }
  function MaxIterationsParam(params: map<string, Value>): Value { Get(params, "max_iterations", PInt(50)) }
  function ScaleParam(params: map<string, Value>): Value { Get(params, "F", PFloat(0.8)) }
  function CrossoverParam(params: map<string, Value>): Value { Get(params, "CR", PFloat(0.9)) }
  function StrategyParam(params: map<string, Value>): Value { Get(params, "strategy", PStr("rand/1/bin")) }
  function BoundaryParam(params: map<string, Value>): Value { Get(params, "boundary_handling", PStr("clip")) }
  function TimeoutParam(params: map<string, Value>): Value { Get(params, "timeout", PInt(30)) }

  /** Everything the constructor demands of its two dictionaries. */
  predicate Acceptable(problem: map<string, Value>, params: map<string, Value>) {
    SchemaOk(problem) &&
    ParametersOk(PopulationSizeParam(params), MaxIterationsParam(params), ScaleParam(params), CrossoverParam(params),
                 StrategyParam(params), BoundaryParam(params), TimeoutParam(params))
  }

  /** The constructor's two checks in order: the problem schema first, then
      the parameters. */
  function Configure(problem: map<string, Value>, params: map<string, Value>): (r: Outcome<(Problem, DeSettings)>)
    ensures r.Returns? <==> Acceptable(problem, params)
    ensures !SchemaOk(problem) ==> r == Raises(ValidateProblemSchema(problem).error)
    ensures r.Returns? ==> SettingsOk(r.value.0, r.value.1)
    ensures r.Raises? ==> r.error.ValueError? || r.error.TypeError?
  {
    match ValidateProblemSchema(problem)
    case Raises(e) => Raises(e)
    case Returns(p) =>
      match ValidateParameters(PopulationSizeParam(params), MaxIterationsParam(params), ScaleParam(params),
                               CrossoverParam(params), StrategyParam(params), BoundaryParam(params), TimeoutParam(params))
      case Raises(e) => Raises(e)
      case Returns(s) => Returns((p, s))
  }

  /** Constructing the engine: the constructor's checks raise before any
      state exists; otherwise the new engine holds the validated settings and
      no population. */
  method New(problem: map<string, Value>, params: map<string, Value>) returns (r: Outcome<DifferentialEvolution>)
    ensures r.Returns? <==> Acceptable(problem, params)
    ensures r.Raises? ==> r.error == Configure(problem, params).error
    ensures r.Returns? ==>
              && fresh(r.value) && r.value.Configured()
              && r.value.problem == problem && r.value.params == params
              && !r.value.populated && !r.value.bestKnown
              && r.value.bestSolution == None && r.value.convergenceCurve == []
  {
    var c := Configure(problem, params);
    if c.Raises? {
      return Raises(c.error);
    }
    var engine := new DifferentialEvolution(problem, params);
    return Returns(engine);
  }

  class DifferentialEvolution {
    const problem: map<string, Value>
    const params: map<string, Value>
    const model: Problem
    const settings: DeSettings

    const population: array<Vec>
    const fitnessValues: array<real>
    var bestIndividual: Vec
    var bestFitness: real
    var bestSolution: Option<Vec>
    var convergenceCurve: seq<real>

    /** `population is not None`: set as soon as `initialize` has drawn. */
    var populated: bool
    /** `best_fitness is not None`: set once an `initialize` has completed. */
    var bestKnown: bool

    ghost predicate Configured() {
      && SettingsOk(model, settings)
      && population.Length == settings.populationSize && fitnessValues.Length == settings.populationSize
    }

    /** The state the selection steps read and write. */
    function Snap(): Snapshot
      reads this, population, fitnessValues
    {
      Snapshot(population[..], fitnessValues[..], bestIndividual, bestFitness)
    }

    /** The trace never regresses and the best is at least as good as its
        last entry. */
    ghost predicate TraceValid()
      reads this
    {
      && |convergenceCurve| > 0
      && Improving(model.objective, convergenceCurve)
      && !IsBetter(model.objective, convergenceCurve[|convergenceCurve| - 1], bestFitness)
    }

    /** The state during a sweep: initialized, consistent, and with a trace
        the best has not fallen behind. */
    ghost predicate InSweep()
      reads this, population, fitnessValues
    {
      && Configured() && populated && bestKnown
      && Consistent(model, settings, Snap())
      && bestSolution == Some(bestIndividual)
      && TraceValid()
    }

    /** The state between sweeps: the trace also ends with the best fitness. */
    ghost predicate Valid()
      reads this, population, fitnessValues
    {
      InSweep() && convergenceCurve[|convergenceCurve| - 1] == bestFitness
    }

    /** `__init__` once both checks have passed. */
    constructor (problem: map<string, Value>, params: map<string, Value>)
      requires Acceptable(problem, params)
      ensures Configured()
      ensures this.problem == problem && this.params == params
      ensures Configure(problem, params) == Returns((model, settings))
      ensures !populated && !bestKnown && bestSolution == None && convergenceCurve == []
    {
      var (p, s) := Configure(problem, params).value;
      this.problem := problem;
      this.params := params;
      model := p;
      settings := s;
      population := new Vec[s.populationSize](_ => []);
      fitnessValues := new real[s.populationSize];
      populated := false;
      bestKnown := false;
      bestSolution := None;
      convergenceCurve := [];
    }

    /** `initialize`: a uniform random population, scored in order; the first
        best individual becomes the best and the trace RESTARTS with its
        score.  The population is in place even when a score raises. */
    method Initialize(draw: (nat, nat) -> real) returns (r: Outcome<()>)
      requires Configured()
      requires forall i, d :: 0.0 <= draw(i, d) < 1.0
      modifies this, population, fitnessValues
      ensures populated
      ensures forall i :: 0 <= i < settings.populationSize ==> population[i] == RandomPoint(model.bounds, draw, i)
      ensures r.Returns? <==> forall i :: 0 <= i < settings.populationSize ==> model.fitness(RandomPoint(model.bounds, draw, i)).Finite?
      ensures r.Raises? ==>
                && r.error.RuntimeError?
                && fitnessValues[..] == old(fitnessValues[..]) && bestKnown == old(bestKnown)
                && bestFitness == old(bestFitness) && bestIndividual == old(bestIndividual)
                && bestSolution == old(bestSolution) && convergenceCurve == old(convergenceCurve)
      ensures r.Returns? ==>
                && Valid()
                && bestFitness == fitnessValues[ArgBest(model.objective, fitnessValues[..])]
                && bestIndividual == population[ArgBest(model.objective, fitnessValues[..])]
                && convergenceCurve == [bestFitness]
    {
      Scatter(draw);
      populated := true;
      var scored := ScoreAll(population[..]);
      if scored.Raises? {
        return Raises(scored.error);
      }
      AdoptScores(scored.value);
      return Returns(());
    }

    /** The drawing loop of `initialize`: individual `i` is the uniform point
        drawn with `draw(i, _)`. */
    method Scatter(draw: (nat, nat) -> real)
      requires Configured()
      requires forall i, d :: 0.0 <= draw(i, d) < 1.0
      modifies population
      ensures forall i :: 0 <= i < settings.populationSize ==> population[i] == RandomPoint(model.bounds, draw, i)
      ensures forall i :: 0 <= i < settings.populationSize ==> InBounds(population[i], model.bounds)
    {
      var i := 0;
      while i < settings.populationSize
        invariant 0 <= i <= settings.populationSize
        invariant forall j :: 0 <= j < i ==> population[j] == RandomPoint(model.bounds, draw, j)
      {
        population[i] := RandomPoint(model.bounds, draw, i);
        i := i + 1;
      }
    }

    /** The end of `initialize`: the scores become the fitness values, the
        first best individual the best, and the trace restarts with its
        score. */
    method AdoptScores(scores: seq<real>)
      requires Configured() && populated && |scores| == settings.populationSize
      requires forall i :: 0 <= i < settings.populationSize ==> InBounds(population[i], model.bounds)
      requires forall i :: 0 <= i < settings.populationSize ==> model.fitness(population[i]) == Finite(scores[i])
      modifies this, fitnessValues
      ensures Valid() && populated
      ensures fitnessValues[..] == scores
      ensures bestFitness == scores[ArgBest(model.objective, scores)]
      ensures bestIndividual == population[ArgBest(model.objective, scores)]
      ensures convergenceCurve == [bestFitness]
    {
      forall k | 0 <= k < settings.populationSize {
        fitnessValues[k] := scores[k];
      }
      assert fitnessValues[..] == scores;
      var best := ArgBest(model.objective, scores);
      bestIndividual, bestFitness := population[best], scores[best];
      bestSolution := Some(bestIndividual);
      bestKnown := true;
      convergenceCurve := [bestFitness];
    }

    /** `[self._evaluate(ind) for ind in self.population]`. */
    function ScoreAll(xs: seq<Vec>): (r: Outcome<seq<real>>)
      ensures r.Returns? <==> forall i :: 0 <= i < |xs| ==> model.fitness(xs[i]).Finite?
      ensures r.Returns? ==> |r.value| == |xs| && forall i :: 0 <= i < |xs| ==> model.fitness(xs[i]) == Finite(r.value[i])
      ensures r.Raises? ==> r.error.RuntimeError?
    {
      if xs == [] then Returns([])
      else
        match EvaluateIndividual(model.fitness, xs[0])
        case Raises(e) => Raises(e)
        case Returns(v) =>
          match ScoreAll(xs[1..])
          case Raises(e) => Raises(e)
          case Returns(vs) => Returns([v] + vs)
    }

    /** The mutation and crossover for target `i`, read from the current
        population and best. */
    method MakeTrial(d: DeDraws, t: nat, i: nat) returns (trial: Vec)
      requires InSweep() && DrawsOk(d, settings, model.dimensions) && i < settings.populationSize
      ensures trial == TrialFor(model, settings, d, t, population[..], bestIndividual, i)
    {
      var pop := population[..];
      var picks := d.picks(t, i);
      DonorsExcludeTarget(|pop|, i, picks, DonorCount(settings.strategy));
      var donors := Donors(|pop|, i, picks);
      var mutant := ApplyBoundary(settings.boundary, Mutant(settings.strategy, pop, bestIndividual, donors, settings.f), model.bounds);
      var mask := CrossMask(CrossRands(d, t, i, model.dimensions), settings.cr, d.forced(t, i));
      trial := ApplyBoundary(settings.boundary, Trial(mask, mutant, pop[i]), model.bounds);
    }

    /** One selection step, in place: the trial is scored, and only when it
        is strictly better does it replace target `i` (and the best when it
        beats the best). */
    method Select(d: DeDraws, t: nat, i: nat) returns (r: Outcome<()>)
      requires InSweep() && DrawsOk(d, settings, model.dimensions) && i < settings.populationSize
      modifies this, population, fitnessValues
      ensures SelectAt(model, settings, d, t, old(Snap()), i).Raises? <==> r.Raises?
      ensures r.Raises? ==> r.error.RuntimeError? && Snap() == old(Snap())
      ensures r.Returns? ==> Snap() == SelectAt(model, settings, d, t, old(Snap()), i).value
      ensures !IsBetter(model.objective, old(bestFitness), bestFitness)
      ensures InSweep() && populated == old(populated) && bestKnown == old(bestKnown)
      ensures convergenceCurve == old(convergenceCurve)
    {
      ghost var before := Snap();
      var trial := MakeTrial(d, t, i);
      SelectAtKeepsConsistent(model, settings, d, t, before, i);
      var v := EvaluateIndividual(model.fitness, trial);
      if v.Raises? {
        return Raises(v.error);
      }
      Keep(i, trial, v.value);
      return Returns(());
    }

    /** The selection itself, in place: target `i` (and the best) replaced
        only by a strictly better trial. */
    method Keep(i: nat, trial: Vec, v: real)
      requires Configured() && i < settings.populationSize
      modifies this, population, fitnessValues
      ensures Snap() == Greedy(model.objective, old(Snap()), i, trial, v)
      ensures IsBetter(model.objective, v, old(fitnessValues[i])) && IsBetter(model.objective, v, old(bestFitness)) ==>
                bestSolution == Some(trial)
      ensures !(IsBetter(model.objective, v, old(fitnessValues[i])) && IsBetter(model.objective, v, old(bestFitness))) ==>
                bestSolution == old(bestSolution)
      ensures populated == old(populated) && bestKnown == old(bestKnown)
      ensures convergenceCurve == old(convergenceCurve)
    {
      ghost var before := Snap();
      if IsBetter(model.objective, v, fitnessValues[i]) {
        population[i] := trial;
        fitnessValues[i] := v;
        if IsBetter(model.objective, v, bestFitness) {
          bestFitness := v;
          bestIndividual := trial;
          bestSolution := Some(bestIndividual);
        }
      }
      assert population[..] == before.pop[i := population[i]];
      assert fitnessValues[..] == before.fit[i := fitnessValues[i]];
    }

    /** The sweep of iteration `t`: a selection step for every target in
        order, each against the population the previous steps left, which
        is `SweepFrom`.  No target ends worse than it started and the best
        never regresses; the trace is not touched. */
    method Sweep(d: DeDraws, t: nat) returns (r: Outcome<()>)
      requires InSweep() && DrawsOk(d, settings, model.dimensions)
      modifies this, population, fitnessValues
      ensures InSweep() && populated == old(populated) && bestKnown == old(bestKnown)
      ensures convergenceCurve == old(convergenceCurve)
      ensures r.Raises? <==> SweepFrom(model, settings, d, t, old(Snap()), 0).Raises?
      ensures r.Returns? ==> Snap() == SweepFrom(model, settings, d, t, old(Snap()), 0).value
      ensures r.Raises? ==> r.error.RuntimeError?
      ensures r.Returns? ==> forall j :: 0 <= j < settings.populationSize ==>
                !IsBetter(model.objective, old(Snap()).fit[j], Snap().fit[j])
      ensures !IsBetter(model.objective, old(bestFitness), bestFitness)
    {
      ghost var start := Snap();
      ghost var goal := SweepFrom(model, settings, d, t, start, 0);
      var i := 0;
      while i < settings.populationSize
        invariant 0 <= i <= settings.populationSize
        invariant InSweep() && populated == old(populated) && bestKnown == old(bestKnown)
        invariant convergenceCurve == old(convergenceCurve)
        invariant !IsBetter(model.objective, old(bestFitness), bestFitness)
        invariant goal == SweepFrom(model, settings, d, t, Snap(), i)
      {
        r := Visit(d, t, i);
        if r.Raises? {
          return;
        }
        i := i + 1;
      }
      assert goal == Returns(Snap());
      SweepFromProperties(model, settings, d, t, start, 0);
      return Returns(());
    }

    /** Target `i`'s selection step within a sweep, as `SweepFrom` takes it:
        a raise ends the sweep, otherwise the rest of the sweep continues
        from the new state.  The best never gets worse. */
    method Visit(d: DeDraws, t: nat, i: nat) returns (r: Outcome<()>)
      requires InSweep() && DrawsOk(d, settings, model.dimensions) && i < settings.populationSize
      modifies this, population, fitnessValues
      ensures InSweep() && populated == old(populated) && bestKnown == old(bestKnown)
      ensures convergenceCurve == old(convergenceCurve)
      ensures r.Raises? ==> r.error.RuntimeError? && SweepFrom(model, settings, d, t, old(Snap()), i).Raises?
      ensures r.Returns? ==> SweepFrom(model, settings, d, t, old(Snap()), i) == SweepFrom(model, settings, d, t, Snap(), i + 1)
      ensures !IsBetter(model.objective, old(bestFitness), bestFitness)
    {
      ghost var before := Snap();
      SweepFromStep(model, settings, d, t, before, i);
      r := Select(d, t, i);
    }

    /** Iteration `t` of `optimize` once the clock has been checked: a sweep,
        then the best fitness is appended to the trace. */
    method Iterate(d: DeDraws, t: nat) returns (r: Outcome<()>)
      requires Valid() && DrawsOk(d, settings, model.dimensions)
      modifies this, population, fitnessValues
      ensures InSweep() && populated == old(populated) && bestKnown == old(bestKnown)
      ensures r.Raises? ==> r.error.RuntimeError? && convergenceCurve == old(convergenceCurve)
      ensures Swept(model, settings, d, t, old(Snap()), r.Raises?, Snap())
      ensures r.Returns? ==>
                && Valid()
                && convergenceCurve == old(convergenceCurve) + [bestFitness]
      ensures !IsBetter(model.objective, old(bestFitness), bestFitness)
    {
      r := Sweep(d, t);
      if r.Raises? {
        return;
      }
      ImprovingAppend(model.objective, convergenceCurve, bestFitness);
      convergenceCurve := convergenceCurve + [bestFitness];
    }

    /** The iterations of `optimize`, stopped before iteration `t` starts once
        the clock has run out. */
    method Iterations(d: DeDraws, timedOut: nat -> bool) returns (r: Outcome<()>)
      requires Valid() && DrawsOk(d, settings, model.dimensions)
      modifies this, population, fitnessValues
      ensures populated == old(populated) && bestKnown == old(bestKnown)
      ensures r.Raises? ==> r.error.RuntimeError?
      ensures r.Returns? ==>
                && Valid()
                && |convergenceCurve| == |old(convergenceCurve)| + CompletedIterations(settings.maxIterations, timedOut, 0)
                && convergenceCurve[..|old(convergenceCurve)|] == old(convergenceCurve)
      ensures !IsBetter(model.objective, old(bestFitness), bestFitness)
    {
      var t := 0;
      while t < settings.maxIterations
        invariant 0 <= t <= settings.maxIterations
        invariant Valid() && populated == old(populated) && bestKnown == old(bestKnown)
        invariant |convergenceCurve| == |old(convergenceCurve)| + t
        invariant convergenceCurve[..|old(convergenceCurve)|] == old(convergenceCurve)
        invariant forall k :: 0 <= k < t ==> !timedOut(k)
        invariant !IsBetter(model.objective, old(bestFitness), bestFitness)
      {
        if timedOut(t) {
          break;
        }
        r := Iterate(d, t);
        if r.Raises? {
          return;
        }
        t := t + 1;
      }
      CompletedIterationsAt(settings.maxIterations, timedOut, t);
      return Returns(());
    }

    /** `optimize`: initialize first when there is no population yet, then
        run the iterations and report through `get_results`.  A population
        left by an `initialize` that raised is not a valid start: Python would
        then index the missing scores and raise `TypeError`, but nothing in
        the code calls `optimize` after a failed `initialize`, so the model
        requires a valid state once populated. */
    method Optimize(draw: (nat, nat) -> real, d: DeDraws, timedOut: nat -> bool) returns (r: Outcome<DeResults>)
      requires Configured() && (populated ==> Valid())
      requires forall i, k :: 0.0 <= draw(i, k) < 1.0
      requires DrawsOk(d, settings, model.dimensions)
      modifies this, population, fitnessValues
      ensures r.Raises? ==> r.error.RuntimeError?
      ensures r.Returns? ==>
                && Valid()
                && |convergenceCurve| == (if old(populated) then |old(convergenceCurve)| else 1)
                                         + CompletedIterations(settings.maxIterations, timedOut, 0)
                && (old(populated) ==> convergenceCurve[..|old(convergenceCurve)|] == old(convergenceCurve))
                && (old(populated) ==> !IsBetter(model.objective, old(bestFitness), bestFitness))
                && r == GetResults(ReportedIterations(settings.maxIterations, timedOut))
    {
      if !populated {
        var init := Initialize(draw);
        if init.Raises? {
          return Raises(init.error);
        }
      }
      var run := Iterations(d, timedOut);
      if run.Raises? {
        return Raises(run.error);
      }
      r := GetResults(ReportedIterations(settings.maxIterations, timedOut));
    }

    /** `get_results`: `float(self.best_fitness)` raises before any
        `initialize` has completed. */
    function GetResults(iterations: nat): (r: Outcome<DeResults>)
      reads this
      ensures r.Returns? <==> bestKnown
      ensures r.Raises? ==> r.error.TypeError?
      ensures r.Returns? ==>
                && r.value.bestSolution == bestSolution && r.value.bestFitness == bestFitness
                && r.value.convergenceCurve == convergenceCurve && r.value.params == params
                && r.value.iterations == iterations && r.value.status == "success"
                && r.value.cr == settings.cr && r.value.f == settings.f
    {
      if !bestKnown then Raises(TypeError(NoBestMessage))
      else
        var name := match settings.strategy
          case Rand1Bin => StrategyNames[0]
          case Best1Bin => StrategyNames[1]
          case Rand2Bin => StrategyNames[2];
        Returns(DeResults(name, settings.cr, settings.f, bestSolution, bestFitness, convergenceCurve, params, iterations, "success"))
    }
}
}
