/** The genetic algorithm engine `GeneticAlgorithm`: generational replacement
    with tournament selection, SBX, polynomial mutation and clipping.

    Every random draw of generation `g` is named by the pair `p` of offspring it
    serves: `picks(g, p, c)` are the indices of parent `c`'s tournament,
    `crossover(g, p)` decides whether the pair is crossed, `sbxCoin`/`sbxU`
    are SBX's per-gene draws and `mutationCoin`/`mutationU` the mutation's
    draws for child `c`. */
module GeneticAlgorithm {
  import opened PyValues
  import opened SearchSpace
  import opened Base
  import opened GaOperators
  import PsoValidation

  datatype GaDraws = GaDraws(
    picks: (nat, nat, nat) -> seq<nat>,
    crossover: (nat, nat) -> real,
    sbxCoin: (nat, nat, nat) -> real,
    sbxU: (nat, nat, nat) -> real,
    mutationCoin: (nat, nat, nat, nat) -> real,
    mutationU: (nat, nat, nat, nat) -> real)

  /** The range facts of the draws: tournaments of `k` distinct indices below
      `n`, and the `u` draws in [0, 1). */
  ghost predicate DrawsOk(d: GaDraws, n: nat, k: nat) {
    && (forall g, p, c :: PicksOk(d.picks(g, p, c), n, k))
    && (forall g, p, i :: 0.0 <= d.sbxU(g, p, i) < 1.0)
    && (forall g, p, c, i :: 0.0 <= d.mutationU(g, p, c, i) < 1.0)
  }

  function SbxCoins(d: GaDraws, g: nat, p: nat, n: nat): (r: seq<real>)
    ensures |r| == n
  {
    seq(n, i requires 0 <= i < n => d.sbxCoin(g, p, i))
  }

  function SbxUs(d: GaDraws, g: nat, p: nat, n: nat): (r: seq<real>)
    requires forall g, p, i :: 0.0 <= d.sbxU(g, p, i) < 1.0
    ensures |r| == n && forall i :: 0 <= i < n ==> 0.0 <= r[i] < 1.0
  {
    seq(n, i requires 0 <= i < n => d.sbxU(g, p, i))
  }

  function MutationCoins(d: GaDraws, g: nat, p: nat, c: nat, n: nat): (r: seq<real>)
    ensures |r| == n
  {
    seq(n, i requires 0 <= i < n => d.mutationCoin(g, p, c, i))
  }

  function MutationUs(d: GaDraws, g: nat, p: nat, c: nat, n: nat): (r: seq<real>)
    requires forall g, p, c, i :: 0.0 <= d.mutationU(g, p, c, i) < 1.0
    ensures |r| == n && forall i :: 0 <= i < n ==> 0.0 <= r[i] < 1.0
  {
    seq(n, i requires 0 <= i < n => d.mutationU(g, p, c, i))
  }

  /** A population of `n` individuals of the problem's dimension, with one
      score each. */
  predicate Shaped(pop: seq<Vec>, fit: seq<real>, bounds: seq<Bound>, n: nat) {
    |pop| == n && |fit| == n && forall i :: 0 <= i < n ==> |pop[i]| == |bounds|
  }

  /** The pair `p` of offspring of generation `g`: two tournament winners,
      crossed by SBX when the crossover draw falls below the rate and copied
      otherwise, then each mutated and clipped to the bounds. */
  /** The best after a scored generation: the first best offspring when it is
      strictly better than the previous best, otherwise the previous best. */
  predicate BestAdvanced(obj: Objective, pop: seq<Vec>, fit: seq<real>, oldBest: Vec, oldFitness: real,
                         best: Vec, bestFitness: real)
  {
    if |fit| == 0 || |pop| != |fit| then best == oldBest && bestFitness == oldFitness
    else
      var k := ArgBest(obj, fit);
      if IsBetter(obj, fit[k], oldFitness) then bestFitness == fit[k] && best == pop[k]
      else best == oldBest && bestFitness == oldFitness
  }

  function Offspring(obj: Objective, pop: seq<Vec>, fit: seq<real>, bounds: seq<Bound>, s: GaSettings,
                     d: GaDraws, pow: (real, real) -> real, g: nat, p: nat): (r: (Vec, Vec))
    requires Shaped(pop, fit, bounds, s.populationSize) && s.tournamentSize >= 1
    requires DrawsOk(d, s.populationSize, s.tournamentSize)
    ensures ValidBounds(bounds) ==> InBounds(r.0, bounds) && InBounds(r.1, bounds)
  {
    var n := |bounds|;
    var w1 := TournamentWinner(obj, fit, d.picks(g, p, 0));
    var w2 := TournamentWinner(obj, fit, d.picks(g, p, 1));
    var crossed := if d.crossover(g, p) < s.crossoverRate
                   then SbxChildren(pop[w1], pop[w2], SbxCoins(d, g, p, n), SbxUs(d, g, p, n), pow)
                   else (pop[w1], pop[w2]);
    var m1 := Mutated(crossed.0, bounds, s.mutationRate, MutationCoins(d, g, p, 0, n), MutationUs(d, g, p, 0, n), pow);
    var m2 := Mutated(crossed.1, bounds, s.mutationRate, MutationCoins(d, g, p, 1, n), MutationUs(d, g, p, 1, n), pow);
    (ClipToBounds(m1, bounds), ClipToBounds(m2, bounds))
  }

  /** Individual `k` of the next generation: the first or second child of
      pair `k / 2`. */
  function NextMember(obj: Objective, pop: seq<Vec>, fit: seq<real>, bounds: seq<Bound>, s: GaSettings,
                      d: GaDraws, pow: (real, real) -> real, g: nat, k: nat): (x: Vec)
    requires Shaped(pop, fit, bounds, s.populationSize) && s.tournamentSize >= 1
    requires DrawsOk(d, s.populationSize, s.tournamentSize)
    ensures ValidBounds(bounds) ==> InBounds(x, bounds)
  {
    var pair := Offspring(obj, pop, fit, bounds, s, d, pow, g, k / 2);
    if k % 2 == 0 then pair.0 else pair.1
  }

  /** Pair `p` supplies individuals `2p` and `2p + 1`. */
  lemma PairMembers(obj: Objective, pop: seq<Vec>, fit: seq<real>, bounds: seq<Bound>, s: GaSettings,
                    d: GaDraws, pow: (real, real) -> real, g: nat, p: nat)
    requires Shaped(pop, fit, bounds, s.populationSize) && s.tournamentSize >= 1
    requires DrawsOk(d, s.populationSize, s.tournamentSize)
    ensures NextMember(obj, pop, fit, bounds, s, d, pow, g, 2 * p) == Offspring(obj, pop, fit, bounds, s, d, pow, g, p).0
    ensures NextMember(obj, pop, fit, bounds, s, d, pow, g, 2 * p + 1) == Offspring(obj, pop, fit, bounds, s, d, pow, g, p).1
  {
    assert (2 * p) / 2 == p && (2 * p) % 2 == 0;
    assert (2 * p + 1) / 2 == p && (2 * p + 1) % 2 == 1;
  }

  /** One pass of the offspring loop: select two parents by tournament,
      cross them or copy them, mutate both children and clip them. */
  method MakePair(obj: Objective, pop: seq<Vec>, fit: seq<real>, bounds: seq<Bound>, s: GaSettings,
                  d: GaDraws, pow: (real, real) -> real, g: nat, p: nat) returns (child1: Vec, child2: Vec)
    requires Shaped(pop, fit, bounds, s.populationSize) && s.tournamentSize >= 1 && ValidBounds(bounds)
    requires DrawsOk(d, s.populationSize, s.tournamentSize)
    ensures (child1, child2) == Offspring(obj, pop, fit, bounds, s, d, pow, g, p)
  {
    var n := |bounds|;
    var parent1 := pop[TournamentWinner(obj, fit, d.picks(g, p, 0))];
    var parent2 := pop[TournamentWinner(obj, fit, d.picks(g, p, 1))];
    if d.crossover(g, p) < s.crossoverRate {
      child1, child2 := SimulatedBinaryCrossover(parent1, parent2, SbxCoins(d, g, p, n), SbxUs(d, g, p, n), pow);
    } else {
      child1, child2 := parent1, parent2;
    }
    child1 := PolynomialMutation(child1, bounds, s.mutationRate, MutationCoins(d, g, p, 0, n), MutationUs(d, g, p, 0, n), pow);
    child2 := PolynomialMutation(child2, bounds, s.mutationRate, MutationCoins(d, g, p, 1, n), MutationUs(d, g, p, 1, n), pow);
    child1 := ApplyBounds(child1, bounds);
    child2 := ApplyBounds(child2, bounds);
  }

  /** Appends the next pair to the offspring made so far. */
  method AddPair(obj: Objective, pop: seq<Vec>, fit: seq<real>, bounds: seq<Bound>, s: GaSettings,
                 d: GaDraws, pow: (real, real) -> real, g: nat, offspring: seq<Vec>) returns (longer: seq<Vec>)
    requires Shaped(pop, fit, bounds, s.populationSize) && s.tournamentSize >= 1 && ValidBounds(bounds)
    requires DrawsOk(d, s.populationSize, s.tournamentSize)
    requires |offspring| % 2 == 0
    ensures longer == offspring + [NextMember(obj, pop, fit, bounds, s, d, pow, g, |offspring|),
                                   NextMember(obj, pop, fit, bounds, s, d, pow, g, |offspring| + 1)]
  {
    var p := |offspring| / 2;
    var child1, child2 := MakePair(obj, pop, fit, bounds, s, d, pow, g, p);
    PairMembers(obj, pop, fit, bounds, s, d, pow, g, p);
    assert |offspring| == 2 * p;
    longer := offspring + [child1, child2];
  }

  /** Appending the next two members keeps a list of the first members. */
  lemma AppendedMembers(obj: Objective, pop: seq<Vec>, fit: seq<real>, bounds: seq<Bound>, s: GaSettings,
                        d: GaDraws, pow: (real, real) -> real, g: nat, made: seq<Vec>, longer: seq<Vec>)
    requires Shaped(pop, fit, bounds, s.populationSize) && s.tournamentSize >= 1
    requires DrawsOk(d, s.populationSize, s.tournamentSize)
    requires forall k :: 0 <= k < |made| ==> made[k] == NextMember(obj, pop, fit, bounds, s, d, pow, g, k)
    requires longer == made + [NextMember(obj, pop, fit, bounds, s, d, pow, g, |made|),
                               NextMember(obj, pop, fit, bounds, s, d, pow, g, |made| + 1)]
    ensures forall k :: 0 <= k < |longer| ==> longer[k] == NextMember(obj, pop, fit, bounds, s, d, pow, g, k)
  {
    forall k | 0 <= k < |longer| ensures longer[k] == NextMember(obj, pop, fit, bounds, s, d, pow, g, k) {
      if k < |made| {
        assert longer[k] == made[k];
      } else if k == |made| {
        assert longer[k] == NextMember(obj, pop, fit, bounds, s, d, pow, g, |made|);
      } else {
        assert k == |made| + 1;
        assert longer[k] == NextMember(obj, pop, fit, bounds, s, d, pow, g, |made| + 1);
      }
    }
  }

  /** The offspring loop of `optimize`: pairs are produced until there are at
      least `populationSize` individuals, and the list is then cut to exactly
      that many, dropping the second child of the last pair when the size is
      odd. */
  method Breed(obj: Objective, pop: seq<Vec>, fit: seq<real>, bounds: seq<Bound>, s: GaSettings,
               d: GaDraws, pow: (real, real) -> real, g: nat) returns (next: seq<Vec>)
    requires Shaped(pop, fit, bounds, s.populationSize) && s.tournamentSize >= 1 && ValidBounds(bounds)
    requires DrawsOk(d, s.populationSize, s.tournamentSize)
    ensures |next| == s.populationSize
    ensures forall k :: 0 <= k < |next| ==> next[k] == NextMember(obj, pop, fit, bounds, s, d, pow, g, k)
    ensures forall k :: 0 <= k < |next| ==> InBounds(next[k], bounds)
  {
    var offspring: seq<Vec> := [];
    ghost var pairs := 0;
    while |offspring| < s.populationSize
      invariant |offspring| == 2 * pairs && |offspring| <= s.populationSize + 1
      invariant forall k :: 0 <= k < |offspring| ==> offspring[k] == NextMember(obj, pop, fit, bounds, s, d, pow, g, k)
      decreases s.populationSize - |offspring|
    {
      var made := offspring;
      assert |made| % 2 == 0;
      offspring := AddPair(obj, pop, fit, bounds, s, d, pow, g, offspring);
      pairs := pairs + 1;
      AppendedMembers(obj, pop, fit, bounds, s, d, pow, g, made, offspring);
    }
    next := offspring[..s.populationSize];
  }

  /** The parameter values the constructor reads, with their defaults. */
  function PopulationSizeParam(params: map<string, Value>): Value { Get(params, "population_size", PInt(50)) }
  function MaxIterationsParam(params: map<string, Value>): Value { Get(params, "max_iterations", PInt(50)) }
  function CrossoverRateParam(params: map<string, Value>): Value { Get(params, "crossover_rate", PFloat(0.8)) }
  function MutationRateParam(params: map<string, Value>): Value { Get(params, "mutation_rate", PFloat(0.1)) }
  function TournamentSizeParam(params: map<string, Value>): Value { Get(params, "tournament_size", PInt(3)) }

  /** Everything the constructor demands of its two dictionaries. */
  predicate Acceptable(problem: map<string, Value>, params: map<string, Value>) {
    PsoValidation.SchemaOk(problem) &&
    ParametersOk(PopulationSizeParam(params), MaxIterationsParam(params), CrossoverRateParam(params),
                 MutationRateParam(params), TournamentSizeParam(params))
  }

  /** The constructor's two checks in order: the problem schema (the same code
      as the particle swarm's) first, then the parameters. */
  function Configure(problem: map<string, Value>, params: map<string, Value>): (r: Outcome<(Problem, GaSettings)>)
    ensures r.Returns? <==> Acceptable(problem, params)
    ensures !PsoValidation.SchemaOk(problem) ==> r == Raises(PsoValidation.ValidateProblemSchema(problem).error)
    ensures r.Returns? ==>
              && WellFormed(r.value.0)
              && r.value.1.populationSize >= 10 && 1 <= r.value.1.maxIterations <= 100
              && 2 <= r.value.1.tournamentSize <= r.value.1.populationSize
              && 0.0 <= r.value.1.crossoverRate <= 1.0 && 0.0 <= r.value.1.mutationRate <= 1.0
    ensures r.Raises? ==> r.error.ValueError?
  {
    match PsoValidation.ValidateProblemSchema(problem)
    case Raises(e) => Raises(e)
    case Returns(p) =>
      match ValidateParameters(PopulationSizeParam(params), MaxIterationsParam(params), CrossoverRateParam(params),
                               MutationRateParam(params), TournamentSizeParam(params))
      case Raises(e) => Raises(e)
      case Returns(s) => Returns((p, s))
  }

  /** Constructing the engine: the constructor's checks raise before any
      state exists; otherwise the new engine holds the validated settings. */
  method New(problem: map<string, Value>, params: map<string, Value>) returns (r: Outcome<GeneticAlgorithm>)
    ensures r.Returns? <==> Acceptable(problem, params)
    ensures r.Raises? ==> r.error == Configure(problem, params).error
    ensures r.Returns? ==>
              && fresh(r.value) && r.value.Configured()
              && r.value.problem == problem && r.value.params == params
              && r.value.bestSolution == None && r.value.convergenceCurve == []
  {
    var c := Configure(problem, params);
    if c.Raises? {
      return Raises(c.error);
    }
    var engine := new GeneticAlgorithm(problem, params);
    return Returns(engine);
  }

  class GeneticAlgorithm {
    const problem: map<string, Value>
    const params: map<string, Value>
    const settings: GaSettings
    const dimensions: nat
    const bounds: seq<Bound>
    const objective: Objective
    const fitness: Vec -> FitnessValue

    const population: array<Vec>
    const fitnessValues: array<real>
    var bestIndividual: Vec
    var bestFitness: real
    var bestSolution: Option<Vec>
    var convergenceCurve: seq<real>

    /** The index of the trace entry `initialize` recorded last. */
    ghost var runStart: nat

    /** The validated settings, and arrays of one row per individual. */
    ghost predicate Configured() {
      && dimensions > 0 && |bounds| == dimensions && ValidBounds(bounds)
      && settings.populationSize >= 10 && 1 <= settings.maxIterations <= 100
      && 2 <= settings.tournamentSize <= settings.populationSize
      && 0.0 <= settings.crossoverRate <= 1.0 && 0.0 <= settings.mutationRate <= 1.0
      && population.Length == settings.populationSize && fitnessValues.Length == settings.populationSize
    }

    /** Every individual lies inside the bounds. */
    ghost predicate PopulationInBounds()
      reads population
    {
      forall i :: 0 <= i < population.Length ==> InBounds(population[i], bounds)
    }

    /** Each score is the fitness of its individual. */
    ghost predicate Scored()
      reads population, fitnessValues
    {
      population.Length == fitnessValues.Length &&
      forall i :: 0 <= i < population.Length ==> fitness(population[i]) == Finite(fitnessValues[i])
    }

    /** The best individual lies inside the bounds, is scored by its fitness
        and is at least as good as every current score. */
    ghost predicate BestValid()
      reads this, fitnessValues
    {
      && InBounds(bestIndividual, bounds)
      && fitness(bestIndividual) == Finite(bestFitness)
      && bestSolution == Some(bestIndividual)
      && forall i :: 0 <= i < fitnessValues.Length ==> !IsBetter(objective, fitnessValues[i], bestFitness)
    }

    /** The trace since `initialize` never regresses and ends with the best
        fitness. */
    ghost predicate TraceValid()
      reads this
    {
      && runStart < |convergenceCurve|
      && Improving(objective, convergenceCurve[runStart..])
      && convergenceCurve[|convergenceCurve| - 1] == bestFitness
    }

    ghost predicate Valid()
      reads this, population, fitnessValues
    {
      Configured() && PopulationInBounds() && Scored() && BestValid() && TraceValid()
    }

    /** `__init__` once both checks have passed. */
    constructor (problem: map<string, Value>, params: map<string, Value>)
      requires Acceptable(problem, params)
      ensures Configured()
      ensures this.problem == problem && this.params == params
      ensures Configure(problem, params) == Returns((Problem(dimensions, bounds, objective, fitness), settings))
      ensures bestSolution == None && convergenceCurve == []
    {
      var (p, s) := Configure(problem, params).value;
      this.problem := problem;
      this.params := params;
      settings := s;
      dimensions := p.dimensions;
      bounds := p.bounds;
      objective := p.objective;
      fitness := p.fitness;
      population := new Vec[s.populationSize](_ => []);
      fitnessValues := new real[s.populationSize];
      bestSolution := None;
      convergenceCurve := [];
    }

    /** `initialize`: a uniform random population, scored in order; the first
        best individual becomes the best and its score is appended to the
        trace.  The first individual whose fitness is not finite raises. */
    method Initialize(draw: (nat, nat) -> real) returns (r: Outcome<()>)
      requires Configured()
      requires forall i, d :: 0.0 <= draw(i, d) < 1.0
      modifies this, population, fitnessValues
      ensures r.Returns? <==> forall i :: 0 <= i < settings.populationSize ==> fitness(RandomPoint(bounds, draw, i)).Finite?
      ensures r.Raises? ==> r.error.RuntimeError?
      ensures r.Returns? ==>
                && Valid()
                && (forall i :: 0 <= i < settings.populationSize ==> population[i] == RandomPoint(bounds, draw, i))
                && bestFitness == fitnessValues[ArgBest(objective, fitnessValues[..])]
                && bestIndividual == population[ArgBest(objective, fitnessValues[..])]
                && convergenceCurve == old(convergenceCurve) + [bestFitness]
                && runStart == |old(convergenceCurve)|
    {
      var i := 0;
      while i < settings.populationSize
        invariant 0 <= i <= settings.populationSize
        invariant forall j :: 0 <= j < i ==> population[j] == RandomPoint(bounds, draw, j)
        invariant convergenceCurve == old(convergenceCurve)
      {
        population[i] := RandomPoint(bounds, draw, i);
        i := i + 1;
      }
      var scored := EvaluateAll(fitness, population[..]);
      if scored.Raises? {
        assert !forall i :: 0 <= i < settings.populationSize ==> fitness(RandomPoint(bounds, draw, i)).Finite?;
        return Raises(scored.error);
      }
      AdoptScores(scored.value);
      return Returns(());
    }

    /** The end of `initialize`: the scores become the fitness values and the
        first best individual the best, whose score starts a new run of the
        trace. */
    method AdoptScores(scores: seq<real>)
      requires Configured() && PopulationInBounds() && |scores| == settings.populationSize
      requires forall i :: 0 <= i < settings.populationSize ==> fitness(population[i]) == Finite(scores[i])
      modifies this, fitnessValues
      ensures Valid()
      ensures fitnessValues[..] == scores
      ensures bestFitness == scores[ArgBest(objective, scores)]
      ensures bestIndividual == population[ArgBest(objective, scores)]
      ensures convergenceCurve == old(convergenceCurve) + [bestFitness]
      ensures runStart == |old(convergenceCurve)|
    {
      forall i | 0 <= i < settings.populationSize {
        fitnessValues[i] := scores[i];
      }
      assert fitnessValues[..] == scores;
      var best := ArgBest(objective, scores);
      bestIndividual, bestFitness := population[best], scores[best];
      bestSolution := Some(bestIndividual);
      runStart := |convergenceCurve|;
      convergenceCurve := convergenceCurve + [bestFitness];
      assert convergenceCurve[runStart..] == [bestFitness];
    }

    /** The replacement step of a generation: the offspring become the
        population before any of them is scored. */
    method Replace(next: seq<Vec>)
      requires Configured() && |next| == settings.populationSize
      requires forall k :: 0 <= k < |next| ==> InBounds(next[k], bounds)
      modifies population
      ensures population[..] == next
      ensures PopulationInBounds()
    {
      forall k | 0 <= k < |next| {
        population[k] := next[k];
      }
      assert population[..] == next;
    }

    /** The end of a generation once every offspring is scored: the scores
        become the fitness values, the best is replaced only when the first
        best offspring is strictly better, and the best fitness is appended to
        the trace. */
    method AdvanceBest(scores: seq<real>)
      requires Configured() && PopulationInBounds() && TraceValid() && |scores| == settings.populationSize
      requires InBounds(bestIndividual, bounds) && fitness(bestIndividual) == Finite(bestFitness)
      requires bestSolution == Some(bestIndividual)
      requires forall i :: 0 <= i < settings.populationSize ==> fitness(population[i]) == Finite(scores[i])
      modifies this, fitnessValues
      ensures Valid()
      ensures fitnessValues[..] == scores
      ensures runStart == old(runStart)
      ensures convergenceCurve == old(convergenceCurve) + [bestFitness]
      ensures var k := ArgBest(objective, scores);
              if IsBetter(objective, scores[k], old(bestFitness))
              then bestFitness == scores[k] && bestIndividual == population[k]
              else bestFitness == old(bestFitness) && bestIndividual == old(bestIndividual)
      ensures !IsBetter(objective, old(bestFitness), bestFitness)
    {
      forall i | 0 <= i < settings.populationSize {
        fitnessValues[i] := scores[i];
      }
      assert fitnessValues[..] == scores;
      var k := ArgBest(objective, scores);
      if IsBetter(objective, scores[k], bestFitness) {
        bestFitness := scores[k];
        bestIndividual := population[k];
        bestSolution := Some(bestIndividual);
      }
      ImprovingAppend(objective, convergenceCurve[runStart..], bestFitness);
      assert (convergenceCurve + [bestFitness])[runStart..] == convergenceCurve[runStart..] + [bestFitness];
      convergenceCurve := convergenceCurve + [bestFitness];
    }

    /** Generation `g` of `optimize`: breed, replace, score and advance the
        best.  A fitness that is not finite raises after the replacement, so
        the population is then new while the scores, the best and the trace
        are still those of the previous generation. */
    method Generation(g: nat, d: GaDraws, pow: (real, real) -> real) returns (r: Outcome<()>)
      requires Valid() && DrawsOk(d, settings.populationSize, settings.tournamentSize)
      modifies this, population, fitnessValues
      ensures Configured() && PopulationInBounds() && BestValid() && TraceValid()
      ensures runStart == old(runStart)
      ensures forall k :: 0 <= k < settings.populationSize ==>
                population[k] == NextMember(objective, old(population[..]), old(fitnessValues[..]), bounds, settings, d, pow, g, k)
      ensures r.Returns? <==> forall k :: 0 <= k < settings.populationSize ==> fitness(population[k]).Finite?
      ensures r.Raises? ==>
                && r.error.RuntimeError?
                && fitnessValues[..] == old(fitnessValues[..])
                && bestFitness == old(bestFitness) && bestIndividual == old(bestIndividual)
                && convergenceCurve == old(convergenceCurve)
      ensures r.Returns? ==> Valid() && convergenceCurve == old(convergenceCurve) + [bestFitness]
      ensures r.Returns? ==>
                BestAdvanced(objective, population[..], fitnessValues[..], old(bestIndividual), old(bestFitness),
                             bestIndividual, bestFitness)
      ensures !IsBetter(objective, old(bestFitness), bestFitness)
    {
      var next := Breed(objective, population[..], fitnessValues[..], bounds, settings, d, pow, g);
      Replace(next);
      var scored := EvaluateAll(fitness, population[..]);
      if scored.Raises? {
        return Raises(scored.error);
      }
      AdvanceBest(scored.value);
      return Returns(());
    }

    /** One generation as the `optimize` loop sees it: only what the loop's
        invariants need from `Generation`. */
    method GenerationStep(g: nat, d: GaDraws, pow: (real, real) -> real) returns (r: Outcome<()>)
      requires Valid() && DrawsOk(d, settings.populationSize, settings.tournamentSize)
      modifies this, population, fitnessValues
      ensures Configured() && PopulationInBounds() && BestValid() && TraceValid()
      ensures runStart == old(runStart)
      ensures r.Raises? ==> r.error.RuntimeError? && convergenceCurve == old(convergenceCurve)
      ensures r.Returns? ==> Valid() && convergenceCurve == old(convergenceCurve) + [bestFitness]
      ensures !IsBetter(objective, old(bestFitness), bestFitness)
    {
      r := Generation(g, d, pow);
    }

    /** `optimize`: up to `maxIterations` generations, each stopped before it
        starts once the clock has run out; each completed generation appends
        one entry, so the trace since `initialize` never regresses. */
    method Optimize(d: GaDraws, pow: (real, real) -> real, timedOut: nat -> bool) returns (r: Outcome<()>)
      requires Valid() && DrawsOk(d, settings.populationSize, settings.tournamentSize)
      modifies this, population, fitnessValues
      ensures Configured() && PopulationInBounds() && BestValid() && TraceValid()
      ensures runStart == old(runStart)
      ensures |old(convergenceCurve)| <= |convergenceCurve| && convergenceCurve[..|old(convergenceCurve)|] == old(convergenceCurve)
      ensures r.Raises? ==> r.error.RuntimeError?
      ensures r.Returns? ==>
                && Valid()
                && |convergenceCurve| == |old(convergenceCurve)| + CompletedIterations(settings.maxIterations, timedOut, 0)
      ensures !IsBetter(objective, old(bestFitness), bestFitness)
    {
      var g := 0;
      while g < settings.maxIterations
        invariant 0 <= g <= settings.maxIterations
        invariant Valid()
        invariant runStart == old(runStart)
        invariant |convergenceCurve| == |old(convergenceCurve)| + g
        invariant convergenceCurve[..|old(convergenceCurve)|] == old(convergenceCurve)
        invariant forall s :: 0 <= s < g ==> !timedOut(s)
        invariant !IsBetter(objective, old(bestFitness), bestFitness)
      {
        if timedOut(g) {
          break;
        }
        r := GenerationStep(g, d, pow);
        if r.Raises? {
          return;
        }
        g := g + 1;
      }
      CompletedIterationsAt(settings.maxIterations, timedOut, g);
      return Returns(());
    }

    /** `get_results` of the base class. */
    function GetResults(): (r: Results)
      reads this
      ensures r.algorithm == "GeneticAlgorithm" && r.params == params
      ensures r.bestSolution == bestSolution && r.convergenceCurve == convergenceCurve
    {
      Results("GeneticAlgorithm", bestSolution, convergenceCurve, params)
    }
  }
}
