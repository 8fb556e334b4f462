/** `run_de`, the sandbox's differential evolution (rand/1/bin with clipping).

    Targets are visited in index order and replaced in place, so a later
    target's donors may already be this generation's trials.  The draws for
    target `i` in generation `t` are `picks(t, i)` (three distinct positions
    in the index list without `i`), `crossRand(t, i, d)` and `forced(t, i)`. */
module SandboxDe {
  import opened SearchSpace
  import opened PyValues
  import opened Sandbox
  import opened DeOperators

  /** The values `params.get` falls back on. */
  const DefaultPopulation := 50
  const DefaultGenerations := 100
  const DefaultScale := 0.8
  const DefaultCrossover := 0.9

  /** What `np.random.choice([], 3, replace=False)` raises: with one
      individual the list of other indices is empty. */
  const ChoiceFromEmpty := "'a' cannot be empty unless no samples are taken"

  /** What `np.random.randint(0, 0)` raises. */
  const RandintEmpty := "high <= low"

  /** The three donors `a, b, c` of target `i`: indices into the population,
      pairwise distinct and never the target. */
  function DonorsOf(n: nat, i: nat, pick: seq<nat>): (donors: seq<nat>)
    requires i < n && PicksOk(pick, n - 1, 3)
    ensures |donors| == 3
    ensures forall j :: 0 <= j < 3 ==> donors[j] < n && donors[j] != i
    ensures donors[0] != donors[1] && donors[0] != donors[2] && donors[1] != donors[2]
  {
    DonorsExcludeTarget(n, i, pick, 3);
    Donors(n, i, pick)
  }

  /** `np.clip(a + F * (b - c), lb, ub)` */
  function ClippedMutant(pop: seq<Vec>, dims: nat, i: nat, pick: seq<nat>, f: real, lb: real, ub: real): (m: Vec)
    requires i < |pop| && Rows(pop, dims) && PicksOk(pick, |pop| - 1, 3)
    ensures |m| == dims
    ensures lb <= ub ==> InBox(m, dims, lb, ub)
  {
    ClipBox(Mutant(Rand1Bin, pop, pop[i], DonorsOf(|pop|, i, pick), f), lb, ub)
  }

  /** The trial for target `i`: mutant coordinates where the crossover mask
      is set, target coordinates elsewhere. */
  function TrialOf(pop: seq<Vec>, dims: nat, i: nat, pick: seq<nat>, f: real, cr: real,
                   rands: seq<real>, forced: nat, lb: real, ub: real): (tr: Vec)
    requires i < |pop| && Rows(pop, dims) && PicksOk(pick, |pop| - 1, 3)
    requires |rands| == dims && forced < dims
    ensures |tr| == dims
    ensures lb <= ub && InBox(pop[i], dims, lb, ub) ==> InBox(tr, dims, lb, ub)
  {
    var tr := Trial(CrossMask(rands, cr, forced), ClippedMutant(pop, dims, i, pick, f, lb, ub), pop[i]);
    assert forall d :: 0 <= d < dims ==> tr[d] == ClippedMutant(pop, dims, i, pick, f, lb, ub)[d] || tr[d] == pop[i][d];
    tr
  }

  /** At least one coordinate of the trial comes from the mutant; when no
      draw falls below `CR`, exactly the forced one does. */
  lemma TrialOfForcesOne(pop: seq<Vec>, dims: nat, i: nat, pick: seq<nat>, f: real, cr: real,
                         rands: seq<real>, forced: nat, lb: real, ub: real)
    requires i < |pop| && Rows(pop, dims) && PicksOk(pick, |pop| - 1, 3)
    requires |rands| == dims && forced < dims
    ensures exists d :: 0 <= d < dims &&
              TrialOf(pop, dims, i, pick, f, cr, rands, forced, lb, ub)[d] == ClippedMutant(pop, dims, i, pick, f, lb, ub)[d]
    ensures (forall d :: 0 <= d < dims ==> rands[d] >= cr) ==>
              forall d :: 0 <= d < dims && d != forced ==> TrialOf(pop, dims, i, pick, f, cr, rands, forced, lb, ub)[d] == pop[i][d]
  {
    TrialTakesFromMutant(rands, cr, forced, ClippedMutant(pop, dims, i, pick, f, lb, ub), pop[i]);
  }

  /** What the loop keeps: fitness values that are the objective at the
      population, a best no worse than any of them, and, for a proper box,
      everything inside it. */
  ghost predicate DeState(fitness: Vec -> real, n: nat, dims: nat, lb: real, ub: real,
                          pop: array<Vec>, fit: array<real>, best: Vec, bestFit: real)
    reads pop, fit
  {
    && pop.Length == n && fit.Length == n && Rows(pop[..], dims)
    && (forall j :: 0 <= j < n ==> fit[j] == fitness(pop[j]) && bestFit <= fit[j])
    && |best| == dims && bestFit == fitness(best)
    && (lb <= ub ==> AllInBox(pop[..], dims, lb, ub) && InBox(best, dims, lb, ub))
  }

  /** One pass of the inner loop for target `i`: build the trial from the
      current population and keep it only when strictly better. */
  method Visit(fitness: Vec -> real, n: nat, dims: nat, lb: real, ub: real, f: real, cr: real,
               pop: array<Vec>, fit: array<real>, best: Vec, bestFit: real,
               i: nat, pick: seq<nat>, rands: seq<real>, forced: nat) returns (b: Vec, bf: real)
    requires DeState(fitness, n, dims, lb, ub, pop, fit, best, bestFit)
    requires i < n && PicksOk(pick, n - 1, 3) && |rands| == dims && forced < dims
    modifies pop, fit
    ensures DeState(fitness, n, dims, lb, ub, pop, fit, b, bf)
    ensures var trial := TrialOf(old(pop[..]), dims, i, pick, f, cr, rands, forced, lb, ub);
            if fitness(trial) < old(fit[i])
            then pop[..] == old(pop[..])[i := trial] && fit[..] == old(fit[..])[i := fitness(trial)]
            else pop[..] == old(pop[..]) && fit[..] == old(fit[..])
    ensures bf <= bestFit
    ensures bf < bestFit ==> b == TrialOf(old(pop[..]), dims, i, pick, f, cr, rands, forced, lb, ub)
    ensures bf == bestFit ==> b == best
  {
    var trial := TrialOf(pop[..], dims, i, pick, f, cr, rands, forced, lb, ub);
    var score := fitness(trial);
    b, bf := best, bestFit;
    if score < fit[i] {
      pop[i] := trial;
      fit[i] := score;
      if score < bestFit {
        b, bf := trial, score;
      }
    }
  }

  /** One generation: every target in index order. */
  method Generation(fitness: Vec -> real, n: nat, dims: nat, lb: real, ub: real, f: real, cr: real,
                    pop: array<Vec>, fit: array<real>, best: Vec, bestFit: real, t: nat,
                    picks: (nat, nat) -> seq<nat>, crossRand: (nat, nat, nat) -> real, forced: (nat, nat) -> nat)
    returns (b: Vec, bf: real)
    requires DeState(fitness, n, dims, lb, ub, pop, fit, best, bestFit)
    requires n >= 4 && forall u, i :: PicksOk(picks(u, i), n - 1, 3) && forced(u, i) < dims
    modifies pop, fit
    ensures DeState(fitness, n, dims, lb, ub, pop, fit, b, bf)
    ensures bf <= bestFit
    ensures forall j :: 0 <= j < n ==> fit[j] <= old(fit[j])
  {
    b, bf := best, bestFit;
    for i := 0 to n
      invariant DeState(fitness, n, dims, lb, ub, pop, fit, b, bf)
      invariant bf <= bestFit
      invariant forall j :: 0 <= j < n ==> fit[j] <= old(fit[j])
    {
      var rands := seq(dims, d requires 0 <= d < dims => crossRand(t, i, d));
      b, bf := Visit(fitness, n, dims, lb, ub, f, cr, pop, fit, b, bf, i, picks(t, i), rands, forced(t, i));
    }
  }

  /** The population of `run_de` before its first generation. */
  method Scatter(fitness: Vec -> real, n: nat, dims: nat, lb: real, ub: real, starts: seq<Vec>)
    returns (pop: array<Vec>, fit: array<real>)
    requires |starts| == n > 0 && Rows(starts, dims) && (lb <= ub ==> AllInBox(starts, dims, lb, ub))
    ensures fresh(pop) && fresh(fit)
    ensures pop[..] == starts && fit[..] == Scores(fitness, starts)
    ensures DeState(fitness, n, dims, lb, ub, pop, fit,
                    starts[ArgBest(Minimize, Scores(fitness, starts))], Scores(fitness, starts)[ArgBest(Minimize, Scores(fitness, starts))])
  {
    var scores := Scores(fitness, starts);
    pop := new Vec[n](i requires 0 <= i < n => starts[i]);
    fit := new real[n](i requires 0 <= i < n => scores[i]);
    assert pop[..] == starts && fit[..] == scores;
  }

  /** `run_de`.  An empty population makes `np.argmin` raise; one individual
      leaves no donor at all and two or three too few for
      `np.random.choice(indices, 3, replace=False)`; with no coordinates no crossover point can be drawn and
      `np.random.randint(0, 0)` raises. */
  method Run(fitness: Vec -> real, dims: nat, lb: real, ub: real,
             populationSize: nat, maxGenerations: nat, f: real, cr: real,
             posDraw: (nat, nat) -> real, picks: (nat, nat) -> seq<nat>,
             crossRand: (nat, nat, nat) -> real, forced: (nat, nat) -> nat)
    returns (r: Outcome<RunResult>)
    requires forall j, d :: 0.0 <= posDraw(j, d) < 1.0
    requires populationSize >= 4 ==> forall u, i :: PicksOk(picks(u, i), populationSize - 1, 3)
    requires dims >= 1 ==> forall u, i :: forced(u, i) < dims
    ensures r.Raises? <==> populationSize == 0 || (maxGenerations >= 1 && (populationSize < 4 || dims == 0))
    ensures r.Raises? ==>
              r.error == ValueError(if populationSize == 0 then EmptyArgmin
                                    else if populationSize == 1 then ChoiceFromEmpty
                                    else if populationSize < 4 then SampleTooLarge
                                    else RandintEmpty)
    ensures r.Returns? ==>
              && r.value.iterations == maxGenerations
              && |r.value.history| == maxGenerations + 1
              && Improving(Minimize, r.value.history)
              && r.value.bestFitness == r.value.history[maxGenerations]
              && r.value.bestFitness == fitness(r.value.bestSolution)
              && (forall i :: 0 <= i < populationSize ==> r.value.bestFitness <= fitness(BoxPoint(dims, lb, ub, posDraw, i)))
              && |r.value.bestSolution| == dims
              && (lb <= ub ==> InBox(r.value.bestSolution, dims, lb, ub))
  {
    var n := populationSize;
    if n == 0 {
      return Raises(ValueError(EmptyArgmin));
    }
    if maxGenerations >= 1 && n == 1 {
      return Raises(ValueError(ChoiceFromEmpty));
    }
    if maxGenerations >= 1 && n < 4 {
      return Raises(ValueError(SampleTooLarge));
    }
    if maxGenerations >= 1 && dims == 0 {
      return Raises(ValueError(RandintEmpty));
    }
    var starts := BoxPoints(n, dims, lb, ub, posDraw);
    var scores := Scores(fitness, starts);
    var pop, fit := Scatter(fitness, n, dims, lb, ub, starts);
    var k := ArgBest(Minimize, scores);
    var best, bestFit := starts[k], scores[k];
    var history := [bestFit];
    assert forall i :: 0 <= i < n ==> history[0] <= scores[i] && starts[i] == BoxPoint(dims, lb, ub, posDraw, i);
    for t := 0 to maxGenerations
      invariant DeState(fitness, n, dims, lb, ub, pop, fit, best, bestFit)
      invariant |history| == t + 1 && history[t] == bestFit && Improving(Minimize, history)
      invariant forall i :: 0 <= i < n ==> history[0] <= fitness(BoxPoint(dims, lb, ub, posDraw, i))
    {
      best, bestFit := Generation(fitness, n, dims, lb, ub, f, cr, pop, fit, best, bestFit, t, picks, crossRand, forced);
      ImprovingAppend(Minimize, history, bestFit);
      history := history + [bestFit];
    }
    return Returns(RunResult(best, bestFit, maxGenerations, history));
  }
}
