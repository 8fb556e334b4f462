/** The genetic algorithm's parameter check and its three variation operators:
    tournament selection, simulated binary crossover (SBX) and polynomial
    mutation.  Random draws arrive as values; the non-integer power the
    operators raise a draw to is the parameter `pow`, of which only its range
    on [0, 1] is assumed. */
module GaOperators {
  import opened PyValues
  import opened SearchSpace
  import PsoValidation

  /** The algorithm's settings once `_validate_parameters` has accepted them. */
  datatype GaSettings = GaSettings(
    populationSize: nat,
    maxIterations: nat,
    crossoverRate: real,
    mutationRate: real,
    tournamentSize: nat)

  /** Everything `_validate_parameters` demands. */
  predicate ParametersOk(populationSize: Value, maxIterations: Value, crossoverRate: Value,
                         mutationRate: Value, tournamentSize: Value) {
    && IsInt(populationSize) && AsInt(populationSize) >= 10
    && IsInt(maxIterations) && 1 <= AsInt(maxIterations) <= 100
    && IsNumber(crossoverRate) && 0.0 <= AsReal(crossoverRate) <= 1.0
    && IsNumber(mutationRate) && 0.0 <= AsReal(mutationRate) <= 1.0
    && IsInt(tournamentSize) && 2 <= AsInt(tournamentSize) <= AsInt(populationSize)
  }

  const PopulationSizeMessage :=
    "population_size must be >=10 for viable GA behavior. Small populations don't provide sufficient genetic diversity."
  const TournamentTooLargeMessage := "tournament_size cannot exceed population_size"
  const MaxIterationsMessage := "max_iterations must be >=1"
  const CrossoverNumericMessage := "crossover_rate must be numeric"
  const CrossoverRangeMessage := "crossover_rate must be between 0.0 and 1.0"
  const MutationNumericMessage := "mutation_rate must be numeric"
  const MutationRangeMessage := "mutation_rate must be between 0.0 and 1.0"
  const TournamentIntegerMessage := "tournament_size must be an integer"
  const TournamentSmallMessage := "tournament_size must be >=2"

  /** `_validate_parameters`: the checks in source order, the first failing one
      raising. */
  function ValidateParameters(populationSize: Value, maxIterations: Value, crossoverRate: Value,
                              mutationRate: Value, tournamentSize: Value): (r: Outcome<GaSettings>)
    ensures r.Returns? <==> ParametersOk(populationSize, maxIterations, crossoverRate, mutationRate, tournamentSize)
    ensures r.Returns? ==>
              r.value == GaSettings(AsInt(populationSize), AsInt(maxIterations), AsReal(crossoverRate),
                                    AsReal(mutationRate), AsInt(tournamentSize))
    ensures r.Raises? ==> r.error.ValueError?
    ensures IsInt(populationSize) && AsInt(populationSize) >= 10 && IsInt(maxIterations) && AsInt(maxIterations) > 100 ==>
              r == Raises(ValueError(PsoValidation.PlatformLimitMessage))
  {
    if !IsInt(populationSize) || AsInt(populationSize) < 10 then
      Raises(ValueError(PopulationSizeMessage))
    else if !IsInt(maxIterations) || AsInt(maxIterations) < 1 then
      Raises(ValueError(MaxIterationsMessage))
    else if AsInt(maxIterations) > 100 then
      Raises(ValueError(PsoValidation.PlatformLimitMessage))
    else if !IsNumber(crossoverRate) then
      Raises(ValueError(CrossoverNumericMessage))
    else if !(0.0 <= AsReal(crossoverRate) <= 1.0) then
      Raises(ValueError(CrossoverRangeMessage))
    else if !IsNumber(mutationRate) then
      Raises(ValueError(MutationNumericMessage))
    else if !(0.0 <= AsReal(mutationRate) <= 1.0) then
      Raises(ValueError(MutationRangeMessage))
    else if !IsInt(tournamentSize) then
      Raises(ValueError(TournamentIntegerMessage))
    else if AsInt(tournamentSize) < 2 then
      Raises(ValueError(TournamentSmallMessage))
    else if AsInt(tournamentSize) > AsInt(populationSize) then
      Raises(ValueError(TournamentTooLargeMessage))
    else
      Returns(GaSettings(AsInt(populationSize), AsInt(maxIterations), AsReal(crossoverRate),
                         AsReal(mutationRate), AsInt(tournamentSize)))
  }

  /** `_tournament_selection`: among the sampled indices, the first whose
      fitness is best in the objective's direction wins. */
  function TournamentWinner(obj: Objective, fitness: seq<real>, picks: seq<nat>): (w: nat)
    requires |picks| > 0 && forall j :: 0 <= j < |picks| ==> picks[j] < |fitness|
    ensures w < |fitness|
    ensures exists j :: 0 <= j < |picks| && picks[j] == w
    ensures forall j :: 0 <= j < |picks| ==> !IsBetter(obj, fitness[picks[j]], fitness[w])
  {
    var sampled := seq(|picks|, j requires 0 <= j < |picks| => fitness[picks[j]]);
    var k := ArgBest(obj, sampled);
    assert forall j :: 0 <= j < |picks| ==> sampled[j] == fitness[picks[j]];
    picks[k]
  }

  /** A non-integer power `x^e` is in [0, 1] when `x` is and `e > 0`. */
  ghost predicate PowRange(pow: (real, real) -> real) {
    forall x, e :: 0.0 <= x <= 1.0 && e > 0.0 ==> 0.0 <= pow(x, e) <= 1.0
  }

  const EtaC: real := 20.0
  const EtaM: real := 20.0
  /** Parents closer than this are not crossed. */
  const SbxTolerance: real := 0.00000000000001

  function Abs(x: real): real { if x < 0.0 then -x else x }

  /** The spread factor beta of SBX computed from the draw `u`. */
  function SbxBeta(u: real, pow: (real, real) -> real): real
    requires 0.0 <= u < 1.0
  {
    if u <= 0.5 then pow(2.0 * u, 1.0 / (EtaC + 1.0))
    else pow(1.0 / (2.0 * (1.0 - u)), 1.0 / (EtaC + 1.0))
  }

  /** SBX on one gene: crossed when the coin is at most one half and the
      parents differ by more than the tolerance; otherwise copied. */
  function SbxGene(a: real, b: real, coin: real, u: real, pow: (real, real) -> real): (r: (real, real))
    requires 0.0 <= u < 1.0
    ensures r.0 + r.1 == a + b
    ensures !(coin <= 0.5 && Abs(a - b) > SbxTolerance) ==> r == (a, b)
  {
    if coin <= 0.5 && Abs(a - b) > SbxTolerance then
      var beta := SbxBeta(u, pow);
      (0.5 * ((1.0 + beta) * a + (1.0 - beta) * b), 0.5 * ((1.0 - beta) * a + (1.0 + beta) * b))
    else (a, b)
  }

  /** A crossed gene, spelled out. */
  lemma SbxGeneCrossed(a: real, b: real, coin: real, u: real, pow: (real, real) -> real)
    requires 0.0 <= u < 1.0 && coin <= 0.5 && Abs(a - b) > SbxTolerance
    ensures var beta := SbxBeta(u, pow);
            SbxGene(a, b, coin, u, pow) == (0.5 * ((1.0 + beta) * a + (1.0 - beta) * b), 0.5 * ((1.0 - beta) * a + (1.0 + beta) * b))
  {
  }

  /** The two children SBX makes from `p1` and `p2` with the per-gene draws. */
  function SbxChildren(p1: Vec, p2: Vec, coins: seq<real>, us: seq<real>, pow: (real, real) -> real): (r: (Vec, Vec))
    requires |p2| == |p1| && |coins| == |p1| && |us| == |p1|
    requires forall i :: 0 <= i < |us| ==> 0.0 <= us[i] < 1.0
    ensures |r.0| == |p1| && |r.1| == |p1|
    ensures forall i :: 0 <= i < |p1| ==> r.0[i] + r.1[i] == p1[i] + p2[i]
    ensures forall i :: 0 <= i < |p1| && !(coins[i] <= 0.5 && Abs(p1[i] - p2[i]) > SbxTolerance) ==>
              r.0[i] == p1[i] && r.1[i] == p2[i]
  {
    (seq(|p1|, i requires 0 <= i < |p1| => SbxGene(p1[i], p2[i], coins[i], us[i], pow).0),
     seq(|p1|, i requires 0 <= i < |p1| => SbxGene(p1[i], p2[i], coins[i], us[i], pow).1))
  }

  /** `_simulated_binary_crossover`: copies of the parents, then gene by gene
      the crossed values written into the copies. */
  method SimulatedBinaryCrossover(p1: Vec, p2: Vec, coins: seq<real>, us: seq<real>, pow: (real, real) -> real)
    returns (child1: Vec, child2: Vec)
    requires |p2| == |p1| && |coins| == |p1| && |us| == |p1|
    requires forall i :: 0 <= i < |us| ==> 0.0 <= us[i] < 1.0
    ensures (child1, child2) == SbxChildren(p1, p2, coins, us, pow)
  {
    child1, child2 := p1, p2;
    var i := 0;
    while i < |p1|
      invariant 0 <= i <= |p1| && |child1| == |p1| && |child2| == |p1|
      invariant forall j :: 0 <= j < i ==> child1[j] == SbxGene(p1[j], p2[j], coins[j], us[j], pow).0
      invariant forall j :: 0 <= j < i ==> child2[j] == SbxGene(p1[j], p2[j], coins[j], us[j], pow).1
      invariant forall j :: i <= j < |p1| ==> child1[j] == p1[j] && child2[j] == p2[j]
    {
      if coins[i] <= 0.5 && Abs(p1[i] - p2[i]) > SbxTolerance {
        var beta := SbxBeta(us[i], pow);
        var x1 := 0.5 * ((1.0 + beta) * p1[i] + (1.0 - beta) * p2[i]);
        var x2 := 0.5 * ((1.0 - beta) * p1[i] + (1.0 + beta) * p2[i]);
        SbxGeneCrossed(p1[i], p2[i], coins[i], us[i], pow);
        child1 := child1[i := x1];
        child2 := child2[i := x2];
      }
      assert child1[i] == SbxGene(p1[i], p2[i], coins[i], us[i], pow).0;
      assert child2[i] == SbxGene(p1[i], p2[i], coins[i], us[i], pow).1;
      i := i + 1;
    }
    var expected := SbxChildren(p1, p2, coins, us, pow);
    assert child1 == expected.0;
    assert child2 == expected.1;
  }

  /** The step delta of polynomial mutation computed from the draw `u`; it lies
      in [-1, 1]. */
  function MutationDelta(u: real, pow: (real, real) -> real): (delta: real)
    requires 0.0 <= u < 1.0
    ensures PowRange(pow) ==> -1.0 <= delta <= 1.0
  {
    if u < 0.5 then pow(2.0 * u, 1.0 / (EtaM + 1.0)) - 1.0
    else 1.0 - pow(2.0 * (1.0 - u), 1.0 / (EtaM + 1.0))
  }

  /** Polynomial mutation of one gene: moved by delta times its bound's width
      when the coin falls below the rate, otherwise kept. */
  function MutateGene(x: real, b: Bound, rate: real, coin: real, u: real, pow: (real, real) -> real): (r: real)
    requires 0.0 <= u < 1.0
    ensures coin >= rate ==> r == x
    ensures PowRange(pow) && b.lower <= b.upper ==> x - (b.upper - b.lower) <= r <= x + (b.upper - b.lower)
  {
    if coin < rate then
      var delta := MutationDelta(u, pow);
      var width := b.upper - b.lower;
      DeltaStep(delta, width);
      x + delta * width
    else x
  }

  lemma DeltaStep(delta: real, width: real)
    ensures -1.0 <= delta <= 1.0 && width >= 0.0 ==> -width <= delta * width <= width
  {
    if -1.0 <= delta <= 1.0 && width >= 0.0 {
      assert (1.0 - delta) * width >= 0.0;
      assert (1.0 + delta) * width >= 0.0;
    }
  }

  /** The individual polynomial mutation makes, gene by gene. */
  function Mutated(x: Vec, bounds: seq<Bound>, rate: real, coins: seq<real>, us: seq<real>, pow: (real, real) -> real): (r: Vec)
    requires |bounds| == |x| && |coins| == |x| && |us| == |x|
    requires forall i :: 0 <= i < |us| ==> 0.0 <= us[i] < 1.0
    ensures |r| == |x|
    ensures forall i :: 0 <= i < |x| && coins[i] >= rate ==> r[i] == x[i]
    ensures PowRange(pow) && ValidBounds(bounds) ==>
              forall i :: 0 <= i < |x| ==> x[i] - (bounds[i].upper - bounds[i].lower) <= r[i] <= x[i] + (bounds[i].upper - bounds[i].lower)
  {
    seq(|x|, i requires 0 <= i < |x| => MutateGene(x[i], bounds[i], rate, coins[i], us[i], pow))
  }

  /** With a zero rate no gene mutates. */
  lemma MutationRateZeroIsIdentity(x: Vec, bounds: seq<Bound>, coins: seq<real>, us: seq<real>, pow: (real, real) -> real)
    requires |bounds| == |x| && |coins| == |x| && |us| == |x|
    requires forall i :: 0 <= i < |us| ==> 0.0 <= us[i] < 1.0
    requires forall i :: 0 <= i < |coins| ==> 0.0 <= coins[i]
    ensures Mutated(x, bounds, 0.0, coins, us, pow) == x
  {
  }

  /** `_polynomial_mutation`: a copy of the individual, then gene by gene the
      mutated values written into the copy. */
  method PolynomialMutation(x: Vec, bounds: seq<Bound>, rate: real, coins: seq<real>, us: seq<real>, pow: (real, real) -> real)
    returns (mutated: Vec)
    requires |bounds| == |x| && |coins| == |x| && |us| == |x|
    requires forall i :: 0 <= i < |us| ==> 0.0 <= us[i] < 1.0
    ensures mutated == Mutated(x, bounds, rate, coins, us, pow)
  {
    mutated := x;
    var i := 0;
    while i < |x|
      invariant 0 <= i <= |x| && |mutated| == |x|
      invariant forall j :: 0 <= j < i ==> mutated[j] == MutateGene(x[j], bounds[j], rate, coins[j], us[j], pow)
      invariant forall j :: i <= j < |x| ==> mutated[j] == x[j]
    {
      if coins[i] < rate {
        var delta := MutationDelta(us[i], pow);
        mutated := mutated[i := x[i] + delta * (bounds[i].upper - bounds[i].lower)];
      }
      i := i + 1;
    }
  }
}
