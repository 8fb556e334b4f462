/** Differential evolution's validators and operators: the three boundary
    policies, the donor indices of the three mutation strategies, the
    mutations themselves and binomial crossover. */
module DeOperators {
  import opened PyValues
  import opened SearchSpace

  datatype Strategy = Rand1Bin | Best1Bin | Rand2Bin
  datatype BoundaryPolicy = ClipPolicy | ReflectPolicy | WrapPolicy

  /** The algorithm's settings once `_validate_parameters` has accepted them;
      the timeout is the limit the clock predicate of `optimize` stands for. */
  datatype DeSettings = DeSettings(
    populationSize: nat,
    maxIterations: nat,
    f: real,
    cr: real,
    strategy: Strategy,
    boundary: BoundaryPolicy,
    timeout: real)

  const StrategyNames: seq<string> := ["rand/1/bin", "best/1/bin", "rand/2/bin"]
  const PolicyNames: seq<string> := ["clip", "reflect", "wrap"]

  /** A bound the schema check accepts. */
  predicate BoundOk(b: Value) {
    IsSequence(b) && |b.items| == 2 &&
    IsNumber(b.items[0]) && IsNumber(b.items[1]) &&
    AsReal(b.items[0]) < AsReal(b.items[1])
  }

  /** Values `len` accepts. */
  predicate Sized(v: Value) {
    v.PStr? || IsSequence(v)
  }

  /** Everything `_validate_problem_schema` demands.  Unlike the swarm's check
      it accepts a tuple (or any sized value) of bounds. */
  predicate SchemaOk(problem: map<string, Value>) {
    && "dimensions" in problem && "bounds" in problem && "fitness_function" in problem
    && IsInt(problem["dimensions"]) && AsInt(problem["dimensions"]) > 0
    && Sized(problem["bounds"])
    && |Elements(problem["bounds"])| == AsInt(problem["dimensions"])
    && (forall i :: 0 <= i < |Elements(problem["bounds"])| ==> BoundOk(Elements(problem["bounds"])[i]))
    && problem["fitness_function"].PCallable?
    && IsOneOf(Get(problem, "objective", PStr("minimize")), ["minimize", "maximize"])
  }

  /** The loop over the bounds, from index `start` on. */
  function CheckBounds(items: seq<Value>, start: nat): (r: Outcome<seq<Bound>>)
    requires start <= |items|
    ensures r.Returns? <==> forall i :: start <= i < |items| ==> BoundOk(items[i])
    ensures r.Returns? ==>
              && |r.value| == |items| - start
              && forall i :: 0 <= i < |r.value| ==>
                   r.value[i] == Bound(AsReal(items[start + i].items[0]), AsReal(items[start + i].items[1]))
    ensures r.Raises? ==> r.error.ValueError?
    decreases |items| - start
  {
    if start == |items| then Returns([])
    else
      var b := items[start];
      var at := NatToString(start);
      if !IsSequence(b) || |b.items| != 2 then
        Raises(ValueError("Bound at index " + at + " must be (lower, upper)"))
      else if !IsNumber(b.items[0]) || !IsNumber(b.items[1]) then
        Raises(ValueError("Bound values must be numeric at index " + at))
      else if AsReal(b.items[0]) >= AsReal(b.items[1]) then
        Raises(ValueError("Invalid bound at " + at + ": lower >= upper"))
      else
        match CheckBounds(items, start + 1)
        case Raises(e) => Raises(e)
        case Returns(rest) => Returns([Bound(AsReal(b.items[0]), AsReal(b.items[1]))] + rest)
  }

  /** `_validate_problem_schema` of differential evolution.  `len` of a value
      without a length raises `TypeError`; every other failure is a
      `ValueError`. */
  function ValidateProblemSchema(problem: map<string, Value>): (r: Outcome<Problem>)
    ensures r.Returns? <==> SchemaOk(problem)
    ensures r.Returns? ==>
              && WellFormed(r.value)
              && r.value.dimensions == AsInt(problem["dimensions"])
              && |r.value.bounds| == |Elements(problem["bounds"])|
              && (forall i :: 0 <= i < |r.value.bounds| ==>
                    r.value.bounds[i] == Bound(AsReal(Elements(problem["bounds"])[i].items[0]),
                                               AsReal(Elements(problem["bounds"])[i].items[1])))
              && r.value.fitness == problem["fitness_function"].fn
              && (r.value.objective == Minimize <==> Get(problem, "objective", PStr("minimize")) == PStr("minimize"))
    ensures r.Raises? ==>
              (r.error.TypeError? <==>
                 "dimensions" in problem && "bounds" in problem && "fitness_function" in problem
                 && IsInt(problem["dimensions"]) && AsInt(problem["dimensions"]) > 0
                 && !Sized(problem["bounds"]))
    ensures r.Raises? ==> r.error.ValueError? || r.error.TypeError?
  {
    if "dimensions" !in problem then Raises(ValueError(MissingKey + "'dimensions'"))
    else if "bounds" !in problem then Raises(ValueError(MissingKey + "'bounds'"))
    else if "fitness_function" !in problem then Raises(ValueError(MissingKey + "'fitness_function'"))
    else
      var dims := problem["dimensions"];
      var bounds := problem["bounds"];
      if !IsInt(dims) || AsInt(dims) <= 0 then Raises(ValueError(DimensionsMessage))
      else if !Sized(bounds) then Raises(TypeError("object of type '" + TypeName(bounds) + "' has no len()"))
      else if |Elements(bounds)| != AsInt(dims) then Raises(ValueError(BoundsLengthMessage))
      else
        match CheckBounds(Elements(bounds), 0)
        case Raises(e) => Raises(e)
        case Returns(bs) =>
          if !problem["fitness_function"].PCallable? then Raises(ValueError(CallableMessage))
          else if !IsOneOf(Get(problem, "objective", PStr("minimize")), ["minimize", "maximize"]) then
            Raises(ValueError(ObjectiveMessage))
          else
            var objective := if Get(problem, "objective", PStr("minimize")) == PStr("minimize") then Minimize else Maximize;
            Returns(Problem(AsInt(dims), bs, objective, problem["fitness_function"].fn))
  }

  /** Everything `_validate_parameters` demands.  There is no upper limit on
      `max_iterations`. */
  predicate ParametersOk(populationSize: Value, maxIterations: Value, f: Value, cr: Value,
                         strategy: Value, boundary: Value, timeout: Value) {
    && IsInt(populationSize) && AsInt(populationSize) >= 10
    && IsInt(maxIterations) && AsInt(maxIterations) >= 1
    && IsNumber(f) && 0.0 < AsReal(f) <= 2.0
    && IsNumber(cr) && 0.0 <= AsReal(cr) <= 1.0
    && IsOneOf(strategy, StrategyNames)
    && IsOneOf(boundary, PolicyNames)
    && IsNumber(timeout) && AsReal(timeout) > 0.0
  }

  function StrategyOf(v: Value): Strategy {
    if v == PStr("rand/1/bin") then Rand1Bin else if v == PStr("best/1/bin") then Best1Bin else Rand2Bin
  }

  function PolicyOf(v: Value): BoundaryPolicy {
    if v == PStr("clip") then ClipPolicy else if v == PStr("reflect") then ReflectPolicy else WrapPolicy
  }

  const PopulationSizeMessage := "population_size must be >= 10"
  const MaxIterationsMessage := "max_iterations must be >= 1"
  const ScaleMessage := "F must be in (0, 2]"
  const CrossoverMessage := "CR must be in [0, 1]"
  const TimeoutMessage := "timeout must be positive number"
  const LessThanUnsupported := "'<' not supported between instances of 'float' and '"
  const AtMostUnsupported := "'<=' not supported between instances of 'float' and '"
  const BoundsLengthMessage := "Length of 'bounds' must equal 'dimensions'"
  const DimensionsMessage := "'dimensions' must be a positive integer"
  const CallableMessage := "'fitness_function' must be callable"
  const ObjectiveMessage := "'objective' must be 'minimize' or 'maximize'"
  const MissingKey := "Problem missing required key: "

  const StrategyMessage := "strategy must be 'rand/1/bin', 'best/1/bin', or 'rand/2/bin'"
  const PolicyMessage := "boundary_handling must be 'clip', 'reflect', or 'wrap'"

  /** `_validate_parameters`.  `F` and `CR` are compared without a type check,
      so a value that is not a number makes the comparison raise `TypeError`. */
  function ValidateParameters(populationSize: Value, maxIterations: Value, f: Value, cr: Value,
                              strategy: Value, boundary: Value, timeout: Value): (r: Outcome<DeSettings>)
    ensures r.Returns? <==> ParametersOk(populationSize, maxIterations, f, cr, strategy, boundary, timeout)
    ensures r.Returns? ==>
              r.value == DeSettings(AsInt(populationSize), AsInt(maxIterations), AsReal(f), AsReal(cr),
                                    StrategyOf(strategy), PolicyOf(boundary), AsReal(timeout))
    ensures r.Raises? ==> r.error.ValueError? || r.error.TypeError?
    ensures (IsInt(populationSize) && AsInt(populationSize) >= 10 && IsInt(maxIterations) && AsInt(maxIterations) >= 1
             && !IsNumber(f)) ==> r.Raises? && r.error.TypeError?
    ensures (IsInt(populationSize) && AsInt(populationSize) >= 10 && IsInt(maxIterations) && AsInt(maxIterations) >= 1
             && IsNumber(f) && 0.0 < AsReal(f) <= 2.0 && !IsNumber(cr)) ==> r.Raises? && r.error.TypeError?
  {
    if !IsInt(populationSize) || AsInt(populationSize) < 10 then
      Raises(ValueError(PopulationSizeMessage))
    else if !IsInt(maxIterations) || AsInt(maxIterations) < 1 then
      Raises(ValueError(MaxIterationsMessage))
    else if !IsNumber(f) then
      Raises(TypeError(LessThanUnsupported + TypeName(f) + "'"))
    else if !(0.0 < AsReal(f) <= 2.0) then
      Raises(ValueError(ScaleMessage))
    else if !IsNumber(cr) then
      Raises(TypeError(AtMostUnsupported + TypeName(cr) + "'"))
    else if !(0.0 <= AsReal(cr) <= 1.0) then
      Raises(ValueError(CrossoverMessage))
    else if !IsOneOf(strategy, StrategyNames) then
      Raises(ValueError(StrategyMessage))
    else if !IsOneOf(boundary, PolicyNames) then
      Raises(ValueError(PolicyMessage))
    else if !IsNumber(timeout) || AsReal(timeout) <= 0.0 then
      Raises(ValueError(TimeoutMessage))
    else
      Returns(DeSettings(AsInt(populationSize), AsInt(maxIterations), AsReal(f), AsReal(cr),
                         StrategyOf(strategy), PolicyOf(boundary), AsReal(timeout)))
  }

  // ---------------------------------------------------------------- boundaries

  /** The `reflect` policy on one coordinate: mirrored at the lower bound when
      below it, then (the mirrored value) at the upper bound when above it,
      then clipped. */
  function ReflectCoord(v: real, lo: real, hi: real): (r: real)
    ensures lo <= hi ==> lo <= r <= hi
    ensures lo <= v <= hi ==> r == v
  {
    var up := if v < lo then lo + (lo - v) else v;
    var down := if up > hi then hi - (up - hi) else up;
    Clip(down, lo, hi)
  }

  /** Python's `x % w` for a positive real `w`: the remainder of floored
      division, with the sign of `w`. */
  function FlooredMod(x: real, w: real): real
    requires w > 0.0
  {
    x - w * ((x / w).Floor as real)
  }

  lemma FlooredModRange(x: real, w: real)
    requires w > 0.0
    ensures 0.0 <= FlooredMod(x, w) < w
    ensures 0.0 <= x < w ==> FlooredMod(x, w) == x
  {
    var q := x / w;
    var f := q.Floor as real;
    var m := FlooredMod(x, w);
    assert m == x - w * f;
    assert f <= q < f + 1.0;
    assert x == w * q;
    var e := q - f;
    assert w * e == w * q - w * f;
    assert 0.0 <= e < 1.0;
    ScaledFraction(w, e);
    assert 0.0 <= w * e < w;
    assert m == w * e;
    assert 0.0 <= m < w;
    if 0.0 <= x < w {
      if q >= 1.0 {
        ScaledFraction(w, q - 1.0);
        assert false;
      }
      assert q.Floor == 0;
    }
  }

  /** `w * e` lies in [0, w) when `e` lies in [0, 1), and is at least 0 for any
      non-negative `e`. */
  lemma ScaledFraction(w: real, e: real)
    requires w > 0.0
    ensures e >= 0.0 ==> w * e >= 0.0
    ensures e < 1.0 ==> w * e < w
  {
    if e < 1.0 {
      assert w * (1.0 - e) > 0.0;
    }
  }

  /** The `wrap` policy on one coordinate: `lower + ((v - lower) % (upper - lower))`,
      which lies in [lower, upper) and keeps values already there. */
  function WrapCoord(v: real, lo: real, hi: real): (r: real)
    requires lo < hi
    ensures lo <= r < hi
    ensures lo <= v < hi ==> r == v
  {
    FlooredModRange(v - lo, hi - lo);
    lo + FlooredMod(v - lo, hi - lo)
  }

  /** `_apply_boundary`'s result under each policy, coordinate by coordinate. */
  function BoundaryImage(policy: BoundaryPolicy, x: Vec, bounds: seq<Bound>): (r: Vec)
    requires |x| == |bounds| && ValidBounds(bounds)
    ensures InBounds(r, bounds)
    ensures policy != WrapPolicy ==> forall d :: 0 <= d < |x| && bounds[d].lower <= x[d] <= bounds[d].upper ==> r[d] == x[d]
    ensures policy == WrapPolicy ==> forall d :: 0 <= d < |x| ==> bounds[d].lower <= r[d] < bounds[d].upper
    ensures policy == WrapPolicy ==> forall d :: 0 <= d < |x| && bounds[d].lower <= x[d] < bounds[d].upper ==> r[d] == x[d]
  {
    match policy
    case ClipPolicy => ClipToBounds(x, bounds)
    case ReflectPolicy => seq(|x|, d requires 0 <= d < |x| => ReflectCoord(x[d], bounds[d].lower, bounds[d].upper))
    case WrapPolicy => seq(|x|, d requires 0 <= d < |x| => WrapCoord(x[d], bounds[d].lower, bounds[d].upper))
  }

  /** Every policy is idempotent: a vector it has placed inside the bounds is
      left where it is. */
  lemma BoundaryIdempotent(policy: BoundaryPolicy, x: Vec, bounds: seq<Bound>)
    requires |x| == |bounds| && ValidBounds(bounds)
    ensures BoundaryImage(policy, BoundaryImage(policy, x, bounds), bounds) == BoundaryImage(policy, x, bounds)
  {
    var once := BoundaryImage(policy, x, bounds);
    var twice := BoundaryImage(policy, once, bounds);
    assert forall d :: 0 <= d < |x| ==> twice[d] == once[d];
  }

  /** The `reflect` branch of `_apply_boundary`: a copy reflected coordinate
      by coordinate in a loop, then clipped. */
  method Reflect(x: Vec, bounds: seq<Bound>) returns (r: Vec)
    requires |x| == |bounds| && ValidBounds(bounds)
    ensures r == BoundaryImage(ReflectPolicy, x, bounds)
  {
    var reflected := x;
    var i := 0;
    while i < |x|
      invariant 0 <= i <= |x| && |reflected| == |x|
      invariant forall d :: 0 <= d < i ==>
                  Clip(reflected[d], bounds[d].lower, bounds[d].upper) == ReflectCoord(x[d], bounds[d].lower, bounds[d].upper)
      invariant forall d :: i <= d < |x| ==> reflected[d] == x[d]
    {
      if reflected[i] < bounds[i].lower {
        reflected := reflected[i := bounds[i].lower + (bounds[i].lower - reflected[i])];
      }
      if reflected[i] > bounds[i].upper {
        reflected := reflected[i := bounds[i].upper - (reflected[i] - bounds[i].upper)];
      }
      i := i + 1;
    }
    r := ClipToBounds(reflected, bounds);
    assert forall d :: 0 <= d < |x| ==> r[d] == BoundaryImage(ReflectPolicy, x, bounds)[d];
  }

  /** `_apply_boundary`. */
  method ApplyBoundary(policy: BoundaryPolicy, x: Vec, bounds: seq<Bound>) returns (r: Vec)
    requires |x| == |bounds| && ValidBounds(bounds)
    ensures r == BoundaryImage(policy, x, bounds)
  {
    match policy
    case ClipPolicy =>
      r := ClipToBounds(x, bounds);
    case ReflectPolicy =>
      r := Reflect(x, bounds);
    case WrapPolicy =>
      r := seq(|x|, d requires 0 <= d < |x| => WrapCoord(x[d], bounds[d].lower, bounds[d].upper));
  }

  // ---------------------------------------------------------------- donors

  /** `[idx for idx in range(start, n) if idx != i]`. */
  function OthersFrom(start: nat, n: nat, i: nat): seq<nat>
    requires start <= n
    decreases n - start
  {
    if start == n then []
    else if start != i then [start] + OthersFrom(start + 1, n, i)
    else OthersFrom(start + 1, n, i)
  }

  /** The candidates of a mutation for target `i`: every index but `i`. */
  function Others(n: nat, i: nat): seq<nat> {
    OthersFrom(0, n, i)
  }

  /** The filtered range skips exactly the target: position `j` holds `j`
      below the target and `j + 1` from it on. */
  lemma {:induction false} OthersFromShape(start: nat, n: nat, i: nat)
    requires start <= n && start <= i < n
    ensures |OthersFrom(start, n, i)| == n - start - 1
    ensures forall j :: 0 <= j < n - start - 1 ==>
              OthersFrom(start, n, i)[j] == if start + j < i then start + j else start + j + 1
    decreases n - start
  {
    if start == i {
      if start + 1 < n {
        OthersFromAbove(start + 1, n, i);
      } else {
        assert OthersFrom(start + 1, n, i) == [];
      }
    } else {
      OthersFromShape(start + 1, n, i);
    }
  }

  lemma {:induction false} OthersFromAbove(start: nat, n: nat, i: nat)
    requires i < start <= n
    ensures |OthersFrom(start, n, i)| == n - start
    ensures forall j :: 0 <= j < n - start ==> OthersFrom(start, n, i)[j] == start + j
    decreases n - start
  {
    if start < n {
      OthersFromAbove(start + 1, n, i);
    }
  }

  lemma OthersShape(n: nat, i: nat)
    requires i < n
    ensures |Others(n, i)| == n - 1
    ensures forall j :: 0 <= j < n - 1 ==> Others(n, i)[j] == if j < i then j else j + 1
  {
    OthersFromShape(0, n, i);
  }

  /** The number of donors each strategy draws. */
  function DonorCount(s: Strategy): nat {
    match s
    case Rand1Bin => 3
    case Best1Bin => 2
    case Rand2Bin => 5
  }

  /** Donor `j` is the candidate at position `picks[j]`. */
  function Donors(n: nat, i: nat, picks: seq<nat>): (donors: seq<nat>)
    requires i < n && forall j :: 0 <= j < |picks| ==> picks[j] < n - 1
    ensures |donors| == |picks|
  {
    OthersShape(n, i);
    seq(|picks|, j requires 0 <= j < |picks| => Others(n, i)[picks[j]])
  }

  /** The donors of a mutation are valid indices, pairwise distinct, and never
      the target itself. */
  lemma DonorsExcludeTarget(n: nat, i: nat, picks: seq<nat>, k: nat)
    requires i < n && PicksOk(picks, n - 1, k)
    ensures forall j :: 0 <= j < k ==> Donors(n, i, picks)[j] < n && Donors(n, i, picks)[j] != i
    ensures forall j1, j2 :: 0 <= j1 < j2 < k ==> Donors(n, i, picks)[j1] != Donors(n, i, picks)[j2]
  {
    OthersShape(n, i);
  }

  // ---------------------------------------------------------------- mutation

  /** The mutant vector of each strategy: `a + F (b - c)`, `best + F (b - c)`
      or `a + F (b - c + d - e)`, with `a, b, ...` the donors in order. */
  function Mutant(s: Strategy, pop: seq<Vec>, best: Vec, donors: seq<nat>, f: real): (m: Vec)
    requires |donors| == DonorCount(s)
    requires forall j :: 0 <= j < |donors| ==> donors[j] < |pop| && |pop[donors[j]]| == |best|
    ensures |m| == |best|
  {
    var n := |best|;
    match s
    case Rand1Bin =>
      var a, b, c := pop[donors[0]], pop[donors[1]], pop[donors[2]];
      seq(n, d requires 0 <= d < n => a[d] + f * (b[d] - c[d]))
    case Best1Bin =>
      var b, c := pop[donors[0]], pop[donors[1]];
      seq(n, d requires 0 <= d < n => best[d] + f * (b[d] - c[d]))
    case Rand2Bin =>
      var a, b, c, dd, e := pop[donors[0]], pop[donors[1]], pop[donors[2]], pop[donors[3]], pop[donors[4]];
      seq(n, d requires 0 <= d < n => a[d] + f * (b[d] - c[d] + dd[d] - e[d]))
  }

  /** The base vector of each strategy (`a`, the best, `a`) is what the mutant
      collapses to when the difference donors coincide. */
  lemma MutantOfEqualDifferences(s: Strategy, pop: seq<Vec>, best: Vec, donors: seq<nat>, f: real)
    requires |donors| == DonorCount(s)
    requires forall j :: 0 <= j < |donors| ==> donors[j] < |pop| && |pop[donors[j]]| == |best|
    requires s == Best1Bin ==> pop[donors[0]] == pop[donors[1]]
    requires s != Best1Bin ==> pop[donors[1]] == pop[donors[2]]
    requires s == Rand2Bin ==> pop[donors[3]] == pop[donors[4]]
    ensures Mutant(s, pop, best, donors, f) == if s == Best1Bin then best else pop[donors[0]]
  {
    var m := Mutant(s, pop, best, donors, f);
    var base := if s == Best1Bin then best else pop[donors[0]];
    assert forall d :: 0 <= d < |best| ==> m[d] == base[d];
  }

  // ---------------------------------------------------------------- crossover

  /** The crossover mask: `rands[d] < CR` per coordinate, and when that
      selects nothing, the coordinate `forced` alone. */
  function CrossMask(rands: seq<real>, cr: real, forced: nat): (mask: seq<bool>)
    requires forced < |rands|
    ensures |mask| == |rands|
    ensures exists d :: 0 <= d < |mask| && mask[d]
    ensures (exists d :: 0 <= d < |rands| && rands[d] < cr) ==> forall d :: 0 <= d < |mask| ==> mask[d] == (rands[d] < cr)
    ensures (forall d :: 0 <= d < |rands| ==> rands[d] >= cr) ==> forall d :: 0 <= d < |mask| ==> mask[d] == (d == forced)
  {
    var drawn := seq(|rands|, d requires 0 <= d < |rands| => rands[d] < cr);
    assert forall d :: 0 <= d < |rands| ==> drawn[d] == (rands[d] < cr);
    if exists d :: 0 <= d < |drawn| && drawn[d] then drawn
    else
      var mask := drawn[forced := true];
      assert mask[forced];
      mask
  }

  /** `np.where(mask, mutant, target)`. */
  function Trial(mask: seq<bool>, mutant: Vec, target: Vec): (t: Vec)
    requires |mask| == |mutant| == |target|
    ensures |t| == |target|
  {
    seq(|target|, d requires 0 <= d < |target| => if mask[d] then mutant[d] else target[d])
  }

  /** The trial takes the mutant's coordinate exactly where the mask is set
      and the target's elsewhere, and with a mask from `CrossMask` at least one
      coordinate comes from the mutant. */
  lemma TrialTakesFromMutant(rands: seq<real>, cr: real, forced: nat, mutant: Vec, target: Vec)
    requires forced < |rands| && |rands| == |mutant| == |target|
    ensures var t := Trial(CrossMask(rands, cr, forced), mutant, target);
            && (exists d :: 0 <= d < |t| && CrossMask(rands, cr, forced)[d] && t[d] == mutant[d])
            && (forall d :: 0 <= d < |t| ==> t[d] == if CrossMask(rands, cr, forced)[d] then mutant[d] else target[d])
  {
    var mask := CrossMask(rands, cr, forced);
    var t := Trial(mask, mutant, target);
    var d :| 0 <= d < |mask| && mask[d];
    assert t[d] == mutant[d];
  }
}
