/** The helper library of the optimisation engine: two benchmark objectives,
    the benchmark registry, the problem dictionary builder, the downsampling of
    convergence curves, their summary statistics and the recommended search
    boxes of the benchmarks. */
module Utils {
  import opened SearchSpace
  import opened PyValues
  import PsoValidation
  import Validation
  import Config

  /** `y ** 2`, never negative. */
  function Square(y: real): (r: real)
    ensures r >= 0.0
  {
    y * y
  }

  /** `sphere(x)`: the sum of the squared coordinates. */
  function Sphere(x: Vec): (r: real)
    ensures r >= 0.0
  {
    if |x| == 0 then 0.0 else Square(x[0]) + Sphere(x[1..])
  }

  /** The sphere vanishes at the origin. */
  lemma {:induction false} SphereZeroAtOrigin(x: Vec)
    requires forall i :: 0 <= i < |x| ==> x[i] == 0.0
    ensures Sphere(x) == 0.0
  {
    if |x| > 0 {
      SphereZeroAtOrigin(x[1..]);
    }
  }

  /** One term of the Rosenbrock sum, for the neighbours `a = x[i]` and
      `b = x[i + 1]`. */
  function RosenbrockTerm(a: real, b: real): (r: real)
    ensures r >= 0.0
    ensures a == 1.0 && b == 1.0 ==> r == 0.0
  {
    100.0 * Square(b - a * a) + Square(1.0 - a)
  }

  /** `rosenbrock(x)`: the sum over neighbouring pairs; a vector with fewer
      than two coordinates has none. */
  function Rosenbrock(x: Vec): (r: real)
    ensures r >= 0.0
  {
    if |x| < 2 then 0.0 else RosenbrockTerm(x[0], x[1]) + Rosenbrock(x[1..])
  }

  /** Rosenbrock vanishes at the all-ones vector. */
  lemma {:induction false} RosenbrockZeroAtOnes(x: Vec)
    requires forall i :: 0 <= i < |x| ==> x[i] == 1.0
    ensures Rosenbrock(x) == 0.0
  {
    if |x| >= 2 {
      RosenbrockZeroAtOnes(x[1..]);
    }
  }

  /** The benchmarks `FITNESS_FUNCTIONS` registers. */
  datatype Benchmark = SphereFn | RastriginFn | RosenbrockFn | AckleyFn | GriewankFn

  const SphereName := "sphere"
  const RastriginName := "rastrigin"
  const RosenbrockName := "rosenbrock"
  const AckleyName := "ackley"
  const GriewankName := "griewank"

  /** `FITNESS_FUNCTIONS`, in declaration order. */
  const FitnessFunctions: seq<(string, Benchmark)> := [
    (SphereName, SphereFn), (RastriginName, RastriginFn), (RosenbrockName, RosenbrockFn),
    (AckleyName, AckleyFn), (GriewankName, GriewankFn)
  ]

  /** The key a benchmark is registered under. */
  function BenchmarkName(b: Benchmark): string {
    match b
    case SphereFn => SphereName
    case RastriginFn => RastriginName
    case RosenbrockFn => RosenbrockName
    case AckleyFn => AckleyName
    case GriewankFn => GriewankName
  }

  /** The registry's keys, in order. */
  function FitnessFunctionNames(): (r: seq<string>)
    ensures |r| == |FitnessFunctions|
    ensures forall i :: 0 <= i < |r| ==> r[i] == FitnessFunctions[i].0
  {
    seq(|FitnessFunctions|, i requires 0 <= i < |FitnessFunctions| => FitnessFunctions[i].0)
  }

  const UnknownFunctionHead := "Unknown fitness function '"
  const UnknownFunctionTail := "'. Available functions: "

  /** `get_fitness_function(name)`: the registered benchmark, or `ValueError`
      naming every registered key. */
  function GetFitnessFunction(name: string): (r: Outcome<Benchmark>)
    ensures r.Returns? <==> name in FitnessFunctionNames()
    ensures r.Returns? ==> BenchmarkName(r.value) == name
    ensures r.Raises? ==>
              r.error == ValueError(UnknownFunctionHead + name + UnknownFunctionTail + Join(FitnessFunctionNames(), ", "))
  {
    assert FitnessFunctionNames() == [SphereName, RastriginName, RosenbrockName, AckleyName, GriewankName];
    if name == SphereName then Returns(SphereFn)
    else if name == RastriginName then Returns(RastriginFn)
    else if name == RosenbrockName then Returns(RosenbrockFn)
    else if name == AckleyName then Returns(AckleyFn)
    else if name == GriewankName then Returns(GriewankFn)
    else Raises(ValueError(UnknownFunctionHead + name + UnknownFunctionTail + Join(FitnessFunctionNames(), ", ")))
  }

  /** Every registered benchmark is found under its own key. */
  lemma GetFitnessFunctionFindsEvery(b: Benchmark)
    ensures BenchmarkName(b) in FitnessFunctionNames()
    ensures GetFitnessFunction(BenchmarkName(b)) == Returns(b)
  {
    assert FitnessFunctionNames()[0] == SphereName;
    assert FitnessFunctionNames()[1] == RastriginName;
    assert FitnessFunctionNames()[2] == RosenbrockName;
    assert FitnessFunctionNames()[3] == AckleyName;
    assert FitnessFunctionNames()[4] == GriewankName;
  }

  /** `create_problem_dict(dimensions, bounds, fitness_function, objective)`:
      exactly the four keys, holding the arguments. */
  function CreateProblemDict(dimensions: Value, bounds: Value, fitnessFunction: Value,
                             objective: Value := PStr("minimize")): (r: map<string, Value>)
    ensures r.Keys == {"dimensions", "bounds", "fitness_function", "objective"}
    ensures r["dimensions"] == dimensions && r["bounds"] == bounds
    ensures r["fitness_function"] == fitnessFunction && r["objective"] == objective
  {
    map["dimensions" := dimensions, "bounds" := bounds, "fitness_function" := fitnessFunction, "objective" := objective]
  }

  /** Multiplying by a natural number keeps the order. */
  lemma MulMonotone(b: nat, x: nat, y: nat)
    requires x <= y
    ensures b * x <= b * y
  {
    assert b * y == b * x + b * (y - x);
  }

  /** `a / b` is at least `c` whenever `a` is at least `c * b`. */
  lemma DivAtLeast(a: nat, b: nat, c: nat)
    requires b > 0 && a >= c * b
    ensures a / b >= c
  {
    var q, r := a / b, a % b;
    assert a == b * q + r && r < b;
    assert b * q + b == b * (q + 1);
    if c > q {
      MulMonotone(b, q + 1, c);
      assert false;
    }
  }

  /** `a / b` is at most `c` whenever `a` is at most `c * b`. */
  lemma DivAtMost(a: nat, b: nat, c: nat)
    requires b > 0 && a <= c * b
    ensures a / b <= c
  {
    var q, r := a / b, a % b;
    assert a == b * q + r && r >= 0;
    if q > c {
      MulMonotone(b, c + 1, q);
      assert false;
    }
  }

  /** The `np.linspace(0, n - 1, m, dtype=int)` sample positions, computed
      exactly: position `k` is `floor(k * (n - 1) / (m - 1))`, and a single
      sample sits at 0.  Each is a position of the `n` points. */
  function LinspaceIndex(n: nat, m: nat, k: nat): (i: nat)
    requires k < m < n
    ensures i < n
  {
    if m == 1 then 0
    else
      MulMonotone(n - 1, k, m - 1);
      DivAtMost(k * (n - 1), m - 1, n - 1);
      (k * (n - 1)) / (m - 1)
  }

  /** The last sample position is the last point. */
  lemma LinspaceIndexLast(n: nat, m: nat)
    requires n > m >= 2
    ensures LinspaceIndex(n, m, m - 1) == n - 1
  {
    var prod := (m - 1) * (n - 1);
    DivAtLeast(prod, m - 1, n - 1);
    DivAtMost(prod, m - 1, n - 1);
  }

  /** With more points than samples, consecutive positions differ. */
  lemma LinspaceIndexStep(n: nat, m: nat, k: nat)
    requires n > m >= 2 && k + 1 < m
    ensures LinspaceIndex(n, m, k) < LinspaceIndex(n, m, k + 1)
  {
    var b: nat := m - 1;
    var a: nat := k * (n - 1);
    var q := a / b;
    assert a >= q * b by {
      assert a == b * q + a % b;
    }
    assert (k + 1) * (n - 1) == a + (n - 1);
    assert (q + 1) * b == q * b + b;
    DivAtLeast(a + (n - 1), b, q + 1);
  }

  /** When there are more points than samples, the positions start at the
      first point, end at the last and strictly increase, so every sample is a
      different point, taken in order. */
  lemma LinspaceIndexProperties(n: nat, m: nat)
    requires n > m >= 2
    ensures LinspaceIndex(n, m, 0) == 0 && LinspaceIndex(n, m, m - 1) == n - 1
    ensures forall k :: 0 <= k < m - 1 ==> LinspaceIndex(n, m, k) < LinspaceIndex(n, m, k + 1)
  {
    LinspaceIndexLast(n, m);
    forall k | 0 <= k < m - 1
      ensures LinspaceIndex(n, m, k) < LinspaceIndex(n, m, k + 1)
    {
      LinspaceIndexStep(n, m, k);
    }
  }

  const NegativeSamplesHead := "Number of samples, -"
  const NegativeSamplesTail := ", must be non-negative."

  /** What `np.linspace` raises for a negative number of samples. */
  function NegativeSamples(m: int): string
    requires m < 0
  {
    NegativeSamplesHead + NatToString(-m) + NegativeSamplesTail
  }

  /** `[curve[i] for i in np.linspace(0, len(curve) - 1, m, dtype=int)]` */
  function Samples(curve: seq<real>, m: nat): (r: seq<real>)
    requires |curve| > m
    ensures |r| == m
    ensures forall k :: 0 <= k < m ==> r[k] == curve[LinspaceIndex(|curve|, m, k)]
  {
    var n := |curve|;
    seq(m, k requires 0 <= k < m => curve[LinspaceIndex(n, m, k)])
  }

  /** `format_convergence_curve(curve, max_points)`: the curve itself when it
      is short enough, otherwise `max_points` samples at the linspace
      positions.  A negative `max_points` below the length makes `np.linspace`
      raise. */
  function FormatConvergenceCurve(curve: seq<real>, maxPoints: int := 100): (r: Outcome<seq<real>>)
    ensures r.Raises? <==> |curve| > maxPoints && maxPoints < 0
    ensures r.Raises? ==> r.error == ValueError(NegativeSamples(maxPoints))
    ensures |curve| <= maxPoints ==> r == Returns(curve)
    ensures r.Returns? && |curve| > maxPoints ==>
              && |r.value| == maxPoints
              && forall k :: 0 <= k < maxPoints ==> r.value[k] == curve[LinspaceIndex(|curve|, maxPoints, k)]
  {
    if |curve| <= maxPoints then Returns(curve)
    else if maxPoints < 0 then Raises(ValueError(NegativeSamples(maxPoints)))
    else Returns(Samples(curve, maxPoints))
  }

  /** A downsampled curve keeps the first and the last point and is a
      subsequence of the curve; so a curve that never regresses still never
      regresses once downsampled. */
  lemma DownsampleKeepsEnds(curve: seq<real>, maxPoints: int, obj: Objective)
    requires |curve| > maxPoints >= 2
    ensures var r := FormatConvergenceCurve(curve, maxPoints);
            && r.Returns?
            && r.value[0] == curve[0]
            && r.value[maxPoints - 1] == curve[|curve| - 1]
            && (Improving(obj, curve) ==> Improving(obj, r.value))
  {
    var n := |curve|;
    var r := FormatConvergenceCurve(curve, maxPoints).value;
    LinspaceIndexProperties(n, maxPoints);
    if Improving(obj, curve) {
      forall i, j | 0 <= i <= j < maxPoints
        ensures !IsBetter(obj, r[i], r[j])
      {
        LinspaceIndexMonotone(n, maxPoints, i, j);
      }
    }
  }

  /** Sample positions never decrease. */
  lemma {:induction false} LinspaceIndexMonotone(n: nat, m: nat, i: nat, j: nat)
    requires n > m >= 2 && i <= j < m
    ensures LinspaceIndex(n, m, i) <= LinspaceIndex(n, m, j)
  {
    if i < j {
      LinspaceIndexProperties(n, m);
      LinspaceIndexMonotone(n, m, i, j - 1);
    }
  }

  const InitialFitnessKey := "initial_fitness"
  const FinalFitnessKey := "final_fitness"
  const ImprovementKey := "improvement"
  const ImprovementPercentKey := "improvement_percent"

  function Abs(x: real): real { if x < 0.0 then -x else x }

  /** `calculate_statistics(curve)`: nothing for an empty curve; otherwise the
      first and last value, their difference, and that difference as a
      percentage of the first value's magnitude (0 when the first is 0). */
  function CalculateStatistics(curve: seq<real>): (r: map<string, real>)
    ensures |curve| == 0 <==> r == map[]
    ensures |curve| > 0 ==>
              && r.Keys == {InitialFitnessKey, FinalFitnessKey, ImprovementKey, ImprovementPercentKey}
              && r[InitialFitnessKey] == curve[0] && r[FinalFitnessKey] == curve[|curve| - 1]
              && r[ImprovementKey] == r[InitialFitnessKey] - r[FinalFitnessKey]
              && (curve[0] == 0.0 ==> r[ImprovementPercentKey] == 0.0)
              && (curve[0] != 0.0 ==> r[ImprovementPercentKey] * Abs(curve[0]) == r[ImprovementKey] * 100.0)
  {
    if |curve| == 0 then map[]
    else
      var first, last := curve[0], curve[|curve| - 1];
      var percent := if first != 0.0 then (first - last) / Abs(first) * 100.0 else 0.0;
      map[InitialFitnessKey := first, FinalFitnessKey := last, ImprovementKey := first - last,
          ImprovementPercentKey := percent]
  }

  /** The percentage has the sign of the improvement, and the curve of a
      minimisation, which never rises, shows no negative improvement. */
  lemma StatisticsSigns(curve: seq<real>)
    requires |curve| > 0
    ensures var r := CalculateStatistics(curve);
            && (r[ImprovementPercentKey] > 0.0 <==> curve[0] != 0.0 && r[ImprovementKey] > 0.0)
            && (r[ImprovementPercentKey] < 0.0 <==> curve[0] != 0.0 && r[ImprovementKey] < 0.0)
            && (Improving(Minimize, curve) ==> r[ImprovementKey] >= 0.0 && r[ImprovementPercentKey] >= 0.0)
  {
    var r := CalculateStatistics(curve);
    if curve[0] != 0.0 {
      assert r[ImprovementPercentKey] == r[ImprovementKey] / Abs(curve[0]) * 100.0;
    }
    if Improving(Minimize, curve) {
      assert !IsBetter(Minimize, curve[0], curve[|curve| - 1]);
    }
  }

  /** The box `bounds_map` recommends for a benchmark name, `(-10, 10)` for
      any other name. */
  function RecommendedBound(functionName: string): (b: (real, real))
    ensures b.0 < b.1
    ensures functionName !in FitnessFunctionNames() ==> b == (-10.0, 10.0)
  {
    assert FitnessFunctionNames() == [SphereName, RastriginName, RosenbrockName, AckleyName, GriewankName];
    if functionName == SphereName || functionName == RastriginName then (-5.12, 5.12)
    else if functionName == RosenbrockName then (-2.048, 2.048)
    else if functionName == AckleyName then (-32.768, 32.768)
    else if functionName == GriewankName then (-600.0, 600.0)
    else (-10.0, 10.0)
  }

  /** The Python value of a `(lower, upper)` tuple of floats. */
  function BoundValue(b: (real, real)): Value {
    PTuple([PFloat(b.0), PFloat(b.1)])
  }

  /** `get_recommended_bounds(function_name, dimensions)`: the list holding
      `dimensions` copies of the recommended box (none for a negative count). */
  function GetRecommendedBounds(functionName: string, dimensions: int): (r: Value)
    ensures r.PList? && |r.items| == if dimensions < 0 then 0 else dimensions
    ensures forall i :: 0 <= i < |r.items| ==> r.items[i] == BoundValue(RecommendedBound(functionName))
  {
    var n := if dimensions < 0 then 0 else dimensions;
    PList(seq(n, i requires 0 <= i < n => BoundValue(RecommendedBound(functionName))))
  }

  /** A problem built from the recommended bounds of any name and any
      callable passes the engine's schema check and, up to the platform's
      dimension limit, the request validator. */
  lemma RecommendedProblemAccepted(functionName: string, dimensions: int, fitness: seq<real> -> FitnessValue)
    requires dimensions >= 1
    ensures var p := CreateProblemDict(PInt(dimensions), GetRecommendedBounds(functionName, dimensions), PCallable(fitness));
            && PsoValidation.SchemaOk(p)
            && (dimensions <= Config.MaxDimensions ==> Validation.ProblemOk(p))
  {
    var b := GetRecommendedBounds(functionName, dimensions);
    forall i | 0 <= i < |b.items|
      ensures PsoValidation.BoundOk(b.items[i])
    {
      var rb := RecommendedBound(functionName);
      assert b.items[i] == PTuple([PFloat(rb.0), PFloat(rb.1)]);
    }
  }
}
