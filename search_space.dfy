/** The search space every optimiser works in: bounds, the objective's
    direction, the strict "is better" comparator, numpy's `clip` and `argmin` /
    `argmax`, uniform draws, and the checked call of the fitness function. */
module SearchSpace {
  import opened PyValues

  type Vec = seq<real>

  datatype Objective = Minimize | Maximize

  datatype Bound = Bound(lower: real, upper: real)

  /** A validated problem: what the engines keep after `_validate_problem_schema`. */
  datatype Problem = Problem(
    dimensions: nat,
    bounds: seq<Bound>,
    objective: Objective,
    fitness: Vec -> FitnessValue)

  predicate ValidBounds(bounds: seq<Bound>) {
    forall d :: 0 <= d < |bounds| ==> bounds[d].lower < bounds[d].upper
  }

  predicate WellFormed(p: Problem) {
    p.dimensions > 0 && |p.bounds| == p.dimensions && ValidBounds(p.bounds)
  }

  /** Every coordinate of `x` lies within its dimension's closed bound. */
  predicate InBounds(x: Vec, bounds: seq<Bound>) {
    |x| == |bounds| &&
    forall d :: 0 <= d < |x| ==> bounds[d].lower <= x[d] <= bounds[d].upper
  }

  /** `_is_better`: strictly better in the objective's direction. */
  predicate IsBetter(obj: Objective, newFitness: real, oldFitness: real) {
    if obj == Minimize then newFitness < oldFitness else newFitness > oldFitness
  }

  /** The comparator is strict: a value is never better than itself, and of two
      different values exactly one is better. */
  lemma IsBetterStrict(obj: Objective, a: real, b: real)
    ensures !IsBetter(obj, a, a)
    ensures a != b ==> (IsBetter(obj, a, b) <==> !IsBetter(obj, b, a))
    ensures IsBetter(obj, a, b) <==> (if obj == Minimize then a < b else a > b)
  {
  }

  /** A convergence trace that never regresses: every later entry is at least as
      good as every earlier one. */
  predicate Improving(obj: Objective, curve: seq<real>) {
    forall i, j :: 0 <= i <= j < |curve| ==> !IsBetter(obj, curve[i], curve[j])
  }

  /** Appending a value at least as good as the last entry keeps a trace improving. */
  lemma {:induction false} ImprovingAppend(obj: Objective, curve: seq<real>, x: real)
    requires Improving(obj, curve)
    requires |curve| > 0 ==> !IsBetter(obj, curve[|curve| - 1], x)
    ensures Improving(obj, curve + [x])
  {
    var c := curve + [x];
    forall i, j | 0 <= i <= j < |c|
      ensures !IsBetter(obj, c[i], c[j])
    {
      if j == |curve| && i < j {
        assert !IsBetter(obj, curve[i], curve[|curve| - 1]);
      }
    }
  }

  /** `np.argmin` (minimise) or `np.argmax` (maximise): the FIRST index holding
      the best value. */
  function ArgBest(obj: Objective, s: seq<real>): (k: nat)
    requires |s| > 0
    ensures k < |s|
    ensures forall j :: 0 <= j < |s| ==> !IsBetter(obj, s[j], s[k])
    ensures forall j :: 0 <= j < k ==> IsBetter(obj, s[k], s[j])
  {
    if |s| == 1 then 0
    else
      var k := ArgBest(obj, s[..|s| - 1]);
      if IsBetter(obj, s[|s| - 1], s[k]) then |s| - 1 else k
  }

  /** `np.clip(x, lo, hi)`, i.e. `minimum(maximum(x, lo), hi)`. */
  function Clip(x: real, lo: real, hi: real): (r: real)
    ensures lo <= hi ==> lo <= r <= hi
    ensures lo <= x <= hi ==> r == x
    ensures x < lo && lo <= hi ==> r == lo
    ensures x > hi ==> r == hi
  {
    var raised := if x < lo then lo else x;
    if raised > hi then hi else raised
  }

  /** Coordinate-wise clip of `x` to `bounds`. */
  function ClipToBounds(x: Vec, bounds: seq<Bound>): (r: Vec)
    requires |x| == |bounds|
    ensures |r| == |x|
    ensures ValidBounds(bounds) ==> InBounds(r, bounds)
  {
    seq(|x|, d requires 0 <= d < |x| => Clip(x[d], bounds[d].lower, bounds[d].upper))
  }

  /** Clipping lands in the bounds, leaves in-range coordinates alone, and is
      therefore idempotent. */
  lemma ClipToBoundsProperties(x: Vec, bounds: seq<Bound>)
    requires |x| == |bounds| && ValidBounds(bounds)
    ensures InBounds(ClipToBounds(x, bounds), bounds)
    ensures forall d :: 0 <= d < |x| && bounds[d].lower <= x[d] <= bounds[d].upper ==>
              ClipToBounds(x, bounds)[d] == x[d]
    ensures InBounds(x, bounds) ==> ClipToBounds(x, bounds) == x
    ensures ClipToBounds(ClipToBounds(x, bounds), bounds) == ClipToBounds(x, bounds)
  {
  }

  /** `_apply_bounds` of the swarm and the genetic algorithm: clip a copy of the
      vector coordinate by coordinate. */
  method ApplyBounds(x: Vec, bounds: seq<Bound>) returns (r: Vec)
    requires |x| == |bounds| && ValidBounds(bounds)
    ensures InBounds(r, bounds)
    ensures forall d :: 0 <= d < |x| && bounds[d].lower <= x[d] <= bounds[d].upper ==> r[d] == x[d]
    ensures r == ClipToBounds(x, bounds)
  {
    r := x;
    var d := 0;
    while d < |x|
      invariant 0 <= d <= |x| && |r| == |x|
      invariant forall e :: 0 <= e < d ==> r[e] == Clip(x[e], bounds[e].lower, bounds[e].upper)
      invariant forall e :: d <= e < |x| ==> r[e] == x[e]
    {
      r := r[d := Clip(x[d], bounds[d].lower, bounds[d].upper)];
      d := d + 1;
    }
    ClipToBoundsProperties(x, bounds);
  }

  /** `np.random.uniform(lo, hi)` written as numpy computes it from a draw
      `u` in [0, 1). */
  function Uniform(lo: real, hi: real, u: real): (r: real)
    ensures lo <= hi && 0.0 <= u < 1.0 ==> lo <= r <= hi
    ensures lo < hi && 0.0 <= u < 1.0 ==> r < hi
  {
    var width := hi - lo;
    ScaledDrawRange(width, u);
    lo + width * u
  }

  lemma ScaledDrawRange(width: real, u: real)
    ensures width >= 0.0 && 0.0 <= u < 1.0 ==> 0.0 <= width * u <= width
    ensures width > 0.0 && 0.0 <= u < 1.0 ==> width * u < width
  {
    if width >= 0.0 && 0.0 <= u < 1.0 {
      assert width * (1.0 - u) >= 0.0;
      if width > 0.0 {
        assert width * (1.0 - u) > 0.0;
      }
    }
  }

  /** A vector drawn uniformly inside `bounds`, one draw per coordinate. */
  function UniformVec(bounds: seq<Bound>, u: nat -> real): (r: Vec)
    requires forall d :: 0.0 <= u(d) < 1.0
    ensures ValidBounds(bounds) ==> InBounds(r, bounds)
  {
    var r := seq(|bounds|, d requires 0 <= d < |bounds| => Uniform(bounds[d].lower, bounds[d].upper, u(d)));
    assert forall d :: 0 <= d < |r| ==> r[d] == Uniform(bounds[d].lower, bounds[d].upper, u(d));
    r
  }

  /** `_evaluate`: call the objective and reject anything but a finite number. */
  function Evaluate(fitness: Vec -> FitnessValue, x: Vec): (r: Outcome<real>)
    ensures r.Returns? <==> fitness(x).Finite?
    ensures r.Returns? ==> r.value == fitness(x).value
    ensures r.Raises? ==> r.error.RuntimeError?
  {
    match fitness(x)
    case Finite(v) => Returns(v)
    case NaN => Raises(RuntimeError(EvaluationFailed + ": " + InvalidValue + "nan"))
    case Infinite => Raises(RuntimeError(EvaluationFailed + ": " + InvalidValue + "inf"))
    case NonNumeric => Raises(RuntimeError(EvaluationFailed + ": " + NotNumeric))
    case Raised => Raises(RuntimeError(EvaluationFailed))
  }

  const EvaluationFailed := "Error evaluating fitness function"
  const InvalidValue := "Fitness function returned invalid value: "
  const NotNumeric := "Fitness function must return a numeric value"

  /** The number of iterations a loop `for t in range(maxIterations)` completes
      when it breaks at the first `t` whose timeout check fires. */
  function CompletedIterations(maxIterations: nat, timedOut: nat -> bool, t: nat): (c: nat)
    requires t <= maxIterations
    ensures t <= c <= maxIterations
    ensures forall s :: t <= s < c ==> !timedOut(s)
    ensures c < maxIterations ==> timedOut(c)
    decreases maxIterations - t
  {
    if t == maxIterations || timedOut(t) then t else CompletedIterations(maxIterations, timedOut, t + 1)
  }

  /** Element-wise sum of two vectors. */
  function Add(x: Vec, y: Vec): (r: Vec)
    requires |x| == |y|
    ensures |r| == |x| && forall d :: 0 <= d < |x| ==> r[d] == x[d] + y[d]
  {
    seq(|x|, d requires 0 <= d < |x| => x[d] + y[d])
  }

  /** A loop that ran every iteration before `c` and stopped at `c`, either at
      the end or on a timeout, completed exactly `c` iterations. */
  lemma CompletedIterationsAt(maxIterations: nat, timedOut: nat -> bool, c: nat)
    requires c <= maxIterations
    requires forall s :: 0 <= s < c ==> !timedOut(s)
    requires c == maxIterations || timedOut(c)
    ensures CompletedIterations(maxIterations, timedOut, 0) == c
  {
  }

  /** `[_evaluate(x) for x in xs]`: scores every vector in order; the first one
      whose fitness is not finite raises. */
  function EvaluateAll(fitness: Vec -> FitnessValue, xs: seq<Vec>): (r: Outcome<seq<real>>)
    ensures r.Returns? <==> forall i :: 0 <= i < |xs| ==> fitness(xs[i]).Finite?
    ensures r.Returns? ==> |r.value| == |xs| && forall i :: 0 <= i < |xs| ==> fitness(xs[i]) == Finite(r.value[i])
    ensures r.Raises? ==> r.error.RuntimeError?
  {
    if xs == [] then Returns([])
    else
      match Evaluate(fitness, xs[0])
      case Raises(e) => Raises(e)
      case Returns(v) =>
        match EvaluateAll(fitness, xs[1..])
        case Raises(e) => Raises(e)
        case Returns(vs) => Returns([v] + vs)
  }

  /** Point `i` of a random start: one uniform draw `draw(i, d)` inside each
      dimension's bound. */
  function RandomPoint(bounds: seq<Bound>, draw: (nat, nat) -> real, i: nat): (x: Vec)
    requires forall j, d :: 0.0 <= draw(j, d) < 1.0
    ensures |x| == |bounds|
    ensures ValidBounds(bounds) ==> InBounds(x, bounds)
  {
    UniformVec(bounds, (d: nat) => draw(i, d))
  }

  /** What `np.random.choice(n, k, replace=False)` yields: `k` distinct indices
      below `n`. */
  predicate PicksOk(picks: seq<nat>, n: nat, k: nat) {
    && |picks| == k
    && (forall j :: 0 <= j < |picks| ==> picks[j] < n)
    && (forall j1, j2 :: 0 <= j1 < j2 < |picks| ==> picks[j1] != picks[j2])
  }
}
