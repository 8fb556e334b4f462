/** `run_sa`, the sandbox's simulated annealing.

    `After(k)` is the state after `k` iterations, defined step by step;
    `Run` is the loop itself, proved to end in `After(maxIterations)`.  The
    draws of iteration `t` are `noise(t, d)` for the neighbour and
    `accept(t, delta, temperature)`, which stands for the Metropolis test
    `np.random.rand() < np.exp(-delta / temperature)`. */
module SandboxSa {
  import opened SearchSpace
  import opened PyValues
  import opened Sandbox

  /** The values `params.get` falls back on. */
  const DefaultMaxIterations := 1000
  const DefaultInitialTemperature := 100.0
  const DefaultCoolingRate := 0.95

  /** `base ** k` for a natural exponent. */
  function Power(base: real, k: nat): real {
    if k == 0 then 1.0 else Power(base, k - 1) * base
  }

  /** The loop's variables between iterations. */
  datatype Annealing = Annealing(
    current: Vec,
    currentFit: real,
    best: Vec,
    bestFit: real,
    temperature: real,
    history: seq<real>)

  /** `current + np.random.uniform(-1, 1, dims)`, clipped. */
  function Neighbour(x: Vec, noise: (nat, nat) -> real, t: nat, lb: real, ub: real): (y: Vec)
    ensures |y| == |x|
    ensures lb <= ub ==> InBox(y, |x|, lb, ub)
  {
    ClipBox(Add(x, seq(|x|, d requires 0 <= d < |x| => Uniform(-1.0, 1.0, noise(t, d)))), lb, ub)
  }

  /** The state before the first iteration: one drawn point, which is also the
      best, at the initial temperature. */
  function Start(fitness: Vec -> real, dims: nat, lb: real, ub: real, startDraw: (nat, nat) -> real, t0: real): Annealing
    requires forall j, d :: 0.0 <= startDraw(j, d) < 1.0
  {
    var x := BoxPoint(dims, lb, ub, startDraw, 0);
    Annealing(x, fitness(x), x, fitness(x), t0, [fitness(x)])
  }

  /** Iteration `t`: a strictly better neighbour is always taken, a worse one
      when the Metropolis test passes; the best moves only with an accepted,
      strictly better current; the temperature cools; every tenth iteration,
      from the first, records the best. */
  function Step(fitness: Vec -> real, s: Annealing, t: nat, noise: (nat, nat) -> real,
                accept: (nat, real, real) -> bool, rate: real, lb: real, ub: real): (s': Annealing)
    ensures fitness(Neighbour(s.current, noise, t, lb, ub)) < s.currentFit ==> s'.current == Neighbour(s.current, noise, t, lb, ub)
    ensures s'.current == s.current || s'.current == Neighbour(s.current, noise, t, lb, ub)
    ensures s'.bestFit <= s.bestFit
    ensures s'.bestFit < s.bestFit ==> s'.best == s'.current && s'.bestFit == s'.currentFit && s'.current == Neighbour(s.current, noise, t, lb, ub)
    ensures s'.bestFit == s.bestFit ==> s'.best == s.best
    ensures s'.temperature == s.temperature * rate
    ensures s'.history == if t % 10 == 0 then s.history + [s'.bestFit] else s.history
  {
    var y := Neighbour(s.current, noise, t, lb, ub);
    var delta := fitness(y) - s.currentFit;
    var taken := delta < 0.0 || accept(t, delta, s.temperature);
    var current, currentFit := if taken then y else s.current, if taken then fitness(y) else s.currentFit;
    var improved := taken && currentFit < s.bestFit;
    var best, bestFit := if improved then current else s.best, if improved then currentFit else s.bestFit;
    var history := if t % 10 == 0 then s.history + [bestFit] else s.history;
    Annealing(current, currentFit, best, bestFit, s.temperature * rate, history)
  }

  /** The state after `k` iterations. */
  function After(fitness: Vec -> real, dims: nat, lb: real, ub: real, startDraw: (nat, nat) -> real, t0: real,
                 noise: (nat, nat) -> real, accept: (nat, real, real) -> bool, rate: real, k: nat): Annealing
    requires forall j, d :: 0.0 <= startDraw(j, d) < 1.0
  {
    if k == 0 then Start(fitness, dims, lb, ub, startDraw, t0)
    else Step(fitness, After(fitness, dims, lb, ub, startDraw, t0, noise, accept, rate, k - 1), k - 1, noise, accept, rate, lb, ub)
  }

  /** After `k` iterations the temperature is `t0 * rate^k`. */
  lemma {:induction false} TemperatureAfter(fitness: Vec -> real, dims: nat, lb: real, ub: real, startDraw: (nat, nat) -> real,
                                            t0: real, noise: (nat, nat) -> real, accept: (nat, real, real) -> bool, rate: real, k: nat)
    requires forall j, d :: 0.0 <= startDraw(j, d) < 1.0
    ensures After(fitness, dims, lb, ub, startDraw, t0, noise, accept, rate, k).temperature == t0 * Power(rate, k)
  {
    if k > 0 {
      TemperatureAfter(fitness, dims, lb, ub, startDraw, t0, noise, accept, rate, k - 1);
      assert t0 * Power(rate, k - 1) * rate == t0 * Power(rate, k);
    }
  }

  /** After `k` iterations the history holds the start plus one entry per
      multiple of ten below `k`, and it never rises. */
  lemma {:induction false} HistoryAfter(fitness: Vec -> real, dims: nat, lb: real, ub: real, startDraw: (nat, nat) -> real,
                                        t0: real, noise: (nat, nat) -> real, accept: (nat, real, real) -> bool, rate: real, k: nat)
    requires forall j, d :: 0.0 <= startDraw(j, d) < 1.0
    ensures var s := After(fitness, dims, lb, ub, startDraw, t0, noise, accept, rate, k);
            && |s.history| == 1 + (k + 9) / 10
            && Improving(Minimize, s.history)
            && s.bestFit <= s.history[|s.history| - 1]
  {
    if k > 0 {
      var p := After(fitness, dims, lb, ub, startDraw, t0, noise, accept, rate, k - 1);
      HistoryAfter(fitness, dims, lb, ub, startDraw, t0, noise, accept, rate, k - 1);
      var s := Step(fitness, p, k - 1, noise, accept, rate, lb, ub);
      if (k - 1) % 10 == 0 {
        ImprovingAppend(Minimize, p.history, s.bestFit);
      }
    }
  }

  /** After `k` iterations the best is the objective at a point of the box,
      no worse than the current point nor than the start. */
  lemma {:induction false} BestAfter(fitness: Vec -> real, dims: nat, lb: real, ub: real, startDraw: (nat, nat) -> real,
                                     t0: real, noise: (nat, nat) -> real, accept: (nat, real, real) -> bool, rate: real, k: nat)
    requires forall j, d :: 0.0 <= startDraw(j, d) < 1.0
    ensures var s := After(fitness, dims, lb, ub, startDraw, t0, noise, accept, rate, k);
            && s.bestFit <= s.currentFit && s.bestFit == fitness(s.best) && s.currentFit == fitness(s.current)
            && s.bestFit <= fitness(BoxPoint(dims, lb, ub, startDraw, 0))
            && |s.current| == dims && |s.best| == dims
            && (lb <= ub ==> InBox(s.current, dims, lb, ub) && InBox(s.best, dims, lb, ub))
  {
    if k > 0 {
      BestAfter(fitness, dims, lb, ub, startDraw, t0, noise, accept, rate, k - 1);
    }
  }

  /** The body of `run_sa`'s loop: iteration `t` on the loop's variables. */
  method Iterate(fitness: Vec -> real, before: Annealing, t: nat, noise: (nat, nat) -> real,
                 accept: (nat, real, real) -> bool, rate: real, lb: real, ub: real) returns (after: Annealing)
    ensures after == Step(fitness, before, t, noise, accept, rate, lb, ub)
  {
    var current, currentFit, best, bestFit := before.current, before.currentFit, before.best, before.bestFit;
    var history := before.history;
    var neighbour := Neighbour(current, noise, t, lb, ub);
    var neighbourFit := fitness(neighbour);
    var delta := neighbourFit - currentFit;
    if delta < 0.0 || accept(t, delta, before.temperature) {
      current, currentFit := neighbour, neighbourFit;
      if currentFit < bestFit {
        best, bestFit := current, currentFit;
      }
    }
    var temperature := before.temperature * rate;
    if t % 10 == 0 {
      history := history + [bestFit];
    }
    after := Annealing(current, currentFit, best, bestFit, temperature, history);
  }

  /** `run_sa`. */
  method Run(fitness: Vec -> real, dims: nat, lb: real, ub: real,
             maxIterations: nat, t0: real, rate: real,
             startDraw: (nat, nat) -> real, noise: (nat, nat) -> real, accept: (nat, real, real) -> bool)
    returns (r: RunResult)
    requires forall j, d :: 0.0 <= startDraw(j, d) < 1.0
    ensures var s := After(fitness, dims, lb, ub, startDraw, t0, noise, accept, rate, maxIterations);
            r == RunResult(s.best, s.bestFit, maxIterations, s.history)
    ensures r.iterations == maxIterations && |r.history| == 1 + (maxIterations + 9) / 10
    ensures Improving(Minimize, r.history) && r.bestFitness <= r.history[|r.history| - 1]
    ensures r.bestFitness == fitness(r.bestSolution) && r.bestFitness <= fitness(BoxPoint(dims, lb, ub, startDraw, 0))
    ensures lb <= ub ==> InBox(r.bestSolution, dims, lb, ub)
  {
    var current := BoxPoint(dims, lb, ub, startDraw, 0);
    var fit := fitness(current);
    var state := Annealing(current, fit, current, fit, t0, [fit]);
    for t := 0 to maxIterations
      invariant state == After(fitness, dims, lb, ub, startDraw, t0, noise, accept, rate, t)
    {
      state := Iterate(fitness, state, t, noise, accept, rate, lb, ub);
    }
    HistoryAfter(fitness, dims, lb, ub, startDraw, t0, noise, accept, rate, maxIterations);
    BestAfter(fitness, dims, lb, ub, startDraw, t0, noise, accept, rate, maxIterations);
    r := RunResult(state.best, state.bestFit, maxIterations, state.history);
  }
}
