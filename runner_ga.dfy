/** `run_ga`, the sandbox's genetic algorithm.

    Each generation builds a new population in three passes over one array:
    binary tournaments, arithmetic crossover of neighbouring pairs, and
    uniform mutation followed by a clip.  The draws of generation `t` are
    `picks(t, j)` (the two distinct contestants of tournament `j`),
    `crossDraw(t, i)` and `alphaDraw(t, i)` (pair starting at `i`),
    `mutDraw(t, i)` and `noise(t, i, d)` (individual `i`). */
module SandboxGa {
  import opened SearchSpace
  import opened PyValues
  import opened Sandbox

  /** The values `params.get` falls back on. */
  const DefaultPopulation := 50
  const DefaultGenerations := 100
  const DefaultMutationRate := 0.1
  const DefaultCrossoverRate := 0.8

  // ------------------------------------------------------------- selection

  /** The binary tournament: the first contestant wins only when it is
      strictly fitter, so a tie goes to the second. */
  function Winner(fit: seq<real>, pair: (nat, nat)): (w: nat)
    requires pair.0 < |fit| && pair.1 < |fit|
    ensures w == pair.0 || w == pair.1
    ensures fit[w] <= fit[pair.0] && fit[w] <= fit[pair.1]
    ensures fit[pair.0] == fit[pair.1] ==> w == pair.1
  {
    if fit[pair.0] < fit[pair.1] then pair.0 else pair.1
  }

  /** `np.random.choice(n, 2, replace=False)` for every tournament. */
  ghost predicate PairsOk(picks: (nat, nat) -> (nat, nat), n: nat) {
    forall t, j :: picks(t, j).0 < n && picks(t, j).1 < n && picks(t, j).0 != picks(t, j).1
  }

  /** The mating pool of generation `t`: a copy of each tournament's winner. */
  function Selected(pop: seq<Vec>, fit: seq<real>, picks: (nat, nat) -> (nat, nat), t: nat): (s: seq<Vec>)
    requires |fit| == |pop| && PairsOk(picks, |pop|)
    ensures |s| == |pop|
    ensures forall j :: 0 <= j < |s| ==> s[j] in pop
  {
    seq(|pop|, j requires 0 <= j < |pop| => pop[Winner(fit, picks(t, j))])
  }

  /** The tournament loop fills a fresh array with the winners. */
  method Select(pop: seq<Vec>, fit: seq<real>, picks: (nat, nat) -> (nat, nat), t: nat) returns (pool: array<Vec>)
    requires |fit| == |pop| && PairsOk(picks, |pop|)
    ensures fresh(pool) && pool[..] == Selected(pop, fit, picks, t)
  {
    pool := new Vec[|pop|];
    for j := 0 to |pop|
      invariant forall k :: 0 <= k < j ==> pool[k] == pop[Winner(fit, picks(t, k))]
    {
      pool[j] := pop[Winner(fit, picks(t, j))];
    }
  }

  // ------------------------------------------------------------- crossover

  /** `alpha * x + (1 - alpha) * y` */
  function Blend(alpha: real, x: Vec, y: Vec): (r: Vec)
    requires |x| == |y|
    ensures |r| == |x|
  {
    seq(|x|, d requires 0 <= d < |x| => alpha * x[d] + (1.0 - alpha) * y[d])
  }

  /** A convex combination of two numbers in `[lo, hi]` stays in `[lo, hi]`. */
  lemma ConvexStaysIn(alpha: real, a: real, b: real, lo: real, hi: real)
    requires 0.0 <= alpha <= 1.0 && lo <= a <= hi && lo <= b <= hi
    ensures lo <= alpha * a + (1.0 - alpha) * b <= hi
  {
    var beta := 1.0 - alpha;
    var x := alpha * a + beta * b;
    assert x - lo == alpha * (a - lo) + beta * (b - lo);
    assert hi - x == alpha * (hi - a) + beta * (hi - b);
    NonNegativeProduct(alpha, a - lo);
    NonNegativeProduct(beta, b - lo);
    NonNegativeProduct(alpha, hi - a);
    NonNegativeProduct(beta, hi - b);
  }

  lemma NonNegativeProduct(x: real, y: real)
    requires x >= 0.0 && y >= 0.0
    ensures x * y >= 0.0
  {
  }

  lemma BlendInBox(alpha: real, x: Vec, y: Vec, dims: nat, lb: real, ub: real)
    requires 0.0 <= alpha <= 1.0 && InBox(x, dims, lb, ub) && InBox(y, dims, lb, ub)
    ensures InBox(Blend(alpha, x, y), dims, lb, ub)
  {
    forall d | 0 <= d < dims
      ensures lb <= Blend(alpha, x, y)[d] <= ub
    {
      ConvexStaysIn(alpha, x[d], y[d], lb, ub);
    }
  }

  /** The pair update as written: the second child blends the second parent
      with the FIRST CHILD, which the line before has already overwritten. */
  function CrossPair(a: Vec, b: Vec, alpha: real): (c: (Vec, Vec))
    requires |a| == |b|
    ensures |c.0| == |a| && |c.1| == |a|
  {
    var first := Blend(alpha, a, b);
    (first, Blend(alpha, b, first))
  }

  /** Both children are convex combinations of the parents, so a pair inside
      the box stays inside it. */
  lemma CrossPairInBox(a: Vec, b: Vec, alpha: real, dims: nat, lb: real, ub: real)
    requires 0.0 <= alpha <= 1.0 && InBox(a, dims, lb, ub) && InBox(b, dims, lb, ub)
    ensures InBox(CrossPair(a, b, alpha).0, dims, lb, ub) && InBox(CrossPair(a, b, alpha).1, dims, lb, ub)
  {
    BlendInBox(alpha, a, b, dims, lb, ub);
    BlendInBox(alpha, b, Blend(alpha, a, b), dims, lb, ub);
  }

  /** The crossover loop `for i in range(0, n - 1, 2)` from pair `i` on. */
  function CrossFrom(s: seq<Vec>, dims: nat, i: nat, cr: real, crossDraw: (nat, nat) -> real, alphaDraw: (nat, nat) -> real, t: nat): (r: seq<Vec>)
    requires Rows(s, dims)
    ensures |r| == |s| && Rows(r, dims)
    decreases |s| - i
  {
    if i + 1 >= |s| then s
    else
      var c := if crossDraw(t, i) < cr then CrossPair(s[i], s[i + 1], alphaDraw(t, i)) else (s[i], s[i + 1]);
      CrossFrom(s[i := c.0][i + 1 := c.1], dims, i + 2, cr, crossDraw, alphaDraw, t)
  }

  /** Crossover keeps the pool inside the box, and never touches an individual
      before `i`. */
  lemma {:induction false} CrossFromProperties(s: seq<Vec>, i: nat, cr: real, crossDraw: (nat, nat) -> real,
                                               alphaDraw: (nat, nat) -> real, t: nat, dims: nat, lb: real, ub: real)
    requires Rows(s, dims)
    requires forall u, k :: 0.0 <= alphaDraw(u, k) < 1.0
    ensures forall k :: 0 <= k < i && k < |s| ==> CrossFrom(s, dims, i, cr, crossDraw, alphaDraw, t)[k] == s[k]
    ensures AllInBox(s, dims, lb, ub) ==> AllInBox(CrossFrom(s, dims, i, cr, crossDraw, alphaDraw, t), dims, lb, ub)
    decreases |s| - i
  {
    if i + 1 < |s| {
      var c := if crossDraw(t, i) < cr then CrossPair(s[i], s[i + 1], alphaDraw(t, i)) else (s[i], s[i + 1]);
      var s' := s[i := c.0][i + 1 := c.1];
      if AllInBox(s, dims, lb, ub) && crossDraw(t, i) < cr {
        CrossPairInBox(s[i], s[i + 1], alphaDraw(t, i), dims, lb, ub);
      }
      CrossFromProperties(s', i + 2, cr, crossDraw, alphaDraw, t, dims, lb, ub);
    }
  }

  /** The crossover loop over the pool, in place. */
  method Crossover(pool: array<Vec>, dims: nat, cr: real, crossDraw: (nat, nat) -> real, alphaDraw: (nat, nat) -> real, t: nat)
    requires Rows(pool[..], dims)
    modifies pool
    ensures pool[..] == CrossFrom(old(pool[..]), dims, 0, cr, crossDraw, alphaDraw, t)
  {
    var i := 0;
    while i + 1 < pool.Length
      invariant Rows(pool[..], dims)
      invariant CrossFrom(pool[..], dims, i, cr, crossDraw, alphaDraw, t) == CrossFrom(old(pool[..]), dims, 0, cr, crossDraw, alphaDraw, t)
      decreases pool.Length - i
    {
      ghost var before := pool[..];
      if crossDraw(t, i) < cr {
        var alpha := alphaDraw(t, i);
        var first := Blend(alpha, pool[i], pool[i + 1]);
        pool[i] := first;
        pool[i + 1] := Blend(alpha, pool[i + 1], first);
        assert pool[..] == before[i := CrossPair(before[i], before[i + 1], alpha).0][i + 1 := CrossPair(before[i], before[i + 1], alpha).1];
      } else {
        assert pool[..] == before[i := before[i]][i + 1 := before[i + 1]];
      }
      i := i + 2;
    }
  }

  // -------------------------------------------------------------- mutation

  /** `np.random.uniform(-0.5, 0.5, dims)` from the draws `noise(t, i, d)`. */
  function Noise(dims: nat, noise: (nat, nat, nat) -> real, t: nat, i: nat): (r: Vec)
    ensures |r| == dims
  {
    seq(dims, d requires 0 <= d < dims => Uniform(-0.5, 0.5, noise(t, i, d)))
  }

  /** The mutation pass: a mutated individual is shifted and then clipped; the
      others are left exactly as they are, and NOT clipped. */
  function Mutated(s: seq<Vec>, rate: real, mutDraw: (nat, nat) -> real, noise: (nat, nat, nat) -> real,
                   t: nat, lb: real, ub: real): (r: seq<Vec>)
    ensures |r| == |s|
    ensures forall i :: 0 <= i < |s| && !(mutDraw(t, i) < rate) ==> r[i] == s[i]
    ensures lb <= ub ==> forall i :: 0 <= i < |s| && mutDraw(t, i) < rate ==> InBox(r[i], |s[i]|, lb, ub)
  {
    seq(|s|, i requires 0 <= i < |s| =>
      if mutDraw(t, i) < rate then ClipBox(Add(s[i], Noise(|s[i]|, noise, t, i)), lb, ub) else s[i])
  }

  /** With rate zero no draw falls below it and mutation is the identity. */
  lemma MutatedZeroRate(s: seq<Vec>, mutDraw: (nat, nat) -> real, noise: (nat, nat, nat) -> real, t: nat, lb: real, ub: real)
    requires forall u, i :: 0.0 <= mutDraw(u, i)
    ensures Mutated(s, 0.0, mutDraw, noise, t, lb, ub) == s
  {
  }

  /** The mutation loop over the pool, in place. */
  method Mutate(pool: array<Vec>, rate: real, mutDraw: (nat, nat) -> real, noise: (nat, nat, nat) -> real,
                t: nat, lb: real, ub: real)
    modifies pool
    ensures pool[..] == Mutated(old(pool[..]), rate, mutDraw, noise, t, lb, ub)
  {
    for i := 0 to pool.Length
      invariant forall k :: i <= k < pool.Length ==> pool[k] == old(pool[k])
      invariant forall k :: 0 <= k < i ==> pool[k] == Mutated(old(pool[..]), rate, mutDraw, noise, t, lb, ub)[k]
    {
      if mutDraw(t, i) < rate {
        pool[i] := ClipBox(Add(pool[i], Noise(|pool[i]|, noise, t, i)), lb, ub);
      }
    }
  }

  // ------------------------------------------------------------ generation

  /** What one generation turns the population into. */
  function Offspring(pop: seq<Vec>, fit: seq<real>, picks: (nat, nat) -> (nat, nat), cr: real, mr: real,
                     crossDraw: (nat, nat) -> real, alphaDraw: (nat, nat) -> real,
                     mutDraw: (nat, nat) -> real, noise: (nat, nat, nat) -> real, t: nat,
                     dims: nat, lb: real, ub: real): (r: seq<Vec>)
    requires |fit| == |pop| && PairsOk(picks, |pop|) && Rows(pop, dims)
  {
    var pool := Selected(pop, fit, picks, t);
    Mutated(CrossFrom(pool, dims, 0, cr, crossDraw, alphaDraw, t), mr, mutDraw, noise, t, lb, ub)
  }

  /** A generation yields exactly one child per parent, and a population inside
      the box stays inside it. */
  lemma OffspringProperties(pop: seq<Vec>, fit: seq<real>, picks: (nat, nat) -> (nat, nat), cr: real, mr: real,
                            crossDraw: (nat, nat) -> real, alphaDraw: (nat, nat) -> real,
                            mutDraw: (nat, nat) -> real, noise: (nat, nat, nat) -> real, t: nat,
                            dims: nat, lb: real, ub: real)
    requires |fit| == |pop| && PairsOk(picks, |pop|) && Rows(pop, dims)
    requires forall u, k :: 0.0 <= alphaDraw(u, k) < 1.0
    ensures |Offspring(pop, fit, picks, cr, mr, crossDraw, alphaDraw, mutDraw, noise, t, dims, lb, ub)| == |pop|
    ensures Rows(Offspring(pop, fit, picks, cr, mr, crossDraw, alphaDraw, mutDraw, noise, t, dims, lb, ub), dims)
    ensures lb <= ub && AllInBox(pop, dims, lb, ub) ==>
              AllInBox(Offspring(pop, fit, picks, cr, mr, crossDraw, alphaDraw, mutDraw, noise, t, dims, lb, ub), dims, lb, ub)
  {
    var pool := Selected(pop, fit, picks, t);
    CrossFromProperties(pool, 0, cr, crossDraw, alphaDraw, t, dims, lb, ub);
    var crossed := CrossFrom(pool, dims, 0, cr, crossDraw, alphaDraw, t);
    assert forall k :: 0 <= k < |crossed| && !(mutDraw(t, k) < mr) ==> Mutated(crossed, mr, mutDraw, noise, t, lb, ub)[k] == crossed[k];
  }

  /** One generation of the loop, on a fresh array. */
  method Generation(pop: seq<Vec>, fit: seq<real>, picks: (nat, nat) -> (nat, nat), cr: real, mr: real,
                    crossDraw: (nat, nat) -> real, alphaDraw: (nat, nat) -> real,
                    mutDraw: (nat, nat) -> real, noise: (nat, nat, nat) -> real, t: nat,
                    dims: nat, lb: real, ub: real)
    returns (next: seq<Vec>)
    requires |fit| == |pop| && PairsOk(picks, |pop|) && Rows(pop, dims)
    ensures next == Offspring(pop, fit, picks, cr, mr, crossDraw, alphaDraw, mutDraw, noise, t, dims, lb, ub)
  {
    var pool := Select(pop, fit, picks, t);
    Crossover(pool, dims, cr, crossDraw, alphaDraw, t);
    Mutate(pool, mr, mutDraw, noise, t, lb, ub);
    next := pool[..];
  }

  /** The best-so-far update after a generation: the generation's argmin
      replaces the best only when strictly lower. */
  function KeepBest(best: Vec, bestFit: real, pop: seq<Vec>, fit: seq<real>): (r: (Vec, real))
    requires |pop| == |fit| > 0
    ensures r.1 <= bestFit && forall j :: 0 <= j < |fit| ==> r.1 <= fit[j]
    ensures r.1 < bestFit ==> exists j :: 0 <= j < |fit| && r == (pop[j], fit[j])
    ensures r.1 == bestFit ==> r.0 == best
  {
    var k := ArgBest(Minimize, fit);
    if fit[k] < bestFit then (pop[k], fit[k]) else (best, bestFit)
  }

  /** `run_ga`.  An empty population makes `np.argmin` raise; a population of
      one makes the first tournament's `np.random.choice(1, 2, replace=False)`
      raise. */
  method Run(fitness: Vec -> real, dims: nat, lb: real, ub: real,
             populationSize: nat, maxGenerations: nat, mutationRate: real, crossoverRate: real,
             posDraw: (nat, nat) -> real, picks: (nat, nat) -> (nat, nat),
             crossDraw: (nat, nat) -> real, alphaDraw: (nat, nat) -> real,
             mutDraw: (nat, nat) -> real, noise: (nat, nat, nat) -> real)
    returns (r: Outcome<RunResult>)
    requires forall j, d :: 0.0 <= posDraw(j, d) < 1.0
    requires populationSize >= 2 ==> PairsOk(picks, populationSize)
    requires forall u, k :: 0.0 <= alphaDraw(u, k) < 1.0
    ensures r.Raises? <==> populationSize == 0 || (populationSize == 1 && maxGenerations >= 1)
    ensures r.Raises? ==> r.error == ValueError(if populationSize == 0 then EmptyArgmin else SampleTooLarge)
    ensures r.Returns? ==>
              && r.value.iterations == maxGenerations
              && |r.value.history| == maxGenerations + 1
              && Improving(Minimize, r.value.history)
              && r.value.bestFitness == r.value.history[maxGenerations]
              && r.value.bestFitness == fitness(r.value.bestSolution)
              && (forall i :: 0 <= i < populationSize ==> r.value.bestFitness <= fitness(BoxPoint(dims, lb, ub, posDraw, i)))
              && |r.value.bestSolution| == dims
              && (lb <= ub ==> InBox(r.value.bestSolution, dims, lb, ub))
  {
    var n := populationSize;
    if n == 0 {
      return Raises(ValueError(EmptyArgmin));
    }
    if n == 1 && maxGenerations >= 1 {
      return Raises(ValueError(SampleTooLarge));
    }
    var pop := BoxPoints(n, dims, lb, ub, posDraw);
    var fit := Scores(fitness, pop);
    var k := ArgBest(Minimize, fit);
    var best, bestFit := pop[k], fit[k];
    var history := [bestFit];
    assert forall i :: 0 <= i < n ==> history[0] <= fit[i] && pop[i] == BoxPoint(dims, lb, ub, posDraw, i);
    for t := 0 to maxGenerations
      invariant |pop| == |fit| == n && fit == Scores(fitness, pop)
      invariant Rows(pop, dims)
      invariant lb <= ub ==> AllInBox(pop, dims, lb, ub) && InBox(best, dims, lb, ub)
      invariant |best| == dims && bestFit == fitness(best)
      invariant |history| == t + 1 && history[t] == bestFit && Improving(Minimize, history)
      invariant forall i :: 0 <= i < n ==> history[0] <= fitness(BoxPoint(dims, lb, ub, posDraw, i))
    {
      OffspringProperties(pop, fit, picks, crossoverRate, mutationRate, crossDraw, alphaDraw, mutDraw, noise, t, dims, lb, ub);
      pop := Generation(pop, fit, picks, crossoverRate, mutationRate, crossDraw, alphaDraw, mutDraw, noise, t, dims, lb, ub);
      fit := Scores(fitness, pop);
      var kept := KeepBest(best, bestFit, pop, fit);
      best, bestFit := kept.0, kept.1;
      ImprovingAppend(Minimize, history, bestFit);
      history := history + [bestFit];
    }
    return Returns(RunResult(best, bestFit, maxGenerations, history));
  }
}
