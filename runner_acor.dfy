/** `run_acor`, the sandbox's ant colony optimiser for continuous domains.

    The archive is kept sorted by fitness.  Each iteration every ant picks an
    archive member, samples around it with a per-coordinate spread, and the
    archive is then merged with the new solutions and cut back to its size.
    The draws of iteration `t` are `select(t, ant)`, standing for
    `np.random.choice(archive_size, p=weights)`, and `gauss(t, ant, d)`, the
    standard normal draw behind `np.random.normal(0, sigma)`. */
module SandboxAcor {
  import opened SearchSpace
  import opened PyValues
  import opened Sandbox
  import opened ArgSorting

  /** The values `params.get` falls back on. */
  const DefaultAnts := 50
  const DefaultMaxIterations := 100
  const DefaultArchiveSize := 50
  const DefaultLocality := 0.5
  const DefaultSpread := 0.85

  /** `archive[0]` on an empty archive. */
  const EmptyArchive := "index 0 is out of bounds for axis 0 with size 0"
  /** The weight formula divides by `2 * q**2 * archive_size**2`. */
  const ZeroLocality := "float division by zero"
  /** What `np.random.normal` raises for a negative scale. */
  const NegativeScale := "scale < 0"

  /** The first `k` positions of a sorting permutation pick keys in ascending
      order, the first of them the smallest key of all. */
  lemma SortedPrefix(fits: seq<real>, order: seq<nat>, k: nat)
    requires |order| == |fits| && forall j :: 0 <= j < |order| ==> order[j] < |fits|
    requires (forall x :: 0 <= x < |fits| ==> x in order) && SortedBy(fits, order)
    requires 0 < k <= |order|
    ensures Ascending(Permute(fits, order[..k]))
    ensures forall x :: 0 <= x < |fits| ==> Permute(fits, order[..k])[0] <= fits[x]
  {
    forall x | 0 <= x < |fits| ensures fits[order[0]] <= fits[x] {
      assert x in order;
      var p :| 0 <= p < |order| && order[p] == x;
    }
  }

  /** The archive invariant: `k` members with `dims` coordinates, their
      fitness values in ascending order, and, for a proper box, every member
      inside it. */
  predicate ArchiveOk(fitness: Vec -> real, k: nat, dims: nat, lb: real, ub: real, archive: seq<Vec>, fits: seq<real>) {
    && |archive| == k && |fits| == k && Rows(archive, dims) && Ascending(fits)
    && (forall j :: 0 <= j < k ==> fits[j] == fitness(archive[j]))
    && (lb <= ub ==> AllInBox(archive, dims, lb, ub))
  }

  /** `archive[argsort(f)][:k]` with `f` the objective at every row: a valid
      archive whose head is no worse than any row. */
  function SortCut(fitness: Vec -> real, k: nat, dims: nat, lb: real, ub: real, xs: seq<Vec>): (r: (seq<Vec>, seq<real>))
    requires 0 < k <= |xs| && Rows(xs, dims) && (lb <= ub ==> AllInBox(xs, dims, lb, ub))
    ensures ArchiveOk(fitness, k, dims, lb, ub, r.0, r.1)
    ensures forall j :: 0 <= j < |xs| ==> r.1[0] <= fitness(xs[j])
  {
    var fits := Scores(fitness, xs);
    var order := ArgSort(fits, |xs|);
    SortedPrefix(fits, order, k);
    (Permute(xs, order[..k]), Permute(fits, order[..k]))
  }

  // ------------------------------------------------------------- sampling

  /** `sum(|archive[i][d] - archive[sel][d]| for i < j)`. */
  function Spread(archive: seq<Vec>, sel: nat, d: nat, j: nat): (s: real)
    requires sel < |archive| && j <= |archive|
    requires forall i :: 0 <= i < |archive| ==> d < |archive[i]|
    ensures s >= 0.0
  {
    if j == 0 then 0.0
    else
      var diff := archive[j - 1][d] - archive[sel][d];
      Spread(archive, sel, d, j - 1) + (if diff < 0.0 then -diff else diff)
  }

  /** `xi * sum(|archive[i] - archive[sel]|) / archive_size`: divided by the
      archive size, not by `k - 1`. */
  function Sigma(archive: seq<Vec>, dims: nat, sel: nat, xi: real): (sigma: Vec)
    requires sel < |archive| && Rows(archive, dims)
    ensures |sigma| == dims
    ensures xi >= 0.0 ==> forall d :: 0 <= d < dims ==> sigma[d] >= 0.0
  {
    var k := |archive| as real;
    seq(dims, d requires 0 <= d < dims => xi * Spread(archive, sel, d, |archive|) / k)
  }

  /** The new solution of one ant: the selected member plus the scaled normal
      draws, clipped to the box. */
  function NewSolution(archive: seq<Vec>, dims: nat, sel: nat, sigma: Vec, gauss: (nat, nat, nat) -> real,
                       t: nat, ant: nat, lb: real, ub: real): (x: Vec)
    requires sel < |archive| && Rows(archive, dims) && |sigma| == dims
    ensures |x| == dims
    ensures lb <= ub ==> InBox(x, dims, lb, ub)
  {
    var centre := archive[sel];
    ClipBox(seq(dims, d requires 0 <= d < dims => centre[d] + sigma[d] * gauss(t, ant, d)), lb, ub)
  }

  /** The ant loop of one iteration: every ant's solution, in order.  A zero
      `q` makes the weight formula divide by zero; a negative spread makes
      `np.random.normal` refuse its scale. */
  method Ants(archive: seq<Vec>, dims: nat, numAnts: nat, q: real, xi: real,
              select: (nat, nat) -> nat, gauss: (nat, nat, nat) -> real, t: nat, lb: real, ub: real)
    returns (r: Outcome<seq<Vec>>)
    requires |archive| > 0 && Rows(archive, dims)
    requires forall u, a :: select(u, a) < |archive|
    ensures numAnts >= 1 && q == 0.0 ==> r == Raises(ZeroDivisionError(ZeroLocality))
    ensures r.Raises? ==> numAnts >= 1 && (q == 0.0 || (xi < 0.0 && r == Raises(ValueError(NegativeScale))))
    ensures r.Returns? ==> |r.value| == numAnts && Rows(r.value, dims)
    ensures r.Returns? && lb <= ub ==> AllInBox(r.value, dims, lb, ub)
    ensures r.Returns? ==> forall a :: 0 <= a < numAnts ==>
              r.value[a] == NewSolution(archive, dims, select(t, a), Sigma(archive, dims, select(t, a), xi), gauss, t, a, lb, ub)
  {
    var news: seq<Vec> := [];
    for ant := 0 to numAnts
      invariant |news| == ant && Rows(news, dims) && (lb <= ub ==> AllInBox(news, dims, lb, ub))
      invariant ant >= 1 ==> q != 0.0
      invariant forall a :: 0 <= a < ant ==>
                  news[a] == NewSolution(archive, dims, select(t, a), Sigma(archive, dims, select(t, a), xi), gauss, t, a, lb, ub)
    {
      if q == 0.0 {
        return Raises(ZeroDivisionError(ZeroLocality));
      }
      var sel := select(t, ant);
      var sigma := Sigma(archive, dims, sel, xi);
      if exists d :: 0 <= d < dims && sigma[d] < 0.0 {
        return Raises(ValueError(NegativeScale));
      }
      news := news + [NewSolution(archive, dims, sel, sigma, gauss, t, ant, lb, ub)];
    }
    return Returns(news);
  }

  /** What `np.vstack` raises when an archive with coordinates meets an empty
      list of new solutions: `np.array([])` stacks as one row without
      coordinates. */
  const StackMismatchHead := "all the input array dimensions except for the concatenation axis must match exactly, but along dimension 1, the array at index 0 has size "
  const StackMismatchTail := " and the array at index 1 has size 0"
  function StackMismatch(dims: nat): string {
    StackMismatchHead + NatToString(dims) + StackMismatchTail
  }

  /** One iteration of `run_acor`: the ants sample, the samples are stacked
      under the archive, and the archive is sorted and cut back to `k`. */
  method Iteration(fitness: Vec -> real, k: nat, dims: nat, lb: real, ub: real, numAnts: nat, q: real, xi: real,
                   archive: seq<Vec>, fits: seq<real>, select: (nat, nat) -> nat, gauss: (nat, nat, nat) -> real, t: nat)
    returns (r: Outcome<(seq<Vec>, seq<real>)>)
    requires k > 0 && ArchiveOk(fitness, k, dims, lb, ub, archive, fits)
    requires forall u, a :: select(u, a) < k
    ensures r.Returns? ==> ArchiveOk(fitness, k, dims, lb, ub, r.value.0, r.value.1) && r.value.1[0] <= fits[0]
    ensures numAnts >= 1 && q == 0.0 ==> r == Raises(ZeroDivisionError(ZeroLocality))
    ensures numAnts == 0 && dims > 0 ==> r == Raises(ValueError(StackMismatch(dims)))
    ensures r.Raises? ==> (numAnts >= 1 && q == 0.0) || (numAnts == 0 && dims > 0) || (numAnts >= 1 && xi < 0.0 && r.error == ValueError(NegativeScale))
  {
    var news := Ants(archive, dims, numAnts, q, xi, select, gauss, t, lb, ub);
    if news.Raises? {
      return Raises(news.error);
    }
    if numAnts == 0 && dims > 0 {
      return Raises(ValueError(StackMismatch(dims)));
    }
    var merged := SortCut(fitness, k, dims, lb, ub, archive + news.value);
    assert archive[0] == (archive + news.value)[0];
    return Returns(merged);
  }

  /** The iterations of `run_acor` from a sorted archive: one history entry
      per iteration, each the head of the archive, never rising. */
  method Loop(fitness: Vec -> real, k: nat, dims: nat, lb: real, ub: real,
              numAnts: nat, maxIterations: nat, q: real, xi: real,
              archive0: seq<Vec>, fits0: seq<real>, select: (nat, nat) -> nat, gauss: (nat, nat, nat) -> real)
    returns (r: Outcome<RunResult>)
    requires k > 0 && ArchiveOk(fitness, k, dims, lb, ub, archive0, fits0)
    requires forall u, a :: select(u, a) < k
    ensures r.Returns? ==>
              && r.value.iterations == maxIterations
              && |r.value.history| == maxIterations + 1
              && Improving(Minimize, r.value.history)
              && r.value.history[0] == fits0[0]
              && r.value.bestFitness == r.value.history[maxIterations]
              && r.value.bestFitness == fitness(r.value.bestSolution)
              && |r.value.bestSolution| == dims
              && (lb <= ub ==> InBox(r.value.bestSolution, dims, lb, ub))
    ensures maxIterations >= 1 && numAnts >= 1 && q == 0.0 ==> r == Raises(ZeroDivisionError(ZeroLocality))
    ensures maxIterations >= 1 && numAnts == 0 && dims > 0 ==> r == Raises(ValueError(StackMismatch(dims)))
    ensures maxIterations == 0 || (numAnts == 0 && dims == 0) || (numAnts >= 1 && q != 0.0 && xi >= 0.0) ==> r.Returns?
    ensures r.Raises? ==>
              || (maxIterations >= 1 && numAnts >= 1 && q == 0.0)
              || (maxIterations >= 1 && numAnts == 0 && dims > 0)
              || (xi < 0.0 && r.error == ValueError(NegativeScale))
  {
    var archive, fits := archive0, fits0;
    var best, bestFit := archive[0], fits[0];
    var history := [bestFit];
    for t := 0 to maxIterations
      invariant ArchiveOk(fitness, k, dims, lb, ub, archive, fits)
      invariant best == archive[0] && bestFit == fits[0]
      invariant |history| == t + 1 && history[0] == fits0[0] && history[t] == bestFit && Improving(Minimize, history)
      invariant t >= 1 ==> (numAnts >= 1 ==> q != 0.0) && (numAnts == 0 ==> dims == 0)
    {
      var next := Iteration(fitness, k, dims, lb, ub, numAnts, q, xi, archive, fits, select, gauss, t);
      if next.Raises? {
        return Raises(next.error);
      }
      archive, fits := next.value.0, next.value.1;
      best, bestFit := archive[0], fits[0];
      ImprovingAppend(Minimize, history, bestFit);
      history := history + [bestFit];
    }
    return Returns(RunResult(best, bestFit, maxIterations, history));
  }

  /** `run_acor`.  An empty archive has no `archive[0]`. */
  method Run(fitness: Vec -> real, dims: nat, lb: real, ub: real,
             numAnts: nat, maxIterations: nat, archiveSize: nat, q: real, xi: real,
             posDraw: (nat, nat) -> real, select: (nat, nat) -> nat, gauss: (nat, nat, nat) -> real)
    returns (r: Outcome<RunResult>)
    requires forall j, d :: 0.0 <= posDraw(j, d) < 1.0
    requires forall u, a :: select(u, a) < archiveSize
    ensures r.Returns? ==>
              && r.value.iterations == maxIterations
              && |r.value.history| == maxIterations + 1
              && Improving(Minimize, r.value.history)
              && r.value.bestFitness == r.value.history[maxIterations]
              && r.value.bestFitness == fitness(r.value.bestSolution)
              && (forall i :: 0 <= i < archiveSize ==> r.value.bestFitness <= fitness(BoxPoint(dims, lb, ub, posDraw, i)))
              && |r.value.bestSolution| == dims
              && (lb <= ub ==> InBox(r.value.bestSolution, dims, lb, ub))
    ensures archiveSize == 0 <==> r == Raises(IndexError(EmptyArchive))
    ensures archiveSize > 0 && maxIterations >= 1 && numAnts >= 1 && q == 0.0 ==> r == Raises(ZeroDivisionError(ZeroLocality))
    ensures archiveSize > 0 && maxIterations >= 1 && numAnts == 0 && dims > 0 ==> r == Raises(ValueError(StackMismatch(dims)))
    ensures archiveSize > 0 && (maxIterations == 0 || (numAnts == 0 && dims == 0) || (numAnts >= 1 && q != 0.0 && xi >= 0.0)) ==> r.Returns?
    ensures r.Raises? ==>
              || archiveSize == 0
              || (maxIterations >= 1 && numAnts >= 1 && q == 0.0)
              || (maxIterations >= 1 && numAnts == 0 && dims > 0)
              || (xi < 0.0 && r.error == ValueError(NegativeScale))
  {
    var k := archiveSize;
    if k == 0 {
      return Raises(IndexError(EmptyArchive));
    }
    var starts := BoxPoints(k, dims, lb, ub, posDraw);
    var initial := SortCut(fitness, k, dims, lb, ub, starts);
    r := Loop(fitness, k, dims, lb, ub, numAnts, maxIterations, q, xi, initial.0, initial.1, select, gauss);
    if r.Returns? {
      assert r.value.bestFitness <= r.value.history[0];
      assert forall i :: 0 <= i < k ==> starts[i] == BoxPoint(dims, lb, ub, posDraw, i);
    }
  }
}
