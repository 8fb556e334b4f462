/** The real-world problems: each `create_*_fitness` builder closes over the
    problem's data and returns the objective the engine minimises.  Here each
    objective takes that data as its first arguments.

    `np.sqrt` in the tour distances is the parameter `sqrt`; nothing is
    assumed of it beyond what a statement names. */
module RealWorld {
  import opened PyValues
  import opened SearchSpace
  import opened ArgSorting
  import Utils

  const AxisHead := "index "
  const AxisMiddle := " is out of bounds for axis 0 with size "

  /** What `arr[i]` raises on a NumPy vector of `size` entries. */
  function AxisOutOfBounds(i: nat, size: nat): string {
    AxisHead + NatToString(i) + AxisMiddle + NatToString(size)
  }

  const ListIndexOutOfRange := "list index out of range"

  // ------------------------------------------------------------------- TSP

  type City = (real, real)

  /** The Euclidean distance between two cities. */
  function Distance(a: City, b: City, sqrt: real -> real): real {
    sqrt(Utils.Square(a.0 - b.0) + Utils.Square(a.1 - b.1))
  }

  /** The tour can be walked: its first `n` positions exist and name cities. */
  predicate TourOk(tour: seq<nat>, n: nat) {
    |tour| >= n && forall j :: 0 <= j < n ==> tour[j] < n
  }

  /** Leg `i` of the tour: from its `i`-th city to the next, the last leg
      returning to the first city. */
  function Leg(cities: seq<City>, tour: seq<nat>, i: nat, sqrt: real -> real): real
    requires i < |cities| && TourOk(tour, |cities|)
  {
    var n := |cities|;
    Distance(cities[tour[i]], cities[tour[(i + 1) % n]], sqrt)
  }

  /** The first `k` legs, added in order. */
  function TourLength(cities: seq<City>, tour: seq<nat>, k: nat, sqrt: real -> real): real
    requires k <= |cities| && TourOk(tour, |cities|)
  {
    if k == 0 then 0.0 else TourLength(cities, tour, k - 1, sqrt) + Leg(cities, tour, k - 1, sqrt)
  }

  /** The last of the `n` legs closes the tour. */
  lemma LastLegReturns(cities: seq<City>, tour: seq<nat>, sqrt: real -> real)
    requires |cities| > 0 && TourOk(tour, |cities|)
    ensures Leg(cities, tour, |cities| - 1, sqrt) == Distance(cities[tour[|cities| - 1]], cities[tour[0]], sqrt)
  {
  }

  /** A tour of non-negative legs has a non-negative length. */
  lemma {:induction false} TourLengthNonNegative(cities: seq<City>, tour: seq<nat>, k: nat, sqrt: real -> real)
    requires k <= |cities| && TourOk(tour, |cities|)
    requires forall x :: x >= 0.0 ==> sqrt(x) >= 0.0
    ensures TourLength(cities, tour, k, sqrt) >= 0.0
  {
    if k > 0 {
      TourLengthNonNegative(cities, tour, k - 1, sqrt);
      var a, b := cities[tour[k - 1]], cities[tour[k % |cities|]];
      assert Utils.Square(a.0 - b.0) + Utils.Square(a.1 - b.1) >= 0.0;
    }
  }

  /** The loop of `tsp_fitness` over a given ranking `tour`: the length of
      the `len(cities)` legs, or `IndexError` at the first position that is
      missing or names no city. */
  method WalkTour(cities: seq<City>, tour: seq<nat>, sqrt: real -> real) returns (r: Outcome<real>)
    ensures r.Raises? <==> !TourOk(tour, |cities|)
    ensures r.Raises? ==> r.error.IndexError?
    ensures r.Returns? ==> TourOk(tour, |cities|) && r.value == TourLength(cities, tour, |cities|, sqrt)
  {
    var n := |cities|;
    var total := 0.0;
    for i := 0 to n
      invariant i <= |tour|
      invariant forall j :: 0 <= j < i ==> tour[j] < n
      invariant TourOk(tour, n) ==> total == TourLength(cities, tour, i, sqrt)
    {
      if i >= |tour| {
        return Raises(IndexError(AxisOutOfBounds(i, |tour|)));
      }
      if tour[i] >= n {
        assert !TourOk(tour, n) by { assert i < n; }
        return Raises(IndexError(ListIndexOutOfRange));
      }
      var next := (i + 1) % n;
      if next >= |tour| {
        return Raises(IndexError(AxisOutOfBounds(next, |tour|)));
      }
      if tour[next] >= n {
        assert !TourOk(tour, n) by { assert next < n; }
        return Raises(IndexError(ListIndexOutOfRange));
      }
      total := total + Distance(cities[tour[i]], cities[tour[next]], sqrt);
    }
    return Returns(total);
  }

  /** `tsp_fitness(solution)`: the length of the tour `np.argsort(solution)`,
      over `len(cities)` legs.  A solution whose ranking does not name every
      city raises `IndexError`; one with a gene per city never does. */
  method TspFitness(cities: seq<City>, solution: Vec, sqrt: real -> real) returns (r: Outcome<real>)
    ensures r.Raises? <==> !TourOk(ArgSort(solution, |solution|), |cities|)
    ensures r.Raises? ==> r.error.IndexError?
    ensures r.Returns? ==> r.value == TourLength(cities, ArgSort(solution, |solution|), |cities|, sqrt)
    ensures |solution| == |cities| ==> r.Returns?
  {
    var tour := ArgSort(solution, |solution|);
    r := WalkTour(cities, tour, sqrt);
  }

  // -------------------------------------------------------------- knapsack

  /** `(solution > 0.5).astype(int)`: an item is taken only when its gene is
      strictly above one half. */
  function Selected(solution: Vec): (mask: seq<int>)
    ensures |mask| == |solution|
    ensures forall i :: 0 <= i < |mask| ==> (mask[i] == 1 <==> solution[i] > 0.5) && (mask[i] == 0 <==> solution[i] <= 0.5)
  {
    seq(|solution|, i requires 0 <= i < |solution| => if solution[i] > 0.5 then 1 else 0)
  }

  /** Two vectors of these lengths combine under NumPy's broadcasting. */
  predicate Broadcastable(a: nat, b: nat) {
    a == b || a == 1 || b == 1
  }

  const BroadcastHead := "operands could not be broadcast together with shapes ("
  const BroadcastMiddle := ",) ("
  const BroadcastTail := ",) "

  function BroadcastError(a: nat, b: nat): string {
    BroadcastHead + NatToString(a) + BroadcastMiddle + NatToString(b) + BroadcastTail
  }

  /** `mask * xs`, element by element, a length-one operand repeated. */
  function MaskTimes(mask: seq<int>, xs: seq<real>): (r: Outcome<seq<real>>)
    ensures r.Returns? <==> Broadcastable(|mask|, |xs|)
    ensures r.Raises? ==> r.error == ValueError(BroadcastError(|mask|, |xs|))
    ensures r.Returns? && |mask| == |xs| ==>
              |r.value| == |xs| && forall i :: 0 <= i < |xs| ==> r.value[i] == mask[i] as real * xs[i]
  {
    if |mask| == |xs| then Returns(seq(|xs|, i requires 0 <= i < |xs| => mask[i] as real * xs[i]))
    else if |mask| == 1 then Returns(seq(|xs|, i requires 0 <= i < |xs| => mask[0] as real * xs[i]))
    else if |xs| == 1 then Returns(seq(|mask|, i requires 0 <= i < |mask| => mask[i] as real * xs[0]))
    else Raises(ValueError(BroadcastError(|mask|, |xs|)))
  }

  /** The total of `xs` over the items the solution selects. */
  function SelectedTotal(solution: Vec, xs: seq<real>): real
    requires |xs| == |solution|
  {
    if |solution| == 0 then 0.0
    else SelectedTotal(solution[..|solution| - 1], xs[..|xs| - 1])
         + (if solution[|solution| - 1] > 0.5 then xs[|xs| - 1] else 0.0)
  }

  /** `np.sum(selected * xs)` is the total over the selected items. */
  lemma {:induction false} MaskedSum(solution: Vec, xs: seq<real>)
    requires |xs| == |solution|
    ensures MaskTimes(Selected(solution), xs).Returns?
    ensures Sum(MaskTimes(Selected(solution), xs).value) == SelectedTotal(solution, xs)
  {
    var n := |solution|;
    if n > 0 {
      var p, q := solution[..n - 1], xs[..n - 1];
      MaskedSum(p, q);
      var whole := MaskTimes(Selected(solution), xs).value;
      assert whole[..n - 1] == MaskTimes(Selected(p), q).value;
    }
  }

  const DefaultPenalty := 1000.0

  /** The score of a 0/1 selection: the penalty times the excess weight when
      it is over capacity, the negated value otherwise. */
  function ScoreSelection(weights: seq<real>, values: seq<real>, capacity: real, penalty: real, mask: seq<int>): Outcome<real> {
    match MaskTimes(mask, weights)
    case Raises(e) => Raises(e)
    case Returns(w) =>
      match MaskTimes(mask, values)
      case Raises(e) => Raises(e)
      case Returns(v) =>
        if Sum(w) > capacity then Returns(Penalty(penalty, Sum(w) - capacity)) else Returns(-Sum(v))
  }

  /** `knapsack_fitness(solution)`: the selection `solution > 0.5`, scored. */
  function KnapsackFitness(weights: seq<real>, values: seq<real>, capacity: real, penalty: real, solution: Vec): (r: Outcome<real>)
    ensures r.Raises? <==> !Broadcastable(|solution|, |weights|) || !Broadcastable(|solution|, |values|)
    ensures r.Raises? ==>
              r.error == ValueError(if !Broadcastable(|solution|, |weights|) then BroadcastError(|solution|, |weights|)
                                    else BroadcastError(|solution|, |values|))
    ensures |weights| == |solution| && |values| == |solution| ==>
              && r.Returns?
              && (SelectedTotal(solution, weights) <= capacity ==> r.value == -SelectedTotal(solution, values))
              && (SelectedTotal(solution, weights) > capacity ==>
                    r.value == Penalty(penalty, SelectedTotal(solution, weights) - capacity))
  {
    assert |weights| == |solution| && |values| == |solution| ==>
             && Sum(MaskTimes(Selected(solution), weights).value) == SelectedTotal(solution, weights)
             && Sum(MaskTimes(Selected(solution), values).value) == SelectedTotal(solution, values) by {
      if |weights| == |solution| && |values| == |solution| {
        MaskedSum(solution, weights);
        MaskedSum(solution, values);
      }
    }
    ScoreSelection(weights, values, capacity, penalty, Selected(solution))
  }

  /** `penalty_factor * over_capacity`: positive for a positive factor and
      a positive excess. */
  function Penalty(factor: real, over: real): (p: real)
    ensures factor > 0.0 && over > 0.0 ==> p > 0.0
  {
    factor * over
  }

  /** An over-capacity selection scores worse than any selection of
      non-negative values that fits: its score is positive. */
  lemma OverCapacityPenalised(weights: seq<real>, values: seq<real>, capacity: real, penalty: real, solution: Vec)
    requires |weights| == |solution| && |values| == |solution|
    requires penalty > 0.0 && SelectedTotal(solution, weights) > capacity
    ensures KnapsackFitness(weights, values, capacity, penalty, solution).value > 0.0
  {
    var excess := SelectedTotal(solution, weights) - capacity;
    var r := KnapsackFitness(weights, values, capacity, penalty, solution);
    assert excess > 0.0;
    assert r.value == Penalty(penalty, excess);
  }

  /** A gene of exactly one half leaves its item out. */
  lemma HalfIsNotSelected(weights: seq<real>, values: seq<real>, capacity: real, penalty: real, solution: Vec, i: nat)
    requires |weights| == |solution| && |values| == |solution| && i < |solution| && solution[i] == 0.5
    ensures KnapsackFitness(weights, values, capacity, penalty, solution)
         == KnapsackFitness(weights, values, capacity, penalty, solution[i := 0.0])
  {
    var s := solution[i := 0.0];
    forall k | 0 <= k < |s| ensures Selected(s)[k] == Selected(solution)[k] {
    }
    assert Selected(s) == Selected(solution);
    assert MaskTimes(Selected(s), weights) == MaskTimes(Selected(solution), weights);
    assert MaskTimes(Selected(s), values) == MaskTimes(Selected(solution), values);
  }

  // ------------------------------------------------------------ scheduling

  const NegativeDimensions := "negative dimensions are not allowed"
  const EmptyArgmin := "attempt to get argmin of an empty sequence"
  const EmptyMaximum := "zero-size array to reduction operation maximum which has no identity"

  /** The machine loads after the first `k` jobs of `order` went, one by one,
      to the machine `np.argmin` picks: the least loaded, the lowest index
      among ties. */
  function Loads(times: seq<real>, machines: nat, order: seq<nat>, k: nat): (loads: seq<real>)
    requires machines > 0 && k <= |order| && forall j :: 0 <= j < k ==> order[j] < |times|
    ensures |loads| == machines
  {
    if k == 0 then seq(machines, _ => 0.0)
    else
      var before := Loads(times, machines, order, k - 1);
      var m := ArgBest(Minimize, before);
      before[m := before[m] + times[order[k - 1]]]
  }

  /** `np.max` of a non-empty vector. */
  function Max(s: seq<real>): (r: real)
    requires |s| > 0
    ensures forall i :: 0 <= i < |s| ==> s[i] <= r
    ensures exists i :: 0 <= i < |s| && s[i] == r
  {
    if |s| == 1 then s[0]
    else
      var m := Max(s[..|s| - 1]);
      assert forall i :: 0 <= i < |s| - 1 ==> s[..|s| - 1][i] == s[i];
      if s[|s| - 1] > m then s[|s| - 1] else m
  }

  /** Adding `x` to one entry adds `x` to the sum. */
  lemma {:induction false} SumUpdate(s: seq<real>, m: nat, x: real)
    requires m < |s|
    ensures Sum(s[m := s[m] + x]) == Sum(s) + x
  {
    var t := s[m := s[m] + x];
    if m < |s| - 1 {
      SumUpdate(s[..|s| - 1], m, x);
      assert t[..|t| - 1] == s[..|s| - 1][m := s[m] + x];
    } else {
      assert t[..|t| - 1] == s[..|s| - 1];
    }
  }

  lemma {:induction false} SumZeros(n: nat)
    ensures Sum(seq(n, _ => 0.0)) == 0.0
  {
    if n > 0 {
      SumZeros(n - 1);
      assert seq(n, _ => 0.0)[..n - 1] == seq(n - 1, _ => 0.0);
    }
  }

  /** Every job's time lands on exactly one machine: the loads add up to the
      times of the jobs assigned so far. */
  lemma {:induction false} LoadsSum(times: seq<real>, machines: nat, order: seq<nat>, k: nat)
    requires machines > 0 && k <= |order| && forall j :: 0 <= j < k ==> order[j] < |times|
    ensures Sum(Loads(times, machines, order, k)) == SumAt(times, order[..k])
  {
    if k == 0 {
      SumZeros(machines);
    } else {
      LoadsSum(times, machines, order, k - 1);
      var before := Loads(times, machines, order, k - 1);
      SumUpdate(before, ArgBest(Minimize, before), times[order[k - 1]]);
      assert order[..k][..k - 1] == order[..k - 1];
    }
  }

  /** With non-negative job times no load is negative, and every assigned
      job's time is at most some machine's load. */
  lemma {:induction false} LoadsCoverJobs(times: seq<real>, machines: nat, order: seq<nat>, k: nat)
    requires machines > 0 && k <= |order| && forall j :: 0 <= j < k ==> order[j] < |times|
    requires forall j :: 0 <= j < |times| ==> times[j] >= 0.0
    ensures forall i :: 0 <= i < machines ==> Loads(times, machines, order, k)[i] >= 0.0
    ensures forall j :: 0 <= j < k ==> times[order[j]] <= Max(Loads(times, machines, order, k))
  {
    if k > 0 {
      LoadsCoverJobs(times, machines, order, k - 1);
      var before := Loads(times, machines, order, k - 1);
      var after := Loads(times, machines, order, k);
      var m := ArgBest(Minimize, before);
      forall j | 0 <= j < k ensures times[order[j]] <= Max(after) {
        if j < k - 1 {
          var i :| 0 <= i < machines && before[i] == Max(before);
          assert before[i] <= after[i];
        } else {
          assert times[order[j]] <= after[m];
        }
      }
    }
  }

  /** The loop of `scheduling_fitness` over a given job order, on the
      machine loads `np.zeros(machines)`. */
  method AssignJobs(times: seq<real>, machines: nat, order: seq<nat>) returns (r: Outcome<real>)
    ensures machines == 0 ==> r == Raises(ValueError(if |order| > 0 then EmptyArgmin else EmptyMaximum))
    ensures machines > 0 ==> (r.Raises? <==> exists j :: 0 <= j < |order| && order[j] >= |times|)
    ensures r.Raises? && machines > 0 ==> r.error == IndexError(ListIndexOutOfRange)
    ensures r.Returns? ==>
              && machines > 0
              && (forall j :: 0 <= j < |order| ==> order[j] < |times|)
              && r.value == Max(Loads(times, machines, order, |order|))
  {
    var machineTimes := new real[machines](_ => 0.0);
    assert machineTimes[..] == seq(machines, _ => 0.0);
    for k := 0 to |order|
      invariant forall j :: 0 <= j < k ==> order[j] < |times|
      invariant machines > 0 ==> machineTimes[..] == Loads(times, machines, order, k)
      invariant machines == 0 ==> k == 0
    {
      if machines == 0 {
        return Raises(ValueError(EmptyArgmin));
      }
      var least := ArgBest(Minimize, machineTimes[..]);
      if order[k] >= |times| {
        return Raises(IndexError(ListIndexOutOfRange));
      }
      machineTimes[least] := machineTimes[least] + times[order[k]];
    }
    if machines == 0 {
      return Raises(ValueError(EmptyMaximum));
    }
    return Returns(Max(machineTimes[..]));
  }

  /** `scheduling_fitness(solution)`: jobs taken in `np.argsort(solution)`
      order, each added to the least-loaded machine, and the makespan, the
      largest load, returned. */
  method SchedulingFitness(times: seq<real>, machines: int, solution: Vec) returns (r: Outcome<real>)
    ensures machines < 0 ==> r == Raises(ValueError(NegativeDimensions))
    ensures machines == 0 ==>
              r == Raises(ValueError(if |solution| > 0 then EmptyArgmin else EmptyMaximum))
    ensures machines > 0 ==>
              (r.Raises? <==> exists j :: 0 <= j < |solution| && ArgSort(solution, |solution|)[j] >= |times|)
    ensures r.Raises? && machines > 0 ==> r.error == IndexError(ListIndexOutOfRange)
    ensures r.Returns? ==>
              && machines > 0
              && (forall j :: 0 <= j < |solution| ==> ArgSort(solution, |solution|)[j] < |times|)
              && r.value == Max(Loads(times, machines, ArgSort(solution, |solution|), |solution|))
  {
    if machines < 0 {
      return Raises(ValueError(NegativeDimensions));
    }
    var order := ArgSort(solution, |solution|);
    r := AssignJobs(times, machines, order);
    assert order == ArgSort(solution, |solution|);
  }

  /** For a solution ranking exactly the jobs: every job is scheduled once,
      the loads add up to the total processing time, and with non-negative
      times the makespan is at least every job's time. */
  lemma ScheduleProperties(times: seq<real>, machines: nat, solution: Vec)
    requires machines > 0 && |solution| == |times|
    ensures var order := ArgSort(solution, |solution|);
            && Sum(Loads(times, machines, order, |order|)) == Sum(times)
            && ((forall j :: 0 <= j < |times| ==> times[j] >= 0.0) ==>
                  forall j :: 0 <= j < |times| ==> times[j] <= Max(Loads(times, machines, order, |order|)))
  {
    var n := |solution|;
    var order := ArgSort(solution, n);
    LoadsSum(times, machines, order, n);
    SumAtArgSort(solution, times, n);
    assert order[..n] == order;
    assert times[..n] == times;
    if forall j :: 0 <= j < n ==> times[j] >= 0.0 {
      LoadsCoverJobs(times, machines, order, n);
      forall j | 0 <= j < n ensures times[j] <= Max(Loads(times, machines, order, n)) {
        assert j in order;
      }
    }
  }

  // ------------------------------------------------------------- portfolio

  function AbsAll(xs: Vec): (r: Vec)
    ensures |r| == |xs| && forall i :: 0 <= i < |r| ==> r[i] >= 0.0 && (r[i] == xs[i] || r[i] == -xs[i])
  {
    seq(|xs|, i requires 0 <= i < |xs| => Utils.Abs(xs[i]))
  }

  lemma {:induction false} SumNonNegative(xs: seq<real>)
    requires forall i :: 0 <= i < |xs| ==> xs[i] >= 0.0
    ensures Sum(xs) >= 0.0
  {
    if |xs| > 0 {
      SumNonNegative(xs[..|xs| - 1]);
    }
  }

  /** Dividing every entry by `d` divides the sum by `d`. */
  lemma {:induction false} SumDivided(xs: seq<real>, d: real)
    requires d > 0.0
    ensures Sum(seq(|xs|, i requires 0 <= i < |xs| => xs[i] / d)) * d == Sum(xs)
  {
    var ys := seq(|xs|, i requires 0 <= i < |xs| => xs[i] / d);
    if |xs| > 0 {
      var p := xs[..|xs| - 1];
      SumDivided(p, d);
      assert ys[..|ys| - 1] == seq(|p|, i requires 0 <= i < |p| => p[i] / d);
      assert (Sum(ys[..|ys| - 1]) + ys[|ys| - 1]) * d == Sum(ys[..|ys| - 1]) * d + ys[|ys| - 1] * d;
    }
  }

  /** `k` copies of `c` add up to `k * c`. */
  lemma {:induction false} SumConstant(k: nat, c: real)
    ensures Sum(seq(k, _ => c)) == k as real * c
  {
    if k > 0 {
      SumConstant(k - 1, c);
      assert seq(k, _ => c)[..k - 1] == seq(k - 1, _ => c);
    }
  }

  /** `x / total` is at least zero for `x` at least zero. */
  lemma QuotientNonNegative(x: real, total: real)
    requires x >= 0.0 && total > 0.0
    ensures x / total >= 0.0
  {
  }

  /** `s * t == t` with `t` positive makes `s` one. */
  lemma UnitFactor(s: real, t: real)
    requires t > 0.0 && s * t == t
    ensures s == 1.0
  {
    assert (s - 1.0) * t == 0.0;
  }

  /** `xs / np.sum(xs)` for non-negative entries of positive total: shares
      that are non-negative and add up to one. */
  function Shares(xs: seq<real>, total: real): (w: seq<real>)
    requires total > 0.0 && Sum(xs) == total
    requires forall i :: 0 <= i < |xs| ==> xs[i] >= 0.0
    ensures |w| == |xs|
    ensures forall i :: 0 <= i < |w| ==> w[i] >= 0.0
    ensures Sum(w) == 1.0
  {
    var w := seq(|xs|, i requires 0 <= i < |xs| => xs[i] / total);
    SumDivided(xs, total);
    UnitFactor(Sum(w), total);
    forall i | 0 <= i < |w| ensures w[i] >= 0.0 {
      QuotientNonNegative(xs[i], total);
    }
    w
  }

  /** `np.ones(n) / n`: `n` equal shares, which add up to one. */
  function EqualShares(n: nat): (w: seq<real>)
    ensures |w| == n
    ensures forall i :: 0 <= i < n ==> w[i] == 1.0 / n as real
    ensures n > 0 ==> Sum(w) == 1.0
  {
    var w := seq(n, _ requires n > 0 => 1.0 / n as real);
    assert n > 0 ==> Sum(w) == 1.0 by {
      if n > 0 {
        SumConstant(n, 1.0 / n as real);
        assert w == seq(n, _ => 1.0 / n as real);
      }
    }
    w
  }

  /** The portfolio weights: the magnitudes of the solution scaled to sum to
      one, or, when they are all zero, one equal share per asset. */
  function NormalisedWeights(solution: Vec, assets: nat): (w: Vec)
    ensures forall i :: 0 <= i < |w| ==> w[i] >= 0.0
    ensures Sum(AbsAll(solution)) > 0.0 ==> |w| == |solution| && Sum(w) == 1.0
    ensures Sum(AbsAll(solution)) <= 0.0 ==>
              |w| == assets && forall i :: 0 <= i < assets ==> w[i] == 1.0 / assets as real
    ensures Sum(AbsAll(solution)) <= 0.0 && assets > 0 ==> Sum(w) == 1.0
  {
    var magnitudes := AbsAll(solution);
    var total := Sum(magnitudes);
    if total > 0.0 then Shares(magnitudes, total) else EqualShares(assets)
  }

  /** The weights ignore the signs of the solution's genes. */
  lemma WeightsIgnoreSigns(solution: Vec, flipped: Vec, assets: nat)
    requires |flipped| == |solution|
    requires forall i :: 0 <= i < |solution| ==> flipped[i] == solution[i] || flipped[i] == -solution[i]
    ensures NormalisedWeights(flipped, assets) == NormalisedWeights(solution, assets)
  {
    assert AbsAll(flipped) == AbsAll(solution);
  }

  /** `np.dot` of two vectors of one length. */
  function Dot(a: seq<real>, b: seq<real>): real
    requires |a| == |b|
  {
    if |a| == 0 then 0.0 else Dot(a[..|a| - 1], b[..|b| - 1]) + a[|a| - 1] * b[|b| - 1]
  }

  /** `np.dot(matrix, v)` for a matrix whose rows all have `|v|` entries. */
  function MatrixTimes(matrix: seq<seq<real>>, v: seq<real>): (r: seq<real>)
    requires forall i :: 0 <= i < |matrix| ==> |matrix[i]| == |v|
    ensures |r| == |matrix|
  {
    seq(|matrix|, i requires 0 <= i < |matrix| => Dot(matrix[i], v))
  }

  /** A two-dimensional array: every row has `columns` entries. */
  predicate Rectangular(matrix: seq<seq<real>>, columns: nat) {
    forall i :: 0 <= i < |matrix| ==> |matrix[i]| == columns
  }

  const NotAlignedHead := "shapes ("
  function NotAligned(a: nat, b: nat): string {
    NotAlignedHead + NatToString(a) + ",) and (" + NatToString(b) + ",) not aligned: "
    + NatToString(a) + " (dim 0) != " + NatToString(b) + " (dim 0)"
  }
  function MatrixNotAligned(rows: nat, columns: nat, b: nat): string {
    NotAlignedHead + NatToString(rows) + "," + NatToString(columns) + ") and (" + NatToString(b) + ",) not aligned: "
    + NatToString(columns) + " (dim 1) != " + NatToString(b) + " (dim 0)"
  }

  /** `portfolio_fitness(solution)`: minus the expected return less the
      risk-weighted variance of the normalised weights.  The covariance is a
      `rows` by `columns` array; shapes that do not line up make `np.dot`
      raise. */
  function PortfolioFitness(assetReturns: seq<real>, covariance: seq<seq<real>>, columns: nat, riskAversion: real, solution: Vec): (r: Outcome<real>)
    requires Rectangular(covariance, columns)
    ensures var w := NormalisedWeights(solution, |assetReturns|);
            r.Returns? <==> |w| == |assetReturns| && columns == |w| && |covariance| == |w|
    ensures r.Raises? ==> r.error.ValueError?
    ensures r.Returns? ==>
              var w := NormalisedWeights(solution, |assetReturns|);
              r.value == -(Dot(w, assetReturns) - riskAversion * Dot(w, MatrixTimes(covariance, w)))
  {
    var w := NormalisedWeights(solution, |assetReturns|);
    if |w| != |assetReturns| then Raises(ValueError(NotAligned(|w|, |assetReturns|)))
    else if columns != |w| then Raises(ValueError(MatrixNotAligned(|covariance|, columns, |w|)))
    else if |covariance| != |w| then Raises(ValueError(NotAligned(|w|, |covariance|)))
    else Returns(-(Dot(w, assetReturns) - riskAversion * Dot(w, MatrixTimes(covariance, w))))
  }

  // -------------------------------------------------------------- registry

  datatype Creator = CreateTsp | CreateKnapsack | CreateScheduling

  /** An entry of `PROBLEM_TYPES`. */
  datatype ProblemType = ProblemType(name: string, description: string, creator: Creator, exampleParams: map<string, Value>)

  const TspKey := "tsp"
  const KnapsackKey := "knapsack"
  const SchedulingKey := "scheduling"
  const UnknownProblemType := "Unknown problem type: "

  function Ints(xs: seq<int>): (r: Value)
    ensures r.PList? && |r.items| == |xs| && forall i :: 0 <= i < |xs| ==> r.items[i] == PInt(xs[i])
  {
    PList(seq(|xs|, i requires 0 <= i < |xs| => PInt(xs[i])))
  }

  /** A Python tuple `(x, y)` of two ints. */
  function Pair(x: int, y: int): Value
  {
    PTuple([PInt(x), PInt(y)])
  }

  const TspExample := ProblemType("Traveling Salesman Problem", "Find shortest route visiting all cities", CreateTsp,
    map["cities" := PList([Pair(0, 0), Pair(1, 2), Pair(3, 1), Pair(5, 3), Pair(2, 4)])])
  const KnapsackExample := ProblemType("0/1 Knapsack Problem", "Maximize value without exceeding weight capacity", CreateKnapsack,
    map["weights" := Ints([2, 3, 4, 5, 1]), "values" := Ints([3, 4, 5, 6, 2]), "capacity" := PInt(10)])
  const SchedulingExample := ProblemType("Job Scheduling Problem", "Minimize completion time across machines", CreateScheduling,
    map["processing_times" := Ints([3, 2, 4, 1, 5, 3]), "n_machines" := PInt(2)])

  /** `get_problem_example(problem_type)`: the registry entry, or
      `ValueError` for a type it does not hold. */
  function GetProblemExample(problemType: string): (r: Outcome<ProblemType>)
    ensures r.Returns? <==> problemType in {TspKey, KnapsackKey, SchedulingKey}
    ensures r.Raises? ==> r.error == ValueError(UnknownProblemType + problemType)
    ensures r.Returns? ==>
              r.value.creator == (if problemType == TspKey then CreateTsp
                                  else if problemType == KnapsackKey then CreateKnapsack else CreateScheduling)
  {
    if problemType == TspKey then Returns(TspExample)
    else if problemType == KnapsackKey then Returns(KnapsackExample)
    else if problemType == SchedulingKey then Returns(SchedulingExample)
    else Raises(ValueError(UnknownProblemType + problemType))
  }

  /** The knapsack example: taking everything weighs 15 against a capacity
      of 10 and scores the penalty 5000; taking the items of weight 2, 3 and 5
      fills the capacity exactly and scores minus their value, -13. */
  lemma KnapsackExampleScores()
    ensures KnapsackFitness([2.0, 3.0, 4.0, 5.0, 1.0], [3.0, 4.0, 5.0, 6.0, 2.0], 10.0, DefaultPenalty, [1.0, 1.0, 1.0, 1.0, 1.0])
         == Returns(5000.0)
    ensures KnapsackFitness([2.0, 3.0, 4.0, 5.0, 1.0], [3.0, 4.0, 5.0, 6.0, 2.0], 10.0, DefaultPenalty, [1.0, 1.0, 0.0, 1.0, 0.0])
         == Returns(-13.0)
  {
    assert SelectedTotal([1.0], [2.0]) == 2.0;
    assert [1.0, 1.0][..1] == [1.0] && [2.0, 3.0][..1] == [2.0];
    assert SelectedTotal([1.0, 1.0], [2.0, 3.0]) == 5.0;
    assert [1.0, 1.0, 1.0][..2] == [1.0, 1.0] && [2.0, 3.0, 4.0][..2] == [2.0, 3.0];
    assert SelectedTotal([1.0, 1.0, 1.0], [2.0, 3.0, 4.0]) == 9.0;
    assert [1.0, 1.0, 1.0, 1.0][..3] == [1.0, 1.0, 1.0] && [2.0, 3.0, 4.0, 5.0][..3] == [2.0, 3.0, 4.0];
    assert SelectedTotal([1.0, 1.0, 1.0, 1.0], [2.0, 3.0, 4.0, 5.0]) == 14.0;
    assert [1.0, 1.0, 1.0, 1.0, 1.0][..4] == [1.0, 1.0, 1.0, 1.0] && [2.0, 3.0, 4.0, 5.0, 1.0][..4] == [2.0, 3.0, 4.0, 5.0];
    assert SelectedTotal([1.0, 1.0, 1.0, 1.0, 1.0], [2.0, 3.0, 4.0, 5.0, 1.0]) == 15.0;
    assert [1.0, 1.0, 0.0][..2] == [1.0, 1.0] && [2.0, 3.0, 4.0][..2] == [2.0, 3.0];
    assert SelectedTotal([1.0, 1.0, 0.0], [2.0, 3.0, 4.0]) == 5.0;
    assert [1.0, 1.0, 0.0, 1.0][..3] == [1.0, 1.0, 0.0] && [2.0, 3.0, 4.0, 5.0][..3] == [2.0, 3.0, 4.0];
    assert SelectedTotal([1.0, 1.0, 0.0, 1.0], [2.0, 3.0, 4.0, 5.0]) == 10.0;
    assert [1.0, 1.0, 0.0, 1.0, 0.0][..4] == [1.0, 1.0, 0.0, 1.0] && [2.0, 3.0, 4.0, 5.0, 1.0][..4] == [2.0, 3.0, 4.0, 5.0];
    assert SelectedTotal([1.0, 1.0, 0.0, 1.0, 0.0], [2.0, 3.0, 4.0, 5.0, 1.0]) == 10.0;
    assert SelectedTotal([1.0], [3.0]) == 3.0;
    assert [1.0, 1.0][..1] == [1.0] && [3.0, 4.0][..1] == [3.0];
    assert SelectedTotal([1.0, 1.0], [3.0, 4.0]) == 7.0;
    assert [1.0, 1.0, 0.0][..2] == [1.0, 1.0] && [3.0, 4.0, 5.0][..2] == [3.0, 4.0];
    assert SelectedTotal([1.0, 1.0, 0.0], [3.0, 4.0, 5.0]) == 7.0;
    assert [1.0, 1.0, 0.0, 1.0][..3] == [1.0, 1.0, 0.0] && [3.0, 4.0, 5.0, 6.0][..3] == [3.0, 4.0, 5.0];
    assert SelectedTotal([1.0, 1.0, 0.0, 1.0], [3.0, 4.0, 5.0, 6.0]) == 13.0;
    assert [1.0, 1.0, 0.0, 1.0, 0.0][..4] == [1.0, 1.0, 0.0, 1.0] && [3.0, 4.0, 5.0, 6.0, 2.0][..4] == [3.0, 4.0, 5.0, 6.0];
    assert SelectedTotal([1.0, 1.0, 0.0, 1.0, 0.0], [3.0, 4.0, 5.0, 6.0, 2.0]) == 13.0;
  }
}
