/** The solution decoders: a best solution turned into the report the
    front end shows, the chosen knapsack items or the TSP route with its
    legs.

    `round(x, 2)` is the parameter `round2` and `np.sqrt` the parameter
    `sqrt`; nothing is assumed of either.  The dictionaries the decoders
    read and build are records here; a missing optional key of the problem
    is `None`. */
module SolutionDecoder {
  import opened Base
  import opened PyValues
  import opened ArgSorting
  import RealWorld

  // -------------------------------------------------------------- knapsack

  /** An item of the knapsack problem, `{name, weight, value}`. */
  datatype Item = Item(name: string, weight: real, value: real)

  /** The dictionary `decode_knapsack_solution` returns. */
  datatype KnapsackReport = KnapsackReport(
    selectedItems: seq<Item>,
    totalItemsSelected: nat,
    totalWeight: real,
    totalValue: real,
    capacity: real,
    weightUtilization: real,
    withinCapacity: bool)

  /** `[i for i, val in enumerate(solution) if val > 0.5]`: exactly the
      positions whose gene is strictly above one half, in increasing order. */
  function SelectedIndices(solution: seq<real>): (r: seq<nat>)
    ensures forall k :: 0 <= k < |r| ==> r[k] < |solution| && solution[r[k]] > 0.5
    ensures forall i :: 0 <= i < |solution| && solution[i] > 0.5 ==> i in r
    ensures forall a, b :: 0 <= a < b < |r| ==> r[a] < r[b]
  {
    if |solution| == 0 then []
    else
      var n := |solution| - 1;
      var prev := SelectedIndices(solution[..n]);
      assert forall i :: 0 <= i < n ==> solution[..n][i] == solution[i];
      if solution[n] > 0.5 then prev + [n] else prev
  }

  /** The items a list of indices names, skipping the indices past the end
      of `items`. */
  function Keep(indices: seq<nat>, items: seq<Item>): seq<Item> {
    if |indices| == 0 then []
    else
      var last := indices[|indices| - 1];
      Keep(indices[..|indices| - 1], items) + (if last < |items| then [items[last]] else [])
  }

  /** The items a solution chooses, gene by gene: item `i` when its gene is
      above one half and the problem has an item `i`. */
  function Chosen(solution: seq<real>, items: seq<Item>): seq<Item> {
    if |solution| == 0 then []
    else
      var n := |solution| - 1;
      Chosen(solution[..n], items) + (if solution[n] > 0.5 && n < |items| then [items[n]] else [])
  }

  function TotalWeight(items: seq<Item>): real {
    if |items| == 0 then 0.0 else TotalWeight(items[..|items| - 1]) + items[|items| - 1].weight
  }

  function TotalValue(items: seq<Item>): real {
    if |items| == 0 then 0.0 else TotalValue(items[..|items| - 1]) + items[|items| - 1].value
  }

  /** Walking the selected indices and skipping those past the items picks
      the same items, in the same order, as choosing gene by gene. */
  lemma {:induction false} KeepSelected(solution: seq<real>, items: seq<Item>)
    ensures Keep(SelectedIndices(solution), items) == Chosen(solution, items)
  {
    if |solution| > 0 {
      var n := |solution| - 1;
      KeepSelected(solution[..n], items);
      var prev := SelectedIndices(solution[..n]);
      if solution[n] > 0.5 {
        assert (prev + [n])[..|prev|] == prev;
      }
    }
  }

  /** No more items are chosen than there are genes, nor than there are
      items. */
  lemma {:induction false} ChosenCount(solution: seq<real>, items: seq<Item>)
    ensures |Chosen(solution, items)| <= |solution|
    ensures |Chosen(solution, items)| <= |items|
  {
    if |solution| > 0 {
      var n := |solution| - 1;
      ChosenCount(solution[..n], items);
      if n < |items| {
        ChosenCountBelow(solution[..n], items);
      }
    }
  }

  /** Over a prefix shorter than the item list, at most one item per gene. */
  lemma {:induction false} ChosenCountBelow(solution: seq<real>, items: seq<Item>)
    requires |solution| <= |items|
    ensures |Chosen(solution, items)| <= |solution|
  {
    if |solution| > 0 {
      ChosenCountBelow(solution[..|solution| - 1], items);
    }
  }

  /** `part / whole * 100` */
  function Percent(part: real, whole: real): real
    requires whole != 0.0
  {
    part / whole * 100.0
  }

  /** The report `decode_knapsack_solution` builds: the chosen items, their
      count, the rounded totals, the capacity, the rounded utilisation in
      percent (zero for a capacity that is not positive, as `round(0, 2)` is
      zero) and whether the unrounded weight fits. */
  function KnapsackDecoded(solution: seq<real>, items: seq<Item>, capacity: real, round2: real -> real): KnapsackReport {
    var chosen := Chosen(solution, items);
    var weight := TotalWeight(chosen);
    KnapsackReport(chosen, |chosen|, round2(weight), round2(TotalValue(chosen)), capacity,
                   if capacity > 0.0 then round2(Percent(weight, capacity)) else 0.0,
                   weight <= capacity)
  }

  /** What the knapsack report promises: exactly the items of positive-enough
      genes, counted; a non-positive capacity reports no utilisation; the
      selection fits exactly when its unrounded weight is within the
      capacity. */
  lemma KnapsackReportProperties(solution: seq<real>, items: seq<Item>, capacity: real, round2: real -> real)
    ensures var r := KnapsackDecoded(solution, items, capacity, round2);
            && r.selectedItems == Keep(SelectedIndices(solution), items)
            && r.totalItemsSelected == |r.selectedItems| <= |solution|
            && (capacity <= 0.0 ==> r.weightUtilization == 0.0)
            && (r.withinCapacity <==> TotalWeight(r.selectedItems) <= capacity)
            && r.capacity == capacity
  {
    KeepSelected(solution, items);
    ChosenCount(solution, items);
  }

  /** Appending an item adds its weight and its value to the totals. */
  lemma TotalsAppend(items: seq<Item>, item: Item)
    ensures TotalWeight(items + [item]) == TotalWeight(items) + item.weight
    ensures TotalValue(items + [item]) == TotalValue(items) + item.value
  {
    assert (items + [item])[..|items|] == items;
  }

  /** `decode_knapsack_solution(solution, items, capacity)`. */
  method DecodeKnapsackSolution(solution: seq<real>, items: seq<Item>, capacity: real, round2: real -> real)
    returns (report: KnapsackReport)
    ensures report == KnapsackDecoded(solution, items, capacity, round2)
  {
    var selectedIndices := SelectedIndices(solution);
    var selectedItems: seq<Item> := [];
    var totalWeight, totalValue := 0.0, 0.0;
    for k := 0 to |selectedIndices|
      invariant selectedItems == Keep(selectedIndices[..k], items)
      invariant totalWeight == TotalWeight(selectedItems) && totalValue == TotalValue(selectedItems)
    {
      var idx := selectedIndices[k];
      assert selectedIndices[..k + 1][..k] == selectedIndices[..k];
      if idx < |items| {
        var item := items[idx];
        var copy := Item(item.name, item.weight, item.value);
        TotalsAppend(selectedItems, copy);
        selectedItems := selectedItems + [copy];
        totalWeight := totalWeight + item.weight;
        totalValue := totalValue + item.value;
      }
    }
    assert selectedIndices[..|selectedIndices|] == selectedIndices;
    KeepSelected(solution, items);
    var utilization := if capacity > 0.0 then round2(Percent(totalWeight, capacity)) else 0.0;
    report := KnapsackReport(selectedItems, |selectedItems|, round2(totalWeight), round2(totalValue), capacity,
                             utilization, totalWeight <= capacity);
  }

  function Weights(items: seq<Item>): (w: seq<real>)
    ensures |w| == |items| && forall i :: 0 <= i < |items| ==> w[i] == items[i].weight
  {
    seq(|items|, i requires 0 <= i < |items| => items[i].weight)
  }

  function Values(items: seq<Item>): (v: seq<real>)
    ensures |v| == |items| && forall i :: 0 <= i < |items| ==> v[i] == items[i].value
  {
    seq(|items|, i requires 0 <= i < |items| => items[i].value)
  }

  /** Over the first genes of a solution, the decoder's unrounded total
      weight is the weight the knapsack objective scores over the weights of
      as many items. */
  lemma {:induction false} PrefixWeightAgrees(solution: seq<real>, items: seq<Item>, xs: seq<real>)
    requires |solution| == |xs| <= |items|
    requires forall i :: 0 <= i < |xs| ==> xs[i] == items[i].weight
    ensures TotalWeight(Chosen(solution, items)) == RealWorld.SelectedTotal(solution, xs)
  {
    if |solution| > 0 {
      var n := |solution| - 1;
      PrefixWeightAgrees(solution[..n], items, xs[..n]);
      var prev := Chosen(solution[..n], items);
      if solution[n] > 0.5 {
        assert Chosen(solution, items) == prev + [items[n]];
        TotalsAppend(prev, items[n]);
      } else {
        assert Chosen(solution, items) == prev;
      }
    }
  }

  /** The same for the total value. */
  lemma {:induction false} PrefixValueAgrees(solution: seq<real>, items: seq<Item>, xs: seq<real>)
    requires |solution| == |xs| <= |items|
    requires forall i :: 0 <= i < |xs| ==> xs[i] == items[i].value
    ensures TotalValue(Chosen(solution, items)) == RealWorld.SelectedTotal(solution, xs)
  {
    if |solution| > 0 {
      var n := |solution| - 1;
      PrefixValueAgrees(solution[..n], items, xs[..n]);
      var prev := Chosen(solution[..n], items);
      if solution[n] > 0.5 {
        assert Chosen(solution, items) == prev + [items[n]];
        TotalsAppend(prev, items[n]);
      } else {
        assert Chosen(solution, items) == prev;
      }
    }
  }

  /** With one gene per item, the decoder's unrounded totals are the totals
      the knapsack objective scores. */
  lemma DecodedTotalsAgree(solution: seq<real>, items: seq<Item>)
    requires |solution| == |items|
    ensures TotalWeight(Chosen(solution, items)) == RealWorld.SelectedTotal(solution, Weights(items))
    ensures TotalValue(Chosen(solution, items)) == RealWorld.SelectedTotal(solution, Values(items))
  {
    PrefixWeightAgrees(solution, items, Weights(items));
    PrefixValueAgrees(solution, items, Values(items));
  }

  /** The decoded knapsack agrees with its objective: for a selection that
      fits, the objective is minus the value the report totals. */
  lemma DecodedValueScores(solution: seq<real>, items: seq<Item>, capacity: real, penalty: real)
    requires |solution| == |items|
    requires TotalWeight(Chosen(solution, items)) <= capacity
    ensures RealWorld.KnapsackFitness(Weights(items), Values(items), capacity, penalty, solution)
         == Returns(-TotalValue(Chosen(solution, items)))
  {
    var w, v := Weights(items), Values(items);
    DecodedTotalsAgree(solution, items);
    assert RealWorld.SelectedTotal(solution, w) <= capacity;
    var r := RealWorld.KnapsackFitness(w, v, capacity, penalty, solution);
    assert r.Returns? && r.value == -RealWorld.SelectedTotal(solution, v);
  }

  // ------------------------------------------------------------------- TSP

  /** A city of the TSP, `{name, x, y}`. */
  datatype Stop = Stop(name: string, x: real, y: real)

  /** One leg of the decoded route, with its rounded length. */
  datatype Segment = Segment(from: string, to: string, distance: real)

  /** The dictionary `decode_tsp_solution` returns. */
  datatype TspReport = TspReport(
    route: seq<Stop>,
    routeOrder: seq<string>,
    segments: seq<Segment>,
    totalCities: nat,
    totalDistance: real,
    averageSegmentDistance: real)

  /** The cities a ranking names, in its order, skipping every index that is
      no city. */
  function Visit(tour: seq<nat>, cities: seq<Stop>): (route: seq<Stop>)
    ensures |route| <= |tour|
    ensures forall k :: 0 <= k < |route| ==> route[k] in cities
  {
    if |tour| == 0 then []
    else
      var last := tour[|tour| - 1];
      Visit(tour[..|tour| - 1], cities) + (if last < |cities| then [cities[last]] else [])
  }

  /** A ranking that names only cities visits each of its cities in turn. */
  lemma {:induction false} VisitAll(tour: seq<nat>, cities: seq<Stop>)
    requires forall k :: 0 <= k < |tour| ==> tour[k] < |cities|
    ensures |Visit(tour, cities)| == |tour|
    ensures forall k :: 0 <= k < |tour| ==> Visit(tour, cities)[k] == cities[tour[k]]
  {
    if |tour| > 0 {
      VisitAll(tour[..|tour| - 1], cities);
    }
  }

  /** The city's coordinates, as the TSP objective takes them. */
  function Point(c: Stop): RealWorld.City {
    (c.x, c.y)
  }

  /** The length of leg `i` of a route, the last leg returning to the start. */
  function LegLength(route: seq<Stop>, i: nat, sqrt: real -> real): real
    requires i < |route|
  {
    RealWorld.Distance(Point(route[i]), Point(route[(i + 1) % |route|]), sqrt)
  }

  /** Segment `i` of a route. */
  function SegmentAt(route: seq<Stop>, i: nat, sqrt: real -> real, round2: real -> real): Segment
    requires i < |route|
  {
    Segment(route[i].name, route[(i + 1) % |route|].name, round2(LegLength(route, i, sqrt)))
  }

  /** `[city['name'] for city in route]` */
  function Names(route: seq<Stop>): (names: seq<string>)
    ensures |names| == |route| && forall k :: 0 <= k < |route| ==> names[k] == route[k].name
  {
    seq(|route|, k requires 0 <= k < |route| => route[k].name)
  }

  /** One segment per city of the route, each from that city to the next,
      the last one back to the first. */
  function Segments(route: seq<Stop>, sqrt: real -> real, round2: real -> real): (segments: seq<Segment>)
    ensures |segments| == |route|
    ensures forall i :: 0 <= i < |route| ==> segments[i] == SegmentAt(route, i, sqrt, round2)
  {
    seq(|route|, i requires 0 <= i < |route| => SegmentAt(route, i, sqrt, round2))
  }

  /** The segments join up: each starts at its city of the route and ends at
      the next, and the last closes the loop at the first. */
  lemma SegmentsCloseTheLoop(route: seq<Stop>, sqrt: real -> real, round2: real -> real)
    ensures var segments := Segments(route, sqrt, round2);
            && (forall i :: 0 <= i < |route| ==> segments[i].from == route[i].name)
            && (forall i :: 0 <= i < |route| - 1 ==> segments[i].to == segments[i + 1].from)
            && (|route| > 0 ==> segments[|route| - 1].to == route[0].name)
  {
    var segments := Segments(route, sqrt, round2);
    forall i | 0 <= i < |route| - 1 ensures segments[i].to == segments[i + 1].from {
      assert (i + 1) % |route| == i + 1;
    }
    if |route| > 0 {
      assert (|route| - 1 + 1) % |route| == 0;
    }
  }

  /** The report `decode_tsp_solution` builds: the route the ranking of the
      solution visits, its names, its segments, the rounded total and, for a
      route that is not empty, the rounded average. */
  function TspDecoded(solution: seq<real>, cities: seq<Stop>, totalDistance: real,
                      sqrt: real -> real, round2: real -> real): TspReport {
    var route := Visit(ArgSort(solution, |solution|), cities);
    TspReport(route, Names(route), Segments(route, sqrt, round2), |route|, round2(totalDistance),
              if |route| > 0 then round2(totalDistance / |route| as real) else 0.0)
  }

  /** What the TSP report promises: as many segments and names as cities on
      the route, an empty route averaging zero, and, for a solution with one
      gene per city, every city on the route exactly once. */
  lemma TspReportProperties(solution: seq<real>, cities: seq<Stop>, totalDistance: real,
                            sqrt: real -> real, round2: real -> real)
    ensures var r := TspDecoded(solution, cities, totalDistance, sqrt, round2);
            && |r.segments| == |r.route| == r.totalCities == |r.routeOrder|
            && (|r.route| == 0 ==> r.averageSegmentDistance == 0.0)
            && (|solution| == |cities| ==> r.route == Permute(cities, ArgSort(solution, |solution|)))
  {
    var tour := ArgSort(solution, |solution|);
    if |solution| == |cities| {
      VisitAll(tour, cities);
    }
  }

  /** With one gene per city, segment `i` measures, before rounding, exactly
      the leg `i` the TSP objective adds to the tour length. */
  lemma SegmentsAreLegs(solution: seq<real>, cities: seq<Stop>, sqrt: real -> real, i: nat)
    requires |solution| == |cities| && i < |cities|
    ensures var tour := ArgSort(solution, |solution|);
            var points := seq(|cities|, j requires 0 <= j < |cities| => Point(cities[j]));
            && RealWorld.TourOk(tour, |points|)
            && |Visit(tour, cities)| == |cities|
            && LegLength(Visit(tour, cities), i, sqrt) == RealWorld.Leg(points, tour, i, sqrt)
  {
    var tour := ArgSort(solution, |solution|);
    VisitAll(tour, cities);
  }

  /** The route loop: the cities the ranking names, in its order. */
  method BuildRoute(tourIndices: seq<nat>, cities: seq<Stop>) returns (route: seq<Stop>)
    ensures route == Visit(tourIndices, cities)
  {
    route := [];
    for k := 0 to |tourIndices|
      invariant route == Visit(tourIndices[..k], cities)
    {
      assert tourIndices[..k + 1][..k] == tourIndices[..k];
      var idx := tourIndices[k];
      if idx < |cities| {
        route := route + [cities[idx]];
      }
    }
    assert tourIndices[..|tourIndices|] == tourIndices;
  }

  /** The segment loop: leg `i` from city `i` to the next, wrapping to the
      first. */
  method BuildSegments(route: seq<Stop>, sqrt: real -> real, round2: real -> real) returns (segments: seq<Segment>)
    ensures segments == Segments(route, sqrt, round2)
  {
    segments := [];
    for i := 0 to |route|
      invariant |segments| == i
      invariant forall j :: 0 <= j < i ==> segments[j] == SegmentAt(route, j, sqrt, round2)
    {
      var cityA := route[i];
      var cityB := route[(i + 1) % |route|];
      var distance := RealWorld.Distance(Point(cityA), Point(cityB), sqrt);
      segments := segments + [Segment(cityA.name, cityB.name, round2(distance))];
    }
  }

  /** `decode_tsp_solution(solution, cities, total_distance)`. */
  method DecodeTspSolution(solution: seq<real>, cities: seq<Stop>, totalDistance: real,
                           sqrt: real -> real, round2: real -> real) returns (report: TspReport)
    ensures report == TspDecoded(solution, cities, totalDistance, sqrt, round2)
  {
    var tourIndices := ArgSort(solution, |solution|);
    var route := BuildRoute(tourIndices, cities);
    var segments := BuildSegments(route, sqrt, round2);
    var average := if |route| > 0 then round2(totalDistance / |route| as real) else 0.0;
    report := TspReport(route, Names(route), segments, |route|, round2(totalDistance), average);
  }

  // ------------------------------------------------------ problem context

  const KnapsackType := "knapsack"
  const TspType := "tsp"

  /** The keys of the problem definition the decoders read. */
  datatype ProblemContext = ProblemContext(
    problemType: Option<string>,
    items: Option<seq<Item>>,
    capacity: Option<real>,
    cities: Option<seq<Stop>>)

  /** The result dictionary of a run: the keys the decoders read and the
      keys they add. */
  class OptimizationResult {
    var bestSolution: Option<seq<real>>
    var bestFitness: Option<real>
    var problemType: Option<string>
    var knapsackResult: Option<KnapsackReport>
    var tspResult: Option<TspReport>

    constructor (bestSolution: Option<seq<real>>, bestFitness: Option<real>)
      ensures this.bestSolution == bestSolution && this.bestFitness == bestFitness
      ensures problemType == None && knapsackResult == None && tspResult == None
    {
      this.bestSolution := bestSolution;
      this.bestFitness := bestFitness;
      problemType := None;
      knapsackResult := None;
      tspResult := None;
    }
  }

  /** `result.get('best_solution')` is truthy: a solution that is not empty. */
  predicate HasSolution(bestSolution: Option<seq<real>>) {
    bestSolution.Some? && |bestSolution.value| > 0
  }

  function OrElse<T>(o: Option<T>, default: T): T {
    if o.Some? then o.value else default
  }

  /** `add_problem_context_to_result(result, problem)`: a knapsack or TSP
      problem with a solution gets its decoded report and its type written
      into the result; any other result is left as it was.  The same result
      is returned. */
  method AddProblemContextToResult(result: OptimizationResult, problem: ProblemContext,
                                   sqrt: real -> real, round2: real -> real) returns (r: OptimizationResult)
    modifies result
    ensures r == result
    ensures result.bestSolution == old(result.bestSolution) && result.bestFitness == old(result.bestFitness)
    ensures problem.problemType == Some(KnapsackType) && HasSolution(old(result.bestSolution)) ==>
              && result.knapsackResult == Some(KnapsackDecoded(old(result.bestSolution).value, OrElse(problem.items, []),
                                                               OrElse(problem.capacity, 0.0), round2))
              && result.problemType == Some(KnapsackType)
              && result.tspResult == old(result.tspResult)
    ensures problem.problemType == Some(TspType) && HasSolution(old(result.bestSolution)) ==>
              && result.tspResult == Some(TspDecoded(old(result.bestSolution).value, OrElse(problem.cities, []),
                                                     OrElse(old(result.bestFitness), 0.0), sqrt, round2))
              && result.problemType == Some(TspType)
              && result.knapsackResult == old(result.knapsackResult)
    ensures !(problem.problemType in {Some(KnapsackType), Some(TspType)} && HasSolution(old(result.bestSolution))) ==>
              unchanged(result)
  {
    if problem.problemType == Some(KnapsackType) && HasSolution(result.bestSolution) {
      var decoded := DecodeKnapsackSolution(result.bestSolution.value, OrElse(problem.items, []),
                                            OrElse(problem.capacity, 0.0), round2);
      result.knapsackResult := Some(decoded);
      result.problemType := Some(KnapsackType);
    } else if problem.problemType == Some(TspType) && HasSolution(result.bestSolution) {
      var decoded := DecodeTspSolution(result.bestSolution.value, OrElse(problem.cities, []),
                                       OrElse(result.bestFitness, 0.0), sqrt, round2);
      result.tspResult := Some(decoded);
      result.problemType := Some(TspType);
    }
    r := result;
  }
}
