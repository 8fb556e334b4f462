/** Platform limits and the algorithm registry.

    The registry is a Python dictionary, whose iteration order is insertion
    order; it is modelled as the sequence of its entries in that order.  Only
    the fields the lookups and the engine use are kept: the status, the names
    and the default parameters. */
module Config {
  import opened PyValues
  import opened Base

  /** Largest `dimensions` a problem may declare. */
  const MaxDimensions := 50
  /** Largest `max_iterations` a run may ask for. */
  const MaxIterations := 100
  /** Seconds a run may take. */
  const ExecutionTimeout := 30

  datatype Status = Available | ComingSoon

  datatype AlgorithmInfo = AlgorithmInfo(
    status: Status,
    displayName: string,
    className: string,
    moduleName: string,
    defaultParams: map<string, Value>)

  const UnknownAlgorithmPrefix := "Unknown algorithm: "

  /** `ALGORITHM_REGISTRY`, in declaration order. */
  const Registry: seq<(string, AlgorithmInfo)> := [
    ("particle_swarm", AlgorithmInfo(Available, "Particle Swarm Optimization", "ParticleSwarmOptimization",
      "app.algorithms.particle_swarm",
      map["swarm_size" := PInt(30), "max_iterations" := PInt(50), "w" := PFloat(0.7), "c1" := PFloat(1.5), "c2" := PFloat(1.5)])),
    ("genetic_algorithm", AlgorithmInfo(Available, "Genetic Algorithm", "GeneticAlgorithm",
      "app.algorithms.genetic_algorithm",
      map["population_size" := PInt(50), "max_iterations" := PInt(50), "crossover_rate" := PFloat(0.8),
          "mutation_rate" := PFloat(0.1), "tournament_size" := PInt(3)])),
    ("differential_evolution", AlgorithmInfo(Available, "Differential Evolution", "DifferentialEvolution",
      "app.algorithms.differential_evolution",
      map["population_size" := PInt(50), "max_iterations" := PInt(50), "F" := PFloat(0.8), "CR" := PFloat(0.9)])),
    ("simulated_annealing", AlgorithmInfo(ComingSoon, "Simulated Annealing", "SimulatedAnnealing",
      "app.algorithms.simulated_annealing",
      map["initial_temperature" := PFloat(100.0), "cooling_rate" := PFloat(0.95), "max_iterations" := PInt(50),
          "min_temperature" := PFloat(0.01)])),
    ("ant_colony", AlgorithmInfo(Available, "Ant Colony Optimization", "AntColonyOptimization",
      "app.algorithms.ant_colony",
      map["colony_size" := PInt(30), "max_iterations" := PInt(50), "archive_size" := PInt(10), "q" := PFloat(0.01),
          "xi" := PFloat(0.85)]))
  ]

  /** `name in ALGORITHM_REGISTRY` */
  predicate Registered(name: string) {
    exists i :: 0 <= i < |Registry| && Registry[i].0 == name
  }

  /** The registry has `name` with this status. */
  predicate HasStatus(name: string, status: Status) {
    exists i :: 0 <= i < |Registry| && Registry[i].0 == name && Registry[i].1.status == status
  }

  /** The names of `entries` whose status is `status`, in order. */
  function NamesWith(entries: seq<(string, AlgorithmInfo)>, status: Status): (r: seq<string>)
    ensures |r| <= |entries|
    ensures forall n :: n in r <==> exists i :: 0 <= i < |entries| && entries[i].0 == n && entries[i].1.status == status
  {
    if entries == [] then []
    else
      var rest := NamesWith(entries[1..], status);
      assert forall i :: 1 <= i < |entries| ==> entries[i] == entries[1..][i - 1];
      if entries[0].1.status == status then [entries[0].0] + rest else rest
  }

  /** `get_available_algorithms()` */
  function AvailableAlgorithms(): (r: seq<string>)
    ensures forall n :: n in r <==> HasStatus(n, Available)
  {
    NamesWith(Registry, Available)
  }

  /** `get_coming_soon_algorithms()` */
  function ComingSoonAlgorithms(): (r: seq<string>)
    ensures forall n :: n in r <==> HasStatus(n, ComingSoon)
  {
    NamesWith(Registry, ComingSoon)
  }

  /** Every registry key appears once, so a name has one status. */
  lemma RegistryKeysDistinct()
    ensures forall i, j :: 0 <= i < j < |Registry| ==> Registry[i].0 != Registry[j].0
  {
  }

  /** No algorithm is both available and coming soon. */
  lemma AvailableAndComingSoonDisjoint(name: string)
    ensures !(name in AvailableAlgorithms() && name in ComingSoonAlgorithms())
  {
    RegistryKeysDistinct();
  }

  /** The two lists of the current table, in registry order: simulated
      annealing is the only algorithm still to come. */
  lemma CurrentLists()
    ensures AvailableAlgorithms() == ["particle_swarm", "genetic_algorithm", "differential_evolution", "ant_colony"]
    ensures ComingSoonAlgorithms() == ["simulated_annealing"]
  {
    var e := Registry;
    assert NamesWith(e[4..], Available) == ["ant_colony"];
    assert NamesWith(e[3..], Available) == ["ant_colony"];
    assert NamesWith(e[4..], ComingSoon) == [];
    assert NamesWith(e[3..], ComingSoon) == ["simulated_annealing"];
  }

  /** The entry stored under `name`, if any. */
  function Find(entries: seq<(string, AlgorithmInfo)>, name: string): (r: Option<AlgorithmInfo>)
    ensures r.None? <==> forall i :: 0 <= i < |entries| ==> entries[i].0 != name
    ensures r.Some? ==> exists i :: 0 <= i < |entries| && entries[i] == (name, r.value)
  {
    if entries == [] then None
    else if entries[0].0 == name then Some(entries[0].1)
    else
      var r := Find(entries[1..], name);
      assert forall i :: 1 <= i < |entries| ==> entries[i] == entries[1..][i - 1];
      r
  }

  /** `is_algorithm_available(name)`: a registered name whose status is
      `available`, that is, one `get_available_algorithms` lists. */
  function IsAlgorithmAvailable(name: string): (r: bool)
    ensures r <==> Registered(name) && HasStatus(name, Available)
    ensures r <==> name in AvailableAlgorithms()
  {
    RegistryKeysDistinct();
    match Find(Registry, name)
    case None => false
    case Some(info) => info.status == Available
  }

  /** `get_algorithm_info(name)`: the registry entry, or `ValueError` for an
      unknown name. */
  function GetAlgorithmInfo(name: string): (r: Outcome<AlgorithmInfo>)
    ensures r.Raises? <==> !Registered(name)
    ensures r.Raises? ==> r.error == ValueError(UnknownAlgorithmPrefix + name)
    ensures r.Returns? ==> exists i :: 0 <= i < |Registry| && Registry[i] == (name, r.value)
  {
    match Find(Registry, name)
    case None => Raises(ValueError(UnknownAlgorithmPrefix + name))
    case Some(info) => Returns(info)
  }
}
