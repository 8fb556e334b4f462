# OptimizeHub optimisation engine, modelled in Dafny

OptimizeHub is a web platform that runs metaheuristic optimisers on a
user's fitness function. This project models the engine at its core,
file by file:

- **The algorithm classes**: `ParticleSwarmOptimization`, `GeneticAlgorithm`
  and `DifferentialEvolution`. Each follows the lifecycle of
  `OptimizationAlgorithm`: construct and validate, `initialize`, `optimize`,
  `get_results`.
  - Each is a Dafny `class` whose fields are the optimiser's state: arrays
    for the population and the scores, plus the best-so-far and the
    convergence curve.
  - Each step method (scattering, moving, evaluating, one selection, one
    sweep or generation, one iteration) states the exact new state it
    produces when it returns normally. After a `RuntimeError` the run is
    over, and only the invariants are stated.
  - The `Optimize` loops state the invariants they keep rather than the
    exact final state: every live vector is within bounds, the best never
    regresses, and the curve gains one entry per completed iteration.
- **The sandbox runner** (`backend/docker/runner.py`): `run_optimization`
  dispatches to five minimise-only optimisers, `run_pso`, `run_ga`,
  `run_de`, `run_sa` and `run_acor`. Each is a method over arrays or
  sequences with loop invariants, proved against the history and best it
  returns.
- **The validators**: `validation.py` (problem, bound and parameter
  checks) and the optimisers' own `_validate_*` methods.
- **The helpers**:
  - `config.py`: the platform limits and the algorithm registry;
  - `utils.py`: the benchmarks, curve downsampling and statistics;
  - `real_world_problems.py`: the knapsack, scheduling, TSP and portfolio
    objectives;
  - `solution_decoder.py`: the knapsack and TSP reports.
- **The security validator** (`code_validator.py`). The parsed program is
  the sequence of syntax nodes `ast.walk` visits. Each node carries only
  the fields the checks read.

## Modelling conventions

- **Python values.** Dynamic values are `PyValues.Value`. `bool` counts as an
  integer, as `isinstance` does.
- **Exceptions.** An operation that can raise returns
  `Outcome<T> = Returns(value) | Raises(error)`, with the exception class
  and, where the code fixes it, the message.
- **Coordinates and scores** are `real`.
- **The fitness function.**
  - For the algorithm classes it returns a `FitnessValue`: finite, NaN,
    infinite, non-numeric, or raising. `_evaluate` accepts exactly the
    finite values.
  - For the sandbox runner it returns a `real`.
- **Oracles.** Inputs the model cannot compute are function-typed
  parameters, constrained only by the range facts the code relies on:
  - random draws (uniform, `rand`, `choice`, `normal`, `randint`);
  - the wall-clock timeout test;
  - `sqrt`, the SBX and mutation powers, and the Metropolis test of `run_sa`;
  - `round(x, 2)`;
  - Python's parser.
- **Sorting.** `np.argsort` is modelled as a stable insertion sort.
- **Source-level differences the model keeps.**
  - `DifferentialEvolution` has no upper cap on `max_iterations`, unlike
    PSO and GA.
  - The 50-dimension cap exists only in `validation.py`.
  - The class PSO draws `r1`, `r2` per dimension and moves every particle
    before evaluating any. `run_pso` draws one pair per particle and
    evaluates each particle right after it moves.
  - `run_ga`'s second blend uses the already-updated first child.
  - `run_acor` divides the spread by `archive_size`.

## Model

| member | source | states |
|---|---|---|
| SearchSpace.IsBetterStrict | backend/app/algorithms/particle_swarm.py:243-248 | `_is_better` is strict: never better than itself, of two different values exactly one is better, `<` when minimising and `>` when maximising |
| SearchSpace.ImprovingAppend | backend/app/algorithms/particle_swarm.py:214-221 | appending a global best that is no worse than the last entry keeps the convergence trace monotone |
| SearchSpace.ArgBest | backend/app/algorithms/particle_swarm.py:167-170 | `np.argmin`/`np.argmax`: an index whose value no entry beats, and the first such index |
| SearchSpace.Clip | backend/app/algorithms/particle_swarm.py:235-241 | `np.clip` lands in `[lo, hi]`, leaves in-range values alone and maps values below/above to the nearer end |
| SearchSpace.ClipToBounds | backend/app/algorithms/particle_swarm.py:235-241 | the clipped vector keeps its length and lies in the bounds |
| SearchSpace.ClipToBoundsProperties | backend/app/algorithms/particle_swarm.py:235-241 | clipping lands in the bounds, keeps every in-range coordinate, fixes in-bound vectors and is idempotent |
| SearchSpace.ApplyBounds | backend/app/algorithms/particle_swarm.py:235-241 | `_apply_bounds` (coordinate loop over a copy) returns the clipped vector: in bounds, in-range coordinates unchanged |
| SearchSpace.Uniform | backend/app/algorithms/particle_swarm.py:156 | `np.random.uniform(lo, hi)` from a draw in [0, 1) lies in `[lo, hi]`, below `hi` when `lo < hi` |
| SearchSpace.UniformVec | backend/app/algorithms/genetic_algorithm.py:149-151 | a vector drawn coordinate by coordinate inside valid bounds is in bounds |
| SearchSpace.Evaluate | backend/app/algorithms/particle_swarm.py:223-233 | `_evaluate` returns the objective's value exactly when it is a finite number, and raises `RuntimeError` otherwise |
| SearchSpace.CompletedIterations | backend/app/algorithms/particle_swarm.py:183-186 | the number of iterations run before the first timeout: none of them timed out, and fewer than `max_iterations` only when the next one did |
| SearchSpace.CompletedIterationsAt | backend/app/algorithms/particle_swarm.py:183-186 | a run that passed every check before `c` and stopped at `c` completed exactly `c` iterations |
| SearchSpace.EvaluateAll | backend/app/algorithms/particle_swarm.py:164 | `[_evaluate(p) for p in ...]` returns every score in order when all are finite, and raises `RuntimeError` otherwise |
| SearchSpace.RandomPoint | backend/app/algorithms/particle_swarm.py:154-156 | a random start point has one coordinate per bound and lies in the bounds |
| ArgSorting.ArgSort | backend/app/core/real_world_problems.py:33 | `np.argsort` of the first `n` keys lists each position below `n` once, in ascending key order |
| ArgSorting.Permute | backend/app/core/solution_decoder.py:72-83 | `s[order]` has one entry per listed position, the entry at that position |
| ArgSorting.SumAtArgSort | backend/app/core/real_world_problems.py:130-141 | summing along the sorting permutation adds up every entry once |
| Config.NamesWith | backend/app/config.py:336-349 | the names with a given status, in registry order, and no others |
| Config.AvailableAlgorithms | backend/app/config.py:336-341 | `get_available_algorithms` lists exactly the names whose status is available |
| Config.ComingSoonAlgorithms | backend/app/config.py:344-349 | `get_coming_soon_algorithms` lists exactly the names whose status is coming soon |
| Config.RegistryKeysDistinct | backend/app/config.py:25-329 | the registry has no duplicate key |
| Config.AvailableAndComingSoonDisjoint | backend/app/config.py:336-349 | no algorithm is in both lists |
| Config.CurrentLists | backend/app/config.py:25-329 | the current registry offers particle swarm, genetic algorithm, differential evolution and ant colony, with simulated annealing still to come |
| Config.Find | backend/app/config.py:362-364 | the lookup finds the entry stored under the name, or reports that none is |
| Config.IsAlgorithmAvailable | backend/app/config.py:352-357 | available exactly when registered with status available, i.e. exactly when listed by `get_available_algorithms` |
| Config.GetAlgorithmInfo | backend/app/config.py:360-364 | unknown names raise `ValueError("Unknown algorithm: <name>")`; known names return their registry entry |
| PsoValidation.CheckBounds | backend/app/algorithms/particle_swarm.py:73-82 | the bound loop accepts exactly when every bound is a numeric pair with `lower < upper` and returns them in order; the first bad bound raises `ValueError` |
| PsoValidation.ValidateProblemSchema | backend/app/algorithms/particle_swarm.py:50-91 | `_validate_problem_schema` accepts exactly the well-formed problems (fields present, positive integer dimensions, matching valid bounds, a callable, a known objective) and keeps their values |
| PsoValidation.PlatformLimitMessageMentionsConstraint | backend/app/algorithms/particle_swarm.py:115-119 | the iteration-limit message names the platform constraint |
| PsoValidation.ValidateParameters | backend/app/algorithms/particle_swarm.py:93-146 | `_validate_parameters` accepts exactly swarm size >= 10, integer iterations in 1..100, numeric `w`, `c1`, `c2` not both zero, and raises the platform-limit error above 100 iterations |
| ParticleSwarm.Configure | backend/app/algorithms/particle_swarm.py:16-36 | the constructor checks the schema first and then the parameters; the first failure is raised; success yields a well-formed problem and legal settings |
| ParticleSwarm.InitialVelocity | backend/app/algorithms/particle_swarm.py:158-160 | each initial velocity coordinate lies within a tenth of its bound's width either way |
| ParticleSwarm.NewVelocity | backend/app/algorithms/particle_swarm.py:194-197 | the velocity update keeps the dimension |
| ParticleSwarm.NewVelocityProperties | backend/app/algorithms/particle_swarm.py:194-197 | a particle at its personal and global best only keeps its damped inertia; with `c2 = 0` the global best has no influence |
| ParticleSwarm.New | backend/app/algorithms/particle_swarm.py:16-48 | construction succeeds exactly for acceptable problem and parameters, raising the first validation error otherwise, with no best solution and an empty trace |
| ParticleSwarm.ParticleSwarmOptimization.constructor | backend/app/algorithms/particle_swarm.py:16-48 | the fields hold the validated problem and settings; no best solution, empty trace |
| ParticleSwarm.ParticleSwarmOptimization.Scatter | backend/app/algorithms/particle_swarm.py:151-163 | positions are random points inside the bounds, velocities the initial ones, personal bests the positions |
| ParticleSwarm.ParticleSwarmOptimization.AdoptScores | backend/app/algorithms/particle_swarm.py:164-177 | the scores become the personal bests, the global best is the argmin/argmax particle, and its score is appended to the trace |
| ParticleSwarm.ParticleSwarmOptimization.Initialize | backend/app/algorithms/particle_swarm.py:148-177 | `initialize` succeeds exactly when every start point scores finitely, then sets positions, velocities, personal and global bests and records the first trace entry |
| ParticleSwarm.ParticleSwarmOptimization.MoveSwarm | backend/app/algorithms/particle_swarm.py:189-203 | every particle's velocity is updated and its position moved by it and clipped to the bounds |
| ParticleSwarm.ParticleSwarmOptimization.MoveParticle | backend/app/algorithms/particle_swarm.py:190-203 | one particle moves as above and no other particle changes |
| ParticleSwarm.ParticleSwarmOptimization.EvaluateParticle | backend/app/algorithms/particle_swarm.py:206-218 | a strictly better score replaces the particle's personal best and, if better still, the global best; nothing else changes; the global best never gets worse |
| ParticleSwarm.ParticleSwarmOptimization.EvaluateSwarm | backend/app/algorithms/particle_swarm.py:205-218 | every particle's personal best is updated exactly when its new score is better; a non-finite score raises `RuntimeError`; the global best never gets worse |
| ParticleSwarm.ParticleSwarmOptimization.Iterate | backend/app/algorithms/particle_swarm.py:188-221 | one iteration moves every particle by `NewVelocity` from the old bests and clips it; it raises `RuntimeError` exactly when a moved particle scores non-finitely, else replaces exactly the strictly improved personal bests and appends the global best, which never gets worse |
| ParticleSwarm.ParticleSwarmOptimization.Optimize | backend/app/algorithms/particle_swarm.py:179-221 | `optimize` keeps the old trace as a prefix, appends one entry per completed iteration (the last being the global best), stops on timeout and never worsens the global best |
| ParticleSwarm.ParticleSwarmOptimization.GetResults | backend/app/algorithms/base.py:34-43 | `get_results` reports the class name, the best solution, the trace and the raw parameters |
| GaOperators.ValidateParameters | backend/app/algorithms/genetic_algorithm.py:98-141 | `_validate_parameters` accepts exactly the legal population size, iteration count, rates in [0, 1] and tournament size, keeps their values, raises `ValueError` otherwise and the platform-limit error above 100 iterations |
| GaOperators.TournamentWinner | backend/app/algorithms/genetic_algorithm.py:229-241 | the tournament winner is one of the drawn contestants and no contestant beats it |
| GaOperators.SbxGene | backend/app/algorithms/genetic_algorithm.py:248-259 | SBX on one gene preserves the parents' sum, and leaves the genes unchanged when the coin skips them or they are too close |
| GaOperators.SbxGeneCrossed | backend/app/algorithms/genetic_algorithm.py:250-259 | a crossed gene pair is the two `beta`-weighted blends of the parents |
| GaOperators.SbxChildren | backend/app/algorithms/genetic_algorithm.py:243-262 | SBX keeps the dimension, preserves every coordinate's sum and copies the parents' genes where it does not cross |
| GaOperators.SimulatedBinaryCrossover | backend/app/algorithms/genetic_algorithm.py:243-262 | the gene loop computes exactly the SBX children |
| GaOperators.MutationDelta | backend/app/algorithms/genetic_algorithm.py:273-277 | the polynomial perturbation lies in [-1, 1] whenever the power oracle stays in [0, 1] on [0, 1] |
| GaOperators.MutateGene | backend/app/algorithms/genetic_algorithm.py:268-280 | a gene whose coin is at or above the rate is unchanged; a mutated gene moves by at most its bound's width |
| GaOperators.DeltaStep | backend/app/algorithms/genetic_algorithm.py:280 | a perturbation in [-1, 1] scaled by a width moves by at most that width |
| GaOperators.Mutated | backend/app/algorithms/genetic_algorithm.py:264-282 | mutation keeps the dimension, leaves the unselected genes alone and moves each gene by at most its bound's width |
| GaOperators.MutationRateZeroIsIdentity | backend/app/algorithms/genetic_algorithm.py:269 | with mutation rate 0 no gene changes |
| GaOperators.PolynomialMutation | backend/app/algorithms/genetic_algorithm.py:264-282 | the gene loop computes exactly the mutated vector |
| GeneticAlgorithm.Offspring | backend/app/algorithms/genetic_algorithm.py:182-199 | each pair of offspring (two tournaments, optional SBX, mutation, clipping) lies in the bounds |
| GeneticAlgorithm.NextMember | backend/app/algorithms/genetic_algorithm.py:180-203 | member `k` of the next generation is the first or second child of pair `k / 2`, and lies in the bounds |
| GeneticAlgorithm.PairMembers | backend/app/algorithms/genetic_algorithm.py:201 | members `2p` and `2p + 1` are the two children of pair `p` |
| GeneticAlgorithm.MakePair | backend/app/algorithms/genetic_algorithm.py:182-199 | one pass of the breeding loop produces exactly pair `p` |
| GeneticAlgorithm.AddPair | backend/app/algorithms/genetic_algorithm.py:201 | `extend([child1, child2])` appends the next two members |
| GeneticAlgorithm.AppendedMembers | backend/app/algorithms/genetic_algorithm.py:201 | appending the next pair keeps the offspring list equal to the next generation's prefix |
| GeneticAlgorithm.Breed | backend/app/algorithms/genetic_algorithm.py:177-204 | the breeding loop plus trimming yields exactly `population_size` members, member `k` being the generation's member `k`, all in bounds |
| GeneticAlgorithm.Configure | backend/app/algorithms/genetic_algorithm.py:23-53 | the constructor checks the schema first, then the parameters; success yields a well-formed problem and legal settings, failure the first error |
| GeneticAlgorithm.New | backend/app/algorithms/genetic_algorithm.py:23-53 | construction succeeds exactly for acceptable inputs, raising the first validation error otherwise, with no best solution and an empty trace |
| GeneticAlgorithm.GeneticAlgorithm.constructor | backend/app/algorithms/genetic_algorithm.py:23-53 | the fields hold the validated problem and settings; no best solution, empty trace |
| GeneticAlgorithm.GeneticAlgorithm.Initialize | backend/app/algorithms/genetic_algorithm.py:143-167 | `initialize` succeeds exactly when every random start point scores finitely, then stores them, takes the argmin/argmax as best and appends its score to the trace |
| GeneticAlgorithm.GeneticAlgorithm.AdoptScores | backend/app/algorithms/genetic_algorithm.py:154-167 | the scores are stored, the best is the argmin/argmax individual and its score is appended |
| GeneticAlgorithm.GeneticAlgorithm.Replace | backend/app/algorithms/genetic_algorithm.py:205-206 | the population becomes the new generation, in bounds |
| GeneticAlgorithm.GeneticAlgorithm.AdvanceBest | backend/app/algorithms/genetic_algorithm.py:208-227 | the generation's argmin/argmax replaces the best exactly when strictly better; its score is appended; the best never worsens |
| GeneticAlgorithm.GeneticAlgorithm.Generation | backend/app/algorithms/genetic_algorithm.py:177-227 | one generation replaces the population by the bred one; it raises `RuntimeError` exactly when a child scores non-finitely, leaving scores, best and trace as they were; otherwise the best becomes the first best child when that child is strictly better than the old best (else it stays), and the new best is appended to the trace |
| GeneticAlgorithm.GeneticAlgorithm.Optimize | backend/app/algorithms/genetic_algorithm.py:169-227 | `optimize` keeps the old trace as a prefix, adds one entry per completed generation, stops on timeout and never worsens the best |
| GeneticAlgorithm.GeneticAlgorithm.GetResults | backend/app/algorithms/base.py:34-43 | `get_results` reports the class name, the best solution, the trace and the raw parameters |
| DeOperators.CheckBounds | backend/app/algorithms/differential_evolution.py:81-88 | the bound loop accepts exactly when every bound is valid, returning them in order; it raises `ValueError` at the first bad one |
| DeOperators.ValidateProblemSchema | backend/app/algorithms/differential_evolution.py:68-94 | accepts exactly the well-formed problems and keeps their dimension, their bounds in order, fitness and objective; an unsized `bounds` raises `TypeError` from `len`, every other failure `ValueError` |
| DeOperators.ValidateParameters | backend/app/algorithms/differential_evolution.py:96-111 | accepts exactly the legal settings and keeps their values; a non-numeric `F`, or a non-numeric `CR` after a legal `F`, reaching its comparison raises `TypeError` |
| DeOperators.ReflectCoord | backend/app/algorithms/differential_evolution.py:130-135 | reflection (then clipping) lands in the bound and leaves in-range values alone |
| DeOperators.FlooredModRange | backend/app/algorithms/differential_evolution.py:137 | Python's floored `%` lies in `[0, w)` and fixes values already there |
| DeOperators.ScaledFraction | backend/app/algorithms/differential_evolution.py:137 | a fraction in [0, 1) of a positive width stays in `[0, w)` |
| DeOperators.WrapCoord | backend/app/algorithms/differential_evolution.py:137 | wrapping lands in `[lo, hi)` and leaves values there alone |
| DeOperators.BoundaryImage | backend/app/algorithms/differential_evolution.py:124-138 | each boundary policy lands in the bounds (wrap in the half-open bounds) and keeps coordinates that are already inside |
| DeOperators.BoundaryIdempotent | backend/app/algorithms/differential_evolution.py:124-138 | applying a boundary policy twice is the same as once |
| DeOperators.Reflect | backend/app/algorithms/differential_evolution.py:129-135 | the reflection loop over a copy computes the reflect image |
| DeOperators.ApplyBoundary | backend/app/algorithms/differential_evolution.py:124-138 | `_apply_boundary` computes the image under the configured policy |
| DeOperators.OthersFromShape | backend/app/algorithms/differential_evolution.py:141 | the filtered index list skips exactly the target |
| DeOperators.OthersFromAbove | backend/app/algorithms/differential_evolution.py:141 | above the target the filtered list is the plain range |
| DeOperators.OthersShape | backend/app/algorithms/differential_evolution.py:141 | `[idx for idx in range(n) if idx != i]` has `n - 1` entries: `j` below `i`, `j + 1` from it on |
| DeOperators.Donors | backend/app/algorithms/differential_evolution.py:142 | one donor per draw |
| DeOperators.DonorsExcludeTarget | backend/app/algorithms/differential_evolution.py:141-152 | drawn without replacement from the filtered list, the donors are distinct population members other than the target |
| DeOperators.Mutant | backend/app/algorithms/differential_evolution.py:140-153 | the mutant of each strategy keeps the dimension |
| DeOperators.MutantOfEqualDifferences | backend/app/algorithms/differential_evolution.py:140-153 | when the difference vectors vanish the mutant is its base vector (the best for `best/1/bin`, donor `a` otherwise) |
| DeOperators.CrossMask | backend/app/algorithms/differential_evolution.py:178-180 | the crossover mask has at least one true entry: `rand < CR` when any is, else only the forced position |
| DeOperators.Trial | backend/app/algorithms/differential_evolution.py:181 | `np.where` keeps the dimension |
| DeOperators.TrialTakesFromMutant | backend/app/algorithms/differential_evolution.py:178-181 | the trial takes the mutant where the mask is set and the target elsewhere, and at least one coordinate from the mutant |
| DifferentialEvolution.CrossRands | backend/app/algorithms/differential_evolution.py:178 | one draw per dimension |
| DifferentialEvolution.EvaluateIndividual | backend/app/algorithms/differential_evolution.py:113-122 | `_evaluate` returns the value exactly when it is finite and raises `RuntimeError` otherwise |
| DifferentialEvolution.TrialFor | backend/app/algorithms/differential_evolution.py:167-182 | the trial vector lies in the bounds |
| DifferentialEvolution.SelectAtKeepsConsistent | backend/app/algorithms/differential_evolution.py:184-203 | greedy selection of one target keeps population, scores and best consistent with the fitness and never worsens the best |
| DifferentialEvolution.SweepFromStep | backend/app/algorithms/differential_evolution.py:166-203 | a sweep step that raises ends the sweep with that error; one that succeeds keeps the state consistent and hands it to the next target |
| DifferentialEvolution.SweepFromProperties | backend/app/algorithms/differential_evolution.py:166-203 | a whole sweep raises only `RuntimeError`; a completed one leaves a consistent state in which no member scores worse and the best has not regressed |
| DifferentialEvolution.SelectAtProperties | backend/app/algorithms/differential_evolution.py:184-203 | selection succeeds exactly when the trial scores finitely, changes only the target (to itself or the trial) and never worsens its score |
| DifferentialEvolution.ReportedIterations | backend/app/algorithms/differential_evolution.py:208 | the reported count is the completed iterations, plus one for the iteration that hit the timeout |
| DifferentialEvolution.Configure | backend/app/algorithms/differential_evolution.py:17-45 | schema first, then parameters; success yields legal settings, failure the first error |
| DifferentialEvolution.New | backend/app/algorithms/differential_evolution.py:17-45 | construction succeeds exactly for acceptable inputs, raising the first error otherwise; nothing populated, empty trace |
| DifferentialEvolution.DifferentialEvolution.constructor | backend/app/algorithms/differential_evolution.py:17-45 | the fields hold the validated problem and settings; nothing populated |
| DifferentialEvolution.DifferentialEvolution.Initialize | backend/app/algorithms/differential_evolution.py:47-66 | `initialize` draws the population, succeeds exactly when all score finitely (else raises and leaves the scores alone), then takes the argmin/argmax as best and starts a fresh one-entry trace |
| DifferentialEvolution.DifferentialEvolution.Scatter | backend/app/algorithms/differential_evolution.py:50-53 | the population is the random points, in bounds |
| DifferentialEvolution.DifferentialEvolution.AdoptScores | backend/app/algorithms/differential_evolution.py:54-66 | scores stored, argmin/argmax taken as best, trace reset to its score |
| DifferentialEvolution.DifferentialEvolution.ScoreAll | backend/app/algorithms/differential_evolution.py:54 | every member's score in order when all are finite, else `RuntimeError` |
| DifferentialEvolution.DifferentialEvolution.MakeTrial | backend/app/algorithms/differential_evolution.py:167-182 | the mutation and binomial-crossover code returns exactly `TrialFor`, the strategy's donor mix crossed with the target and clipped to the bounds |
| DifferentialEvolution.DifferentialEvolution.Select | backend/app/algorithms/differential_evolution.py:184-203 | one target's step is `SelectAt`: it raises `RuntimeError` with the state unchanged exactly on a non-finite trial, else keeps the trial when it scores better; the best never worsens and the trace is untouched |
| DifferentialEvolution.DifferentialEvolution.Keep | backend/app/algorithms/differential_evolution.py:192-203 | a strictly better trial replaces the target and, if better than the best, the best solution |
| DifferentialEvolution.DifferentialEvolution.Sweep | backend/app/algorithms/differential_evolution.py:166-203 | the in-place loop over all targets raises exactly when `SweepFrom` does and otherwise leaves exactly its state; no member's score or the best gets worse, and the trace is untouched |
| DifferentialEvolution.DifferentialEvolution.Visit | backend/app/algorithms/differential_evolution.py:166-203 | one target's selection inside the sweep is one step of `SweepFrom`: a `RuntimeError` ends the sweep, otherwise the rest of the sweep continues from the new state; the best never gets worse |
| DifferentialEvolution.DifferentialEvolution.Iterate | backend/app/algorithms/differential_evolution.py:166-205 | one iteration is a sweep with exactly `SweepFrom`'s new state, then the best is appended to the trace; it raises only when the sweep does |
| DifferentialEvolution.DifferentialEvolution.Iterations | backend/app/algorithms/differential_evolution.py:162-205 | the loop appends one entry per completed iteration, keeping the old trace as prefix |
| DifferentialEvolution.DifferentialEvolution.Optimize | backend/app/algorithms/differential_evolution.py:156-208 | `optimize` initialises if needed, runs until the timeout, and returns the results with the reported iteration count |
| DifferentialEvolution.DifferentialEvolution.GetResults | backend/app/algorithms/differential_evolution.py:212-227 | the results report the best solution, score, trace, parameters, iteration count and status `success`; without a best score `float(None)` raises `TypeError` |
| Validation.ValidateBound | backend/app/core/validation.py:60-94 | `validate_bound` complains about nothing exactly when the bound is a two-number sequence with lower below upper |
| Validation.ValidateBoundComplaints | backend/app/core/validation.py:60-94 | a non-sequence or wrong-length bound gets exactly one complaint, any bound at most two, every complaint names the bound's index, and an order complaint carries the two numbers with lower >= upper |
| Validation.BoundIssuesEmpty | backend/app/core/validation.py:47-50 | good bounds contribute no complaints |
| Validation.BoundIssuesOk | backend/app/core/validation.py:47-50 | no collected complaint means every bound is good |
| Validation.BoundIssuesMembers | backend/app/core/validation.py:47-50 | the collected complaints are exactly those of the individual bounds |
| Validation.ValidateBounds | backend/app/core/validation.py:217-238 | `validate_bounds` rejects a length mismatch with exactly that error, otherwise collects the per-bound complaints; valid iff no error iff the length matches and every bound is good |
| Validation.DimensionIssues | backend/app/core/validation.py:31-39 | `dimensions` is accepted iff it is an integer in 1..`MAX_DIMENSIONS`, warned about iff above 30 |
| Validation.ProblemBoundIssues | backend/app/core/validation.py:41-50 | a non-list `bounds` and a length mismatch with a truthy `dimensions` each give exactly one error; otherwise the errors are exactly the per-bound complaints |
| Validation.ValidateProblem | backend/app/core/validation.py:8-58 | `validate_problem` is valid iff there is no error iff the problem is acceptable; missing fields short-circuit with only their errors; the dimension warning, the bounds-type and length errors and every per-bound complaint are reported |
| Validation.ProblemOkAgreesWithSchema | backend/app/core/validation.py:8-58 | an acceptable problem with a callable passes the optimisers' schema check, and a schema-valid problem within `MAX_DIMENSIONS` is acceptable |
| Validation.IterationIssues | backend/app/core/validation.py:110-119 | `max_iterations` (default 50) is accepted iff an integer in 1..`MAX_ITERATIONS`, with at most one error, and warned about iff below 10 |
| Validation.PsoParamIssues | backend/app/core/validation.py:134-173 | no PSO error iff swarm size >= 10, numeric `w`, `c1`, `c2` not both zero; warnings exactly for a swarm above 200 and an inertia below 0 or at least 1 |
| Validation.GaParamIssues | backend/app/core/validation.py:175-215 | raises `TypeError` exactly when a valid tournament size is compared with a non-numeric population size; otherwise no error iff the GA settings are legal, with warnings for a population above 200 and a mutation rate above 0.5 |
| Validation.ValidateAlgorithmParams | backend/app/core/validation.py:96-132 | valid iff no error; the iteration warning is always kept; for PSO and GA it is valid exactly when the optimiser's own constructor check accepts the parameters; other algorithms get only the iteration check |
| Utils.Square | backend/app/core/utils.py:18 | a square is never negative |
| Utils.Sphere | backend/app/core/utils.py:12-18 | the sphere function is never negative |
| Utils.SphereZeroAtOrigin | backend/app/core/utils.py:12-18 | the sphere function is 0 at the origin, its documented global minimum |
| Utils.RosenbrockTerm | backend/app/core/utils.py:39 | each Rosenbrock term is non-negative and vanishes at (1, 1) |
| Utils.Rosenbrock | backend/app/core/utils.py:32-39 | the Rosenbrock function is never negative |
| Utils.RosenbrockZeroAtOnes | backend/app/core/utils.py:32-39 | the Rosenbrock function is 0 at (1, ..., 1), its documented global minimum |
| Utils.FitnessFunctionNames | backend/app/core/utils.py:66-72 | the registry's keys in order |
| Utils.GetFitnessFunction | backend/app/core/utils.py:79-97 | a registered name returns the benchmark of that name; any other raises `ValueError` listing the available names |
| Utils.GetFitnessFunctionFindsEvery | backend/app/core/utils.py:66-97 | every benchmark is registered and looked up by its own name |
| Utils.CreateProblemDict | backend/app/core/utils.py:100-123 | the dictionary has exactly the four keys, holding the given values (objective defaulting to `minimize`) |
| Utils.LinspaceIndex | backend/app/core/utils.py:141 | `np.linspace(0, n - 1, m, dtype=int)[k]` is a valid index |
| Utils.LinspaceIndexLast | backend/app/core/utils.py:141 | the last sample index is the last position |
| Utils.LinspaceIndexStep | backend/app/core/utils.py:141 | when fewer samples than points are taken, sample indices strictly increase |
| Utils.LinspaceIndexProperties | backend/app/core/utils.py:141 | the sample indices start at 0, end at `n - 1` and strictly increase |
| Utils.LinspaceIndexMonotone | backend/app/core/utils.py:141 | sample indices are monotone |
| Utils.Samples | backend/app/core/utils.py:141-142 | the sampled curve has `m` entries, entry `k` taken at the `k`-th `linspace` index |
| Utils.FormatConvergenceCurve | backend/app/core/utils.py:126-142 | a curve of at most `max_points` is returned unchanged; a longer one is sampled down to exactly `max_points` entries at the `linspace` indices; a negative `max_points` makes `linspace` raise `ValueError` |
| Utils.DownsampleKeepsEnds | backend/app/core/utils.py:126-142 | downsampling keeps the first and the last value and keeps an improving trace improving |
| Utils.CalculateStatistics | backend/app/core/utils.py:145-166 | empty curve gives `{}`; otherwise the four keys, with improvement = first - last and the percentage relative to the first value's magnitude (0 when it is 0) |
| Utils.StatisticsSigns | backend/app/core/utils.py:145-166 | the percentage has the sign of the improvement, and a minimisation trace that only improves has non-negative improvement |
| Utils.RecommendedBound | backend/app/core/utils.py:180-188 | each recommended box is non-empty; unknown names get (-10, 10) |
| Utils.GetRecommendedBounds | backend/app/core/utils.py:169-189 | `[bound] * dimensions`: as many copies of the box as dimensions (none for a negative count) |
| Utils.RecommendedProblemAccepted | backend/app/core/utils.py:100-189 | a problem built from the recommended bounds passes the optimisers' schema and, within `MAX_DIMENSIONS`, `validate_problem` |
| Sandbox.ClipBox | backend/docker/runner.py:132 | `np.clip(x, lb, ub)` keeps the length, lands in the box and keeps in-box coordinates |
| Sandbox.BoxPoint | backend/docker/runner.py:102 | one row of `np.random.uniform(lb, ub, (n, dims))` has `dims` coordinates in the box |
| Sandbox.BoxPoints | backend/docker/runner.py:102 | `n` such rows, each in the box |
| Sandbox.Scores | backend/docker/runner.py:106 | `[fitness_func(p) for p in ...]`: one score per row, in order |
| Sandbox.RoutineFor | backend/docker/runner.py:77-88 | the `if`/`elif` chain selects the routine of that name, and none exists for any other name |
| Sandbox.RunOptimization | backend/docker/runner.py:54-89 | dispatches on `algorithm` (default `PSO`) with the parameters and the problem's dimensions and bounds (defaults 10, -5.0, 5.0); an unknown name raises `ValueError("Unknown algorithm: ...")` |
| SandboxPso.Velocity | backend/docker/runner.py:122-124 | the velocity update keeps the dimension |
| SandboxPso.VelocityAtRest | backend/docker/runner.py:122-124 | a particle at its personal and the global best only keeps `w` times its velocity |
| SandboxPso.MoveParticle | backend/docker/runner.py:120-142 | one particle's move, clip, evaluation and best updates: personal best replaced iff strictly better, global best only by a strictly better particle, other particles untouched |
| SandboxPso.Scatter | backend/docker/runner.py:102-113 | particles and personal bests are the start points, velocities uniform in [-1, 1], global best the argmin |
| SandboxPso.Sweep | backend/docker/runner.py:120-142 | a sweep keeps the swarm invariant and never raises the global best |
| SandboxPso.Run | backend/docker/runner.py:91-155 | `run_pso` fails for an empty swarm (argmin of nothing); otherwise it reports `max_iterations`, a non-increasing history of `max_iterations + 1` entries starting at the initial best and ending at the reported best, which is the score of the reported solution, in the box and no worse than any start point |
| SandboxGa.Winner | backend/docker/runner.py:181 | the tournament picks the lower score of two, the second on a tie |
| SandboxGa.Selected | backend/docker/runner.py:178-182 | the mating pool has one member per slot, each a copy of a population member |
| SandboxGa.Select | backend/docker/runner.py:178-184 | the selection loop builds exactly the mating pool |
| SandboxGa.Blend | backend/docker/runner.py:190 | the blend keeps the dimension |
| SandboxGa.ConvexStaysIn | backend/docker/runner.py:190 | a convex combination of two values in an interval stays in it |
| SandboxGa.BlendInBox | backend/docker/runner.py:190 | a convex blend of two in-box vectors is in the box |
| SandboxGa.CrossPair | backend/docker/runner.py:189-191 | the crossed pair (the second blend using the already-updated first) keeps the dimension |
| SandboxGa.CrossPairInBox | backend/docker/runner.py:189-191 | crossing two in-box members leaves both in the box |
| SandboxGa.CrossFrom | backend/docker/runner.py:187-191 | crossing pairs from index `i` on keeps the pool's shape |
| SandboxGa.CrossFromProperties | backend/docker/runner.py:187-191 | members before `i` are untouched and an in-box pool stays in the box |
| SandboxGa.Crossover | backend/docker/runner.py:187-191 | the in-place crossover loop computes exactly the crossed pool |
| SandboxGa.Noise | backend/docker/runner.py:196 | one noise value per dimension |
| SandboxGa.Mutated | backend/docker/runner.py:194-198 | unselected members are unchanged and mutated ones are clipped into the box |
| SandboxGa.MutatedZeroRate | backend/docker/runner.py:195 | with rate 0 no member changes |
| SandboxGa.Mutate | backend/docker/runner.py:194-198 | the in-place mutation loop computes exactly the mutated pool |
| SandboxGa.OffspringProperties | backend/docker/runner.py:177-200 | a generation keeps the population's size and shape, and an in-box population stays in the box |
| SandboxGa.Generation | backend/docker/runner.py:177-200 | selection, crossover and mutation compute exactly the next generation |
| SandboxGa.KeepBest | backend/docker/runner.py:204-207 | the best is replaced only by a strictly lower generation minimum and is then no worse than any member |
| SandboxGa.Run | backend/docker/runner.py:157-217 | `run_ga` fails for an empty population (argmin) or a single member with generations to run (`choice` of 2 from 1); otherwise a non-increasing history of `max_generations + 1` entries ending at the score of the reported solution, in the box and no worse than any start point |
| SandboxDe.DonorsOf | backend/docker/runner.py:238-239 | three distinct donors, none of them the target |
| SandboxDe.ClippedMutant | backend/docker/runner.py:240-241 | the clipped mutant has the dimension and lies in the box |
| SandboxDe.TrialOf | backend/docker/runner.py:238-248 | the trial has the dimension and lies in the box when the target does |
| SandboxDe.TrialOfForcesOne | backend/docker/runner.py:244-248 | the trial takes at least one coordinate from the mutant, and only the forced one when no draw is below `CR` |
| SandboxDe.Visit | backend/docker/runner.py:236-258 | a strictly better trial replaces the target and its score, else nothing changes; the best only falls, to the trial |
| SandboxDe.Generation | backend/docker/runner.py:236-260 | a generation keeps the state consistent, lowers no score and never raises the best |
| SandboxDe.Scatter | backend/docker/runner.py:229-233 | the population is the start points, scores their fitness, the best the argmin |
| SandboxDe.Run | backend/docker/runner.py:219-271 | `run_de` fails for an empty population, for a single member with generations to run (`choice` from an empty index list), for two or three members (`choice` of 3 distinct donors from too few) and for zero dimensions (`randint(0, 0)`); otherwise the same history and best guarantees as `run_pso` |
| SandboxSa.Neighbour | backend/docker/runner.py:291-292 | the neighbour keeps the dimension and lies in the box |
| SandboxSa.Step | backend/docker/runner.py:290-309 | an improving neighbour is always accepted; the current point is it or unchanged; the best only falls, to the accepted point; the temperature is multiplied by the cooling rate; every tenth iteration appends the best |
| SandboxSa.TemperatureAfter | backend/docker/runner.py:306 | after `k` iterations the temperature is `t0 * rate^k` |
| SandboxSa.HistoryAfter | backend/docker/runner.py:286-309 | after `k` iterations the history has `1 + ceil(k / 10)` non-increasing entries, the last no better than the best |
| SandboxSa.BestAfter | backend/docker/runner.py:282-304 | the best is the score of the best point, no worse than the current or the start point, and both points lie in the box |
| SandboxSa.Iterate | backend/docker/runner.py:290-309 | the loop body computes exactly one step |
| SandboxSa.Run | backend/docker/runner.py:273-319 | `run_sa` reports `max_iterations`, a non-increasing history of `1 + ceil(max_iterations / 10)` entries, and a best that is its point's score, in the box and no worse than the start |
| SandboxAcor.SortedPrefix | backend/docker/runner.py:332-334 | the archive ordered by `argsort` is ascending, its head no worse than any entry |
| SandboxAcor.SortCut | backend/docker/runner.py:378-380 | sorting and cutting to `archive_size` yields an ascending archive of true scores whose head is no worse than any row |
| SandboxAcor.Spread | backend/docker/runner.py:358-359 | the summed distances are non-negative |
| SandboxAcor.Sigma | backend/docker/runner.py:358-359 | `sigma` has the dimension and is non-negative for `xi >= 0` |
| SandboxAcor.NewSolution | backend/docker/runner.py:361-362 | a new solution has the dimension and lies in the box |
| SandboxAcor.Ants | backend/docker/runner.py:348-363 | `q == 0` raises `ZeroDivisionError` in the weights, a negative `xi` makes `normal` raise `ValueError`; otherwise one new solution per ant, each sampled around the selected row, in the box |
| SandboxAcor.Iteration | backend/docker/runner.py:345-386 | one iteration keeps a valid archive whose head never gets worse, or raises one of the three errors (zero `q`, no ants to stack, negative `xi`) |
| SandboxAcor.Loop | backend/docker/runner.py:345-389 | the main loop gives a non-increasing history of `max_iterations + 1` entries from the initial head, ending at the reported best's score, or raises exactly as `Iteration` describes |
| SandboxAcor.Run | backend/docker/runner.py:321-389 | `run_acor` raises `IndexError` exactly for an empty archive; otherwise the same history and best guarantees as `run_pso`, with the best no worse than any initial archive row |
| RealWorld.LastLegReturns | backend/app/core/real_world_problems.py:37-39 | the last leg of the tour returns to the first city (`(i + 1) % n_cities`) |
| RealWorld.TourLengthNonNegative | backend/app/core/real_world_problems.py:35-42 | a tour's length is never negative while `sqrt` returns non-negative roots |
| RealWorld.WalkTour | backend/app/core/real_world_problems.py:35-42 | the distance loop raises `IndexError` exactly when the tour names a city that does not exist, and otherwise sums every leg, closing the cycle |
| RealWorld.TspFitness | backend/app/core/real_world_problems.py:30-42 | `tsp_fitness` walks the `argsort` of the solution; a solution of one key per city never raises |
| RealWorld.Selected | backend/app/core/real_world_problems.py:84 | `(solution > 0.5).astype(int)` is 1 exactly above 0.5 and 0 otherwise |
| RealWorld.MaskTimes | backend/app/core/real_world_problems.py:86-87 | `selected * xs` raises numpy's broadcast `ValueError` exactly when the lengths differ and neither is 1, else multiplies element by element |
| RealWorld.MaskedSum | backend/app/core/real_world_problems.py:86-87 | for matching lengths `np.sum(selected * xs)` is the total over the selected items |
| RealWorld.KnapsackFitness | backend/app/core/real_world_problems.py:78-97 | `knapsack_fitness` raises exactly on lengths numpy cannot broadcast together; for one key per item it is minus the selected value within capacity and `penalty_factor` times the excess above it |
| RealWorld.Penalty | backend/app/core/real_world_problems.py:92 | a positive factor times a positive excess is positive |
| RealWorld.OverCapacityPenalised | backend/app/core/real_world_problems.py:90-92 | an over-capacity selection scores strictly positive, worse than any feasible one |
| RealWorld.HalfIsNotSelected | backend/app/core/real_world_problems.py:84 | a key of exactly 0.5 scores like an unselected item (the threshold is strict) |
| RealWorld.KnapsackExampleScores | backend/app/core/real_world_problems.py:267-274 | on the registry's example instance, taking everything costs a penalty of 5000 and items 0, 1 and 3 score -13 |
| RealWorld.Loads | backend/app/core/real_world_problems.py:130-138 | one load per machine |
| RealWorld.Max | backend/app/core/real_world_problems.py:141 | `np.max` is an upper bound attained by some entry |
| RealWorld.LoadsSum | backend/app/core/real_world_problems.py:133-138 | the machine loads add up to the total time of the jobs assigned so far |
| RealWorld.LoadsCoverJobs | backend/app/core/real_world_problems.py:133-141 | with non-negative times, loads are non-negative and the makespan is at least every assigned job's time |
| RealWorld.AssignJobs | backend/app/core/real_world_problems.py:133-141 | the assignment loop raises on zero machines (argmin of nothing, or max of nothing) and on a job index past the list; otherwise it returns the greatest machine load |
| RealWorld.SchedulingFitness | backend/app/core/real_world_problems.py:107-143 | `scheduling_fitness` raises for a negative or zero machine count and for a job index past the list, else returns the makespan of the `argsort` order |
| RealWorld.ScheduleProperties | backend/app/core/real_world_problems.py:128-141 | with one key per job every job is assigned once: the loads add up to the total processing time, and the makespan is at least the longest job |
| RealWorld.AbsAll | backend/app/core/real_world_problems.py:236 | `np.abs` is non-negative and equal to each entry up to sign |
| RealWorld.Shares | backend/app/core/real_world_problems.py:237 | `weights / np.sum(weights)` is non-negative and sums to 1 |
| RealWorld.EqualShares | backend/app/core/real_world_problems.py:237 | the fallback gives every asset `1 / n_assets`, summing to 1 |
| RealWorld.NormalisedWeights | backend/app/core/real_world_problems.py:235-237 | the weights are non-negative and sum to 1, falling back to equal weights when the absolute values sum to 0 |
| RealWorld.WeightsIgnoreSigns | backend/app/core/real_world_problems.py:236 | flipping signs in the solution does not change the weights |
| RealWorld.MatrixTimes | backend/app/core/real_world_problems.py:243 | `np.dot(covariance, weights)` has one entry per row |
| RealWorld.PortfolioFitness | backend/app/core/real_world_problems.py:232-251 | `portfolio_fitness` raises `ValueError` exactly when the shapes do not line up; otherwise it is minus (return - risk aversion * variance) of the normalised weights |
| RealWorld.GetProblemExample | backend/app/core/real_world_problems.py:289-294 | the three registered problem types return their entry (with its fitness creator); any other raises `ValueError("Unknown problem type: ...")` |
| SolutionDecoder.SelectedIndices | backend/app/core/solution_decoder.py:26 | the indices of the genes above 0.5, each once, in increasing order, and no others |
| SolutionDecoder.KeepSelected | backend/app/core/solution_decoder.py:26-42 | walking the selected indices and skipping those past the item list picks the same items, in order, as choosing gene by gene |
| SolutionDecoder.ChosenCount | backend/app/core/solution_decoder.py:33-42 | no more items are chosen than there are genes or items |
| SolutionDecoder.ChosenCountBelow | backend/app/core/solution_decoder.py:33-42 | with at least as many items as genes, no more items than genes are chosen |
| SolutionDecoder.KnapsackReportProperties | backend/app/core/solution_decoder.py:44-52 | the report lists exactly the selected existing items and their count, reports zero utilisation for a non-positive capacity, keeps the capacity, and is within capacity exactly when the unrounded total weight is |
| SolutionDecoder.TotalsAppend | backend/app/core/solution_decoder.py:41-42 | adding an item adds its weight and value to the running totals |
| SolutionDecoder.DecodeKnapsackSolution | backend/app/core/solution_decoder.py:9-52 | `decode_knapsack_solution` returns `KnapsackDecoded`: the items whose key exceeds 0.5 (those past the item list skipped), their count, rounded totals and utilisation, and whether the weight fits |
| SolutionDecoder.PrefixWeightAgrees | backend/app/core/solution_decoder.py:33-41 | the decoder's weight total equals the fitness function's selected weight, gene by gene |
| SolutionDecoder.PrefixValueAgrees | backend/app/core/solution_decoder.py:33-42 | the decoder's value total equals the fitness function's selected value, gene by gene |
| SolutionDecoder.DecodedTotalsAgree | backend/app/core/solution_decoder.py:26-42 | for one gene per item the decoder and `knapsack_fitness` total the same selection |
| SolutionDecoder.DecodedValueScores | backend/app/core/solution_decoder.py:51 | a solution the decoder reports within capacity scores minus its reported value under `knapsack_fitness` |
| SolutionDecoder.Visit | backend/app/core/solution_decoder.py:75-83 | the route has at most one stop per tour entry, each a city of the list |
| SolutionDecoder.VisitAll | backend/app/core/solution_decoder.py:76-83 | when every tour index names a city, the route visits exactly those cities in tour order |
| SolutionDecoder.Names | backend/app/core/solution_decoder.py:104 | `route_order` lists the route's names in order |
| SolutionDecoder.Segments | backend/app/core/solution_decoder.py:86-100 | one segment per stop, segment `i` joining stop `i` to the next |
| SolutionDecoder.SegmentsCloseTheLoop | backend/app/core/solution_decoder.py:86-100 | each segment starts at its stop, ends where the next begins, and the last returns to the first stop |
| SolutionDecoder.TspReportProperties | backend/app/core/solution_decoder.py:102-109 | route, order and segments have the reported city count; an empty route reports average 0; with one key per city the route is the cities in `argsort` order |
| SolutionDecoder.SegmentsAreLegs | backend/app/core/solution_decoder.py:86-100 | each decoded segment's length is the corresponding leg `tsp_fitness` sums |
| SolutionDecoder.BuildRoute | backend/app/core/solution_decoder.py:75-83 | the route loop computes exactly the visited route |
| SolutionDecoder.BuildSegments | backend/app/core/solution_decoder.py:86-100 | the segment loop computes exactly the segments |
| SolutionDecoder.DecodeTspSolution | backend/app/core/solution_decoder.py:55-109 | `decode_tsp_solution` returns `TspDecoded`: the cities in `argsort` order (indices past the list skipped), the closing segments, the rounded total and the rounded average per stop |
| SolutionDecoder.OptimizationResult.constructor | backend/app/core/solution_decoder.py:112-115 | a raw result carries the best solution and score and no problem context |
| SolutionDecoder.AddProblemContextToResult | backend/app/core/solution_decoder.py:112-148 | a knapsack or TSP problem with a non-empty solution gets its decoded report and type written into the result, leaving the other report alone; any other result is unchanged; the same result is returned |
| CodeValidator.FirstComponent | backend/app/validators/code_validator.py:92 | `name.split('.')[0]`: the prefix of the name up to its first dot, containing no dot |
| CodeValidator.AliasErrors | backend/app/validators/code_validator.py:91-100 | at most one error per alias of an `import` |
| CodeValidator.IterableErrors | backend/app/validators/code_validator.py:167-173 | at most one error per `for` clause of a comprehension |
| CodeValidator.HandlerWarnings | backend/app/validators/code_validator.py:152-157 | at most one warning per `except` handler |
| CodeValidator.SecurityValidator.constructor | backend/app/validators/code_validator.py:43-45 | a new validator has no errors and no warnings |
| CodeValidator.SecurityValidator.CheckImports | backend/app/validators/code_validator.py:87-111 | `_check_imports` appends the import errors of every node of the walk, in order, and no warning |
| CodeValidator.SecurityValidator.CheckImportFrom | backend/app/validators/code_validator.py:102-111 | one `from ... import` appends its error, if any |
| CodeValidator.SecurityValidator.CheckAliases | backend/app/validators/code_validator.py:91-100 | one `import` appends the errors of its aliases, in order |
| CodeValidator.SecurityValidator.CheckFunctionCalls | backend/app/validators/code_validator.py:113-128 | `_check_function_calls` appends one error per call of a forbidden builtin by name or attribute, in walk order |
| CodeValidator.SecurityValidator.CheckAttributeAccess | backend/app/validators/code_validator.py:130-139 | `_check_attribute_access` appends one error per forbidden attribute, in walk order |
| CodeValidator.SecurityValidator.CheckForbiddenOperations | backend/app/validators/code_validator.py:141-173 | `_check_forbidden_operations` appends the `with` and comprehension errors and the `ImportError`-handler and lambda warnings of every node, in walk order |
| CodeValidator.SecurityValidator.CheckHandlers | backend/app/validators/code_validator.py:152-157 | one `try` appends a warning per `except ImportError` handler and no error |
| CodeValidator.SecurityValidator.CheckIterables | backend/app/validators/code_validator.py:167-173 | one comprehension appends an error per `for` clause iterating over a call of a forbidden builtin |
| CodeValidator.SecurityValidator.CheckFitnessFunction | backend/app/validators/code_validator.py:175-199 | `_check_fitness_function` appends a signature error per `fitness` definition without exactly one parameter, and the missing-function error when none is defined |
| CodeValidator.SecurityValidator.RunChecks | backend/app/validators/code_validator.py:75-79 | the five checks in order leave exactly all errors and all warnings of the walk |
| CodeValidator.SecurityValidator.Validate | backend/app/validators/code_validator.py:47-85 | `validate` returns the verdict (empty code, syntax error with message and line, parse failure, joined errors, or success); after a parsed non-blank input the lists hold all errors and warnings, otherwise they are empty |
| CodeValidator.ValidateFitnessCode | backend/app/validators/code_validator.py:202-213 | `validate_fitness_code` returns the verdict of a fresh validator, valid exactly when the message is empty |
| CodeValidator.CollectedEmpty | backend/app/validators/code_validator.py:89-199 | a walk reports nothing under a rule exactly when no node does |
| CodeValidator.CollectedAppend | backend/app/validators/code_validator.py:89-199 | the messages of two walks in sequence are the messages of each, concatenated |
| CodeValidator.AllowedNotForbidden | backend/app/validators/code_validator.py:22-33 | no allowed import is a forbidden module |
| CodeValidator.AliasVerdict | backend/app/validators/code_validator.py:91-100 | an alias is accepted iff its first component is allowed, gets the "Forbidden import" message iff it is forbidden, and the "not allowed" message iff it is neither |
| CodeValidator.AliasesAccepted | backend/app/validators/code_validator.py:90-100 | an `import` is accepted iff every alias's first component is allowed |
| CodeValidator.ImportFromVerdict | backend/app/validators/code_validator.py:102-111 | a `from` import is accepted iff it has no module, the module's first component is empty (a relative import) or allowed |
| CodeValidator.IterablesAccepted | backend/app/validators/code_validator.py:166-173 | a comprehension is accepted iff no clause iterates over a forbidden builtin call |
| CodeValidator.NodeVerdict | backend/app/validators/code_validator.py:87-199 | a node draws no error from any check exactly when it is clean |
| CodeValidator.AcceptedWalk | backend/app/validators/code_validator.py:74-85 | a walk draws no error exactly when every node is clean and `fitness` is defined |
| CodeValidator.VerdictAccepts | backend/app/validators/code_validator.py:62-85 | blank code is rejected as empty; other parsed code is valid iff every node is clean and `fitness` is defined; without `fitness` the last error is the missing-function message |
| CodeValidator.WarningNodesAddNoErrors | backend/app/validators/code_validator.py:151-163 | a `lambda` or `try` anywhere in the walk adds only warnings, at its place, never an error |
| CodeValidator.CollectedAround | backend/app/validators/code_validator.py:89-199 | a node's messages appear at its place in the walk's, and a silent node can be dropped |
| CodeValidator.DefinesFitnessAround | backend/app/validators/code_validator.py:180-183 | a node that is not a function definition does not affect whether `fitness` is found |
| CodeValidator.CleanWalkAccepted | backend/app/validators/code_validator.py:217-278 | non-blank code whose nodes are all clean and that defines `fitness` is accepted with an empty message (the self-tests' accepted cases) |
| CodeValidator.UncleanNodeRejected | backend/app/validators/code_validator.py:217-278 | one unclean node anywhere rejects the code (the self-tests' rejected cases) |
| CodeValidator.VerdictMessage | backend/app/validators/code_validator.py:63-85 | the verdict is valid exactly when its message is empty |
| CodeValidator.CollectedMessages | backend/app/validators/code_validator.py:89-199 | rules that report only non-empty messages report only non-empty messages over a walk |
| CodeValidator.ErrorsAreMessages | backend/app/validators/code_validator.py:87-199 | every error any check appends is a non-empty message |
| CodeValidator.AliasMessages | backend/app/validators/code_validator.py:94-100 | every alias error is non-empty |
| CodeValidator.IterableMessages | backend/app/validators/code_validator.py:171-173 | every comprehension error is non-empty |
| CodeValidator.JoinOfMessages | backend/app/validators/code_validator.py:83 | joining errors that start with a non-empty one gives a non-empty message |

## Left out

- **Not modelled as a common supertype.** `OptimizationAlgorithm.initialize` and `optimize` (backend/app/algorithms/base.py:22-32) are abstract. No trait is declared; each class supplies its own `Initialize`, `Optimize` and `GetResults`, and base.py's constructor and `get_results` are modelled in each of them.
- **Other algorithm files.** `ant_colony.py` and `simulated_annealing.py` in backend/app/algorithms are not part of this model. The sandbox's own simulated annealing and ACOR routines are modelled.
- **`load_fitness_function` and `main` of runner.py.** They read files, import modules, write JSON to standard output and read the clock. They are I/O.
- **Sandbox arguments.** The user's function is a total `Vec -> real` in the sandbox, and its parameters arrive as numbers. Exceptions it raises, and parameter dictionaries with wrong types, are not modelled there.
- **Elapsed time.** `elapsed_time` and every other reading of `time.time()` are left out. The timeout test is an oracle `timedOut`, indexed by the iteration.
- **Randomness.** It is a parameter, so no distribution is modelled. Each draw is only known to lie in the range the numpy call guarantees.
- **SandboxSa.Step**: the Metropolis test `random.random() < exp(-delta / temperature)` is the oracle `accept`. Its dependence on the temperature, and the division by a zero temperature, are not modelled.
- **SandboxAcor.NewSolution**: the rank weights and the roulette choice of `run_acor` are replaced by the oracle `select`, which picks an archive index. The weights themselves are not computed.
- **ArgSorting.ArgSort**: a stable insertion sort. numpy's default `argsort` is not guaranteed stable, so among equal keys the model fixes one order out of those numpy may return.
- **Floating point.** Coordinates and scores are `real`, so rounding error and overflow are not modelled. NaN and infinity appear only as `FitnessValue` outcomes of a user function.
- **Transcendental functions.** `sqrt`, the SBX and polynomial-mutation powers, `exp` and `round(x, 2)` are oracles. They are constrained only by the facts the code relies on.
- **Benchmarks with `cos` or `exp`.** `rastrigin`, `ackley` and `griewank` in backend/app/core/utils.py are named in the `Benchmark` datatype but not evaluated. `sphere` and `rosenbrock` are.
- **Messages.** validation.py's messages are modelled as `Issue` kinds, not text. Exception messages are kept only where a property is stated about them, such as the platform-limit and "no best solution" messages. Elsewhere only the exception class is modelled. In the kept messages the interpolated values are dropped: the "(got N)" of the GA population-size message and the ", got N" of the platform-limit message are not part of the text, "≥" is written ">=", and a non-finite score is printed "inf" whatever its sign.
- **Registry text.** The algorithm registry's descriptions and `parameter_info` in backend/app/config.py are left out. Names, statuses and example parameters are kept, and so are the problem registry's names and descriptions in real_world_problems.py.
- **Feature selection.** `feature_selection_fitness` (backend/app/core/real_world_problems.py:153-194) hands a numpy column slice of the training data to the caller-supplied `model_evaluator`, code this model cannot see, and is not part of this model.
- **Knapsack details.** In `create_knapsack_fitness`, the unused `n_items` is left out. Dictionaries the decoders return are records.
- **Code validator: unused flag.** The `fitness_params_correct` flag it sets but never reads is left out.
- **Code validator: asynchronous nodes.** `AsyncWith`, `AsyncFunctionDef` and `TryStar` are not distinguished from other nodes.
- **CodeValidator.Node**: `argCount` counts only the positional `args.args`.
- **Code validator: `__main__` examples.** The examples at the foot of code_validator.py are covered only by the general `CodeValidator.CleanWalkAccepted` and `CodeValidator.UncleanNodeRejected` lemmas.
- **DifferentialEvolution labels.** The DE result's algorithm label is one of the three strategy names. The display string built from it is not modelled.
- **ParticleSwarm.ParticleSwarmOptimization.EvaluateSwarm**: after a `RuntimeError`, it states only the class invariant and a best no worse than before. Which personal bests were already replaced is not stated. The same holds for `ParticleSwarm.ParticleSwarmOptimization.Iterate`.
- **RealWorld.NormalisedWeights**: the contract states non-negativity, a total of 1 and the equal-weight fallback. It does not state that each weight is proportional to its `|solution|` entry.
- **RealWorld.KnapsackFitness**: the raise condition is exact, but the score is stated only when there is one weight and one value per item. When numpy broadcasts a length-1 array against the others, the score is given only by the definition.
- **RealWorld.Loads**: its own contract gives only one load per machine. Totals and bounds are stated by `RealWorld.LoadsSum` and `RealWorld.LoadsCoverJobs`. The choice of the lowest-index least-loaded machine is stated only by its definition.
- **SandboxPso.Sweep**: states the swarm invariant and that the best never rises. It does not state the exact new swarm.
- **SandboxDe.Generation**: states the state invariant, that no score rises and that the best never rises. It does not state the exact new population.
- **GaOperators.MutationDelta**: its bound holds only when the power oracle maps [0, 1] into [0, 1], which `x ** (1 / (eta + 1))` does for a non-negative `eta`.
- **Utils.RecommendedBound**: states that every recommended box is non-empty and gives the default for unknown names. It does not list the table's per-function values.
- **ParticleSwarm.NewVelocity**: its own contract gives only the dimension. Its meaning is stated by `ParticleSwarm.NewVelocityProperties`.
