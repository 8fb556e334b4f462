/** `run_pso`, the sandbox's particle swarm.

    Unlike the engine, it draws one scalar pair `rDraw(t, i) = (r1, r2)` per
    particle and iteration, and scores each particle right after it moves, so a
    particle later in the same sweep is already pulled towards a global best
    found earlier in it. */
module SandboxPso {
  import opened SearchSpace
  import opened PyValues
  import opened Sandbox

  /** The values `params.get` falls back on. */
  const DefaultParticles := 30
  const DefaultMaxIterations := 100
  const DefaultInertia := 0.7
  const DefaultCognitive := 1.5
  const DefaultSocial := 1.5

  /** The velocity update of one particle: inertia, plus the pull towards its
      personal best scaled by `r1` and the pull towards the global best scaled
      by `r2`. */
  function Velocity(w: real, c1: real, c2: real, v: Vec, x: Vec, pb: Vec, gb: Vec, r: (real, real)): (nv: Vec)
    requires |v| == |x| == |pb| == |gb|
    ensures |nv| == |x|
  {
    seq(|x|, d requires 0 <= d < |x| => w * v[d] + c1 * r.0 * (pb[d] - x[d]) + c2 * r.1 * (gb[d] - x[d]))
  }

  /** A particle sitting on both its personal best and the global best keeps
      only its damped inertia, whatever the draws. */
  lemma VelocityAtRest(w: real, c1: real, c2: real, v: Vec, x: Vec, r: (real, real))
    requires |v| == |x|
    ensures Velocity(w, c1, c2, v, x, x, x, r) == seq(|v|, d requires 0 <= d < |v| => w * v[d])
  {
  }

  /** The state the swarm loop keeps: one row per particle, personal-best
      scores that are the objective at the personal-best positions, a global
      best no worse than any personal best, and, for a proper box, every
      position and every best inside it. */
  ghost predicate SwarmOk(fitness: Vec -> real, n: nat, dims: nat, lb: real, ub: real,
                          particles: array<Vec>, velocities: array<Vec>, pbest: array<Vec>, pbestFit: array<real>,
                          gbest: Vec, gbestFit: real)
    reads particles, velocities, pbest, pbestFit
  {
    && particles.Length == n && velocities.Length == n && pbest.Length == n && pbestFit.Length == n
    && (forall i :: 0 <= i < n ==> |particles[i]| == dims && |velocities[i]| == dims && |pbest[i]| == dims)
    && (forall i :: 0 <= i < n ==> pbestFit[i] == fitness(pbest[i]) && gbestFit <= pbestFit[i])
    && |gbest| == dims && gbestFit == fitness(gbest)
    && (lb <= ub ==>
          && InBox(gbest, dims, lb, ub)
          && forall i :: 0 <= i < n ==> InBox(particles[i], dims, lb, ub) && InBox(pbest[i], dims, lb, ub))
  }

  /** One pass of the inner loop for particle `i`: move, clip, score, then
      update the personal best and, inside that update, the global best. */
  method MoveParticle(fitness: Vec -> real, n: nat, dims: nat, lb: real, ub: real, w: real, c1: real, c2: real,
                      particles: array<Vec>, velocities: array<Vec>, pbest: array<Vec>, pbestFit: array<real>,
                      gbest: Vec, gbestFit: real, i: nat, r: (real, real)) returns (g: Vec, gf: real)
    requires SwarmOk(fitness, n, dims, lb, ub, particles, velocities, pbest, pbestFit, gbest, gbestFit)
    requires i < n
    requires particles != velocities && particles != pbest && velocities != pbest
    modifies particles, velocities, pbest, pbestFit
    ensures SwarmOk(fitness, n, dims, lb, ub, particles, velocities, pbest, pbestFit, g, gf)
    ensures velocities[i] == Velocity(w, c1, c2, old(velocities[i]), old(particles[i]), old(pbest[i]), gbest, r)
    ensures particles[i] == ClipBox(Add(old(particles[i]), velocities[i]), lb, ub)
    ensures fitness(particles[i]) < old(pbestFit[i]) ==> pbest[i] == particles[i]
    ensures !(fitness(particles[i]) < old(pbestFit[i])) ==> pbest[i] == old(pbest[i]) && pbestFit[i] == old(pbestFit[i])
    ensures gf < gbestFit ==> fitness(particles[i]) < old(pbestFit[i]) && g == particles[i]
    ensures (gf == gbestFit && g == gbest) || gf < gbestFit
    ensures forall j :: 0 <= j < n && j != i ==>
              && particles[j] == old(particles[j]) && velocities[j] == old(velocities[j])
              && pbest[j] == old(pbest[j]) && pbestFit[j] == old(pbestFit[j])
  {
    var v := Velocity(w, c1, c2, velocities[i], particles[i], pbest[i], gbest, r);
    velocities[i] := v;
    var x := ClipBox(Add(particles[i], v), lb, ub);
    particles[i] := x;
    var score := fitness(x);
    g, gf := gbest, gbestFit;
    if score < pbestFit[i] {
      pbest[i] := x;
      pbestFit[i] := score;
      if score < gbestFit {
        g, gf := x, score;
      }
    }
  }

  /** The swarm of `run_pso` before its first iteration: particles at the
      drawn starts, velocities drawn in [-1, 1), personal bests the starts. */
  method Scatter(fitness: Vec -> real, n: nat, dims: nat, lb: real, ub: real, starts: seq<Vec>, scores: seq<real>,
                 velDraw: (nat, nat) -> real)
    returns (particles: array<Vec>, velocities: array<Vec>, pbest: array<Vec>, pbestFit: array<real>)
    requires |starts| == n > 0 && scores == Scores(fitness, starts)
    requires forall i :: 0 <= i < n ==> |starts[i]| == dims && (lb <= ub ==> InBox(starts[i], dims, lb, ub))
    ensures fresh(particles) && fresh(velocities) && fresh(pbest) && fresh(pbestFit)
    ensures particles != velocities && particles != pbest && velocities != pbest
    ensures particles[..] == starts && pbest[..] == starts && pbestFit[..] == scores && velocities.Length == n
    ensures forall i :: 0 <= i < n ==> velocities[i] == seq(dims, d requires 0 <= d < dims => Uniform(-1.0, 1.0, velDraw(i, d)))
    ensures SwarmOk(fitness, n, dims, lb, ub, particles, velocities, pbest, pbestFit,
                    starts[ArgBest(Minimize, scores)], scores[ArgBest(Minimize, scores)])
  {
    particles := new Vec[n](i requires 0 <= i < n => starts[i]);
    velocities := new Vec[n](i => seq(dims, d requires 0 <= d < dims => Uniform(-1.0, 1.0, velDraw(i, d))));
    pbest := new Vec[n](i requires 0 <= i < n => starts[i]);
    pbestFit := new real[n](i requires 0 <= i < n => scores[i]);
    var k := ArgBest(Minimize, scores);
    assert forall i :: 0 <= i < n ==> pbestFit[i] == fitness(pbest[i]) && scores[k] <= pbestFit[i];
  }

  /** One iteration of `run_pso`: every particle in index order moves and is
      scored; the global best only ever improves. */
  method Sweep(fitness: Vec -> real, n: nat, dims: nat, lb: real, ub: real, w: real, c1: real, c2: real,
               particles: array<Vec>, velocities: array<Vec>, pbest: array<Vec>, pbestFit: array<real>,
               gbest: Vec, gbestFit: real, t: nat, rDraw: (nat, nat) -> (real, real)) returns (g: Vec, gf: real)
    requires SwarmOk(fitness, n, dims, lb, ub, particles, velocities, pbest, pbestFit, gbest, gbestFit)
    requires particles != velocities && particles != pbest && velocities != pbest
    modifies particles, velocities, pbest, pbestFit
    ensures SwarmOk(fitness, n, dims, lb, ub, particles, velocities, pbest, pbestFit, g, gf)
    ensures gf <= gbestFit
  {
    g, gf := gbest, gbestFit;
    for i := 0 to n
      invariant SwarmOk(fitness, n, dims, lb, ub, particles, velocities, pbest, pbestFit, g, gf)
      invariant gf <= gbestFit
    {
      g, gf := MoveParticle(fitness, n, dims, lb, ub, w, c1, c2, particles, velocities, pbest, pbestFit, g, gf, i, rDraw(t, i));
    }
  }

  /** `run_pso`: `numParticles` particles drawn in the box with velocities in
      [-1, 1), the global best their argmin, then `maxIterations` sweeps, each
      closed by one history entry.  An empty swarm makes `np.argmin` raise. */
  method Run(fitness: Vec -> real, dims: nat, lb: real, ub: real,
             numParticles: nat, maxIterations: nat, w: real, c1: real, c2: real,
             posDraw: (nat, nat) -> real, velDraw: (nat, nat) -> real, rDraw: (nat, nat) -> (real, real))
    returns (r: Outcome<RunResult>)
    requires forall j, d :: 0.0 <= posDraw(j, d) < 1.0
    ensures r.Raises? <==> numParticles == 0
    ensures r.Raises? ==> r.error == ValueError(EmptyArgmin)
    ensures r.Returns? ==>
              && r.value.iterations == maxIterations
              && |r.value.history| == maxIterations + 1
              && Improving(Minimize, r.value.history)
              && r.value.history[0] == Scores(fitness, BoxPoints(numParticles, dims, lb, ub, posDraw))[
                   ArgBest(Minimize, Scores(fitness, BoxPoints(numParticles, dims, lb, ub, posDraw)))]
              && r.value.bestFitness == r.value.history[maxIterations]
              && r.value.bestFitness == fitness(r.value.bestSolution)
              && (forall i :: 0 <= i < numParticles ==> r.value.bestFitness <= fitness(BoxPoint(dims, lb, ub, posDraw, i)))
              && |r.value.bestSolution| == dims
              && (lb <= ub ==> InBox(r.value.bestSolution, dims, lb, ub))
  {
    if numParticles == 0 {
      return Raises(ValueError(EmptyArgmin));
    }
    var n := numParticles;
    var starts := BoxPoints(n, dims, lb, ub, posDraw);
    var scores := Scores(fitness, starts);
    var particles, velocities, pbest, pbestFit := Scatter(fitness, n, dims, lb, ub, starts, scores, velDraw);
    var k := ArgBest(Minimize, scores);
    var gbest, gbestFit := starts[k], scores[k];
    var history := [gbestFit];
    for t := 0 to maxIterations
      invariant SwarmOk(fitness, n, dims, lb, ub, particles, velocities, pbest, pbestFit, gbest, gbestFit)
      invariant |history| == t + 1 && history[0] == scores[k] && history[t] == gbestFit
      invariant Improving(Minimize, history)
    {
      gbest, gbestFit := Sweep(fitness, n, dims, lb, ub, w, c1, c2,
                               particles, velocities, pbest, pbestFit, gbest, gbestFit, t, rDraw);
      ImprovingAppend(Minimize, history, gbestFit);
      history := history + [gbestFit];
    }
    assert forall i :: 0 <= i < n ==> gbestFit <= history[0] <= scores[i] == fitness(BoxPoint(dims, lb, ub, posDraw, i));
    return Returns(RunResult(gbest, gbestFit, maxIterations, history));
  }
}
