/** The particle swarm engine `ParticleSwarmOptimization`.

    The swarm keeps one row per particle in four arrays (positions, velocities,
    personal-best positions and scores) plus the global best.  Random draws are
    parameters: `posDraw(i, d)` and `velDraw(i, d)` are the uniform draws of
    `initialize` for particle `i` and dimension `d`, and `r1(t, i, d)`,
    `r2(t, i, d)` the draws of iteration `t`.  The wall clock is the predicate
    `timedOut(t)`, the timeout check at the top of iteration `t`. */
module ParticleSwarm {
  import opened PyValues
  import opened SearchSpace
  import opened PsoValidation
  import opened Base

  /** The parameter values the constructor reads, with their defaults. */
  function SwarmSizeParam(params: map<string, Value>): Value { Get(params, "swarm_size", PInt(30)) }
  function MaxIterationsParam(params: map<string, Value>): Value { Get(params, "max_iterations", PInt(50)) }
  function InertiaParam(params: map<string, Value>): Value { Get(params, "w", PFloat(0.7)) }
  function CognitiveParam(params: map<string, Value>): Value { Get(params, "c1", PFloat(1.5)) }
  function SocialParam(params: map<string, Value>): Value { Get(params, "c2", PFloat(1.5)) }

  /** Everything the constructor demands of its two dictionaries. */
  predicate Acceptable(problem: map<string, Value>, params: map<string, Value>) {
    SchemaOk(problem) &&
    ParametersOk(SwarmSizeParam(params), MaxIterationsParam(params),
                 InertiaParam(params), CognitiveParam(params), SocialParam(params))
  }

  /** The constructor's two checks in order: the problem schema first, then the
      parameters; the first failure is the exception raised. */
  function Configure(problem: map<string, Value>, params: map<string, Value>): (r: Outcome<(Problem, Settings)>)
    ensures r.Returns? <==> Acceptable(problem, params)
    ensures !SchemaOk(problem) ==> r == Raises(ValidateProblemSchema(problem).error)
    ensures r.Returns? ==>
              && WellFormed(r.value.0)
              && r.value.1.swarmSize >= 10 && 1 <= r.value.1.maxIterations <= 100
              && !(r.value.1.c1 == 0.0 && r.value.1.c2 == 0.0)
    ensures r.Raises? ==> r.error.ValueError?
  {
    match ValidateProblemSchema(problem)
    case Raises(e) => Raises(e)
    case Returns(p) =>
      match ValidateParameters(SwarmSizeParam(params), MaxIterationsParam(params),
                               InertiaParam(params), CognitiveParam(params), SocialParam(params))
      case Raises(e) => Raises(e)
      case Returns(s) => Returns((p, s))
  }

  /** Particle `i`'s starting velocity: within plus or minus a tenth of each
      dimension's range. */
  function InitialVelocity(bounds: seq<Bound>, velDraw: (nat, nat) -> real, i: nat): (v: Vec)
    ensures |v| == |bounds|
    ensures ValidBounds(bounds) && (forall d :: 0.0 <= velDraw(i, d) < 1.0) ==>
              forall d :: 0 <= d < |v| ==>
                -((bounds[d].upper - bounds[d].lower) * 0.1) <= v[d] <= (bounds[d].upper - bounds[d].lower) * 0.1
  {
    seq(|bounds|, d requires 0 <= d < |bounds| =>
      var range := (bounds[d].upper - bounds[d].lower) * 0.1;
      Uniform(-range, range, velDraw(i, d)))
  }

  /** The velocity update of particle `i` in iteration `t`: inertia plus the
      cognitive pull towards its personal best and the social pull towards the
      global best, each scaled by a fresh draw per dimension. */
  function NewVelocity(w: real, c1: real, c2: real, v: Vec, x: Vec, pb: Vec, gb: Vec,
                       r1: (nat, nat, nat) -> real, r2: (nat, nat, nat) -> real, t: nat, i: nat): (nv: Vec)
    requires |v| == |x| == |pb| == |gb|
    ensures |nv| == |x|
  {
    seq(|x|, d requires 0 <= d < |x| =>
      w * v[d] + c1 * r1(t, i, d) * (pb[d] - x[d]) + c2 * r2(t, i, d) * (gb[d] - x[d]))
  }

  /** A particle that sits on its personal best and on the global best keeps
      only its damped inertia; with `c2 == 0` the global best has no pull. */
  lemma NewVelocityProperties(w: real, c1: real, c2: real, v: Vec, x: Vec, pb: Vec, gb: Vec, gb': Vec,
                              r1: (nat, nat, nat) -> real, r2: (nat, nat, nat) -> real, t: nat, i: nat)
    requires |v| == |x| == |pb| == |gb| == |gb'|
    ensures x == pb && x == gb ==>
              NewVelocity(w, c1, c2, v, x, pb, gb, r1, r2, t, i) == seq(|v|, d requires 0 <= d < |v| => w * v[d])
    ensures c2 == 0.0 ==>
              NewVelocity(w, c1, c2, v, x, pb, gb, r1, r2, t, i) == NewVelocity(w, c1, c2, v, x, pb, gb', r1, r2, t, i)
  {
  }

  /** Constructing the engine: the constructor's checks raise before any
      state exists; otherwise the new engine holds the validated settings. */
  method New(problem: map<string, Value>, params: map<string, Value>) returns (r: Outcome<ParticleSwarmOptimization>)
    ensures r.Returns? <==> Acceptable(problem, params)
    ensures r.Raises? ==> r.error == Configure(problem, params).error
    ensures r.Returns? ==>
              && fresh(r.value) && r.value.Configured()
              && r.value.problem == problem && r.value.params == params
              && r.value.bestSolution == None && r.value.convergenceCurve == []
  {
    var c := Configure(problem, params);
    if c.Raises? {
      return Raises(c.error);
    }
    var engine := new ParticleSwarmOptimization(problem, params);
    return Returns(engine);
  }

  class ParticleSwarmOptimization {
    const problem: map<string, Value>
    const params: map<string, Value>
    const swarmSize: nat
    const maxIterations: nat
    const w: real
    const c1: real
    const c2: real
    const dimensions: nat
    const bounds: seq<Bound>
    const objective: Objective
    const fitness: Vec -> FitnessValue

    const positions: array<Vec>
    const velocities: array<Vec>
    const personalBestPositions: array<Vec>
    const personalBestScores: array<real>
    var globalBestPosition: Vec
    var globalBestScore: real
    var bestSolution: Option<Vec>
    var convergenceCurve: seq<real>

    /** The index of the trace entry `initialize` recorded last. */
    ghost var runStart: nat
    /** A particle whose personal best is the global best. */
    ghost var bestOwner: nat

    /** The validated settings, and arrays shaped one row per particle. */
    ghost predicate Configured() {
      && dimensions > 0 && |bounds| == dimensions && ValidBounds(bounds)
      && swarmSize >= 10 && 1 <= maxIterations <= 100 && !(c1 == 0.0 && c2 == 0.0)
      && positions.Length == swarmSize && velocities.Length == swarmSize
      && personalBestPositions.Length == swarmSize && personalBestScores.Length == swarmSize
      && positions != velocities && positions != personalBestPositions && velocities != personalBestPositions
    }

    /** The state `initialize` establishes and every iteration keeps: all
        particles and personal bests inside the bounds, each personal-best
        score the fitness of its position, no personal best better than the
        global best, which is itself some particle's personal best, and a trace
        that never regresses since `initialize`. */
    ghost predicate Valid()
      reads this, positions, velocities, personalBestPositions, personalBestScores
    {
      Configured() && SwarmInBounds() && BestsValid() && TraceValid()
    }

    /** Every particle inside the bounds, with a velocity of the right length. */
    ghost predicate SwarmInBounds()
      reads positions, velocities
    {
      && positions.Length == swarmSize && velocities.Length == swarmSize
      && forall i :: 0 <= i < swarmSize ==> InBounds(positions[i], bounds) && |velocities[i]| == dimensions
    }

    /** Every personal best inside the bounds and scored by its fitness, none
        better than the global best, which is some particle's personal best. */
    ghost predicate BestsValid()
      reads this, personalBestPositions, personalBestScores
    {
      && personalBestPositions.Length == swarmSize && personalBestScores.Length == swarmSize
      && (forall i :: 0 <= i < swarmSize ==>
            && InBounds(personalBestPositions[i], bounds)
            && fitness(personalBestPositions[i]) == Finite(personalBestScores[i])
            && !IsBetter(objective, personalBestScores[i], globalBestScore))
      && bestOwner < swarmSize
      && personalBestPositions[bestOwner] == globalBestPosition
      && personalBestScores[bestOwner] == globalBestScore
      && bestSolution == Some(globalBestPosition)
    }

    /** The trace since `initialize` never regresses, and the global best is at
        least as good as its last entry. */
    ghost predicate TraceValid()
      reads this
    {
      && runStart < |convergenceCurve|
      && Improving(objective, convergenceCurve[runStart..])
      && !IsBetter(objective, convergenceCurve[|convergenceCurve| - 1], globalBestScore)
    }

    /** `__init__` once both checks have passed: the settings are stored, no
        solution is known and the trace is empty. */
    constructor (problem: map<string, Value>, params: map<string, Value>)
      requires Acceptable(problem, params)
      ensures Configured()
      ensures this.problem == problem && this.params == params
      ensures Configure(problem, params) == Returns((Problem(dimensions, bounds, objective, fitness),
                                                     Settings(swarmSize, maxIterations, w, c1, c2)))
      ensures bestSolution == None && convergenceCurve == []
    {
      var (p, s) := Configure(problem, params).value;
      this.problem := problem;
      this.params := params;
      swarmSize := s.swarmSize;
      maxIterations := s.maxIterations;
      w := s.w;
      c1 := s.c1;
      c2 := s.c2;
      dimensions := p.dimensions;
      bounds := p.bounds;
      objective := p.objective;
      fitness := p.fitness;
      positions := new Vec[s.swarmSize](_ => []);
      velocities := new Vec[s.swarmSize](_ => []);
      personalBestPositions := new Vec[s.swarmSize](_ => []);
      personalBestScores := new real[s.swarmSize];
      bestSolution := None;
      convergenceCurve := [];
    }

    /** The random start of `initialize`: positions uniform inside the bounds,
        velocities within a tenth of each range, personal bests the positions. */
    method Scatter(posDraw: (nat, nat) -> real, velDraw: (nat, nat) -> real)
      requires Configured()
      requires forall i, d :: 0.0 <= posDraw(i, d) < 1.0
      modifies positions, velocities, personalBestPositions
      ensures SwarmInBounds()
      ensures forall i :: 0 <= i < swarmSize ==>
                && positions[i] == RandomPoint(bounds, posDraw, i)
                && velocities[i] == InitialVelocity(bounds, velDraw, i)
                && personalBestPositions[i] == positions[i]
    {
      var i := 0;
      while i < swarmSize
        invariant 0 <= i <= swarmSize
        invariant forall j :: 0 <= j < i ==>
                    && positions[j] == RandomPoint(bounds, posDraw, j)
                    && velocities[j] == InitialVelocity(bounds, velDraw, j)
                    && personalBestPositions[j] == positions[j]
      {
        positions[i] := RandomPoint(bounds, posDraw, i);
        velocities[i] := InitialVelocity(bounds, velDraw, i);
        personalBestPositions[i] := positions[i];
        i := i + 1;
      }
    }

    /** The end of `initialize`: the scores become the personal-best scores,
        the first best of them the global best, and its score is appended to
        the trace, which starts a new run there. */
    method AdoptScores(scores: seq<real>)
      requires Configured() && SwarmInBounds() && |scores| == swarmSize
      requires forall i :: 0 <= i < swarmSize ==>
                 personalBestPositions[i] == positions[i] && fitness(positions[i]) == Finite(scores[i])
      modifies this, personalBestScores
      ensures Valid()
      ensures personalBestScores[..] == scores
      ensures globalBestScore == scores[ArgBest(objective, scores)]
      ensures globalBestPosition == positions[ArgBest(objective, scores)]
      ensures convergenceCurve == old(convergenceCurve) + [globalBestScore]
      ensures runStart == |old(convergenceCurve)|
    {
      forall i | 0 <= i < swarmSize {
        personalBestScores[i] := scores[i];
      }
      assert personalBestScores[..] == scores;
      var best := ArgBest(objective, scores);
      globalBestPosition, globalBestScore := personalBestPositions[best], scores[best];
      bestSolution := Some(globalBestPosition);
      bestOwner := best;
      runStart := |convergenceCurve|;
      convergenceCurve := convergenceCurve + [globalBestScore];
      assert convergenceCurve[runStart..] == [globalBestScore];
    }

    /** `initialize`: scatter the swarm, evaluate every particle in order and
        take the first best as the global best, appending its score to the
        trace.  The first particle whose fitness is not finite raises. */
    method Initialize(posDraw: (nat, nat) -> real, velDraw: (nat, nat) -> real) returns (r: Outcome<()>)
      requires Configured()
      requires forall i, d :: 0.0 <= posDraw(i, d) < 1.0
      modifies this, positions, velocities, personalBestPositions, personalBestScores
      ensures r.Returns? <==> forall i :: 0 <= i < swarmSize ==> fitness(RandomPoint(bounds, posDraw, i)).Finite?
      ensures r.Raises? ==> r.error.RuntimeError?
      ensures r.Returns? ==>
                && Valid()
                && (forall i :: 0 <= i < swarmSize ==>
                      && positions[i] == RandomPoint(bounds, posDraw, i)
                      && velocities[i] == InitialVelocity(bounds, velDraw, i)
                      && personalBestPositions[i] == positions[i]
                      && fitness(positions[i]) == Finite(personalBestScores[i]))
                && globalBestScore == personalBestScores[ArgBest(objective, personalBestScores[..])]
                && globalBestPosition == positions[ArgBest(objective, personalBestScores[..])]
                && convergenceCurve == old(convergenceCurve) + [globalBestScore]
                && runStart == |old(convergenceCurve)|
    {
      Scatter(posDraw, velDraw);
      var scored := EvaluateAll(fitness, positions[..]);
      if scored.Raises? {
        assert !forall i :: 0 <= i < swarmSize ==> fitness(RandomPoint(bounds, posDraw, i)).Finite?;
        return Raises(scored.error);
      }
      AdoptScores(scored.value);
      return Returns(());
    }

    /** The first half of an iteration: every particle moves, against the
        personal and global bests as they stood before the iteration, and is
        clipped back into the bounds. */
    method MoveSwarm(t: nat, r1: (nat, nat, nat) -> real, r2: (nat, nat, nat) -> real)
      requires Valid()
      modifies positions, velocities
      ensures Valid()
      ensures forall i :: 0 <= i < swarmSize ==>
                && velocities[i] == NewVelocity(w, c1, c2, old(velocities[i]), old(positions[i]),
                                                personalBestPositions[i], globalBestPosition, r1, r2, t, i)
                && positions[i] == ClipToBounds(Add(old(positions[i]), velocities[i]), bounds)
    {
      assert InBounds(globalBestPosition, bounds) by {
        assert personalBestPositions[bestOwner] == globalBestPosition;
      }
      var i := 0;
      while i < swarmSize
        invariant 0 <= i <= swarmSize
        invariant SwarmInBounds()
        invariant forall j :: 0 <= j < i ==>
                    && velocities[j] == NewVelocity(w, c1, c2, old(velocities[j]), old(positions[j]),
                                                    personalBestPositions[j], globalBestPosition, r1, r2, t, j)
                    && positions[j] == ClipToBounds(Add(old(positions[j]), velocities[j]), bounds)
        invariant forall j :: i <= j < swarmSize ==> positions[j] == old(positions[j]) && velocities[j] == old(velocities[j])
      {
        MoveParticle(t, i, r1, r2);
        i := i + 1;
      }
    }

    /** Particle `i`'s move: its new velocity, then its position moved by
        that velocity and clipped. */
    method MoveParticle(t: nat, i: nat, r1: (nat, nat, nat) -> real, r2: (nat, nat, nat) -> real)
      requires Configured() && SwarmInBounds() && i < swarmSize
      requires InBounds(personalBestPositions[i], bounds) && InBounds(globalBestPosition, bounds)
      modifies positions, velocities
      ensures SwarmInBounds()
      ensures velocities[i] == NewVelocity(w, c1, c2, old(velocities[i]), old(positions[i]),
                                           personalBestPositions[i], globalBestPosition, r1, r2, t, i)
      ensures positions[i] == ClipToBounds(Add(old(positions[i]), velocities[i]), bounds)
      ensures forall j :: 0 <= j < swarmSize && j != i ==> positions[j] == old(positions[j]) && velocities[j] == old(velocities[j])
    {
      var v := NewVelocity(w, c1, c2, velocities[i], positions[i], personalBestPositions[i], globalBestPosition, r1, r2, t, i);
      velocities[i] := v;
      var moved := ApplyBounds(Add(positions[i], v), bounds);
      positions[i] := moved;
    }

    /** One particle's evaluation in the second half of an iteration: a strictly
        better score replaces its personal best, and only then is the global
        best compared and, if strictly beaten, replaced. */
    method EvaluateParticle(i: nat) returns (r: Outcome<()>)
      requires Valid() && i < swarmSize
      modifies this, personalBestPositions, personalBestScores
      ensures Valid()
      ensures convergenceCurve == old(convergenceCurve) && runStart == old(runStart)
      ensures r.Returns? <==> fitness(positions[i]).Finite?
      ensures r.Raises? ==> r.error.RuntimeError?
      ensures forall j :: 0 <= j < swarmSize && j != i ==>
                personalBestPositions[j] == old(personalBestPositions[j]) && personalBestScores[j] == old(personalBestScores[j])
      ensures !IsBetter(objective, old(globalBestScore), globalBestScore)
      ensures r.Raises? || !IsBetter(objective, fitness(positions[i]).value, old(personalBestScores[i])) ==>
                && personalBestPositions[i] == old(personalBestPositions[i])
                && personalBestScores[i] == old(personalBestScores[i])
                && globalBestPosition == old(globalBestPosition) && globalBestScore == old(globalBestScore)
      ensures r.Returns? && IsBetter(objective, fitness(positions[i]).value, old(personalBestScores[i])) ==>
                && personalBestPositions[i] == positions[i]
                && personalBestScores[i] == fitness(positions[i]).value
                && if IsBetter(objective, fitness(positions[i]).value, old(globalBestScore))
                   then globalBestPosition == positions[i] && globalBestScore == fitness(positions[i]).value
                   else globalBestPosition == old(globalBestPosition) && globalBestScore == old(globalBestScore)
    {
      var e := Evaluate(fitness, positions[i]);
      if e.Raises? {
        return Raises(e.error);
      }
      var f := e.value;
      if IsBetter(objective, f, personalBestScores[i]) {
        personalBestPositions[i] := positions[i];
        personalBestScores[i] := f;
        if IsBetter(objective, f, globalBestScore) {
          globalBestPosition := positions[i];
          globalBestScore := f;
          bestSolution := Some(globalBestPosition);
          bestOwner := i;
        }
      }
      return Returns(());
    }

    /** The second half of an iteration: particles are evaluated in index
        order; the first non-finite fitness raises and leaves the bests of the
        particles before it updated. */
    method EvaluateSwarm() returns (r: Outcome<()>)
      requires Valid()
      modifies this, personalBestPositions, personalBestScores
      ensures Valid()
      ensures convergenceCurve == old(convergenceCurve) && runStart == old(runStart)
      ensures r.Returns? <==> forall i :: 0 <= i < swarmSize ==> fitness(positions[i]).Finite?
      ensures r.Raises? ==> r.error.RuntimeError?
      ensures !IsBetter(objective, old(globalBestScore), globalBestScore)
      ensures r.Returns? <==> forall i :: 0 <= i < swarmSize ==> fitness(positions[i]).Finite?
      ensures r.Returns? ==> forall i :: 0 <= i < swarmSize ==>
                if IsBetter(objective, fitness(positions[i]).value, old(personalBestScores[i]))
                then personalBestPositions[i] == positions[i] && personalBestScores[i] == fitness(positions[i]).value
                else personalBestPositions[i] == old(personalBestPositions[i]) && personalBestScores[i] == old(personalBestScores[i])
    {
      var i := 0;
      while i < swarmSize
        invariant 0 <= i <= swarmSize
        invariant Valid()
        invariant convergenceCurve == old(convergenceCurve) && runStart == old(runStart)
        invariant !IsBetter(objective, old(globalBestScore), globalBestScore)
        invariant forall j :: 0 <= j < i ==> fitness(positions[j]).Finite?
        invariant forall j :: 0 <= j < i ==>
                    if IsBetter(objective, fitness(positions[j]).value, old(personalBestScores[j]))
                    then personalBestPositions[j] == positions[j] && personalBestScores[j] == fitness(positions[j]).value
                    else personalBestPositions[j] == old(personalBestPositions[j]) && personalBestScores[j] == old(personalBestScores[j])
        invariant forall j :: i <= j < swarmSize ==>
                    personalBestPositions[j] == old(personalBestPositions[j]) && personalBestScores[j] == old(personalBestScores[j])
      {
        r := EvaluateParticle(i);
        if r.Raises? {
          return;
        }
        i := i + 1;
      }
      return Returns(());
    }

    /** One iteration of `optimize`: move the whole swarm, evaluate it, and
        append the global best score to the trace. */
    method Iterate(t: nat, r1: (nat, nat, nat) -> real, r2: (nat, nat, nat) -> real) returns (r: Outcome<()>)
      requires Valid()
      modifies this, positions, velocities, personalBestPositions, personalBestScores
      ensures Valid()
      ensures runStart == old(runStart)
      ensures r.Raises? ==> r.error.RuntimeError? && convergenceCurve == old(convergenceCurve)
      ensures r.Returns? ==> convergenceCurve == old(convergenceCurve) + [globalBestScore]
      ensures !IsBetter(objective, old(globalBestScore), globalBestScore)
      ensures forall i :: 0 <= i < swarmSize ==>
                && velocities[i] == NewVelocity(w, c1, c2, old(velocities[i]), old(positions[i]),
                                                old(personalBestPositions[i]), old(globalBestPosition), r1, r2, t, i)
                && positions[i] == ClipToBounds(Add(old(positions[i]), velocities[i]), bounds)
      ensures r.Returns? <==> forall i :: 0 <= i < swarmSize ==> fitness(positions[i]).Finite?
      ensures r.Returns? ==> forall i :: 0 <= i < swarmSize ==>
                if IsBetter(objective, fitness(positions[i]).value, old(personalBestScores[i]))
                then personalBestPositions[i] == positions[i] && personalBestScores[i] == fitness(positions[i]).value
                else personalBestPositions[i] == old(personalBestPositions[i]) && personalBestScores[i] == old(personalBestScores[i])
    {
      MoveSwarm(t, r1, r2);
      r := EvaluateSwarm();
      if r.Raises? {
        return;
      }
      ImprovingAppend(objective, convergenceCurve[runStart..], globalBestScore);
      assert (convergenceCurve + [globalBestScore])[runStart..] == convergenceCurve[runStart..] + [globalBestScore];
      convergenceCurve := convergenceCurve + [globalBestScore];
    }

    /** `optimize`: up to `maxIterations` iterations, each stopped before it
        starts once the clock has run out; every completed iteration appends
        the global best score, so the trace since `initialize` never regresses. */
    method Optimize(r1: (nat, nat, nat) -> real, r2: (nat, nat, nat) -> real, timedOut: nat -> bool) returns (r: Outcome<()>)
      requires Valid()
      modifies this, positions, velocities, personalBestPositions, personalBestScores
      ensures Valid()
      ensures runStart == old(runStart)
      ensures |old(convergenceCurve)| <= |convergenceCurve| && convergenceCurve[..|old(convergenceCurve)|] == old(convergenceCurve)
      ensures r.Raises? ==> r.error.RuntimeError?
      ensures r.Returns? ==>
                |convergenceCurve| == |old(convergenceCurve)| + CompletedIterations(maxIterations, timedOut, 0)
      ensures r.Returns? && CompletedIterations(maxIterations, timedOut, 0) > 0 ==>
                convergenceCurve[|convergenceCurve| - 1] == globalBestScore
      ensures !IsBetter(objective, old(globalBestScore), globalBestScore)
    {
      var t := 0;
      while t < maxIterations
        invariant 0 <= t <= maxIterations
        invariant Valid()
        invariant runStart == old(runStart)
        invariant |convergenceCurve| == |old(convergenceCurve)| + t
        invariant convergenceCurve[..|old(convergenceCurve)|] == old(convergenceCurve)
        invariant forall s :: 0 <= s < t ==> !timedOut(s)
        invariant t > 0 ==> convergenceCurve[|convergenceCurve| - 1] == globalBestScore
        invariant !IsBetter(objective, old(globalBestScore), globalBestScore)
      {
        if timedOut(t) {
          break;
        }
        r := Iterate(t, r1, r2);
        if r.Raises? {
          return;
        }
        t := t + 1;
      }
      CompletedIterationsAt(maxIterations, timedOut, t);
      return Returns(());
    }

    /** `get_results` of the base class. */
    function GetResults(): (r: Results)
      reads this
      ensures r.algorithm == "ParticleSwarmOptimization" && r.params == params
      ensures r.bestSolution == bestSolution && r.convergenceCurve == convergenceCurve
    {
      Results("ParticleSwarmOptimization", bestSolution, convergenceCurve, params)
    }
  }
}
