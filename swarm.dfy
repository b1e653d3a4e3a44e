/** The older optimizer driver: the same evaluate-then-move loop as the newer one, but with
    the constant constriction coefficients and a swarm best that is only a fitness and a
    position. The particles are a vector of values; each call the driver makes on an
    element is modelled as replacing that element by the state the `Particle` method is
    proved to produce. Randomness is supplied as arguments: `xs` for the initial positions
    (one value per particle and dimension, each in the dimension's bounds) and one
    `RandomPair` per particle per iteration. The iteration and particle index of the
    evaluation that set the swarm best, and the run's evaluations, are ghost: the driver
    does not store them, but they state which evaluation the swarm best belongs to. */
module SwarmDriver {
  import opened Scoring
  import opened Schedule
  import opened Particles
  import opened Population
  import opened Evaluations
  import opened Runs

  /** The body of `initialiseSwarm`'s particle loop: one draw per dimension, in dimension
      order, gives the particle's position. */
  method DrawPosition(x: seq<real>, n: nat) returns (pos: seq<real>)
    requires |x| == n
    ensures pos == x
  {
    pos := [];
    var i := 0;
    while i < n
      invariant 0 <= i <= n
      invariant pos == x[..i]
    {
      pos := pos + [x[i]];
      i := i + 1;
    }
  }

  /** A swarm placed at positions drawn in the box, at rest and with no swarm best yet,
      satisfies the optimizer's invariant. */
  lemma RestingConsistent(ss: seq<State>, xs: seq<seq<real>>, n: nat, lb: seq<real>, ub: seq<real>, b: Leader)
    requires DrawnInBox(xs, |ss|, lb, ub) && n == Dimensions(lb, ub)
    requires forall k :: 0 <= k < |ss| ==> ss[k] == AtRest(xs[k])
    requires b.fitness == Infinite
    ensures Consistent(ss, n, lb, ub, b, [])
  {
    forall k | 0 <= k < |ss| ensures Sound(ss[k], n, lb, ub) && AtMost(b.fitness, ss[k].bestFitness) {
      AtRestSound(xs[k], n, lb, ub);
    }
  }

  class Swarm {
    var particles: seq<State>
    var lowerBounds: seq<real>
    var upperBounds: seq<real>
    var nDimensions: nat
    var nIterations: nat
    var nParticles: nat
    var swarmBestPosition: seq<real>
    var swarmBestFitness: Fitness
    /** The Clerc-Kennedy constriction coefficients, the same for every update. */
    const velocityParameters: Coefficients := Constriction
    /** The iteration and particle index of the evaluation that set the swarm best. */
    ghost var bestIter: nat
    ghost var bestParticle: nat
    /** Every evaluation made since construction, in the order it was made. */
    ghost var evaluations: seq<Evaluation>

    /** The swarm best together with the evaluation that set it. */
    ghost function SwarmBest(): Leader
      reads this
    {
      Leader(swarmBestFitness, swarmBestPosition, bestIter, bestParticle)
    }

    /** The optimizer's invariant: `n_particles` sound particles, a swarm best no worse than
        any personal best, and that swarm best the first minimum of all evaluations. */
    ghost predicate Valid()
      reads this
    {
      && nDimensions == Dimensions(lowerBounds, upperBounds)
      && |particles| == nParticles
      && Consistent(particles, nDimensions, lowerBounds, upperBounds, SwarmBest(), evaluations)
    }

    /** `Swarm(num_particles, num_iters, lbs, ubs)`: sets the problem, places the particles
        at rest at the drawn positions, and only then sets the swarm best fitness to "none". */
    constructor (numParticles: nat, numIters: nat, lbs: seq<real>, ubs: seq<real>, xs: seq<seq<real>>)
      requires DrawnInBox(xs, numParticles, lbs, ubs)
      ensures Valid()
      ensures lowerBounds == lbs && upperBounds == ubs && nDimensions == Dimensions(lbs, ubs)
      ensures nParticles == numParticles && nIterations == numIters
      ensures |particles| == numParticles && forall k :: 0 <= k < numParticles ==> particles[k] == AtRest(xs[k])
      ensures swarmBestFitness == Infinite && evaluations == []
    {
      lowerBounds := lbs;
      upperBounds := ubs;
      nDimensions := Dimensions(lbs, ubs);
      nIterations := numIters;
      nParticles := numParticles;
      particles := [];
      swarmBestPosition := [];
      swarmBestFitness := Infinite;
      bestIter := 0;
      bestParticle := 0;
      evaluations := [];
      new;
      InitialiseSwarm(xs);
      swarmBestFitness := Infinite;
      RestingConsistent(particles, xs, nDimensions, lowerBounds, upperBounds, SwarmBest());
    }

    /** `initialiseSwarm`: appends `n_particles` particles, each at rest at a position drawn
        in the box. */
    method InitialiseSwarm(xs: seq<seq<real>>)
      requires DrawnInBox(xs, nParticles, lowerBounds, upperBounds)
      requires nDimensions == Dimensions(lowerBounds, upperBounds)
      modifies this`particles
      ensures |particles| == |old(particles)| + nParticles && particles[..|old(particles)|] == old(particles)
      ensures forall k :: 0 <= k < nParticles ==> particles[|old(particles)| + k] == AtRest(xs[k])
    {
      ghost var before := particles;
      var k := 0;
      while k < nParticles
        invariant 0 <= k <= nParticles
        invariant |particles| == |before| + k && particles[..|before|] == before
        invariant forall j :: 0 <= j < k ==> particles[|before| + j] == AtRest(xs[j])
      {
        var initPos := DrawPosition(xs[k], nDimensions);
        particles := particles + [AtRest(initPos)];
        k := k + 1;
      }
    }

    /** `optimize`: every iteration evaluates every particle once in index order, and only
        then moves all particles toward the swarm best of that iteration. */
    method Optimize(f: seq<real> -> real, draws: seq<seq<RandomPair>>)
      requires Valid()
      requires RunDraws(draws, nIterations, |particles|)
      modifies this
      ensures Valid()
      ensures |particles| == |old(particles)| && nIterations == old(nIterations)
      ensures lowerBounds == old(lowerBounds) && upperBounds == old(upperBounds)
      ensures Snapshot(particles, SwarmBest())
           == Run(old(Snapshot(particles, SwarmBest())), nDimensions, lowerBounds, upperBounds,
                  Steady(Constriction, nIterations), draws, f, nIterations)
      ensures AtMost(swarmBestFitness, old(swarmBestFitness))
      ensures NoWorse(particles, old(particles))
      ensures nIterations > 0 && |particles| > 0 ==> swarmBestFitness.Finite?
      ensures BestsScored(old(particles), f) ==> BestsScored(particles, f)
      ensures Chronicle(evaluations, |old(evaluations)|, nIterations, |particles|, f, lowerBounds, upperBounds)
      ensures evaluations[..|old(evaluations)|] == old(evaluations)
      ensures evaluations
           == old(evaluations) + RunLog(old(Snapshot(particles, SwarmBest())), nDimensions, lowerBounds, upperBounds,
                                        Steady(Constriction, nIterations), draws, f, nIterations)
    {
      ghost var start := particles;
      ghost var b0 := SwarmBest();
      RanStarts(draws, f);
      var iterIndex := 0;
      while iterIndex < nIterations
        invariant 0 <= iterIndex <= nIterations
        invariant Ran(start, b0, old(evaluations), draws, iterIndex, f)
        invariant nIterations == old(nIterations)
        invariant lowerBounds == old(lowerBounds) && upperBounds == old(upperBounds)
      {
        Step(iterIndex, f, draws, start, b0, old(evaluations));
        iterIndex := iterIndex + 1;
      }
      RanAchieves(start, b0, old(evaluations), draws, f);
    }

    /** A run of `optimize` starts with nothing established. */
    lemma RanStarts(draws: seq<seq<RandomPair>>, f: seq<real> -> real)
      requires Valid() && RunDraws(draws, nIterations, |particles|)
      ensures Ran(particles, SwarmBest(), evaluations, draws, 0, f)
    {
      assert evaluations[..|evaluations|] == evaluations;
      assert evaluations + [] == evaluations;
    }

    /** At the end of the loop of `optimize` the run is complete. */
    lemma RanAchieves(start: seq<State>, b0: Leader, es0: seq<Evaluation>, draws: seq<seq<RandomPair>>, f: seq<real> -> real)
      requires Ran(start, b0, es0, draws, nIterations, f)
      ensures Valid() && |particles| == |start|
      ensures Snapshot(particles, SwarmBest())
           == Run(Snapshot(start, b0), nDimensions, lowerBounds, upperBounds, Steady(Constriction, nIterations), draws, f, nIterations)
      ensures AtMost(swarmBestFitness, b0.fitness) && NoWorse(particles, start)
      ensures nIterations > 0 && |particles| > 0 ==> swarmBestFitness.Finite?
      ensures BestsScored(start, f) ==> BestsScored(particles, f)
      ensures Chronicle(evaluations, |es0|, nIterations, |particles|, f, lowerBounds, upperBounds)
      ensures evaluations[..|es0|] == es0
      ensures evaluations == es0 + RunLog(Snapshot(start, b0), nDimensions, lowerBounds, upperBounds, Steady(Constriction, nIterations), draws, f, nIterations)
    {
    }

    /** What a run of `optimize` with draws `draws` has established after `t` iterations,
        started from particles `start`, swarm best `b0` and evaluations `es0`: the state is
        the run's after `t` iterations, and the evaluations made are `t` whole passes. */
    ghost predicate Ran(start: seq<State>, b0: Leader, es0: seq<Evaluation>, draws: seq<seq<RandomPair>>,
                        t: nat, f: seq<real> -> real)
      reads this
    {
      && Valid()
      && t <= nIterations && RunDraws(draws, nIterations, |start|)
      && Settled(Snapshot(start, b0), nDimensions, lowerBounds, upperBounds)
      && Snapshot(particles, SwarmBest())
         == Run(Snapshot(start, b0), nDimensions, lowerBounds, upperBounds, Steady(Constriction, nIterations), draws, f, t)
      && (BestsScored(start, f) ==> BestsScored(particles, f))
      && Chronicle(evaluations, |es0|, t, |particles|, f, lowerBounds, upperBounds)
      && evaluations[..|es0|] == es0
      && evaluations == es0 + RunLog(Snapshot(start, b0), nDimensions, lowerBounds, upperBounds, Steady(Constriction, nIterations), draws, f, t)
    }

    /** One pass of the loop of `optimize` extends what the run has established by one
        iteration. */
    method Step(t: nat, f: seq<real> -> real, draws: seq<seq<RandomPair>>,
                ghost start: seq<State>, ghost b0: Leader, ghost es0: seq<Evaluation>)
      requires Ran(start, b0, es0, draws, t, f) && t < nIterations
      modifies this
      ensures Ran(start, b0, es0, draws, t + 1, f)
      ensures evaluations == old(evaluations) + Pass(old(particles), t, f)
      ensures nIterations == old(nIterations)
      ensures lowerBounds == old(lowerBounds) && upperBounds == old(upperBounds)
    {
      ChronicleStep(evaluations, |es0|, t, particles, f, nDimensions, lowerBounds, upperBounds);
      RunLogStep(Snapshot(start, b0), nDimensions, lowerBounds, upperBounds, Steady(Constriction, nIterations), draws, f, t, es0);
      Iterate(t, f, draws[t]);
    }

    /** One iteration of `optimize`: evaluate every particle, then move every particle. */
    method Iterate(ghost t: nat, f: seq<real> -> real, r: seq<RandomPair>)
      requires Valid()
      requires |r| == |particles| && forall k :: 0 <= k < |r| ==> r[k].InUnit()
      modifies this
      ensures Valid()
      ensures |particles| == |old(particles)| && nIterations == old(nIterations)
      ensures lowerBounds == old(lowerBounds) && upperBounds == old(upperBounds)
      ensures AtMost(swarmBestFitness, old(swarmBestFitness))
      ensures NoWorse(particles, old(particles))
      ensures |particles| > 0 ==> swarmBestFitness.Finite?
      ensures BestsScored(old(particles), f) ==> BestsScored(particles, f)
      ensures evaluations == old(evaluations) + Pass(old(particles), t, f)
      ensures nDimensions == old(nDimensions)
      ensures Snapshot(particles, SwarmBest())
           == Iteration(old(Snapshot(particles, SwarmBest())), nDimensions, lowerBounds, upperBounds,
                        Constriction, r, f, t)
    {
      ghost var ss := particles;
      EvaluateSwarm(t, f);
      ghost var rs := particles;
      UpdateParticles(r);
      MoveUpToKeepsScored(rs, Constriction, r, swarmBestPosition, lowerBounds, upperBounds, f);
      NoWorseTransitive(particles, rs, ss);
    }

    /** The evaluation pass of `optimize`: each particle, in index order, is evaluated at
        its current position; its personal best, and then the swarm best, are replaced
        only on strict improvement. Positions and velocities do not change. */
    method EvaluateSwarm(ghost iter: nat, f: seq<real> -> real)
      requires Valid()
      modifies this`particles, this`swarmBestFitness, this`swarmBestPosition, this`bestIter,
               this`bestParticle, this`evaluations
      ensures Valid()
      ensures nIterations == old(nIterations)
      ensures lowerBounds == old(lowerBounds) && upperBounds == old(upperBounds)
      ensures particles == RecordUpTo(old(particles), f, |particles|)
      ensures SwarmBest() == ObserveUpTo(old(SwarmBest()), old(particles), f, iter, |particles|)
      ensures evaluations == old(evaluations) + Pass(old(particles), iter, f)
      ensures |particles| > 0 ==> swarmBestFitness.Finite?
      ensures BestsScored(old(particles), f) ==> BestsScored(particles, f)
      ensures forall k :: 0 <= k < |particles| ==> Movable(particles[k], swarmBestPosition, lowerBounds, upperBounds)
    {
      ghost var ss, b, es := particles, SwarmBest(), evaluations;
      PassReady(ss, nDimensions, lowerBounds, upperBounds, b, es, f, iter);
      EvaluateEach(iter, f);
      assert particles == RecordUpTo(ss, f, |ss|) && SwarmBest() == ObserveUpTo(b, ss, f, iter, |ss|);
      assert Consistent(particles, nDimensions, lowerBounds, upperBounds, SwarmBest(), evaluations);
    }

    /** The loop of the evaluation pass, over particles `0 .. |particles| - 1` in order. */
    method EvaluateEach(ghost iter: nat, f: seq<real> -> real)
      modifies this`particles, this`swarmBestFitness, this`swarmBestPosition, this`bestIter,
               this`bestParticle, this`evaluations
      ensures particles == RecordUpTo(old(particles), f, |old(particles)|)
      ensures SwarmBest() == ObserveUpTo(old(SwarmBest()), old(particles), f, iter, |old(particles)|)
      ensures evaluations == old(evaluations) + Pass(old(particles), iter, f)
    {
      ghost var p := Progress(particles, SwarmBest(), evaluations);
      var pIndex := 0;
      while pIndex < |particles|
        invariant 0 <= pIndex <= |particles| == |p.particles|
        invariant Progress(particles, SwarmBest(), evaluations) == EvaluatedUpTo(p, iter, f, pIndex)
      {
        EvaluateParticle(pIndex, iter, f);
        pIndex := pIndex + 1;
      }
      EvaluatedUpToIsPass(p, iter, f, pIndex);
      assert Pass(p.particles, iter, f)[..pIndex] == Pass(p.particles, iter, f);
    }

    /** The body of the evaluation loop for particle `pIndex`: score its current position,
        keep that as its personal best on strict improvement, and only then also as the
        swarm best on strict improvement of that. */
    method EvaluateParticle(pIndex: nat, ghost iter: nat, f: seq<real> -> real)
      requires pIndex < |particles|
      modifies this`particles, this`swarmBestFitness, this`swarmBestPosition, this`bestIter,
               this`bestParticle, this`evaluations
      ensures var x := f(old(particles)[pIndex].position);
              && particles == old(particles)[pIndex := Record(old(particles)[pIndex], x)]
              && SwarmBest() == Observe(old(SwarmBest()), old(particles)[pIndex], pIndex, iter, x)
              && evaluations == old(evaluations) + [Evaluation(iter, pIndex, old(particles)[pIndex].position, x)]
    {
      var particle := particles[pIndex];
      var pos := particle.position;
      var fitness := f(pos);
      if Improves(fitness, particle.bestFitness) {
        particles := particles[pIndex := particle.(bestFitness := Finite(fitness), bestPosition := pos)];
        if Improves(fitness, swarmBestFitness) {
          swarmBestFitness := Finite(fitness);
          swarmBestPosition := pos;
          bestIter := iter;
          bestParticle := pIndex;
        }
      }
      evaluations := evaluations + [Evaluation(iter, pIndex, pos, fitness)];
    }

    /** `updateParticles`: moves every particle once, in index order, with the constriction
        coefficients, its own pair of draws and the current swarm best. Every index the
        update reads must exist, which holds once every particle has been evaluated (see
        `ReadyToMove`). */
    method UpdateParticles(draws: seq<RandomPair>)
      requires Valid()
      requires |draws| == |particles| && forall k :: 0 <= k < |draws| ==> draws[k].InUnit()
      requires forall k :: 0 <= k < |particles| ==> Movable(particles[k], swarmBestPosition, lowerBounds, upperBounds)
      modifies this`particles
      ensures Valid()
      ensures nIterations == old(nIterations)
      ensures lowerBounds == old(lowerBounds) && upperBounds == old(upperBounds)
      ensures swarmBestFitness == old(swarmBestFitness) && swarmBestPosition == old(swarmBestPosition)
      ensures particles == MoveUpTo(old(particles), Constriction, draws, swarmBestPosition, lowerBounds, upperBounds, |particles|)
    {
      ghost var ss := particles;
      var pIndex := 0;
      while pIndex < |particles|
        invariant 0 <= pIndex <= |particles| == |ss|
        invariant particles == MoveUpTo(ss, velocityParameters, draws, swarmBestPosition, lowerBounds, upperBounds, pIndex)
        invariant AllSound(particles, nDimensions, lowerBounds, upperBounds)
      {
        MoveKeepsSound(ss[pIndex], velocityParameters, draws[pIndex], swarmBestPosition, lowerBounds, upperBounds, nDimensions);
        MoveUpToStep(ss, velocityParameters, draws, swarmBestPosition, lowerBounds, upperBounds, pIndex);
        particles := particles[pIndex := Move(particles[pIndex], velocityParameters, draws[pIndex], swarmBestPosition, lowerBounds, upperBounds)];
        pIndex := pIndex + 1;
      }
      SameBestsConsistent(ss, particles, nDimensions, lowerBounds, upperBounds, SwarmBest(), evaluations);
    }
  }
}
