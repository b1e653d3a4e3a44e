/** The newer optimizer driver: a swarm whose coefficients evolve over the run and which
    records the iteration and particle index that set the swarm best.
    The swarm is a vector of particle values; each call the driver makes on an element is
    modelled as replacing that element by the state the `Particle` method is proved to
    produce. Randomness is supplied as arguments: `xs`, `ys` for the initial draws (one value per
    particle and dimension, each in the dimension's bounds) and one `RandomPair` per
    particle per iteration. The objective is an arbitrary total function on positions. */
module PsoDriver {
  import opened Scoring
  import opened Schedule
  import opened Particles
  import opened Population
  import opened Evaluations
  import opened Runs

  /** A particle as `initialise` creates it from draws `x` and `y`: at `x`, with velocity
      `y - x`, and no best yet. */
  function Launch(x: seq<real>, y: seq<real>): (s: State)
    requires |x| <= |y|
    ensures s.position == x && |s.velocity| == |x|
    ensures forall i :: 0 <= i < |x| ==> s.velocity[i] == y[i] - x[i]
    ensures s.bestPosition == [] && s.bestFitness == Infinite
  {
    State(x, seq(|x|, i requires 0 <= i < |x| => y[i] - x[i]), [], Infinite)
  }

  /** With both draws in the box, a launched particle is sound: the velocity `y - x` lies
      within the span. */
  lemma LaunchSound(x: seq<real>, y: seq<real>, n: nat, lb: seq<real>, ub: seq<real>)
    requires |x| == |y| == n && n <= |lb| && n <= |ub| && InBox(x, lb, ub) && InBox(y, lb, ub)
    ensures Sound(Launch(x, y), n, lb, ub)
    ensures forall i :: 0 <= i < n ==> x[i] + Launch(x, y).velocity[i] == y[i] && lb[i] <= y[i] <= ub[i]
  {
    var v := Launch(x, y).velocity;
    forall i | 0 <= i < n ensures lb[i] - ub[i] <= v[i] <= ub[i] - lb[i] {
      assert lb[i] <= x[i] <= ub[i] && lb[i] <= y[i] <= ub[i];
    }
  }

  /** A freshly initialised swarm, all launched from draws in the box and with no swarm
      best yet, satisfies the optimizer's invariant. */
  lemma LaunchesConsistent(ss: seq<State>, xs: seq<seq<real>>, ys: seq<seq<real>>, n: nat,
                           lb: seq<real>, ub: seq<real>, b: Leader)
    requires DrawnInBox(xs, |ss|, lb, ub) && DrawnInBox(ys, |ss|, lb, ub) && n == Dimensions(lb, ub)
    requires forall k :: 0 <= k < |ss| ==> ss[k] == Launch(xs[k], ys[k])
    requires b.fitness == Infinite
    ensures Consistent(ss, n, lb, ub, b, [])
  {
    forall k | 0 <= k < |ss| ensures Sound(ss[k], n, lb, ub) && AtMost(b.fitness, ss[k].bestFitness) {
      LaunchSound(xs[k], ys[k], n, lb, ub);
    }
  }

  /** The body of `initialise`'s particle loop: the position and velocity built dimension
      by dimension from the draws `x` and `y` of one particle. */
  method LaunchParticle(x: seq<real>, y: seq<real>, n: nat) returns (s: State)
    requires |x| == n && |y| == n
    ensures s == Launch(x, y)
  {
    var initPos: seq<real> := [];
    var initVel: seq<real> := [];
    var i := 0;
    while i < n
      invariant 0 <= i <= n
      invariant |initPos| == i && |initVel| == i
      invariant forall d :: 0 <= d < i ==> initPos[d] == x[d] && initVel[d] == y[d] - x[d]
    {
      var xi := x[i];
      var v := y[i] - xi;
      initPos := initPos + [xi];
      initVel := initVel + [v];
      i := i + 1;
    }
    s := State(initPos, initVel, [], Infinite);
  }

  class PSO {
    var swarm: seq<State>
    var lowerBounds: seq<real>
    var upperBounds: seq<real>
    var nDimensions: nat
    var nIterations: nat
    var nParticles: nat
    var swarmBestPosition: seq<real>
    var swarmBestIter: nat
    var swarmBestParticle: nat
    var swarmBestFitness: Fitness
    var velPar: Coefficients
    /** Every evaluation made since `initialise`, in the order it was made. */
    ghost var evaluations: seq<Evaluation>

    /** The swarm best fields as one value. */
    ghost function SwarmBest(): Leader
      reads this
    {
      Leader(swarmBestFitness, swarmBestPosition, swarmBestIter, swarmBestParticle)
    }

    /** The optimizer's invariant: `n_particles` sound particles, a swarm best no worse than
        any personal best, and that swarm best the first minimum of all evaluations. */
    ghost predicate Valid()
      reads this
    {
      && nDimensions == Dimensions(lowerBounds, upperBounds)
      && |swarm| == nParticles
      && Consistent(swarm, nDimensions, lowerBounds, upperBounds, SwarmBest(), evaluations)
    }

    /** `PSO()`: an empty optimizer whose best iteration is 0. */
    constructor ()
      ensures Valid()
      ensures swarm == [] && swarmBestIter == 0 && swarmBestFitness == Infinite && evaluations == []
      ensures lowerBounds == [] && upperBounds == [] && swarmBestPosition == []
    {
      swarm := [];
      lowerBounds := [];
      upperBounds := [];
      nDimensions := 0;
      nIterations := 0;
      nParticles := 0;
      swarmBestPosition := [];
      swarmBestIter := 0;
      swarmBestParticle := 0;
      swarmBestFitness := Infinite;
      velPar := Coefficients(0.0, 0.0, 0.0);
      evaluations := [];
    }

    /** `PSO(num_particles, num_iters, lbs, ubs)`: `PSO()` followed by `initialise`. */
    constructor Create(numParticles: nat, numIters: nat, lbs: seq<real>, ubs: seq<real>,
                       xs: seq<seq<real>>, ys: seq<seq<real>>)
      requires DrawnInBox(xs, numParticles, lbs, ubs) && DrawnInBox(ys, numParticles, lbs, ubs)
      ensures Valid()
      ensures lowerBounds == lbs && upperBounds == ubs && nDimensions == Dimensions(lbs, ubs)
      ensures nParticles == numParticles && |swarm| == numParticles && nIterations == numIters
      ensures forall k :: 0 <= k < |swarm| ==> swarm[k] == Launch(xs[k], ys[k])
      ensures swarmBestIter == 0 && swarmBestFitness == Infinite && evaluations == []
    {
      swarm := [];
      lowerBounds := [];
      upperBounds := [];
      nDimensions := 0;
      nIterations := 0;
      nParticles := 0;
      swarmBestPosition := [];
      swarmBestIter := 0;
      swarmBestParticle := 0;
      swarmBestFitness := Infinite;
      velPar := Coefficients(0.0, 0.0, 0.0);
      evaluations := [];
      new;
      Initialise(numParticles, numIters, lbs, ubs, xs, ys);
    }

    /** `initialise`: sets the problem, appends `num_particles` particles at the drawn
        positions with velocity `y - x`, and resets the swarm best fitness to "none". */
    method Initialise(numParticles: nat, numIters: nat, lbs: seq<real>, ubs: seq<real>,
                      xs: seq<seq<real>>, ys: seq<seq<real>>)
      requires DrawnInBox(xs, numParticles, lbs, ubs) && DrawnInBox(ys, numParticles, lbs, ubs)
      modifies this`swarm, this`lowerBounds, this`upperBounds, this`nDimensions, this`nParticles,
               this`nIterations, this`swarmBestFitness, this`evaluations
      ensures lowerBounds == lbs && upperBounds == ubs && nDimensions == Dimensions(lbs, ubs)
      ensures nParticles == numParticles && nIterations == numIters
      ensures |swarm| == |old(swarm)| + numParticles && swarm[..|old(swarm)|] == old(swarm)
      ensures forall k :: 0 <= k < numParticles ==> swarm[|old(swarm)| + k] == Launch(xs[k], ys[k])
      ensures swarmBestFitness == Infinite && evaluations == []
      ensures old(swarm) == [] ==> Valid()
    {
      lowerBounds := lbs;
      upperBounds := ubs;
      nDimensions := Dimensions(lowerBounds, upperBounds);
      nParticles := numParticles;
      nIterations := numIters;

      ghost var before := swarm;
      var k := 0;
      while k < nParticles
        invariant 0 <= k <= nParticles == numParticles
        invariant lowerBounds == lbs && upperBounds == ubs && nDimensions == Dimensions(lbs, ubs)
        invariant nIterations == numIters
        invariant |swarm| == |before| + k && swarm[..|before|] == before
        invariant forall j :: 0 <= j < k ==> swarm[|before| + j] == Launch(xs[j], ys[j])
      {
        var launched := LaunchParticle(xs[k], ys[k], nDimensions);
        swarm := swarm + [launched];
        k := k + 1;
      }

      swarmBestFitness := Infinite;
      evaluations := [];
      if before == [] {
        LaunchesConsistent(swarm, xs, ys, nDimensions, lbs, ubs, SwarmBest());
      }
    }

    /** `optimize`: every iteration recomputes the coefficients, evaluates every particle
        once in index order, and only then moves all particles toward the swarm best of
        that iteration. */
    method Optimize(f: seq<real> -> real, draws: seq<seq<RandomPair>>)
      requires Valid()
      requires RunDraws(draws, nIterations, |swarm|)
      modifies this
      ensures Valid()
      ensures |swarm| == |old(swarm)| && nIterations == old(nIterations)
      ensures lowerBounds == old(lowerBounds) && upperBounds == old(upperBounds)
      ensures Snapshot(swarm, SwarmBest())
           == Run(old(Snapshot(swarm, SwarmBest())), nDimensions, lowerBounds, upperBounds,
                  Evolving(nIterations), draws, f, nIterations)
      ensures AtMost(swarmBestFitness, old(swarmBestFitness))
      ensures NoWorse(swarm, old(swarm))
      ensures nIterations > 0 && |swarm| > 0 ==> swarmBestFitness.Finite?
      ensures BestsScored(old(swarm), f) ==> BestsScored(swarm, f)
      ensures Chronicle(evaluations, |old(evaluations)|, nIterations, |swarm|, f, lowerBounds, upperBounds)
      ensures evaluations[..|old(evaluations)|] == old(evaluations)
      ensures evaluations
           == old(evaluations) + RunLog(old(Snapshot(swarm, SwarmBest())), nDimensions, lowerBounds, upperBounds,
                                        Evolving(nIterations), draws, f, nIterations)
      ensures nIterations > 0 ==> velPar == Evolve(nIterations - 1, nIterations)
    {
      ghost var start := swarm;
      ghost var b0 := SwarmBest();
      RanStarts(draws, f);
      var iterIndex := 0;
      while iterIndex < nIterations
        invariant 0 <= iterIndex <= nIterations
        invariant Ran(start, b0, old(evaluations), draws, iterIndex, f)
        invariant nIterations == old(nIterations)
        invariant lowerBounds == old(lowerBounds) && upperBounds == old(upperBounds)
      {
        Step(iterIndex, f, draws, start, b0, old(evaluations));
        iterIndex := iterIndex + 1;
      }
      RanAchieves(start, b0, old(evaluations), draws, f);
    }

    /** A run of `optimize` starts with nothing established. */
    lemma RanStarts(draws: seq<seq<RandomPair>>, f: seq<real> -> real)
      requires Valid() && RunDraws(draws, nIterations, |swarm|)
      ensures Ran(swarm, SwarmBest(), evaluations, draws, 0, f)
    {
      assert evaluations[..|evaluations|] == evaluations;
      assert evaluations + [] == evaluations;
    }

    /** At the end of the loop of `optimize` the run is complete. */
    lemma RanAchieves(start: seq<State>, b0: Leader, es0: seq<Evaluation>, draws: seq<seq<RandomPair>>, f: seq<real> -> real)
      requires Ran(start, b0, es0, draws, nIterations, f)
      ensures Valid() && |swarm| == |start|
      ensures Snapshot(swarm, SwarmBest())
           == Run(Snapshot(start, b0), nDimensions, lowerBounds, upperBounds, Evolving(nIterations), draws, f, nIterations)
      ensures AtMost(swarmBestFitness, b0.fitness) && NoWorse(swarm, start)
      ensures nIterations > 0 && |swarm| > 0 ==> swarmBestFitness.Finite?
      ensures BestsScored(start, f) ==> BestsScored(swarm, f)
      ensures Chronicle(evaluations, |es0|, nIterations, |swarm|, f, lowerBounds, upperBounds)
      ensures evaluations[..|es0|] == es0
      ensures evaluations == es0 + RunLog(Snapshot(start, b0), nDimensions, lowerBounds, upperBounds, Evolving(nIterations), draws, f, nIterations)
      ensures nIterations > 0 ==> velPar == Evolve(nIterations - 1, nIterations)
    {
    }

    /** What a run of `optimize` with draws `draws` has established after `t` iterations,
        started from particles `start`, swarm best `b0` and evaluations `es0`: the state is
        the run's after `t` iterations, and the evaluations made are `t` whole passes. */
    ghost predicate Ran(start: seq<State>, b0: Leader, es0: seq<Evaluation>, draws: seq<seq<RandomPair>>,
                        t: nat, f: seq<real> -> real)
      reads this
    {
      && Valid()
      && t <= nIterations && RunDraws(draws, nIterations, |start|)
      && Settled(Snapshot(start, b0), nDimensions, lowerBounds, upperBounds)
      && Snapshot(swarm, SwarmBest())
         == Run(Snapshot(start, b0), nDimensions, lowerBounds, upperBounds, Evolving(nIterations), draws, f, t)
      && (BestsScored(start, f) ==> BestsScored(swarm, f))
      && Chronicle(evaluations, |es0|, t, |swarm|, f, lowerBounds, upperBounds)
      && evaluations[..|es0|] == es0
      && evaluations == es0 + RunLog(Snapshot(start, b0), nDimensions, lowerBounds, upperBounds, Evolving(nIterations), draws, f, t)
      && (t > 0 ==> velPar == Evolve(t - 1, nIterations))
    }

    /** One pass of the loop of `optimize` extends what the run has established by one
        iteration. */
    method Step(t: nat, f: seq<real> -> real, draws: seq<seq<RandomPair>>,
                ghost start: seq<State>, ghost b0: Leader, ghost es0: seq<Evaluation>)
      requires Ran(start, b0, es0, draws, t, f) && t < nIterations
      modifies this
      ensures Ran(start, b0, es0, draws, t + 1, f)
      ensures evaluations == old(evaluations) + Pass(old(swarm), t, f)
      ensures nIterations == old(nIterations)
      ensures lowerBounds == old(lowerBounds) && upperBounds == old(upperBounds)
      ensures velPar == Evolve(t, nIterations)
    {
      ChronicleStep(evaluations, |es0|, t, swarm, f, nDimensions, lowerBounds, upperBounds);
      RunLogStep(Snapshot(start, b0), nDimensions, lowerBounds, upperBounds, Evolving(nIterations), draws, f, t, es0);
      Iterate(t, f, draws[t]);
    }

    /** One iteration of `optimize`: recompute the coefficients, evaluate every particle,
        then move every particle. */
    method Iterate(t: nat, f: seq<real> -> real, r: seq<RandomPair>)
      requires Valid() && t < nIterations
      requires |r| == |swarm| && forall k :: 0 <= k < |r| ==> r[k].InUnit()
      modifies this
      ensures Valid()
      ensures |swarm| == |old(swarm)| && nIterations == old(nIterations)
      ensures lowerBounds == old(lowerBounds) && upperBounds == old(upperBounds)
      ensures velPar == Evolve(t, nIterations)
      ensures AtMost(swarmBestFitness, old(swarmBestFitness))
      ensures NoWorse(swarm, old(swarm))
      ensures |swarm| > 0 ==> swarmBestFitness.Finite?
      ensures BestsScored(old(swarm), f) ==> BestsScored(swarm, f)
      ensures evaluations == old(evaluations) + Pass(old(swarm), t, f)
      ensures nDimensions == old(nDimensions)
      ensures Snapshot(swarm, SwarmBest())
           == Iteration(old(Snapshot(swarm, SwarmBest())), nDimensions, lowerBounds, upperBounds,
                        velPar, r, f, t)
    {
      ghost var ss := swarm;
      EvolveCoefficients(t);
      EvaluateSwarm(t, f);
      ghost var rs := swarm;
      UpdateParticles(r);
      MoveUpToKeepsScored(rs, velPar, r, swarmBestPosition, lowerBounds, upperBounds, f);
      NoWorseTransitive(swarm, rs, ss);
    }

    /** One evaluation pass of `optimize`: each particle, in index order, is evaluated at
        its current position; its personal best, and then the swarm best, are replaced
        only on strict improvement. Positions and velocities do not change. */
    method EvaluateSwarm(iter: nat, f: seq<real> -> real)
      requires Valid()
      modifies this`swarm, this`swarmBestFitness, this`swarmBestPosition, this`swarmBestIter,
               this`swarmBestParticle, this`evaluations
      ensures Valid()
      ensures nIterations == old(nIterations) && velPar == old(velPar)
      ensures lowerBounds == old(lowerBounds) && upperBounds == old(upperBounds)
      ensures swarm == RecordUpTo(old(swarm), f, |swarm|)
      ensures SwarmBest() == ObserveUpTo(old(SwarmBest()), old(swarm), f, iter, |swarm|)
      ensures evaluations == old(evaluations) + Pass(old(swarm), iter, f)
      ensures |swarm| > 0 ==> swarmBestFitness.Finite?
      ensures BestsScored(old(swarm), f) ==> BestsScored(swarm, f)
      ensures forall k :: 0 <= k < |swarm| ==> Movable(swarm[k], swarmBestPosition, lowerBounds, upperBounds)
    {
      ghost var ss, b, es := swarm, SwarmBest(), evaluations;
      PassReady(ss, nDimensions, lowerBounds, upperBounds, b, es, f, iter);
      EvaluateEach(iter, f);
      assert swarm == RecordUpTo(ss, f, |ss|) && SwarmBest() == ObserveUpTo(b, ss, f, iter, |ss|);
      assert Consistent(swarm, nDimensions, lowerBounds, upperBounds, SwarmBest(), evaluations);
    }

    /** The loop of the evaluation pass, over particles `0 .. |swarm| - 1` in order. */
    method EvaluateEach(iter: nat, f: seq<real> -> real)
      modifies this`swarm, this`swarmBestFitness, this`swarmBestPosition, this`swarmBestIter,
               this`swarmBestParticle, this`evaluations
      ensures swarm == RecordUpTo(old(swarm), f, |old(swarm)|)
      ensures SwarmBest() == ObserveUpTo(old(SwarmBest()), old(swarm), f, iter, |old(swarm)|)
      ensures evaluations == old(evaluations) + Pass(old(swarm), iter, f)
    {
      ghost var p := Progress(swarm, SwarmBest(), evaluations);
      var pIndex := 0;
      while pIndex < |swarm|
        invariant 0 <= pIndex <= |swarm| == |p.particles|
        invariant Progress(swarm, SwarmBest(), evaluations) == EvaluatedUpTo(p, iter, f, pIndex)
      {
        EvaluateParticle(pIndex, iter, f);
        pIndex := pIndex + 1;
      }
      EvaluatedUpToIsPass(p, iter, f, pIndex);
      assert Pass(p.particles, iter, f)[..pIndex] == Pass(p.particles, iter, f);
    }

    /** The body of the evaluation loop for particle `pIndex`: score its current position,
        keep that as its personal best on strict improvement, and only then also as the
        swarm best on strict improvement of that. */
    method EvaluateParticle(pIndex: nat, iter: nat, f: seq<real> -> real)
      requires pIndex < |swarm|
      modifies this`swarm, this`swarmBestFitness, this`swarmBestPosition, this`swarmBestIter,
               this`swarmBestParticle, this`evaluations
      ensures var x := f(old(swarm)[pIndex].position);
              && swarm == old(swarm)[pIndex := Record(old(swarm)[pIndex], x)]
              && SwarmBest() == Observe(old(SwarmBest()), old(swarm)[pIndex], pIndex, iter, x)
              && evaluations == old(evaluations) + [Evaluation(iter, pIndex, old(swarm)[pIndex].position, x)]
    {
      var particle := swarm[pIndex];
      var pos := particle.position;
      var fitness := f(pos);
      if Improves(fitness, particle.bestFitness) {
        swarm := swarm[pIndex := particle.(bestFitness := Finite(fitness), bestPosition := pos)];
        if Improves(fitness, swarmBestFitness) {
          swarmBestFitness := Finite(fitness);
          swarmBestPosition := pos;
          swarmBestIter := iter;
          swarmBestParticle := pIndex;
        }
      }
      evaluations := evaluations + [Evaluation(iter, pIndex, pos, fitness)];
    }

    /** `updateParticles`: moves every particle once, in index order, with the current
        coefficients, its own pair of draws and the current swarm best. Every index the
        update reads must exist, which holds once every particle has been evaluated (see
        `ReadyToMove`). */
    method UpdateParticles(draws: seq<RandomPair>)
      requires Valid()
      requires |draws| == |swarm| && forall k :: 0 <= k < |draws| ==> draws[k].InUnit()
      requires forall k :: 0 <= k < |swarm| ==> Movable(swarm[k], swarmBestPosition, lowerBounds, upperBounds)
      modifies this`swarm
      ensures Valid()
      ensures nIterations == old(nIterations) && velPar == old(velPar)
      ensures lowerBounds == old(lowerBounds) && upperBounds == old(upperBounds)
      ensures swarmBestFitness == old(swarmBestFitness) && swarmBestPosition == old(swarmBestPosition)
      ensures swarm == MoveUpTo(old(swarm), velPar, draws, swarmBestPosition, lowerBounds, upperBounds, |swarm|)
    {
      ghost var ss := swarm;
      var pIndex := 0;
      while pIndex < |swarm|
        invariant 0 <= pIndex <= |swarm| == |ss|
        invariant swarm == MoveUpTo(ss, velPar, draws, swarmBestPosition, lowerBounds, upperBounds, pIndex)
        invariant AllSound(swarm, nDimensions, lowerBounds, upperBounds)
      {
        MoveKeepsSound(ss[pIndex], velPar, draws[pIndex], swarmBestPosition, lowerBounds, upperBounds, nDimensions);
        MoveUpToStep(ss, velPar, draws, swarmBestPosition, lowerBounds, upperBounds, pIndex);
        swarm := swarm[pIndex := Move(swarm[pIndex], velPar, draws[pIndex], swarmBestPosition, lowerBounds, upperBounds)];
        pIndex := pIndex + 1;
      }
      SameBestsConsistent(ss, swarm, nDimensions, lowerBounds, upperBounds, SwarmBest(), evaluations);
    }

    /** `evolveCoefficients`: the coefficients for iteration `iterIndex` of the run. */
    method EvolveCoefficients(iterIndex: nat)
      requires nIterations > 0
      modifies this`velPar
      ensures velPar == Evolve(iterIndex, nIterations)
      ensures old(Valid()) ==> Valid()
    {
      var diff := iterIndex as real - nIterations as real;
      var den := nIterations as real * nIterations as real;
      velPar := Coefficients(0.4 * diff * diff / den + 0.4,
                             -3.0 * (iterIndex as real / nIterations as real) + 3.5,
                             3.0 * (iterIndex as real / nIterations as real) + 0.5);
    }
  }
}
