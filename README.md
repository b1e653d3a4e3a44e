# Particle swarm optimisation, modelled in Dafny

This project models the core of a particle swarm optimiser. A swarm of particles searches a
box `[lb, ub]` for a low value of an objective function. A particle holds:

- a position and a velocity;
- the best position it has been evaluated at, and that best fitness.

Each iteration does three things, in this order:

1. Evaluate every particle once, in index order, at its current position.
2. Replace a particle's personal best only on a strict improvement. Only then, and again
   only on a strict improvement, replace the swarm best.
3. Once every particle has been evaluated, move each one. The velocity keeps `(1 + w)` times
   its old value, is pulled toward the particle's own best (weight `c1`) and toward the swarm
   best (weight `c2`), and is bounded by the width of each dimension. The position then
   moves by the new velocity and is bounded into the box.

There are two drivers of this loop:

- `PSO`, the newer one, recomputes `(w, c1, c2)` every iteration and records the iteration
  and particle index that set the swarm best.
- `Swarm`, the older one, uses the fixed Clerc-Kennedy constriction triple.

Modules, one per file:

- `Scoring` (`scoring.dfy`): fitness values. "No fitness yet", which the source stores as
  +infinity, is the constructor `Infinite`. The strict-improvement test both drivers use is
  defined here.
- `Schedule` (`schedule.dfy`): the coefficient triple, the constriction constants and the
  evolving schedule of `evolveCoefficients`.
- `Particles` (`particles.dfy`): what one velocity or position update computes, as pure
  functions. The `Particle` class performs those updates in place and is proved against them.
- `Population` (`population.dfy`) and `Evaluations` (`evaluations.dfy`):
  - the invariants both drivers keep over their particles: every particle in the box and its
    velocity within the span, and the swarm best at most every personal best;
  - the record of every evaluation in order;
  - the lemmas showing that one evaluation or one move keeps those invariants.
- `PsoDriver` (`pso.dfy`) and `SwarmDriver` (`swarm.dfy`): the two driver classes.

Doubles are modelled as `real`. The objective is a total function `seq<real> -> real`.
Random draws come in as arguments that satisfy the random source's range contract:

- `xs`, `ys`: one value per particle and dimension, each within that dimension's bounds;
- `draws`: one `RandomPair` per particle per iteration, both numbers in `[0, 1]`.

Notes on the code's behaviour:

- The velocity update adds `w * v` to the old velocity `v`, so the velocity keeps
  `(1 + w) v` before the pulls are added (see `Particles.RetainedVelocity`).
- The inertia `0.4 (t - n)^2 / n^2 + 0.4` falls monotonically over the run. It is 0.8 at
  `t = 0` and would reach its lowest value, 0.4, at `t = n`. The loop stops at
  `t = n - 1`, so the smallest inertia any iteration uses is `0.4 + 0.4 / n^2` (see
  `Schedule.InertiaNonIncreasing` and `Schedule.Endpoints`).
- A new particle's best position is empty. The drivers never read it before the first
  evaluation fills it, and the model proves this (`Evaluations.ReadyToMove`).
- Both comparisons are strict, so a tie keeps the incumbent. The first evaluation, in
  (iteration, particle) order, that reaches the minimum stays recorded
  (`Evaluations.FirstRecorderKept`).
- A bounded coordinate sticks at the nearer wall: a value past a bound becomes that bound
  (`Particles.ClampPosition`, `Particles.ClampVelocity`).

The drivers hold their particles in a vector. Each update the source makes to an element is
modelled as replacing that element by a new value:

- `Record` for an evaluation. `Particles.Particle.RecordFitness` proves that the accessor
  calls of the evaluation loop produce it.
- `Move` for an `updatePosition` call. `Particles.Particle.UpdatePosition` proves that it
  produces it.

`Runs.Iteration` describes one iteration on these values: an evaluation pass, then a move of
every particle with the swarm best of that pass. `Runs.Run` describes a whole run.

Both drivers keep a ghost list of every evaluation made since initialisation. For `Swarm`, the
iteration and particle index that set the swarm best are ghost too, because that driver does
not store them. Their invariant, `Valid`, says:

- there are `n_particles` particles;
- each particle has `n_dimensions` coordinates, lies in the box, and has a velocity within
  the span;
- the swarm best is at most every personal best, and is the best of the particle that set it;
- the swarm best is the first minimum of all evaluations;
- no personal best is worse than any evaluation of its particle.

## Model

| member | source | states |
|---|---|---|
| Schedule.Evolve | src/PSO.cpp:133-139 | For every iteration of a run, the cognitive and social weights sum to 4 and the inertia is at least 0.4 |
| Schedule.InertiaRange | src/PSO.cpp:136 | For 0 <= t <= n the inertia lies between 0.4 and 0.8 |
| Schedule.InertiaNonIncreasing | src/PSO.cpp:134-136 | The inertia never grows from one iteration to a later one within the run |
| Schedule.HandOver | src/PSO.cpp:137-138 | The cognitive weight never grows and the social weight never shrinks as the iteration index grows |
| Schedule.Endpoints | src/PSO.cpp:136-138 | The schedule starts at (0.8, 3.5, 0.5) at t = 0 and its limit at t = n is (0.4, 0.5, 3.5). The last iteration, t = n - 1, uses the inertia 0.4 + 0.4 / n^2 |
| Particles.Min | src/Particle.cpp:46 | The result is at most both arguments and is one of them |
| Particles.Max | src/Particle.cpp:47 | The result is at least both arguments and is one of them |
| Particles.Dimensions | src/PSO.cpp:30 | The number of dimensions is the length of the shorter bound vector, so every index below it is valid in both |
| Particles.ClampVelocity | src/Particle.cpp:46-47 | A velocity within the span is unchanged. Above `ub - lb` it becomes `ub - lb`, below `lb - ub` it becomes `lb - ub`. An inverted box gives `lb - ub`, because the lower bound is applied last |
| Particles.ClampPosition | src/Particle.cpp:65-66 | A coordinate inside the box is unchanged. Below `lb` it becomes `lb`, above `ub` (with `lb <= ub`) it becomes `ub`. An inverted box gives `lb`, because the lower bound is applied last |
| Particles.NextVelocity | src/Particle.cpp:38-48 | Each coordinate is the steered value `v + w v + c1 r1 (p - x) + c2 r2 (g - x)` bounded to the span. The length is kept, and every coordinate is in the span when the bounds are ordered |
| Particles.NextPosition | src/Particle.cpp:59-67 | Each of the first `|v|` coordinates is `x + v` bounded into the box, and any further coordinate stays. The length is kept, and the result is in the box when the bounds are ordered |
| Particles.RetainedVelocity | src/Particle.cpp:41 | With both random draws zero the velocity becomes (1 + w) times itself, so the old velocity is kept in full |
| Particles.Record | src/PSO.cpp:69-71 | An evaluation changes a particle exactly when it strictly improves the personal best; the new best is that fitness at the current position; the best never gets worse; position and velocity stay |
| Particles.Move | src/Particle.cpp:51-68 | A move leaves the personal best untouched and keeps the lengths of position and velocity |
| Particles.MoveKeepsSound | src/Particle.cpp:32-68 | A particle in the box, with its velocity within the span, is still so after any move with any coefficients and draws |
| Particles.RecordKeepsSound | src/PSO.cpp:69-71 | Recording an evaluation keeps a particle in the box with its velocity within the span |
| Particles.AtRest | src/Particle.cpp:11-18 | A one-argument particle is at its position with one zero velocity coordinate per position coordinate, and has no best |
| Particles.AtRestSound | src/Swarm.cpp:96-98 | A particle at rest at a position in the box has its velocity within the span |
| Particles.Particle.constructor | src/Particle.cpp:11-18 | The new particle's fields are the rest state at `pos` |
| Particles.Particle.WithVelocity | src/PSO.cpp:46 | The two-argument particle has the given position and velocity and no best |
| Particles.Particle.UpdateVelocity | src/Particle.cpp:32-49 | The in-place loop leaves the velocity equal to NextVelocity of the old state; nothing else changes |
| Particles.Particle.UpdatePosition | src/Particle.cpp:51-68 | The velocity update followed by the in-place position loop leaves the particle equal to Move of its old state |
| Particles.Particle.RecordFitness | src/PSO.cpp:65-71 | The getter and setter calls the evaluation loop makes on a particle leave it equal to `Record` of its old state, so a strict improvement stores that fitness and the current position, and nothing else changes |
| Particles.Particle.SetBestPosition | src/Particle.cpp:70 | The best position is replaced unconditionally |
| Particles.Particle.SetBestFitness | src/Particle.cpp:72 | The best fitness is replaced unconditionally |
| Particles.Particle.GetPosition | src/Particle.cpp:74 | Returns the stored position and changes nothing |
| Particles.Particle.GetBestFitness | src/Particle.cpp:76 | Returns the stored best fitness and changes nothing |
| Population.NoWorseTransitive | src/PSO.cpp:60-87 | Personal bests that never got worse over two stretches of a run never got worse over both |
| Population.RecordUpTo | src/PSO.cpp:63-83 | After the first m particles are evaluated in order: positions and velocities are unchanged, each evaluated particle has a best, no best got worse, and the other particles are untouched |
| Population.MoveUpTo | src/PSO.cpp:92-104 | After the first m particles are moved in order: every personal best is unchanged, and the other particles are untouched |
| Population.MoveUpToKeepsScored | src/PSO.cpp:92-104 | Moving the particles leaves every personal best the objective's value at its recorded position, if it was |
| Population.RecordKeepsLead | src/PSO.cpp:69-80 | While the swarm best is at most every personal best, beating it implies beating the particle's own best. So the nested test replaces it exactly when the fitness beats it, and afterwards it is still at most every personal best and belongs to its setter |
| Population.RecordKeepsScored | src/PSO.cpp:69-71 | One evaluation keeps every recorded best equal to the objective at its recorded position |
| Population.RecordUpToKeepsScored | src/PSO.cpp:63-83 | A whole evaluation pass keeps every recorded best equal to the objective at its recorded position |
| Population.RecordKeepsAllSound | src/PSO.cpp:69-71 | One evaluation keeps every particle in the box with its velocity within the span |
| Population.MoveUpToKeepsAllSound | src/PSO.cpp:92-104 | Moving particles that are in the box and ready to move keeps every one of them in the box with its velocity within the span |
| Population.SameBests | src/Particle.cpp:51-68 | Two swarms with the same personal bests agree on whether the swarm best leads them and whether their bests are scored |
| Evaluations.FirstBest | src/PSO.cpp:69-77 | The chosen evaluation has the minimum fitness, and every earlier evaluation is strictly worse |
| Evaluations.FirstMinExists | src/PSO.cpp:69-77 | Every nonempty history of evaluations has a first minimum, found by scanning in order and replacing the candidate only on a strictly lower fitness |
| Evaluations.FirstMinUnique | src/PSO.cpp:69-77 | A history has only one first minimum |
| Evaluations.FirstBestAppend | src/PSO.cpp:73-77 | After one more evaluation, the first minimum moves to it exactly when its fitness is strictly below the old minimum; a tie keeps the earlier evaluation |
| Evaluations.Observe | src/PSO.cpp:69-80 | The swarm best never gets worse, and when it changes it becomes this fitness, this position, this iteration and this particle index |
| Evaluations.EvaluationKeepsTracks | src/PSO.cpp:73-77 | Replacing the swarm best only on strict improvement keeps it the first minimum of all evaluations, with the iteration and index that set it |
| Evaluations.ObserveUpTo | src/PSO.cpp:63-83 | Over a pass, the swarm best never gets worse |
| Evaluations.EvaluationKeepsConsistent | src/PSO.cpp:65-81 | One evaluation keeps the whole driver invariant, and under it the outer test implies the inner one |
| Evaluations.PassKeepsConsistent | src/PSO.cpp:63-83 | An evaluation pass over any prefix keeps the driver invariant; after at least one evaluation the swarm has a best |
| Evaluations.SameBestsConsistent | src/PSO.cpp:92-104 | Moving particles that stay in the box keeps the driver invariant |
| Evaluations.Pass | src/PSO.cpp:63-83 | A pass makes one evaluation per particle. Each is at that particle's position, tagged with the iteration and the particle's index, and scored by the objective. The evaluations are in strictly increasing (iteration, particle) order |
| Evaluations.EvaluateNext | src/PSO.cpp:65-82 | Evaluating one particle keeps the number of particles, adds one entry to the log, and leaves that particle with a personal best |
| Evaluations.EvaluatedUpTo | src/PSO.cpp:63-83 | Evaluating the first m particles one after another keeps the number of particles and adds m entries to the log |
| Evaluations.EvaluatedUpToIsPass | src/PSO.cpp:63-83 | Evaluating particles one after another, each seeing the records made before it, gives exactly the records of RecordUpTo, the swarm best of ObserveUpTo and the evaluations of Pass, all in terms of the positions at the start of the pass |
| Evaluations.ChronicleStep | src/PSO.cpp:60-87 | One more pass extends the run's evaluations by one iteration: still in (iteration, particle) order, each scored by the objective at a position in the box, with earlier evaluations unchanged |
| Evaluations.FirstRecorderKept | src/PSO.cpp:69-77 | Ties keep the first recorder: every evaluation of the run that reaches the swarm best's fitness is the recorded one or comes after it in (iteration, particle) order |
| Evaluations.ReadyToMove | src/Particle.cpp:41-43 | Once every particle has a best, every index the velocity update reads exists, in the particle's best and in the swarm best |
| Evaluations.PassReady | src/PSO.cpp:63-86 | A full evaluation pass ends in the invariant, with a swarm best if there is a particle and every particle ready to move, and it keeps bests scored |
| Runs.SettledConsistent | src/PSO.cpp:69-77 | Any swarm whose particles are in the box, and whose swarm best is at most every personal best, is consistent with a history of evaluations |
| Runs.Iteration | src/PSO.cpp:60-87 | One iteration: an evaluation pass, then a move of every particle with the swarm best after that pass. The swarm best never gets worse and is at most every fitness evaluated in the iteration. No personal best gets worse, and the particles stay in the box and led by the swarm best |
| Runs.RunLog | src/PSO.cpp:59-90 | The evaluations of `t` iterations of a run: iteration `i` adds one pass over the particles at the positions they hold when iteration `i` begins, so there are `t` times as many as particles |
| Runs.RunLogStep | src/PSO.cpp:60-87 | One more iteration appends exactly one pass, at the positions `Run` gives for the start of that iteration, after whatever was logged before |
| Runs.RunLogFirstPass | src/PSO.cpp:59-65 | In any nonempty run, the first pass of the log scores the particles at their starting positions, in particle order and tagged iteration 0 |
| Runs.Run | src/PSO.cpp:59-90 | A run of `t` iterations, each with its own coefficients and draws. The swarm best never gets worse, no personal best gets worse, the particles stay in the box, and after one iteration over a nonempty swarm there is a swarm best |
| PsoDriver.Launch | src/PSO.cpp:38-46 | A launched particle is at the first draw, with velocity `y - x` in every coordinate, and has no best |
| PsoDriver.LaunchSound | src/PSO.cpp:41-44 | With both draws in the box, the velocity `y - x` lies within the span, and one step `x + v` lands exactly on the second draw, inside the box |
| PsoDriver.LaunchesConsistent | src/PSO.cpp:37-49 | A freshly launched swarm with no swarm best satisfies the driver invariant |
| PsoDriver.LaunchParticle | src/PSO.cpp:38-45 | The inner loop builds exactly the launched particle from its draws |
| PsoDriver.PSO.constructor | src/PSO.cpp:10 | An empty optimiser whose best iteration is 0, with empty bounds and an empty swarm best position, satisfies the invariant |
| PsoDriver.PSO.Create | src/PSO.cpp:12-18 | Construction stores the caller's bounds and counts, and yields num_particles launched particles, a swarm best of "none" and best iteration 0, in the invariant |
| PsoDriver.PSO.Initialise | src/PSO.cpp:22-57 | Sets the bounds, n_dimensions = min of the two lengths, the counts; appends exactly num_particles launched particles and keeps the earlier ones; resets the swarm best fitness; ends in the invariant when the swarm was empty |
| PsoDriver.PSO.Optimize | src/PSO.cpp:59-90 | The particles and swarm best at the end are `Run` of the start, with the evolving coefficients and the given draws. The invariant is kept, the particle count is kept, and no best gets worse. After a nonempty run the swarm has a best. The evaluations appended are exactly `RunLog` of the start: in each iteration, one pass at the positions the particles held when it began. They are in (iteration, particle) order and each is scored in the box. The last coefficients are those of iteration `n - 1` |
| PsoDriver.PSO.Step | src/PSO.cpp:60-87 | One pass of the iteration loop advances the state to `Run` of one more iteration. It appends exactly one pass to the evaluations, at the positions the particles held before the pass, so the log stays `RunLog` of the run |
| PsoDriver.PSO.Iterate | src/PSO.cpp:61-86 | One iteration sets the coefficients of iteration `t`. The particles and swarm best become `Iteration` of the old ones: every particle is evaluated, then every particle is moved with those coefficients, its draws and the swarm best after the pass. The invariant is kept, with exactly one pass of evaluations |
| PsoDriver.PSO.EvaluateSwarm | src/PSO.cpp:62-83 | The evaluation pass records each particle in order with the nested strict tests, and leaves every particle ready to move with bests still scored |
| PsoDriver.PSO.EvaluateEach | src/PSO.cpp:63-83 | The particle loop records exactly the pass RecordUpTo and ObserveUpTo describe, and logs one evaluation per particle |
| PsoDriver.PSO.EvaluateParticle | src/PSO.cpp:65-82 | Evaluating one particle records it, and updates the swarm best together with its iteration and particle index only on the nested strict improvement |
| PsoDriver.PSO.UpdateParticles | src/PSO.cpp:92-104 | Moves every particle once, in order, with the current coefficients, its own draws and the post-evaluation swarm best; keeps the invariant; the swarm best is untouched |
| PsoDriver.PSO.EvolveCoefficients | src/PSO.cpp:133-139 | The coefficients become those of the schedule for this iteration, and the invariant is kept |
| SwarmDriver.DrawPosition | src/Swarm.cpp:95-97 | The initial position takes one draw per dimension, in dimension order |
| SwarmDriver.RestingConsistent | src/Swarm.cpp:26-28 | A swarm at rest at positions drawn in the box, with no swarm best, satisfies the driver invariant |
| SwarmDriver.Swarm.constructor | src/Swarm.cpp:11-29 | Sets the bounds, n_dimensions = min of the two lengths and the counts; creates exactly num_particles particles at rest at the drawn positions; the swarm best fitness is "none"; the invariant holds |
| SwarmDriver.Swarm.InitialiseSwarm | src/Swarm.cpp:91-100 | Appends exactly n_particles particles, each at rest at its drawn position, and keeps the earlier ones |
| SwarmDriver.Swarm.Optimize | src/Swarm.cpp:43-80 | The particles and swarm best at the end are `Run` of the start, with the constriction triple in every iteration and the given draws. The invariant is kept, the particle count is kept, and no best gets worse. After a nonempty run the swarm has a best. The evaluations appended are exactly `RunLog` of the start: in each iteration, one pass at the positions the particles held when it began. They are in (iteration, particle) order and each is scored in the box |
| SwarmDriver.Swarm.Step | src/Swarm.cpp:45-79 | One pass of the iteration loop advances the state to `Run` of one more iteration. It appends exactly one pass to the evaluations, at the positions the particles held before the pass, so the log stays `RunLog` of the run |
| SwarmDriver.Swarm.Iterate | src/Swarm.cpp:47-78 | The particles and swarm best become `Iteration` of the old ones: every particle is evaluated, then every particle is moved with the constriction triple, its draws and the swarm best after the pass. The invariant is kept, with exactly one pass of evaluations |
| SwarmDriver.Swarm.EvaluateSwarm | src/Swarm.cpp:47-70 | The evaluation pass records each particle in order with the nested strict tests, and leaves every particle ready to move with bests still scored |
| SwarmDriver.Swarm.EvaluateEach | src/Swarm.cpp:47-70 | The particle loop records exactly the pass RecordUpTo and ObserveUpTo describe |
| SwarmDriver.Swarm.EvaluateParticle | src/Swarm.cpp:49-69 | Evaluating one particle records it, and updates the swarm best only on the nested strict improvement |
| SwarmDriver.Swarm.UpdateParticles | src/Swarm.cpp:102-116 | Moves every particle once, in order, with the constant constriction triple of include/Swarm.h, its own two draws and the post-evaluation swarm best; keeps the invariant |

## Left out

- Random number generation (`generateRandom`, the Mersenne twister seeded from `random_device`)
  is not modelled. Its results are arguments constrained only by their range.
- All output is left out: `printResults`, `printToCsv`, the `LOG` macros and the console
  tracing in the older driver. The output file name `outname` is left out with it.
- IEEE floating point is modelled as exact reals. So are rounding, NaN and infinity
  propagation, and any claim about convergence. The objective is assumed to return a finite
  value.
- The example objective function is not part of this model.
- The default constructors `Particle()` and `Swarm()` are not modelled. Their vector members
  start empty and `Swarm`'s coefficients have their constant initial value. The scalar
  fields and the `random_numbers` array are left indeterminate.
- The default `PSO()` sets only the best iteration to 0. The bounds and the swarm best position
  start as empty vectors. The counts, the swarm best particle and fitness, and the
  evolving coefficients `vel_par` are indeterminate. The constriction triple
  `velocity_parameters` has its constant initial value. The model gives them zero values and a swarm best fitness
  of "none".
- Counts are `nat`. The newer driver converts a negative `int` count to an unsigned field,
  where it wraps to a huge value. The older driver keeps its counts as `int`. There, a
  negative particle count wraps only when compared with the `size_t` loop index of
  `initialiseSwarm`, and a negative iteration count gives zero iterations. None of these
  negative-count cases is modelled.
- Inverted boxes, where some `lb[i] > ub[i]`, are not modelled inside the drivers. Every
  drawn coordinate must lie in `[lb[i], ub[i]]`, and no such value exists for an inverted
  box, so no driver can be built with a particle over one. In the source, drawing from
  such a range breaks the precondition of `uniform_real_distribution`. The clamps' behaviour on an
  inverted box is proved only for the pure functions `ClampPosition` and `ClampVelocity`.
- `Particles.Particle.WithVelocity` models `Particle(init_pos, init_vel)`. The driver calls it,
  but `src/Particle.h` does not declare it. It is modelled as setting the given velocity, with
  the other fields as in the one-argument constructor.
- Element updates on the particle vectors are modelled as value replacement (see above). The
  in-place calls on references into the vector are not modelled as aliasing.
- PsoDriver.PSO.Initialise: promises the invariant only when the swarm was empty before,
  because a second `initialise` appends to the particles already there.
- PsoDriver.PSO.UpdateParticles, SwarmDriver.Swarm.UpdateParticles: require every particle's
  best position and the swarm best to be at least as long as the velocity. In the source a
  shorter vector would be read out of bounds. After an evaluation pass this always holds.
- PsoDriver.PSO.Optimize, SwarmDriver.Swarm.Optimize: the draws for a run are taken as one
  argument up front, rather than drawn between evaluations.
- The `random_numbers` field of the older driver is never read, because `updateParticles`
  uses a local array. It is not modelled.
- PsoDriver.PSO.EvolveCoefficients: requires `n_iterations > 0`. With zero iterations the
  source would divide by zero in floating point, but `optimize` never calls it then.
