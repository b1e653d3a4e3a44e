/** One particle: a position, a velocity and the best position it has been evaluated at.
    The pure functions below say what one velocity or position update computes; the class
    `Particle` performs those updates in place and is proved against them. */
module Particles {
  import opened Scoring
  import opened Schedule

  /** The two uniform draws one particle receives per iteration; both are shared by all
      dimensions of that particle's update. */
  datatype RandomPair = RandomPair(r1: real, r2: real)
  {
    predicate InUnit()
    {
      0.0 <= r1 <= 1.0 && 0.0 <= r2 <= 1.0
    }
  }

  /** `std::min`: the second argument only when it is strictly smaller. */
  function Min(a: real, b: real): (r: real)
    ensures r <= a && r <= b && (r == a || r == b)
  {
    if b < a then b else a
  }

  /** `std::max`: the second argument only when it is strictly larger. */
  function Max(a: real, b: real): (r: real)
    ensures a <= r && b <= r && (r == a || r == b)
  {
    if a < b then b else a
  }

  /** Number of dimensions of a problem: the shorter of the two bound vectors. */
  function Dimensions(lbs: seq<real>, ubs: seq<real>): (n: nat)
    ensures n <= |lbs| && n <= |ubs|
    ensures n == |lbs| || n == |ubs|
  {
    if |ubs| < |lbs| then |ubs| else |lbs|
  }

  /** One coordinate of the velocity before it is bounded: the old velocity is kept in full
      and the inertia term `w * v` is added to it, then the pulls toward the particle's
      own best `p` and the swarm best `g`. */
  function Steer(c: Coefficients, r: RandomPair, v: real, x: real, p: real, g: real): real
  {
    v + c.w * v + c.c1 * r.r1 * (p - x) + c.c2 * r.r2 * (g - x)
  }

  /** A velocity coordinate bounded by the width of its dimension: first from above by
      `hi - lo`, then from below by `lo - hi`. */
  function ClampVelocity(v: real, lo: real, hi: real): (r: real)
    ensures lo - hi <= r
    ensures lo <= hi ==> r <= hi - lo
    ensures lo - hi <= v <= hi - lo ==> r == v
    ensures v < lo - hi ==> r == lo - hi
    ensures lo <= hi && hi - lo < v ==> r == hi - lo
    ensures hi < lo ==> r == lo - hi
  {
    Max(Min(v, hi - lo), lo - hi)
  }

  /** A position coordinate bounded into its dimension: first from above by `hi`, then
      from below by `lo`, so an inverted box (hi < lo) yields `lo`. */
  function ClampPosition(x: real, lo: real, hi: real): (r: real)
    ensures lo <= r
    ensures lo <= hi ==> r <= hi
    ensures lo <= x <= hi ==> r == x
    ensures x < lo ==> r == lo
    ensures lo <= hi && hi < x ==> r == hi
    ensures hi < lo ==> r == lo
  {
    Max(Min(x, hi), lo)
  }

  /** Every coordinate of `x` lies in its dimension's interval. */
  predicate InBox(x: seq<real>, lb: seq<real>, ub: seq<real>)
  {
    forall i :: 0 <= i < |x| ==> i < |lb| && i < |ub| && lb[i] <= x[i] <= ub[i]
  }

  /** Every coordinate of `v` is at most its dimension's width in magnitude. */
  predicate InSpan(v: seq<real>, lb: seq<real>, ub: seq<real>)
  {
    forall i :: 0 <= i < |v| ==> i < |lb| && i < |ub| && lb[i] - ub[i] <= v[i] <= ub[i] - lb[i]
  }

  /** The first `n` dimensions have a lower bound no larger than their upper bound. */
  predicate Ordered(lb: seq<real>, ub: seq<real>, n: nat)
  {
    n <= |lb| && n <= |ub| && forall i :: 0 <= i < n ==> lb[i] <= ub[i]
  }

  /** Initial draws for `count` particles: one value per dimension of the problem, each
      in its dimension's bounds. */
  predicate DrawnInBox(draws: seq<seq<real>>, count: nat, lbs: seq<real>, ubs: seq<real>)
  {
    && |draws| == count
    && forall k :: 0 <= k < count ==> |draws[k]| == Dimensions(lbs, ubs) && InBox(draws[k], lbs, ubs)
  }

  /** The velocity one `updateVelocity` call produces from velocity `v` at position `x`,
      with personal best `p` and swarm best `g`. */
  function NextVelocity(c: Coefficients, r: RandomPair, v: seq<real>, x: seq<real>, p: seq<real>,
                        g: seq<real>, lb: seq<real>, ub: seq<real>): (nv: seq<real>)
    requires |v| <= |x| && |v| <= |p| && |v| <= |g| && |v| <= |lb| && |v| <= |ub|
    ensures |nv| == |v|
    ensures Ordered(lb, ub, |v|) ==> InSpan(nv, lb, ub)
    ensures forall i :: 0 <= i < |v| ==> nv[i] == ClampVelocity(Steer(c, r, v[i], x[i], p[i], g[i]), lb[i], ub[i])
    ensures forall i :: 0 <= i < |v| ==>
      var s := Steer(c, r, v[i], x[i], p[i], g[i]);
      lb[i] - ub[i] <= s <= ub[i] - lb[i] ==> nv[i] == s
  {
    seq(|v|, i requires 0 <= i < |v| => ClampVelocity(Steer(c, r, v[i], x[i], p[i], g[i]), lb[i], ub[i]))
  }

  /** The position one `updatePosition` call produces from position `x` and the (already
      updated) velocity `v`: the first |v| coordinates move by `v` and are bounded, any
      further coordinates stay. */
  function NextPosition(x: seq<real>, v: seq<real>, lb: seq<real>, ub: seq<real>): (nx: seq<real>)
    requires |v| <= |x| && |v| <= |lb| && |v| <= |ub|
    ensures |nx| == |x|
    ensures |x| == |v| && Ordered(lb, ub, |v|) ==> InBox(nx, lb, ub)
    ensures forall i :: 0 <= i < |v| ==> nx[i] == ClampPosition(x[i] + v[i], lb[i], ub[i])
    ensures forall i :: 0 <= i < |v| && lb[i] <= x[i] + v[i] <= ub[i] ==> nx[i] == x[i] + v[i]
    ensures forall i :: 0 <= i < |v| && ub[i] < lb[i] ==> nx[i] == lb[i]
    ensures forall i :: |v| <= i < |x| ==> nx[i] == x[i]
  {
    seq(|x|, i requires 0 <= i < |x| => if i < |v| then ClampPosition(x[i] + v[i], lb[i], ub[i]) else x[i])
  }

  /** With both random draws zero the particle keeps (1 + w) times its velocity: the old
      velocity is added to, not replaced by, the inertia term. */
  lemma RetainedVelocity(c: Coefficients, v: real, x: real, p: real, g: real)
    ensures Steer(c, RandomPair(0.0, 0.0), v, x, p, g) == (1.0 + c.w) * v
  {
  }

  /** The value of a particle's four fields at one moment. */
  datatype State = State(position: seq<real>, velocity: seq<real>, bestPosition: seq<real>, bestFitness: Fitness)

  /** A particle of an `n`-dimensional problem: position and velocity have `n` coordinates,
      the position lies in the box and the velocity within the span; once a best has been
      recorded, its position has `n` coordinates too. */
  predicate Sound(s: State, n: nat, lb: seq<real>, ub: seq<real>)
  {
    && n <= |lb| && n <= |ub|
    && |s.position| == n && |s.velocity| == n
    && (s.bestFitness.Finite? ==> |s.bestPosition| == n)
    && InBox(s.position, lb, ub)
    && InSpan(s.velocity, lb, ub)
  }

  /** The index-safety demands of `updatePosition`: the velocity is no longer than any
      vector it is combined with. */
  predicate Movable(s: State, g: seq<real>, lb: seq<real>, ub: seq<real>)
  {
    && |s.velocity| <= |s.position| && |s.velocity| <= |s.bestPosition|
    && |s.velocity| <= |g| && |s.velocity| <= |lb| && |s.velocity| <= |ub|
  }

  /** What one evaluation with fitness `x` does to a particle: the personal best is replaced
      by the current position and `x` exactly when `x` is a strict improvement. */
  function Record(s: State, x: real): (r: State)
    ensures r.position == s.position && r.velocity == s.velocity
    ensures r.bestFitness.Finite?
    ensures AtMost(r.bestFitness, s.bestFitness) && AtMost(r.bestFitness, Finite(x))
    ensures r != s <==> Improves(x, s.bestFitness)
    ensures r != s ==> r.bestFitness == Finite(x) && r.bestPosition == s.position
  {
    if Improves(x, s.bestFitness) then s.(bestFitness := Finite(x), bestPosition := s.position) else s
  }

  /** What one `updatePosition` call does to a particle, with coefficients `c`, draws `r`
      and swarm best `g`: the velocity is updated first and the new velocity moves the
      position. The personal best is untouched. */
  function Move(s: State, c: Coefficients, r: RandomPair, g: seq<real>, lb: seq<real>, ub: seq<real>): (m: State)
    requires Movable(s, g, lb, ub)
    ensures m.bestPosition == s.bestPosition && m.bestFitness == s.bestFitness
    ensures |m.position| == |s.position| && |m.velocity| == |s.velocity|
  {
    var nv := NextVelocity(c, r, s.velocity, s.position, s.bestPosition, g, lb, ub);
    s.(velocity := nv, position := NextPosition(s.position, nv, lb, ub))
  }

  /** Moving keeps a particle in the box and its velocity within the span, whatever the
      coefficients, draws and swarm best. */
  lemma MoveKeepsSound(s: State, c: Coefficients, r: RandomPair, g: seq<real>, lb: seq<real>, ub: seq<real>, n: nat)
    requires Sound(s, n, lb, ub) && |s.bestPosition| >= n && |g| >= n
    ensures Movable(s, g, lb, ub) && Sound(Move(s, c, r, g, lb, ub), n, lb, ub)
  {
    assert Ordered(lb, ub, n) by {
      forall i | 0 <= i < n ensures lb[i] <= ub[i] {
        assert lb[i] <= s.position[i] <= ub[i];
      }
    }
  }

  /** Recording an evaluation keeps a particle sound. */
  lemma RecordKeepsSound(s: State, x: real, n: nat, lb: seq<real>, ub: seq<real>)
    requires Sound(s, n, lb, ub)
    ensures Sound(Record(s, x), n, lb, ub)
  {
  }

  /** A particle as `Particle(pos)` creates it: at `pos`, with one zero velocity coordinate
      per position coordinate, and no best yet. */
  function AtRest(pos: seq<real>): (s: State)
    ensures s.position == pos && |s.velocity| == |pos|
    ensures forall i :: 0 <= i < |pos| ==> s.velocity[i] == 0.0
    ensures s.bestPosition == [] && s.bestFitness == Infinite
  {
    State(pos, seq(|pos|, i => 0.0), [], Infinite)
  }

  /** A particle placed in the box at rest is sound: a position in the box forces every
      bound pair into order, so the zero velocity lies within the span. */
  lemma AtRestSound(pos: seq<real>, n: nat, lb: seq<real>, ub: seq<real>)
    requires |pos| == n && n <= |lb| && n <= |ub| && InBox(pos, lb, ub)
    ensures Sound(AtRest(pos), n, lb, ub)
  {
    var v := AtRest(pos).velocity;
    forall i | 0 <= i < n ensures lb[i] - ub[i] <= v[i] <= ub[i] - lb[i] {
      assert lb[i] <= pos[i] <= ub[i];
    }
  }

  class Particle {
    var position: seq<real>
    var velocity: seq<real>
    var bestPosition: seq<real>
    var bestFitness: Fitness

    ghost function Current(): State
      reads this
    {
      State(position, velocity, bestPosition, bestFitness)
    }

    /** `Particle(pos)`: the velocity gets one zero per coordinate; no best yet. */
    constructor (pos: seq<real>)
      ensures Current() == AtRest(pos)
    {
      var vel: seq<real> := [];
      var i := 0;
      while i < |pos|
        invariant 0 <= i <= |pos|
        invariant |vel| == i && forall k :: 0 <= k < i ==> vel[k] == 0.0
      {
        vel := vel + [0.0];
        i := i + 1;
      }
      position := pos;
      velocity := vel;
      bestPosition := [];
      bestFitness := Infinite;
    }

    /** `Particle(pos, vel)`, which the newer driver calls: as `Particle(pos)`, except that
        the velocity is given. */
    constructor WithVelocity(pos: seq<real>, vel: seq<real>)
      ensures Current() == State(pos, vel, [], Infinite)
    {
      position := pos;
      velocity := vel;
      bestPosition := [];
      bestFitness := Infinite;
    }

    /** `updateVelocity`: rewrites each velocity coordinate in place; nothing else changes. */
    method UpdateVelocity(c: Coefficients, r: RandomPair, lb: seq<real>, ub: seq<real>, swarmBest: seq<real>)
      requires Movable(Current(), swarmBest, lb, ub)
      modifies this`velocity
      ensures velocity == NextVelocity(c, r, old(velocity), position, bestPosition, swarmBest, lb, ub)
    {
      var i := 0;
      while i < |velocity|
        invariant 0 <= i <= |velocity| == |old(velocity)|
        invariant forall k :: 0 <= k < i ==>
          velocity[k] == ClampVelocity(Steer(c, r, old(velocity)[k], position[k], bestPosition[k], swarmBest[k]), lb[k], ub[k])
        invariant forall k :: i <= k < |velocity| ==> velocity[k] == old(velocity)[k]
      {
        velocity := velocity[i := velocity[i] + c.w * velocity[i]
                                  + c.c1 * r.r1 * (bestPosition[i] - position[i])
                                  + c.c2 * r.r2 * (swarmBest[i] - position[i])];
        velocity := velocity[i := Min(velocity[i], ub[i] - lb[i])];
        velocity := velocity[i := Max(velocity[i], lb[i] - ub[i])];
        i := i + 1;
      }
    }

    /** `updatePosition`: updates the velocity, then moves and bounds each coordinate in
        place. The personal best is left as it was. */
    method UpdatePosition(c: Coefficients, r: RandomPair, lb: seq<real>, ub: seq<real>, swarmBest: seq<real>)
      requires Movable(Current(), swarmBest, lb, ub)
      modifies this`velocity, this`position
      ensures Current() == Move(old(Current()), c, r, swarmBest, lb, ub)
    {
      UpdateVelocity(c, r, lb, ub, swarmBest);
      ghost var nv := velocity;
      var i := 0;
      while i < |velocity|
        invariant velocity == nv
        invariant 0 <= i <= |nv| <= |position| == |old(position)|
        invariant forall k :: 0 <= k < i ==> position[k] == ClampPosition(old(position)[k] + nv[k], lb[k], ub[k])
        invariant forall k :: i <= k < |position| ==> position[k] == old(position)[k]
      {
        position := position[i := position[i] + velocity[i]];
        position := position[i := Min(position[i], ub[i])];
        position := position[i := Max(position[i], lb[i])];
        i := i + 1;
      }
      assert position == NextPosition(old(position), nv, lb, ub);
    }

    /** `setBestPosition`: unconditional, no comparison. */
    method SetBestPosition(newBestPos: seq<real>)
      modifies this`bestPosition
      ensures bestPosition == newBestPos
    {
      bestPosition := newBestPos;
    }

    /** `setBestFitness`: unconditional, no comparison. */
    method SetBestFitness(newBestFit: Fitness)
      modifies this`bestFitness
      ensures bestFitness == newBestFit
    {
      bestFitness := newBestFit;
    }

    /** The personal-best step of both drivers' evaluation loops, made through the
        accessors: with fitness `x` at the current position, a strict improvement of the
        recorded best stores `x` and that position, in that order; otherwise nothing
        changes. */
    method RecordFitness(x: real)
      modifies this`bestFitness, this`bestPosition
      ensures Current() == Record(old(Current()), x)
    {
      var pos := GetPosition();
      var best := GetBestFitness();
      if Improves(x, best) {
        SetBestFitness(Finite(x));
        SetBestPosition(pos);
      }
    }

    /** `getPosition`: a copy of the position, no side effect. */
    method GetPosition() returns (pos: seq<real>)
      ensures pos == position
    {
      pos := position;
    }

    /** `getBestFitness`: the recorded best fitness, no side effect. */
    method GetBestFitness() returns (fit: Fitness)
      ensures fit == bestFitness
    {
      fit := bestFitness;
    }
  }
}
