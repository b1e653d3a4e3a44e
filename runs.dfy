/** A whole run of either driver on values: the particles and the swarm best after each
    iteration, as a function of the starting state, the coefficients of each iteration and
    the random draws. Both drivers' `optimize` methods are proved to compute it. */
module Runs {
  import opened Scoring
  import opened Schedule
  import opened Particles
  import opened Population
  import opened Evaluations

  /** The particles and the swarm best between two iterations. */
  datatype Snapshot = Snapshot(particles: seq<State>, best: Leader)

  /** What an iteration needs of its starting state: every particle sound and the swarm
      best at most every personal best, and the best of the particle that set it. */
  predicate Settled(s: Snapshot, n: nat, lb: seq<real>, ub: seq<real>)
  {
    && AllSound(s.particles, n, lb, ub)
    && Leads(s.particles, s.best.fitness, s.best.position, s.best.particle)
  }

  /** A history of evaluations that accounts for swarm best `b`: none, or its own. */
  function Witness(b: Leader): seq<Evaluation>
  {
    if b.fitness.Finite? then [Evaluation(b.iter, b.particle, b.position, b.fitness.value)] else []
  }

  /** Every settled state is consistent with some history of evaluations. */
  lemma SettledConsistent(s: Snapshot, n: nat, lb: seq<real>, ub: seq<real>)
    requires Settled(s, n, lb, ub)
    ensures Consistent(s.particles, n, lb, ub, s.best, Witness(s.best))
  {
    var es := Witness(s.best);
    if es != [] {
      assert FirstBest(es) == 0;
      assert Bounds(es[0], s.particles);
    }
  }

  /** Iteration `t` of a run: every particle is evaluated with `f`, in index order, keeping
      strict improvements as personal and swarm bests; only then is every particle moved,
      with coefficients `c`, its own draw in `r` and the swarm best of that pass. The new
      swarm best is at most every fitness evaluated in the iteration and no worse than the
      old one, and no personal best gets worse. */
  function Iteration(s: Snapshot, n: nat, lb: seq<real>, ub: seq<real>, c: Coefficients,
                     r: seq<RandomPair>, f: seq<real> -> real, t: nat): (next: Snapshot)
    requires Settled(s, n, lb, ub) && |r| == |s.particles|
    ensures Settled(next, n, lb, ub) && |next.particles| == |s.particles|
    ensures AtMost(next.best.fitness, s.best.fitness)
    ensures forall k :: 0 <= k < |s.particles| ==> AtMost(next.best.fitness, Finite(f(s.particles[k].position)))
    ensures NoWorse(next.particles, s.particles)
    ensures |s.particles| > 0 ==> next.best.fitness.Finite?
  {
    var ss := s.particles;
    SettledConsistent(s, n, lb, ub);
    PassReady(ss, n, lb, ub, s.best, Witness(s.best), f, t);
    var rs := RecordUpTo(ss, f, |ss|);
    var b := ObserveUpTo(s.best, ss, f, t, |ss|);
    var ms := MoveUpTo(rs, c, r, b.position, lb, ub, |rs|);
    MoveUpToKeepsAllSound(rs, c, r, b.position, lb, ub, n);
    SameBests(ms, rs, b.fitness, b.position, b.particle, f);
    NoWorseTransitive(ms, rs, ss);
    assert forall k :: 0 <= k < |ss| ==> AtMost(b.fitness, rs[k].bestFitness);
    assert forall k :: 0 <= k < |ss| ==> AtMost(b.fitness, Finite(f(ss[k].position))) by {
      forall k | 0 <= k < |ss| ensures AtMost(b.fitness, Finite(f(ss[k].position))) {
        AtMostTransitive(b.fitness, rs[k].bestFitness, Finite(f(ss[k].position)));
      }
    }
    Snapshot(ms, b)
  }

  /** The state after the first `t` iterations of a run from `s`, iteration `i` using
      coefficients `cs[i]` and draws `draws[i]`. The swarm best never gets worse, no personal
      best gets worse, and after one iteration over a nonempty swarm there is a swarm best. */
  function Run(s: Snapshot, n: nat, lb: seq<real>, ub: seq<real>, cs: seq<Coefficients>,
               draws: seq<seq<RandomPair>>, f: seq<real> -> real, t: nat): (end: Snapshot)
    requires Settled(s, n, lb, ub) && t <= |cs| && t <= |draws|
    requires forall i :: 0 <= i < t ==> |draws[i]| == |s.particles|
    ensures Settled(end, n, lb, ub) && |end.particles| == |s.particles|
    ensures AtMost(end.best.fitness, s.best.fitness)
    ensures NoWorse(end.particles, s.particles)
    ensures t > 0 && |s.particles| > 0 ==> end.best.fitness.Finite?
  {
    if t == 0 then
      assert NoWorse(s.particles, s.particles);
      s
    else
      var prev := Run(s, n, lb, ub, cs, draws, f, t - 1);
      var next := Iteration(prev, n, lb, ub, cs[t - 1], draws[t - 1], f, t - 1);
      NoWorseTransitive(next.particles, prev.particles, s.particles);
      AtMostTransitive(next.best.fitness, prev.best.fitness, s.best.fitness);
      next
  }

  /** The evaluations the first `t` iterations of a run from `s` make: iteration `i` adds
      one pass over the particles at the positions they hold when iteration `i` begins. */
  function RunLog(s: Snapshot, n: nat, lb: seq<real>, ub: seq<real>, cs: seq<Coefficients>,
                  draws: seq<seq<RandomPair>>, f: seq<real> -> real, t: nat): (es: seq<Evaluation>)
    requires Settled(s, n, lb, ub) && t <= |cs| && t <= |draws|
    requires forall i :: 0 <= i < t ==> |draws[i]| == |s.particles|
    ensures |es| == t * |s.particles|
  {
    if t == 0 then []
    else
      var prev := RunLog(s, n, lb, ub, cs, draws, f, t - 1);
      assert (t - 1) * |s.particles| + |s.particles| == t * |s.particles|;
      prev + Pass(Run(s, n, lb, ub, cs, draws, f, t - 1).particles, t - 1, f)
  }

  /** One more iteration appends one pass to the log, after any earlier evaluations. */
  lemma RunLogStep(s: Snapshot, n: nat, lb: seq<real>, ub: seq<real>, cs: seq<Coefficients>,
                   draws: seq<seq<RandomPair>>, f: seq<real> -> real, t: nat, es0: seq<Evaluation>)
    requires Settled(s, n, lb, ub) && t < |cs| && t < |draws|
    requires forall i :: 0 <= i <= t ==> |draws[i]| == |s.particles|
    ensures es0 + RunLog(s, n, lb, ub, cs, draws, f, t + 1)
         == es0 + RunLog(s, n, lb, ub, cs, draws, f, t) + Pass(Run(s, n, lb, ub, cs, draws, f, t).particles, t, f)
  {
  }

  /** The log of a run opens with the pass of its first iteration, at the positions the
      particles hold when the run starts. */
  lemma {:induction false} RunLogFirstPass(s: Snapshot, n: nat, lb: seq<real>, ub: seq<real>, cs: seq<Coefficients>,
                                          draws: seq<seq<RandomPair>>, f: seq<real> -> real, t: nat)
    requires Settled(s, n, lb, ub) && 0 < t <= |cs| && t <= |draws|
    requires forall i :: 0 <= i < t ==> |draws[i]| == |s.particles|
    ensures RunLog(s, n, lb, ub, cs, draws, f, t)[..|s.particles|] == Pass(s.particles, 0, f)
  {
    var m := |s.particles|;
    var p := Pass(s.particles, 0, f);
    if t == 1 {
      RunLogStep(s, n, lb, ub, cs, draws, f, 0, []);
      assert RunLog(s, n, lb, ub, cs, draws, f, 1) == p;
      assert p[..m] == p;
    } else {
      RunLogFirstPass(s, n, lb, ub, cs, draws, f, t - 1);
      RunLogStep(s, n, lb, ub, cs, draws, f, t - 1, []);
      var prev := RunLog(s, n, lb, ub, cs, draws, f, t - 1);
      assert (t - 1) * m == (t - 2) * m + m;
      assert [] + prev == prev;
      PrefixKept(prev, Pass(Run(s, n, lb, ub, cs, draws, f, t - 1).particles, t - 1, f), m);
    }
  }

  /** Appending to a sequence leaves its first `m` elements as they were. */
  lemma PrefixKept(a: seq<Evaluation>, b: seq<Evaluation>, m: nat)
    requires m <= |a|
    ensures (a + b)[..m] == a[..m]
  {
  }
}
