/** The record both drivers keep of a run: every evaluation of the objective in the
    order it was made, and the swarm best as the first evaluation reaching the minimum. */
module Evaluations {
  import opened Scoring
  import opened Particles
  import opened Population

  /** One evaluation of the objective: in which iteration, for which particle, at which
      position, and the fitness it returned. */
  datatype Evaluation = Evaluation(iter: nat, particle: nat, position: seq<real>, fitness: real)

  /** The swarm best as the newer driver stores it: fitness, position, and the iteration
      and particle index that set it. */
  datatype Leader = Leader(fitness: Fitness, position: seq<real>, iter: nat, particle: nat)

  /** `k` is the first evaluation in `es` that reaches the minimum fitness: none is lower,
      and every one before it is strictly higher. */
  predicate FirstMin(es: seq<Evaluation>, k: nat)
  {
    && k < |es|
    && (forall j :: 0 <= j < |es| ==> es[k].fitness <= es[j].fitness)
    && (forall j :: 0 <= j < k ==> es[k].fitness < es[j].fitness)
  }

  /** Every nonempty history has a first minimum: scan it left to right, replacing the
      candidate only on a strictly lower fitness. */
  lemma {:induction false} FirstMinExists(es: seq<Evaluation>)
    requires |es| > 0
    ensures exists k :: FirstMin(es, k)
  {
    if |es| == 1 {
      assert FirstMin(es, 0);
    } else {
      var init := es[..|es| - 1];
      FirstMinExists(init);
      var k: nat :| FirstMin(init, k);
      assert forall j :: 0 <= j < |init| ==> init[j] == es[j];
      if es[|es| - 1].fitness < es[k].fitness {
        assert FirstMin(es, |es| - 1);
      } else {
        assert FirstMin(es, k);
      }
    }
  }

  /** There is only one first minimum. */
  lemma FirstMinUnique(es: seq<Evaluation>, a: nat, b: nat)
    requires FirstMin(es, a) && FirstMin(es, b)
    ensures a == b
  {
    assert es[a].fitness == es[b].fitness;
  }

  /** The evaluation that strict-improvement tracking keeps as the swarm best: the first
      one, in evaluation order, that reaches the minimum fitness. */
  ghost function FirstBest(es: seq<Evaluation>): (k: nat)
    requires |es| > 0
    ensures FirstMin(es, k)
  {
    FirstMinExists(es);
    var k: nat :| FirstMin(es, k);
    k
  }

  /** The first minimum of a history extended by `e` moves to `e` exactly when `e` is
      strictly below the old one, so a tie keeps the earlier evaluation. */
  lemma FirstBestAppend(es: seq<Evaluation>, e: Evaluation)
    requires |es| > 0
    ensures FirstBest(es + [e]) == if e.fitness < es[FirstBest(es)].fitness then |es| else FirstBest(es)
  {
    var es' := es + [e];
    var k := FirstBest(es);
    assert forall j :: 0 <= j < |es| ==> es'[j] == es[j];
    if e.fitness < es[k].fitness {
      assert FirstMin(es', |es|);
      FirstMinUnique(es', FirstBest(es'), |es|);
    } else {
      assert FirstMin(es', k);
      FirstMinUnique(es', FirstBest(es'), k);
    }
  }

  /** Evaluation `a` happens before evaluation `b` in one run: an earlier iteration, or the
      same iteration and a lower particle index. */
  predicate LexBefore(a: Evaluation, b: Evaluation)
  {
    a.iter < b.iter || (a.iter == b.iter && a.particle < b.particle)
  }

  /** Evaluations `es` agree with swarm best `b` and with the personal bests in `ss`: there
      is a swarm best exactly when something was evaluated, it is the first minimum of the
      evaluations, and no personal best is worse than any evaluation of its particle. */
  ghost predicate Tracks(es: seq<Evaluation>, ss: seq<State>, b: Leader)
  {
    && (es == [] <==> b.fitness.Infinite?)
    && (es != [] ==> es[FirstBest(es)] == Evaluation(b.iter, b.particle, b.position, b.fitness.value))
    && (forall j :: 0 <= j < |es| ==> Bounds(es[j], ss))
  }

  /** The personal best of the particle evaluated in `e` is at most that evaluation. */
  predicate Bounds(e: Evaluation, ss: seq<State>)
  {
    e.particle < |ss| && AtMost(ss[e.particle].bestFitness, Finite(e.fitness))
  }

  /** The invariant of both drivers, on values: every particle sound, the swarm best
      leading them, and the swarm best the first minimum of all evaluations. */
  ghost predicate Consistent(ss: seq<State>, n: nat, lb: seq<real>, ub: seq<real>, b: Leader, es: seq<Evaluation>)
  {
    && AllSound(ss, n, lb, ub)
    && Leads(ss, b.fitness, b.position, b.particle)
    && Tracks(es, ss, b)
  }

  /** The swarm best after particle `k`, in state `s`, scored `x` in iteration `iter`: the
      driver's nested test replaces it only when `x` beats the personal best and then the
      swarm best. */
  function Observe(b: Leader, s: State, k: nat, iter: nat, x: real): (r: Leader)
    ensures AtMost(r.fitness, b.fitness)
    ensures r != b ==> r == Leader(Finite(x), s.position, iter, k)
  {
    if Improves(x, s.bestFitness) && Improves(x, b.fitness) then Leader(Finite(x), s.position, iter, k) else b
  }

  /** One more evaluation, of particle `k` at its current position with fitness `x`, keeps
      the swarm best equal to the first minimum of all evaluations: it is replaced exactly
      when `x` is strictly below it, so a tie keeps the earlier record. */
  lemma EvaluationKeepsTracks(es: seq<Evaluation>, ss: seq<State>, b: Leader, k: nat, iter: nat, x: real)
    requires Tracks(es, ss, b) && k < |ss|
    ensures Tracks(es + [Evaluation(iter, k, ss[k].position, x)], ss[k := Record(ss[k], x)],
                   if Improves(x, b.fitness) then Leader(Finite(x), ss[k].position, iter, k) else b)
  {
    var e := Evaluation(iter, k, ss[k].position, x);
    var es' := es + [e];
    var ss' := ss[k := Record(ss[k], x)];
    assert es'[..|es|] == es;
    if es != [] {
      FirstBestAppend(es, e);
    }
    forall j | 0 <= j < |es'|
      ensures Bounds(es'[j], ss')
    {
      if j < |es| {
        var p := es[j].particle;
        assert es'[j] == es[j] && Bounds(es[j], ss);
        AtMostTransitive(ss'[p].bestFitness, ss[p].bestFitness, Finite(es[j].fitness));
      }
    }
  }

  /** The swarm best after the first `m` particles of `ss`, in index order, have been
      evaluated with `f` in iteration `iter`, starting from `b`. */
  function ObserveUpTo(b: Leader, ss: seq<State>, f: seq<real> -> real, iter: nat, m: nat): (r: Leader)
    requires m <= |ss|
    ensures AtMost(r.fitness, b.fitness)
  {
    if m == 0 then b
    else
      var prev := ObserveUpTo(b, ss, f, iter, m - 1);
      var r := Observe(prev, ss[m - 1], m - 1, iter, f(ss[m - 1].position));
      AtMostTransitive(r.fitness, prev.fitness, b.fitness);
      r
  }

  /** One evaluation keeps the whole invariant; the inner test of the nested pair is implied
      by the outer one whenever the invariant holds. */
  lemma EvaluationKeepsConsistent(ss: seq<State>, n: nat, lb: seq<real>, ub: seq<real>, b: Leader,
                                  es: seq<Evaluation>, k: nat, iter: nat, x: real)
    requires Consistent(ss, n, lb, ub, b, es) && k < |ss|
    ensures Improves(x, b.fitness) ==> Improves(x, ss[k].bestFitness)
    ensures Consistent(ss[k := Record(ss[k], x)], n, lb, ub, Observe(b, ss[k], k, iter, x),
                       es + [Evaluation(iter, k, ss[k].position, x)])
  {
    RecordKeepsLead(ss, b.fitness, b.position, b.particle, k, x);
    RecordKeepsAllSound(ss, n, lb, ub, k, x);
    EvaluationKeepsTracks(es, ss, b, k, iter, x);
  }

  /** A whole evaluation pass keeps the invariant, and afterwards every particle, and so
      the swarm, has a best. */
  lemma {:induction false} PassKeepsConsistent(ss: seq<State>, n: nat, lb: seq<real>, ub: seq<real>, b: Leader,
                                              es: seq<Evaluation>, f: seq<real> -> real, iter: nat, m: nat)
    requires Consistent(ss, n, lb, ub, b, es) && m <= |ss|
    ensures Consistent(RecordUpTo(ss, f, m), n, lb, ub, ObserveUpTo(b, ss, f, iter, m), es + Pass(ss, iter, f)[..m])
    ensures m > 0 ==> ObserveUpTo(b, ss, f, iter, m).fitness.Finite?
  {
    if m == 0 {
      assert es + Pass(ss, iter, f)[..0] == es;
    } else {
      PassKeepsConsistent(ss, n, lb, ub, b, es, f, iter, m - 1);
      var cur := RecordUpTo(ss, f, m - 1);
      var x := f(ss[m - 1].position);
      EvaluationKeepsConsistent(cur, n, lb, ub, ObserveUpTo(b, ss, f, iter, m - 1), es + Pass(ss, iter, f)[..m - 1], m - 1, iter, x);
      RecordUpToStep(ss, f, m - 1);
      PassStep(es, ss, iter, f, m - 1);
      var r := ObserveUpTo(b, ss, f, iter, m);
      assert AtMost(r.fitness, RecordUpTo(ss, f, m)[m - 1].bestFitness);
    }
  }

  /** The invariant depends on the particles' positions and velocities only through
      soundness: moving sound particles keeps it. */
  lemma SameBestsConsistent(ss: seq<State>, ts: seq<State>, n: nat, lb: seq<real>, ub: seq<real>, b: Leader,
                            es: seq<Evaluation>)
    requires Consistent(ss, n, lb, ub, b, es) && AllSound(ts, n, lb, ub) && |ss| == |ts|
    requires forall k :: 0 <= k < |ss| ==>
      ss[k].bestFitness == ts[k].bestFitness && ss[k].bestPosition == ts[k].bestPosition
    ensures Consistent(ts, n, lb, ub, b, es)
  {
    SameBests(ss, ts, b.fitness, b.position, b.particle, (x: seq<real>) => 0.0);
  }

  /** The evaluations one pass of iteration `t` makes: particle by particle, in index
      order, each at its current position. */
  function Pass(ss: seq<State>, t: nat, f: seq<real> -> real): (es: seq<Evaluation>)
    ensures |es| == |ss|
    ensures forall k :: 0 <= k < |es| ==> es[k].iter == t && es[k].particle == k && es[k].position == ss[k].position
    ensures forall k :: 0 <= k < |es| ==> es[k].fitness == f(es[k].position)
    ensures forall i, j :: 0 <= i < j < |es| ==> LexBefore(es[i], es[j])
  {
    seq(|ss|, k requires 0 <= k < |ss| => Evaluation(t, k, ss[k].position, f(ss[k].position)))
  }

  /** Evaluating one more particle extends the pass's evaluations by its evaluation. */
  lemma PassStep(es: seq<Evaluation>, ss: seq<State>, t: nat, f: seq<real> -> real, m: nat)
    requires m < |ss|
    ensures es + Pass(ss, t, f)[..m] + [Evaluation(t, m, ss[m].position, f(ss[m].position))]
         == es + Pass(ss, t, f)[..m + 1]
  {
    var p := Pass(ss, t, f);
    assert p[..m + 1] == p[..m] + [p[m]];
  }

  /** The particles, the swarm best and the evaluations so far, part way through a pass. */
  datatype Progress = Progress(particles: seq<State>, best: Leader, log: seq<Evaluation>)

  /** Evaluating particle `k` at its current position: its record, the nested strict test
      for the swarm best, and one more entry in the log. */
  function EvaluateNext(p: Progress, k: nat, t: nat, f: seq<real> -> real): (q: Progress)
    requires k < |p.particles|
    ensures |q.particles| == |p.particles| && |q.log| == |p.log| + 1
    ensures q.particles[k].bestFitness.Finite?
  {
    var s := p.particles[k];
    var x := f(s.position);
    Progress(p.particles[k := Record(s, x)], Observe(p.best, s, k, t, x), p.log + [Evaluation(t, k, s.position, x)])
  }

  /** Particles `0 .. m - 1` evaluated one after another, each at its position at the time. */
  function EvaluatedUpTo(p: Progress, t: nat, f: seq<real> -> real, m: nat): (q: Progress)
    requires m <= |p.particles|
    ensures |q.particles| == |p.particles| && |q.log| == |p.log| + m
  {
    if m == 0 then p else EvaluateNext(EvaluatedUpTo(p, t, f, m - 1), m - 1, t, f)
  }

  /** Evaluating the particles one after another, each seeing the records of those before
      it, makes exactly the records `RecordUpTo`, the swarm best `ObserveUpTo` and the log
      entries `Pass` describe, all in terms of the positions at the start of the pass. */
  lemma {:induction false} EvaluatedUpToIsPass(p: Progress, t: nat, f: seq<real> -> real, m: nat)
    requires m <= |p.particles|
    ensures EvaluatedUpTo(p, t, f, m)
         == Progress(RecordUpTo(p.particles, f, m), ObserveUpTo(p.best, p.particles, f, t, m),
                     p.log + Pass(p.particles, t, f)[..m])
  {
    if m > 0 {
      var ss := p.particles;
      EvaluatedUpToIsPass(p, t, f, m - 1);
      RecordUpToStep(ss, f, m - 1);
      PassStep(p.log, ss, t, f, m - 1);
      assert RecordUpTo(ss, f, m - 1)[m - 1] == ss[m - 1];
    }
  }

  /** The evaluations a run has made after index `from`: `t` whole passes over `n`
      particles, in (iteration, particle) order, each scored by `f` at a position in the box. */
  predicate Chronicle(es: seq<Evaluation>, from: nat, t: nat, n: nat, f: seq<real> -> real, lb: seq<real>, ub: seq<real>)
  {
    && from <= |es| && |es| - from == t * n
    && (forall j :: from <= j < |es| ==>
          && es[j].iter < t && es[j].particle < n
          && es[j].fitness == f(es[j].position) && InBox(es[j].position, lb, ub))
    && (forall i, j :: from <= i < j < |es| ==> LexBefore(es[i], es[j]))
  }

  /** One more pass over sound particles extends the chronicle by one iteration and leaves
      everything before it as it was. */
  lemma ChronicleStep(es: seq<Evaluation>, from: nat, t: nat, ss: seq<State>, f: seq<real> -> real,
                      n: nat, lb: seq<real>, ub: seq<real>)
    requires Chronicle(es, from, t, |ss|, f, lb, ub) && AllSound(ss, n, lb, ub)
    ensures Chronicle(es + Pass(ss, t, f), from, t + 1, |ss|, f, lb, ub)
    ensures (es + Pass(ss, t, f))[..from] == es[..from]
  {
    var p := Pass(ss, t, f);
    var after := es + p;
    assert (t + 1) * |ss| == t * |ss| + |ss|;
    forall j | from <= j < |after|
      ensures after[j].iter < t + 1 && after[j].particle < |ss|
      ensures after[j].fitness == f(after[j].position) && InBox(after[j].position, lb, ub)
    {
      if j < |es| {
        assert after[j] == es[j];
      } else {
        assert after[j] == p[j - |es|];
        assert Sound(ss[j - |es|], n, lb, ub);
      }
    }
    forall i, j | from <= i < j < |after|
      ensures LexBefore(after[i], after[j])
    {
      if j < |es| {
        assert after[i] == es[i] && after[j] == es[j];
      } else if i < |es| {
        assert after[i] == es[i] && after[j] == p[j - |es|];
      } else {
        assert after[i] == p[i - |es|] && after[j] == p[j - |es|];
      }
    }
  }

  /** Ties keep the first recorder: in a run whose evaluations are in (iteration, particle)
      order, every evaluation that reaches the swarm best's fitness is the recorded one or
      comes after it. */
  lemma FirstRecorderKept(es: seq<Evaluation>, ss: seq<State>, b: Leader, t: nat, n: nat,
                          f: seq<real> -> real, lb: seq<real>, ub: seq<real>)
    requires Tracks(es, ss, b) && Chronicle(es, 0, t, n, f, lb, ub) && es != []
    ensures b.fitness.Finite?
    ensures forall j :: 0 <= j < |es| && es[j].fitness == b.fitness.value ==>
      var e := Evaluation(b.iter, b.particle, b.position, b.fitness.value);
      es[j] == e || LexBefore(e, es[j])
  {
    var k := FirstBest(es);
    forall j | 0 <= j < |es| && es[j].fitness == b.fitness.value
      ensures es[j] == es[k] || LexBefore(es[k], es[j])
    {
      if k < j {
        assert LexBefore(es[k], es[j]);
      }
    }
  }

  /** After an evaluation pass every particle has a best, and so does the swarm: every
      particle can be moved towards its own best and the swarm best. */
  lemma ReadyToMove(ss: seq<State>, n: nat, lb: seq<real>, ub: seq<real>, b: Leader, es: seq<Evaluation>)
    requires Consistent(ss, n, lb, ub, b, es)
    requires forall k :: 0 <= k < |ss| ==> ss[k].bestFitness.Finite?
    ensures forall k :: 0 <= k < |ss| ==> Movable(ss[k], b.position, lb, ub)
  {
    if |ss| > 0 {
      assert AtMost(b.fitness, ss[0].bestFitness);
      assert Sound(ss[b.particle], n, lb, ub);
      forall k | 0 <= k < |ss| ensures Movable(ss[k], b.position, lb, ub) {
        assert Sound(ss[k], n, lb, ub);
      }
    }
  }

  /** A whole evaluation pass, started in the invariant, ends in it with every particle
      ready to move toward the new swarm best, and keeps every personal best scored by `f`. */
  lemma PassReady(ss: seq<State>, n: nat, lb: seq<real>, ub: seq<real>, b: Leader,
                  es: seq<Evaluation>, f: seq<real> -> real, iter: nat)
    requires Consistent(ss, n, lb, ub, b, es)
    ensures var rs := RecordUpTo(ss, f, |ss|);
            var r := ObserveUpTo(b, ss, f, iter, |ss|);
            && Consistent(rs, n, lb, ub, r, es + Pass(ss, iter, f))
            && (|ss| > 0 ==> r.fitness.Finite?)
            && (forall k :: 0 <= k < |rs| ==> Movable(rs[k], r.position, lb, ub))
            && (BestsScored(ss, f) ==> BestsScored(rs, f))
  {
    var rs := RecordUpTo(ss, f, |ss|);
    var r := ObserveUpTo(b, ss, f, iter, |ss|);
    PassKeepsConsistent(ss, n, lb, ub, b, es, f, iter, |ss|);
    assert Pass(ss, iter, f)[..|ss|] == Pass(ss, iter, f);
    ReadyToMove(rs, n, lb, ub, r, es + Pass(ss, iter, f));
    if BestsScored(ss, f) { RecordUpToKeepsScored(ss, f); }
  }
}
