/** A swarm of particles seen as values: the invariants both optimizer drivers keep, stated
    over the particles' snapshots, and the lemmas that one evaluation or one move keeps them. */
module Population {
  import opened Scoring
  import opened Schedule
  import opened Particles

  predicate AllSound(ss: seq<State>, n: nat, lb: seq<real>, ub: seq<real>)
  {
    forall k {:trigger Sound(ss[k], n, lb, ub)} :: 0 <= k < |ss| ==> Sound(ss[k], n, lb, ub)
  }

  /** The swarm best `best` (at `bestPos`) is at most every personal best, and once set it is
      the personal best of particle `leader`. In particular it is "none" only while every
      personal best is. */
  predicate Leads(ss: seq<State>, best: Fitness, bestPos: seq<real>, leader: nat)
  {
    && (forall k {:trigger AtMost(best, ss[k].bestFitness)} :: 0 <= k < |ss| ==> AtMost(best, ss[k].bestFitness))
    && (best.Finite? ==> leader < |ss| && ss[leader].bestFitness == best && ss[leader].bestPosition == bestPos)
  }

  /** Every recorded personal best is the objective's value at the recorded position. */
  predicate BestsScored(ss: seq<State>, f: seq<real> -> real)
  {
    forall k :: 0 <= k < |ss| && ss[k].bestFitness.Finite? ==> ss[k].bestFitness.value == f(ss[k].bestPosition)
  }

  /** No particle's personal best in `ss` is worse than its personal best in `ts`. */
  predicate NoWorse(ss: seq<State>, ts: seq<State>)
  {
    |ss| == |ts| && forall k :: 0 <= k < |ss| ==> AtMost(ss[k].bestFitness, ts[k].bestFitness)
  }

  lemma NoWorseTransitive(ss: seq<State>, ts: seq<State>, us: seq<State>)
    requires NoWorse(ss, ts) && NoWorse(ts, us)
    ensures NoWorse(ss, us)
  {
    forall k | 0 <= k < |ss| ensures AtMost(ss[k].bestFitness, us[k].bestFitness) {
      AtMostTransitive(ss[k].bestFitness, ts[k].bestFitness, us[k].bestFitness);
    }
  }

  /** The swarm after the first `m` particles, in index order, have been evaluated with `f`
      at their current positions. */
  function RecordUpTo(ss: seq<State>, f: seq<real> -> real, m: nat): (rs: seq<State>)
    requires m <= |ss|
    ensures |rs| == |ss|
    ensures forall k :: 0 <= k < |ss| ==> rs[k].position == ss[k].position && rs[k].velocity == ss[k].velocity
    ensures forall k :: 0 <= k < m ==> rs[k].bestFitness.Finite?
    ensures forall k :: 0 <= k < m ==> AtMost(rs[k].bestFitness, Finite(f(ss[k].position)))
    ensures NoWorse(rs, ss)
    ensures forall k :: m <= k < |ss| ==> rs[k] == ss[k]
  {
    var rs := seq(|ss|, k requires 0 <= k < |ss| => if k < m then Record(ss[k], f(ss[k].position)) else ss[k]);
    assert forall k :: 0 <= k < m ==> rs[k] == Record(ss[k], f(ss[k].position));
    rs
  }

  /** Evaluating one more particle extends the evaluation pass by that particle's record. */
  lemma RecordUpToStep(ss: seq<State>, f: seq<real> -> real, m: nat)
    requires m < |ss|
    ensures RecordUpTo(ss, f, m + 1) == RecordUpTo(ss, f, m)[m := Record(ss[m], f(ss[m].position))]
  {
  }

  /** The swarm after the first `m` particles, in index order, have been moved with
      coefficients `c`, their own draws and the swarm best `g`. */
  function MoveUpTo(ss: seq<State>, c: Coefficients, draws: seq<RandomPair>, g: seq<real>,
                    lb: seq<real>, ub: seq<real>, m: nat): (ms: seq<State>)
    requires m <= |ss| && m <= |draws|
    requires forall k :: 0 <= k < m ==> Movable(ss[k], g, lb, ub)
    ensures |ms| == |ss|
    ensures forall k :: 0 <= k < |ss| ==>
      ms[k].bestFitness == ss[k].bestFitness && ms[k].bestPosition == ss[k].bestPosition
    ensures forall k :: m <= k < |ss| ==> ms[k] == ss[k]
    ensures NoWorse(ms, ss)
  {
    seq(|ss|, k requires 0 <= k < |ss| => if k < m then Move(ss[k], c, draws[k], g, lb, ub) else ss[k])
  }

  /** Moving one more particle extends the update pass by that particle's move. */
  lemma MoveUpToStep(ss: seq<State>, c: Coefficients, draws: seq<RandomPair>, g: seq<real>,
                     lb: seq<real>, ub: seq<real>, m: nat)
    requires m < |ss| && m < |draws|
    requires forall k :: 0 <= k <= m ==> Movable(ss[k], g, lb, ub)
    ensures MoveUpTo(ss, c, draws, g, lb, ub, m + 1)
         == MoveUpTo(ss, c, draws, g, lb, ub, m)[m := Move(ss[m], c, draws[m], g, lb, ub)]
  {
  }

  /** Moving sound particles, each ready to move toward `g`, keeps every one of them sound. */
  lemma MoveUpToKeepsAllSound(ss: seq<State>, c: Coefficients, draws: seq<RandomPair>, g: seq<real>,
                              lb: seq<real>, ub: seq<real>, n: nat)
    requires AllSound(ss, n, lb, ub) && |ss| <= |draws|
    requires forall k :: 0 <= k < |ss| ==> Movable(ss[k], g, lb, ub)
    ensures AllSound(MoveUpTo(ss, c, draws, g, lb, ub, |ss|), n, lb, ub)
  {
    var ms := MoveUpTo(ss, c, draws, g, lb, ub, |ss|);
    forall k | 0 <= k < |ss| ensures Sound(ms[k], n, lb, ub) {
      assert Sound(ss[k], n, lb, ub);
      MoveKeepsSound(ss[k], c, draws[k], g, lb, ub, n);
    }
  }

  /** Moving particles leaves every personal best scored by `f` if it was. */
  lemma MoveUpToKeepsScored(ss: seq<State>, c: Coefficients, draws: seq<RandomPair>, g: seq<real>,
                            lb: seq<real>, ub: seq<real>, f: seq<real> -> real)
    requires |ss| <= |draws|
    requires forall k :: 0 <= k < |ss| ==> Movable(ss[k], g, lb, ub)
    ensures BestsScored(MoveUpTo(ss, c, draws, g, lb, ub, |ss|), f) == BestsScored(ss, f)
  {
    var ms := MoveUpTo(ss, c, draws, g, lb, ub, |ss|);
    SameBests(ms, ss, Infinite, [], 0, f);
  }

  /** One evaluation of particle `k` with fitness `x` keeps the swarm best leading: a value
      below the swarm best is also below `k`'s personal best, so the nested test of the
      drivers replaces the swarm best exactly when `x` beats it. */
  lemma RecordKeepsLead(ss: seq<State>, best: Fitness, bestPos: seq<real>, leader: nat, k: nat, x: real)
    requires Leads(ss, best, bestPos, leader) && k < |ss|
    ensures Improves(x, best) ==> Improves(x, ss[k].bestFitness)
    ensures var takes := Improves(x, best);
            Leads(ss[k := Record(ss[k], x)],
                  if takes then Finite(x) else best,
                  if takes then ss[k].position else bestPos,
                  if takes then k else leader)
  {
    var rs := ss[k := Record(ss[k], x)];
    assert AtMost(best, ss[k].bestFitness);
    if Improves(x, best) {
      forall j | 0 <= j < |rs| ensures AtMost(Finite(x), rs[j].bestFitness) {
        assert AtMost(best, ss[j].bestFitness);
      }
    } else {
      forall j | 0 <= j < |rs| ensures AtMost(best, rs[j].bestFitness) {
        assert AtMost(best, ss[j].bestFitness);
        if j == k && rs[k] != ss[k] {
          assert rs[k].bestFitness == Finite(x);
        }
      }
      if best.Finite? && leader == k {
        assert !Improves(x, ss[k].bestFitness);
      }
    }
  }

  /** Recording one evaluation of `f` keeps every personal best scored by `f`. */
  lemma RecordKeepsScored(ss: seq<State>, f: seq<real> -> real, k: nat)
    requires BestsScored(ss, f) && k < |ss|
    ensures BestsScored(ss[k := Record(ss[k], f(ss[k].position))], f)
  {
  }

  /** A whole evaluation pass keeps every personal best scored by `f`. */
  lemma RecordUpToKeepsScored(ss: seq<State>, f: seq<real> -> real)
    requires BestsScored(ss, f)
    ensures BestsScored(RecordUpTo(ss, f, |ss|), f)
  {
    var rs := RecordUpTo(ss, f, |ss|);
    forall k | 0 <= k < |rs| && rs[k].bestFitness.Finite?
      ensures rs[k].bestFitness.value == f(rs[k].bestPosition)
    {
      RecordKeepsScored(ss, f, k);
      assert rs[k] == ss[k := Record(ss[k], f(ss[k].position))][k];
    }
  }

  /** Sound particles stay sound when one of them records an evaluation. */
  lemma RecordKeepsAllSound(ss: seq<State>, n: nat, lb: seq<real>, ub: seq<real>, k: nat, x: real)
    requires AllSound(ss, n, lb, ub) && k < |ss|
    ensures AllSound(ss[k := Record(ss[k], x)], n, lb, ub)
  {
    RecordKeepsSound(ss[k], x, n, lb, ub);
  }

  /** Two swarms whose particles have the same personal bests agree on every best-tracking
      invariant: moving particles cannot disturb them. */
  lemma SameBests(ss: seq<State>, ts: seq<State>, best: Fitness, bestPos: seq<real>, leader: nat, f: seq<real> -> real)
    requires |ss| == |ts|
    requires forall k :: 0 <= k < |ss| ==>
      ss[k].bestFitness == ts[k].bestFitness && ss[k].bestPosition == ts[k].bestPosition
    ensures Leads(ss, best, bestPos, leader) == Leads(ts, best, bestPos, leader)
    ensures BestsScored(ss, f) == BestsScored(ts, f)
  {
  }

  /** The per-iteration random pairs for a run of `iterations` iterations over `particles`
      particles, each draw in [0, 1]. */
  predicate RunDraws(draws: seq<seq<RandomPair>>, iterations: nat, particles: nat)
  {
    && |draws| == iterations
    && forall t :: 0 <= t < iterations ==>
         |draws[t]| == particles && forall k :: 0 <= k < particles ==> draws[t][k].InUnit()
  }
}
