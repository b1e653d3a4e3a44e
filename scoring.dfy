/** Fitness values as the optimizers record them.
    The source stores "no fitness yet" as +infinity; here it is a constructor of its own,
    so every fitness an objective returns is a (finite) real. */
module Scoring {

  datatype Fitness = Infinite | Finite(value: real)

  /** `x < best` on the extended reals: the strict test both drivers apply before
      replacing a personal or swarm best. */
  predicate Improves(x: real, best: Fitness)
  {
    best.Infinite? || x < best.value
  }

  /** `a <= b` on the extended reals. */
  predicate AtMost(a: Fitness, b: Fitness)
  {
    b.Infinite? || (a.Finite? && a.value <= b.value)
  }

  lemma AtMostTransitive(a: Fitness, b: Fitness, c: Fitness)
    requires AtMost(a, b) && AtMost(b, c)
    ensures AtMost(a, c)
  {
  }
}
