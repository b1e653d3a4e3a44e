/** The three velocity-update coefficients: inertia `w`, cognitive `c1` and social `c2`. */
module Schedule {

  datatype Coefficients = Coefficients(w: real, c1: real, c2: real)

  /** The fixed Clerc-Kennedy constriction triple the older driver passes to every update. */
  const Constriction: Coefficients := Coefficients(0.7298437881283576, 1.496179765663133, 1.496179765663133)

  /** The time-varying coefficients for iteration `t` of `n`:
      w = 0.4 (t - n)^2 / n^2 + 0.4, c1 = -3 t/n + 3.5, c2 = 3 t/n + 0.5.
      The cognitive weight hands over to the social weight while their sum stays 4. */
  function Evolve(t: nat, n: nat): (c: Coefficients)
    requires n > 0
    ensures c.c1 + c.c2 == 4.0
    ensures c.w >= 0.4
  {
    var diff := t as real - n as real;
    var den := n as real * n as real;
    assert diff * diff >= 0.0;
    assert den > 0.0;
    assert diff * diff / den >= 0.0;
    Coefficients(0.4 * diff * diff / den + 0.4,
                 -3.0 * (t as real / n as real) + 3.5,
                 3.0 * (t as real / n as real) + 0.5)
  }

  /** The coefficients of every iteration of an `n`-iteration run of the newer driver. */
  function Evolving(n: nat): (cs: seq<Coefficients>)
    ensures |cs| == n && forall t :: 0 <= t < n ==> cs[t] == Evolve(t, n)
  {
    seq(n, t requires 0 <= t < n => Evolve(t, n))
  }

  /** The coefficients of every iteration of an `n`-iteration run that keeps `c` throughout. */
  function Steady(c: Coefficients, n: nat): (cs: seq<Coefficients>)
    ensures |cs| == n && forall t :: 0 <= t < n ==> cs[t] == c
  {
    seq(n, t => c)
  }

  /** For 0 <= t <= n the inertia stays between 0.4 and 0.8. */
  lemma InertiaRange(t: nat, n: nat)
    requires 0 < n && t <= n
    ensures 0.4 <= Evolve(t, n).w <= 0.8
  {
    var d := n as real - t as real;
    var den := n as real * n as real;
    assert 0.0 <= d <= n as real;
    assert d * d <= n as real * d <= den;
    assert (t as real - n as real) * (t as real - n as real) == d * d;
    DivideMonotone(d * d, den, den);
    assert den / den == 1.0;
  }

  /** The inertia never grows as the run proceeds: it falls from 0.8 at t = 0 to 0.4 at t = n. */
  lemma InertiaNonIncreasing(s: nat, t: nat, n: nat)
    requires 0 < n && s <= t <= n
    ensures Evolve(t, n).w <= Evolve(s, n).w
  {
    var ds := n as real - s as real;
    var dt := n as real - t as real;
    var den := n as real * n as real;
    ScaleMonotone(dt, ds, dt);
    ScaleMonotone(dt, ds, ds);
    assert 0.4 * (t as real - n as real) * (t as real - n as real) == 0.4 * (dt * dt);
    assert 0.4 * (s as real - n as real) * (s as real - n as real) == 0.4 * (ds * ds);
    DivideMonotone(0.4 * (dt * dt), 0.4 * (ds * ds), den);
  }

  lemma ScaleMonotone(a: real, b: real, c: real)
    requires a <= b && 0.0 <= c
    ensures a * c <= b * c
  {
    assert b * c - a * c == (b - a) * c;
  }

  lemma DivideMonotone(a: real, b: real, den: real)
    requires a <= b && den > 0.0
    ensures a / den <= b / den
  {
    assert b / den - a / den == (b - a) / den;
  }

  /** The cognitive weight never grows and the social weight never shrinks as t grows. */
  lemma HandOver(s: nat, t: nat, n: nat)
    requires 0 < n && s <= t
    ensures Evolve(t, n).c1 <= Evolve(s, n).c1
    ensures Evolve(s, n).c2 <= Evolve(t, n).c2
  {
    assert s as real / n as real <= t as real / n as real;
  }

  /** The schedule at t = 0 and its limit at t = n; the last iteration of a run, t = n - 1,
      uses the inertia 0.4 + 0.4 / n^2. */
  lemma Endpoints(n: nat)
    requires 0 < n
    ensures Evolve(0, n) == Coefficients(0.8, 3.5, 0.5)
    ensures Evolve(n, n) == Coefficients(0.4, 0.5, 3.5)
    ensures Evolve(n - 1, n).w == 0.4 + 0.4 / (n as real * n as real)
  {
    var den := n as real * n as real;
    assert (0.0 - n as real) * (0.0 - n as real) == den;
    assert den / den == 1.0;
    assert n as real / n as real == 1.0;
  }
}
