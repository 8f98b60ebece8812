/**
 * The transcendental operations the probability engine borrows from the host
 * language's math library: `math.exp`, `10 ** x` and `a ** 1.5`.
 *
 * Their exact values are not modelled. Each one is a function-valued field of
 * a `Transcendentals` record that callers pass in, and `Valid` collects the
 * only facts about them that the engine's promises rest on.
 */
module RealMath {

  datatype Transcendentals = Transcendentals(
    exp: real -> real,     // e ** x
    pow10: real -> real,   // 10 ** x
    pow15: real -> real    // a ** 1.5
  ) {

    /** The facts true of the real exponential and power functions that the engine relies on. */
    ghost predicate Valid() {
      && PositiveReciprocal(exp)
      && (forall x :: x <= 0.0 ==> exp(x) <= 1.0)
      && PositiveReciprocal(pow10)
      && (forall a :: a >= 0.0 ==> pow15(a) >= 0.0)
      && pow15(0.0) == 0.0
    }
  }

  /** `f` is positive everywhere and `f(-x)` is the reciprocal of `f(x)`, as for any `b ** x` with `b > 0`. */
  ghost predicate PositiveReciprocal(f: real -> real) {
    && (forall x :: f(x) > 0.0)
    && (forall x, y {:trigger f(x), f(y)} :: x + y == 0.0 ==> f(x) * f(y) == 1.0)
  }

  /** Python's `abs` on a real. */
  function Abs(x: real): (r: real)
    ensures r >= 0.0
    ensures r == x || r == -x
  {
    if x < 0.0 then -x else x
  }

  /** Python's two-argument `max`. */
  function Max(a: real, b: real): (r: real)
    ensures r >= a && r >= b
    ensures r == a || r == b
  {
    if a >= b then a else b
  }

  /** Python's two-argument `min`. */
  function Min(a: real, b: real): (r: real)
    ensures r <= a && r <= b
    ensures r == a || r == b
  {
    if a <= b then a else b
  }

  /** Multiplying by a positive factor keeps a strict order. */
  lemma MulLess(a: real, b: real, c: real)
    requires a > 0.0 && b < c
    ensures a * b < a * c
  {
    assert a * c - a * b == a * (c - b);
  }

  /** An exponential at 0 is 1: the only positive real that is its own reciprocal. */
  lemma ReciprocalAtZero(f: real -> real)
    requires PositiveReciprocal(f)
    ensures f(0.0) == 1.0
  {
    var p := f(0.0);
    assert p * p == 1.0;
    if p < 1.0 {
      MulLess(p, p, 1.0);
      assert false;
    } else if p > 1.0 {
      MulLess(p, 1.0, p);
      assert false;
    }
  }
}
