/** The Matyas function, generalised by the library from two coordinates to
    any number: `0.26 * sum of squares - 0.48 * product`, bounded to
    [-10, 10]. */
module Matyas {
  import opened RealVec
  import opened Capabilities

  const Bounds := Interval(-10.0, 10.0)
  const Declared := Declaration(NDimensional, Bounded(Bounds), UnConstrained)

  /** `MINIMUM`. */
  const Minimum: real := 0.0

  /** `f`: the square sum and the product are accumulated in one loop, the
      product starting from one. */
  function F(x: seq<real>): (r: real)
    ensures AllEqual(x, 0.0) && |x| >= 1 ==> r == Minimum
    ensures |x| == 0 ==> r == -0.48
  {
    assert AllEqual(x, 0.0) && |x| >= 1 ==> x[0] == 0.0;
    0.26 * SquareSum(x) - 0.48 * Product(x)
  }

  /** `minimizer`: `vec![0.0; n]`, inside the bounds.  `f` gives the declared
      minimum there for every `n` except 0, where the empty product 1 leaves
      -0.48. */
  function Minimizer(n: nat): (v: seq<real>)
    ensures |v| == n
    ensures AllEqual(v, 0.0)
    ensures Within(v, Bounds)
    ensures F(v) == if n == 0 then -0.48 else Minimum
  {
    Filled(n, 0.0)
  }

  /** With one coordinate the formula is `0.26 a^2 - 0.48 a`, which drops
      below the declared minimum at `a = 1`. */
  lemma BelowMinimumInOneDimension()
    ensures F([1.0]) < Minimum
  {
  }

  /** With three coordinates, `(2, 2, 2)` gives `3.12 - 3.84 < 0`. */
  lemma BelowMinimumInThreeDimensions()
    ensures F([2.0, 2.0, 2.0]) < Minimum
  {
  }
}
