/** The Sphere function, as the library computes it.

    The library starts from zero and subtracts every `x[i] * x[i]`, so what it
    evaluates is the negated sum of squares, not the canonical sphere.  The
    model keeps that behaviour: the declared minimum 0 is reached only at the
    origin, but there it is the function's greatest value, not its least.
 */
module Sphere {
  import opened RealVec
  import opened Capabilities

  const Declared := Declaration(NDimensional, UnBounded, UnConstrained)

  /** `MINIMUM`. */
  const Minimum: real := 0.0

  /** `f`: the accumulation `f -= x[i] * x[i]` from zero (`x[i] * x[i]` is the
      square `SquareSum` adds up).  No coordinate ever
      raises the value above the declared minimum, and the declared minimum is
      reached exactly at the origin, of any length. */
  function F(x: seq<real>): (r: real)
    ensures r <= Minimum
    ensures r == Minimum <==> AllEqual(x, 0.0)
  {
    0.0 - SquareSum(x)
  }

  /** `minimizer`: `vec![0.0; n]`, at which `f` gives the declared minimum
      for every `n`, and which the accept-all `in_bounds` admits. */
  function Minimizer(n: nat): (v: seq<real>)
    ensures |v| == n
    ensures F(v) == Minimum
    ensures Admits(Declared.domain, v)
  {
    Filled(n, 0.0)
  }

  /** Every vector off the origin evaluates strictly below the declared
      minimum, so the declared minimum is no lower bound. */
  lemma BelowMinimumOffOrigin(x: seq<real>, i: nat)
    requires i < |x| && x[i] != 0.0
    ensures F(x) < Minimum
  {
  }
}
