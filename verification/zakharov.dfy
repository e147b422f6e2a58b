/** The Zakharov function: `sum of squares + s^2 + s^4` where
    `s = sum of 0.5 * i * x[i]` (0-based `i`), bounded to [-5, 10]. */
module Zakharov {
  import opened RealVec
  import opened Capabilities

  const Bounds := Interval(-5.0, 10.0)
  const Declared := Declaration(NDimensional, Bounded(Bounds), UnConstrained)

  /** `MINIMUM`. */
  const Minimum: real := 0.0

  /** The accumulation `s += 0.5 * x[i] * i` over the coordinates of `x`, whose
      first coordinate has index `first`.  It vanishes at the origin. */
  function IndexWeightedSum(x: seq<real>, first: nat): (r: real)
    ensures AllEqual(x, 0.0) ==> r == 0.0
  {
    if |x| == 0 then 0.0
    else
      assert AllEqual(x, 0.0) ==> x[0] == 0.0 && AllEqual(x[1..], 0.0);
      0.5 * x[0] * (first as real) + IndexWeightedSum(x[1..], first + 1)
  }

  /** `f`: never below the declared minimum, and equal to it exactly at the
      origin. */
  function F(x: seq<real>): (r: real)
    ensures r >= Minimum
    ensures r == Minimum <==> AllEqual(x, 0.0)
  {
    var s := IndexWeightedSum(x, 0);
    EvenPowerNonnegative(s, 1);
    EvenPowerNonnegative(s, 2);
    SquareSum(x) + Pow(s, 2) + Pow(s, 4)
  }

  /** `minimizer`: `vec![0.0; n]`, at which `f` gives the declared minimum
      for every `n`, inside the bounds. */
  function Minimizer(n: nat): (v: seq<real>)
    ensures |v| == n
    ensures AllEqual(v, 0.0)
    ensures F(v) == Minimum
    ensures Within(v, Bounds)
  {
    Filled(n, 0.0)
  }
}
