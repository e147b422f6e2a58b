/** The Ridge function with its parameters fixed at `d = 1` and
    `alpha = 0`: `-1 + x[0] + d * (sum of x[i]^2 for i >= 1)^alpha`, bounded
    to [-5, 5]. */
module Ridge {
  import opened Results
  import opened RealVec
  import opened Capabilities

  const Bounds := Interval(-5.0, 5.0)
  const Declared := Declaration(NDimensional, Bounded(Bounds), UnConstrained)

  /** `MINIMUM`. */
  const Minimum: real := -5.0

  /** The fixed coefficient `d`. */
  const Coefficient: real := 1.0

  /** The fixed exponent `alpha`.  `powf` with exponent zero is 1 for every
      base, so it agrees with the integer power `Pow(_, 0)`. */
  const Alpha: nat := 0

  /** `f`: the loop over `1..n` is empty when `n` is 0, and then `x[0]` panics.
      Otherwise the ridge term is the constant 1, which cancels the `-1`, so
      the value is the first coordinate itself. */
  function F(x: seq<real>): (r: Result<real>)
    ensures r.Ok? <==> |x| >= 1
    ensures r.Err? ==> r.panic == IndexOutOfRange(0, 0)
    ensures r.Ok? ==> r.value == x[0]
  {
    if |x| == 0 then Err(IndexOutOfRange(0, 0))
    else Ok(-1.0 + x[0] + Coefficient * Pow(SquareSum(x[1..]), Alpha))
  }

  /** `minimizer`: `vec![0.0; n]` with its first coordinate set to -5, which
      panics when `n` is 0. */
  function Minimizer(n: nat): (r: Result<seq<real>>)
    ensures r.Ok? <==> n >= 1
    ensures r.Err? ==> r.panic == IndexOutOfRange(0, 0)
    ensures r.Ok? ==> |r.value| == n && r.value[0] == -5.0
    ensures r.Ok? ==> forall i :: 1 <= i < n ==> r.value[i] == 0.0
    ensures r.Ok? ==> Within(r.value, Bounds) && F(r.value) == Ok(Minimum)
  {
    if n == 0 then Err(IndexOutOfRange(0, 0))
    else Ok(Filled(n, 0.0)[0 := -5.0])
  }

  /** On the bounded domain the declared minimum is a true lower bound, and it
      is attained exactly when the first coordinate is at the lower bound. */
  lemma MinimumIsLowerBound(x: seq<real>)
    requires |x| >= 1 && Within(x, Bounds)
    ensures F(x).Ok? && F(x).value >= Minimum
    ensures F(x).value == Minimum <==> x[0] == Bounds.low
  {
  }
}
