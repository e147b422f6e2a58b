/** The Rosenbrock function: a sum over consecutive coordinate pairs of
    `100 (x[i+1] - x[i]^2)^2 + (1 - x[i])^2`, bounded to [-5, 10]. */
module Rosenbrock {
  import opened Results
  import opened RealVec
  import opened Capabilities

  const Bounds := Interval(-5.0, 10.0)
  const Declared := Declaration(NDimensional, Bounded(Bounds), UnConstrained)

  /** `MINIMUM`. */
  const Minimum: real := 0.0

  /** One summand of the loop, for the pair `(x[i], x[i+1]) = (a, b)`: never
      negative, and zero exactly at `a = b = 1`. */
  function Term(a: real, b: real): (r: real)
    ensures r >= 0.0
    ensures r == 0.0 <==> a == 1.0 && b == 1.0
  {
    SquareZeroIff(b - Pow(a, 2));
    SquareZeroIff(1.0 - a);
    SquareZeroIff(a);
    assert a == 1.0 ==> Pow(a, 2) == 1.0;
    100.0 * Pow(b - Pow(a, 2), 2) + Pow(1.0 - a, 2)
  }

  /** The loop `for i in 0..(n-1)` once `n - 1` is defined: the sum of `Term`
      over the consecutive pairs.  It is never negative; with fewer than two
      coordinates there is no pair and it is zero; with two or more it is zero
      exactly on the all-ones vector. */
  function PairSum(x: seq<real>): (r: real)
    ensures r >= 0.0
    ensures |x| < 2 ==> r == 0.0
    ensures |x| >= 2 ==> (r == 0.0 <==> AllEqual(x, 1.0))
  {
    if |x| < 2 then 0.0
    else
      var rest := PairSum(x[1..]);
      assert AllEqual(x, 1.0) <==> x[0] == 1.0 && AllEqual(x[1..], 1.0) by {
        if x[0] == 1.0 && AllEqual(x[1..], 1.0) {
          forall i | 0 <= i < |x| ensures x[i] == 1.0 {
            if i > 0 { assert x[i] == x[1..][i - 1]; }
          }
        }
      }
      assert |x[1..]| < 2 ==> (AllEqual(x[1..], 1.0) <==> x[1] == 1.0) by {
        if |x[1..]| < 2 { assert x[1..][0] == x[1]; }
      }
      assert |x[1..]| >= 2 && AllEqual(x[1..], 1.0) ==> x[1] == 1.0 by {
        if |x[1..]| >= 2 && AllEqual(x[1..], 1.0) { assert x[1..][0] == x[1]; }
      }
      Term(x[0], x[1]) + rest
  }

  /** `f`: with no coordinate at all, `n - 1` underflows and the call panics;
      otherwise the value is never below the declared minimum, and from two
      coordinates on it equals the declared minimum exactly at all-ones. */
  function F(x: seq<real>): (r: Result<real>)
    ensures r.Ok? <==> |x| >= 1
    ensures r.Err? ==> r.panic == SubtractOverflow
    ensures r.Ok? ==> r.value >= Minimum
    ensures r.Ok? && |x| >= 2 ==> (r.value == Minimum <==> AllEqual(x, 1.0))
  {
    if |x| == 0 then Err(SubtractOverflow) else Ok(PairSum(x))
  }

  /** `minimizer`: `vec![1.0; n]`, inside the bounds.  `f` gives the declared
      minimum there for every `n` except 0, where it panics. */
  function Minimizer(n: nat): (v: seq<real>)
    ensures |v| == n
    ensures AllEqual(v, 1.0)
    ensures Within(v, Bounds)
    ensures F(v) == if n == 0 then Err(SubtractOverflow) else Ok(Minimum)
  {
    Filled(n, 1.0)
  }

  /** With a single coordinate there is no pair, so every value of that
      coordinate attains the declared minimum. */
  lemma OneCoordinateIsFlat(a: real)
    ensures F([a]) == Ok(Minimum)
  {
  }
}
