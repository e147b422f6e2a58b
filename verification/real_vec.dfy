/** Arithmetic on input vectors, over the exact reals.

    The library works on `Vec<f64>`; here a vector is a `seq<real>`, so sums,
    products and integer powers carry no rounding.  The folds below are the
    accumulations shared by several formulas.
 */
module RealVec {

  /** Every coordinate of `x` equals `c`. */
  predicate AllEqual(x: seq<real>, c: real) {
    forall i :: 0 <= i < |x| ==> x[i] == c
  }

  /** `vec![c; n]`: the vector of length `n` with every coordinate `c`. */
  function Filled(n: nat, c: real): (v: seq<real>)
    ensures |v| == n
    ensures AllEqual(v, c)
  {
    seq(n, _ => c)
  }

  /** `b.powi(k)`: `b` multiplied by itself `k` times (1 when `k` is 0). */
  function Pow(b: real, k: nat): (r: real)
    ensures b == 0.0 && k > 0 ==> r == 0.0
    ensures b == 1.0 ==> r == 1.0
  {
    if k == 0 then 1.0 else b * Pow(b, k - 1)
  }

  lemma SquareIsProduct(b: real)
    ensures Pow(b, 2) == b * b
  {
    calc {
      Pow(b, 2);
      b * Pow(b, 1);
      b * (b * Pow(b, 0));
    }
  }

  /** An even power is never negative. */
  lemma {:induction false} EvenPowerNonnegative(b: real, k: nat)
    ensures Pow(b, 2 * k) >= 0.0
  {
    if k > 0 {
      EvenPowerNonnegative(b, k - 1);
      calc {
        Pow(b, 2 * k);
        b * Pow(b, 2 * k - 1);
        b * (b * Pow(b, 2 * (k - 1)));
        (b * b) * Pow(b, 2 * (k - 1));
      }
      assert b * b >= 0.0;
    }
  }

  /** A square is never negative, and zero exactly when its base is. */
  lemma SquareZeroIff(b: real)
    ensures Pow(b, 2) >= 0.0
    ensures Pow(b, 2) == 0.0 <==> b == 0.0
  {
    SquareIsProduct(b);
    if Pow(b, 2) == 0.0 {
      ZeroProduct(b, b);
    }
  }

  lemma ZeroProduct(a: real, c: real)
    requires a * c == 0.0
    ensures a == 0.0 || c == 0.0
  {
  }

  /** The accumulation `for i in 0..n { s += x[i].powi(2) }` started at zero:
      never negative, and zero exactly at the origin. */
  function SquareSum(x: seq<real>): (r: real)
    ensures r >= 0.0
    ensures r == 0.0 <==> AllEqual(x, 0.0)
  {
    if |x| == 0 then 0.0
    else
      SquareZeroIff(x[0]);
      var rest := SquareSum(x[1..]);
      assert AllEqual(x, 0.0) <==> x[0] == 0.0 && AllEqual(x[1..], 0.0) by {
        if x[0] == 0.0 && AllEqual(x[1..], 0.0) {
          forall i | 0 <= i < |x| ensures x[i] == 0.0 {
            if i > 0 { assert x[i] == x[1..][i - 1]; }
          }
        }
      }
      Pow(x[0], 2) + rest
  }

  /** The accumulation `for i in 0..n { p *= x[i] }` started at one: the empty
      product is 1, and the product vanishes exactly when some coordinate does. */
  function Product(x: seq<real>): (r: real)
    ensures |x| == 0 ==> r == 1.0
    ensures r == 0.0 <==> exists i :: 0 <= i < |x| && x[i] == 0.0
  {
    if |x| == 0 then 1.0
    else
      var rest := Product(x[1..]);
      assert (exists i :: 0 <= i < |x| && x[i] == 0.0) <==>
             x[0] == 0.0 || exists j :: 0 <= j < |x[1..]| && x[1..][j] == 0.0 by {
        if exists i :: 0 <= i < |x| && x[i] == 0.0 {
          var i :| 0 <= i < |x| && x[i] == 0.0;
          if i > 0 { assert x[1..][i - 1] == 0.0; }
        }
        if exists j :: 0 <= j < |x[1..]| && x[1..][j] == 0.0 {
          var j :| 0 <= j < |x[1..]| && x[1..][j] == 0.0;
          assert x[j + 1] == 0.0;
        }
      }
      assert x[0] * rest == 0.0 ==> x[0] == 0.0 || rest == 0.0 by {
        if x[0] * rest == 0.0 {
          ZeroProduct(x[0], rest);
        }
      }
      x[0] * rest
  }
}
