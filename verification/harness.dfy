/** The `SingleObjective` contract over the single-objective part of the
    catalogue, and its generic check `check_minimizer`. */
module Harness {
  import opened Results
  import opened RealVec
  import opened Capabilities
  import SphereFn = Sphere
  import RosenbrockFn = Rosenbrock
  import MatyasFn = Matyas
  import RidgeFn = Ridge
  import ZakharovFn = Zakharov

  /** The dimensionalities the library's tests exercise. */
  const LowD: nat := 2
  const HighD: nat := 137

  /** The single-objective functions of the catalogue. */
  datatype Benchmark = Sphere | Rosenbrock | Matyas | Ridge | Zakharov

  /** `MINIMUM`. */
  function Minimum(b: Benchmark): real {
    match b
    case Sphere => SphereFn.Minimum
    case Rosenbrock => RosenbrockFn.Minimum
    case Matyas => MatyasFn.Minimum
    case Ridge => RidgeFn.Minimum
    case Zakharov => ZakharovFn.Minimum
  }

  /** The traits each function implements.  Every bounded domain is a genuine
      interval. */
  function Declared(b: Benchmark): (r: Declaration)
    ensures r.dimensionality == NDimensional && r.constraints == UnConstrained
    ensures !IsConstrained(r.constraints)
    ensures r.domain.Bounded? ==> r.domain.bounds.low <= r.domain.bounds.high
    ensures !r.domain.NoDomain?
  {
    match b
    case Sphere => SphereFn.Declared
    case Rosenbrock => RosenbrockFn.Declared
    case Matyas => MatyasFn.Declared
    case Ridge => RidgeFn.Declared
    case Zakharov => ZakharovFn.Declared
  }

  /** `f`; functions that cannot panic always succeed. */
  function Evaluate(b: Benchmark, x: seq<real>): Result<real> {
    match b
    case Sphere => Ok(SphereFn.F(x))
    case Rosenbrock => RosenbrockFn.F(x)
    case Matyas => Ok(MatyasFn.F(x))
    case Ridge => RidgeFn.F(x)
    case Zakharov => Ok(ZakharovFn.F(x))
  }

  /** `minimizer`; only Ridge's can panic. */
  function Minimizer(b: Benchmark, n: nat): Result<seq<real>> {
    match b
    case Sphere => Ok(SphereFn.Minimizer(n))
    case Rosenbrock => Ok(RosenbrockFn.Minimizer(n))
    case Matyas => Ok(MatyasFn.Minimizer(n))
    case Ridge => RidgeFn.Minimizer(n)
    case Zakharov => Ok(ZakharovFn.Minimizer(n))
  }

  /** `check_minimizer(d)`: build the minimizer, evaluate `f` on it, and
      `assert_eq!` the value against `MINIMUM`.  A panic in either call aborts
      the check. */
  function CheckMinimizer(b: Benchmark, d: nat): (r: Outcome)
    ensures r.Pass? <==> Minimizer(b, d).Ok? && Evaluate(b, Minimizer(b, d).value) == Ok(Minimum(b))
    ensures Minimizer(b, d).Ok? && Evaluate(b, Minimizer(b, d).value).Err? ==>
              r == Fail(Evaluate(b, Minimizer(b, d).value).panic)
    ensures r.Fail? && r.panic.AssertionFailed? ==> r.panic.right == Minimum(b) && r.panic.left != Minimum(b)
    ensures Minimizer(b, d).Ok? && Evaluate(b, Minimizer(b, d).value).Ok? &&
            Evaluate(b, Minimizer(b, d).value).value != Minimum(b) ==>
              r == Fail(AssertionFailed(Evaluate(b, Minimizer(b, d).value).value, Minimum(b)))
    ensures Minimizer(b, d).Err? ==> r == Fail(Minimizer(b, d).panic)
  {
    match Minimizer(b, d)
    case Err(p) => Fail(p)
    case Ok(v) =>
      match Evaluate(b, v)
      case Err(p) => Fail(p)
      case Ok(y) => if y == Minimum(b) then Pass else Fail(AssertionFailed(y, Minimum(b)))
  }

  /** The least dimensionality at which `check_minimizer` passes. */
  function LeastDimension(b: Benchmark): nat {
    match b
    case Sphere | Zakharov => 0
    case Rosenbrock | Matyas | Ridge => 1
  }

  /** `check_minimizer(d)` passes for exactly the dimensionalities from
      `LeastDimension` on; below it, it aborts for the stated reason. */
  lemma CheckMinimizerVerdict(b: Benchmark, d: nat)
    ensures CheckMinimizer(b, d).Pass? <==> d >= LeastDimension(b)
    ensures b == Rosenbrock && d == 0 ==> CheckMinimizer(b, d) == Fail(SubtractOverflow)
    ensures b == Matyas && d == 0 ==> CheckMinimizer(b, d) == Fail(AssertionFailed(-0.48, 0.0))
    ensures b == Ridge && d == 0 ==> CheckMinimizer(b, d) == Fail(IndexOutOfRange(0, 0))
  {
  }

  /** The library's own tests: `check_minimizer` at `LOW_D` and `HIGH_D`
      passes for every function. */
  lemma LibraryTestsPass(b: Benchmark)
    ensures CheckMinimizer(b, LowD) == Pass
    ensures CheckMinimizer(b, HighD) == Pass
  {
    CheckMinimizerVerdict(b, LowD);
    CheckMinimizerVerdict(b, HighD);
  }

  /** Whenever a minimizer exists, the function's own `in_bounds` accepts it. */
  lemma MinimizerInBounds(b: Benchmark, n: nat)
    requires Minimizer(b, n).Ok?
    ensures Admits(Declared(b).domain, Minimizer(b, n).value)
  {
  }
}
