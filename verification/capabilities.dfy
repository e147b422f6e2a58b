/** The capability contracts a benchmark function composes: how its domain is
    bounded, how many coordinates it accepts, and which constraints it carries.

    Each Rust trait becomes a tag in a declaration record; the default method
    bodies of the traits become the functions and methods below.
 */
module Capabilities {
  import opened Results

  /** A closed interval `[low, high]`, applied to every coordinate. */
  datatype Interval = Interval(low: real, high: real)

  /** `Bounded` with its `BOUNDS`, `UnBounded`, or neither (a constrained
      problem in the catalogue declares no bounds at all).  The `UnBounded`
      pair of infinities is a tag here, never an interval. */
  datatype Domain = Bounded(bounds: Interval) | UnBounded | NoDomain

  /** `NDimensional` (any length, `D` is the `usize::MAX` sentinel) or
      `FixedDimensional` with its required length `D`. */
  datatype Dimensionality = NDimensional | FixedDimensional(d: nat)

  /** `UnConstrained`, or `Constrained` with `NH` equality and `NG` inequality
      constraints. */
  datatype Constraints = UnConstrained | Constrained(nh: nat, ng: nat)

  /** The traits one benchmark function implements. */
  datatype Declaration = Declaration(
    dimensionality: Dimensionality,
    domain: Domain,
    constraints: Constraints)

  /** Every coordinate of `x` lies in the closed interval. */
  predicate Within(x: seq<real>, bounds: Interval) {
    forall i :: 0 <= i < |x| ==> bounds.low <= x[i] <= bounds.high
  }

  /** `Bounded::in_bounds`: scan the coordinates in order and stop at the first
      one strictly below `low` or strictly above `high`.  The early exit does
      not change the verdict: it is exactly "every coordinate is inside". */
  method InBounds(bounds: Interval, x: seq<real>) returns (inBounds: bool)
    ensures inBounds <==> Within(x, bounds)
  {
    inBounds := true;
    var k := 0;
    while k < |x|
      invariant 0 <= k <= |x|
      invariant inBounds
      invariant forall j :: 0 <= j < k ==> bounds.low <= x[j] <= bounds.high
    {
      if x[k] < bounds.low || x[k] > bounds.high {
        inBounds := false;
        break;
      }
      k := k + 1;
    }
  }

  /** `UnBounded::in_bounds`: every vector, of every length, is admitted. */
  function UnBoundedInBounds(x: seq<real>): (r: bool)
    ensures r
  {
    true
  }

  /** What the declared domain admits: the bounded check for `Bounded`, the
      accept-all check for `UnBounded`.  A function without a domain offers no
      `in_bounds` at all, so nothing is admitted through it. */
  predicate Admits(domain: Domain, x: seq<real>) {
    match domain
    case Bounded(bounds) => Within(x, bounds)
    case UnBounded => UnBoundedInBounds(x)
    case NoDomain => false
  }

  /** `FixedDimensional::check_input`: completes exactly when the vector has the
      declared length, and otherwise reports both lengths. */
  function CheckInput(d: nat, x: seq<real>): (r: Outcome)
    ensures r.Pass? <==> |x| == d
    ensures r.Fail? ==> r.panic.DimensionMismatch? && r.panic.given == |x| && r.panic.expected == d
  {
    if |x| != d then Fail(DimensionMismatch(|x|, d)) else Pass
  }

  /** `CONSTRAINED`: the default of `Constrained` is true, of `UnConstrained`
      false. */
  predicate IsConstrained(c: Constraints) {
    c.Constrained?
  }
}
