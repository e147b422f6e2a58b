/** The Chankong-Haimes problem: two objectives over exactly two coordinates,
    with two inequality constraints and no equality constraint. */
module ChankongHaimes {
  import opened Results
  import opened RealVec
  import opened Capabilities

  /** `D`. */
  const D: nat := 2
  /** `NH`. */
  const NH: nat := 0
  /** `NG`. */
  const NG: nat := 2

  const Declared := Declaration(FixedDimensional(D), NoDomain, Constrained(NH, NG))

  /** `MultiObjective::f`: `check_input` first, so every length other than 2
      panics; on two coordinates the objectives are
      `(2 + (x0-2)^2 - (x1-1)^2, 9 x0 - (x1-1)^2)`. */
  function F(x: seq<real>): (r: Result<seq<real>>)
    ensures r.Ok? <==> |x| == D
    ensures r.Err? ==> r.panic == DimensionMismatch(|x|, D)
    ensures r.Ok? ==> r.value == [
      2.0 + (x[0] - 2.0) * (x[0] - 2.0) - (x[1] - 1.0) * (x[1] - 1.0),
      9.0 * x[0] - (x[1] - 1.0) * (x[1] - 1.0)]
  {
    match CheckInput(D, x)
    case Fail(p) => Err(p)
    case Pass =>
      SquareIsProduct(x[0] - 2.0);
      SquareIsProduct(x[1] - 1.0);
      var f0 := 2.0 + Pow(x[0] - 2.0, 2) - Pow(x[1] - 1.0, 2);
      var f1 := 9.0 * x[0] - Pow(x[1] - 1.0, 2);
      assert f0 == 2.0 + (x[0] - 2.0) * (x[0] - 2.0) - (x[1] - 1.0) * (x[1] - 1.0);
      assert f1 == 9.0 * x[0] - (x[1] - 1.0) * (x[1] - 1.0);
      Ok([f0, f1])
  }

  /** `equality_constraints`: `vec![0.0; NH]`, whatever the input. */
  function EqualityConstraints(x: seq<real>): (r: seq<real>)
    ensures |r| == NH
  {
    Filled(NH, 0.0)
  }

  /** `inequality_constraints`: no length check, so it reads `x[0]` and then
      `x[1]` and panics at the first index that is missing; extra coordinates
      are ignored.  On success the values are
      `(x0^2 + x1^2 - 225, x0 - 3 x1 + 10)`, each satisfied when <= 0. */
  function InequalityConstraints(x: seq<real>): (r: Result<seq<real>>)
    ensures r.Ok? <==> |x| >= 2
    ensures r.Err? ==> r.panic == IndexOutOfRange(|x|, |x|)
    ensures r.Ok? ==> r.value == [x[0] * x[0] + x[1] * x[1] - 225.0, x[0] - 3.0 * x[1] + 10.0]
  {
    if |x| < 2 then Err(IndexOutOfRange(|x|, |x|))
    else
      SquareIsProduct(x[0]);
      SquareIsProduct(x[1]);
      var g0 := Pow(x[0], 2) + Pow(x[1], 2) - 225.0;
      assert g0 == x[0] * x[0] + x[1] * x[1] - 225.0;
      Ok([g0, x[0] - 3.0 * x[1] + 10.0])
  }

  /** `h`: the equality-constraint alias, always the empty vector. */
  function H(x: seq<real>): (r: seq<real>)
    ensures r == EqualityConstraints(x) && r == []
  {
    EqualityConstraints(x)
  }

  /** `g`: the inequality-constraint alias. */
  function G(x: seq<real>): (r: Result<seq<real>>)
    ensures r == InequalityConstraints(x)
    ensures r.Ok? ==> |r.value| == NG
  {
    InequalityConstraints(x)
  }

  /** The problem implements `Constrained`, so `CONSTRAINED` is true, with the
      declared counts, and it is `FixedDimensional` with `D = 2`. */
  lemma DeclaredConstrained()
    ensures IsConstrained(Declared.constraints)
    ensures Declared.constraints == Constrained(0, 2)
    ensures Declared.dimensionality == FixedDimensional(2)
  {
  }

  /** The two inputs the library's tests run: `(0, 0)` and `(1, 1)` complete
      without panicking, with these values. */
  lemma TestInputs()
    ensures F([0.0, 0.0]) == Ok([5.0, -1.0])
    ensures G([0.0, 0.0]) == Ok([-225.0, 10.0])
    ensures H([0.0, 0.0]) == []
    ensures F([1.0, 1.0]) == Ok([3.0, 9.0])
    ensures G([1.0, 1.0]) == Ok([-223.0, 8.0])
    ensures H([1.0, 1.0]) == []
  {
  }
}
