# benchfun, modelled in Dafny

A model of the `benchmark_functions` crate: a catalogue of test functions for
optimisation algorithms, each declaring which capability contracts it
implements (bounded or unbounded domain, fixed or any dimensionality,
constrained or not, one objective or several), its known minimum and a
constructor for the minimizing input.

The model covers the capability contracts and the polynomial part of the
catalogue, over the exact reals (`real`, vectors as `seq<real>`):

- `results.dfy` (`Results`): the ways a call panics, as explicit failure values
  (`Result`, `Outcome`, `Panic`) rather than preconditions.
- `real_vec.dfy` (`RealVec`): `vec![c; n]`, `powi`, and the sum-of-squares and
  product accumulations the formulas share.
- `capabilities.dfy` (`Capabilities`): the traits as a declaration record;
  `Bounded::in_bounds` (with its early exit), `UnBounded::in_bounds`,
  `FixedDimensional::check_input`, `CONSTRAINED`.
- `sphere.dfy`, `rosenbrock.dfy`, `matyas.dfy`, `ridge.dfy`, `zakharov.dfy`:
  each function's bounds, `MINIMUM`, `f` and `minimizer`.
- `chankong_haimes.dfy`: the fixed-dimensional, constrained, two-objective
  Chankong-Haimes problem with its constraints and the `h`/`g` aliases.
- `harness.dfy` (`Harness`): `SingleObjective::check_minimizer` over the five
  single-objective functions.

What is proved, beyond each function's own contract:

- `check_minimizer(d)` passes for every `d` for Sphere and Zakharov, and for
  every `d >= 1` for Rosenbrock, Matyas and Ridge; at `d = 0` those three abort
  (usize underflow in Rosenbrock's loop bound, the empty product 1 giving
  Matyas the value -0.48, and Ridge's `v[0]` on an empty vector). The tests of
  the library check only `d = 2` and `d = 137`.
- every minimizer is accepted by its function's own `in_bounds`;
- the declared minimum is a true lower bound for Rosenbrock (any non-empty
  input), Zakharov (any input) and Ridge (any non-empty input inside its
  bounds, where `f(x) = x[0]`); it is attained only at the minimizer for
  Zakharov, and for Rosenbrock from two coordinates on; for Ridge it is
  attained exactly when the first coordinate is -5;
- Sphere is modelled as written: the code subtracts the squares, so `f <= 0`
  everywhere with equality only at the origin, and the declared minimum is in
  fact the function's maximum;
- Matyas, generalised to any length, has no lower bound of 0: one coordinate at
  1, or three at 2, already evaluate below it.

## Model

| member | source | states |
|---|---|---|
| `RealVec.Filled` | src/lib.rs:144-146 | `vec![c; n]` has length n and every coordinate equal to c |
| `RealVec.Pow` | src/lib.rs:244 | `powi` of 0 to a positive power is 0, and any power of 1 is 1 |
| `RealVec.EvenPowerNonnegative` | src/lib.rs:521 | `s.powi(2k)` is never negative, whatever the sign of s |
| `RealVec.SquareSum` | src/lib.rs:351-355 | the accumulated sum of squares is never negative and is zero exactly when every coordinate is zero |
| `RealVec.Product` | src/lib.rs:352-356 | the accumulated product starts at 1 (so the empty product is 1) and is zero exactly when some coordinate is zero |
| `Capabilities.InBounds` | src/lib.rs:42-51 | the scan with early exit returns true exactly when every coordinate lies in the closed interval, the empty vector included |
| `Capabilities.UnBoundedInBounds` | src/lib.rs:57-62 | every input of every length is accepted; the infinite bounds are a tag, not an interval |
| `Capabilities.CheckInput` | src/lib.rs:110-114 | completes exactly when the length equals D, otherwise panics with both lengths |
| `Sphere.F` | src/lib.rs:135-141 | as written the value never exceeds MINIMUM = 0 and equals it exactly at the origin |
| `Sphere.Minimizer` | src/lib.rs:144-146 | the all-zero vector of length n, where f equals MINIMUM for every n, and which the unbounded `in_bounds` accepts |
| `Sphere.BelowMinimumOffOrigin` | src/lib.rs:130-141 | any vector with a non-zero coordinate evaluates strictly below the declared minimum |
| `Rosenbrock.Term` | src/lib.rs:244 | each summand is non-negative and zero exactly at the pair (1, 1) |
| `Rosenbrock.PairSum` | src/lib.rs:242-246 | the loop over consecutive pairs is non-negative, zero with fewer than two coordinates, and otherwise zero exactly on all-ones |
| `Rosenbrock.F` | src/lib.rs:240-247 | panics on the empty vector (`n - 1` underflows); otherwise never below MINIMUM, and from two coordinates on equal to it exactly at all-ones |
| `Rosenbrock.Minimizer` | src/lib.rs:250-252 | the all-ones vector of length n lies in [-5, 10]; f there equals MINIMUM for every n >= 1 and panics for n = 0 |
| `Rosenbrock.OneCoordinateIsFlat` | src/lib.rs:240-246 | with one coordinate the loop is empty, so every input attains the minimum |
| `Matyas.F` | src/lib.rs:349-358 | at the non-empty origin the value is MINIMUM; on the empty vector it is -0.48 |
| `Matyas.Minimizer` | src/lib.rs:361-363 | the all-zero vector of length n lies in [-10, 10]; f there equals MINIMUM for every n >= 1 and -0.48 for n = 0 |
| `Matyas.BelowMinimumInOneDimension` | src/lib.rs:344-358 | with one coordinate the input (1) evaluates below the declared minimum |
| `Matyas.BelowMinimumInThreeDimensions` | src/lib.rs:344-358 | with three coordinates the input (2, 2, 2) evaluates below the declared minimum |
| `Ridge.F` | src/lib.rs:457-466 | panics on the empty vector at `x[0]`; otherwise, with d = 1 and alpha = 0, the value is exactly the first coordinate |
| `Ridge.Minimizer` | src/lib.rs:469-473 | panics for n = 0 at `v[0]`; otherwise length n, first coordinate -5, the rest 0, inside [-5, 5], and f there equals MINIMUM = -5 |
| `Ridge.MinimumIsLowerBound` | src/lib.rs:447-466 | inside the bounds [-5, 5] every non-empty input evaluates to at least -5, with equality exactly when the first coordinate is -5 |
| `Zakharov.IndexWeightedSum` | src/lib.rs:516-520 | the index-weighted sum vanishes at the origin |
| `Zakharov.F` | src/lib.rs:513-522 | never below MINIMUM = 0 and equal to it exactly at the origin |
| `Zakharov.Minimizer` | src/lib.rs:525-527 | the all-zero vector of length n lies in [-5, 10], and f there equals MINIMUM for every n |
| `ChankongHaimes.F` | src/lib.rs:626-632 | panics with a dimension mismatch exactly when the length is not 2; otherwise returns the two objectives (2+(x0-2)²-(x1-1)², 9x0-(x1-1)²) |
| `ChankongHaimes.EqualityConstraints` | src/lib.rs:613-615 | returns NH = 0 values for every input |
| `ChankongHaimes.InequalityConstraints` | src/lib.rs:617-622 | panics at the first missing index exactly when fewer than two coordinates are given; otherwise returns (x0²+x1²-225, x0-3x1+10), ignoring extra coordinates |
| `ChankongHaimes.H` | src/lib.rs:83-85 | the alias returns exactly the equality constraints, the empty vector |
| `ChankongHaimes.G` | src/lib.rs:87-90 | the alias returns exactly the inequality constraints, NG = 2 values on success |
| `ChankongHaimes.TestInputs` | src/lib.rs:639-655 | at (0,0) f = (5,-1), g = (-225,10); at (1,1) f = (3,9), g = (-223,8); h is empty |
| `ChankongHaimes.DeclaredConstrained` | src/lib.rs:605-611 | the problem is constrained (`CONSTRAINED` is true) with NH = 0 and NG = 2, and fixed-dimensional with D = 2 |
| `Harness.Declared` | src/lib.rs:126-128 | every single-objective function (the `impl` blocks for Sphere here and for Rosenbrock, Matyas, Ridge and Zakharov at lines 227-233, 336-342, 444-450, 500-506) is N-dimensional and unconstrained (`CONSTRAINED` is false), and declares a domain whose bounds satisfy low <= high |
| `Harness.CheckMinimizer` | src/lib.rs:25-27 | passes exactly when the minimizer is built and f at it returns exactly MINIMUM; a value different from MINIMUM fails as an assertion failure carrying that value and MINIMUM; a panic building the minimizer, or in f, aborts the check with that panic |
| `Harness.CheckMinimizerVerdict` | src/lib.rs:24-27 | `check_minimizer(d)` passes exactly when d >= 0 (Sphere, Zakharov) or d >= 1 (Rosenbrock, Matyas, Ridge), with the panic or assertion failure at d = 0 |
| `Harness.LibraryTestsPass` | src/lib.rs:153-161 | `check_minimizer` passes at d = 2 and d = 137 for every single-objective function (the Sphere tests here and those of Rosenbrock, Matyas, Ridge and Zakharov at lines 259-267, 370-378, 480-488, 534-542) |
| `Harness.MinimizerInBounds` | src/lib.rs:42-51 | every minimizer that exists is accepted by its own function's `in_bounds` |

## Left out

- Rastrigin, Ackley, Griewank and Salomon: their formulas need `cos`, `exp`,
  `sqrt` and `PI`, which have no exact counterpart over the reals in Dafny.
- IEEE-754 arithmetic: the model computes over exact reals, so rounding and the
  exact `assert_eq!` float comparison are not modelled; at the minimizers
  (all zeros, all ones, `(-5, 0, ...)`) the float computation is exact, so the
  verdicts of `check_minimizer` carry over.
- `Capabilities.InBounds`: NaN coordinates are not modelled; in the code a NaN
  fails both comparisons and is therefore reported in bounds.
- `NDimensional::D`: the `usize::MAX` sentinel is a tag (`NDimensional`), not a
  number.
- `Matyas.F`: no lower bound is stated, because the generalised formula has
  none (see the two counterexample lemmas).
- `Rosenbrock.F`: the empty-vector panic follows a debug build (`n - 1`
  overflow check, as under `cargo test`); a release build wraps instead and
  panics one step later indexing `x[1]`.
- Ridge's parameters `d` and `alpha` are the fixed constants of the code, not
  inputs.
- Rust trait machinery, panic message texts and the doc-comment images: the
  traits become the `Declaration` record and per-function modules, panics
  become `Panic` values. There is no I/O or concurrency in the crate.
