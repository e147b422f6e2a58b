/** The ways a call into the benchmark library can abort.

    The library never returns an error value: it panics.  The model turns each
    panic into an explicit failure value so that the cases in which the code
    aborts can be stated and proved, instead of being excluded by preconditions.
 */
module Results {

  /** The reason a call panicked. */
  datatype Panic =
    /** `FixedDimensional::check_input` saw a vector of the wrong length. */
    | DimensionMismatch(given: nat, expected: nat)
    /** `n - 1` on a `usize` that is zero (debug build, as under `cargo test`). */
    | SubtractOverflow
    /** Indexing a `Vec` of length `length` at `index >= length`. */
    | IndexOutOfRange(index: nat, length: nat)
    /** `assert_eq!(left, right)` with `left != right`. */
    | AssertionFailed(left: real, right: real)

  /** A value, or the panic that prevented it. */
  datatype Result<+T> = Ok(value: T) | Err(panic: Panic)

  /** A call that returns nothing either completes or panics. */
  datatype Outcome = Pass | Fail(panic: Panic)
}
