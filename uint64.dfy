/**
 * Unsigned 64-bit arithmetic as a Rust program built with overflow checks
 * sees it: `*`, `-` and `+` on `u64` abort (panic) instead of wrapping when
 * the exact result leaves [0, 2^64).  The abort is modelled as a `Failure`.
 */
module UInt64 {
  import opened Wrappers

  const BOUND: int := 0x1_0000_0000_0000_0000

  type uint64 = x: int | 0 <= x < BOUND

  /** Which checked operation panicked. */
  datatype ArithError = MulOverflow | SubOverflow | AddOverflow

  function Mul(a: uint64, b: uint64): Result<uint64, ArithError> {
    ProductOfNaturals(a, b);
    if a * b < BOUND then Success(a * b) else Failure(MulOverflow)
  }

  lemma ProductOfNaturals(a: nat, b: nat)
    ensures a * b >= 0
  {
  }

  function Sub(a: uint64, b: uint64): Result<uint64, ArithError> {
    if b <= a then Success(a - b) else Failure(SubOverflow)
  }

  function Add(a: uint64, b: uint64): Result<uint64, ArithError> {
    if a + b < BOUND then Success(a + b) else Failure(AddOverflow)
  }
}
