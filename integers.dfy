/**
 * Rust's fixed-width integers `u64` and `i64` as bounded subsets of `int`,
 * and the checked operations the program uses on them. A checked operation
 * yields `None` exactly where the Rust one yields `None`; the program then
 * calls `unwrap()`, which the instruction model turns into a panic.
 */
module Integers {
  import opened Wrappers

  const U64_MAX: int := 0xFFFF_FFFF_FFFF_FFFF
  const I64_MIN: int := -0x8000_0000_0000_0000
  const I64_MAX: int := 0x7FFF_FFFF_FFFF_FFFF

  type U64 = x: int | 0 <= x <= U64_MAX
  type I64 = x: int | I64_MIN <= x <= I64_MAX

  /** `u64::checked_mul`. */
  function CheckedMulU64(a: U64, b: U64): Option<U64>
  {
    if a * b <= U64_MAX then Some(a * b) else None
  }

  /** `u64::checked_div`: fails only on a zero divisor; unsigned division rounds down. */
  function CheckedDivU64(a: U64, b: U64): Option<U64>
  {
    if b == 0 then None else Some(a / b)
  }

  /** `u64::checked_sub`. */
  function CheckedSubU64(a: U64, b: U64): Option<U64>
  {
    if b <= a then Some(a - b) else None
  }

  /** `i64::checked_add`. */
  function CheckedAddI64(a: I64, b: I64): Option<I64>
  {
    if I64_MIN <= a + b <= I64_MAX then Some(a + b) else None
  }

  /** `std::cmp::max` on `i64`. */
  function MaxI64(a: I64, b: I64): I64
  {
    if a >= b then a else b
  }
}
