/**
 * How a payment is divided between the insurance vault and the burn:
 * fixed basis points, checked `u64` arithmetic, the burn taking the rest.
 */
module FeeSplit {
  import opened Wrappers
  import opened Integers
  import opened RouterTypes

  const INSURANCE_BPS: U64 := 5000
  const BURN_BPS: U64 := 5000
  /** The literal 10_000: one hundred percent in basis points. */
  const BPS_DENOMINATOR: U64 := 10_000

  /** The largest amount whose product with INSURANCE_BPS still fits in a `u64`. */
  const MAX_SPLITTABLE_AMOUNT: U64 := U64_MAX / INSURANCE_BPS

  /** The two shares of one payment. */
  datatype Split = Split(insurance: U64, burn: U64)

  /**
   * The `InvalidSplit` guard. With the program's constants the basis points
   * add up to 10_000, so the guard always passes.
   */
  function SplitGuard(): (r: Outcome<ErrorCode>)
    ensures r == Pass
  {
    if INSURANCE_BPS + BURN_BPS == BPS_DENOMINATOR then Pass else Fail(InvalidSplit)
  }

  /**
   * The insurance share `amount * INSURANCE_BPS / 10_000` and the burn share
   * `amount - insurance`, each step checked. `None` is the panic of an
   * `unwrap()`; only the multiplication can fail, the division and the
   * subtraction never do.
   */
  function ComputeSplit(amount: U64): (r: Option<Split>)
    ensures r.None? <==> amount * INSURANCE_BPS > U64_MAX
    ensures r.None? <==> amount > MAX_SPLITTABLE_AMOUNT
    ensures r.None? <==> CheckedMulU64(amount, INSURANCE_BPS).None?
    ensures r.Some? ==> r.value.insurance == amount * INSURANCE_BPS / BPS_DENOMINATOR == amount / 2
    ensures r.Some? ==> r.value.insurance <= amount
    ensures r.Some? ==> r.value.insurance + r.value.burn == amount
    ensures r.Some? ==> r.value.burn - r.value.insurance == amount % 2
  {
    match CheckedMulU64(amount, INSURANCE_BPS)
    case None => None
    case Some(product) =>
      match CheckedDivU64(product, BPS_DENOMINATOR)
      case None => None
      case Some(insurance) =>
        match CheckedSubU64(amount, insurance)
        case None => None
        case Some(burn) => Some(Split(insurance, burn))
  }
}
