/** Keys and the program's error codes. */
module RouterTypes {

  /**
   * A Solana public key. Keys are only ever compared for equality, so the
   * model keeps the 32 bytes opaque.
   */
  datatype Pubkey = Pubkey(bytes: seq<bv8>)

  /** The all-zero key, which is what a freshly allocated account holds in a key field. */
  const ZERO_PUBKEY: Pubkey := Pubkey(seq(32, _ => 0))

  /** The program's `ErrorCode` enum, one variant per custom error. */
  datatype ErrorCode =
    | InvalidSplit
    | InvalidAmount
    | InvalidOwner
    | InvalidMint
    | InvalidVault
    | InvalidVaultMint
    | InvalidVaultOwner
    | InvalidVaultAuthority
}
