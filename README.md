# sakura_fee_router in Dafny

A model of the Solana/Anchor program `sakura_fee_router` and its single
instruction, `process_payment`. A user pays `amount` tokens of the SAKURA
mint. The program first checks the accounts it was given. It then splits the
payment 50/50 by basis points: it transfers the insurance share to the
Percolator insurance vault and burns the rest from the user's token account.
Finally it extends the user's `Subscription` account by thirty days, counted
from the later of the current time and the current expiry.

Modules:

- `Wrappers` (wrappers.dfy): `Option` and `Outcome`.
- `Integers` (integers.dfy): `u64`/`i64` as bounded `int` subsets, and the
  checked `mul`, `div`, `sub` and `add` that the program uses. A `None` from
  one of these is where Rust's `unwrap()` panics.
- `RouterTypes` (router_types.dfy): opaque public keys and the `ErrorCode` enum.
- `FeeSplit` (fee_split.dfy): the basis-point constants, the `InvalidSplit`
  guard and the split arithmetic.
- `AccountConstraints` (account_constraints.dfy): the `ProcessPayment`
  account constraints, as a validator over an abstract account record. It
  returns `Pass` or the error code of the first violated constraint.
- `Subscriptions` (subscription.dfy): the expiry rule, the `Subscription`
  account as a class updated in place, and lemmas about series of payments.
- `FeeRouter` (fee_router.dfy): the instruction. `Payment` is a pure function
  of the inputs and the old subscription state. `ProcessPayment` is the
  step-by-step method that mutates a `Subscription` object; it is proved to
  agree with `Payment`.

Inputs from outside the program are parameters:

- the clock's unix timestamp (`Option<I64>`: `Clock::get()` can fail);
- whether the SPL token program accepts the transfer and the burn;
- the four fixed keys the program is compiled with (`Deployment`).

The two token calls are represented only by the amounts they move (`Cpi`).
`invoked` lists the calls issued before the instruction ended, in order. When
the instruction fails, the runtime rolls those calls back.

Account checks. Anchor first loads the accounts. Loading a token or mint
account only succeeds when the SPL token program owns it; otherwise Anchor
fails with one of its own errors (`AccountOwnedByWrongProgram`, or
`AccountNotInitialized` for an account that was never created), which the
model reports as `AccountOwnedByWrongProgram`. The model checks all
three accounts' owners before any constraint. Then come the constraints,
account by account in declaration order. Within one account, its
`constraint =` clauses go first as written, then `owner =`, then `address =`.
The full order is:

1. the user token account's owner (`InvalidOwner`);
2. the user token account's mint (`InvalidMint`);
3. the vault's mint (`InvalidVaultMint`);
4. the vault's authority (`InvalidVaultAuthority`);
5. the vault's program owner (`InvalidVaultOwner`);
6. the vault's address (`InvalidVault`);
7. the mint's address (`InvalidMint`).

The first violated constraint's code is reported. Because the vault was
already loaded, constraint 5 always holds inside the instruction.

## Model

| member | source | states |
|---|---|---|
| `FeeSplit.SplitGuard` | programs/sakura_fee_router/src/lib.rs:26 | with INSURANCE_BPS = BURN_BPS = 5000 the `InvalidSplit` guard always passes |
| `FeeSplit.ComputeSplit` | programs/sakura_fee_router/src/lib.rs:30-35 | the split succeeds exactly when `amount * 5000` fits in a u64, i.e. `amount <= u64::MAX / 5000`; only the multiplication can fail. On success the insurance share is `floor(amount * 5000 / 10000) = amount / 2` and at most `amount`, so the subtraction never underflows; the two shares add up to `amount`; and the burn exceeds the insurance by `amount % 2` (the odd unit is burnt) |
| `AccountConstraints.Constraints` | programs/sakura_fee_router/src/lib.rs:81-103 | the instruction has seven account constraints. Each carries an error code; only the two mint checks share one (`InvalidMint`). None of the codes is `InvalidSplit` or `InvalidAmount`. The checking order is given by the list itself, not by its ensures: per account, raw constraints, then `owner`, then `address` |
| `AccountConstraints.AllConstraintsHold` | programs/sakura_fee_router/src/lib.rs:81-103 | every constraint in the list holds exactly when the seven account conditions hold |
| `AccountConstraints.FirstViolation` | programs/sakura_fee_router/src/lib.rs:81-103 | a sequential check returns no index exactly when every constraint holds; otherwise it returns the index of a violated constraint before which all others hold |
| `AccountConstraints.Validate` | programs/sakura_fee_router/src/lib.rs:81-103 | validation passes exactly when all constraints hold, and a failure carries the code of the first violated constraint in the checking order. `InvalidOwner` is reported exactly when the user token account's owner is not the signer. Each other code is reported only when its own constraint is violated: `InvalidMint` for the user token account mint or the mint address, then `InvalidVaultMint`, `InvalidVaultAuthority`, `InvalidVaultOwner` and `InvalidVault`. `InvalidVaultOwner` and `InvalidVault` are reported only when every constraint before them holds. Validation never reports `InvalidSplit` or `InvalidAmount` |
| `AccountConstraints.FirstViolationPrefix` | programs/sakura_fee_router/src/lib.rs:81-97 | every constraint before the first violated one holds |
| `AccountConstraints.VaultMintBeforeVaultAddress` | programs/sakura_fee_router/src/lib.rs:88-97 | when the user token account passes its own checks, a vault with both the wrong mint and the wrong address fails with `InvalidVaultMint`, not `InvalidVault` |
| `AccountConstraints.SoleViolationReported` | programs/sakura_fee_router/src/lib.rs:83-101 | when exactly one constraint is violated, validation fails with that constraint's own error code |
| `AccountConstraints.CodesIdentifyConstraints` | programs/sakura_fee_router/src/lib.rs:83-101 | no two constraints share an error code, except the two mint checks, which share `InvalidMint` |
| `Subscriptions.NewExpiry` | programs/sakura_fee_router/src/lib.rs:67-68 | the new expiry exists exactly when neither `now` nor the old expiry is within 30 days of i64::MAX. It is then strictly later than both, at least 2 592 000 s past each, and equal to 2 592 000 s past one of them, i.e. `max(now, expires_at) + 2 592 000` |
| `Subscriptions.RenewalsCreditEveryPayment` | programs/sakura_fee_router/src/lib.rs:67-68 | after a series of payments without overflow, the expiry is at least 30 days per payment past the starting expiry. It is also at least 30 days per remaining payment past the time of each payment: no payment's period is lost |
| `Subscriptions.RenewInAdvance` | programs/sakura_fee_router/src/lib.rs:67-68 | when every payment in a series is made at or before the starting expiry, the payments stack exactly: k of them extend the expiry by k times 30 days. If that would pass i64::MAX, the series fails with an overflow |
| `Subscriptions.Subscription.Zeroed` | programs/sakura_fee_router/src/lib.rs:105-112 | a freshly allocated Subscription account holds the zero key and expiry 0 |
| `Subscriptions.Subscription.Renew` | programs/sakura_fee_router/src/lib.rs:65-70 | in place: on success `expires_at` becomes the new expiry and `user` becomes the payer; on overflow neither field changes |
| `FeeRouter.Preflight` | programs/sakura_fee_router/src/lib.rs:24-103 | the checks before the split pass exactly when the accounts load, satisfy their constraints, and `amount > 0`. An account not owned by the token program gives `AccountOwnedByWrongProgram`. A violated constraint gives its validation code. With accepted accounts, a zero amount gives `InvalidAmount`. `InvalidSplit` and `InvalidVaultOwner` never appear |
| `FeeRouter.Payment` | programs/sakura_fee_router/src/lib.rs:24-73 | success exactly when the accounts are accepted, `0 < amount <= u64::MAX / 5000`, both token calls succeed, the clock is readable and the expiry addition does not overflow. On success: a transfer of `amount / 2` followed by a burn of `amount - amount / 2`, and the subscription becomes (signer, new expiry), which is the only change. On failure the subscription is unchanged. Token calls always form a prefix of [transfer, burn]. The transfer is issued exactly when the checks pass; the burn exactly when, in addition, the transfer succeeds. Each step after the checks has its own failure: a rejected transfer or burn gives `CpiFailed` with that call; an unreadable clock gives `ClockUnavailable`; an expiry overflow gives `Panic`, with both calls issued. Each check has its own failure, with no token call: wrong program owner; a constraint's code; `InvalidAmount` for zero; `Panic` for an oversized amount. `InvalidSplit` and `InvalidVaultOwner` are never returned |
| `FeeRouter.FirstPayment` | programs/sakura_fee_router/src/lib.rs:62-70 | the first successful payment into a freshly created (zeroed) Subscription sets its expiry to `max(now, 0) + 2 592 000` and its user to the signer |
| `FeeRouter.PaymentIsRenewal` | programs/sakura_fee_router/src/lib.rs:62-70 | a successful payment changes the expiry exactly as a one-element `Renewals` from the old expiry |
| `FeeRouter.SuccessivePaymentsAreRenewals` | programs/sakura_fee_router/src/lib.rs:62-70 | two successive successful payments, the second on the subscription the first left, change the expiry exactly as a two-element `Renewals` of their clock times |
| `FeeRouter.ProcessPayment` | programs/sakura_fee_router/src/lib.rs:24-73 | the step-by-step instruction on a mutable Subscription account returns the same result and token calls as `Payment`, and leaves the account in `Payment`'s new state |

## Left out

- SPL token internals behind `token::transfer` and `token::burn` (balances,
  authority checks): foreign program code. Only the amounts passed and
  whether each call succeeds are modelled.
- `Clock::get()`: the timestamp (or its unavailability) is an input.
- PDA derivation (seeds, bump), `init_if_needed`, rent, payer and `space`
  sizing: runtime hashing and allocation. Only the zeroed contents of a
  newly created Subscription are modelled, by its constructor.
- The literal key values of `declare_id!` and `pubkey!`, and Anchor
  serialisation and discriminators: keys are opaque values compared for
  equality.
- Anchor's built-in account checks other than the owning program, which
  have no code in `ErrorCode`: the signer check on `user`, `mut`, the
  account data layout, and the token program's id in `Program<'info, Token>`.
  Account loading is reduced to the owning-program check. Anchor reports
  an uninitialised account (owned by the system program, with no lamports)
  as `AccountNotInitialized`; the model folds that case into
  `AccountOwnedByWrongProgram`.
- AccountConstraints.Validate: as a standalone validator it can report
  `InvalidVaultOwner`. Inside the instruction that code cannot occur,
  because loading the vault already requires the token program to own it.
  `FeeRouter.Preflight` and `FeeRouter.Payment` prove that this code is
  never returned.
- Transaction atomicity: the model records the token calls issued before a
  failure and keeps the subscription unchanged on failure. It does not model
  how the runtime rolls the calls back.
