/**
 * The account constraints of the `ProcessPayment` instruction. Anchor loads
 * the accounts and checks these constraints before the handler runs; each
 * failed constraint aborts the instruction with the error code attached to it.
 */
module AccountConstraints {
  import opened Wrappers
  import opened RouterTypes

  /**
   * The fields of an SPL token account the constraints read: its address,
   * the program that owns it, its mint, and its `owner` field (the token
   * authority allowed to move its funds).
   */
  datatype TokenAccount = TokenAccount(key: Pubkey, programOwner: Pubkey, mint: Pubkey, owner: Pubkey)

  /** A mint account: its address and the program that owns it. */
  datatype MintAccount = MintAccount(key: Pubkey, programOwner: Pubkey)

  /** The accounts passed to `process_payment` that carry constraints. */
  datatype PaymentAccounts = PaymentAccounts(
    user: Pubkey,
    userTokenAccount: TokenAccount,
    insuranceVault: TokenAccount,
    mint: MintAccount)

  /**
   * The fixed keys the program is compiled with: SAKURA_MINT,
   * PERCOLATOR_INSURANCE_VAULT, PERCOLATOR_VAULT_AUTHORITY and the SPL
   * token program id. Their literal values are not part of the model.
   */
  datatype Deployment = Deployment(
    sakuraMint: Pubkey,
    insuranceVault: Pubkey,
    vaultAuthority: Pubkey,
    tokenProgram: Pubkey)

  /**
   * Deserialising `Account<'info, TokenAccount>` and `Account<'info, Mint>`
   * requires each of the three accounts to be owned by the token program.
   * Anchor checks this while loading the accounts, before any constraint,
   * and fails with its own error, not with one of the program's codes.
   */
  predicate OwnedByTokenProgram(a: PaymentAccounts, d: Deployment)
  {
    && a.userTokenAccount.programOwner == d.tokenProgram
    && a.insuranceVault.programOwner == d.tokenProgram
    && a.mint.programOwner == d.tokenProgram
  }

  /** One constraint: whether it holds, and the error raised when it does not. */
  datatype Constraint = Constraint(holds: bool, code: ErrorCode)

  /**
   * The constraints in the order Anchor checks them: account by account in
   * declaration order, and within one account its `constraint =` clauses
   * as written, then `owner =`, then `address =`.
   */
  function Constraints(a: PaymentAccounts, d: Deployment): (cs: seq<Constraint>)
    ensures |cs| == 7
    ensures forall i :: 0 <= i < |cs| ==> cs[i].code != InvalidSplit && cs[i].code != InvalidAmount
  {
    [ Constraint(a.userTokenAccount.owner == a.user, InvalidOwner),
      Constraint(a.userTokenAccount.mint == d.sakuraMint, InvalidMint),
      Constraint(a.insuranceVault.mint == d.sakuraMint, InvalidVaultMint),
      Constraint(a.insuranceVault.owner == d.vaultAuthority, InvalidVaultAuthority),
      Constraint(a.insuranceVault.programOwner == d.tokenProgram, InvalidVaultOwner),
      Constraint(a.insuranceVault.key == d.insuranceVault, InvalidVault),
      Constraint(a.mint.key == d.sakuraMint, InvalidMint) ]
  }

  /**
   * Reference definition: the seven account conditions, transcribed a second
   * time as one conjunction without order or error codes, so that the
   * ordered list above can be checked against it.
   */
  predicate AccountsValid(a: PaymentAccounts, d: Deployment)
  {
    && a.userTokenAccount.owner == a.user
    && a.userTokenAccount.mint == d.sakuraMint
    && a.insuranceVault.key == d.insuranceVault
    && a.insuranceVault.mint == d.sakuraMint
    && a.insuranceVault.owner == d.vaultAuthority
    && a.insuranceVault.programOwner == d.tokenProgram
    && a.mint.key == d.sakuraMint
  }

  /** The accounts load and satisfy every constraint. */
  predicate AccountsAccepted(a: PaymentAccounts, d: Deployment)
  {
    OwnedByTokenProgram(a, d) && AccountsValid(a, d)
  }

  /** The constraint list and the reference definition agree. */
  lemma AllConstraintsHold(a: PaymentAccounts, d: Deployment)
    ensures (forall i :: 0 <= i < 7 ==> Constraints(a, d)[i].holds) <==> AccountsValid(a, d)
  {
    var cs := Constraints(a, d);
    if forall i :: 0 <= i < 7 ==> cs[i].holds {
      assert cs[0].holds && cs[1].holds && cs[2].holds && cs[3].holds;
      assert cs[4].holds && cs[5].holds && cs[6].holds;
    }
  }

  /** Constraint `i` is violated and every constraint before it holds. */
  predicate IsFirstViolation(cs: seq<Constraint>, i: nat)
  {
    i < |cs| && !cs[i].holds && forall j :: 0 <= j < i ==> cs[j].holds
  }

  /** Checks the constraints one after the other and stops at the first that fails. */
  function FirstViolation(cs: seq<Constraint>): (r: Option<nat>)
    ensures r.None? <==> forall i :: 0 <= i < |cs| ==> cs[i].holds
    ensures r.Some? ==> IsFirstViolation(cs, r.value)
  {
    if cs == [] then None
    else if !cs[0].holds then Some(0)
    else match FirstViolation(cs[1..])
      case None => None
      case Some(i) => Some(i + 1)
  }

  /**
   * The validation Anchor performs for `ProcessPayment`: `Pass` exactly when
   * every constraint holds, otherwise the error of the first one violated.
   */
  function Validate(a: PaymentAccounts, d: Deployment): (r: Outcome<ErrorCode>)
    ensures r.Pass? <==> AccountsValid(a, d)
    // a failure carries the code of the first violated constraint
    ensures r.Fail? <==> exists i: nat :: IsFirstViolation(Constraints(a, d), i) && r == Fail(Constraints(a, d)[i].code)
    ensures r == Fail(InvalidOwner) <==> a.userTokenAccount.owner != a.user
    ensures r == Fail(InvalidMint) ==> a.userTokenAccount.mint != d.sakuraMint || a.mint.key != d.sakuraMint
    ensures r == Fail(InvalidVault) ==> a.insuranceVault.key != d.insuranceVault
    ensures r == Fail(InvalidVaultMint) ==> a.insuranceVault.mint != d.sakuraMint
    ensures r == Fail(InvalidVaultAuthority) ==> a.insuranceVault.owner != d.vaultAuthority
    ensures r == Fail(InvalidVaultOwner) ==> a.insuranceVault.programOwner != d.tokenProgram
    ensures r != Fail(InvalidSplit) && r != Fail(InvalidAmount)
    // precedence: the vault's own constraints and program owner come before its address
    ensures r == Fail(InvalidVaultOwner) ==>
      && a.userTokenAccount.owner == a.user && a.userTokenAccount.mint == d.sakuraMint
      && a.insuranceVault.mint == d.sakuraMint && a.insuranceVault.owner == d.vaultAuthority
    ensures r == Fail(InvalidVault) ==>
      && a.userTokenAccount.owner == a.user && a.userTokenAccount.mint == d.sakuraMint
      && a.insuranceVault.mint == d.sakuraMint && a.insuranceVault.owner == d.vaultAuthority
      && a.insuranceVault.programOwner == d.tokenProgram
  {
    var cs := Constraints(a, d);
    AllConstraintsHold(a, d);
    match FirstViolation(cs)
    case None => Pass
    case Some(i) =>
      assert IsFirstViolation(cs, i);
      FirstViolationPrefix(a, d, i);
      Fail(cs[i].code)
  }

  /** Every constraint listed before the first violated one holds. */
  lemma FirstViolationPrefix(a: PaymentAccounts, d: Deployment, i: nat)
    requires IsFirstViolation(Constraints(a, d), i)
    ensures i > 0 ==> a.userTokenAccount.owner == a.user
    ensures i > 1 ==> a.userTokenAccount.mint == d.sakuraMint
    ensures i > 2 ==> a.insuranceVault.mint == d.sakuraMint
    ensures i > 3 ==> a.insuranceVault.owner == d.vaultAuthority
    ensures i > 4 ==> a.insuranceVault.programOwner == d.tokenProgram
    ensures i > 5 ==> a.insuranceVault.key == d.insuranceVault
  {
    var cs := Constraints(a, d);
    if i > 0 { assert cs[0].holds; }
    if i > 1 { assert cs[1].holds; }
    if i > 2 { assert cs[2].holds; }
    if i > 3 { assert cs[3].holds; }
    if i > 4 { assert cs[4].holds; }
    if i > 5 { assert cs[5].holds; }
  }

  /**
   * When exactly one constraint is violated, its own error code is the one
   * reported, whichever constraint it is.
   */
  lemma SoleViolationReported(a: PaymentAccounts, d: Deployment, k: nat)
    requires k < 7
    requires !Constraints(a, d)[k].holds
    requires forall j :: 0 <= j < 7 && j != k ==> Constraints(a, d)[j].holds
    ensures Validate(a, d) == Fail(Constraints(a, d)[k].code)
  {
  }

  /**
   * A vault with both the wrong mint and the wrong address is reported for
   * its mint: the vault's `constraint =` clauses are checked before its
   * `address =`.
   */
  lemma VaultMintBeforeVaultAddress(a: PaymentAccounts, d: Deployment)
    requires a.userTokenAccount.owner == a.user && a.userTokenAccount.mint == d.sakuraMint
    requires a.insuranceVault.mint != d.sakuraMint && a.insuranceVault.key != d.insuranceVault
    ensures Validate(a, d) == Fail(InvalidVaultMint)
  {
    var cs := Constraints(a, d);
    assert cs[0].holds && cs[1].holds && !cs[2].holds;
    assert FirstViolation(cs) == Some(2);
  }

  /**
   * Distinct constraints carry distinct error codes, except the two mint
   * checks (the user token account's mint and the mint account's address),
   * which share InvalidMint.
   */
  lemma CodesIdentifyConstraints(a: PaymentAccounts, d: Deployment, i: nat, j: nat)
    requires i < j < 7
    requires Constraints(a, d)[i].code == Constraints(a, d)[j].code
    ensures i == 1 && j == 6
  {
  }
}
