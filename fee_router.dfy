/**
 * The `process_payment` instruction: validate the accounts, split the
 * payment, send the insurance share to the vault, burn the rest, and extend
 * the payer's subscription.
 */
module FeeRouter {
  import opened Wrappers
  import opened Integers
  import opened RouterTypes
  import opened FeeSplit
  import opened AccountConstraints
  import opened Subscriptions

  /** A cross-program call into the SPL token program, with the amount it moves. */
  datatype Cpi =
    | TransferToVault(amount: U64)
    | BurnFromUser(amount: U64)

  /** Why the instruction stopped. */
  datatype Failure =
    | Program(code: ErrorCode)   // one of the program's own error codes
    | AccountOwnedByWrongProgram // Anchor's error for an account it cannot load
    | Panic                      // an `unwrap()` on a failed checked operation
    | CpiFailed(cpi: Cpi)        // the token program rejected a call
    | ClockUnavailable           // the clock sysvar could not be read

  /**
   * What the runtime answers to the instruction: whether the token program
   * accepts the transfer and the burn, and the clock's unix timestamp.
   */
  datatype Environment = Environment(transferSucceeds: bool, burnSucceeds: bool, clock: Option<I64>)

  /**
   * How the instruction ended, the token calls it issued in order (the
   * runtime undoes them when it fails), and the subscription afterwards.
   */
  datatype PaymentOutcome = PaymentOutcome(result: Outcome<Failure>, invoked: seq<Cpi>, subscription: SubState)

  /**
   * The checks that come before the split: loading the accounts, their
   * constraints, the split guard, a positive amount.
   */
  function Preflight(a: PaymentAccounts, d: Deployment, amount: U64): (r: Outcome<Failure>)
    ensures r.Pass? <==> AccountsAccepted(a, d) && amount > 0
    ensures !OwnedByTokenProgram(a, d) ==> r == Fail(AccountOwnedByWrongProgram)
    ensures OwnedByTokenProgram(a, d) && !AccountsValid(a, d) ==> r == Fail(Program(Validate(a, d).error))
    ensures AccountsAccepted(a, d) && amount == 0 ==> r == Fail(Program(InvalidAmount))
    ensures r != Fail(Program(InvalidSplit))
    // the vault's `owner =` constraint is subsumed by loading it, so its code never appears
    ensures r != Fail(Program(InvalidVaultOwner))
  {
    if !OwnedByTokenProgram(a, d) then Fail(AccountOwnedByWrongProgram)
    else
      match Validate(a, d)
      case Fail(e) => Fail(Program(e))
      case Pass =>
        match SplitGuard()
        case Fail(e) => Fail(Program(e))
        case Pass => if amount == 0 then Fail(Program(InvalidAmount)) else Pass
  }

  /** Every check before the token calls passes, including the split arithmetic. */
  predicate ChecksPass(a: PaymentAccounts, d: Deployment, amount: U64)
  {
    AccountsAccepted(a, d) && 0 < amount <= MAX_SPLITTABLE_AMOUNT
  }

  /** The instruction as a function of its inputs and the subscription it finds. */
  function Payment(a: PaymentAccounts, d: Deployment, amount: U64, env: Environment, sub: SubState): (o: PaymentOutcome)
    // it succeeds exactly when nothing on its way fails
    ensures o.result.Pass? <==>
      && ChecksPass(a, d, amount)
      && env.transferSucceeds && env.burnSucceeds
      && env.clock.Some?
      && NewExpiry(env.clock.value, sub.expiresAt).Some?
    // on success both token calls were made, and the subscription now belongs
    // to the payer and runs thirty days past the later of now and the old expiry
    ensures o.result.Pass? ==>
      && o.invoked == [TransferToVault(amount / 2), BurnFromUser(amount - amount / 2)]
      && o.subscription == SubState(a.user, NewExpiry(env.clock.value, sub.expiresAt).value)
    // a failed instruction leaves the subscription untouched
    ensures o.result.Fail? ==> o.subscription == sub
    // the transfer comes first, the burn second, each with its share
    ensures o.invoked <= [TransferToVault(amount / 2), BurnFromUser(amount - amount / 2)]
    // the transfer is issued exactly when the checks pass, the burn exactly when the transfer succeeds too
    ensures |o.invoked| > 0 <==> ChecksPass(a, d, amount)
    ensures |o.invoked| == 2 <==> ChecksPass(a, d, amount) && env.transferSucceeds
    // the error of each step after the checks
    ensures ChecksPass(a, d, amount) && !env.transferSucceeds ==>
      o.result == Fail(CpiFailed(TransferToVault(amount / 2)))
    ensures ChecksPass(a, d, amount) && env.transferSucceeds && !env.burnSucceeds ==>
      o.result == Fail(CpiFailed(BurnFromUser(amount - amount / 2)))
    ensures ChecksPass(a, d, amount) && env.transferSucceeds && env.burnSucceeds && env.clock.None? ==>
      o.result == Fail(ClockUnavailable)
    ensures (&& ChecksPass(a, d, amount) && env.transferSucceeds && env.burnSucceeds && env.clock.Some?
             && NewExpiry(env.clock.value, sub.expiresAt).None?) ==>
      o.result == Fail(Panic)
    // the errors of the checks
    ensures !OwnedByTokenProgram(a, d) ==> o.result == Fail(AccountOwnedByWrongProgram) && o.invoked == []
    ensures OwnedByTokenProgram(a, d) && !AccountsValid(a, d) ==>
      o.result == Fail(Program(Validate(a, d).error)) && o.invoked == []
    ensures amount == 0 ==> o.result.Fail? && o.invoked == []
    ensures AccountsAccepted(a, d) && amount == 0 ==> o.result == Fail(Program(InvalidAmount))
    ensures AccountsAccepted(a, d) && amount > MAX_SPLITTABLE_AMOUNT ==> o.result == Fail(Panic) && o.invoked == []
    ensures o.result != Fail(Program(InvalidSplit)) && o.result != Fail(Program(InvalidVaultOwner))
  {
    match Preflight(a, d, amount)
    case Fail(e) => PaymentOutcome(Fail(e), [], sub)
    case Pass =>
      match ComputeSplit(amount)
      case None => PaymentOutcome(Fail(Panic), [], sub)
      case Some(split) =>
        var transfer := TransferToVault(split.insurance);
        if !env.transferSucceeds then PaymentOutcome(Fail(CpiFailed(transfer)), [transfer], sub)
        else
          var burn := BurnFromUser(split.burn);
          if !env.burnSucceeds then PaymentOutcome(Fail(CpiFailed(burn)), [transfer, burn], sub)
          else
            match env.clock
            case None => PaymentOutcome(Fail(ClockUnavailable), [transfer, burn], sub)
            case Some(now) =>
              match NewExpiry(now, sub.expiresAt)
              case None => PaymentOutcome(Fail(Panic), [transfer, burn], sub)
              case Some(expiry) => PaymentOutcome(Pass, [transfer, burn], SubState(a.user, expiry))
  }

  /**
   * The first payment into a freshly created Subscription account runs
   * thirty days from the later of now and time 0.
   */
  lemma FirstPayment(a: PaymentAccounts, d: Deployment, amount: U64, env: Environment)
    ensures var o := Payment(a, d, amount, env, SubState(ZERO_PUBKEY, 0));
      o.result.Pass? ==> o.subscription == SubState(a.user, MaxI64(env.clock.value, 0) + SUBSCRIPTION_TIME)
  {
  }

  /**
   * A successful payment extends the subscription as one step of
   * `Renewals` from the old expiry.
   */
  lemma PaymentIsRenewal(a: PaymentAccounts, d: Deployment, amount: U64, env: Environment, sub: SubState)
    ensures var o := Payment(a, d, amount, env, sub);
      o.result.Pass? ==> Renewals(sub.expiresAt, [env.clock.value]) == Some(o.subscription.expiresAt)
  {
  }

  /**
   * Two successive successful payments, the second on the subscription the
   * first left, extend the expiry exactly as a two-element `Renewals`.
   */
  lemma SuccessivePaymentsAreRenewals(
    a1: PaymentAccounts, amount1: U64, env1: Environment,
    a2: PaymentAccounts, amount2: U64, env2: Environment,
    d: Deployment, sub: SubState)
    ensures var o1 := Payment(a1, d, amount1, env1, sub);
      var o2 := Payment(a2, d, amount2, env2, o1.subscription);
      o1.result.Pass? && o2.result.Pass? ==>
        Renewals(sub.expiresAt, [env1.clock.value, env2.clock.value]) == Some(o2.subscription.expiresAt)
  {
    var o1 := Payment(a1, d, amount1, env1, sub);
    var o2 := Payment(a2, d, amount2, env2, o1.subscription);
    if o1.result.Pass? && o2.result.Pass? {
      var times := [env1.clock.value, env2.clock.value];
      PaymentIsRenewal(a1, d, amount1, env1, sub);
      PaymentIsRenewal(a2, d, amount2, env2, o1.subscription);
      assert times[1..] == [env2.clock.value];
      assert Renewals(sub.expiresAt, times) == Renewals(o1.subscription.expiresAt, times[1..]);
    }
  }

  /**
   * `process_payment`, step by step, on the Subscription account it updates
   * in place. Returns how it ended and the token calls it issued.
   */
  method ProcessPayment(a: PaymentAccounts, d: Deployment, amount: U64, env: Environment, subscription: Subscription)
    returns (result: Outcome<Failure>, invoked: seq<Cpi>)
    modifies subscription
    ensures var o := Payment(a, d, amount, env, old(subscription.State()));
      result == o.result && invoked == o.invoked && subscription.State() == o.subscription
  {
    invoked := [];
    var checked := Preflight(a, d, amount);
    if checked.Fail? {
      return checked, invoked;
    }
    var split := ComputeSplit(amount);
    if split.None? {
      return Fail(Panic), invoked;
    }
    var transfer := TransferToVault(split.value.insurance);
    invoked := invoked + [transfer];
    if !env.transferSucceeds {
      return Fail(CpiFailed(transfer)), invoked;
    }
    var burn := BurnFromUser(split.value.burn);
    invoked := invoked + [burn];
    if !env.burnSucceeds {
      return Fail(CpiFailed(burn)), invoked;
    }
    if env.clock.None? {
      return Fail(ClockUnavailable), invoked;
    }
    var renewed := subscription.Renew(env.clock.value, a.user);
    if !renewed {
      return Fail(Panic), invoked;
    }
    result := Pass;
  }
}
