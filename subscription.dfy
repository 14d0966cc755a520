/**
 * The `Subscription` account: who paid last and until when the
 * subscription runs, as a unix timestamp in seconds.
 */
module Subscriptions {
  import opened Wrappers
  import opened Integers
  import opened RouterTypes

  /** Thirty days, in seconds. */
  const SUBSCRIPTION_TIME: I64 := 30 * 24 * 60 * 60

  /** The two fields of a Subscription account, as a value. */
  datatype SubState = SubState(user: Pubkey, expiresAt: I64)

  /**
   * The expiry after one payment at time `now`: thirty days from the later of
   * `now` and the current expiry, so that renewing early loses no time and
   * renewing late does not count the lapsed period. `None` is the panic of
   * the checked `i64` addition.
   */
  function NewExpiry(now: I64, expiresAt: I64): (r: Option<I64>)
    ensures r.Some? <==> now <= I64_MAX - SUBSCRIPTION_TIME && expiresAt <= I64_MAX - SUBSCRIPTION_TIME
    ensures r.Some? ==> r.value > now && r.value > expiresAt
    ensures r.Some? ==> r.value >= now + SUBSCRIPTION_TIME && r.value >= expiresAt + SUBSCRIPTION_TIME
    ensures r.Some? ==> r.value == now + SUBSCRIPTION_TIME || r.value == expiresAt + SUBSCRIPTION_TIME
  {
    CheckedAddI64(MaxI64(now, expiresAt), SUBSCRIPTION_TIME)
  }

  /**
   * The expiry after a series of payments made at the given times, earliest
   * first, or `None` if one of them overflows.
   */
  function Renewals(expiresAt: I64, times: seq<I64>): Option<I64>
    decreases |times|
  {
    if times == [] then Some(expiresAt)
    else match NewExpiry(times[0], expiresAt)
      case None => None
      case Some(next) => Renewals(next, times[1..])
  }

  /**
   * Every payment in a series is credited in full: the final expiry is at
   * least thirty days per payment past the starting expiry, and at least
   * thirty days per remaining payment past the time of each payment.
   */
  lemma {:induction false} RenewalsCreditEveryPayment(expiresAt: I64, times: seq<I64>)
    ensures Renewals(expiresAt, times).Some? ==>
      && Renewals(expiresAt, times).value >= expiresAt + |times| * SUBSCRIPTION_TIME
      && forall i :: 0 <= i < |times| ==>
           Renewals(expiresAt, times).value >= times[i] + (|times| - i) * SUBSCRIPTION_TIME
    decreases |times|
  {
    if times != [] {
      match NewExpiry(times[0], expiresAt)
      case None =>
      case Some(next) =>
        RenewalsCreditEveryPayment(next, times[1..]);
        if Renewals(expiresAt, times).Some? {
          var e := Renewals(expiresAt, times).value;
          forall i | 0 <= i < |times|
            ensures e >= times[i] + (|times| - i) * SUBSCRIPTION_TIME
          {
            if i > 0 {
              assert times[i] == times[1..][i - 1];
            }
          }
        }
    }
  }

  /**
   * Payments made while the subscription is still running stack exactly:
   * each adds thirty days to the expiry, until the expiry would leave the
   * `i64` range.
   */
  lemma {:induction false} RenewInAdvance(expiresAt: I64, times: seq<I64>)
    requires forall i :: 0 <= i < |times| ==> times[i] <= expiresAt
    ensures Renewals(expiresAt, times) ==
      if expiresAt + |times| * SUBSCRIPTION_TIME <= I64_MAX
      then Some(expiresAt + |times| * SUBSCRIPTION_TIME)
      else None
    decreases |times|
  {
    if times != [] {
      if expiresAt <= I64_MAX - SUBSCRIPTION_TIME {
        var next := expiresAt + SUBSCRIPTION_TIME;
        assert NewExpiry(times[0], expiresAt) == Some(next);
        forall i | 0 <= i < |times[1..]| ensures times[1..][i] <= next {
          assert times[1..][i] == times[i + 1];
        }
        RenewInAdvance(next, times[1..]);
      }
    }
  }

  /** A Subscription account, which `process_payment` updates in place. */
  class Subscription {
    var user: Pubkey
    var expiresAt: I64

    /** A freshly allocated account: every byte zero. */
    constructor Zeroed()
      ensures user == ZERO_PUBKEY && expiresAt == 0
    {
      user := ZERO_PUBKEY;
      expiresAt := 0;
    }

    /** The account's fields as a value. */
    function State(): SubState
      reads this
    {
      SubState(user, expiresAt)
    }

    /**
     * Extends the subscription by thirty days from the later of `now` and
     * the current expiry, and records `payer` as its user. When the addition
     * overflows the account is left as it was and `ok` is false.
     */
    method Renew(now: I64, payer: Pubkey) returns (ok: bool)
      modifies this
      ensures ok <==> NewExpiry(now, old(expiresAt)).Some?
      ensures ok ==> expiresAt == NewExpiry(now, old(expiresAt)).value && user == payer
      ensures !ok ==> expiresAt == old(expiresAt) && user == old(user)
    {
      var base := MaxI64(now, expiresAt);
      var next := CheckedAddI64(base, SUBSCRIPTION_TIME);
      if next.None? {
        return false;
      }
      expiresAt := next.value;
      user := payer;
      ok := true;
    }
  }
}
