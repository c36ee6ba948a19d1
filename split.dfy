/**
 * The pure part of `swap_now`: the three-way split of `yot_amount` into the
 * cashback share (paid out as newly minted YOS), the vault share and what the
 * user receives, computed with the same u64 expressions, in the same order.
 */
module Split {
  import opened Wrappers
  import opened UInt64

  /** Basis points in one whole: the cashback rate is `cashback_bps / 10_000`. */
  const BPS_DENOMINATOR: int := 10_000

  /** The vault keeps a fixed 20 percent, independent of any stored parameter. */
  const VAULT_PERCENT: int := 20

  /** Largest rate at which the subtraction for `user_receive` never underflows. */
  const MAX_SAFE_CASHBACK_BPS: int := 8_000

  datatype Shares = Shares(cashback: uint64, vault: uint64, userReceive: uint64)

  /**
   * `cashback = yot_amount * cashback_bps / 10_000`,
   * `vault = yot_amount * 20 / 100`,
   * `user_receive = yot_amount - cashback - vault`, each operator checked.
   * A successful split conserves the amount and rounds both shares down.
   */
  function SplitAmount(yotAmount: uint64, cashbackBps: uint64): (r: Result<Shares, ArithError>)
    ensures r.Success? ==> r.value.cashback + r.value.vault + r.value.userReceive == yotAmount
    ensures r.Success? ==>
      r.value.cashback * BPS_DENOMINATOR <= yotAmount * cashbackBps < (r.value.cashback + 1) * BPS_DENOMINATOR
    ensures r.Success? ==> r.value.vault * 5 <= yotAmount < (r.value.vault + 1) * 5
  {
    var scaled :- Mul(yotAmount, cashbackBps);
    var cashback := scaled / BPS_DENOMINATOR;
    var twentyTimes :- Mul(yotAmount, VAULT_PERCENT);
    var vault := twentyTimes / 100;
    var afterCashback :- Sub(yotAmount, cashback);
    var userReceive :- Sub(afterCashback, vault);
    Success(Shares(cashback, vault, userReceive))
  }

  /**
   * The shares in closed form, as floors of exact rational fractions.  The
   * cashback and remainder clauses read off `SplitAmount`'s own expressions;
   * the vault clause restates its third postcondition as a plain division.
   */
  lemma SplitShares(yotAmount: uint64, cashbackBps: uint64)
    requires SplitAmount(yotAmount, cashbackBps).Success?
    ensures SplitAmount(yotAmount, cashbackBps).value.cashback == yotAmount * cashbackBps / BPS_DENOMINATOR
    ensures SplitAmount(yotAmount, cashbackBps).value.vault == yotAmount / 5
    ensures SplitAmount(yotAmount, cashbackBps).value.userReceive
         == yotAmount - yotAmount * cashbackBps / BPS_DENOMINATOR - yotAmount / 5
  {
  }

  /**
   * The vault share depends on the amount alone, never on the configured rate
   * (a direct consequence of `SplitAmount`'s vault bounds).
   */
  lemma VaultIndependentOfRate(yotAmount: uint64, bps1: uint64, bps2: uint64)
    requires SplitAmount(yotAmount, bps1).Success? && SplitAmount(yotAmount, bps2).Success?
    ensures SplitAmount(yotAmount, bps1).value.vault == SplitAmount(yotAmount, bps2).value.vault
  {
  }

  /**
   * The split fails exactly in the three cases of the source: one of the two
   * products overflows u64 (a multiplication panic), or the two shares together
   * exceed the amount (a subtraction panic).
   */
  lemma SplitFailsIff(yotAmount: uint64, cashbackBps: uint64)
    ensures SplitAmount(yotAmount, cashbackBps).Failure? <==>
      yotAmount * cashbackBps >= BOUND || yotAmount * VAULT_PERCENT >= BOUND ||
      yotAmount * cashbackBps / BPS_DENOMINATOR + yotAmount * VAULT_PERCENT / 100 > yotAmount
    ensures SplitAmount(yotAmount, cashbackBps).Failure? ==>
      SplitAmount(yotAmount, cashbackBps).error ==
        (if yotAmount * cashbackBps >= BOUND || yotAmount * VAULT_PERCENT >= BOUND
         then MulOverflow else SubOverflow)
  {
  }

  /** Up to 8000 bps the two shares never exceed the amount. */
  lemma SharesFitUpToSafeRate(yotAmount: uint64, cashbackBps: uint64)
    requires cashbackBps <= MAX_SAFE_CASHBACK_BPS
    ensures yotAmount * cashbackBps / BPS_DENOMINATOR + yotAmount * VAULT_PERCENT / 100 <= yotAmount
  {
  }

  /**
   * At a rate of at most 8000 bps only the multiplications can fail:
   * the split succeeds if and only if both products fit in u64.
   */
  lemma SplitSucceedsUpToSafeRate(yotAmount: uint64, cashbackBps: uint64)
    requires cashbackBps <= MAX_SAFE_CASHBACK_BPS
    ensures SplitAmount(yotAmount, cashbackBps).Success? <==>
      yotAmount * cashbackBps < BOUND && yotAmount * VAULT_PERCENT < BOUND
  {
    SplitFailsIff(yotAmount, cashbackBps);
    SharesFitUpToSafeRate(yotAmount, cashbackBps);
  }

  /**
   * Above 8000 bps some amount makes `user_receive` go below zero: the split of
   * 10_000 panics, so no range check at 10_000 bps would be enough.
   */
  lemma SplitFailsAboveSafeRate(cashbackBps: uint64)
    requires cashbackBps > MAX_SAFE_CASHBACK_BPS
    ensures SplitAmount(10_000, cashbackBps).Failure?
    ensures 10_000 * cashbackBps < BOUND ==> SplitAmount(10_000, cashbackBps).error == SubOverflow
  {
  }

  /**
   * Every rate above 8000 bps has an amount whose split underflows: 10_000
   * while `10_000 * cashback_bps` fits in u64, otherwise 1 (where 20 percent
   * rounds to 0 but the cashback share is at least 1).
   */
  lemma SomeAmountUnderflowsAboveSafeRate(cashbackBps: uint64)
    requires cashbackBps > MAX_SAFE_CASHBACK_BPS
    ensures exists a: uint64 :: SplitAmount(a, cashbackBps) == Failure(SubOverflow)
  {
    if 10_000 * cashbackBps < BOUND {
      assert SplitAmount(10_000, cashbackBps) == Failure(SubOverflow);
    } else {
      assert SplitAmount(1, cashbackBps) == Failure(SubOverflow);
    }
  }

  /** 1000 at 500 bps: 50 cashback, 200 to the vault, 750 to the user. */
  lemma SplitExample()
    ensures SplitAmount(1_000, 500) == Success(Shares(50, 200, 750))
    ensures SplitAmount(10_000, 500) == Success(Shares(500, 2_000, 7_500))
  {
  }

  /** 100 at 9000 bps: 90 + 20 exceeds 100, so the subtraction panics. */
  lemma SplitUnderflowExample()
    ensures SplitAmount(100, 9_000) == Failure(SubOverflow)
  {
  }

  /**
   * At the default 500 bps the product `yot_amount * 500` is the first to
   * overflow: 36_893_488_147_419_103 is the largest amount that can be split.
   */
  lemma DefaultRateOverflowBoundary(yotAmount: uint64)
    ensures SplitAmount(36_893_488_147_419_103, 500).Success?
    ensures yotAmount <= 36_893_488_147_419_103 ==> SplitAmount(yotAmount, 500).Success?
    ensures yotAmount > 36_893_488_147_419_103 ==> SplitAmount(yotAmount, 500) == Failure(MulOverflow)
  {
    SplitSucceedsUpToSafeRate(yotAmount, 500);
  }
}
