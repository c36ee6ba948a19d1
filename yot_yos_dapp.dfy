/**
 * The program's shared `GlobalState` account and its four instruction
 * handlers.  Each handler runs as one instruction: if any step panics or a
 * token-program call fails, the runtime discards everything the instruction
 * did, so a handler either commits all of its effects or none.
 */
module YotYosDapp {
  import opened Wrappers
  import opened UInt64
  import opened Split
  import opened TokenLedger

  /** A 32-byte account address. */
  type Pubkey = k: seq<bv8> | |k| == 32 witness seq(32, _ => 0)

  const DEFAULT_CASHBACK_BPS: uint64 := 500
  const DEFAULT_LIQUIDITY_THRESHOLD: uint64 := 100_000_000
  const DEFAULT_WEEKLY_APR_BPS: uint64 := 7_000

  /** The five fields of the `GlobalState` account, as a value. */
  datatype GlobalView = GlobalView(
    poolAuthority: Pubkey,
    accumulatedYot: uint64,
    cashbackBps: uint64,
    liquidityThreshold: uint64,
    weeklyAprBps: uint64)

  /** Why `swap_now` aborted: a panic in its own arithmetic or a failed token call. */
  datatype SwapError = Arithmetic(arith: ArithError) | Token(token: TokenError)

  /** The state `initialize` writes. */
  function InitialView(poolAuthority: Pubkey): GlobalView {
    GlobalView(poolAuthority, 0, DEFAULT_CASHBACK_BPS, DEFAULT_LIQUIDITY_THRESHOLD, DEFAULT_WEEKLY_APR_BPS)
  }

  /** The state `set_params` writes: the three settings replaced, without any range check. */
  function WithParams(g: GlobalView, cashbackBps: uint64, liquidityThreshold: uint64, weeklyAprBps: uint64): GlobalView {
    g.(cashbackBps := cashbackBps, liquidityThreshold := liquidityThreshold, weeklyAprBps := weeklyAprBps)
  }

  /** Everything but the accumulator is the same in both states. */
  predicate SameSettings(g: GlobalView, g': GlobalView) {
    && g'.poolAuthority == g.poolAuthority
    && g'.cashbackBps == g.cashbackBps
    && g'.liquidityThreshold == g.liquidityThreshold
    && g'.weeklyAprBps == g.weeklyAprBps
  }

  /**
   * `swap_now` on values: split, the three token calls, then
   * `accumulated_yot += vault_amount` (checked).  Any failure aborts.
   */
  function SwapStep(g: GlobalView, b: Balances, yotAmount: uint64): Result<(GlobalView, Balances), SwapError> {
    match SplitAmount(yotAmount, g.cashbackBps)
    case Failure(e) => Failure(Arithmetic(e))
    case Success(s) =>
      match Distribute(b, s)
      case Failure(e) => Failure(Token(e))
      case Success(b') =>
        match Add(g.accumulatedYot, s.vault)
        case Failure(e) => Failure(Arithmetic(e))
        case Success(acc) => Success((g.(accumulatedYot := acc), b'))
  }

  /**
   * `add_liquidity_if_threshold` on values: the new state and whether the
   * threshold was met.  Meeting it only resets the accumulator.
   */
  function Trigger(g: GlobalView): (GlobalView, bool) {
    if g.accumulatedYot >= g.liquidityThreshold then (g.(accumulatedYot := 0), true)
    else (g, false)
  }

  /**
   * A successful swap adds exactly one fifth of the amount (rounded down) to
   * the accumulator, changes no setting, and moves the split's shares.
   */
  lemma SwapStepEffect(g: GlobalView, b: Balances, yotAmount: uint64)
    requires SwapStep(g, b, yotAmount).Success?
    ensures SplitAmount(yotAmount, g.cashbackBps).Success?
    ensures var (g', b') := SwapStep(g, b, yotAmount).value;
      var s := SplitAmount(yotAmount, g.cashbackBps).value;
      && g'.accumulatedYot == g.accumulatedYot + yotAmount / 5
      && SameSettings(g, g')
      && b' == Distribute(b, s).value
      && b'.yotSource == b.yotSource - (yotAmount - s.cashback)
      && b'.yosUserDest == b.yosUserDest + s.cashback
      && YotHeld(b') == YotHeld(b)
  {
  }

  /**
   * `swap_now` aborts exactly when the split panics, a token call fails, or
   * the accumulator would overflow.
   */
  lemma SwapStepFailsIff(g: GlobalView, b: Balances, yotAmount: uint64)
    ensures SwapStep(g, b, yotAmount).Failure? <==>
      || SplitAmount(yotAmount, g.cashbackBps).Failure?
      || Distribute(b, SplitAmount(yotAmount, g.cashbackBps).value).Failure?
      || g.accumulatedYot + yotAmount / 5 >= BOUND
  {
  }

  /**
   * The three arithmetic panics of the split abort the swap whatever the
   * balances, with the error of the first failing operator.
   */
  lemma SwapStepArithmeticFailures(g: GlobalView, b: Balances, yotAmount: uint64)
    ensures yotAmount * g.cashbackBps >= BOUND || yotAmount * VAULT_PERCENT >= BOUND ==>
      SwapStep(g, b, yotAmount) == Failure(Arithmetic(MulOverflow))
    ensures
      && yotAmount * g.cashbackBps < BOUND
      && yotAmount * VAULT_PERCENT < BOUND
      && yotAmount * g.cashbackBps / BPS_DENOMINATOR + yotAmount * VAULT_PERCENT / 100 > yotAmount
      ==> SwapStep(g, b, yotAmount) == Failure(Arithmetic(SubOverflow))
  {
  }

  /** The accumulator's own `+=` panics when the vault share would push it past u64. */
  lemma SwapStepAccumulatorOverflow(g: GlobalView, b: Balances, yotAmount: uint64)
    requires SplitAmount(yotAmount, g.cashbackBps).Success?
    requires Distribute(b, SplitAmount(yotAmount, g.cashbackBps).value).Success?
    ensures g.accumulatedYot + yotAmount / 5 >= BOUND <==>
      SwapStep(g, b, yotAmount) == Failure(Arithmetic(AddOverflow))
  {
  }

  /**
   * The threshold check fires exactly when the accumulator has reached the
   * threshold, then only zeroes the accumulator; otherwise nothing changes.
   */
  lemma TriggerSpec(g: GlobalView)
    ensures Trigger(g).1 <==> g.accumulatedYot >= g.liquidityThreshold
    ensures Trigger(g).1 ==> Trigger(g).0.accumulatedYot == 0
    ensures !Trigger(g).1 ==> Trigger(g).0 == g
    ensures SameSettings(g, Trigger(g).0)
  {
  }

  /** An accumulator at exactly the threshold fires; one below does not. */
  lemma TriggerBoundary(g: GlobalView)
    requires g.liquidityThreshold > 0
    ensures Trigger(g.(accumulatedYot := g.liquidityThreshold)).1
    ensures !Trigger(g.(accumulatedYot := g.liquidityThreshold - 1)).1
  {
  }

  /**
   * A second check right after the first leaves the state as the first left
   * it.  It reports "not met" unless the threshold is zero, when a zero
   * accumulator meets it again.
   */
  lemma TriggerIdempotent(g: GlobalView)
    ensures Trigger(Trigger(g).0).0 == Trigger(g).0
    ensures Trigger(Trigger(g).0).1 <==> g.liquidityThreshold == 0
  {
  }

  /** The on-chain `GlobalState` account, updated in place by each handler. */
  class GlobalState {
    var poolAuthority: Pubkey
    var accumulatedYot: uint64
    var cashbackBps: uint64
    var liquidityThreshold: uint64
    var weeklyAprBps: uint64

    function View(): GlobalView
      reads this
    {
      GlobalView(poolAuthority, accumulatedYot, cashbackBps, liquidityThreshold, weeklyAprBps)
    }

    /** `initialize`: stores the authority key and the default settings. */
    constructor Initialize(poolAuthority: Pubkey)
      ensures View() == InitialView(poolAuthority)
      ensures accumulatedYot == 0 && cashbackBps == 500
      ensures liquidityThreshold == 100_000_000 && weeklyAprBps == 7_000
    {
      this.poolAuthority := poolAuthority;
      accumulatedYot := 0;
      cashbackBps := DEFAULT_CASHBACK_BPS;
      liquidityThreshold := DEFAULT_LIQUIDITY_THRESHOLD;
      weeklyAprBps := DEFAULT_WEEKLY_APR_BPS;
    }

    /** `set_params`: overwrites the three settings with whatever it is given. */
    method SetParams(cashbackBps: uint64, liquidityThreshold: uint64, weeklyAprBps: uint64)
      modifies this
      ensures View() == WithParams(old(View()), cashbackBps, liquidityThreshold, weeklyAprBps)
      ensures this.cashbackBps == cashbackBps && this.liquidityThreshold == liquidityThreshold
      ensures this.weeklyAprBps == weeklyAprBps
      ensures poolAuthority == old(poolAuthority) && accumulatedYot == old(accumulatedYot)
    {
      this.cashbackBps := cashbackBps;
      this.liquidityThreshold := liquidityThreshold;
      this.weeklyAprBps := weeklyAprBps;
    }

    /**
     * `swap_now`: splits the amount, runs the two transfers and the mint on
     * the instruction's working copy of the balances, adds the vault share to
     * the accumulator, and commits only when every step succeeded.
     */
    method SwapNow(accounts: TokenAccounts, yotAmount: uint64) returns (outcome: Outcome<SwapError>)
      modifies this, accounts
      ensures var r := SwapStep(old(View()), old(accounts.View()), yotAmount);
        && (r.Success? ==> outcome == Pass && View() == r.value.0 && accounts.View() == r.value.1)
        && (r.Failure? ==> outcome == Fail(r.error) && unchanged(this, accounts))
    {
      var split := SplitAmount(yotAmount, cashbackBps);
      if split.Failure? {
        return Fail(Arithmetic(split.error));
      }
      var s := split.value;

      var source, userDest, vault, yosDest :=
        accounts.yotSource, accounts.yotUserDest, accounts.yotVault, accounts.yosUserDest;

      var toUser := Transfer(source, userDest, s.userReceive);
      if toUser.Failure? {
        return Fail(Token(toUser.error));
      }
      source, userDest := toUser.value.0, toUser.value.1;

      var toVault := Transfer(source, vault, s.vault);
      if toVault.Failure? {
        return Fail(Token(toVault.error));
      }
      source, vault := toVault.value.0, toVault.value.1;

      var minted := MintTo(yosDest, s.cashback);
      if minted.Failure? {
        return Fail(Token(minted.error));
      }
      yosDest := minted.value;

      if accumulatedYot + s.vault >= BOUND {
        return Fail(Arithmetic(AddOverflow));
      }

      accounts.yotSource, accounts.yotUserDest, accounts.yotVault, accounts.yosUserDest :=
        source, userDest, vault, yosDest;
      accumulatedYot := accumulatedYot + s.vault;
      outcome := Pass;
    }

    /**
     * `add_liquidity_if_threshold`: zeroes the accumulator once it has reached
     * the threshold; reports whether it did.
     */
    method AddLiquidityIfThreshold() returns (fired: bool)
      modifies this
      ensures (View(), fired) == Trigger(old(View()))
      ensures fired <==> old(accumulatedYot) >= liquidityThreshold
      ensures accumulatedYot == (if fired then 0 else old(accumulatedYot))
      ensures poolAuthority == old(poolAuthority) && cashbackBps == old(cashbackBps)
      ensures liquidityThreshold == old(liquidityThreshold) && weeklyAprBps == old(weeklyAprBps)
    {
      if accumulatedYot >= liquidityThreshold {
        accumulatedYot := 0;
        fired := true;
      } else {
        fired := false;
      }
    }
  }
}
