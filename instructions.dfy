/**
 * Sequences of instructions against one `GlobalState`: each instruction is
 * atomic, so a failed `swap_now` leaves the state as it found it and the next
 * instruction starts from there.
 */
module Instructions {
  import opened Wrappers
  import opened UInt64
  import opened Split
  import opened TokenLedger
  import opened YotYosDapp

  /** The program's state-changing entry points with their arguments. */
  datatype Instruction =
    | SetParams(cashbackBps: uint64, liquidityThreshold: uint64, weeklyAprBps: uint64)
    | SwapNow(yotAmount: uint64)
    | AddLiquidityIfThreshold

  /** One instruction; a failed swap is rolled back. */
  function Execute(g: GlobalView, b: Balances, ins: Instruction): (GlobalView, Balances) {
    match ins
    case SetParams(c, t, w) => (WithParams(g, c, t, w), b)
    case SwapNow(a) =>
      (match SwapStep(g, b, a)
       case Success(r) => r
       case Failure(_) => (g, b))
    case AddLiquidityIfThreshold => (Trigger(g).0, b)
  }

  function Run(g: GlobalView, b: Balances, program: seq<Instruction>): (GlobalView, Balances)
    decreases |program|
  {
    if program == [] then (g, b)
    else
      var (g', b') := Execute(g, b, program[0]);
      Run(g', b', program[1..])
  }

  /**
   * One instruction leaves the accumulator as it was, adds the vault share
   * of a swap to it, or (only the threshold check) zeroes it; no instruction
   * changes the pool authority.
   */
  lemma ExecuteAccumulator(g: GlobalView, b: Balances, ins: Instruction)
    ensures var g' := Execute(g, b, ins).0;
      && g'.poolAuthority == g.poolAuthority
      && (|| g'.accumulatedYot == g.accumulatedYot
          || (ins.SwapNow? && g'.accumulatedYot == g.accumulatedYot + ins.yotAmount / 5)
          || (ins.AddLiquidityIfThreshold? && g'.accumulatedYot == 0))
  {
  }

  /** No sequence of instructions ever changes the pool authority. */
  lemma {:induction false} RunKeepsAuthority(g: GlobalView, b: Balances, program: seq<Instruction>)
    ensures Run(g, b, program).0.poolAuthority == g.poolAuthority
    decreases |program|
  {
    if program != [] {
      var (g', b') := Execute(g, b, program[0]);
      ExecuteAccumulator(g, b, program[0]);
      RunKeepsAuthority(g', b', program[1..]);
    }
  }

  /** Without a threshold check in between, the accumulator never goes down. */
  lemma {:induction false} RunWithoutTriggerNeverDecreases(g: GlobalView, b: Balances, program: seq<Instruction>)
    requires forall i :: 0 <= i < |program| ==> !program[i].AddLiquidityIfThreshold?
    ensures Run(g, b, program).0.accumulatedYot >= g.accumulatedYot
    decreases |program|
  {
    if program != [] {
      var (g', b') := Execute(g, b, program[0]);
      ExecuteAccumulator(g, b, program[0]);
      RunWithoutTriggerNeverDecreases(g', b', program[1..]);
    }
  }

  /** Swaps in a row, all of which must succeed. */
  function SwapAll(g: GlobalView, b: Balances, amounts: seq<uint64>): Result<(GlobalView, Balances), SwapError>
    decreases |amounts|
  {
    if amounts == [] then Success((g, b))
    else
      var r :- SwapStep(g, b, amounts[0]);
      SwapAll(r.0, r.1, amounts[1..])
  }

  /** The vault shares of a list of amounts, one fifth of each rounded down. */
  function VaultTotal(amounts: seq<uint64>): int
    decreases |amounts|
  {
    if amounts == [] then 0 else amounts[0] / 5 + VaultTotal(amounts[1..])
  }

  /**
   * After swaps that all succeed, the accumulator has grown by exactly the
   * sum of their vault shares and no setting has changed.
   */
  lemma {:induction false} SwapAllAccumulates(g: GlobalView, b: Balances, amounts: seq<uint64>)
    requires SwapAll(g, b, amounts).Success?
    ensures SwapAll(g, b, amounts).value.0.accumulatedYot == g.accumulatedYot + VaultTotal(amounts)
    ensures SameSettings(g, SwapAll(g, b, amounts).value.0)
    decreases |amounts|
  {
    if amounts != [] {
      var r := SwapStep(g, b, amounts[0]).value;
      SwapStepEffect(g, b, amounts[0]);
      SwapAllAccumulates(r.0, r.1, amounts[1..]);
    }
  }

  /** Successful swaps run as separate instructions have the same effect. */
  lemma {:induction false} SwapAllIsRun(g: GlobalView, b: Balances, amounts: seq<uint64>)
    requires SwapAll(g, b, amounts).Success?
    ensures Run(g, b, seq(|amounts|, i requires 0 <= i < |amounts| => SwapNow(amounts[i])))
         == SwapAll(g, b, amounts).value
    decreases |amounts|
  {
    var program := seq(|amounts|, i requires 0 <= i < |amounts| => SwapNow(amounts[i]));
    if amounts != [] {
      var r := SwapStep(g, b, amounts[0]).value;
      var rest := amounts[1..];
      assert program[1..] == seq(|rest|, i requires 0 <= i < |rest| => SwapNow(rest[i]));
      SwapAllIsRun(r.0, r.1, rest);
    }
  }

  lemma MulSucc(n: nat, x: nat)
    ensures (n + 1) * x == n * x + x
    ensures n * x >= 0
  {
  }

  /**
   * `n` swaps of the same amount at a fixed rate succeed when the source
   * covers them and no balance or the accumulator would overflow; each adds
   * the same shares.
   */
  lemma {:induction false} RepeatedSwaps(g: GlobalView, b: Balances, yotAmount: uint64, n: nat)
    requires SplitAmount(yotAmount, g.cashbackBps).Success?
    requires var s := SplitAmount(yotAmount, g.cashbackBps).value;
      && b.yotSource >= n * (s.userReceive + s.vault)
      && b.yotUserDest + n * s.userReceive < BOUND
      && b.yotVault + n * s.vault < BOUND
      && b.yosUserDest + n * s.cashback < BOUND
      && g.accumulatedYot + n * s.vault < BOUND
    ensures SwapAll(g, b, seq(n, _ => yotAmount)).Success?
    ensures var s := SplitAmount(yotAmount, g.cashbackBps).value;
      var (g', b') := SwapAll(g, b, seq(n, _ => yotAmount)).value;
      && g'.accumulatedYot == g.accumulatedYot + n * s.vault
      && SameSettings(g, g')
      && b'.yotSource == b.yotSource - n * (s.userReceive + s.vault)
      && b'.yotUserDest == b.yotUserDest + n * s.userReceive
      && b'.yotVault == b.yotVault + n * s.vault
      && b'.yosUserDest == b.yosUserDest + n * s.cashback
    decreases n
  {
    var s := SplitAmount(yotAmount, g.cashbackBps).value;
    var amounts := seq(n, _ => yotAmount);
    if n > 0 {
      var m: nat := n - 1;
      MulSucc(m, s.userReceive + s.vault);
      MulSucc(m, s.userReceive);
      MulSucc(m, s.vault);
      MulSucc(m, s.cashback);
      DistributeFailsIff(b, s);
      SwapStepFailsIff(g, b, yotAmount);
      SplitShares(yotAmount, g.cashbackBps);
      assert SwapStep(g, b, yotAmount).Success?;
      var r := SwapStep(g, b, yotAmount).value;
      SwapStepEffect(g, b, yotAmount);
      DistributeMovesShares(b, s);
      assert amounts[1..] == seq(m, _ => yotAmount);
      RepeatedSwaps(r.0, r.1, yotAmount, m);
    }
  }

  /**
   * The worked scenario: with the default settings one swap of 10_000 pays
   * 7_500 to the user, 2_000 to the vault and mints 500 YOS; fifty of them
   * accumulate 100_000, which meets a threshold lowered to 100_000 but not
   * the default 100_000_000.
   */
  lemma EndToEnd(authority: Pubkey)
    ensures var g := InitialView(authority);
      var b := Balances(475_000, 0, 0, 0);
      && SwapStep(g, b, 10_000)
         == Success((g.(accumulatedYot := 2_000), Balances(465_500, 7_500, 2_000, 500)))
      && SwapAll(g, b, seq(50, _ => 10_000))
         == Success((g.(accumulatedYot := 100_000), Balances(0, 375_000, 100_000, 25_000)))
      && !Trigger(g.(accumulatedYot := 100_000)).1
      && Trigger(WithParams(g, 500, 100_000, 7_000).(accumulatedYot := 100_000))
         == (WithParams(g, 500, 100_000, 7_000), true)
  {
    var g := InitialView(authority);
    assert SplitAmount(10_000, g.cashbackBps) == Success(Shares(500, 2_000, 7_500)) by {
      SplitExample();
    }
    RepeatedSwaps(g, Balances(475_000, 0, 0, 0), 10_000, 50);
    var (g', b') := SwapAll(g, Balances(475_000, 0, 0, 0), seq(50, _ => 10_000)).value;
    assert g' == g.(accumulatedYot := 100_000);
    assert b' == Balances(0, 375_000, 100_000, 25_000);
  }
}
