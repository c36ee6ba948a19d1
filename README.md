# YOT/YOS swap-and-distribute program, modelled in Dafny

The program keeps one shared account, `GlobalState`, with five fields: the pool
authority key, the running YOT accumulator `accumulated_yot`, the cashback rate
`cashback_bps`, the `liquidity_threshold` and the stored-only `weekly_apr_bps`.
Four instruction handlers act on it:

- `initialize` writes the authority key and the defaults (0, 500 bps,
  100 000 000, 7000 bps);
- `set_params` overwrites the three settings without any range check;
- `swap_now` splits `yot_amount` into a cashback share
  (`amount * cashback_bps / 10_000`), a vault share (`amount * 20 / 100`) and
  the rest for the user, transfers the user's and the vault's shares out of
  the source account, mints the cashback as YOS, and adds the vault share to
  the accumulator;
- `add_liquidity_if_threshold` zeroes the accumulator once it has reached the
  threshold and otherwise does nothing.

The model follows the code's `u64` arithmetic exactly, under the assumption
that the program is built with Rust overflow checks on (the Anchor workspace
default; the workspace `Cargo.toml` is not part of this model): every `*`,
`-` and `+` that leaves [0, 2^64) panics, and a panic or a failed token call
aborts the whole instruction with nothing persisted.

Files, one module each:

- `wrappers.dfy` (`Wrappers`): the `Result` and `Outcome` types.
- `uint64.dfy` (`UInt64`): `uint64` and the checked `Mul`, `Sub`, `Add`.
- `split.dfy` (`Split`): the pure split block of `swap_now` and its lemmas.
- `token_ledger.dfy` (`TokenLedger`): the four token balances and the token
  program's `transfer` and `mint_to`, kept abstract.
- `yot_yos_dapp.dfy` (`YotYosDapp`): the `GlobalState` class with the four
  handlers as a constructor and methods, the value-level functions they are
  proved against (`SwapStep`, `Trigger`, `WithParams`), and lemmas about them.
- `instructions.dfy` (`Instructions`): sequences of instructions, each atomic,
  and what holds over them.

What the proofs show, in short:

- A successful split conserves the amount. Both shares are rounded down. The
  vault share is one fifth of the amount, whatever the rate.
- The split fails exactly when `amount * cashback_bps` or `amount * 20`
  overflows u64, or when the two shares together exceed the amount.
- The subtraction can underflow for some amount if and only if
  `cashback_bps > 8000`. A range check at 10 000 bps would therefore not
  prevent the panic. At the default 500 bps, 36 893 488 147 419 103 is the
  largest amount that can be split, because `amount * 500` overflows first.
- A successful swap raises `accumulated_yot` by exactly `amount / 5` and
  changes no setting. It keeps the YOT total of the three YOT accounts. It
  takes only `amount - cashback` out of the source, because the cashback is
  minted as YOS and not taken from the source. A failed swap changes nothing.
- The threshold check fires at exactly the threshold and not one below. A
  second check leaves the state unchanged. It reports "not met" unless the
  threshold is 0, in which case it fires again on a zero accumulator.

## Model

| member | source | states |
|---|---|---|
| `Split.SplitAmount` | programs/yot_yos_dapp/src/lib.rs:51-56 | a successful split conserves the amount (cashback + vault + user_receive == yot_amount) and both shares are the floor of their exact fractions |
| `Split.SplitShares` | programs/yot_yos_dapp/src/lib.rs:53-55 | on success: cashback == floor(amount * bps / 10000), vault == floor(amount / 5), user_receive is the remainder |
| `Split.VaultIndependentOfRate` | programs/yot_yos_dapp/src/lib.rs:54 | the vault share does not depend on the configured cashback rate |
| `Split.SplitFailsIff` | programs/yot_yos_dapp/src/lib.rs:53-55 | the split fails iff amount * bps >= 2^64, amount * 20 >= 2^64, or cashback + vault > amount; the error is a multiplication overflow in the first two cases and a subtraction underflow otherwise |
| `Split.SharesFitUpToSafeRate` | programs/yot_yos_dapp/src/lib.rs:53-55 | at a rate of at most 8000 bps the two shares never exceed the amount |
| `Split.SplitSucceedsUpToSafeRate` | programs/yot_yos_dapp/src/lib.rs:53-55 | at a rate of at most 8000 bps the split succeeds iff both products fit in u64 |
| `Split.SplitFailsAboveSafeRate` | programs/yot_yos_dapp/src/lib.rs:53-55 | above 8000 bps the split of 10 000 fails, by subtraction underflow whenever the product fits |
| `Split.SomeAmountUnderflowsAboveSafeRate` | programs/yot_yos_dapp/src/lib.rs:53-55 | for every rate above 8000 bps some amount makes the subtraction for user_receive underflow |
| `Split.SplitExample` | programs/yot_yos_dapp/src/lib.rs:53-55 | 1000 at 500 bps gives 50 / 200 / 750; 10 000 at 500 bps gives 500 / 2000 / 7500 |
| `Split.SplitUnderflowExample` | programs/yot_yos_dapp/src/lib.rs:55 | 100 at 9000 bps fails with a subtraction underflow |
| `Split.DefaultRateOverflowBoundary` | programs/yot_yos_dapp/src/lib.rs:53-55 | at 500 bps every amount up to 36 893 488 147 419 103 splits, and every larger amount fails with a multiplication overflow |
| `TokenLedger.Transfer` | programs/yot_yos_dapp/src/lib.rs:59-62 | a token transfer fails iff the source is short or the destination would overflow; a successful one moves exactly the amount and keeps the two balances' sum |
| `TokenLedger.DistributeMovesShares` | programs/yot_yos_dapp/src/lib.rs:58-65 | the two transfers and the mint move user_receive and vault out of the source, credit each destination with its share, keep the YOT total, and mint exactly the cashback |
| `TokenLedger.DistributeFailsIff` | programs/yot_yos_dapp/src/lib.rs:58-65 | the token calls fail iff the source cannot cover user_receive + vault or a credited balance would overflow; a short source reports insufficient funds |
| `YotYosDapp.SwapStepEffect` | programs/yot_yos_dapp/src/lib.rs:44-71 | a successful swap adds floor(amount / 5) to accumulated_yot, leaves authority, rate, threshold and APR unchanged, and takes amount - cashback out of the source |
| `YotYosDapp.SwapStepFailsIff` | programs/yot_yos_dapp/src/lib.rs:44-71 | a swap fails iff the split fails, a token call fails, or accumulated_yot + vault overflows u64 |
| `YotYosDapp.SwapStepArithmeticFailures` | programs/yot_yos_dapp/src/lib.rs:53-55 | either product overflowing aborts the swap with a multiplication overflow, and shares exceeding the amount abort it with a subtraction underflow, whatever the balances |
| `YotYosDapp.SwapStepAccumulatorOverflow` | programs/yot_yos_dapp/src/lib.rs:67 | after a good split and good token calls, the swap fails with an addition overflow iff accumulated_yot + vault >= 2^64 |
| `YotYosDapp.TriggerSpec` | programs/yot_yos_dapp/src/lib.rs:73-84 | the check fires iff accumulated_yot >= liquidity_threshold; firing zeroes the accumulator, not firing changes nothing, no setting changes |
| `YotYosDapp.TriggerBoundary` | programs/yot_yos_dapp/src/lib.rs:76 | an accumulator equal to the threshold fires, one below does not |
| `YotYosDapp.TriggerIdempotent` | programs/yot_yos_dapp/src/lib.rs:73-84 | two checks in a row leave the state of one; the second fires iff the threshold is 0 |
| `YotYosDapp.GlobalState.Initialize` | programs/yot_yos_dapp/src/lib.rs:21-29 | the new state holds the given authority, accumulator 0, 500 bps, threshold 100 000 000, APR 7000 bps |
| `YotYosDapp.GlobalState.SetParams` | programs/yot_yos_dapp/src/lib.rs:31-42 | the three settings take the given values, unchecked; authority and accumulator are unchanged |
| `YotYosDapp.GlobalState.SwapNow` | programs/yot_yos_dapp/src/lib.rs:44-71 | on success the state and the balances are those of SwapStep; on failure the error is SwapStep's and neither the state nor the balances change |
| `YotYosDapp.GlobalState.AddLiquidityIfThreshold` | programs/yot_yos_dapp/src/lib.rs:73-84 | fires iff the old accumulator reached the threshold, then zeroes it; every other field is unchanged |
| `Instructions.ExecuteAccumulator` | programs/yot_yos_dapp/src/lib.rs:21-84 | one instruction leaves the accumulator alone, adds a swap's vault share to it, or zeroes it (threshold check only); the authority never changes |
| `Instructions.RunKeepsAuthority` | programs/yot_yos_dapp/src/lib.rs:21-84 | no sequence of instructions changes pool_authority |
| `Instructions.RunWithoutTriggerNeverDecreases` | programs/yot_yos_dapp/src/lib.rs:31-71 | without a threshold check, the accumulator never decreases |
| `Instructions.SwapAllAccumulates` | programs/yot_yos_dapp/src/lib.rs:67 | after n successful swaps, accumulated_yot equals its start plus the sum of the n vault shares, and no setting changed |
| `Instructions.SwapAllIsRun` | programs/yot_yos_dapp/src/lib.rs:44-71 | successful swaps chained directly give the same state as the same swaps run as separate instructions |
| `Instructions.RepeatedSwaps` | programs/yot_yos_dapp/src/lib.rs:44-71 | n equal swaps succeed when the source covers them and nothing overflows, and each adds the same shares |
| `Instructions.EndToEnd` | programs/yot_yos_dapp/src/lib.rs:21-84 | from the defaults one swap of 10 000 gives 7500 / 2000 / 500 and accumulator 2000; fifty give 100 000, which meets a threshold of 100 000 but not the default |

## Left out

- `ping`, `debug_log_sighash` and every `msg!` line: diagnostics with no effect on state.
- The `#[derive(Accounts)]` structures, the account space computation and `declare_id!`: framework wiring. The rule that `initialize` runs only once comes from Anchor's `init` constraint. The model only has the constructor.
- The CPI context builders and the token program itself. `token::transfer` and `token::mint_to` are foreign code. They are abstract functions on four balances: a transfer fails when the source is short, and any credit fails when the balance would overflow. The mint's total supply is not tracked.
- Authority checks. `set_params` takes a signer but never compares it with `pool_authority`, so the model allows any caller. The token program's own check that the `GlobalState` account is the mint authority and has signed is assumed to pass.
- The token program's other rejections: a frozen account, an account whose mint does not match, and a `user` that is neither the owner nor the delegate of `yot_source`. `TokenLedger.DistributeFailsIff` is an exact condition only for the abstract transfer and mint, which never reject for these reasons.
- Aliasing between the token accounts, such as a source that is also the user's destination. The four balances are separate fields.
- Builds without overflow checks. In such builds the same expressions wrap modulo 2^64 instead of aborting, and they are not modelled.
- The liquidity provision that `add_liquidity_if_threshold` is named after. The code only resets the counter, and so does the model.
- `weekly_apr_bps` is stored and never read. Nothing is proved about it beyond its being set and kept.
