/**
 * The four token accounts `swap_now` touches, and the two token-program
 * operations it calls on them (`token::transfer`, `token::mint_to`), kept
 * abstract: a transfer fails when the source balance is short, and any
 * credit fails when the credited balance would leave u64.
 */
module TokenLedger {
  import opened Wrappers
  import opened UInt64
  import opened Split

  datatype TokenError = InsufficientFunds | Overflow

  /** Balances of `yot_source`, `yot_user_dest`, `yot_vault` and `yos_user_dest`. */
  datatype Balances = Balances(yotSource: uint64, yotUserDest: uint64, yotVault: uint64, yosUserDest: uint64)

  /** Moves `amount` from one balance to another; yields the two new balances. */
  function Transfer(from: uint64, to: uint64, amount: uint64): (r: Result<(uint64, uint64), TokenError>)
    ensures r.Failure? <==> from < amount || to + amount >= BOUND
    ensures r.Success? ==> r.value.0 + r.value.1 == from + to && r.value.1 - to == amount
  {
    if from < amount then Failure(InsufficientFunds)
    else if to + amount >= BOUND then Failure(Overflow)
    else Success((from - amount, to + amount))
  }

  /** Credits `amount` freshly minted units to a balance. */
  function MintTo(to: uint64, amount: uint64): Result<uint64, TokenError> {
    if to + amount >= BOUND then Failure(Overflow) else Success(to + amount)
  }

  /**
   * The three calls of `swap_now` in order: `user_receive` from the source
   * to the user, `vault` from the source to the vault, `cashback` minted as
   * YOS to the user.
   */
  function Distribute(b: Balances, s: Shares): Result<Balances, TokenError> {
    var toUser :- Transfer(b.yotSource, b.yotUserDest, s.userReceive);
    var toVault :- Transfer(toUser.0, b.yotVault, s.vault);
    var yos :- MintTo(b.yosUserDest, s.cashback);
    Success(Balances(toVault.0, toUser.1, toVault.1, yos))
  }

  /** Total YOT held by the three YOT accounts. */
  function YotHeld(b: Balances): int {
    b.yotSource + b.yotUserDest + b.yotVault
  }

  /**
   * A distribution that goes through moves each share to its account, leaves
   * the YOT total of the three YOT accounts unchanged, takes only
   * `user_receive + vault` out of the source, and mints exactly `cashback` YOS.
   */
  lemma DistributeMovesShares(b: Balances, s: Shares)
    requires Distribute(b, s).Success?
    ensures var b' := Distribute(b, s).value;
      && b'.yotSource == b.yotSource - s.userReceive - s.vault
      && b'.yotUserDest == b.yotUserDest + s.userReceive
      && b'.yotVault == b.yotVault + s.vault
      && b'.yosUserDest == b.yosUserDest + s.cashback
      && YotHeld(b') == YotHeld(b)
  {
  }

  /**
   * A distribution fails exactly when the source cannot cover both transfers
   * or a credited balance would overflow; a short source reports
   * `InsufficientFunds`.
   */
  lemma DistributeFailsIff(b: Balances, s: Shares)
    ensures Distribute(b, s).Failure? <==>
      || b.yotSource < s.userReceive + s.vault
      || b.yotUserDest + s.userReceive >= BOUND
      || b.yotVault + s.vault >= BOUND
      || b.yosUserDest + s.cashback >= BOUND
    ensures b.yotSource < s.userReceive + s.vault && b.yotUserDest + s.userReceive < BOUND ==>
      Distribute(b, s) == Failure(InsufficientFunds)
  {
  }

  /** The token accounts as one mutable object: the token program changes them in place. */
  class TokenAccounts {
    var yotSource: uint64
    var yotUserDest: uint64
    var yotVault: uint64
    var yosUserDest: uint64

    function View(): Balances
      reads this
    {
      Balances(yotSource, yotUserDest, yotVault, yosUserDest)
    }

    constructor (b: Balances)
      ensures View() == b
    {
      yotSource, yotUserDest, yotVault, yosUserDest := b.yotSource, b.yotUserDest, b.yotVault, b.yosUserDest;
    }
  }
}
