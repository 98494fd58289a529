/**
 * The decision part of the /withdraw command (bot/index.js:106-144): from the
 * destination's validity, the amount argument and the chain's answers, either
 * a rejection or the one transfer the bot signs and sends. A transfer is
 * budgeted at TransferGas gas at the current gas price.
 */
module WithdrawPreflight {
  import opened Common

  /** The fee the bot reserves for a transfer at `gasPrice` wei per gas. */
  function TransferFee(gasPrice: nat): nat
  {
    TransferGas * gasPrice
  }

  /** `args[1].toLowerCase() === 'all'` (bot/index.js:114). Lower-casing only
      ASCII is exact here: no other character lower-cases to 'a' or 'l'. */
  predicate IsAllKeyword(amountText: string)
  {
    Lowered(amountText) == "all"
  }

  datatype WithdrawVerdict =
    | InvalidAddress                                      // bot/index.js:107-108
    | CannotCoverGas                                      // bot/index.js:119-121
    | MalformedAmount                                     // parseEther raised: the catch at bot/index.js:161
    | InsufficientFunds(amount: int, fee: nat, balance: nat)  // bot/index.js:128-135
    | Send(to: string, value: int)                        // bot/index.js:141-144

  /** The verdict and the chain reads made before reaching it, in order. */
  datatype Withdrawal = Withdrawal(verdict: WithdrawVerdict, chainReads: seq<ChainRead>)

  /**
   * One /withdraw request. `addressValid` is ethers.isAddress(to);
   * `parsedAmount` is ethers.parseEther(amountText), None when it raises;
   * `balance` and `gasPrice` are what the provider answers when asked.
   */
  function Withdraw(addressValid: bool, to: string, amountText: string, parsedAmount: Option<int>,
                    balance: nat, gasPrice: nat): (w: Withdrawal)
    // The destination is validated before anything is read from the chain.
    ensures w.verdict == InvalidAddress <==> !addressValid
    ensures w.verdict == InvalidAddress <==> w.chainReads == []
    ensures addressValid ==> w.chainReads[0] == Balance
    // Funds safety: a transfer is only sent when the balance covers it and its fee,
    // to the requested destination, after reading the balance and then the gas price.
    ensures w.verdict.Send? ==> w.verdict.to == to
    ensures w.verdict.Send? ==> w.verdict.value + TransferFee(gasPrice) <= balance
    ensures w.verdict.Send? ==> w.chainReads == [Balance, FeeData]
  {
    if !addressValid then
      Withdrawal(InvalidAddress, [])
    else if IsAllKeyword(amountText) then
      var amount := balance - TransferFee(gasPrice);
      if amount <= 0 then Withdrawal(CannotCoverGas, [Balance, FeeData])
      else Withdrawal(Send(to, amount), [Balance, FeeData])
    else
      match parsedAmount
      case None => Withdrawal(MalformedAmount, [Balance])
      case Some(amount) =>
        var fee := TransferFee(gasPrice);
        if balance < amount + fee then Withdrawal(InsufficientFunds(amount, fee, balance), [Balance, FeeData])
        else Withdrawal(Send(to, amount), [Balance, FeeData])
  }

  /** "all" is recognised whatever its letter case, and nothing else is. */
  lemma AllKeywordSpellings(amountText: string)
    ensures IsAllKeyword(amountText) <==>
      amountText in {"all", "alL", "aLl", "aLL", "All", "AlL", "ALl", "ALL"}
  {
    if IsAllKeyword(amountText) {
      var l := Lowered(amountText);
      assert l[0] == 'a' && l[1] == 'l' && l[2] == 'l';
      assert amountText == [amountText[0], amountText[1], amountText[2]];
    }
  }

  /** Withdrawing "all" sends the balance minus the fee, is rejected exactly
      when that is not positive, and when sent leaves exactly the fee behind. */
  lemma WithdrawAllDrains(to: string, amountText: string, parsedAmount: Option<int>, balance: nat, gasPrice: nat)
    requires IsAllKeyword(amountText)
    ensures var w := Withdraw(true, to, amountText, parsedAmount, balance, gasPrice);
      && (w.verdict.Send? <==> balance > TransferFee(gasPrice))
      && (w.verdict.Send? ==> w.verdict.value + TransferFee(gasPrice) == balance && w.verdict.value > 0)
      && (!w.verdict.Send? ==> w.verdict == CannotCoverGas)
  {
  }

  /** An explicit amount is sent, unchanged and to the given destination,
      exactly when the balance covers it plus the fee; otherwise the rejection
      reports the amount, the fee and the balance. Nothing checks that the
      amount is positive: zero or a negative parse result passes as well. */
  lemma WithdrawExplicitAmount(to: string, amountText: string, amount: int, balance: nat, gasPrice: nat)
    requires !IsAllKeyword(amountText)
    ensures var w := Withdraw(true, to, amountText, Some(amount), balance, gasPrice);
      && (w.verdict.Send? <==> balance >= amount + TransferFee(gasPrice))
      && (w.verdict.Send? ==> w.verdict == Send(to, amount))
      && (!w.verdict.Send? ==> w.verdict == InsufficientFunds(amount, TransferFee(gasPrice), balance))
  {
  }

  /** An amount that does not parse is rejected after the balance read and
      before the gas price is read. */
  lemma WithdrawMalformedAmount(to: string, amountText: string, balance: nat, gasPrice: nat)
    requires !IsAllKeyword(amountText)
    ensures Withdraw(true, to, amountText, None, balance, gasPrice) == Withdrawal(MalformedAmount, [Balance])
  {
  }
}
