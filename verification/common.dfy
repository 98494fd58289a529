/**
 * Vocabulary shared by the model of the dice-casino chat bot: an Option,
 * the gas budgets the bot uses, and the chain reads a command handler makes.
 * All amounts are integers in wei; the provider's and the casino contract's
 * answers are passed in as parameters.
 */
module Common {

  datatype Option<T> = None | Some(value: T)

  /** Gas the bot budgets for a plain transfer (bot/index.js:116, 125). */
  const TransferGas: nat := 21000

  /** Gas limit the bot attaches to placeBet and budgets for it (bot/index.js:224, 264). */
  const BetGas: nat := 300000

  /** A read from the provider or the casino contract. A handler's result lists
      the reads it made, in order, so that "rejected before anything was read"
      can be stated. */
  datatype ChainRead =
    | Balance          // provider.getBalance(wallet.address)
    | FeeData          // provider.getFeeData().gasPrice
    | ContractBalance  // provider.getBalance(CASINO_ADDRESS)
    | MinBet           // casino.minBet()
    | MaxBet           // casino.maxBet()
    | MaxPayout        // casino.getMaxPayout()
    | PayoutQuote      // casino.calculatePayout(amount, chance)

  /** Lower-cases ASCII letters and leaves every other character alone. */
  function LowerAscii(c: char): (r: char)
    ensures 'A' <= c <= 'Z' ==> r as int == c as int + 32
    ensures !('A' <= c <= 'Z') ==> r == c
  {
    if 'A' <= c <= 'Z' then (c as int + 32) as char else c
  }

  function Lowered(s: string): (r: string)
    ensures |r| == |s|
    ensures forall i :: 0 <= i < |s| ==> r[i] == LowerAscii(s[i])
  {
    seq(|s|, i requires 0 <= i < |s| => LowerAscii(s[i]))
  }
}
