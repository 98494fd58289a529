/**
 * The decision part of the /bet command (bot/index.js:214-265) and the verdict
 * line of /calc (bot/index.js:395-409). A bet is budgeted at BetGas gas at the
 * current gas price; the contract's limits and its payout quote are read
 * fresh on every call and are passed in here.
 */
module BetPreflight {
  import opened Common

  /** What parseInt(args[2]) yields: an integer, or NaN when the text does
      not start with digits. */
  datatype Chance = Num(n: int) | NaN

  /** `chance < 1 || chance > 99` (bot/index.js:218). Every comparison with
      NaN is false, so NaN is not rejected here. */
  predicate ChanceRejected(chance: Chance)
  {
    chance.Num? && (chance.n < 1 || chance.n > 99)
  }

  /** The casino contract's limits, as minBet(), maxBet() and getMaxPayout() return them. */
  datatype Limits = Limits(minBet: nat, maxBet: nat, maxPayout: nat)

  /** The fee the bot reserves for a bet at `gasPrice` wei per gas. */
  function BetFee(gasPrice: nat): nat
  {
    BetGas * gasPrice
  }

  datatype BetVerdict =
    | MalformedAmount                                       // parseEther raised: the catch at bot/index.js:300
    | ChanceOutOfRange                                      // bot/index.js:218-220
    | InsufficientFunds(amount: int, fee: nat, balance: nat)  // bot/index.js:227-235
    | AmountOutOfRange(minBet: nat, maxBet: nat)            // bot/index.js:239-245
    | PayoutTooHigh(payout: nat, maxPayout: nat)            // bot/index.js:249-256
    | PlaceBet(chance: Chance, value: int, gasLimit: nat, potentialPayout: nat)  // bot/index.js:262-265

  /** The verdict and the chain reads made before reaching it, in order. */
  datatype BetAttempt = BetAttempt(verdict: BetVerdict, chainReads: seq<ChainRead>)

  /** Every read a bet that reaches the payout check makes, in order. */
  const AllBetReads: seq<ChainRead> := [Balance, FeeData, MinBet, MaxBet, MaxPayout, PayoutQuote]

  /**
   * One /bet request. `parsedAmount` is ethers.parseEther(args[1]), None when
   * it raises; `chance` is parseInt(args[2]); `balance`, `gasPrice` and
   * `limits` are the provider's and the contract's answers, and
   * `calculatePayout` is the contract's quote function.
   */
  function Bet(parsedAmount: Option<int>, chance: Chance, balance: nat, gasPrice: nat,
               limits: Limits, calculatePayout: (int, Chance) -> nat): (b: BetAttempt)
    // A malformed amount or an out-of-range numeric chance is rejected before any chain read.
    ensures parsedAmount.None? ==> b.verdict == MalformedAmount
    ensures parsedAmount.Some? && ChanceRejected(chance) ==> b.verdict == ChanceOutOfRange
    ensures b.chainReads == [] <==> (b.verdict == MalformedAmount || b.verdict == ChanceOutOfRange)
    // A bet is placed only when every check passed, with exactly the requested
    // amount as value, the requested chance, and the fixed gas limit.
    ensures b.verdict.PlaceBet? ==>
      && parsedAmount == Some(b.verdict.value)
      && b.verdict.chance == chance && !ChanceRejected(chance)
      && b.verdict.value + BetFee(gasPrice) <= balance
      && limits.minBet <= b.verdict.value <= limits.maxBet
      && b.verdict.potentialPayout == calculatePayout(b.verdict.value, chance)
      && b.verdict.potentialPayout <= limits.maxPayout
      && b.verdict.gasLimit == BetGas
      && b.chainReads == AllBetReads
  {
    match parsedAmount
    case None => BetAttempt(MalformedAmount, [])
    case Some(amount) =>
      if ChanceRejected(chance) then BetAttempt(ChanceOutOfRange, [])
      else
        var fee := BetFee(gasPrice);
        if balance < amount + fee then
          BetAttempt(InsufficientFunds(amount, fee, balance), [Balance, FeeData])
        else if amount < limits.minBet || amount > limits.maxBet then
          BetAttempt(AmountOutOfRange(limits.minBet, limits.maxBet), [Balance, FeeData, MinBet, MaxBet])
        else
          var payout := calculatePayout(amount, chance);
          if payout > limits.maxPayout then BetAttempt(PayoutTooHigh(payout, limits.maxPayout), AllBetReads)
          else BetAttempt(PlaceBet(chance, amount, BetGas, payout), AllBetReads)
  }

  /** The three pre-flight checks run in a fixed order and the first that
      fails decides the rejection: funds, then the bet limits, then the payout. */
  lemma BetFirstFailureDecides(amount: int, chance: Chance, balance: nat, gasPrice: nat,
                               limits: Limits, calculatePayout: (int, Chance) -> nat)
    requires !ChanceRejected(chance)
    ensures var v := Bet(Some(amount), chance, balance, gasPrice, limits, calculatePayout).verdict;
      var funded := amount + BetFee(gasPrice) <= balance;
      var inLimits := limits.minBet <= amount <= limits.maxBet;
      var payoutOk := calculatePayout(amount, chance) <= limits.maxPayout;
      && (v == InsufficientFunds(amount, BetFee(gasPrice), balance) <==> !funded)
      && (v == AmountOutOfRange(limits.minBet, limits.maxBet) <==> funded && !inLimits)
      && (v == PayoutTooHigh(calculatePayout(amount, chance), limits.maxPayout) <==> funded && inLimits && !payoutOk)
      && (v == PlaceBet(chance, amount, BetGas, calculatePayout(amount, chance)) <==> funded && inLimits && payoutOk)
  {
  }

  /** parseInt's NaN slips past the range check: such a bet is not refused
      for its chance and goes on to read the chain. The NaN next reaches the
      payout quote (bot/index.js:248), which this model takes to answer. */
  lemma NaNChanceNotRejected(amount: int, balance: nat, gasPrice: nat,
                             limits: Limits, calculatePayout: (int, Chance) -> nat)
    ensures Bet(Some(amount), NaN, balance, gasPrice, limits, calculatePayout).verdict != ChanceOutOfRange
    ensures Bet(Some(amount), NaN, balance, gasPrice, limits, calculatePayout).chainReads != []
  {
  }

  datatype CalcVerdict =
    | BelowMinimum       // bot/index.js:406
    | AboveMaximum       // bot/index.js:407
    | PayoutExceedsMax   // bot/index.js:408
    | WithinLimits       // bot/index.js:409

  /** The /calc verdict line (bot/index.js:405-409). */
  function CalcVerdictOf(amount: int, payout: nat, limits: Limits): (v: CalcVerdict)
    ensures v == WithinLimits <==>
      limits.minBet <= amount <= limits.maxBet && payout <= limits.maxPayout
    // Precedence: below-minimum beats above-maximum, which beats the payout.
    ensures v == BelowMinimum <==> amount < limits.minBet
    ensures v == AboveMaximum <==> limits.minBet <= amount && amount > limits.maxBet
    ensures v == PayoutExceedsMax <==>
      limits.minBet <= amount <= limits.maxBet && payout > limits.maxPayout
  {
    if amount < limits.minBet then BelowMinimum
    else if amount > limits.maxBet then AboveMaximum
    else if payout > limits.maxPayout then PayoutExceedsMax
    else WithinLimits
  }

  /** The verdict of /calc and the chain reads made, in order. */
  datatype Calculation = Calculation(verdict: Option<CalcVerdict>, chainReads: seq<ChainRead>)

  /**
   * One /calc request (bot/index.js:395-409). Unlike /bet it makes every read
   * up front and never checks the chance; None is the catch block reached when
   * the amount does not parse.
   */
  function Calc(parsedAmount: Option<int>, chance: Chance, limits: Limits,
                calculatePayout: (int, Chance) -> nat): (c: Calculation)
    ensures c.verdict.None? <==> parsedAmount.None?
    ensures c.verdict.None? <==> c.chainReads == []
    ensures c.verdict.Some? ==>
      c.chainReads == [ContractBalance, MaxPayout, PayoutQuote, MinBet, MaxBet]
  {
    match parsedAmount
    case None => Calculation(None, [])
    case Some(amount) =>
      Calculation(Some(CalcVerdictOf(amount, calculatePayout(amount, chance), limits)),
                  [ContractBalance, MaxPayout, PayoutQuote, MinBet, MaxBet])
  }

  /** Once a bet is funded and its chance accepted, /bet and /calc agree:
      the bet is placed exactly when /calc says it is within all limits, and
      each rejection matches the /calc verdict for the same numbers. */
  lemma BetAgreesWithCalc(amount: int, chance: Chance, balance: nat, gasPrice: nat,
                          limits: Limits, calculatePayout: (int, Chance) -> nat)
    requires !ChanceRejected(chance)
    requires amount + BetFee(gasPrice) <= balance
    ensures var v := Bet(Some(amount), chance, balance, gasPrice, limits, calculatePayout).verdict;
      var cv := Calc(Some(amount), chance, limits, calculatePayout).verdict.value;
      && (v.PlaceBet? <==> cv == WithinLimits)
      && (v.AmountOutOfRange? <==> cv == BelowMinimum || cv == AboveMaximum)
      && (v.PayoutTooHigh? <==> cv == PayoutExceedsMax)
  {
  }

  /** /calc reports a verdict for any chance, even one /bet would refuse. */
  lemma CalcIgnoresChanceRange(amount: int, chance: Chance, balance: nat, gasPrice: nat,
                               limits: Limits, calculatePayout: (int, Chance) -> nat)
    requires ChanceRejected(chance)
    ensures Calc(Some(amount), chance, limits, calculatePayout).verdict.Some?
    ensures Bet(Some(amount), chance, balance, gasPrice, limits, calculatePayout).verdict == ChanceOutOfRange
  {
  }
}
