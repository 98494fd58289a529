/**
 * Worked examples of the bot's decisions on concrete wei amounts
 * (1 BNB = 10^18 wei), one per command path.
 */
module Scenarios {
  import opened Common
  import opened WithdrawPreflight
  import opened BetPreflight
  import opened Outcome

  const OneBnb: nat := 1_000_000_000_000_000_000

  /** A funded 0.1 BNB bet at 50% is placed. The limits are the deployed
      minimum 0.01 and maximum 1 BNB (scripts/deploy.js:6-7). getMaxPayout()
      is assumed to answer 2 BNB and the quote 0.196 BNB. */
  lemma FundedBetIsPlaced()
    ensures var quote := (a: int, c: Chance) => 196_000_000_000_000_000;
      Bet(Some(OneBnb / 10), Num(50), OneBnb, 10_000_000_000,
          Limits(OneBnb / 100, OneBnb, 2 * OneBnb), quote).verdict
        == PlaceBet(Num(50), OneBnb / 10, 300000, 196_000_000_000_000_000)
  {
  }

  /** A chance of 150 is refused before the chain is consulted. */
  lemma ChanceAboveRangeRefused(limits: Limits, calculatePayout: (int, Chance) -> nat)
    ensures Bet(Some(OneBnb / 10), Num(150), OneBnb, 10_000_000_000, limits, calculatePayout)
      == BetAttempt(ChanceOutOfRange, [])
  {
  }

  /** Withdrawing "all" from 0.001 BNB at a gas price that makes the transfer
      fee 0.0021 BNB is refused and sends nothing. */
  lemma DustWithdrawalRefused()
    ensures Withdraw(true, "0xabc", "all", None, OneBnb / 1000, 100_000_000_000).verdict == CannotCoverGas
  {
    assert Lowered("all") == "all";
  }

  /** A receipt whose first log belongs to another contract and whose second
      is the casino's BetPlaced(roll 37, won, 0.196 BNB) reports that win. */
  lemma WinningReceiptReported()
    ensures var parse := (l: int) =>
        if l == 0 then ParseFailure else Event("BetPlaced", EventArgs(37, true, 196_000_000_000_000_000));
      ReportOf([0, 1], parse) == Some(Won(37, 196_000_000_000_000_000))
  {
  }
}
