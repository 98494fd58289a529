/**
 * What the /bet command reports once its transaction is mined
 * (bot/index.js:275-297): the receipt's logs are searched for the first one
 * that parses as the casino's BetPlaced event, and that event alone decides
 * between a "won" message with the payout, a "lost" message without it, or no
 * message at all.
 */
module Outcome {
  import opened Common

  /** The fields of a BetPlaced event the bot reads. */
  datatype EventArgs = EventArgs(outcome: int, won: bool, payout: nat)

  /** What casino.interface.parseLog makes of a log: a raise (or a null
      result, whose `.name` raises) or a named event of the casino's ABI. */
  datatype ParsedLog = ParseFailure | Event(name: string, args: EventArgs)

  /** The test inside receipt.logs.find (bot/index.js:276-282). A log whose
      parse raises counts as "not it"; it does not abort the search. */
  predicate IsBetPlaced(p: ParsedLog)
  {
    p.Event? && p.name == "BetPlaced"
  }

  /** Index `i` is where `find` stops: the first log that parses as BetPlaced. */
  ghost predicate IsFirstBetPlaced<L>(logs: seq<L>, parse: L -> ParsedLog, i: int)
  {
    && 0 <= i < |logs|
    && IsBetPlaced(parse(logs[i]))
    && forall j :: 0 <= j < i ==> !IsBetPlaced(parse(logs[j]))
  }

  /** receipt.logs.find(...) as a position: the first BetPlaced log, if any. */
  function FindBetPlaced<L>(logs: seq<L>, parse: L -> ParsedLog): (r: Option<nat>)
    ensures r.Some? ==> IsFirstBetPlaced(logs, parse, r.value)
    ensures r.None? ==> forall j :: 0 <= j < |logs| ==> !IsBetPlaced(parse(logs[j]))
    decreases |logs|
  {
    if |logs| == 0 then None
    else if IsBetPlaced(parse(logs[0])) then Some(0)
    else match FindBetPlaced(logs[1..], parse)
      case None => None
      case Some(i) => Some(i + 1)
  }

  /** The result message: a win carries the roll and the payout, a loss only the roll. */
  datatype BetReport = Won(roll: int, payout: nat) | Lost(roll: int)

  /** The message for one BetPlaced event (bot/index.js:286-295). */
  function MessageFor(a: EventArgs): BetReport
  {
    if a.won then Won(a.outcome, a.payout) else Lost(a.outcome)
  }

  /** The result message the bot sends for a mined bet, or None when it sends
      none. The found log is parsed a second time (bot/index.js:285); parsing
      is a function of the log, so it yields the event `find` matched. */
  function ReportOf<L>(logs: seq<L>, parse: L -> ParsedLog): (r: Option<BetReport>)
    ensures r.None? <==> forall j :: 0 <= j < |logs| ==> !IsBetPlaced(parse(logs[j]))
    ensures forall i :: IsFirstBetPlaced(logs, parse, i) ==> r == Some(MessageFor(parse(logs[i]).args))
  {
    match FindBetPlaced(logs, parse)
    case None => None
    case Some(i) => Some(MessageFor(parse(logs[i]).args))
  }

  /** Logs before the first BetPlaced that do not parse, or parse as some
      other event, are skipped: dropping them changes nothing. */
  lemma {:induction false} SkipsOtherLogs<L>(skipped: seq<L>, logs: seq<L>, parse: L -> ParsedLog)
    requires forall j :: 0 <= j < |skipped| ==> !IsBetPlaced(parse(skipped[j]))
    ensures ReportOf(skipped + logs, parse) == ReportOf(logs, parse)
  {
    FindAfterSkipped(skipped, logs, parse);
  }

  lemma {:induction false} FindAfterSkipped<L>(skipped: seq<L>, logs: seq<L>, parse: L -> ParsedLog)
    requires forall j :: 0 <= j < |skipped| ==> !IsBetPlaced(parse(skipped[j]))
    ensures FindBetPlaced(skipped + logs, parse) ==
      match FindBetPlaced(logs, parse)
      case None => None
      case Some(i) => Some(i + |skipped|)
    decreases |skipped|
  {
    if skipped == [] {
      assert skipped + logs == logs;
    } else {
      assert (skipped + logs)[0] == skipped[0];
      assert (skipped + logs)[1..] == skipped[1..] + logs;
      FindAfterSkipped(skipped[1..], logs, parse);
    }
  }

  /** Logs after the first BetPlaced one never change the report. */
  lemma {:induction false} LaterLogsIgnored<L>(logs: seq<L>, later: seq<L>, parse: L -> ParsedLog)
    requires FindBetPlaced(logs, parse).Some?
    ensures FindBetPlaced(logs + later, parse) == FindBetPlaced(logs, parse)
    ensures ReportOf(logs + later, parse) == ReportOf(logs, parse)
    decreases |logs|
  {
    assert (logs + later)[0] == logs[0];
    if !IsBetPlaced(parse(logs[0])) {
      assert (logs + later)[1..] == logs[1..] + later;
      LaterLogsIgnored(logs[1..], later, parse);
    }
    var i := FindBetPlaced(logs, parse).value;
    assert (logs + later)[i] == logs[i];
  }

  /** The net result line of /balance (bot/index.js:374): payouts minus
      wagers, as an unbounded BigInt, so it is negative when the player is down. */
  function NetResult(totalPayout: nat, totalWagered: nat): (net: int)
    ensures net + totalWagered == totalPayout
    ensures net < 0 <==> totalPayout < totalWagered
  {
    totalPayout - totalWagered
  }
}
