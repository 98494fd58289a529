# Dice-casino chat bot: custodial decision logic in Dafny

This project models the decision logic of the Telegram bot in `bot/index.js`.
The bot holds a custodial wallet for each chat user. It signs withdrawals and
bets against a dice-casino contract, and it reports each bet's outcome from the
mined receipt. The provider and the contract are not modelled. Their answers
(balance, gas price, contract limits, payout quote, parsed logs) are passed in
as parameters. All amounts are integers in wei.

- `common.dfy` (module `Common`): `Option`, the two gas budgets (21000 for a
  transfer, 300000 for a bet), and `ChainRead`, one constructor per provider or
  contract read. Each handler's result lists the reads it made, in order. This
  is how the model states "rejected before anything was read".
- `wallets.dfy` (module `Wallets`): the `wallets` dictionary as the class
  `WalletStore`, which holds a `map`. It has `Load`, `SaveWallet`, `GetWallet`
  and `CreateWallet`. Beside it, `AfterCreate` and `AfterCreates` are a pure
  specification of a run of `createwallet` requests, and lemmas about them show
  that a stored wallet is never replaced.
- `withdraw.dfy` (module `WithdrawPreflight`): the `/withdraw` decision.
- `bet.dfy` (module `BetPreflight`): the `/bet` decision and the `/calc`
  verdict, with a lemma showing that the two agree.
- `outcome.dfy` (module `Outcome`): the search for the first `BetPlaced` log,
  the won/lost message, and the `/balance` net result.
- `scenarios.dfy` (module `Scenarios`): worked examples with concrete wei
  amounts.

The model keeps the order of checks in the code:

- `/withdraw` validates the destination address before any chain read
  (bot/index.js:107-111).
- `/bet` parses the amount, then checks the chance, and only then reads the
  balance (bot/index.js:215-223).
- `createwallet` for a user who already has a wallet only replies and changes
  nothing (bot/index.js:54-56). `CreateWallet` returns `false` in that case.

## Model

| member | source | states |
|---|---|---|
| `Wallets.WalletStore.Load` | bot/index.js:16-20 | The store starts as the persisted dictionary when the wallet file exists, otherwise with no wallet for anyone |
| `Wallets.WalletStore.SaveWallet` | bot/index.js:22-25 | Saving overwrites exactly one user's entry; every other user's lookup is unchanged |
| `Wallets.WalletStore.GetWallet` | bot/index.js:27-29 | A lookup yields the stored record exactly when the user has one, and nothing otherwise |
| `Wallets.WalletStore.CreateWallet` | bot/index.js:54-62 | A wallet is saved iff the user had none; an existing user's store is left untouched |
| `Wallets.AfterCreate` | bot/index.js:54-62 | One createwallet request adds the generated record only for a new user and never changes an existing entry |
| `Wallets.CreatesNeverOverwrite` | bot/index.js:54-62 | No run of createwallet requests changes or removes a wallet already stored |
| `Wallets.CreatesKeys` | bot/index.js:54-62 | After a run of requests, exactly the previously stored users and the requesters have wallets |
| `Wallets.FirstRequestWins` | bot/index.js:54-62 | A new user keeps the key pair generated at their first request; repeated requests are no-ops |
| `WithdrawPreflight.Withdraw` | bot/index.js:106-144 | An invalid destination is rejected iff it is invalid, with no chain read. Any transfer sent goes to the requested address and leaves the balance covering value plus the 21000-gas fee |
| `WithdrawPreflight.AllKeywordSpellings` | bot/index.js:114 | "all" is recognised in every letter case and no other text is |
| `WithdrawPreflight.WithdrawAllDrains` | bot/index.js:114-121 | Withdrawing "all" is sent iff balance exceeds the fee; then value plus fee equals the balance exactly, otherwise the gas rejection |
| `WithdrawPreflight.WithdrawExplicitAmount` | bot/index.js:123-144 | An explicit amount is sent unchanged iff balance is at least amount plus fee, with no positivity check; otherwise rejected reporting amount, fee and balance |
| `WithdrawPreflight.WithdrawMalformedAmount` | bot/index.js:123-124 | An unparsable amount is rejected after the balance read and before the gas-price read |
| `BetPreflight.Bet` | bot/index.js:214-265 | A malformed amount or numeric chance outside 1..99 is rejected with no chain read. A placed bet passed every check, with value equal to the amount, the same chance and gas limit 300000 |
| `BetPreflight.BetFirstFailureDecides` | bot/index.js:223-256 | With the chance accepted, the first failing check among funds, limits and payout decides the rejection; the bet is placed iff all pass |
| `BetPreflight.NaNChanceNotRejected` | bot/index.js:216-220 | A NaN chance from parseInt is not rejected by the range check and the bet proceeds to chain reads |
| `BetPreflight.CalcVerdictOf` | bot/index.js:405-409 | Below-minimum beats above-maximum, which beats payout-too-high; "within all limits" iff none applies |
| `BetPreflight.Calc` | bot/index.js:395-409 | /calc gives a verdict iff the amount parses, after reading contract balance, max payout, quote, min and max in that order |
| `BetPreflight.BetAgreesWithCalc` | bot/index.js:237-256 | For a funded bet with an accepted chance, the bet is placed iff /calc says within limits, and each rejection matches the /calc verdict |
| `BetPreflight.CalcIgnoresChanceRange` | bot/index.js:395-409 | /calc gives a verdict for a chance that /bet refuses |
| `Outcome.FindBetPlaced` | bot/index.js:276-282 | The search returns the first log that parses as BetPlaced, or none when no log does |
| `Outcome.ReportOf` | bot/index.js:284-297 | No message iff no log parses as BetPlaced; otherwise the first such event's message: win with roll and payout, loss with roll only |
| `Outcome.SkipsOtherLogs` | bot/index.js:276-282 | Logs that fail to parse or are other events before the match are skipped and do not change the report |
| `Outcome.LaterLogsIgnored` | bot/index.js:276-282 | Logs after the first BetPlaced never change the report |
| `Outcome.NetResult` | bot/index.js:374 | Net result plus total wagered equals total payout; it is negative iff payouts are below wagers |
| `Scenarios.FundedBetIsPlaced` | bot/index.js:214-265 | A funded 0.1 BNB bet at 50% within the deployed limits (0.01..1 BNB), with an assumed 2 BNB getMaxPayout() answer, is placed with value 0.1 BNB and gas limit 300000 |
| `Scenarios.ChanceAboveRangeRefused` | bot/index.js:218-220 | A chance of 150 is refused with no chain read |
| `Scenarios.DustWithdrawalRefused` | bot/index.js:114-121 | Withdrawing "all" from 0.001 BNB with a 0.0021 BNB fee is refused |
| `Scenarios.WinningReceiptReported` | bot/index.js:276-297 | An unparsable log followed by BetPlaced(37, won, 0.196 BNB) reports exactly that win |

## Left out

- Chat plumbing: command registration, splitting `ctx.message.text`, the
  arity checks, the "create a wallet first" replies and all reply text
  (bot/index.js:32-48, 77-79, 93-104, 205-212, 391-393, 446-451). The
  arguments arrive already split, and the verdicts stand for the replies.
- Provider and contract calls (`getBalance`, `getFeeData`, `minBet`,
  `maxBet`, `getMaxPayout`, `calculatePayout`, `sendTransaction`,
  `placeBet`, `tx.wait`, `parseLog`): their answers are parameters. The
  model's `Send` and `PlaceBet` verdicts are the transaction the bot would
  submit. Confirmation, and the new-balance read after a withdrawal, are not
  modelled.
- A chain or contract read that raises goes to the handler's catch block. The
  model assumes every read answers, and that `getFeeData()` answers a
  non-null gas price. A null gas price would make `BigInt(21000) * gasPrice`
  (bot/index.js:116, 125) or `BigInt(gasPrice)` (bot/index.js:224) raise. The
  only raise the model covers is
  `ethers.parseEther` on an unparsable amount (`MalformedAmount`, and `None`
  for `/calc`).
- `ethers.parseEther`, `formatEther` and `isAddress` are library code: amounts
  arrive as wei integers and address validity as a boolean. ethers' encoding of
  contract-call arguments is not modelled. For a NaN chance, the payout quote
  `casino.calculatePayout(amount, chance)` (bot/index.js:248, and 401 for
  `/calc`) is assumed to answer. It is the first place a NaN reaches after the
  range test, and it is a contract read made before any transaction is built.
  What ethers does with a negative transfer value is not modelled either.
- JSON file load and save (bot/index.js:18-20, 24): only the in-memory
  dictionary is modelled. `Load` takes the parsed file, or `None` when the
  file is missing.
- `ethers.Wallet.createRandom` (bot/index.js:58): the generated key pair is
  an input to `CreateWallet`.
- Error classification by error code and message text in the catch blocks
  (bot/index.js:161-179, 300-321, 353-355, 383-385).
- The `/mywallet`, `/mybets`, `/balance` and `/deposit` display handlers,
  except the net-result subtraction (`NetResult`). They only read and format.
- `/rules` (display text), `/start`, and `scripts/deploy.js` (a deployment
  script with constructor constants). The contract's payout formula and
  randomness are not part of this model.
- Concurrency: handlers are independent callbacks, and the code has no
  locking. The model adds none.
