# Rent reclaim: a verified model

This project models in Dafny the core of a Solana tool. The tool finds the
operator's empty SPL token accounts and closes them, so that the rent
(lamports) locked in them returns to the operator. The project covers four
parts:

- **The reclaim engine** (`src/reclaim.ts`). It discovers accounts that are
  empty, that the operator may close, and whose rent reaches
  `minRentLamports`. It ranks them by rent, highest first, with a stable sort.
  It cuts a batch with `slice(0, maxClosePerRun)`. Then it either only reports
  the batch (dry run) or sends one close transaction per account. The first
  failed send aborts the run.
- **The notifier's scan** (`src/telegram.ts`). The same rules apply, plus an
  optional `ALLOW_MINTS` allow-list. The first rule that fails decides. Each
  skip reason has its own counter. The summary holds the total, the top value
  and the three best examples.
- **The notifier's settings and watch registry** (`src/telegram.ts`). This
  covers the clamps on the default interval, the alert threshold and the
  `/watch` interval; the alert rule of a watch tick; and the per-chat map of
  watch timers behind `/watch` and `/stop`.
- **The command line** (`src/cli.ts`): the flags `--once`, `--watch`,
  `--interval` and `--json`.

## How the system is represented

- **The ledger.** It is a sequence of `Ledger.Entry` values, one per account
  returned by `getTokenAccountsByOwner`, in the order returned. Each entry
  holds two outcomes:
  - the decoded token account from `getAccount`, or `Threw`;
  - the account info from `getAccountInfo`, or `Threw`.
  The info is only looked at when the earlier rules pass, as in the source.
- **The direct sender.** `Reclaim.Cluster` is a class with a fixed answer
  per account (a signature or an error). It also keeps the log of accounts
  for which a direct send was started. The Kora sender is a function that
  always fails.
- **JavaScript numbers from the environment or the command line.** These are
  `JsNumbers.Num`: a finite real, or `NonFinite` (NaN or infinity).
- **`Array.prototype.sort` with the comparator `b.lamports - a.lamports`.**
  This is `Ordering.SortDesc`, a stable insertion sort. ECMAScript 2019
  requires `sort` to be stable. The model proves that the result is ordered,
  is a permutation of the input, and is stable.
- **The imperative loops.** `Reclaim.FindEmptyTokenAccounts`,
  `Reclaim.ExecuteBatch` and `Scan.ScanReclaimable` are methods with loop
  invariants. They are proved against specification functions
  (`EmptyAccounts`, `Submit`, `ScanResult`). Lemmas then state the
  properties of those functions.
- **The watch registry.** `Notifier.WatchRegistry` is a class whose methods
  `Remove`, `Stop` and `Watch` update the `watchers` map in place. They have
  no loops. Their contracts state the new map directly, in terms of the old
  one, and keep the invariant `Valid()`: no two chats share a timer, and a
  cleared timer is never still registered.

Some behaviours of the code may surprise a reader. The model keeps them:

- A failed send in a live run throws out of `runReclaimer`. No partial report
  of the accounts already closed is returned (`src/reclaim.ts:145-150`).
- The reclaim report's `scanned` is the number of candidates, not the number
  of enumerated accounts (`src/reclaim.ts:118`). The report has no skip
  counters.
- `maxClosePerRun` is not validated:
  - 0 plans nothing;
  - a negative value counts back from the end of the ranking, as
    `slice(0, n)` does with a negative `n`.
- A failed `getAccountInfo` call is skipped without being counted in the reclaim
  engine; only a warning is logged. In the scan it counts as a parse error.

## Model

| member | source | states |
|---|---|---|
| Ordering.SortDesc | src/reclaim.ts:108 | the ranking is ordered by lamports, highest first, and is a permutation (same multiset, same length) of the input |
| Ordering.SortDescStable | src/reclaim.ts:108 | the sort is stable: for each lamports value, the accounts carrying it keep their relative input order |
| Ordering.SortDescOfRanked | src/telegram.ts:97 | sorting a sequence that is already ranked leaves it unchanged |
| Ordering.SliceTo | src/reclaim.ts:115 | `slice(0, end)` returns a prefix of its input |
| Ordering.SliceToLength | src/reclaim.ts:115 | with a non-negative end, the slice keeps exactly `min(end, length)` elements |
| Ordering.SumBySortDesc | src/telegram.ts:99 | the `reduce` total of the lamports does not depend on the ranking order |
| Ordering.SumByBoundsEach | src/telegram.ts:99-100 | every account's lamports are at most the total |
| Reclaim.Discover | src/reclaim.ts:35-64 | an enumerated account yields a candidate iff both lookups succeed, its amount is 0, its close authority is null or the operator, and its lamports (0 when the info is null) reach `minRentLamports`; the candidate carries the account's pubkey, mint, owner and lamports |
| Reclaim.FindEmptyTokenAccounts | src/reclaim.ts:25-68 | the discovery loop returns exactly the candidates of the enumerated accounts, in enumeration order |
| Reclaim.EmptyAccountsMembers | src/reclaim.ts:35-58 | an account is in the discovery result iff some enumerated account yields it |
| Reclaim.SkippedEntryChangesNothing | src/reclaim.ts:59-64 | an account whose lookup throws (or that fails a rule) is skipped without changing what the rest of the enumeration yields |
| Reclaim.DiscoveryKeepsOrder | src/reclaim.ts:33-67 | the discovered token accounts form a subsequence of the enumerated pubkeys |
| Reclaim.RankingIsStablePermutation | src/reclaim.ts:107-108 | the ranked candidates are a permutation of the discovered ones, with rent never increasing, and equal rents keep discovery order |
| Reclaim.PickedIsMostValuablePrefix | src/reclaim.ts:115 | the batch is a prefix of the ranking, of length `min(maxClosePerRun, candidates)` when the cap is not negative, and no account left out is worth more than one in the batch |
| Reclaim.SendViaKora | src/reclaim.ts:90-94 | the Kora path always fails |
| Reclaim.Cluster.SendDirect | src/reclaim.ts:70-86 | a direct send submits the close of that account to the cluster (appended to its log) and returns the cluster's answer for it |
| Reclaim.SubmitFailureIsFinal | src/reclaim.ts:145-150 | once a send has failed, later candidates change neither the outcome nor what was submitted |
| Reclaim.SubmitSucceeds | src/reclaim.ts:125-153 | closing the batch succeeds iff every send succeeds; then there is one signature per candidate, in batch order, and on the direct path every candidate was submitted once, in order |
| Reclaim.SubmitStopsAtFirstFailure | src/reclaim.ts:145-150 | a failed batch fails with the first failing candidate's error; all earlier sends succeeded, and no later candidate is submitted |
| Reclaim.ExecuteBatch | src/reclaim.ts:125-153 | the closing loop: a dry run returns the report unchanged and sends nothing; a live run returns the report with `closed` and `signatures` from the successful batch, or the first error, having submitted exactly the attempted accounts |
| Reclaim.RunReclaimer | src/reclaim.ts:96-161 | a run returns the result of discovery, ranking, batching and closing, and submits to the cluster exactly the accounts that result attempts |
| Reclaim.ReportCounts | src/reclaim.ts:117-123 | in a report, `scanned` = `candidates` = the number of discovered accounts, `planned` is the batch size, and `closed` equals the number of signatures and is at most `planned` |
| Reclaim.DryRunClosesNothing | src/reclaim.ts:135 | a dry run always returns a report, with the batch planned, nothing closed, no signatures and nothing submitted |
| Reclaim.LiveRunClosesBatch | src/reclaim.ts:145-151 | a live run that returns a report closed the whole batch, with the senders' signatures in ranking order |
| Reclaim.LiveRunAbortsOnFailure | src/reclaim.ts:145-150 | a live run in which candidate k is the first rejected fails with that rejection's message, after submitting only candidates 0..k |
| Reclaim.KoraRunAlwaysFails | src/reclaim.ts:145-147 | a live run on the Kora path with a non-empty batch fails with the Kora message and submits nothing |
| AllowMints.TrimFacts | src/telegram.ts:33 | `trim` returns a slice of its input that has no white space at either end, and trimming again changes nothing |
| AllowMints.Split | src/telegram.ts:32 | `split(",")` yields at least one piece, and no piece contains a comma |
| AllowMints.JoinSplit | src/telegram.ts:32 | re-joining the pieces of `split(",")` with commas gives back the original string |
| AllowMints.SplitJoin | src/telegram.ts:32 | splitting comma-free pieces joined by commas gives back the pieces |
| AllowMints.NonBlankEmpty | src/telegram.ts:34-36 | no mint remains iff every piece trims to the empty string |
| AllowMints.ParseAllowMints | src/telegram.ts:26-37 | the result is null iff the variable is unset, or all its pieces are blank (this includes the empty string); otherwise it is the set of trimmed non-blank pieces, each non-empty, trimmed and comma-free |
| AllowMints.ParseJoinedMints | src/telegram.ts:26-37 | a comma-separated list of clean mint addresses parses to exactly the set of those addresses |
| Scan.Classify | src/telegram.ts:58-95 | an account is skipped for exactly the first failing rule, in the order non-empty, wrong authority, mint not allowed, below minimum rent; a throwing lookup is a parse error; an eligible account carries its pubkey, mint and lamports (at least the minimum) |
| Scan.ScanReclaimable | src/telegram.ts:39-120 | the scan loop and its summary equal the specification of a scan: five skip counts, the ranked candidates, their total, the top value and the first three examples |
| Scan.BucketsPartition | src/telegram.ts:58-95 | each enumerated account is counted in exactly one bucket |
| Scan.EveryAccountCountedOnce | src/telegram.ts:108-119 | `scanned` = `candidates` + the five skip counters |
| Scan.NoAllowListNoMintSkips | src/telegram.ts:74 | without an allow-list, no account is skipped for its mint |
| Scan.EligiblesPassRules | src/telegram.ts:62-87 | every reported account comes from an enumerated account classified eligible, has an allowed mint, and reaches the minimum rent |
| Scan.AllowListRule | src/telegram.ts:74-77 | without an allow-list, the not-allowed-mint counter is 0; with one, every reported mint is on it |
| Scan.TotalAndTop | src/telegram.ts:97-100 | `totalLamports` is the sum over the reported accounts; `topLamports` is their maximum, or 0 when there are none; the top value is at most the total |
| Scan.ExamplesAreTopThree | src/telegram.ts:102-106 | the examples are the first `min(3, candidates)` accounts of the ranking, ordered by rent, and none left out is worth more |
| Scan.EnginesAgree | src/telegram.ts:62-87 | without an allow-list, the scan reports exactly the accounts the reclaim engine discovers (`src/reclaim.ts:35-58`), in the same order and with the same rent |
| Notifier.DefaultIntervalSec | src/telegram.ts:158-161 | the default interval is positive: the setting when finite and positive, otherwise 60 (also when unset) |
| Notifier.MinAlertLamports | src/telegram.ts:163-166 | the threshold is non-negative: the setting when finite and non-negative, otherwise 0 (also when unset) |
| Notifier.WatchIntervalSec | src/telegram.ts:231-234 | the watch interval is at least 15 seconds: a finite argument of at least 15 is kept; with no argument the default is used if it is at least 15; anything else gives 60 |
| Notifier.BareWatchInterval | src/telegram.ts:232-234 | a bare `/watch` uses the default interval, or 60 when the default is below 15 |
| Notifier.AlertRule | src/telegram.ts:253 | an alert has a total that reaches the threshold and at least one example to show; with a positive threshold, alerting depends on the total alone |
| Notifier.WatchRegistry.constructor | src/telegram.ts:156 | the registry starts empty |
| Notifier.WatchRegistry.RunningAreRegistered | src/telegram.ts:156 | the timers still running are exactly those in the map, one per watched chat, never shared |
| Notifier.WatchRegistry.Remove | src/telegram.ts:217-220 | the chat's timer is cleared and its entry deleted; other chats are untouched |
| Notifier.WatchRegistry.Stop | src/telegram.ts:215-225 | `/stop` reports whether the chat was watched; it clears and removes that chat's timer and leaves the rest of the map as it was |
| Notifier.WatchRegistry.Watch | src/telegram.ts:236-269 | `/watch` clears the chat's previous timer, if any; when the confirmation reply and the first tick return, the new timer becomes the chat's only entry; when one of their replies throws, the chat is left with no entry and no new timer |
| Cli.IndexOf | src/cli.ts:6 | `indexOf` is -1 iff the flag is absent; otherwise it is the position of the flag's first occurrence |
| Cli.GetArg | src/cli.ts:5-9 | the value of a flag is the argument right after its first occurrence; there is none when the flag is absent or is last |
| Cli.ParseOptions | src/cli.ts:11-25 | `watch` and `json` say whether their flags are present; `once` holds when `--once` is present or `--watch` is absent; the interval is 60 without `--interval`; otherwise the options are accepted iff the value is a positive integer, which becomes the interval, and a rejected value is reported |
| Cli.SomeModeSelected | src/cli.ts:19-20 | parsed options always run once, watch, or both |
| Cli.OnceAndWatchTogether | src/cli.ts:19-20 | `--once --watch` selects both modes |
| Cli.IntervalRoundTrip | src/cli.ts:21 | `--interval` followed by a text denoting a positive whole number of seconds yields exactly that interval |

## Left out

- Network access is not modelled. The enumeration, `getAccount` and
  `getAccountInfo` (with their commitment level) become the input sequence of
  `Ledger.Entry`. An enumeration call that itself throws (fatal in both
  engines) is therefore not modelled.
- The inner steps of `sendTransactionDirect` are not modelled: building the
  close instruction, the fee payer, the recent blockhash, signing,
  serialisation and confirmation. The cluster's answer function stands for
  all of them. It gives the same answer whenever the same account is closed.
- Logging (`log.info`, `log.warn`) has no effect on results and is left out.
- `lamportsToSol` and `formatSummary` are left out. They only format text with
  floating-point division.
- The Telegram bot's `start`, `status` and `scan` replies are left out. So are
  `bot.catch`, the message texts and the tick's scan-failure reply. The scan
  and alert decisions they use are modelled.
- The timers themselves are left out: `setInterval` scheduling, the immediate
  first tick and the period in milliseconds. The registry receives a freshly
  started timer handle as a parameter.
- Concurrency is not modelled. The bot's handlers can interleave at each
  `await`. The model treats each `/watch` and `/stop` as atomic.
- The text `Number` conversion of JavaScript is a parameter of
  `Cli.ParseOptions`. The notifier functions take its result (`Num`) as input.
- Notifier.WatchIntervalSec: does not model splitting the `/watch` message on
  white space. It takes `Number` of the second word, or no word. It also
  assumes that `Number(String(d))` gives back the default `d`.
- Numbers are unbounded. The model does not capture JavaScript's 2^53
  precision limit on lamport sums, or bigint handling beyond `amount == 0`.
- `minRentLamports` and `maxClosePerRun` are whole numbers here. Reading them
  from the environment (`src/config.ts`) is not part of this model, and neither
  is a NaN or fractional cap.
- Cli.ParseOptions: the zod error only records the rejected interval, not
  zod's message.
- `src/index.ts` (the watch loop of the command line), `src/config.ts`,
  `src/keys.ts`, `src/logger.ts` and `src/solana.ts` are not part of this
  model.
