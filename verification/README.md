# mlm payout core in Dafny

This project models the core of `mlm`, the MTLA recommendation-reward
service, and proves properties about it. Members of the association
endorse one another with `RecommendToMTLA*` data entries on their Stellar
accounts. Each cycle, the service pays a third of its LABR balance to the
recommenders. The pool is split by how much the MTLAP balances of the
accounts they recommend have grown since the last report. Each report is
written to Postgres before its transaction is submitted. A pending
(unsubmitted) report is resubmitted rather than recomputed. A separate loop
swaps the account's EURMTL into LABR when the price is within a threshold.

The model is pure and functional. Everything the Go code asks a
collaborator is an input to the model:

- the Horizon API;
- the Postgres queries;
- the clock;
- Base64 decoding;
- `strconv`;
- Telegram.

For each collaborator the model takes either a function value or the
outcome of the call. A Go map whose iteration order shows up in the result
becomes a sequence in the order the runtime happened to choose.

| file | module | models |
|---|---|---|
| wrap.dfy | `Wrap` | `Option` / `Result` |
| mlm.dfy | `Mlm` | the records of `mlm.go`, `WithoutReport`, the edge list of a graph |
| stellar.dfy | `Stellar` | `accountsToResult` and its helpers (graph building, conflict detection) |
| calculate.dfy | `Calculate` | `CalculateParts` and the baseline rebuild of `getLastDistribute` |
| payout_properties.dfy | `PayoutProperties` | what the calculation guarantees (pool bound, conflicts ignored, increments paid once) |
| scenarios.dfy | `Scenarios` | the four cases of `TestCalculateParts` |
| cycle.dfy | `Cycle` | the graph builder feeding the calculation |
| store.dfy | `ReportStore` | the report tables: append, pending lookup, hash update |
| distributor.dfy | `Distributor` | `Distribute` as a state machine under the report lock, and `createReport` as a transaction |
| mlmc.dfy | `Mlmc` | the `report dry`, `report create` and `distribute` commands of `cmd/mlmc` |
| swap.dfy | `Swap` | `GetSwappableBalances`, `GetSwapPrice`, `ExecuteSwaps` |
| config.dfy | `Config` | `Config.Validate`, `config.Get` defaults |

Runs are recorded as traces of steps:

- `Distribute` records `Lock`, then its stages, then `Unlock`.
- The commands record the pending lookup, then the rebuild or run, then
  `Submit`, `SetReportHash` and `Notify`.

Ordering properties are stated on these traces.

## Model

| member | source | states |
|---|---|---|
| Mlm.WithoutReport | mlm.go:63-73 | The option sets `WithoutReport` on any options record, and applying it again changes nothing. |
| Mlm.ApplyOptions | distributor/distributor.go:31-35 | With no options the record is the zero value: report mode. |
| Mlm.WithoutReportRepeated | mlm.go:69-73 | Passing `WithoutReport()` once or many times yields exactly `{WithoutReport: true}`. |
| Stellar.DecodeBase64 | stellar/stellar.go:178-184 | A value that decodes reads as its decoded text. A value that does not decode reads as the empty string. |
| Stellar.Truncate | stellar/stellar.go:191 | `int64(f)` truncates toward zero. For non-negative values that is the floor; for negative values it is the ceiling. |
| Stellar.GetBalanceInt | stellar/stellar.go:186-192 | A missing or unparseable MTLAP balance reads as 0. A non-negative balance becomes its whole part. |
| Stellar.RecommendValues | stellar/stellar.go:124-130 | A value is kept if and only if it belongs to an entry whose key has the `RecommendToMTLA` prefix. The list is empty exactly when no key has the prefix. |
| Stellar.RecommendValuesAppend | stellar/stellar.go:124-130 | Claim values are collected entry by entry: the values of a split data map are the values of its parts, in order. |
| Stellar.FindAccount | stellar/stellar.go:119-121 | The account found is an input account with that id. Nothing is found exactly when no input account has the id. |
| Stellar.ResolvedClaims | stellar/stellar.go:137-158 | Each kept claim names an input account and is scored by that account's truncated MTLAP balance. There are no more kept claims than claim values. |
| Stellar.ResolvedClaimsMeaning | stellar/stellar.go:137-158 | Each kept claim names the account its value decodes to. Every value that resolves is kept, with that account's score. |
| Stellar.ConflictOf | stellar/stellar.go:143-149 | Every conflict entry lists at least two claimants, namely all recommenders that claimed the account, in processing order. |
| Stellar.ClaimTracks | stellar/stellar.go:143-161 | One claim's bookkeeping keeps the fold state in step with the edges seen so far. The fold state is the unique set, the last-claimant map, the conflict map and the running total. |
| Stellar.ProcessClaimsTracks | stellar/stellar.go:137-162 | The inner loop over one recommender's claims keeps the fold state in step with the edges it emits. |
| Stellar.ProcessAccountsTracks | stellar/stellar.go:123-168 | The outer loop keeps the fold state in step with the edges of all recommenders emitted so far. |
| Stellar.AccountsToResultMeaning | stellar/stellar.go:112-171 | The result is:<br>• the applicable accounts with their resolved claims;<br>• the conflict map of the edges they produce;<br>• the sum of all resolved scores. |
| Stellar.RecommendersAreApplicableAccounts | stellar/stellar.go:128-134 | The recommenders are exactly the accounts with a claim key and at least 4 MTLAP, in input order, including those none of whose claims resolve. |
| Stellar.EdgesResolve | stellar/stellar.go:137-158 | Every edge goes from an applicable recommender to an input account, with that account's truncated MTLAP balance. |
| Stellar.ApplicableIsRecommender | stellar/stellar.go:128-167 | Every account with a claim key and at least 4 MTLAP is listed as a recommender, with all its resolved claims. |
| Stellar.ResolvedClaimsAreEdges | stellar/stellar.go:137-158 | Every claim of an applicable account that resolves becomes an edge of that account, scored by the claimed account's truncated balance, whether or not the account is conflicted. |
| Stellar.GraphKeepsResolvedClaims | stellar/stellar.go:112-171 | The graph `accountsToResult` returns lists every resolving claim of every applicable account. |
| Stellar.ConflictIffClaimedTwice | stellar/stellar.go:143-149 | An account is a conflict key if and only if two claims resolve to it. |
| Stellar.FirstClaimantFirst | stellar/stellar.go:144-147 | A conflict list starts with the recommender of the first claim on the account. |
| Stellar.ConflictClaimantsAreApplicable | stellar/stellar.go:123-149 | Every listed claimant is an input account that has a claim key and passes the MTLAP gate. |
| Cycle.BuiltGraphHasUniqueClaims | stellar/stellar.go:143-161 | In a built graph, the claims outside the conflict map target pairwise distinct accounts. |
| Cycle.SameLedgerPaysOnce | distributor/distributor.go:185-211 | Recomputing over the same ledger against the baseline rebuilt from this cycle's rows finds no delta and no level-up, and pays nothing. This holds whatever the new pool is. |
| Calculate.LastScore | distributor/distributor.go:153 | The `ok` flag of the nested baseline lookup is true exactly when the pair is present. |
| Calculate.Delta | distributor/distributor.go:185-195 | The delta is never negative. It is positive exactly when the current score exceeds the baseline; a missing baseline entry counts as 0. |
| Calculate.Units | distributor/distributor.go:178-195 | A recommender's `partCount` is never negative. |
| Calculate.OwedIsProduct | distributor/distributor.go:213 | The amount owed for n units, `float64(partCount)*AmountPerTag`, is n times the per-unit amount. |
| Calculate.AmountPerTag | distributor/distributor.go:164-166 | With positive total units, the total units are owed exactly the pool. Otherwise the per-unit amount is 0. A non-negative pool gives a non-negative per-unit amount. |
| Calculate.Deltas | distributor/distributor.go:197-204 | There is one delta row per level-up, each positive and none on a conflicted account. |
| Calculate.NewCount | distributor/distributor.go:185-188 | New claims are counted at most once per recommend row. |
| Calculate.LevelUpCount | distributor/distributor.go:190-195 | Level-ups are counted at most once per recommend row. |
| Calculate.RecommendRows | distributor/distributor.go:206-210 | No recommend row is on a conflicted account. There are no more rows than edges. |
| Calculate.Floor7 | distributor/distributor.go:213 | Truncation to 7 decimals lies below the value by less than 10^-7, has at most seven decimals, and keeps non-negative values non-negative. |
| Calculate.Payouts | distributor/distributor.go:213-220 | There is at most one payout per recommender, each a positive LABR amount with at most seven decimals. |
| Calculate.RowsFor | distributor/distributor.go:169-174 | A conflict entry gives one row per listed claimant. |
| Calculate.ConflictRowsCount | distributor/distributor.go:168-175 | When no key repeats in the iteration order, a conflict row (c, x) occurs once per listing of c under x, and only for listed keys. |
| Calculate.CalculateParts | distributor/distributor.go:130-224 | The conflict map is iterated over each key once. Every listing of a claimant in the conflict map gets exactly one `Conflicts` row, and no other row exists. The plan carries the pool and the clock, with no envelope and no report id. Its delta count equals its level-up count. Both counters are bounded by the recommend rows. Deltas and recommend rows avoid conflicted accounts. Payouts are positive LABR amounts with seven decimals. |
| PayoutProperties.PartCountsSumToUnits | distributor/distributor.go:177-195 | The recommenders' `partCount`s add up to the deltas of all edges. |
| PayoutProperties.UnitsEqualTotal | distributor/distributor.go:144-162 | With non-negative scores, the first pass's `totalNewMTLAP` equals the second pass's summed deltas. |
| PayoutProperties.DeltasSumToUnits | distributor/distributor.go:190-204 | The `RecommendDeltas` add up to the units the pool is split over. |
| PayoutProperties.PayoutsBelowOwed | distributor/distributor.go:213-220 | Truncation never pays more in total than is owed. |
| PayoutProperties.PayoutsWithinPool | distributor/distributor.go:144-221 | With a non-negative pool and non-negative scores, the LABR paid never exceeds the pool. |
| PayoutProperties.PayoutsCharacterized | distributor/distributor.go:213-220 | Each payout is the truncated share of a listed recommender. Every recommender whose truncated share is positive is paid. |
| PayoutProperties.DeltasCharacterized | distributor/distributor.go:190-204 | The deltas are exactly the risen non-conflicted edges, each with its increase. |
| PayoutProperties.RecommendRowsCharacterized | distributor/distributor.go:206-210 | The recommend rows are exactly the non-conflicted edges, each with its current score, whether it rose or not. |
| PayoutProperties.ConflictedClaimsIgnored | distributor/distributor.go:147-183 | Removing every claim on a conflicted account leaves the whole plan unchanged. |
| PayoutProperties.BaselineLookup | distributor/distributor.go:92-106 | The rebuilt baseline holds, for each pair, the score of its last row. Pairs without rows are absent. |
| PayoutProperties.RowsRecordScores | distributor/distributor.go:206-210 | When non-conflicted claims target distinct accounts, the recommend rows record each such claim's current score. |
| PayoutProperties.Stationary | distributor/distributor.go:144-195 | When every non-conflicted edge sits at its baseline:<br>• the total is 0 and the units are 0;<br>• there are no deltas;<br>• nothing is new or levelled up. |
| PayoutProperties.StationaryPayouts | distributor/distributor.go:177-221 | When every non-conflicted edge sits at its baseline, no recommender is paid. |
| PayoutProperties.SecondRunPaysNothing | distributor/distributor.go:130-224 | A second calculation against the baseline rebuilt from the first one's rows (see the list below this table). |
| PayoutProperties.EmptyBaselineAllNew | distributor/distributor.go:185-188 | Against an empty baseline, every non-conflicted claim is new, and every delta is a claimed score. |
| Scenarios.NewScores | distributor/distributor_test.go:21-46 | Test case "new MTLAP":<br>• per-unit amount 100/30;<br>• 2 new, 2 level-ups;<br>• deltas 10 and 20. |
| Scenarios.RaisedScores | distributor/distributor_test.go:47-77 | Test case "changed MTLAP":<br>• per-unit amount 100/15;<br>• 0 new, 2 level-ups;<br>• deltas 5 and 10. |
| Scenarios.ConflictIgnored | distributor/distributor_test.go:78-104 | Test case "conflicts ignored": only user2's 20 units count:<br>• per-unit amount 100/20;<br>• one new claim and one level-up;<br>• a single delta of 20;<br>• one conflict row for each claimant of user1. |
| Scenarios.NothingChanged | distributor/distributor_test.go:105-132 | Test case "zero amounts ignored":<br>• per-unit amount 0;<br>• no new claims, no level-ups;<br>• no deltas;<br>• no payouts. |
| ReportStore.Latest | distributor/distributor.go:87 | `GetReports(ctx, 1)` yields nothing exactly when the table is empty, else the most recent report. |
| ReportStore.Pending | cmd/mlmc/main.go:145-152 | The pending lookup yields the zero report or a stored report without a hash. |
| ReportStore.Append | distributor/distributor.go:275-312 | A committed report is appended under the next id, with the given rows and no hash. The store's invariant is kept. |
| ReportStore.SetHash | cmd/mlmc/main.go:175-180 | Exactly the report with that id gets the hash. Every other report and the id counter are unchanged. |
| ReportStore.AppendedIsPending | cmd/mlmc/main.go:145-168 | A freshly appended report is the one the pending lookup finds. |
| ReportStore.PendingIdNonZero | cmd/mlmc/main.go:152 | `ID != 0` holds exactly when some stored report is pending. |
| ReportStore.SetHashSettles | cmd/mlmc/main.go:175-180 | Hashing the pending report settles exactly that report; no other report changes. |
| Distributor.GetLastDistribute | distributor/distributor.go:86-110 | The behaviour of the baseline read:<br>• a read error stops the run;<br>• no report gives an empty baseline;<br>• otherwise the baseline is rebuilt from the latest report's rows. |
| Distributor.GetDistributeAmount | distributor/distributor.go:112-128 | The three outcomes of the balance read:<br>• a balance error or an unparseable text fails with that error;<br>• a zero balance fails with `ErrNoBalance`;<br>• otherwise the pool is a third of the balance. |
| Distributor.CheckTrustlineList | distributor/distributor.go:315-333 | The trustline check:<br>• it succeeds exactly when every lookup succeeds;<br>• a failure names the first payout whose lookup failed;<br>• on success, the missing list is exactly the payouts without a LABR trustline. |
| Distributor.Payments | distributor/distributor.go:236-242 | There is one LABR payment per payout, in order, to the recommender, for the payout's amount. |
| Distributor.GetXdr | distributor/distributor.go:226-264 | The envelope step:<br>• no payouts gives `ErrNoDistributes`, before any ledger call;<br>• a failed account lookup is an error;<br>• otherwise one envelope from the source account holds exactly the payments. |
| Distributor.CreateReport | distributor/distributor.go:266-313 | The report is written as one transaction:<br>• it succeeds exactly when begin, every statement and the commit succeed;<br>• on failure the store is unchanged;<br>• on success the whole report is appended under the returned id. |
| Distributor.StageReportInserts | distributor/distributor.go:275-310 | Replaying the transaction's statements stages exactly the header and the recommend, distribute and conflict rows of the result. |
| Distributor.Prepare | distributor/distributor.go:42-67 | A failure comes from the baseline read, the balance read, the graph fetch or the trustline check. A success carries the configured source address. |
| Distributor.Publish | distributor/distributor.go:73-83 | The envelope and then the report. On failure the store is unchanged; on success the report is published under the result's id. |
| Distributor.Locked | distributor/distributor.go:42-83 | The stages run as a prefix of the fixed order, and a failure comes from the last stage run. Success runs 4 stages in dry mode and 6 in report mode. Only a successful report-mode run writes. |
| Distributor.Distribute | distributor/distributor.go:30-84 | The whole `Distribute`:<br>• a failed lock returns its error, runs nothing and changes nothing;<br>• otherwise the trace is Lock, then a prefix of the stages, then Unlock. |
| Distributor.LockAlwaysReleased | distributor/distributor.go:37-40 | The lock is held during every stage and released at the end of every run. |
| Distributor.ErrorOrder | distributor/distributor.go:42-83 | A failure comes from the last stage that ran. Success runs every stage of its mode. |
| Distributor.ZeroBalanceStopsEarly | distributor/distributor.go:123-125 | A zero balance fails with `ErrNoBalance` after the baseline read, before any ledger fetch, and writes nothing. |
| Distributor.DryRunWritesNothing | distributor/distributor.go:69-71 | A dry run never touches the store and returns no envelope and no report id. |
| Distributor.ReportAllOrNothing | distributor/distributor.go:266-313 | A failed run or a dry run leaves the store as it was. A successful report-mode run appends one complete report under the id it returns, and that report becomes the pending one. |
| Mlmc.BuildResultFromReport | cmd/mlmc/main.go:194-218 | Rebuilding a result from a stored report:<br>• it succeeds exactly when the three row reads do;<br>• the first failing read is the error;<br>• the result carries the report's id, envelope, time and rows. |
| Mlmc.MaybeNotify | cmd/mlmc/main.go:187-191 | The notification is the last step, sent only with `--notify-tg`. Its failure is the command's error. |
| Mlmc.ReportDry | cmd/mlmc/main.go:103-122 | `report dry` leaves the store untouched and never submits. Its result has no report id and no envelope. |
| Mlmc.ReportCreate | cmd/mlmc/main.go:124-142 | `report create` never submits. Its report becomes the pending one. A failure leaves the store unchanged unless only the notification failed. |
| Mlmc.ReportAllOrNothingFresh | cmd/mlmc/main.go:164-167 | Without options, a successful run has persisted its report and a failed run has written nothing. |
| Mlmc.Obtain | cmd/mlmc/main.go:145-168 | How `distribute` obtains its result:<br>• a lookup error aborts;<br>• a pending report is rebuilt without touching the store;<br>• otherwise `Distribute` runs. |
| Mlmc.Settle | cmd/mlmc/main.go:170-191 | Settling the result:<br>• a failed submit changes nothing;<br>• otherwise the hash is recorded against the result's report id;<br>• a failed hash update leaves the store unchanged. |
| Mlmc.Command | cmd/mlmc/main.go:144-192 | Every `distribute` trace starts with the pending lookup. A failed lookup does nothing else. |
| Mlmc.DistributeCmd | cmd/mlmc/main.go:144-192 | With no pending report, `Distribute` runs in report mode as the second step. |
| Mlmc.CmdTrace | cmd/mlmc/main.go:144-192 | After a successful first half, the trace is:<br>• the lookup and the rebuild or run;<br>• `Submit`;<br>• `SetReportHash`, with the submitted hash;<br>• `Notify`, only after a recorded hash. |
| Mlmc.PendingReused | cmd/mlmc/main.go:152-160 | A pending report is reused: `Distribute` never runs, and the outcome does not depend on what it would return. The pending report's own envelope is submitted. |
| Mlmc.SettleOrder | cmd/mlmc/main.go:170-191 | A hash is recorded only directly after a successful submit, and it is the submitted hash. A notification is the last step and follows the recorded hash. |
| Mlmc.StoreChangesOnlyByHash | cmd/mlmc/main.go:175-180 | With a pending report, the store changes only by recording that report's hash. |
| Mlmc.FailedHashLeavesPending | cmd/mlmc/main.go:175-180 | A failed hash update after a successful submit leaves the same report pending. |
| Mlmc.ResumeAfterFailedSubmit | cmd/mlmc/main.go:145-173 | After a new run whose submit fails, the next `distribute` rebuilds that very report and submits its envelope, without recomputing. |
| Swap.Swappable | stellar/swap.go:80-94 | A token is swappable exactly when its credit balance is non-empty, parses and is positive; the balance is the parsed value. |
| Swap.KeepSwappable | stellar/swap.go:79-95 | The kept balances are exactly those of the swappable tokens. |
| Swap.KeepSwappableAppend | stellar/swap.go:79-95 | Filtering keeps the order of the token list. |
| Swap.GetSwappableBalances | stellar/swap.go:70-98 | Only a failed account request fails. Otherwise the balances are exactly the swappable ones among `SwappableTokens`. |
| Swap.GetSwapPrice | stellar/swap.go:102-133 | The price lookup:<br>• a failed request, no path and an unparseable amount are distinct errors;<br>• otherwise the price is the first record's destination amount. |
| Swap.FirstRecordRule | stellar/swap.go:125-132 | Records after the first never change the price. |
| Swap.PricePerLabr | stellar/swap.go:257-259 | A zero quote is an infinite price. Otherwise the price is the reciprocal of the quote. |
| Swap.MinDestAmount | stellar/swap.go:271-273 | The minimum accepted amount is 99% of the expected LABR, never above it and never negative. |
| Swap.Decide | stellar/swap.go:246-297 | Each balance ends in one of four ways:<br>• a price error exactly when the price lookup fails;<br>• an alert exactly when the price exceeds the threshold;<br>• a swap exactly when the price is within the threshold and the submission succeeds, recording the balance spent, the LABR received, the hash and the price;<br>• a swap error exactly when the price is within the threshold and the submission fails. |
| Swap.Tally | stellar/swap.go:235-298 | Each balance lands in exactly one list. The totals add up the swaps only. Errors are tagged `get_price` or `swap`. |
| Swap.Summarize | stellar/swap.go:246-298 | The summary accounts for every balance once, and its totals are the sums over its swaps. |
| Swap.ExecuteSwaps | stellar/swap.go:230-301 | The call fails exactly when the balance enumeration does. Otherwise the loop's summary is the per-balance decision applied to every swappable balance in order. |
| Swap.AlertsExactlyExceeded | stellar/swap.go:261-269 | There is an alert exactly for each balance whose price exceeds the threshold. |
| Swap.SwapsAreWithinThreshold | stellar/swap.go:258-296 | The summary lists a swap exactly for each balance whose price is within the threshold and whose submission succeeded. The swap carries that balance, the LABR received and the hash. No swapped price exceeds the threshold. |
| Swap.ErrorsExactlyFailed | stellar/swap.go:249-283 | A `get_price` error is recorded exactly for a balance whose price lookup failed. A `swap` error is recorded exactly for a balance within the threshold whose submission failed. |
| Swap.ThresholdIsInclusive | stellar/swap.go:261 | A price equal to the threshold raises no alert, and the swap is attempted. |
| Swap.ZeroQuoteAlerts | stellar/swap.go:257-269 | A zero quote always alerts, with an infinite price, and never swaps. |
| Config.Validate | config/config.go:22-33 | The configuration is valid exactly when the DSN, address and seed are all set. The first missing one, in that order, is the error. |
| Config.ValidateIgnoresOptionalFields | config/config.go:22-33 | Validation looks at the three required fields only. |
| Config.ParsedInt64 | config/config.go:38-39 | `ParseInt` with its error ignored: 0 on a syntax error, the value itself when it parses. The result always fits in int64. |
| Config.SwapPriceThreshold | config/config.go:41-44 | The threshold is the parsed value, or 25 when unparseable or 0. It is never 0. |
| Config.AlertMentionUsername | config/config.go:46-49 | The username is the variable, or "xdefrag" when it is empty. It is never empty. |
| Config.Get | config/config.go:35-61 | The required fields and the token are read verbatim. Parsed ids are kept, unparseable ids read as 0, and the ids stay within int64. The threshold is the parsed value, or 25.0 when it is unparseable or 0. The username is the variable, or "xdefrag" when it is empty. |
| Config.GetThenValidate | config/config.go:22-61 | A configuration read from the environment is valid exactly when `POSTGRES_DSN`, `STELLAR_ADDRESS` and `STELLAR_SEED` are non-empty. |

`PayoutProperties.SecondRunPaysNothing` requires that non-conflicted claims
target distinct accounts. Its second calculation produces:

- no payouts;
- no deltas;
- a per-unit amount of 0;
- no new claims and no level-ups;
- the same recommend rows.

## Left out

- I/O: Horizon, Postgres and Telegram are replaced by their answers, which are inputs. The Horizon paging loop of `Recommenders` is not modelled; the model starts from the full account list.
- Floating point: amounts are exact reals. float64 rounding is not modelled. The same goes for `ParseFloat` results of ±Inf or NaN, and for the sign of a negative zero.
- `strconv.ParseFloat` and Base64 decoding are abstract functions.
- int64 overflow of MTLAP sums, counters and ids is not modelled. Scores are unbounded integers.
- `Distributor.GetDistributeAmount`: `bal / 3 * 1e7 / 1e7` is exactly `bal / 3` over the reals. The rounding the two float64 steps add is not modelled.
- Go map iteration order is an explicit input. That covers the claim order of `lo.PickBy` and the key order of the conflict map. The key order must list every key once.
- `getLastDistribute` reads the recommend rows back in the order they were inserted, and a later row for the same pair wins. The query's own ordering is not part of the sources.
- The schema and SQL of `GetPendingReport` are not part of this model. It is modelled as "the most recent report without a hash", and `GetReports(ctx, 1)` as "the most recent report".
- Building, signing and encoding the XDR envelope is not modelled: the `memo`, fee and time bounds. The envelope is modelled as its source account and its payments; only the account-detail failure is modelled.
- `Distributor.CreateReport`: a failing insert is given by its position. Postgres error kinds are not modelled.
- `createdAt` is an abstract clock value passed in.
- Telegram formatting (`report.FromDistributeResult`, `FormatSwapReport`, `FormatPriceAlert`) and the texts of error messages are not modelled. Only the stage tags `get_price` and `swap` are kept.
- `SwapToLABR` (path search, signing, submission) is an input function. It takes the balance and the slippage floor and returns the hash and amount, or a failure.
- `Swap.Tally`: the total spent adds each swap's `fromAmount`, where the source adds the balance. `Swap.Decide` proves the two are the same.
- `mlm.go` as shown declares no `RecommendDeltas` field, but `distributor.go` fills one. The model follows `distributor.go` and keeps the field.
- Concurrency: the gap between `distribute`'s pending lookup and `Distribute` taking the lock is not modelled. Each command runs alone against one store.
- `Mlmc.FailedHashLeavesPending`: the model shows the submitted report stays pending. What the ledger does when the next run resubmits the same envelope is not modelled.
- `Config.Get`: loading the `.env` file is not modelled. For an out-of-range integer, only the fact that the result fits in int64 is stated.
- The CLI wiring (`main`, flags, logging) is not modelled. `--notify-tg` is a boolean input.
