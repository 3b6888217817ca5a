# prop-simulator in Dafny

A model of the core of prop-simulator, a Monte Carlo simulator of proprietary-trading-firm
("prop firm") accounts, together with proofs about it. A trader buys an evaluation account of some tier. They trade
randomly drawn days of historical (or generated) trades on it, and withdraw payouts into a bank
account whenever the firm's rules allow. A trial ends when the account is blown (`Busted`), when the number of payouts reaches its
limit (`MaxPayouts`) or when the simulated days run out (`TimeOut`). Many trials are
summarised into balance statistics and end-state percentages.

The model covers:

- **Account engines** (`FttAccounts`, `TopstepAccounts`). Each tier's rule constants are modelled. The state is a
  datatype; every rule is a pure function over it:
  - a trade against the loss line;
  - the end-of-day trailing drawdown;
  - the real-trading-day and winning-day counters;
  - the consistency rule;
  - the withdrawal amount and the withdrawal itself.

  A `class` with the Rust struct's fields has methods that update those fields in place. Each method is proved to
  leave exactly the state the pure function computes.
- **The account interface** (`PropAccounts`). The `PropAccount` trait object is a datatype holding either kind
  of account, with one dispatch method or function per trait method. It also models `create_account`.
- **The `company:tier` parser** (`AccountTypes`, with `Strings` for `split` and `to_lowercase`).
- **The simulator's trader** (`SimTrader`):
  - the daily stop-loss / profit-target adjustment;
  - a day's trades;
  - end of day, payout and end-of-game detection.

  A pure specification backs the `Trader` class and its loop.
- **The legacy trader and account** (`LegacyFtt`, `LegacyTrader`). These are the older top-level copies.
  Their account counts simulation days, so a trial provably terminates.
- **The Monte Carlo driver and the statistics half of `run_simulation`** (`Simulator`, `Statistics`):
  - per-end-state grouping and percentages;
  - conditioning on an end state;
  - mean, variance, mean absolute deviation, median, quartiles, median absolute deviation and the share of
    positive balances.
- **Trade records** (`SimTradeData`, `LegacyTradeData`): the per-row scaling by the multiplier and the round-trip
  cost, and `calculate_trades_per_day`.

Money is modelled as `real`. Counters and indices are `nat`.

Random choices are parameters. Each simulated day is a `DayDraw`: an index into the trades-per-day pool and one index
per drawn trade. A trial that uses up its supplied days without the game ending yields `None`.

## Model

| member | source | states |
|---|---|---|
| FttAccounts.WasRtd | src/simulator/prop_account/ftt_account.rs:26-28 | a day is a real trading day exactly when its P&L lies outside [min_loss, min_win] |
| FttAccounts.TierRules | src/simulator/prop_account/ftt_account.rs:43-118 | every tier has a positive drawdown and min_loss < 0 < min_win. Each tier's thresholds are ordered: the balance left after a withdrawal is at least 250 below the subsequent-payout threshold, which is at most the first-payout threshold. The caps satisfy 250 <= first 8 <= payouts 9 to 12 |
| FttAccounts.TierCost | src/simulator/prop_account/ftt_account.rs:121-128 | the four tier prices 179/449/599/799, all positive |
| FttAccounts.FromStr | src/simulator/prop_account/ftt_account.rs:135-143 | success means the lower-cased input is that tier's name; failure means it matches no tier name and carries the "Unknown FTT account type" message |
| FttAccounts.FromStrName | src/simulator/prop_account/ftt_account.rs:135-143 | every tier parses back from its own name |
| FttAccounts.TradeResult | src/simulator/prop_account/ftt_account.rs:169-191 | a winner blows the account iff balance + adverse excursion < loss line, a loser iff balance + return < loss line. The amount booked is the excursion for a blown winner and the return otherwise. Only the balance changes, by exactly that amount. Never PassedEval |
| FttAccounts.TrailedLoss | src/simulator/prop_account/ftt_account.rs:194-206 | a new high only raises the high-water mark and the loss line, with the loss line capped at 0. The loss line never drops and the rule "loss line <= 0 and below the balance-derived line" is preserved. It is frozen once the high-water mark reaches the drawdown. Nothing else changes |
| FttAccounts.IsConsistent | src/simulator/prop_account/ftt_account.rs:208-213 | consistent iff the best winning day is at most 0.2 x the balance |
| FttAccounts.WithdrawalAmount | src/simulator/prop_account/ftt_account.rs:215-241 | no payout iff fewer than 10 real trading days, or the balance is below the threshold for this payout number, or the consistency rule fails. Otherwise the payout is min(cap for this payout number, balance - minimum balance after withdrawal), so the balance left is never below that minimum |
| FttAccounts.WithdrawalAtLeast250 | src/simulator/prop_account/ftt_account.rs:215-241 | under any tier's own constants an allowed payout is at least 250 |
| FttAccounts.Withdrawn | src/simulator/prop_account/ftt_account.rs:243-249 | the amount is debited, the best winning day and the real-trading-day count reset, the payout count goes up by one and is returned |
| FttAccounts.WithTradingDay | src/simulator/prop_account/ftt_account.rs:251-261 | the real-trading-day count goes up by one iff the day was real. The best winning day becomes the max of itself and the day's P&L. Nothing else changes, including simulation days |
| FttAccounts.FttAccount.constructor | src/simulator/prop_account/ftt_account.rs:165-167 | a fresh account holds the tier's rules and initial state |
| FttAccounts.FttAccount.TradeOnAccount | src/simulator/prop_account/ftt_account.rs:169-191 | the status and new fields are exactly `TradeResult` of the old fields; the rules invariant is kept |
| FttAccounts.FttAccount.UpdateLossBalance | src/simulator/prop_account/ftt_account.rs:194-206 | the new fields are `TrailedLoss` of the old |
| FttAccounts.FttAccount.MakeWithdrawal | src/simulator/prop_account/ftt_account.rs:243-249 | the new fields and the returned count are `Withdrawn` of the old |
| FttAccounts.FttAccount.TryAddTradingDay | src/simulator/prop_account/ftt_account.rs:251-261 | the new fields are `WithTradingDay` of the old |
| FttAccounts.FttAccount.PassesConsistencyRule | src/simulator/prop_account/ftt_account.rs:208-213 | the account passes iff its best winning day is at most 0.2 x its balance |
| FttAccounts.FttAccount.AllowedWithdrawalAmount | src/simulator/prop_account/ftt_account.rs:215-241 | on the account's own fields: no payout iff fewer than 10 real trading days, a balance below the threshold for this payout number, or a failed consistency rule. Otherwise the payout is the smaller of the cap for this payout number and the balance minus the minimum after withdrawal, so it never takes the balance below that minimum |
| FttAccounts.FttAccount.ProcessTrade | src/simulator/prop_account/ftt_account.rs:265-267 | the trait's trade is the account's own trade |
| FttAccounts.FttAccount.UpdateEndOfDay | src/simulator/prop_account/ftt_account.rs:269-272 | trailing the loss line, then counting the day |
| FttAccounts.FttAccount.IncrementSimulationDay | src/simulator/prop_account/ftt_account.rs:290-292 | only the simulation-day count changes, by one |
| TopstepAccounts.TierRules | src/simulator/prop_account/topstep_account.rs:23-71 | the three tiers' drawdown and profit target (2000/3000, 3000/6000, 4500/9000), with 0 < drawdown < target |
| TopstepAccounts.TierCost | src/simulator/prop_account/topstep_account.rs:74-80 | the prices 49/99/149, never above the funded-account cost |
| TopstepAccounts.FromStr | src/simulator/prop_account/topstep_account.rs:90-97 | success iff the lower-cased input is a tier name; otherwise the "Unknown Topstep account type" message |
| TopstepAccounts.FromStrName | src/simulator/prop_account/topstep_account.rs:90-97 | every tier parses back from its own name |
| TopstepAccounts.CombineResult | src/simulator/prop_account/topstep_account.rs:120-151 | on the evaluation, blowing uses `<=` against the loss line (excursion for winners, return for losers). A surviving winner that reaches the target, or a surviving loser whose excursion reaches it, passes: the balance becomes exactly the target and the pass flag is set. Otherwise the trade is booked as Active. Only the balance and the flag change |
| TopstepAccounts.FundedResult | src/simulator/prop_account/topstep_account.rs:153-175 | the funded account's trade: the same `<=` blow-out tests, only the balance changes, never PassedEval |
| TopstepAccounts.ProcessResult | src/simulator/prop_account/topstep_account.rs:240-248 | before the pass the combine rules apply, after it the funded rules. The pass flag is never cleared and is set exactly when PassedEval is reported |
| TopstepAccounts.TrailedLoss | src/simulator/prop_account/topstep_account.rs:178-192 | the loss line trails new highs (capped at 0) until the high-water mark reaches the profit target. It never drops and nothing else changes |
| TopstepAccounts.IsConsistent | src/simulator/prop_account/topstep_account.rs:194-199 | consistent iff the best winning day is at most 0.5 x the balance |
| TopstepAccounts.InherentWithdrawalAmount | src/simulator/prop_account/topstep_account.rs:201-210 | a payout exists iff 30 winning days in total or 5 since the last payout. With 30 it is the whole balance, otherwise half of it |
| TopstepAccounts.WithdrawalAmount | src/simulator/prop_account/topstep_account.rs:255-261 | no payout before the evaluation is passed; after it, the inherent amount |
| TopstepAccounts.Withdrawn | src/simulator/prop_account/topstep_account.rs:212-222 | debits the amount and resets the best winning day and the winning days since the last payout. Returns 1 iff at most 0.01 is left, else 0 |
| TopstepAccounts.FullWithdrawalEndsGame | src/simulator/prop_account/topstep_account.rs:201-218 | after 30 winning days the payout empties the account and the withdrawal reports the end of the game |
| TopstepAccounts.WithTradingDay | src/simulator/prop_account/topstep_account.rs:224-236 | nothing changes before the pass. After it, both winning-day counters go up iff the P&L is at least 200, and the best winning day becomes the max |
| TopstepAccounts.InitialCombineBound | src/simulator/prop_account/topstep_account.rs:23-71 | a fresh account is below its profit target with its loss line in place |
| TopstepAccounts.ProcessKeepsCombineBound | src/simulator/prop_account/topstep_account.rs:120-151 | while not passed, a trade never leaves the balance at or above the target: reaching it passes the evaluation |
| TopstepAccounts.EndOfDayKeepsCombineBound | src/simulator/prop_account/topstep_account.rs:250-253 | the end-of-day update keeps that bound |
| TopstepAccounts.WithdrawalKeepsCombineBound | src/simulator/prop_account/topstep_account.rs:212-222 | so does a withdrawal |
| TopstepAccounts.TopstepAccount.constructor | src/simulator/prop_account/topstep_account.rs:116-118 | a fresh account holds the tier's rules and initial state |
| TopstepAccounts.TopstepAccount.TradeOnCombine | src/simulator/prop_account/topstep_account.rs:120-151 | status and new fields are `CombineResult` of the old |
| TopstepAccounts.TopstepAccount.TradeOnAccount | src/simulator/prop_account/topstep_account.rs:153-175 | status and new fields are `FundedResult` of the old |
| TopstepAccounts.TopstepAccount.UpdateLossBalance | src/simulator/prop_account/topstep_account.rs:178-192 | new fields are `TrailedLoss` of the old |
| TopstepAccounts.TopstepAccount.MakeWithdrawal | src/simulator/prop_account/topstep_account.rs:212-222 | new fields and the end-of-game flag are `Withdrawn` of the old |
| TopstepAccounts.TopstepAccount.TryAddTradingDay | src/simulator/prop_account/topstep_account.rs:224-236 | new fields are `WithTradingDay` of the old |
| TopstepAccounts.TopstepAccount.PassesConsistencyRule | src/simulator/prop_account/topstep_account.rs:194-199 | the account passes iff its best winning day is at most 0.5 x its balance |
| TopstepAccounts.TopstepAccount.AllowedWithdrawalAmount | src/simulator/prop_account/topstep_account.rs:201-210 | on the account's own fields: a payout iff 30 winning days in total or 5 since the last payout; the whole balance at 30, otherwise half of it |
| TopstepAccounts.TopstepAccount.ProcessTrade | src/simulator/prop_account/topstep_account.rs:240-248 | new fields are `ProcessResult` of the old |
| TopstepAccounts.TopstepAccount.UpdateEndOfDay | src/simulator/prop_account/topstep_account.rs:250-253 | trail, then count the day |
| TopstepAccounts.TopstepAccount.IncrementSimulationDay | src/simulator/prop_account/topstep_account.rs:275-277 | only the simulation-day count changes, by one |
| PropAccounts.CreateAccount | src/simulator/prop_account/mod.rs:34-40 | a fresh account of the requested company and tier, in its initial state: balance 0, simulation day 0, funded cost 0 for FTT and 149 for Topstep |
| PropAccounts.GetCost | src/simulator/prop_account/topstep_account.rs:279-281 | the boxed account's tier price, positive; the FTT impl is at src/simulator/prop_account/ftt_account.rs:294-296 |
| PropAccounts.GetFundedAcctCost | src/simulator/prop_account/topstep_account.rs:282-284 | 149 for Topstep, 0 for FTT (src/simulator/prop_account/ftt_account.rs:298-300) |
| PropAccounts.AllowedWithdrawalAmount | src/simulator/prop_account/topstep_account.rs:255-261 | FTT: its withdrawal rule (src/simulator/prop_account/ftt_account.rs:274-276). Topstep: nothing before the pass, the inherent amount after |
| PropAccounts.ProcessTrade | src/simulator/prop_account/topstep_account.rs:240-248 | dispatches to the boxed account's trade rule; the FTT impl is at src/simulator/prop_account/ftt_account.rs:265-267 |
| PropAccounts.UpdateEndOfDay | src/simulator/prop_account/topstep_account.rs:250-253 | dispatches to the boxed account's end of day; the FTT impl is at src/simulator/prop_account/ftt_account.rs:269-272 |
| PropAccounts.MakeWithdrawal | src/simulator/prop_account/topstep_account.rs:263-265 | dispatches to the boxed account's withdrawal; the FTT impl is at src/simulator/prop_account/ftt_account.rs:278-280 |
| PropAccounts.IncrementSimulationDay | src/simulator/prop_account/topstep_account.rs:275-277 | one more simulation day, the balance unchanged; the FTT impl is at src/simulator/prop_account/ftt_account.rs:290-292 |
| Strings.ToLower | src/simulator/prop_account/account_type.rs:22 | same length, each ASCII capital mapped to its lower case |
| Strings.Split | src/simulator/prop_account/account_type.rs:18 | one more part than separators, no part containing the separator |
| Strings.SplitAround | src/simulator/prop_account/account_type.rs:18-19 | two separator-free pieces joined by one separator split back into exactly those two |
| Strings.SplitJoin | src/simulator/prop_account/account_type.rs:18-19 | an input with exactly one separator is its two split pieces joined by it |
| AccountTypes.FromStr | src/simulator/prop_account/account_type.rs:17-37 | the format error happens iff the input does not contain exactly one ':'. With exactly one, "Unknown company" happens iff the lower-cased company is neither "ftt" nor "topstep", and a failure under "ftt" or "topstep" carries that tier parser's message. Every error is one of the four messages |
| AccountTypes.ParseCompanyTier | src/simulator/prop_account/account_type.rs:22-36 | "Unknown company" iff the lower-cased company is neither "ftt" nor "topstep". Under either company a failure is that tier parser's error, passed on unchanged. A success is the account type whose canonical spelling is `company:tier` lower-cased |
| AccountTypes.FromStrCanonical | src/simulator/prop_account/account_type.rs:17-37 | an input parses as `a` iff its lower-cased form is `a`'s canonical `company:tier` spelling (parse then format, and format then parse) |
| AccountTypes.FromStrSpelling | src/simulator/prop_account/account_type.rs:17-37 | a parsed input, lower-cased, is the canonical spelling of its result |
| AccountTypes.FromStrOfSpelling | src/simulator/prop_account/account_type.rs:17-37 | an input that lower-cases to a canonical spelling parses as the account type it spells |
| AccountTypes.FromStrParts | src/simulator/prop_account/account_type.rs:18-36 | `company:tier` parses as the company/tier dispatch on those two parts |
| AccountTypes.CompanyCaseInsensitive | src/simulator/prop_account/account_type.rs:22-25 | companies that lower-case alike parse alike |
| AccountTypes.FromStrFormat | src/simulator/prop_account/account_type.rs:17-37 | every account type parses back from `company:tier` |
| AccountTypes.FormatErrorExamples | src/simulator/prop_account/account_type.rs:19-21 | "ftt" and "ftt:gt:x" are format errors |
| AccountTypes.UpperCaseCompanyExample | src/simulator/prop_account/account_type.rs:22-28 | "FTT:gt" is the FTT GT tier |
| AccountTypes.UnknownCompanyExample | src/simulator/prop_account/account_type.rs:35 | "apex:fifty" is an unknown company |
| AccountTypes.WrongCompanyTierExample | src/simulator/prop_account/account_type.rs:26-29 | "ftt:fifty" carries the FTT parser's error |
| SimTrader.AdjustedTrade | src/simulator/trader.rs:74-101 | StopHit iff a stop is set and the return or the excursion reaches it. TpHit iff no stop hit and a target is set that the return or the excursion reaches. On a hit the return lands the day's P&L exactly on the limit. When neither limit is hit the trade is unchanged |
| SimTrader.RunTrades | src/simulator/trader.rs:111-149 | only the balance moves, by the P&L gathered when not blown. No more trades than the limit. A day that stops on its stop or target ends with the day's P&L equal to it |
| SimTrader.RunTradesWithinLimits | src/simulator/trader.rs:111-149 | starting within the daily stop and target, a surviving day ends within them |
| SimTrader.Settle | src/simulator/trader.rs:159-183 | the payout is credited to the bank exactly as debited from the account. MaxPayouts iff a payout happened and the count reached the limit. TimeOut iff not that and the simulation days reached the limit. Never Busted |
| SimTrader.TradeDayResult | src/simulator/trader.rs:104-184 | Busted iff the account blew mid-day, and then no end-of-day update. Otherwise bank + account together grow by exactly the day's P&L. Simulation days never change, so TimeOut only when the limit was already reached |
| SimTrader.NeverTimesOut | src/simulator/trader.rs:173-178 | with a positive day limit and simulation day 0, no day ever times out |
| SimTrader.Trader.constructor | src/simulator/trader.rs:45-72 | a fresh account of the tier, bank balance minus the tier price, the given limits |
| SimTrader.Trader.AdjTradeForDailyStopOrTarget | src/simulator/trader.rs:74-101 | its result is `AdjustedTrade` |
| SimTrader.Trader.TradeDay | src/simulator/trader.rs:104-184 | the new account, bank balance and end of game are `TradeDayResult` of the old |
| SimTrader.Trader.EndOfDay | src/simulator/trader.rs:150-184 | the end-of-day half is `Settle` after trailing and counting the day |
| LegacyFtt.TradeResult | src/ftt_account.rs:150-172 | the same trade rule as the simulator's FTT account, with a Blown that carries no amount |
| LegacyFtt.WithTradingDay | src/ftt_account.rs:232-243 | the simulator's day counting plus one simulation day |
| LegacyFtt.FttAccount.constructor | src/ftt_account.rs:146-148 | the tier's rules and initial state |
| LegacyFtt.FttAccount.TradeOnAccount | src/ftt_account.rs:150-172 | new fields are `TradeResult` of the old |
| LegacyFtt.FttAccount.UpdateLossBalance | src/ftt_account.rs:175-187 | new fields are the trailed loss of the old |
| LegacyFtt.FttAccount.MakeWithdrawal | src/ftt_account.rs:224-230 | new fields and the count are the withdrawal of the old |
| LegacyFtt.FttAccount.TryAddTradingDay | src/ftt_account.rs:232-243 | new fields are `WithTradingDay` of the old |
| LegacyFtt.FttAccount.PassesConsistencyRule | src/ftt_account.rs:189-194 | the account passes iff its best winning day is at most 0.2 x its balance |
| LegacyFtt.FttAccount.AllowedWithdrawalAmount | src/ftt_account.rs:196-222 | no payout iff fewer than 10 real trading days, a balance below the threshold for this payout number, or a failed consistency rule. Otherwise the payout is the smaller of the cap for this payout number and the balance minus the minimum after withdrawal, so it never takes the balance below that minimum |
| LegacyTrader.TradeDayResult | src/trader.rs:102-161 | as for the simulator's trader, but every day that is not Busted adds one simulation day. TimeOut means the limit is reached; no end means it is not |
| LegacyTrader.RunDays | src/trader.rs:102-161 | the first day that ends the game, and after how many days |
| LegacyTrader.TrialTerminates | src/trader.rs:102-161 | given enough days a trial always ends, within the days left before the limit, because every day that is not Busted adds one simulation day (src/ftt_account.rs:232-234) |
| LegacyTrader.Trader.constructor | src/trader.rs:43-70 | a fresh account, bank balance minus the tier price |
| LegacyTrader.Trader.AdjTradeForDailyStopOrTarget | src/trader.rs:72-99 | its result is `AdjustedTrade` |
| LegacyTrader.Trader.TradeDay | src/trader.rs:102-161 | new account, bank and end of game are `TradeDayResult` of the old |
| LegacyTrader.Trader.EndOfDay | src/trader.rs:136-161 | the end-of-day half is `Settle` after trailing and counting the day |
| SimTradeData.ReadRecords | src/simulator/trade_data.rs:47-69 | one record per row, in order, each value x multiplier - round-trip cost, timestamp kept |
| SimTradeData.CalculateTradesPerDay | src/simulator/trade_data.rs:129-138 | the map equals the count of records per calendar date |
| SimTradeData.DayCountsKeys | src/simulator/trade_data.rs:129-138 | the keys are exactly the dates that occur, each counted at least once |
| SimTradeData.DayCountsTotal | src/simulator/trade_data.rs:129-138 | the counts add up to the number of records |
| SimTradeData.DayCountsOrderIndependent | src/simulator/trade_data.rs:129-138 | reordering the records does not change the counts |
| LegacyTradeData.ReadRecords | src/trade_data.rs:19-42 | one record per row, in order, each value x multiplier |
| LegacyTradeData.CalculateTradesPerDay | src/trade_data.rs:45-54 | the map equals the count of records per calendar date |
| Simulator.TradesToday | src/simulator/mod.rs:293-295 | the day's trades are the drawn records' trades, one per draw |
| Simulator.NumTradesToday | src/simulator/mod.rs:292 | the day's trade count is drawn from the trades-per-day pool, and is 0 when the pool is empty |
| Simulator.TrialResult | src/simulator/mod.rs:291-308 | a finished trial reports the account's simulation days, and TimeOut only when they already reached the limit |
| Simulator.TrialStopsAtFirstEnd | src/simulator/mod.rs:291-302 | draws after the day that ends the game do not change the result |
| Simulator.DayNeverDebitsBank | src/simulator/trader.rs:161-171 | under a tier's constants a day never lowers the bank balance |
| Simulator.TrialBankNeverBelowStart | src/simulator/mod.rs:282-305 | a trial's final bank balance is never below its starting balance |
| Simulator.NoTimeOutOnFreshAccount | src/simulator/mod.rs:282-308 | with a positive day limit a trial on a fresh account never times out, reports length 0 and ends at no less than minus the tier price |
| Simulator.RunTrial | src/simulator/mod.rs:280-308 | the trial loop's result is `TrialResult` from a fresh trader |
| Simulator.MonteCarloSimulation | src/simulator/mod.rs:267-310 | exactly one result per iteration, each the trial of its own draws |
| Simulator.EndStatesPartition | src/simulator/mod.rs:124-136 | the three end-state groups partition the results: sizes add up, balances together are the final balances |
| Simulator.WithState | src/simulator/mod.rs:124-136 | the results with a given end state, in order: exactly the results in that state |
| Simulator.CollectResults | src/simulator/mod.rs:118-136 | the results loop yields all balances and lengths in order, and per end state its count, balances and lengths |
| Simulator.PercentageOfCount | src/simulator/mod.rs:139-143 | each state's percentage is its count over the iterations x 100, and 0 when absent |
| Simulator.PercentagesSumTo100 | src/simulator/mod.rs:139-143 | with one result per iteration the three percentages add up to 100 |
| Simulator.EndStatePercentages | src/simulator/mod.rs:139-143 | one percentage per end state that occurred, each between 0 and 100 when its count is at most the iterations |
| Simulator.Share | src/simulator/mod.rs:141 | a count's percentage of the iterations is never negative and at most 100 when the count is at most the iterations |
| Simulator.ParseEndStateFilter | src/simulator/mod.rs:146-158 | conditions on a state iff the lower-cased word is that state's name. "all" and unknown words condition on nothing |
| Simulator.Conditioned | src/simulator/mod.rs:161-168 | without a target state the statistics run over all results; with one, over exactly the results in that state |
| Simulator.SummarizeResults | src/simulator/mod.rs:117-223 | fails with the no-data message iff no result matches the condition. Otherwise every statistic is over the conditioned balances (order statistics over their sorted copy) and the percentages over all results |
| Statistics.SumPermutation | src/simulator/mod.rs:176 | the sum depends only on the multiset of balances, not on their order |
| Statistics.SortedMean | src/simulator/mod.rs:192-193 | the sorted copy used for the median and quartiles has the same length and the same mean as the balances |
| Statistics.Mean | src/simulator/mod.rs:176-177 | the mean lies between the minimum and the maximum |
| Statistics.MeanTimesLength | src/simulator/mod.rs:176 | the mean times the number of balances is their sum, i.e. the mean is sum / n |
| Statistics.Variance | src/simulator/mod.rs:179-183 | the variance is never negative |
| Statistics.Mad | src/simulator/mod.rs:186-190 | the mean absolute deviation is never negative |
| Statistics.NoSpreadWhenConstant | src/simulator/mod.rs:176-190 | balances that are all equal to `c` have mean `c`, variance 0 and mean absolute deviation 0 |
| Statistics.DeviationsVanish | src/simulator/mod.rs:179-190 | data equal to the centre everywhere has zero squared and absolute deviation sums |
| Statistics.SortAscending | src/simulator/mod.rs:192-193 | sorted and a permutation of its input |
| Statistics.SortedUnique | src/simulator/mod.rs:192-193 | a sorted permutation is unique, so any correct sort gives the same statistics |
| Statistics.Median | src/simulator/mod.rs:195-200 | on sorted data the median lies between the two middle elements, above the lower half and below the upper half |
| Statistics.Quartiles | src/simulator/mod.rs:202-205 | q1 and q3 are the elements at n/4 and 3n/4, and on sorted data q1 <= median <= q3 |
| Statistics.Iqr | src/simulator/mod.rs:206 | never negative on sorted data |
| Statistics.AbsDeviations | src/simulator/mod.rs:208-211 | one absolute deviation per element |
| Statistics.MadMedian | src/simulator/mod.rs:208-219 | the median absolute deviation is never negative |
| Statistics.CountPositive | src/simulator/mod.rs:222 | at most the number of balances |
| Statistics.PositivePercentage | src/simulator/mod.rs:222-223 | between 0 and 100 |
| Statistics.MeanExample | src/simulator/mod.rs:176 | the mean of -500, -100, 0, 200, 800 is 80 |
| Statistics.OrderExample | src/simulator/mod.rs:195-206 | their median is 0, their quartiles -100 and 200, and their IQR 300 |

## Notes on the source

- The simulator's trader (src/simulator/trader.rs) drives the simulator's FTT account directly. src/simulator/mod.rs builds it
  from an `AccountType` and reads `trader.prop_account`, a field the trader does not have. The model drives
  the trader with an FTT tier and reads the simulation days of the trader's FTT account.
- That trader matches only `Blown` and `Active`. `PassedEval` cannot arise from an FTT account, as
  `FttAccounts.TradeResult` proves.
- The simulator's FTT account never advances `simulation_days`, and that trader never calls
  `increment_simulation_day`. So a trial can only time out when `max_simulation_days` is 0
  (`SimTrader.NeverTimesOut`, `Simulator.NoTimeOutOnFreshAccount`). Otherwise it runs until the account is blown or
  the payouts reach their limit.
- src/simulator/trader.rs:3 imports `AccountStatus`, `FttAccount` and `FttAccountType` from a `super::ftt_account`
  module that does not exist in the simulator; they live under `prop_account`. The model uses the `prop_account`
  definitions.
- src/simulator/mod.rs:81 and 83 pass the `Option<f64>` field `round_trip_cost` to `read_csv_from_string` and
  `read_csv`, which take an `f64`. `SimTradeData.ReadRecords` takes the cost as a plain `real`.
- The legacy account `src/ftt_account.rs` does count a simulation day in `try_add_trading_day`, and its trial always ends
  (`LegacyTrader.TrialTerminates`).

## Left out

- CSV reading, datetime parsing, file and string I/O: a row arrives already parsed (`RawRow`). Malformed
  rows, which the source reports as errors, are not modelled.
- `generate_simulated_trades`, `rand` and `rayon`: random draws are supplied as `DayDraw` parameters and
  iterations run sequentially. A trial that exhausts its supplied draws yields `None` where the source would keep drawing.
- Simulator.SummarizeResults: reports the variance, not `std_dev = variance.sqrt()` (there is no square root on `real`).
- Floating point: all money is exact `real`, so rounding, NaN and the `partial_cmp(...).unwrap()` panic on
  NaN are not modelled.
- FttAccounts.Withdrawn: `payout_count` is a `u8` in the source; its wrap-around after 255 payouts is not
  modelled (counters are unbounded `nat`).
- Logging (`debug!`, `info!`, `eprintln!`), histogram plotting, the CLI and the web front end.
- The `PropAccount` trait is a datatype of the two account classes with module-level dispatch.
  `get_current_balance` and `get_simulation_days` are plain reads with no contract of their own.
- `SimTrader.Trader.TradeDay` takes the day's trades as a sequence. The source adjusts each trade in place
  inside a `&mut Vec<Trade>` that the caller clones and then drops, so that update is not observable and
  is not modelled.
- `sort_by` is modelled by an insertion-sort function; `Statistics.SortedUnique` shows that any sort
  from the source's library gives the same list.
- `to_lowercase` is ASCII-only. Non-ASCII lowering is not modelled, and no tier or company name contains a
  non-ASCII letter.
- The `SimulationConfig` handling in `run_simulation` before the statistics (trade source selection and
  required-field errors) is I/O plumbing and is not modelled.
- `Simulator.SummarizeResults` requires that `iterations` is positive unless there are no results. The
  source never reaches the excluded state: `monte_carlo_simulation` returns exactly `iterations` results
  (src/simulator/mod.rs:278-309), so with 0 iterations the percentage loop at src/simulator/mod.rs:139-143
  has nothing to divide.
