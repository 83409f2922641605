# Backtesting engine of jupiter-trading-bot, in Dafny

This project models the backtesting engine of the trading bot and proves properties of the model. The engine has four parts:

- a position ledger: a running balance, a dictionary from symbol to open position, and an append-only trade history;
- four exit rules, combined in a first-match-wins chain;
- replay drivers that walk one symbol's bars, or a merged timeline of all symbols;
- performance metrics computed over the trade history.

Two strategies feed it signals:

- the three-green-candles rule of `backtest_bona.py`, whose replays close before they open;
- the MACD-crossover and RSI-band rule of `backtest_ananke.py`, whose replays open before they run the exit chain.

Prices and balances are `real`, timestamps are `int` seconds, and signals are `Buy | Sell | NoSignal`.

Modules:

- `Domain` (domain.dfy): bars, positions, trade-history entries and the ledger value `Book`. It also defines the ledger invariant `Valid` and the conserved quantity `Capital`.
  - `Valid`: the dictionary order lists each held symbol once, entry prices are non-zero, and per symbol the history holds one more opening than closing entry exactly when the symbol is held. So there is at most one position per symbol.
  - `Capital`: balance + escrowed `usd_in` − realized profit.
- `ExitPolicy` (exits.dfy): the exit rules and the chain that `manage_positions` applies.
- `Ledger` (ledger.dfy): `open_position`, the close payoffs, `manage_positions` for one bar, and `close_all_positions`, all as functions on `Book` values. Lemmas show that each keeps `Valid` and `Capital`.
- `Portfolio` (portfolio.dfy): class `Account`, whose fields are the balance, the positions map, the dictionary order and the history. Its methods update those fields in place, and each is proved equal to the matching `Ledger` function.
- `Timeline` (timeline.dfy): `create_unified_timeline`, bar lookup by timestamp, and the entry phase shared by both portfolio replays.
- `Metrics` (metrics.dfy): `calculate_metrics`. pandas floats are modelled as `Ext`: finite, ±infinity or NaN.
- `Bona` (bona.dfy) and `Ananke` (ananke.dfy): the two signal rules, their replay loops as methods on an `Account`, and the specification functions those methods are proved against.

A Python dictionary is modelled as a `map` plus a `seq` of keys in insertion order. That order fixes the order in which the loops over `list(positions.items())` write history entries. `del positions[s]` removes `s` from both.

Two behaviours of the code are easy to misread:

- Drawdowns: the drawdown column divides by the running peak (settings/backtest.py:346-347). A zero peak gives NaN or −infinity, and a negative peak gives a positive drawdown, so the drawdown is not always ≤ 0. `Metrics.Ratio` models this pandas division. `Metrics.MaxDrawdownBounds` proves the bound ≤ 0 only when the equity curve starts above zero.
- Closing entries: the CLOSE entries written by `manage_positions` and by `close_positions` carry time, symbol, side, price and profit, plus the reason in `manage_positions`. They have no quantity, no cash flow and no balance. `Domain.Entry.Closed` has exactly those fields.

## Model

| member | source | states |
|---|---|---|
| ExitPolicy.OppositeSignalExit | settings/backtest.py:120-126 | fires exactly when the signal is BUY or SELL and is not the signal that opens the position's side |
| ExitPolicy.TakeProfitTarget | settings/backtest.py:107-117 | for a positive entry price, fires exactly when a LONG's price reaches entry·(1+p), or a SHORT's falls to entry·(1−p) |
| ExitPolicy.TrailingStopLoss | settings/backtest.py:80-104 | only the extreme changes, and it is always set afterwards. It is the current price or the previous extreme. It never moves against the position (≥ both for LONG, ≤ both for SHORT). It fires iff price ≤ highest·(1−trail) for LONG, or price ≥ lowest·(1+trail) for SHORT |
| ExitPolicy.ShouldClosePosition | settings/backtest.py:73-77 | true iff the position was held for at least maxHoldHours·3600 seconds |
| ExitPolicy.ExitDecision | settings/backtest.py:160-181 | the chain returns a reason and the position afterwards. Only the extreme can differ from the position before. An opposite-signal or take-profit exit leaves the position exactly as it was. When no rule holds, the extreme has been set |
| ExitPolicy.ExitPriority | settings/backtest.py:163-181 | each reason is chosen iff its rule holds and every earlier rule fails, with no reason iff all four fail. The extreme is updated only when opposite-signal and take-profit are both false |
| ExitPolicy.NoExitOnEntryBar | settings/backtest.py:163-181 | a position opened on this bar at a positive price is not closed by the chain; only its extreme is set, to the entry price |
| ExitPolicy.TrackIsSeenPrice | settings/backtest.py:84-100 | after the trailing stop has looked at a non-empty price sequence, the extreme of a fresh position is one of those prices |
| ExitPolicy.TrackIsRunningExtreme | settings/backtest.py:84-100 | starting fresh, the LONG extreme is the maximum of the prices seen and the SHORT extreme the minimum |
| ExitPolicy.TrackKeepsFields | settings/backtest.py:80-104 | repeated trailing-stop calls change no field of the position except the extreme |
| Ledger.Payout | settings/backtest.py:185-193 | a close credits the committed usd_in plus the realized profit, for both sides |
| Ledger.Profit | settings/backtest.py:185-192 | the profit of a close: qty·price − usd_in for a LONG, qty·entry − qty·price for a SHORT. Its link to the balance is Ledger.Payout, and its sum over the history is Metrics.ProfitsSum |
| Ledger.Open | settings/backtest.py:6-70 | BUY/SELL for a symbol not held with risk·balance ≥ 0.01 adds a LONG/SHORT with usd_in = invest, qty = invest/price and the entry price and time of the bar. It takes invest off the balance and appends one opening entry with flow −invest and the new balance. In every other case the book is unchanged |
| Ledger.OpenSizing | settings/backtest.py:18-19 | the opened quantity times the entry price is exactly the invested amount |
| Ledger.CloseAt | settings/backtest.py:183-207 | closing one symbol leaves every other symbol's position as it was |
| Ledger.Manage | settings/backtest.py:148-209 | manage_positions for one bar touches only the bar's symbol |
| Ledger.ManageKeeps | settings/backtest.py:183-207 | when the chain names no reason, the position stays, with the extreme the trailing stop wrote into it |
| Ledger.ForcedEntryAsWritten | settings/backtest.py:244-275 | the FORCE entry as the source writes it: time of the last bar, symbol, side, profit and new balance. Its flow equals the payout for a LONG and falls short of it by usd_in for a SHORT |
| Ledger.ForcedEntry | settings/backtest.py:244-253 | the intended FORCE entry: identical to the written one except the flow, which is profit + usd_in (the balance change) for both sides |
| Ledger.ForceOne | settings/backtest.py:224-278 | one iteration of the liquidation loop, writing the FORCE entry as the source does. Every other symbol is left as it was |
| Ledger.ForceOneCorrected | settings/backtest.py:255-275 | the liquidation step with the corrected FORCE entry. Like Ledger.ForceOne, it leaves every other symbol as it was |
| Ledger.CorrectionOnlyChangesFlow | settings/backtest.py:255-275 | the corrected step agrees with Ledger.ForceOne in balance, positions, order and earlier history. Its appended entry differs only in the flow |
| Ledger.HasData | settings/backtest.py:225 | the skip test of the liquidation loop: a symbol has data when it is a key of the loaded data with at least one bar |
| Ledger.ForceAll | settings/backtest.py:224-278 | the loop over a sequence of keys, one Ledger.ForceOne per key in order. Its properties are Ledger.ForceAllKeepsLedger and Ledger.ForceAllRemoves |
| Ledger.CloseAll | settings/backtest.py:221-280 | returns at once without positions, otherwise Ledger.ForceAll over the dictionary order. Its properties are Ledger.CloseAllRemovesExactly, Ledger.CloseAllKeepsLedger and Ledger.CloseAllIdempotent |
| Ledger.OpenKeepsLedger | settings/backtest.py:6-70 | opening keeps the ledger invariant (at most one position per symbol) and the capital |
| Ledger.CloseAtKeepsLedger | settings/backtest.py:183-207 | closing keeps the ledger invariant and the capital |
| Ledger.ManageKeepsLedger | settings/backtest.py:148-209 | manage_positions keeps the ledger invariant and the capital |
| Ledger.ForceOneKeepsLedger | settings/backtest.py:224-278 | one forced close keeps the ledger invariant and the capital |
| Ledger.ForceAllKeepsLedger | settings/backtest.py:224-278 | liquidation over any key sequence keeps the ledger invariant and the capital |
| Ledger.CloseAllKeepsLedger | settings/backtest.py:212-280 | close_all_positions keeps the ledger invariant and the capital |
| Ledger.ForceAllRemoves | settings/backtest.py:224-278 | after liquidating over ks, a symbol is held iff it was held and is not a key of ks with data; kept positions are unchanged |
| Ledger.CloseAllRemovesExactly | settings/backtest.py:221-280 | close_all_positions removes exactly the positions whose symbol has non-empty data and leaves the others unchanged |
| Ledger.ForceAllIdle | settings/backtest.py:224-227 | a liquidation loop in which no held key has data changes nothing: every key is skipped or not held |
| Ledger.CloseAllIdempotent | settings/backtest.py:221-280 | a second close_all_positions right after the first changes nothing |
| Ledger.OpenFlowMatchesBalance | settings/backtest.py:26-38 | the OPEN entry records the balance change as its flow and the new balance as its balance |
| Ledger.ForcedFlowMatchesBalance | settings/backtest.py:255-275 | the FORCE entry of Ledger.ForceOneCorrected records the balance change as its flow and the new balance as its balance |
| Ledger.FlowsMatchBalance | settings/backtest.py:26-38 | the OPEN entry and the FORCE entry of Ledger.ForceOneCorrected record the balance change as their cash flow, and the new balance as their balance |
| Ledger.ForcedShortFlowMismatch | settings/backtest.py:255-275 | liquidating a SHORT of qty 0.1 from 100 with usd_in 10 at 100: Ledger.ForceOne records a flow of 0 while the balance rises by 10. Ledger.ForceOneCorrected records 10 |
| Ledger.LongRoundTripScenario | settings/backtest.py:13-39 | balance 100, risk 0.1, BUY at 10 gives qty 1 and balance 90; a SELL at 11 closes by opposite signal with profit 1 and balance 101 |
| Ledger.ShortTimeExitScenario | settings/backtest.py:179-193 | a SHORT of qty 0.1 from 100, still open 48 hours later at 120, closes by time exit with profit −2 and balance +8 |
| Portfolio.Account.constructor | backtest_bona.py:180-182 | a fresh account holds the initial balance, no positions and no history, as both drivers set up (`balance = initial_balance`, `positions = {}`, `trade_history = []`; the same three lines are backtest_ananke.py:171-173) |
| Portfolio.Account.OpenPosition | settings/backtest.py:6-70 | the in-place open_position leaves the account in the state Ledger.Open describes |
| Portfolio.Account.Settle | settings/backtest.py:183-207 | the in-place close: balance += payout, one closing entry, the symbol deleted from the dictionary |
| Portfolio.Account.ManageHeld | settings/backtest.py:160-207 | the rule chain on the held entry, with the trailing stop writing its extreme before time-exit is tested, gives Ledger.Manage |
| Portfolio.Account.ManagePositions | settings/backtest.py:148-209 | the loop over a snapshot of the dictionary gives Ledger.Manage |
| Portfolio.Account.ForceClose | settings/backtest.py:224-278 | the in-place iteration of the liquidation loop, with the skip of a symbol without data and the FORCE entry as written, gives Ledger.ForceOne |
| Portfolio.Account.CloseAllPositions | settings/backtest.py:212-280 | the whole in-place liquidation loop, with the early return when no position is open and the FORCE entries as written, gives Ledger.CloseAll |
| Timeline.Times | settings/backtest.py:399 | the index of one symbol's bars as a set. Timeline.TimesBound states its members and size |
| Timeline.Stamps | settings/backtest.py:397-399 | the union of the indices of the keys. Timeline.StampsBound states its members and size |
| Timeline.TimesBound | settings/backtest.py:398-399 | a symbol's timestamp set has at most as many members as the symbol has bars, and holds exactly their timestamps |
| Timeline.StampsBound | settings/backtest.py:397-399 | the union has at most as many members as there are bars in total, and holds exactly the timestamps of some symbol's bars |
| Timeline.Least | settings/backtest.py:400 | returns a member of the set that is ≤ every member |
| Timeline.CollectStamps | settings/backtest.py:396-399 | the set-update loop builds the union of all the symbols' indices |
| Timeline.SortStamps | settings/backtest.py:400 | sorting a set gives a strictly increasing sequence with the same members and length |
| Timeline.CreateUnifiedTimeline | settings/backtest.py:395-400 | strictly increasing. t is in it iff some symbol has a bar at t. Its length is the size of the union, at most the total number of loaded bars (the keys are the dictionary's, each once) |
| Timeline.FirstAt | backtest_bona.py:271-272 | returns the first bar stamped t, or nothing iff no bar is stamped t |
| Timeline.Quote | backtest_bona.py:271-272 | `symbol in dfs and timestamp in dfs[symbol].index`, and the bar found there |
| Timeline.Loaded | settings/backtest.py:18 | the data precondition of the portfolio replays: every bar is filed under its own symbol, and a bar with a BUY or SELL signal has a non-zero close (see Left out) |
| Timeline.EnterAll | backtest_bona.py:276-282 | keeps held positions. A new position is always in the exchange's symbol list, has a bar at t, and was opened from that bar. Symbols without a bar at t, or outside the list, are untouched. Timeline.EnterAllOpensSignals states the converse |
| Timeline.EnterOne | backtest_bona.py:277-281 | one iteration of the entry loop: `open_position` on the symbol's bar at t when it carries BUY or SELL and the symbol is not held, otherwise nothing |
| Timeline.EnterOneSkips | settings/backtest.py:13-15 | a symbol not held after one entry step was not held before it, the step did not raise risk·balance, and a step for that symbol on a signal bar that opened nothing found risk·balance < 0.01 |
| Timeline.EnterAllSpends | settings/backtest.py:14-26 | the entry phase never raises the balance: each opening subtracts the invested amount |
| Timeline.EnterAllOpensSignals | backtest_bona.py:276-282 | the converse of EnterAll: a listed symbol with a BUY or SELL bar at t that was not held and is still not held afterwards was skipped only by the minimum-trade check, so risk times the balance left is below 0.01 |
| Timeline.EnterAllKeepsLedger | backtest_bona.py:276-282 | the entry phase keeps the ledger invariant and the capital |
| Timeline.EnterPhase | backtest_bona.py:276-282 | the for-loop over the exchange's symbols on the account gives EnterAll |
| Metrics.Defaults | settings/backtest.py:286-299 | the default report: final balance, total return, and zero for every other metric |
| Metrics.Equity | settings/backtest.py:343-344 | the `cumulative` column: one value per history entry, the initial balance plus the profits realized so far. Metrics.EquityStart states its start |
| Metrics.Peak | settings/backtest.py:345 | the `peak` column, the running maximum. Metrics.PeakBounds states it |
| Metrics.Ratio | settings/backtest.py:346-347 | pandas float division: a finite quotient for a non-zero divisor, otherwise NaN for 0/0 and an infinity of the dividend's sign |
| Metrics.Drawdowns | settings/backtest.py:346-347 | the `drawdown` column: one ratio per equity value. Metrics.DrawdownsBounded states its bounds |
| Metrics.MinExt | settings/backtest.py:348 | pandas `min()` over a column that may hold NaN and infinities: NaN is skipped. Metrics.MinExtFinite and Metrics.MaxDrawdownBounds state what it returns |
| Metrics.Largest | settings/backtest.py:337-338 | a member that bounds every element from above |
| Metrics.Smallest | settings/backtest.py:339-340 | a member that bounds every element from below |
| Metrics.WinRate | settings/backtest.py:318-322 | between 0 and 100; 100 iff every closed trade won; 0 iff none did |
| Metrics.ProfitFactor | settings/backtest.py:324-328 | infinity iff the gross loss is 0; otherwise a non-negative v with v·gross_loss = gross_profit |
| Metrics.CalculateMetrics | settings/backtest.py:283-356 | final balance and total return always. Defaults when no entry has a profit. Otherwise: num_trades is the number of profit entries; the win-rate bounds; gross profit is the sum of the winning trades and gross loss minus the sum of the losing ones, both ≥ 0, with difference = realized profit; the profit factor is infinite iff the gross loss is 0; long + short = number of entries. Metrics.ProfitFactorMeaning ties the profit factor to the trades |
| Metrics.LossesSumZero | settings/backtest.py:320-326 | the losing trades sum to zero iff no closed trade has a negative profit |
| Metrics.ProfitFactorMeaning | settings/backtest.py:325-328 | with closed trades: the profit factor is +infinity iff no trade lost money (so a log of only winning trades gives +infinity); otherwise the gross loss is > 0 and the factor is gross profit / gross loss |
| Metrics.AveragesAndExtremes | settings/backtest.py:330-340 | largest loss ≤ average loss ≤ 0 ≤ average win ≤ largest win, and every closed trade lies within its side's extreme |
| Metrics.Profits | settings/backtest.py:306-308 | the `profit` column of the trade frame with its NaN rows dropped: one value per closing entry, in order. Metrics.ProfitsSum states its sum |
| Metrics.Wins | settings/backtest.py:319 | the closed trades with profit > 0, in order. Metrics.PartitionSigns, Metrics.PartitionMembers and Metrics.WinCount state what it holds |
| Metrics.Losses | settings/backtest.py:320 | the closed trades with profit ≤ 0, in order. Metrics.PartitionSums states that winners and losers split the trades |
| Metrics.CountSide | settings/backtest.py:351-355 | the number of entries whose side contains LONG, respectively SHORT. Metrics.SidesCount states that the two counts cover every entry |
| Metrics.PartitionSigns | settings/backtest.py:319-320 | every winner has profit > 0 and every loser profit ≤ 0 |
| Metrics.PartitionMembers | settings/backtest.py:319-320 | every closed trade is among the winners when its profit is > 0 and among the losers otherwise |
| Metrics.PartitionSums | settings/backtest.py:319-326 | winners and losers split the closed trades, their sums add up, and winners sum ≥ 0 while losers sum ≤ 0 |
| Metrics.WinCount | settings/backtest.py:319-322 | all trades win iff the winner count is the trade count; none win iff it is 0 |
| Metrics.ProfitsSum | settings/backtest.py:306-308 | the profit column sums to the realized profit of the history |
| Metrics.SidesCount | settings/backtest.py:350-355 | every entry is counted as LONG or as SHORT |
| Metrics.PeakBounds | settings/backtest.py:345 | the running peak is one of the equity values so far and bounds all of them |
| Metrics.DrawdownsBounded | settings/backtest.py:346-347 | with a positive starting equity each drawdown is finite and ≤ 0, and ≥ −1 while equity is non-negative |
| Metrics.MinExtFinite | settings/backtest.py:348 | over a non-empty column of finite values, `min()` returns one of them |
| Metrics.MaxDrawdownBounds | settings/backtest.py:342-348 | with a positive starting equity the maximum drawdown is finite and ≤ 0, and ≥ −100 when equity stays non-negative |
| Metrics.EquityStart | settings/backtest.py:343-344 | a history that starts with an opening entry starts its equity curve at the initial balance |
| Metrics.SettledReturn | settings/backtest.py:288 | when every position is closed and the capital is the initial balance, total return = realized profit / initial · 100 and gross profit − gross loss = balance − initial |
| Bona.BuyMask | backtest_bona.py:23-33 | row i is true iff i ≥ 3 and each of the three previous candles closed above its open |
| Bona.SearchEntryPoints | backtest_bona.py:19-41 | same length. Only the signal field changes. A bar is BUY iff i ≥ 3 and the three candles before it are green. No bar is SELL |
| Bona.CloseOnBar | backtest_bona.py:44-75 | the bar's symbol is not held afterwards, nothing changes when it was not held, and other symbols are untouched |
| Bona.CloseOnBarKeepsLedger | backtest_bona.py:44-75 | close_positions keeps the ledger invariant and the capital |
| Bona.ClosePositions | backtest_bona.py:44-75 | the snapshot loop on the account gives CloseOnBar |
| Bona.BonaStep | backtest_bona.py:118-124 | one bar of the replay: on a BUY or SELL bar, close_positions and then open_position, otherwise nothing. Bona.BonaStepOutcome states the outcome |
| Bona.BonaStepOutcome | backtest_bona.py:118-124 | non-signal bars change nothing. After a signal bar the symbol is held iff risk·balance ≥ 0.01 after the close, and then by a position opened on this bar. Other symbols are untouched |
| Bona.BonaStepKeepsLedger | backtest_bona.py:118-124 | one bar of the loop keeps the ledger invariant and the capital |
| Bona.BonaRun | backtest_bona.py:117-124 | the replay over the bars, one Bona.BonaStep per bar in order. Bona.ReplayBona is the loop proved equal to it |
| Bona.BonaRunKeepsLedger | backtest_bona.py:115-125 | the whole loop keeps the ledger invariant and the capital |
| Bona.BonaRunStaysOnSymbol | backtest_bona.py:115-125 | a run over one symbol's bars never holds another symbol |
| Bona.ReplayBona | backtest_bona.py:117-124 | the replay loop on the account gives BonaRun |
| Bona.PairRun | backtest_bona.py:112-129 | one symbol's run: signals, balance reset, replay and, for non-empty data, liquidation. Bona.PairRunSettles states how it ends |
| Bona.PairRunSettles | backtest_bona.py:126-133 | a run from an empty book ends with no positions and its initial capital, so total return = realized profit / initial · 100 |
| Bona.RunPair | backtest_bona.py:112-129 | signals, balance reset, replay and final liquidation on the account give PairRun |
| Bona.TestOnBtc | backtest_bona.py:79-137 | no bars: nothing happens. Otherwise the account ends as PairRun leaves it and the report is its metrics |
| Bona.TestPair | backtest_bona.py:167-198 | one symbol of the independent test: a fresh account, the pair's run and its metrics give PairReport |
| Bona.PairReports | backtest_bona.py:155-198 | the reports of the independent test: the metrics of each symbol's own run, in the order of the symbol list |
| Bona.PairReportsAt | backtest_bona.py:155-198 | report k is the metrics of symbol k's run from the initial balance with empty positions and history, so it depends on that symbol alone |
| Bona.TestOnAllPairsIndependently | backtest_bona.py:140-204 | the loop over the symbols, one fresh account per symbol, gives Bona.PairReports |
| Bona.ExitPhase | backtest_bona.py:268-274 | every snapshot symbol with a bar at t is closed. Symbols outside the snapshot or without a bar are untouched. No symbol is added |
| Bona.ExitPhaseKeepsLedger | backtest_bona.py:268-274 | the exit phase keeps the ledger invariant and the capital |
| Bona.PortfolioTick | backtest_bona.py:268-282 | one timestamp: the exit phase over the keys held at its start, then the entry phase. Bona.PortfolioTickPositions states the outcome |
| Bona.PortfolioTickPositions | backtest_bona.py:268-282 | after a timestamp, each position is either an untouched one whose symbol had no bar at t, or one freshly opened at t from the symbol's bar. Symbols without a bar are untouched. Bona.PortfolioTickOpensSignals states the converse |
| Bona.PortfolioTickOpensSignals | backtest_bona.py:268-282 | the converse: a listed symbol with a BUY or SELL bar at t that is not held after the timestamp, whether it was held before (and closed by the exit phase) or not, was skipped by the minimum-trade check, so risk times the final balance is below 0.01 |
| Bona.PortfolioTickKeepsLedger | backtest_bona.py:268-282 | one timestamp keeps the ledger invariant and the capital |
| Bona.PortfolioRun | backtest_bona.py:267-286 | the portfolio replay, one Bona.PortfolioTick per timestamp in order |
| Bona.PortfolioRunKeepsLedger | backtest_bona.py:268-283 | the whole portfolio loop keeps the ledger invariant (at most one position per symbol at every tick) and the capital |
| Bona.PortfolioRunHoldsData | backtest_bona.py:268-283 | only symbols with bars are ever held |
| Bona.PortfolioSettles | backtest_bona.py:288-294 | a portfolio run from an empty book ends, after liquidation, with no positions and its initial capital |
| Bona.PortfolioStep | backtest_bona.py:268-282 | exits over a snapshot of the keys, then entries, on the account, give PortfolioTick |
| Bona.ReplayPortfolio | backtest_bona.py:267-286 | the timeline loop on the account keeps the ledger invariant and gives Bona.PortfolioRun |
| Bona.SignalTimeline | backtest_bona.py:232-260 | the signalled data is Bona.SignalAll of the loaded bars, and the timeline is strictly increasing and holds exactly the loaded timestamps |
| Bona.SignalAll | backtest_bona.py:232-257 | the signalled data has the same symbols, lengths and timestamps as the loaded bars |
| Bona.TestAnanke | backtest_bona.py:207-298 | the timeline is strictly increasing and holds exactly the loaded timestamps. The account ends as the portfolio run plus liquidation leave it, and the report is its metrics |
| Ananke.SignalAt | backtest_ananke.py:44-67 | one row of the signal loop: the existing signal before warm-up, BUY on RSI < 30 with an upward cross, SELL on RSI > 70 with a downward cross, the existing signal otherwise. Ananke.SignalRule states it |
| Ananke.Signalled | backtest_ananke.py:44-67 | one output bar per input bar |
| Ananke.Above | backtest_ananke.py:34 | `macd_line > signal_line` at bar i, false where either value is missing (a comparison with NaN is false) |
| Ananke.CrossUp | backtest_ananke.py:35-42 | the MACD line is above its signal line at i ≥ 1 and was not at i − 1; false at bar 0, where the array keeps its zero initial value |
| Ananke.CrossDown | backtest_ananke.py:35-42 | the MACD line is not above its signal line at i ≥ 1 and was at i − 1; false at bar 0 |
| Ananke.Warm | backtest_ananke.py:46-51 | the warm-up test of the signal loop: RSI, MACD line and signal line all have a value at i, and i ≥ 1 |
| Ananke.CrossingsExclusive | backtest_ananke.py:35-42 | the up and down crossings never hold together, and neither holds at bar 0 |
| Ananke.SignalRule | backtest_ananke.py:44-67 | on a blank bar: BUY iff warm with RSI < 30 and an upward cross; SELL iff warm with RSI > 70 and a downward cross; blank otherwise |
| Ananke.SearchEntryPoint | backtest_ananke.py:19-69 | the crossing-array loop and the signal loop with its skip compute Signalled |
| Ananke.AnankeStep | backtest_ananke.py:110-116 | open then manage keeps the ledger invariant and the capital |
| Ananke.AnankeStepLocal | backtest_ananke.py:110-116 | a bar without a signal changes nothing, and no bar changes another symbol |
| Ananke.ReversalCloses | backtest_ananke.py:112-116 | on a reversal bar the open is a no-op and the opposite-signal rule closes the position, so the symbol is not held afterwards |
| Ananke.FreshEntrySurvives | backtest_ananke.py:112-116 | a fresh entry at a positive price survives its own bar, with its extreme set to the entry price |
| Ananke.SameSideSurvivesUnlessExit | backtest_ananke.py:112-116 | a held position on the signal's side survives the bar iff no exit rule holds |
| Ananke.AnankeRun | backtest_ananke.py:107-117 | the loop keeps the ledger invariant and the capital |
| Ananke.QuietBarsChangeNothing | backtest_ananke.py:110-112 | positions are examined only on BUY/SELL bars; bars without a signal leave the book as it is |
| Ananke.AnankeRunStaysOnSymbol | backtest_ananke.py:107-117 | a run over one symbol's bars never holds another symbol |
| Ananke.ReplayAnanke | backtest_ananke.py:109-116 | the replay loop on the account gives AnankeRun |
| Ananke.Marked | backtest_ananke.py:166-169 | the loaded bars get a blank signal column (`df['signal'] = ''`) and are then signalled; one output bar per input bar, and every field but the signal is kept |
| Ananke.PairRun | backtest_ananke.py:104-121 | one symbol's run: signals, balance reset, replay and, for non-empty data, liquidation. Ananke.PairRunSettles states how it ends |
| Ananke.PairRunSettles | backtest_ananke.py:118-125 | a run from an empty book ends with no positions and its initial capital, so total return = realized profit / initial · 100 |
| Ananke.RunPair | backtest_ananke.py:104-121 | signals, balance reset, replay and final liquidation on the account give PairRun |
| Ananke.TestOnBtc | backtest_ananke.py:72-129 | no bars: nothing happens. Otherwise the account ends as PairRun leaves it and the report is its metrics |
| Ananke.TestPair | backtest_ananke.py:158-190 | one symbol of the independent test: a fresh account, the pair's run and its metrics give PairReport |
| Ananke.PairReports | backtest_ananke.py:148-190 | the reports of the independent test: the metrics of each symbol's own run, in the order of the symbol list |
| Ananke.PairReportsAt | backtest_ananke.py:148-190 | report k is the metrics of symbol k's run from the initial balance with empty positions and history, so it depends on that symbol's bars and indicators alone |
| Ananke.TestOnAllPairsIndependently | backtest_ananke.py:132-195 | the loop over the symbols, one fresh account per symbol, gives Ananke.PairReports |
| Ananke.ManagePhase | backtest_ananke.py:267-272 | manage_positions over the snapshot keys. It keeps the ledger invariant and the capital, leaves symbols without a bar untouched, and adds no symbol |
| Ananke.ManagePhaseStep | backtest_ananke.py:268-272 | one more key of the snapshot runs manage_positions on that key's bar, if it has one |
| Ananke.ManageLocal | settings/backtest.py:156-158 | a symbol's fate under manage_positions depends only on that symbol's own position |
| Ananke.ManagePhaseAt | backtest_ananke.py:268-272 | in the exit phase each symbol with a bar fares as if managed alone |
| Ananke.PortfolioTick | backtest_ananke.py:258-272 | entries, then manage over the keys held afterwards, keep the ledger invariant and the capital |
| Ananke.PortfolioTickLocal | backtest_ananke.py:261-269 | symbols without a bar at t are untouched at t |
| Ananke.NoCloseOnEntryTick | backtest_ananke.py:260-272 | a position opened at t at a positive price is still held after t's exit phase; only its extreme is set |
| Ananke.PortfolioRun | backtest_ananke.py:258-273 | the portfolio loop keeps the ledger invariant (never two positions for a symbol) and the capital |
| Ananke.PortfolioRunHoldsData | backtest_ananke.py:258-273 | only symbols with bars are ever held |
| Ananke.PortfolioSettles | backtest_ananke.py:278-284 | the run from an empty book ends, after liquidation, with no positions and its initial capital |
| Ananke.ManageHeld | backtest_ananke.py:267-272 | the exit loop on the account gives ManagePhase over the keys held before it |
| Ananke.PortfolioStep | backtest_ananke.py:259-272 | the entry loop then the exit loop on the account give PortfolioTick |
| Ananke.ReplayPortfolio | backtest_ananke.py:258-273 | the timeline loop on the account gives PortfolioRun |
| Ananke.SignalAll | backtest_ananke.py:223-247 | the signalled data has the same symbols, lengths and timestamps as the loaded bars |
| Ananke.SignalSymbols | backtest_ananke.py:223-247 | the loading loop computes SignalAll |
| Ananke.TestAnanke | backtest_ananke.py:198-288 | the timeline is strictly increasing and holds exactly the loaded timestamps. The account ends as the portfolio run plus liquidation leave it, and the report is its metrics |

## Left out

- The SQL queries, the Binance exchange-info call, the DataFrame construction and cleaning (`to_datetime`, `to_numeric`, `dropna`), logging and the progress messages. These are I/O. The drivers take already-loaded, timestamp-sorted bars, the symbol list and the exchange's symbol order as parameters.
- TestOnBtc (both modules): the source checks for emptiness before `dropna`. A non-empty query result whose closes are all unparsable therefore still reaches `calculate_metrics`. The model takes bars after cleaning, so its empty case is the query-empty case.
- The drivers in Python return nothing and only log their metrics. The model returns the computed report (and the timeline) so that contracts can name them.
- `settings/indicators.py`: RSI and MACD are given as `Option<real>` columns, with None for NaN. `np.isnan` becomes `None?`, and a comparison with a missing value is false, as with NaN.
- `volatility_stop`: no replay calls it.
- The `avg_trade_duration` branch: no history entry has `entry_time` or `exit_time`.
- The `try/except` in `calculate_metrics`: when the history holds only opening entries, the trade frame has no `profit` column, so `dropna(subset=['profit'])` (settings/backtest.py:308) raises a KeyError. The except clause catches it and the defaults are returned. `Metrics.CalculateMetrics` returns the same defaults directly and does not model the exception. Given the preconditions below, no other exception arises in the modelled arithmetic. The drivers' except clauses only log and re-raise.
- Timeline.Loaded, Timeline.Priceable, Bona.Feed, Ananke.Feed: stronger than the source. The source divides by the close only when `open_position` actually opens (settings/backtest.py:18). These predicates exclude every BUY or SELL bar with a zero close, including one for a symbol already held and one where risk·balance < 0.01, which the source processes without error.
- Metrics.CalculateMetrics: a zero `initial_balance` is a precondition, because settings/backtest.py:288 divides by it outside the `try`.
- Timeline.CreateUnifiedTimeline: requires its keys to be distinct, as the keys of a dictionary are.
- IEEE rounding: real arithmetic stands for float arithmetic. `math.inf` and NaN are cases of `Metrics.Ext`.
- Metrics.MaxDrawdownBounds: the bound is proved only for an equity curve that starts above zero. A zero or negative running peak makes pandas produce NaN, −infinity or a positive drawdown, which `Metrics.Ratio` models without a bound.
- The in-place write of `highest_price`/`lowest_price` by `trailing_stop_loss` is modelled as a returned position (`ExitPolicy.Trail.after`). `Portfolio.Account.ManageHeld` stores it in the dictionary before the time-exit rule reads it, as the source does. No aliasing beyond the dictionary entry is modelled.
- `df.copy()` in the signal rules: the model works on values, so the input bars are never modified.
- `df.loc[[t]]` with several bars stamped `t` returns all of them; the source reads only the first, via `iloc[0]`. `Timeline.FirstAt` returns that first bar.
- Ananke.SearchEntryPoint: assumes the bars of one symbol carry distinct timestamps. The signal loop writes and reads by timestamp label (`df.loc[df.index[i], 'signal']`, backtest_ananke.py:57, 63, 66-67). With several rows sharing a stamp, a BUY or SELL write reaches every such row. The `pd.isna(...) or ...` test on a warm bar then reads a Series and raises ValueError, which the drivers re-raise (backtest_ananke.py:127-129, 193-195, 286-288). The model writes row i alone and raises nothing.

## Findings

| source | as written | input that shows it | evidently intended | confidence | as-written member | corrected member |
|---|---|---|---|---|---|---|
| settings/backtest.py:255-275 | a FORCE_SHORT entry records `usd_flow = qty·entry − qty·price`, but the balance gains that amount plus the escrowed `usd_in` | a SHORT of qty 0.1 entered at 100 with usd_in 10, liquidated at 100: the entry records a flow of 0 while the balance rises by 10 | the flow is the balance change, as for FORCE_LONG (`usd_flow = proceeds = balance change`) and for the opening entries | medium, not executed | Ledger.ForcedShortFlowMismatch | Ledger.ForceOneCorrected |

The FORCE_SHORT flow is recorded as written in the replays: `Ledger.ForceOne`, `Portfolio.Account.ForceClose` and everything built on them use settings/backtest.py:272 as it stands. `Ledger.ForceOneCorrected` is the corrected step, and `Ledger.FlowsMatchBalance` proves about it that every recorded flow is the balance change. No other part of the engine reads `usd_flow`. By `Ledger.CorrectionOnlyChangesFlow`, both steps give the same balance, positions, order and history, apart from the flow of the appended entry.
