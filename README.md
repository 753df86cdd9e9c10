# Indodax scalping bot: the per-tick decision engine in Dafny

This project models the decision engine of an automated crypto scalping bot
for the Indodax exchange. It has three parts:

- **Signal generator** (module `SignalGenerator`, properties in
  `SignalProperties`). Five sub-votes are taken over the last two rows of the
  indicator frame: RSI, MACD and the MA_9/MA_21 crossover are edge-triggered,
  and Bollinger and stochastic are level thresholds. BUY needs at least three
  BUY votes and fewer than two SELL votes; SELL is the mirror rule; every
  other split is HOLD. A row is a `Snapshot`; a NaN column is `None`, and
  every comparison with `None` is false, as with NaN in pandas.
- **Scalping strategy** (module `Strategy`, properties in
  `StrategyProperties`). A class `ScalpingStrategy` whose `ExecuteStrategy`
  method updates the fields `position`, `entryPrice`, `stopLoss`,
  `takeProfit` and `positionSize`. The method is proved against the function
  `Step`. A FLAT strategy with a BUY signal enters: it sizes the position
  from the balance and sets the stop and the target. A LONG strategy exits on
  the stop, then the target, then a SELL signal. There is no pyramiding.
- **Trading bot** (module `Bot`, properties in `BotProperties`, timeframe
  parsing in `Timeframe`). A class `TradingBot` with fields `balance` and
  `running`. Its `ExecuteTradingCycle` method is proved against the function
  `Cycle`. A tick fetches candles (returning early without data), analyses
  them (HOLD when the analysis fails), reads the ticker, runs the strategy,
  and passes the trade gate. In paper mode a BUY commits only if affordable
  and a SELL always commits; in live mode the balance is never changed.
  `Run` loops while `running` holds; `Stop` clears it.

Everything the exchange, the indicator library and the clock provide comes
in as a method or function argument: the candle feed's answer or failure
(`FeedResponse`), the indicator frame or its failure (`AnalysisResult`), the
ticker's last price or its failure (`TickerResult`), and whether the tick was
interrupted (`Interruption`). Prices, balances and indicator values are exact
`real` numbers.

The source's exits read `self.position_size`, an attribute that is never
assigned. The model corrects this in the field `positionSize`: entry stores
the coin amount bought, and every exit returns that amount unchanged. The
defect as written is modelled separately (see Findings).

Three behaviours of the code that a reader might not expect are kept as the
code has them:
- The aggregator does not reject incomplete rows. It compares, and a
  comparison with an undefined value is false. So the source has no 50-candle
  warm-up gate: sub-votes fire as soon as their own columns are defined.
  `SignalProperties.UndefinedRowHolds` covers only the fully undefined row.
- An exit resets only `position`. The entry price, the levels and the
  recorded size keep their values while FLAT.
- In live mode the balance query's answer is discarded. The balance is never
  refreshed from the exchange.

## Model

"Sane risk fractions" below means 0 <= position fraction <= 1, 0 < stop
fraction < 1 and target fraction > 0 (`BotConfig.SaneRisk`); the hard-coded
0.1, 0.02 and 0.015 of config/config.py:15-17 meet it.

| member | source | states |
|---|---|---|
| `SignalGenerator.RsiVote` | indicators/signal_generator.py:55-60 | BUY iff both RSI values are defined and latest < 30 <= previous; SELL iff both are defined and previous <= 70 < latest; otherwise HOLD |
| `SignalGenerator.MacdVote` | indicators/signal_generator.py:62-67 | BUY iff the cross flag turns on, SELL iff it turns off, HOLD iff the two flags are equal |
| `SignalGenerator.MaVote` | indicators/signal_generator.py:69-76 | BUY iff all four averages are defined and MA_9 moves strictly above MA_21 from at-or-below; SELL for the mirror crossing |
| `SignalGenerator.BbVote` | indicators/signal_generator.py:78-83 | depends on the latest row only: BUY iff close < lower band; SELL iff close > upper band and BUY did not fire; undefined values never vote |
| `SignalGenerator.StochVote` | indicators/signal_generator.py:85-90 | depends on the latest row only: BUY iff %K and %D are both defined and below 20; SELL iff both are above 80 |
| `SignalGenerator.Count` | indicators/signal_generator.py:31-45 | the number of votes equal to a side is at most the number of votes, and is 0 iff no vote is for that side |
| `SignalGenerator.Decide` | indicators/signal_generator.py:47-53 | BUY iff buy >= 3 and sell < 2; SELL iff sell >= 3 and buy < 2; HOLD otherwise |
| `SignalGenerator.Aggregate` | indicators/signal_generator.py:31-53 | the signal of two rows is BUY, SELL or HOLD exactly according to the asymmetric rule applied to the sub-vote counts |
| `SignalGenerator.GenerateSignals` | indicators/signal_generator.py:7-13 | a frame with fewer than two rows fails (IndexError); otherwise the result is the aggregate of the last row against the one before it |
| `SignalProperties.CountsDisjoint` | indicators/signal_generator.py:31-45 | buy votes plus sell votes never exceed the number of votes |
| `SignalProperties.VotesBounded` | indicators/signal_generator.py:31-45 | buy + sell <= 5 for every pair of rows |
| `SignalProperties.DecisionExclusive` | indicators/signal_generator.py:48-53 | testing the SELL rule before the BUY rule decides every split the same way, so the two conditions never hold together |
| `SignalProperties.ThreeTwoSplitHolds` | indicators/signal_generator.py:48-53 | 3 BUY against 2 SELL is HOLD, and so is every tie |
| `SignalProperties.DecideSymmetric` | indicators/signal_generator.py:48-53 | swapping the counts swaps BUY with SELL and keeps HOLD |
| `SignalProperties.AggregateSymmetric` | indicators/signal_generator.py:31-90 | on mirrored rows (RSI and stochastic reflected about 50, averages swapped, MACD flag negated, close and bands negated) the aggregate is the mirrored signal, given ordered Bollinger bands |
| `SignalProperties.IdenticalRowsHold` | indicators/signal_generator.py:48-76 | when the latest row equals the previous one, all three edge votes are HOLD, at most two votes are cast, and the signal is HOLD |
| `SignalProperties.AllFiveBuy` | indicators/signal_generator.py:31-49 | five BUY sub-votes give 5 buy votes, 0 sell votes and BUY |
| `SignalProperties.AllFiveAgreeRowsBuy` | indicators/signal_generator.py:55-90 | concrete rows: RSI 31 to 29, both crosses upward, close under the lower band and both stochastic lines under 20 give 5 buy votes and BUY |
| `SignalProperties.ThreeBuyTwoSellRowsHold` | indicators/signal_generator.py:31-53 | concrete rows with three BUY and two SELL sub-votes give HOLD |
| `SignalProperties.UndefinedRowHolds` | indicators/signal_generator.py:56-90 | a latest row whose numeric columns are all undefined casts at most the MACD vote, and the signal is HOLD |
| `SignalProperties.RsiEdgeTriggered` | indicators/signal_generator.py:55-60 | the RSI vote never gives BUY (or SELL) on two consecutive rows |
| `SignalProperties.MacdEdgeTriggered` | indicators/signal_generator.py:62-67 | the MACD vote never gives BUY (or SELL) on two consecutive rows |
| `SignalProperties.MaEdgeTriggered` | indicators/signal_generator.py:69-76 | the MA vote never gives BUY (or SELL) on two consecutive rows |
| `SignalProperties.RsiLevelIsNotAVote` | indicators/signal_generator.py:55-60 | RSI below 30 on both rows is HOLD |
| `SignalProperties.LevelVotesRepeat` | indicators/signal_generator.py:78-90 | the Bollinger and stochastic BUY votes repeat on every row whose relevant columns stay the same |
| `SignalProperties.RsiSeriesFiresOnce` | indicators/signal_generator.py:55-60 | along RSI values 31, 29, 25, 20 the votes are BUY, HOLD, HOLD |
| `Strategy.ExitTrigger` | strategies/scalping_strategy.py:27-44 | a price at or under the stop fires the stop first; a price above it and at or over the target fires the target; a SELL signal strictly inside the band fires the signal exit; no exit fires iff stop < price < target and the signal is not SELL |
| `Strategy.Step` | strategies/scalping_strategy.py:9-46 | entry from FLAT on BUY: action BUY, amount = balance * fraction / price, state LONG at that price, stop = price*(1 - stop fraction), target = price*(1 + target fraction); price 0 raises ZeroDivisionError and changes nothing; FLAT without BUY gives (HOLD, 0) and changes nothing; any exit gives SELL of the recorded size and changes only the position; BUY comes only from entries and SELL only from exits; LONG inside the band without SELL gives (HOLD, 0) unchanged |
| `Strategy.StepAsWritten` | strategies/scalping_strategy.py:27-44 | as written, every exit raises AttributeError and leaves every field unchanged; a LONG strategy never changes state |
| `Strategy.CalculateDynamicStopLoss` | strategies/scalping_strategy.py:48-52 | the stop lies 1.5 ATR under the price, so it is at or under the price when ATR >= 0, and strictly under when ATR > 0 |
| `Strategy.ScalpingStrategy.constructor` | strategies/scalping_strategy.py:2-7 | FLAT, with entry price, stop, target and size all 0 |
| `Strategy.ScalpingStrategy.ExecuteStrategy` | strategies/scalping_strategy.py:9-46 | the new fields and the returned result are exactly what `Step` gives for the old fields |
| `StrategyProperties.EntryExample` | strategies/scalping_strategy.py:14-25 | with the default configuration, balance 1,000,000 at price 50,000,000 buys 0.002, with stop 49,000,000 and target 50,750,000 |
| `StrategyProperties.EntryProtected` | strategies/scalping_strategy.py:20-24 | with price > 0, 0 < stop fraction < 1 and target fraction > 0: 0 < stop < entry price < target |
| `StrategyProperties.StepPreservesProtected` | strategies/scalping_strategy.py:9-46 | under sane risk fractions, every call at a positive price from a protected state (stop < entry < target while LONG) leaves a protected state |
| `StrategyProperties.RunPreservesProtected` | strategies/scalping_strategy.py:9-46 | under sane risk fractions, from a protected state, protection holds after any sequence of calls whose prices are all positive |
| `StrategyProperties.StopLossTakesPrecedence` | strategies/scalping_strategy.py:27-33 | while LONG with the price at or under the stop, the stop exit fires whatever the signal, and sells the recorded size |
| `StrategyProperties.FirstExitSellsRecordedSize` | strategies/scalping_strategy.py:27-44 | from LONG, over any sequence of calls, the first non-HOLD result is a SELL of exactly the recorded size |
| `StrategyProperties.EntryThenExit` | strategies/scalping_strategy.py:14-44 | from FLAT at a non-zero price, the amount an entry buys is the amount the next trade sells, however many ticks pass in between |
| `StrategyProperties.AsWrittenNeverLeavesLong` | strategies/scalping_strategy.py:27-44 | as written, once LONG the strategy stays LONG with unchanged fields over any sequence of calls, and only ever holds or raises AttributeError |
| `StrategyProperties.AsWrittenStopLossCounterexample` | strategies/scalping_strategy.py:29-32 | after the worked entry and a drop to 48,000,000, the code as written raises and stays LONG; the corrected step sells 0.002 and goes FLAT |
| `StrategyProperties.AsWrittenAgreesOffExit` | strategies/scalping_strategy.py:9-46 | away from the exits the code as written and the corrected step agree |
| `Timeframe.ParseInt` | main.py:31 | parsing succeeds iff the string is a non-empty run of decimal digits, or a sign followed by one; the value is the digits' value, negated after a minus sign; anything else (empty, letters, a lone sign) fails as ValueError |
| `Timeframe.TimeframeMinutes` | main.py:183 | the minutes exist iff the timeframe has more than one character and everything but its last character is an integer literal; a digit prefix gives its value |
| `Timeframe.TimeframeSeconds` | main.py:31 | the seconds are defined exactly when the minutes are, and are the minutes times 60 |
| `Timeframe.TimeframeRoundTrip` | main.py:31 | "N" followed by any unit character gives N minutes and N*60 seconds |
| `Timeframe.DefaultTimeframe` | config/config.py:11 | the configured "5m" gives 300 seconds and 5 minutes; "1h" gives one minute, because the unit is not checked; "xm" and "m" fail; "-5m" gives -5 minutes |
| `Bot.RequestFor` | main.py:29-38 | the OHLCV request exists iff the timeframe converts; it names the configured pair, the interval in seconds and a limit of 100 |
| `Bot.FetchMarketData` | main.py:27-48 | candles are returned iff the timeframe converts and the feed answers with a non-empty list, and they are that list |
| `Bot.AnalyzeMarket` | main.py:50-73 | a failed analysis or fewer than two rows gives HOLD with no indicators; otherwise the aggregate signal and the last row's RSI, MACD, MA_9 and MA_21 |
| `Bot.Settle` | main.py:96-133 | no change unless the action is BUY or SELL with amount > 0 and the mode is paper; a paper BUY commits iff price*amount <= balance and then subtracts exactly that; a BUY never makes a non-negative balance negative; a paper SELL adds price*amount; live mode never changes the balance |
| `Bot.Cycle` | main.py:75-176 | no data means an early return with nothing changed; a failed ticker or a strategy exception changes nothing; with candles and a price the tick completes iff the strategy step does not raise; a completed tick runs the strategy step on the analysed signal and settles its intent at the ticker price; live mode keeps the balance |
| `Bot.TradingBot.constructor` | main.py:15-25 | a fresh FLAT strategy, `running` set, balance = the configured initial balance |
| `Bot.TradingBot.ExecuteTradingCycle` | main.py:75-176 | the new balance and strategy fields are exactly what `Cycle` gives; `running` is unchanged |
| `Bot.TradingBot.Run` | main.py:178-199 | an unparsable timeframe stops `run` before the loop; otherwise ticks run while `running` holds, up to and including the first interrupted one; the final state is the fold of `Cycle` over the ticks that ran; `running` ends false iff it was false or a tick was interrupted |
| `Bot.TradingBot.Stop` | main.py:201-203 | `running` becomes false and nothing else changes |
| `BotProperties.FetchFailureContained` | main.py:79-81 | a failed or empty fetch returns early with balance and position unchanged |
| `BotProperties.AnalysisFailureStillExits` | main.py:71-93 | with candles and a ticker price but a failed analysis, the signal is HOLD, yet a LONG position at or under its stop is still sold |
| `BotProperties.AnalysisFailureWhileFlat` | main.py:71-93 | with candles and a ticker price but a failed analysis while FLAT, the tick completes with (HOLD, 0) and changes nothing |
| `BotProperties.TradeGate` | main.py:96 | the balance changes only on a completed paper tick whose action is BUY or SELL with amount > 0 |
| `BotProperties.LiveModeKeepsBalance` | main.py:118-133 | in live mode no sequence of ticks changes the balance |
| `BotProperties.PaperCycleKeepsBalanceNonNegative` | main.py:97-111 | from a non-negative balance, one tick whose ticker price (if any) is positive keeps the balance non-negative |
| `BotProperties.PaperBalanceNeverNegative` | main.py:97-111 | from a non-negative balance, over any run whose ticker prices are all positive, the balance stays non-negative |
| `BotProperties.EntryCostCovered` | strategies/scalping_strategy.py:16-17 | with balance >= 0, 0 <= fraction <= 1 and price > 0: the entry cost price * (balance * fraction / price) is balance * fraction, which is at most the balance |
| `BotProperties.StrategyBuyAlwaysCommits` | main.py:99-102 | in paper mode, with 0 <= fraction <= 1, balance > 0 and price > 0, the strategy's step from FLAT on a BUY signal emits BUY, and settling it always passes the affordability test, leaving balance - balance * fraction |
| `BotProperties.PaperBuyTickCommits` | main.py:84-102 | in paper mode with 0 <= fraction <= 1 and balance > 0: a tick with candles, a positive ticker price and a BUY signal while FLAT completes, goes LONG and leaves balance - balance * fraction |
| `BotProperties.PaperSellTickCommits` | main.py:109-111 | in paper mode, while LONG with a recorded size > 0: a tick with candles and a ticker price whose price or signal triggers an exit completes, goes FLAT and credits price * recorded size, with no affordability test |
| `BotProperties.RunKeepsPositionsProtected` | main.py:84-93 | under sane risk fractions, from a protected state, over any run whose ticker prices are all positive, a LONG position always has stop < entry < target |
| `BotProperties.PaperRoundTrip` | main.py:96-111 | in paper mode under sane risk fractions with fraction f > 0, balance b > 0 and prices p1, p2 > 0: a BUY from FLAT at p1, then a SELL signal at p2, leaves b - b*f + (b*f/p1)*p2; the strategy is LONG in between and FLAT after |

## Left out

- exchange/indodax_api.py (HTTP and HMAC signing) is not part of this model. Candle, ticker and order answers are inputs.
- database/db_handler.py is not part of this model: trade and market-data persistence (main.py:136-158). A failure there happens after the state change and has no effect on it.
- utils/logger.py, the status lines (main.py:160-173) and the signal log are formatting only.
- The indicator arithmetic in indicators/technical_analysis.py (rolling averages, Wilder RSI, bands, stochastic, ATR) is floating-point library code. The indicator frame is an input. Columns that no vote and no log reads are not in `Snapshot`.
- Configuration loading from JSON: `Config` is an immutable value with the defaults of config/config.py. `max_daily_loss` and the indicator window parameters are not read by the core.
- Placing a live order and parsing its answer (main.py:120-133): only the fact that live mode leaves the balance alone is modelled. The order answer is therefore not an input.
- `sleep_until_next_candle`, the 60-second back-off after an unexpected error (main.py:197-199) and wall-clock timestamps: timing only.
- TradingBot.Run: a keyboard interrupt or a `stop()` call takes effect after the tick it arrives in. An interrupt in the middle of a tick is not modelled.
- Floating point: all arithmetic is exact, so float rounding, NaN prices and infinities are not modelled. A malformed ticker answer is `TickerFailed`.
- Timeframe.ParseInt: Python's `int` also accepts surrounding whitespace, `_` between digits and non-ASCII decimal digits; only an optional sign followed by ASCII decimal digits is modelled.
- Bot.FetchMarketData: the candle feed's answer is an input, not computed from the request; `Bot.RequestFor` states which request (pair, interval in seconds, limit 100) that answer belongs to.

## Findings

| source | as written | input that shows it | evidently intended | confidence | as-written member | corrected member |
|---|---|---|---|---|---|---|
| strategies/scalping_strategy.py:31 | every exit reads `self.position_size`, which is never assigned (line 16 binds only a local holding the IDR value), so it raises AttributeError before `self.position = None`; the cycle swallows the error, and the strategy stays LONG for ever, never trading again | default configuration, entry at 50,000,000 with balance 1,000,000 (0.002 bought, stop 49,000,000), then a tick at 48,000,000 | sell the 0.002 bought at entry and go FLAT | not executed; high, the attribute appears nowhere else | `StrategyProperties.AsWrittenNeverLeavesLong` | `Strategy.Step` |
