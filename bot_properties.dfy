/** Properties of the cycle orchestrator: failure containment, the trade
    gate, paper-balance safety, live mode leaving the balance alone, and how
    the strategy's sizing and the paper settlement fit together. */
module BotProperties {
  import opened Common
  import opened BotConfig
  import opened Strategy
  import opened StrategyProperties
  import opened Bot

  /** A tick whose fetch fails leaves the balance and the position as they
      were, whatever the rest of the tick would have answered. */
  lemma FetchFailureContained(cfg: Config, s: BotState, tick: TickInput)
    requires tick.feed.FeedFailed? || (tick.feed.Candles? && tick.feed.candles == [])
    ensures Cycle(cfg, s, tick) == CycleResult(s, NoMarketData)
  {
  }

  /** A failed analysis still lets the price exits fire: HOLD is passed on to
      the strategy, and a price at or under the stop sells the position. */
  lemma AnalysisFailureStillExits(cfg: Config, s: BotState, tick: TickInput)
    requires FetchMarketData(cfg, tick.feed).Some? && tick.analysis.AnalysisFailed?
    requires tick.ticker.Last? && tick.ticker.price <= s.strategy.stopLoss
    requires s.strategy.position == Long
    ensures Cycle(cfg, s, tick).outcome == Completed(Hold, Intent(Sell, s.strategy.size))
    ensures Cycle(cfg, s, tick).state.strategy == s.strategy.(position := Flat)
  {
  }

  /** A failed analysis while FLAT is a tick without effect. */
  lemma AnalysisFailureWhileFlat(cfg: Config, s: BotState, tick: TickInput)
    requires FetchMarketData(cfg, tick.feed).Some? && tick.analysis.AnalysisFailed?
    requires tick.ticker.Last? && s.strategy.position == Flat
    ensures Cycle(cfg, s, tick) == CycleResult(s, Completed(Hold, HoldIntent))
  {
  }

  /** The balance moves only on a completed paper tick whose intent is a
      BUY or SELL of a positive amount. */
  lemma TradeGate(cfg: Config, s: BotState, tick: TickInput)
    ensures var r := Cycle(cfg, s, tick);
      r.state.balance != s.balance ==>
        cfg.testMode && r.outcome.Completed? && r.outcome.intent.amount > 0.0 &&
        (r.outcome.intent.action == Buy || r.outcome.intent.action == Sell)
  {
  }

  /** In live mode no sequence of ticks ever changes the balance. */
  lemma {:induction false} LiveModeKeepsBalance(cfg: Config, s: BotState, ticks: seq<TickInput>)
    requires !cfg.testMode
    ensures RunCycles(cfg, s, ticks).balance == s.balance
    decreases |ticks|
  {
    if ticks != [] {
      LiveModeKeepsBalance(cfg, s, ticks[..|ticks| - 1]);
    }
  }

  predicate PositivePrices(ticks: seq<TickInput>)
  {
    forall i :: 0 <= i < |ticks| ==> ticks[i].ticker.Last? ==> ticks[i].ticker.price > 0.0
  }

  /** One paper tick at a positive price keeps the balance non-negative: a
      BUY is affordable or skipped, a SELL only adds. */
  lemma PaperCycleKeepsBalanceNonNegative(cfg: Config, s: BotState, tick: TickInput)
    requires s.balance >= 0.0
    requires tick.ticker.Last? ==> tick.ticker.price > 0.0
    ensures Cycle(cfg, s, tick).state.balance >= 0.0
  {
    var r := Cycle(cfg, s, tick);
    if r.outcome.Completed? && r.outcome.intent.action == Sell && r.outcome.intent.amount > 0.0 && cfg.testMode {
      ProductPositive(tick.ticker.price, r.outcome.intent.amount);
    }
  }

  /** Over any run with positive prices, the paper balance never goes
      negative. */
  lemma {:induction false} PaperBalanceNeverNegative(cfg: Config, s: BotState, ticks: seq<TickInput>)
    requires s.balance >= 0.0 && PositivePrices(ticks)
    ensures RunCycles(cfg, s, ticks).balance >= 0.0
    decreases |ticks|
  {
    if ticks != [] {
      var prefix := ticks[..|ticks| - 1];
      assert PositivePrices(prefix) by {
        forall i | 0 <= i < |prefix| ensures prefix[i] == ticks[i] { }
      }
      PaperBalanceNeverNegative(cfg, s, prefix);
      PaperCycleKeepsBalanceNonNegative(cfg, RunCycles(cfg, s, prefix), ticks[|ticks| - 1]);
    }
  }

  /** A BUY the strategy emits always commits in paper mode: its cost is the
      configured share of the balance, which the balance covers. A completed
      tick settles the strategy's intent this way (see `Bot.Cycle`). */
  lemma StrategyBuyAlwaysCommits(cfg: Config, s: PositionState, signal: Signal, price: real, balance: real)
    requires 0.0 <= cfg.maxPositionSize <= 1.0 && cfg.testMode && balance > 0.0 && price > 0.0
    requires s.position == Flat && signal == Buy
    ensures var step := Step(cfg, s, signal, price, balance);
      step.outcome.Decided? && step.outcome.intent.action == Buy &&
      Settle(cfg, step.outcome.intent, price, balance) == balance - balance * cfg.maxPositionSize
  {
    var f := cfg.maxPositionSize;
    var amount := balance * f / price;
    StepEnters(cfg, s, signal, price, balance);
    if f == 0.0 {
      assert amount == 0.0;
    } else {
      ProductPositive(balance, f);
      EntryCostCovered(balance, f, price);
      assert price * amount == balance * f;
      AffordableBuySettles(cfg, Intent(Buy, amount), price, balance);
    }
  }

  /** A paper BUY of a positive amount the balance covers costs exactly its
      value (the affordable branch of `Settle`). */
  lemma AffordableBuySettles(cfg: Config, intent: Intent, price: real, balance: real)
    requires cfg.testMode && intent.action == Buy && intent.amount > 0.0
    requires price * intent.amount <= balance
    ensures Settle(cfg, intent, price, balance) == balance - price * intent.amount
  {
  }

  /** On a tick: with candles, a positive price and a BUY signal while FLAT,
      the paper tick completes and the BUY commits. */
  lemma PaperBuyTickCommits(cfg: Config, s: BotState, tick: TickInput)
    requires 0.0 <= cfg.maxPositionSize <= 1.0 && cfg.testMode && s.balance > 0.0
    requires FetchMarketData(cfg, tick.feed).Some? && AnalyzeMarket(tick.analysis).signal == Buy
    requires tick.ticker.Last? && tick.ticker.price > 0.0 && s.strategy.position == Flat
    ensures Cycle(cfg, s, tick).outcome.Completed?
    ensures Cycle(cfg, s, tick).state.strategy.position == Long
    ensures Cycle(cfg, s, tick).state.balance == s.balance - s.balance * cfg.maxPositionSize
  {
    var price := tick.ticker.price;
    StrategyBuyAlwaysCommits(cfg, s.strategy, Buy, price, s.balance);
    var step := Step(cfg, s.strategy, Buy, price, s.balance);
    CycleCompletes(cfg, s, tick, step);
  }

  /** On a tick: an exit while LONG in paper mode always commits, crediting
      the price times the recorded size. */
  lemma PaperSellTickCommits(cfg: Config, s: BotState, tick: TickInput)
    requires cfg.testMode && s.strategy.position == Long && s.strategy.size > 0.0
    requires FetchMarketData(cfg, tick.feed).Some? && tick.ticker.Last?
    requires ExitTrigger(s.strategy, AnalyzeMarket(tick.analysis).signal, tick.ticker.price).Some?
    ensures Cycle(cfg, s, tick).outcome.Completed?
    ensures Cycle(cfg, s, tick).state ==
      BotState(s.strategy.(position := Flat), s.balance + tick.ticker.price * s.strategy.size)
  {
    var signal, price := AnalyzeMarket(tick.analysis).signal, tick.ticker.price;
    StepExits(cfg, s.strategy, signal, price, s.balance);
    var step := Step(cfg, s.strategy, signal, price, s.balance);
    CycleCompletes(cfg, s, tick, step);
  }

  /** The entry sizing spends exactly the configured share of the balance. */
  lemma EntryCostCovered(balance: real, fraction: real, price: real)
    requires balance >= 0.0 && 0.0 <= fraction <= 1.0 && price > 0.0
    ensures price * (balance * fraction / price) == balance * fraction
    ensures balance * fraction <= balance
  {
    assert balance * fraction <= balance * 1.0;
  }

  /** Over a run with positive prices and sane risk fractions every LONG
      position keeps its stop under and its target over the entry price. */
  lemma {:induction false} RunKeepsPositionsProtected(cfg: Config, s: BotState, ticks: seq<TickInput>)
    requires SaneRisk(cfg) && Protected(s.strategy) && PositivePrices(ticks)
    ensures Protected(RunCycles(cfg, s, ticks).strategy)
    decreases |ticks|
  {
    if ticks != [] {
      var prefix := ticks[..|ticks| - 1];
      var last := ticks[|ticks| - 1];
      assert PositivePrices(prefix) by {
        forall i | 0 <= i < |prefix| ensures prefix[i] == ticks[i] { }
      }
      RunKeepsPositionsProtected(cfg, s, prefix);
      var before := RunCycles(cfg, s, prefix);
      var r := Cycle(cfg, before, last);
      if r.outcome.Completed? {
        StepPreservesProtected(cfg, before.strategy, r.outcome.signal, last.ticker.price, before.balance);
      }
    }
  }

  /** A paper round trip: entering from FLAT with balance b at price p1 and
      leaving on a SELL signal at p2 leaves b - b*f + (b*f/p1)*p2, where f is
      the position fraction, and the strategy FLAT again. */
  lemma PaperRoundTrip(cfg: Config, b: real, p1: real, p2: real)
    requires SaneRisk(cfg) && cfg.testMode && b > 0.0 && cfg.maxPositionSize > 0.0
    requires p1 > 0.0 && p2 > 0.0
    ensures
      var f := cfg.maxPositionSize;
      var entry := Step(cfg, Initial, Buy, p1, b);
      var b1 := Settle(cfg, entry.outcome.intent, p1, b);
      var exit := Step(cfg, entry.state, Sell, p2, b1);
      var b2 := Settle(cfg, exit.outcome.intent, p2, b1);
      entry.state.position == Long && b1 == b - b * f &&
      exit.state.position == Flat && b2 == b - b * f + (b * f / p1) * p2
  {
    var f := cfg.maxPositionSize;
    var amount := b * f / p1;
    StrategyBuyAlwaysCommits(cfg, Initial, Buy, p1, b);
    StepEnters(cfg, Initial, Buy, p1, b);
    var held := EntryState(cfg, p1, amount);
    assert amount > 0.0 by {
      ProductPositive(b, f);
    }
    StepExits(cfg, held, Sell, p2, b - b * f);
  }
}
