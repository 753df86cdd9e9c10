/** The cycle orchestrator: one tick fetches candles, reads the signal off
    the indicator frame, asks the strategy for a trade and settles it against
    the paper balance; the run loop repeats ticks while the running flag is
    set. The exchange, the indicator library and the clock are inputs. */
module Bot {
  import opened Common
  import opened BotConfig
  import opened SignalGenerator
  import opened Strategy
  import opened Timeframe

  datatype Candle = Candle(timestamp: int, open: real, high: real, low: real, close: real, volume: real)

  /** What the OHLCV endpoint gave: an exception, or a list of candles. */
  datatype FeedResponse = FeedFailed | Candles(candles: seq<Candle>)

  /** The arguments of the OHLCV request. */
  datatype OhlcvRequest = OhlcvRequest(pair: string, interval: int, limit: nat)

  /** What the indicator computation over the fetched frame gave: an
      exception, or the frame with its indicator columns. */
  datatype AnalysisResult = AnalysisFailed | Analyzed(rows: seq<Snapshot>)

  /** What the ticker endpoint gave: an exception, or the last traded price. */
  datatype TickerResult = TickerFailed | Last(price: real)

  /** How a tick ends for the run loop: normally, with a keyboard interrupt,
      or with `stop()` having been called. */
  datatype Interruption = Uninterrupted | KeyboardInterrupt | StopRequested

  /** Everything the outside world contributes to one tick. */
  datatype TickInput = TickInput(
    feed: FeedResponse,
    analysis: AnalysisResult,
    ticker: TickerResult,
    interruption: Interruption)

  /** The indicator values of the last row kept for logging. */
  datatype LatestIndicators = LatestIndicators(rsi: Option<real>, macd: Option<real>, ma9: Option<real>, ma21: Option<real>)

  /** The signal and the logged indicators; `None` is the empty dictionary. */
  datatype MarketView = MarketView(signal: Signal, indicators: Option<LatestIndicators>)

  /** The state that survives ticks: the strategy's fields and the balance. */
  datatype BotState = BotState(strategy: PositionState, balance: real)

  /** How a tick ended: the early return without data, an exception caught
      by the cycle, or a completed decision. */
  datatype CycleOutcome = NoMarketData | CycleError | Completed(signal: Signal, intent: Intent)

  datatype CycleResult = CycleResult(state: BotState, outcome: CycleOutcome)

  const OhlcvLimit: nat := 100

  /** The request `fetch_market_data` sends; the timeframe conversion raises
      when the timeframe is not "<integer><unit>". */
  function RequestFor(cfg: Config): (r: Option<OhlcvRequest>)
    ensures r.Some? <==> TimeframeSeconds(cfg.timeframe).Some?
    ensures r.Some? ==> r.value == OhlcvRequest(cfg.pair, TimeframeSeconds(cfg.timeframe).value, 100)
  {
    match TimeframeSeconds(cfg.timeframe)
    case None => None
    case Some(seconds) => Some(OhlcvRequest(cfg.pair, seconds, OhlcvLimit))
  }

  /** `fetch_market_data`: the candles, or `None` when anything in it raises.
      Naming the six columns of a frame built from an empty list raises too,
      so an empty answer also gives `None`. */
  function FetchMarketData(cfg: Config, feed: FeedResponse): (r: Option<seq<Candle>>)
    ensures r.Some? <==> RequestFor(cfg).Some? && feed.Candles? && |feed.candles| > 0
    ensures r.Some? ==> r.value == feed.candles
  {
    if RequestFor(cfg).None? then None
    else
      match feed
      case FeedFailed => None
      case Candles(candles) => if |candles| == 0 then None else Some(candles)
  }

  /** `analyze_market`: the generated signal and the last row's RSI, MACD and
      moving averages; when the computation raises, or the frame has fewer
      than two rows so that the signal lookup raises, HOLD and no indicators. */
  function AnalyzeMarket(analysis: AnalysisResult): (r: MarketView)
    ensures analysis.AnalysisFailed? || |analysis.rows| < 2 ==> r == MarketView(Hold, None)
    ensures analysis.Analyzed? && |analysis.rows| >= 2 ==>
      var rows := analysis.rows;
      var last := rows[|rows| - 1];
      r.signal == Aggregate(last, rows[|rows| - 2]) &&
      r.indicators == Some(LatestIndicators(last.rsi, last.macd, last.ma9, last.ma21))
    ensures r.signal != Hold ==> r.indicators.Some?
  {
    match analysis
    case AnalysisFailed => MarketView(Hold, None)
    case Analyzed(rows) =>
      match GenerateSignals(rows)
      case None => MarketView(Hold, None)
      case Some(signal) =>
        var last := rows[|rows| - 1];
        MarketView(signal, Some(LatestIndicators(last.rsi, last.macd, last.ma9, last.ma21)))
  }

  /** The trade gate and the paper-trading settlement: the balance after
      executing `intent` at `price`. */
  function Settle(cfg: Config, intent: Intent, price: real, balance: real): (b: real)
    // Only a BUY or SELL of a positive amount is executed.
    ensures !((intent.action == Buy || intent.action == Sell) && intent.amount > 0.0) ==> b == balance
    // Live orders never touch the balance.
    ensures !cfg.testMode ==> b == balance
    // A paper BUY commits only when affordable, and then costs exactly price * amount.
    ensures cfg.testMode && intent.action == Buy && intent.amount > 0.0 ==>
      (price * intent.amount <= balance ==> b == balance - price * intent.amount) &&
      (price * intent.amount > balance ==> b == balance)
    ensures intent.action == Buy && balance >= 0.0 ==> b >= 0.0
    // A paper SELL always commits.
    ensures cfg.testMode && intent.action == Sell && intent.amount > 0.0 ==>
      b == balance + price * intent.amount
  {
    if (intent.action == Buy || intent.action == Sell) && intent.amount > 0.0 && cfg.testMode then
      if intent.action == Buy then
        var cost := price * intent.amount;
        if cost <= balance then balance - cost else balance
      else
        balance + price * intent.amount
    else balance
  }

  /** One call of `execute_trading_cycle` as a function of the state before it. */
  function Cycle(cfg: Config, s: BotState, tick: TickInput): (r: CycleResult)
    // No data: nothing runs and nothing changes.
    ensures FetchMarketData(cfg, tick.feed).None? ==> r == CycleResult(s, NoMarketData)
    // A failed ticker, or an exception in the strategy, changes nothing.
    ensures r.outcome.CycleError? ==> r.state == s
    ensures r.outcome.NoMarketData? <==> FetchMarketData(cfg, tick.feed).None?
    ensures FetchMarketData(cfg, tick.feed).Some? && tick.ticker.TickerFailed? ==> r.outcome == CycleError
    // A completed tick is the strategy's step on the analysed signal,
    // settled at the ticker price.
    ensures r.outcome.Completed? ==>
      tick.ticker.Last? && r.outcome.signal == AnalyzeMarket(tick.analysis).signal &&
      var step := Step(cfg, s.strategy, r.outcome.signal, tick.ticker.price, s.balance);
      step.outcome == Decided(r.outcome.intent) &&
      r.state == BotState(step.state, Settle(cfg, r.outcome.intent, tick.ticker.price, s.balance))
    // With candles and a price, the tick completes exactly when the strategy
    // does not raise.
    ensures FetchMarketData(cfg, tick.feed).Some? && tick.ticker.Last? ==>
      (r.outcome.Completed? <==>
        Step(cfg, s.strategy, AnalyzeMarket(tick.analysis).signal, tick.ticker.price, s.balance).outcome.Decided?)
    ensures !cfg.testMode ==> r.state.balance == s.balance
  {
    var candles := FetchMarketData(cfg, tick.feed);
    if candles.None? || |candles.value| == 0 then CycleResult(s, NoMarketData)
    else
      var view := AnalyzeMarket(tick.analysis);
      match tick.ticker
      case TickerFailed => CycleResult(s, CycleError)
      case Last(price) =>
        var step := Step(cfg, s.strategy, view.signal, price, s.balance);
        match step.outcome
        case Raised(_) => CycleResult(s, CycleError)
        case Decided(intent) =>
          CycleResult(BotState(step.state, Settle(cfg, intent, price, s.balance)), Completed(view.signal, intent))
  }

  // The shapes of `Cycle`, one per way `execute_trading_cycle` can end.

  lemma CycleNoData(cfg: Config, s: BotState, tick: TickInput)
    requires FetchMarketData(cfg, tick.feed).None?
    ensures Cycle(cfg, s, tick) == CycleResult(s, NoMarketData)
  {
  }

  lemma CycleFails(cfg: Config, s: BotState, tick: TickInput)
    requires FetchMarketData(cfg, tick.feed).Some?
    requires tick.ticker.TickerFailed? ||
      Step(cfg, s.strategy, AnalyzeMarket(tick.analysis).signal, tick.ticker.price, s.balance).outcome.Raised?
    ensures Cycle(cfg, s, tick) == CycleResult(s, CycleError)
  {
  }

  lemma CycleCompletes(cfg: Config, s: BotState, tick: TickInput, step: StepResult)
    requires FetchMarketData(cfg, tick.feed).Some? && tick.ticker.Last?
    requires step == Step(cfg, s.strategy, AnalyzeMarket(tick.analysis).signal, tick.ticker.price, s.balance)
    requires step.outcome.Decided?
    ensures Cycle(cfg, s, tick) ==
      CycleResult(BotState(step.state, Settle(cfg, step.outcome.intent, tick.ticker.price, s.balance)),
        Completed(AnalyzeMarket(tick.analysis).signal, step.outcome.intent))
  {
  }

  /** The state after the given ticks, in order. */
  function RunCycles(cfg: Config, s: BotState, ticks: seq<TickInput>): BotState
    decreases |ticks|
  {
    if ticks == [] then s
    else Cycle(cfg, RunCycles(cfg, s, ticks[..|ticks| - 1]), ticks[|ticks| - 1]).state
  }

  /** How many ticks the run loop performs: up to and including the first
      interrupted one. */
  function CyclesUntilStop(env: seq<TickInput>): (n: nat)
    ensures n <= |env|
  {
    if env == [] then 0
    else if env[0].interruption != Uninterrupted then 1
    else 1 + CyclesUntilStop(env[1..])
  }

  predicate AllUninterrupted(env: seq<TickInput>)
  {
    forall i :: 0 <= i < |env| ==> env[i].interruption == Uninterrupted
  }

  lemma RunCyclesSnoc(cfg: Config, s: BotState, env: seq<TickInput>, k: nat)
    requires k < |env|
    ensures RunCycles(cfg, s, env[..k + 1]) == Cycle(cfg, RunCycles(cfg, s, env[..k]), env[k]).state
  {
    assert env[..k + 1][..k] == env[..k];
  }

  lemma LoopStep(env: seq<TickInput>, k: nat)
    requires k < |env|
    ensures AllUninterrupted(env[..k + 1]) == (AllUninterrupted(env[..k]) && env[k].interruption == Uninterrupted)
    ensures CyclesUntilStop(env[k..]) ==
      if env[k].interruption != Uninterrupted then 1 else 1 + CyclesUntilStop(env[k + 1..])
  {
    assert env[k..][1..] == env[k + 1..];
    assert forall i :: 0 <= i < k ==> env[..k + 1][i] == env[..k][i];
  }

  class TradingBot {
    const config: Config
    const strategy: ScalpingStrategy
    var balance: real
    var running: bool

    ghost predicate Valid()
      reads this
    {
      strategy.config == config
    }

    function State(): BotState
      reads this, strategy
    {
      BotState(strategy.State(), balance)
    }

    constructor (config: Config)
      ensures Valid() && fresh(strategy)
      ensures this.config == config && running
      ensures State() == BotState(Initial, config.initialBalance)
    {
      this.config := config;
      strategy := new ScalpingStrategy(config);
      running := true;
      balance := config.initialBalance;
    }

    method ExecuteTradingCycle(tick: TickInput) returns (outcome: CycleOutcome)
      requires Valid()
      modifies this, strategy
      ensures CycleResult(State(), outcome) == Cycle(config, old(State()), tick)
      ensures running == old(running)
    {
      ghost var before := State();
      var df := FetchMarketData(config, tick.feed);
      if df.None? || |df.value| == 0 {
        CycleNoData(config, before, tick);
        return NoMarketData;
      }
      var view := AnalyzeMarket(tick.analysis);
      if tick.ticker.TickerFailed? {
        CycleFails(config, before, tick);
        return CycleError;
      }
      var currentPrice := tick.ticker.price;
      var decision := strategy.ExecuteStrategy(view.signal, currentPrice, balance);
      ghost var step := Step(config, before.strategy, view.signal, currentPrice, before.balance);
      if decision.Raised? {
        CycleFails(config, before, tick);
        return CycleError;
      }
      CycleCompletes(config, before, tick, step);
      var action, amount := decision.intent.action, decision.intent.amount;
      if (action == Buy || action == Sell) && amount > 0.0 {
        if config.testMode {
          if action == Buy {
            var cost := currentPrice * amount;
            if cost <= balance {
              balance := balance - cost;
            }
          } else {
            var revenue := currentPrice * amount;
            balance := balance + revenue;
          }
        }
        // In live mode the order is placed and the balance queried, but the
        // answer is discarded: `balance` is left as it is.
      }
      return Completed(view.signal, decision.intent);
    }

    /** `run`: the timeframe is converted once (an invalid one raises out of
        `run` before the loop), then ticks repeat while `running` holds. An
        interruption takes effect after the tick it arrives in. */
    method Run(env: seq<TickInput>) returns (started: bool, cycles: nat)
      requires Valid()
      modifies this, strategy
      ensures started <==> TimeframeMinutes(config.timeframe).Some?
      ensures cycles == if started && old(running) then CyclesUntilStop(env) else 0
      ensures State() == RunCycles(config, old(State()), env[..cycles])
      ensures running == (old(running) && (!started || AllUninterrupted(env)))
    {
      var timeframeMinutes := TimeframeMinutes(config.timeframe);
      if timeframeMinutes.None? {
        return false, 0;
      }
      started := true;
      cycles := 0;
      ghost var start := old(State());
      while running && cycles < |env|
        invariant Valid()
        invariant cycles <= |env|
        invariant State() == RunCycles(config, start, env[..cycles])
        invariant running == (old(running) && AllUninterrupted(env[..cycles]))
        invariant !old(running) ==> cycles == 0
        invariant old(running) && running ==> CyclesUntilStop(env) == cycles + CyclesUntilStop(env[cycles..])
        invariant old(running) && !running ==> CyclesUntilStop(env) == cycles
        decreases |env| - cycles
      {
        RunCyclesSnoc(config, start, env, cycles);
        LoopStep(env, cycles);
        var _ := ExecuteTradingCycle(env[cycles]);
        if env[cycles].interruption != Uninterrupted {
          running := false;
        }
        cycles := cycles + 1;
      }
      if running {
        assert env[..cycles] == env;
        assert env[cycles..] == [];
      }
    }

    method Stop()
      modifies this
      ensures !running
      ensures State() == old(State())
    {
      running := false;
    }
  }
}
