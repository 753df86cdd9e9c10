/** The position state machine of the scalping strategy: FLAT or LONG, entry
    sizing with stop-loss and take-profit levels, and three exits checked in
    a fixed order. */
module Strategy {
  import opened Common
  import opened BotConfig

  /** The `position` field: None while flat, 'LONG' while holding. */
  datatype Position = Flat | Long

  /** The strategy's fields as one value. `size` is the coin amount bought at
      entry (see `ScalpingStrategy.positionSize`). */
  datatype PositionState = PositionState(
    position: Position,
    entryPrice: real,
    stopLoss: real,
    takeProfit: real,
    size: real)

  /** The fields as the constructor sets them. */
  const Initial: PositionState := PositionState(Flat, 0.0, 0.0, 0.0, 0.0)

  /** The pair (action, amount) that `execute_strategy` returns. */
  datatype Intent = Intent(action: Signal, amount: real)

  const HoldIntent: Intent := Intent(Hold, 0.0)

  /** Exceptions `execute_strategy` can raise. Python float division by zero
      raises ZeroDivisionError; AttributeError is what the source raises on
      every exit (see `StepAsWritten`). */
  datatype StrategyError = ZeroDivisionError | AttributeError

  /** What one call produces: the returned intent, or the raised exception. */
  datatype Outcome = Decided(intent: Intent) | Raised(error: StrategyError)

  datatype StepResult = StepResult(state: PositionState, outcome: Outcome)

  /** The three exits while LONG, in the order they are checked. */
  datatype Exit = StopLossHit | TakeProfitHit | SellSignal

  /** The exit that fires for this tick, the first match in the fixed order. */
  function ExitTrigger(s: PositionState, signal: Signal, price: real): (e: Option<Exit>)
    ensures price <= s.stopLoss ==> e == Some(StopLossHit)
    ensures price > s.stopLoss && price >= s.takeProfit ==> e == Some(TakeProfitHit)
    ensures s.stopLoss < price < s.takeProfit && signal == Sell ==> e == Some(SellSignal)
    ensures e == None <==> s.stopLoss < price < s.takeProfit && signal != Sell
  {
    if price <= s.stopLoss then Some(StopLossHit)
    else if price >= s.takeProfit then Some(TakeProfitHit)
    else if signal == Sell then Some(SellSignal)
    else None
  }

  /** The levels an entry at `price` records. */
  function EntryState(cfg: Config, price: real, amount: real): PositionState
  {
    PositionState(Long, price, price * (1.0 - cfg.stopLoss), price * (1.0 + cfg.takeProfit), amount)
  }

  /** One call of `execute_strategy` (with the size field corrected), as a
      function of the fields before the call: the new fields and the result. */
  function Step(cfg: Config, s: PositionState, signal: Signal, price: real, balance: real): (r: StepResult)
    // Entry from FLAT on BUY: the amount is the committed share of the
    // balance in coin units; the stop and target are set from the price.
    ensures s.position == Flat && signal == Buy && price != 0.0 ==>
      r.outcome == Decided(Intent(Buy, balance * cfg.maxPositionSize / price)) &&
      r.state.position == Long && r.state.entryPrice == price &&
      r.state.stopLoss == price * (1.0 - cfg.stopLoss) &&
      r.state.takeProfit == price * (1.0 + cfg.takeProfit) &&
      r.state.size == balance * cfg.maxPositionSize / price
    // An entry at price zero divides by zero before any field is written.
    ensures r.outcome.Raised? <==> s.position == Flat && signal == Buy && price == 0.0
    ensures r.outcome.Raised? ==> r.state == s && r.outcome.error == ZeroDivisionError
    // FLAT with any other signal does nothing.
    ensures s.position == Flat && signal != Buy ==> r == StepResult(s, Decided(HoldIntent))
    // Any exit sells the recorded amount and changes only the position.
    ensures s.position == Long && ExitTrigger(s, signal, price).Some? ==>
      r.outcome == Decided(Intent(Sell, s.size)) && r.state == s.(position := Flat)
    // BUY is emitted only on entry, SELL only on exit.
    ensures r.outcome.Decided? && r.outcome.intent.action == Buy ==> s.position == Flat && signal == Buy
    ensures r.outcome.Decided? && r.outcome.intent.action == Sell ==> s.position == Long
    // LONG inside the band, without a SELL signal, holds: no pyramiding.
    ensures s.position == Long && s.stopLoss < price < s.takeProfit && signal != Sell ==>
      r == StepResult(s, Decided(HoldIntent))
  {
    if signal == Buy && s.position == Flat then
      if price == 0.0 then StepResult(s, Raised(ZeroDivisionError))
      else
        var amount := balance * cfg.maxPositionSize / price;
        StepResult(EntryState(cfg, price, amount), Decided(Intent(Buy, amount)))
    else if s.position == Long then
      if ExitTrigger(s, signal, price).Some? then
        StepResult(s.(position := Flat), Decided(Intent(Sell, s.size)))
      else StepResult(s, Decided(HoldIntent))
    else StepResult(s, Decided(HoldIntent))
  }

  /** `execute_strategy` AS WRITTEN: every exit reads `self.position_size`,
      a field nothing assigns, so it raises AttributeError before the line
      that would reset the position. */
  function StepAsWritten(cfg: Config, s: PositionState, signal: Signal, price: real, balance: real): (r: StepResult)
    ensures s.position == Long && ExitTrigger(s, signal, price).Some? ==>
      r == StepResult(s, Raised(AttributeError))
    ensures s.position == Long ==> r.state == s
  {
    if signal == Buy && s.position == Flat then
      if price == 0.0 then StepResult(s, Raised(ZeroDivisionError))
      else
        var amount := balance * cfg.maxPositionSize / price;
        StepResult(EntryState(cfg, price, amount), Decided(Intent(Buy, amount)))
    else if s.position == Long then
      if ExitTrigger(s, signal, price).Some? then StepResult(s, Raised(AttributeError))
      else StepResult(s, Decided(HoldIntent))
    else StepResult(s, Decided(HoldIntent))
  }

  /** The ATR stop: 1.5 average true ranges under the current price. */
  function CalculateDynamicStopLoss(atr: real, currentPrice: real): (stop: real)
    ensures currentPrice - stop == 1.5 * atr
    ensures atr >= 0.0 ==> stop <= currentPrice
    ensures atr > 0.0 ==> stop < currentPrice
  {
    var atrMultiplier := 1.5;
    var stopLossDistance := atr * atrMultiplier;
    currentPrice - stopLossDistance
  }

  // The four shapes of `Step`, one per branch of `execute_strategy`.

  lemma StepRaises(cfg: Config, s: PositionState, signal: Signal, price: real, balance: real)
    requires s.position == Flat && signal == Buy && price == 0.0
    ensures Step(cfg, s, signal, price, balance) == StepResult(s, Raised(ZeroDivisionError))
  {
  }

  lemma StepEnters(cfg: Config, s: PositionState, signal: Signal, price: real, balance: real)
    requires s.position == Flat && signal == Buy && price != 0.0
    ensures var amount := balance * cfg.maxPositionSize / price;
      Step(cfg, s, signal, price, balance) == StepResult(EntryState(cfg, price, amount), Decided(Intent(Buy, amount)))
  {
  }

  lemma StepExits(cfg: Config, s: PositionState, signal: Signal, price: real, balance: real)
    requires s.position == Long && (price <= s.stopLoss || price >= s.takeProfit || signal == Sell)
    ensures Step(cfg, s, signal, price, balance) == StepResult(s.(position := Flat), Decided(Intent(Sell, s.size)))
  {
  }

  lemma StepHolds(cfg: Config, s: PositionState, signal: Signal, price: real, balance: real)
    requires !(s.position == Flat && signal == Buy)
    requires !(s.position == Long && (price <= s.stopLoss || price >= s.takeProfit || signal == Sell))
    ensures Step(cfg, s, signal, price, balance) == StepResult(s, Decided(HoldIntent))
  {
  }

  class ScalpingStrategy {
    const config: Config
    var position: Position
    var entryPrice: real
    var stopLoss: real
    var takeProfit: real
    // Deviation from the source, which is defective here: its exits read
    // `self.position_size`, which nothing assigns (the entry binds only a
    // local holding the IDR value of the position), so the first exit raises
    // AttributeError and the position stays LONG. This field holds the coin
    // amount bought at entry instead, and every exit returns it unchanged.
    var positionSize: real

    function State(): PositionState
      reads this
    {
      PositionState(position, entryPrice, stopLoss, takeProfit, positionSize)
    }

    constructor (config: Config)
      ensures this.config == config && State() == Initial
    {
      this.config := config;
      position := Flat;
      entryPrice := 0.0;
      stopLoss := 0.0;
      takeProfit := 0.0;
      positionSize := 0.0;
    }

    method ExecuteStrategy(signal: Signal, currentPrice: real, balance: real) returns (outcome: Outcome)
      modifies this
      ensures StepResult(State(), outcome) == Step(config, old(State()), signal, currentPrice, balance)
    {
      ghost var before := State();
      var action := Hold;
      var amount := 0.0;
      if signal == Buy && position == Flat {
        var positionValue := balance * config.maxPositionSize;
        if currentPrice == 0.0 {
          StepRaises(config, before, signal, currentPrice, balance);
          return Raised(ZeroDivisionError);
        }
        amount := positionValue / currentPrice;
        StepEnters(config, before, signal, currentPrice, balance);
        stopLoss := currentPrice * (1.0 - config.stopLoss);
        takeProfit := currentPrice * (1.0 + config.takeProfit);
        position := Long;
        entryPrice := currentPrice;
        positionSize := amount;
        action := Buy;
      } else if position == Long {
        if currentPrice <= stopLoss {
          StepExits(config, before, signal, currentPrice, balance);
          action := Sell;
          amount := positionSize;
          position := Flat;
        } else if currentPrice >= takeProfit {
          StepExits(config, before, signal, currentPrice, balance);
          action := Sell;
          amount := positionSize;
          position := Flat;
        } else if signal == Sell {
          StepExits(config, before, signal, currentPrice, balance);
          action := Sell;
          amount := positionSize;
          position := Flat;
        } else {
          StepHolds(config, before, signal, currentPrice, balance);
        }
      } else {
        StepHolds(config, before, signal, currentPrice, balance);
      }
      return Decided(Intent(action, amount));
    }
  }
}
