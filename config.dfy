/** The bot's configuration, fixed once at start-up. */
module BotConfig {

  /** The fields of the configuration object that the decision engine reads. */
  datatype Config = Config(
    pair: string,
    timeframe: string,
    testMode: bool,
    maxPositionSize: real,  // fraction of the balance committed at entry
    stopLoss: real,         // fraction below the entry price
    takeProfit: real,       // fraction above the entry price
    initialBalance: real)

  /** The values the configuration object gives when the JSON file names no
      pair, no test mode and no initial balance. */
  const Default: Config := Config("btc_idr", "5m", true, 0.1, 0.02, 0.015, 1000000.0)

  /** Risk parameters under which entries are affordable and protected: the
      position is at most the whole balance, the stop lies strictly between
      zero and the entry price and the target lies strictly above it. */
  predicate SaneRisk(c: Config)
  {
    0.0 <= c.maxPositionSize <= 1.0 && 0.0 < c.stopLoss < 1.0 && 0.0 < c.takeProfit
  }
}
