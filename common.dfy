/** Values shared by every part of the decision engine. */
module Common {

  /** A possibly undefined value. An indicator that has not warmed up yet is
      NaN in the indicator frame; here it is `None`. */
  datatype Option<T> = None | Some(value: T)

  /** The strings 'BUY', 'SELL' and 'HOLD' that the signal generator returns and
      that the strategy uses as its action. */
  datatype Signal = Buy | Sell | Hold

  /** The signal with the roles of buying and selling exchanged. */
  function Mirror(s: Signal): Signal
  {
    match s
    case Buy => Sell
    case Sell => Buy
    case Hold => Hold
  }
}
