/** The multi-indicator vote aggregator: five sub-votes over the last two
    indicator rows, counted and resolved into one signal. */
module SignalGenerator {
  import opened Common

  /** One row of the indicator frame, restricted to the columns the votes and
      the cycle read. A numeric column that is NaN is `None`; `macdCross` is
      the boolean column MACD > MACD_signal, which is false when either side
      is NaN. */
  datatype Snapshot = Snapshot(
    close: Option<real>,
    rsi: Option<real>,
    macd: Option<real>,
    macdCross: bool,
    ma9: Option<real>,
    ma21: Option<real>,
    bbUpper: Option<real>,
    bbLower: Option<real>,
    stochK: Option<real>,
    stochD: Option<real>)

  // Comparisons with NaN semantics: false as soon as either side is undefined.

  predicate Less(a: Option<real>, b: Option<real>)
  {
    a.Some? && b.Some? && a.value < b.value
  }

  predicate AtMost(a: Option<real>, b: Option<real>)
  {
    a.Some? && b.Some? && a.value <= b.value
  }

  predicate Defined(a: Option<real>)
  {
    a.Some?
  }

  /** RSI vote, edge-triggered: BUY on the row where RSI drops below 30, SELL
      on the row where it rises above 70. */
  function RsiVote(latest: Snapshot, prev: Snapshot): (v: Signal)
    ensures v == Buy <==>
      Defined(latest.rsi) && Defined(prev.rsi) && latest.rsi.value < 30.0 <= prev.rsi.value
    ensures v == Sell <==>
      Defined(latest.rsi) && Defined(prev.rsi) && prev.rsi.value <= 70.0 < latest.rsi.value
  {
    if Less(latest.rsi, Some(30.0)) && AtMost(Some(30.0), prev.rsi) then Buy
    else if Less(Some(70.0), latest.rsi) && AtMost(prev.rsi, Some(70.0)) then Sell
    else Hold
  }

  /** MACD vote, edge-triggered on the boolean MACD_cross column. */
  function MacdVote(latest: Snapshot, prev: Snapshot): (v: Signal)
    ensures v == Buy <==> latest.macdCross && !prev.macdCross
    ensures v == Sell <==> !latest.macdCross && prev.macdCross
    ensures v == Hold <==> latest.macdCross == prev.macdCross
  {
    if latest.macdCross && !prev.macdCross then Buy
    else if !latest.macdCross && prev.macdCross then Sell
    else Hold
  }

  /** Moving-average vote, edge-triggered: BUY on the row where MA_9 moves
      strictly above MA_21, SELL on the row where it moves strictly below. */
  function MaVote(latest: Snapshot, prev: Snapshot): (v: Signal)
    ensures v == Buy <==>
      Defined(latest.ma9) && Defined(latest.ma21) && Defined(prev.ma9) && Defined(prev.ma21) &&
      latest.ma9.value > latest.ma21.value && prev.ma9.value <= prev.ma21.value
    ensures v == Sell <==>
      Defined(latest.ma9) && Defined(latest.ma21) && Defined(prev.ma9) && Defined(prev.ma21) &&
      latest.ma9.value < latest.ma21.value && prev.ma9.value >= prev.ma21.value
  {
    if Less(latest.ma21, latest.ma9) && AtMost(prev.ma9, prev.ma21) then Buy
    else if Less(latest.ma9, latest.ma21) && AtMost(prev.ma21, prev.ma9) then Sell
    else Hold
  }

  /** Bollinger vote, a level threshold on the latest row only. */
  function BbVote(latest: Snapshot): (v: Signal)
    ensures v == Buy <==>
      Defined(latest.close) && Defined(latest.bbLower) && latest.close.value < latest.bbLower.value
    ensures v == Sell <==>
      Defined(latest.close) && Defined(latest.bbUpper) && latest.close.value > latest.bbUpper.value &&
      !(Defined(latest.bbLower) && latest.close.value < latest.bbLower.value)
  {
    if Less(latest.close, latest.bbLower) then Buy
    else if Less(latest.bbUpper, latest.close) then Sell
    else Hold
  }

  /** Stochastic vote, a level threshold on the latest row only: both %K and
      %D below 20 for BUY, both above 80 for SELL. */
  function StochVote(latest: Snapshot): (v: Signal)
    ensures v == Buy <==>
      Defined(latest.stochK) && Defined(latest.stochD) &&
      latest.stochK.value < 20.0 && latest.stochD.value < 20.0
    ensures v == Sell <==>
      Defined(latest.stochK) && Defined(latest.stochD) &&
      latest.stochK.value > 80.0 && latest.stochD.value > 80.0
  {
    if Less(latest.stochK, Some(20.0)) && Less(latest.stochD, Some(20.0)) then Buy
    else if Less(Some(80.0), latest.stochK) && Less(Some(80.0), latest.stochD) then Sell
    else Hold
  }

  /** The five sub-votes in the order the generator lists them. */
  function Votes(latest: Snapshot, prev: Snapshot): (vs: seq<Signal>)
    ensures |vs| == 5
  {
    [RsiVote(latest, prev), MacdVote(latest, prev), MaVote(latest, prev), BbVote(latest), StochVote(latest)]
  }

  /** How many of the votes are `v` (the sum of a list of booleans). */
  function Count(vs: seq<Signal>, v: Signal): (n: nat)
    ensures n <= |vs|
    ensures n == 0 <==> (forall i :: 0 <= i < |vs| ==> vs[i] != v)
  {
    if vs == [] then 0
    else Count(vs[..|vs| - 1], v) + (if vs[|vs| - 1] == v then 1 else 0)
  }

  /** The decision rule: at least three votes for a side and fewer than two
      against it; every other split, ties included, is HOLD. */
  function Decide(buyVotes: nat, sellVotes: nat): (r: Signal)
    ensures r == Buy <==> buyVotes >= 3 && sellVotes < 2
    ensures r == Sell <==> sellVotes >= 3 && buyVotes < 2
  {
    if buyVotes >= 3 && sellVotes < 2 then Buy
    else if sellVotes >= 3 && buyVotes < 2 then Sell
    else Hold
  }

  function BuyVotes(latest: Snapshot, prev: Snapshot): nat
  {
    Count(Votes(latest, prev), Buy)
  }

  function SellVotes(latest: Snapshot, prev: Snapshot): nat
  {
    Count(Votes(latest, prev), Sell)
  }

  /** The signal for the latest row given the row before it. */
  function Aggregate(latest: Snapshot, prev: Snapshot): (r: Signal)
    ensures r == Buy <==> BuyVotes(latest, prev) >= 3 && SellVotes(latest, prev) < 2
    ensures r == Sell <==> SellVotes(latest, prev) >= 3 && BuyVotes(latest, prev) < 2
    ensures r == Hold <==>
      !(BuyVotes(latest, prev) >= 3 && SellVotes(latest, prev) < 2) &&
      !(SellVotes(latest, prev) >= 3 && BuyVotes(latest, prev) < 2)
  {
    Decide(BuyVotes(latest, prev), SellVotes(latest, prev))
  }

  /** `generate_signals` over a whole frame: the last row against the one
      before it. A frame with fewer than two rows has no second-to-last row,
      and the lookup raises an IndexError, modelled as `None`. */
  function GenerateSignals(rows: seq<Snapshot>): (r: Option<Signal>)
    ensures r.None? <==> |rows| < 2
    ensures r.Some? ==> r.value == Aggregate(rows[|rows| - 1], rows[|rows| - 2])
  {
    if |rows| < 2 then None
    else Some(Aggregate(rows[|rows| - 1], rows[|rows| - 2]))
  }
}
