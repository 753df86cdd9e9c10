/** Properties of the position state machine over single calls and over
    whole sequences of ticks, and the defect of the source as written. */
module StrategyProperties {
  import opened Common
  import opened BotConfig
  import opened Strategy

  /** The inputs of one call of `execute_strategy`. */
  datatype Tick = Tick(signal: Signal, price: real, balance: real)

  /** The outcomes of successive calls, starting from the fields `s`. */
  function Trace(cfg: Config, s: PositionState, ticks: seq<Tick>): (tr: seq<Outcome>)
    ensures |tr| == |ticks|
    decreases ticks
  {
    if ticks == [] then []
    else
      var r := Step(cfg, s, ticks[0].signal, ticks[0].price, ticks[0].balance);
      [r.outcome] + Trace(cfg, r.state, ticks[1..])
  }

  /** The fields after successive calls. */
  function Final(cfg: Config, s: PositionState, ticks: seq<Tick>): PositionState
    decreases ticks
  {
    if ticks == [] then s
    else
      var r := Step(cfg, s, ticks[0].signal, ticks[0].price, ticks[0].balance);
      Final(cfg, r.state, ticks[1..])
  }

  function TraceAsWritten(cfg: Config, s: PositionState, ticks: seq<Tick>): (tr: seq<Outcome>)
    ensures |tr| == |ticks|
    decreases ticks
  {
    if ticks == [] then []
    else
      var r := StepAsWritten(cfg, s, ticks[0].signal, ticks[0].price, ticks[0].balance);
      [r.outcome] + TraceAsWritten(cfg, r.state, ticks[1..])
  }

  function FinalAsWritten(cfg: Config, s: PositionState, ticks: seq<Tick>): PositionState
    decreases ticks
  {
    if ticks == [] then s
    else
      var r := StepAsWritten(cfg, s, ticks[0].signal, ticks[0].price, ticks[0].balance);
      FinalAsWritten(cfg, r.state, ticks[1..])
  }

  /** The first outcome that is not a plain HOLD. */
  function FirstAction(tr: seq<Outcome>): Option<Outcome>
  {
    if tr == [] then None
    else if tr[0] != Decided(HoldIntent) then Some(tr[0])
    else FirstAction(tr[1..])
  }

  /** While LONG the stop lies under the entry price and the target above it. */
  predicate Protected(s: PositionState)
  {
    s.position == Long ==> 0.0 < s.entryPrice && s.stopLoss < s.entryPrice < s.takeProfit
  }

  /** The worked entry: balance 1,000,000 IDR, 10% of it, at 50,000,000 IDR
      per coin buys 0.002 coin, with the stop 2% under and the target 1.5%
      over the entry price. */
  lemma EntryExample()
    ensures
      var r := Step(Default, Initial, Buy, 50000000.0, 1000000.0);
      r.outcome == Decided(Intent(Buy, 0.002)) &&
      r.state == PositionState(Long, 50000000.0, 49000000.0, 50750000.0, 0.002)
  {
  }

  /** An entry at a positive price, with a stop fraction strictly between 0
      and 1 and a positive target fraction, is protected. */
  lemma EntryProtected(cfg: Config, price: real, amount: real)
    requires 0.0 < cfg.stopLoss < 1.0 && 0.0 < cfg.takeProfit && price > 0.0
    ensures Protected(EntryState(cfg, price, amount))
    ensures EntryState(cfg, price, amount).stopLoss > 0.0
  {
    var e := EntryState(cfg, price, amount);
    var keep := 1.0 - cfg.stopLoss;
    ProductPositive(price, keep);
    assert e.stopLoss == price * keep && price * keep > 0.0;
    ProductPositive(price, cfg.stopLoss);
    ProductPositive(price, cfg.takeProfit);
    assert e.stopLoss == price - price * cfg.stopLoss;
    assert e.takeProfit == price + price * cfg.takeProfit;
  }

  lemma ProductPositive(a: real, b: real)
    requires a > 0.0 && b > 0.0
    ensures a * b > 0.0
  {
  }

  /** Every call keeps the position protected when the prices are positive. */
  lemma StepPreservesProtected(cfg: Config, s: PositionState, signal: Signal, price: real, balance: real)
    requires SaneRisk(cfg) && Protected(s) && price > 0.0
    ensures Protected(Step(cfg, s, signal, price, balance).state)
  {
    if signal == Buy && s.position == Flat {
      EntryProtected(cfg, price, balance * cfg.maxPositionSize / price);
    }
  }

  lemma {:induction false} RunPreservesProtected(cfg: Config, s: PositionState, ticks: seq<Tick>)
    requires SaneRisk(cfg) && Protected(s)
    requires forall i :: 0 <= i < |ticks| ==> ticks[i].price > 0.0
    ensures Protected(Final(cfg, s, ticks))
    decreases ticks
  {
    if ticks != [] {
      var t, rest := ticks[0], ticks[1..];
      assert t.price > 0.0;
      StepPreservesProtected(cfg, s, t.signal, t.price, t.balance);
      var next := Step(cfg, s, t.signal, t.price, t.balance).state;
      assert Protected(next);
      assert forall i :: 0 <= i < |rest| ==> rest[i].price > 0.0 by {
        forall i | 0 <= i < |rest| ensures rest[i].price > 0.0 {
          assert rest[i] == ticks[i + 1];
        }
      }
      RunPreservesProtected(cfg, next, rest);
    }
  }

  /** Exit priority: a price at or under the stop exits through the stop
      whatever the signal, and sells the recorded amount. */
  lemma StopLossTakesPrecedence(cfg: Config, s: PositionState, signal: Signal, price: real, balance: real)
    requires s.position == Long && price <= s.stopLoss
    ensures ExitTrigger(s, signal, price) == Some(StopLossHit)
    ensures Step(cfg, s, signal, price, balance).outcome == Decided(Intent(Sell, s.size))
  {
  }

  /** While LONG nothing but an exit is ever emitted, and the first exit
      sells exactly the amount recorded at entry. */
  lemma {:induction false} FirstExitSellsRecordedSize(cfg: Config, s: PositionState, ticks: seq<Tick>)
    requires s.position == Long
    ensures FirstAction(Trace(cfg, s, ticks)) in {None, Some(Decided(Intent(Sell, s.size)))}
  {
    if ticks != [] {
      var r := Step(cfg, s, ticks[0].signal, ticks[0].price, ticks[0].balance);
      if ExitTrigger(s, ticks[0].signal, ticks[0].price).None? {
        assert r.state == s;
        FirstExitSellsRecordedSize(cfg, s, ticks[1..]);
      }
    }
  }

  /** Entry and exit together: what an entry buys is what the next trade
      sells, however many ticks pass in between. */
  lemma EntryThenExit(cfg: Config, s: PositionState, price: real, balance: real, later: seq<Tick>)
    requires s.position == Flat && price != 0.0
    ensures
      var amount := balance * cfg.maxPositionSize / price;
      var tr := Trace(cfg, s, [Tick(Buy, price, balance)] + later);
      tr[0] == Decided(Intent(Buy, amount)) &&
      FirstAction(tr[1..]) in {None, Some(Decided(Intent(Sell, amount)))}
  {
    var amount := balance * cfg.maxPositionSize / price;
    var ticks := [Tick(Buy, price, balance)] + later;
    assert ticks[0] == Tick(Buy, price, balance) && ticks[1..] == later;
    var r := Step(cfg, s, Buy, price, balance);
    assert r.outcome == Decided(Intent(Buy, amount)) && r.state.position == Long && r.state.size == amount;
    var tr := Trace(cfg, s, ticks);
    assert tr == [r.outcome] + Trace(cfg, r.state, later);
    assert tr[1..] == Trace(cfg, r.state, later);
    FirstExitSellsRecordedSize(cfg, r.state, later);
  }

  // The source as written.

  /** Once LONG, the source as written stays LONG for ever: every exit
      raises before the position is reset. */
  lemma {:induction false} AsWrittenNeverLeavesLong(cfg: Config, s: PositionState, ticks: seq<Tick>)
    requires s.position == Long
    ensures FinalAsWritten(cfg, s, ticks) == s
    ensures forall i :: 0 <= i < |ticks| ==>
      TraceAsWritten(cfg, s, ticks)[i] in {Decided(HoldIntent), Raised(AttributeError)}
  {
    if ticks != [] {
      AsWrittenNeverLeavesLong(cfg, s, ticks[1..]);
    }
  }

  /** The input that shows it: after the worked entry the price falls under
      the stop. The corrected strategy sells the 0.002 coin and goes FLAT; as
      written it raises AttributeError and remains LONG. */
  lemma AsWrittenStopLossCounterexample()
    ensures
      var held := PositionState(Long, 50000000.0, 49000000.0, 50750000.0, 0.002);
      StepAsWritten(Default, held, Hold, 48000000.0, 900000.0) == StepResult(held, Raised(AttributeError)) &&
      Step(Default, held, Hold, 48000000.0, 900000.0) ==
        StepResult(held.(position := Flat), Decided(Intent(Sell, 0.002)))
  {
  }

  /** Away from the exits the two versions agree. */
  lemma AsWrittenAgreesOffExit(cfg: Config, s: PositionState, signal: Signal, price: real, balance: real)
    requires !(s.position == Long && ExitTrigger(s, signal, price).Some?)
    ensures StepAsWritten(cfg, s, signal, price, balance) == Step(cfg, s, signal, price, balance)
  {
  }
}
