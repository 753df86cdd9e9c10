/** Properties of the vote aggregator: exclusivity and bounds of the vote
    counts, the asymmetric decision rule, its buy/sell symmetry, and the
    difference between the edge-triggered and the level votes. */
module SignalProperties {
  import opened Common
  import opened SignalGenerator

  function Indicator(b: bool): nat
  {
    if b then 1 else 0
  }

  lemma CountSnoc(vs: seq<Signal>, x: Signal, v: Signal)
    ensures Count(vs + [x], v) == Count(vs, v) + Indicator(x == v)
  {
    assert (vs + [x])[..|vs|] == vs;
  }

  /** The count over the five votes, one vote at a time. */
  lemma CountFive(a: Signal, b: Signal, c: Signal, d: Signal, e: Signal, v: Signal)
    ensures Count([a, b, c, d, e], v) ==
      Indicator(a == v) + Indicator(b == v) + Indicator(c == v) + Indicator(d == v) + Indicator(e == v)
  {
    CountSnoc([], a, v);
    assert [] + [a] == [a];
    CountSnoc([a], b, v);
    assert [a] + [b] == [a, b];
    CountSnoc([a, b], c, v);
    assert [a, b] + [c] == [a, b, c];
    CountSnoc([a, b, c], d, v);
    assert [a, b, c] + [d] == [a, b, c, d];
    CountSnoc([a, b, c, d], e, v);
    assert [a, b, c, d] + [e] == [a, b, c, d, e];
  }

  /** Each vote is for at most one side, so the two counts together never
      exceed the number of votes. */
  lemma {:induction false} CountsDisjoint(vs: seq<Signal>)
    ensures Count(vs, Buy) + Count(vs, Sell) <= |vs|
  {
    if vs != [] {
      CountsDisjoint(vs[..|vs| - 1]);
    }
  }

  /** buy + sell <= 5 for every pair of rows. */
  lemma VotesBounded(latest: Snapshot, prev: Snapshot)
    ensures BuyVotes(latest, prev) + SellVotes(latest, prev) <= 5
  {
    CountsDisjoint(Votes(latest, prev));
  }

  /** The BUY and SELL conditions can never hold together, so testing SELL
      first would decide every split the same way. */
  lemma DecisionExclusive(buyVotes: nat, sellVotes: nat)
    ensures Decide(buyVotes, sellVotes) ==
      if sellVotes >= 3 && buyVotes < 2 then Sell
      else if buyVotes >= 3 && sellVotes < 2 then Buy
      else Hold
  {
  }

  /** A 3-BUY/2-SELL split is HOLD, and so is every tie. */
  lemma ThreeTwoSplitHolds()
    ensures Decide(3, 2) == Hold && Decide(2, 3) == Hold
    ensures forall n: nat :: n <= 2 ==> Decide(n, n) == Hold
  {
  }

  /** Swapping the two counts swaps BUY with SELL and keeps HOLD. */
  lemma DecideSymmetric(buyVotes: nat, sellVotes: nat)
    ensures Decide(sellVotes, buyVotes) == Mirror(Decide(buyVotes, sellVotes))
  {
  }

  /** The mirror image of a row: RSI and the stochastic lines reflected
      about 50, the two moving averages exchanged, the MACD state negated,
      the close and the Bollinger bands negated (so the bands exchange). */
  function Reflect100(x: Option<real>): Option<real>
  {
    if x.Some? then Some(100.0 - x.value) else None
  }

  function Negate(x: Option<real>): Option<real>
  {
    if x.Some? then Some(-x.value) else None
  }

  function MirrorRow(s: Snapshot): Snapshot
  {
    Snapshot(
      close := Negate(s.close),
      rsi := Reflect100(s.rsi),
      macd := Negate(s.macd),
      macdCross := !s.macdCross,
      ma9 := s.ma21,
      ma21 := s.ma9,
      bbUpper := Negate(s.bbLower),
      bbLower := Negate(s.bbUpper),
      stochK := Reflect100(s.stochK),
      stochD := Reflect100(s.stochD))
  }

  lemma {:induction false} CountMirrored(a: Signal, b: Signal, c: Signal, d: Signal, e: Signal)
    ensures Count([Mirror(a), Mirror(b), Mirror(c), Mirror(d), Mirror(e)], Buy) == Count([a, b, c, d, e], Sell)
    ensures Count([Mirror(a), Mirror(b), Mirror(c), Mirror(d), Mirror(e)], Sell) == Count([a, b, c, d, e], Buy)
  {
    CountFive(Mirror(a), Mirror(b), Mirror(c), Mirror(d), Mirror(e), Buy);
    CountFive(Mirror(a), Mirror(b), Mirror(c), Mirror(d), Mirror(e), Sell);
    CountFive(a, b, c, d, e, Buy);
    CountFive(a, b, c, d, e, Sell);
  }

  /** Bollinger bands are the mean plus and minus two deviations, so the
      lower band never lies above the upper one. */
  predicate BandsOrdered(s: Snapshot)
  {
    s.bbLower.Some? && s.bbUpper.Some? ==> s.bbLower.value <= s.bbUpper.value
  }

  /** Every sub-vote of the mirrored rows is the mirror of the original
      sub-vote (for the Bollinger vote this needs ordered bands: with the
      bands inverted a close could lie under both, and the first test wins). */
  lemma VotesMirror(latest: Snapshot, prev: Snapshot)
    requires BandsOrdered(latest)
    ensures Votes(MirrorRow(latest), MirrorRow(prev)) ==
      [Mirror(RsiVote(latest, prev)), Mirror(MacdVote(latest, prev)), Mirror(MaVote(latest, prev)),
       Mirror(BbVote(latest)), Mirror(StochVote(latest))]
  {
    RsiMirror(latest, prev);
    MacdMirror(latest, prev);
    MaMirror(latest, prev);
    BbMirror(latest);
    StochMirror(latest);
  }

  lemma RsiMirror(latest: Snapshot, prev: Snapshot)
    ensures RsiVote(MirrorRow(latest), MirrorRow(prev)) == Mirror(RsiVote(latest, prev))
  {
  }

  lemma MacdMirror(latest: Snapshot, prev: Snapshot)
    ensures MacdVote(MirrorRow(latest), MirrorRow(prev)) == Mirror(MacdVote(latest, prev))
  {
  }

  lemma MaMirror(latest: Snapshot, prev: Snapshot)
    ensures MaVote(MirrorRow(latest), MirrorRow(prev)) == Mirror(MaVote(latest, prev))
  {
  }

  lemma BbMirror(latest: Snapshot)
    requires BandsOrdered(latest)
    ensures BbVote(MirrorRow(latest)) == Mirror(BbVote(latest))
  {
  }

  lemma StochMirror(latest: Snapshot)
    ensures StochVote(MirrorRow(latest)) == Mirror(StochVote(latest))
  {
  }

  /** The aggregator treats buying and selling alike: on the mirrored rows it
      returns the mirrored signal. */
  lemma AggregateSymmetric(latest: Snapshot, prev: Snapshot)
    requires BandsOrdered(latest)
    ensures Aggregate(MirrorRow(latest), MirrorRow(prev)) == Mirror(Aggregate(latest, prev))
  {
    VotesMirror(latest, prev);
    CountMirrored(RsiVote(latest, prev), MacdVote(latest, prev), MaVote(latest, prev), BbVote(latest), StochVote(latest));
    DecideSymmetric(BuyVotes(latest, prev), SellVotes(latest, prev));
  }

  /** When the latest row repeats the previous one, the three edge votes are
      HOLD, at most the two level votes are cast, and the signal is HOLD. */
  lemma IdenticalRowsHold(s: Snapshot)
    ensures RsiVote(s, s) == Hold && MacdVote(s, s) == Hold && MaVote(s, s) == Hold
    ensures BuyVotes(s, s) + SellVotes(s, s) <= 2
    ensures Aggregate(s, s) == Hold
  {
    CountFive(Hold, Hold, Hold, BbVote(s), StochVote(s), Buy);
    CountFive(Hold, Hold, Hold, BbVote(s), StochVote(s), Sell);
  }

  /** Five BUY sub-votes give BUY. */
  lemma AllFiveBuy(latest: Snapshot, prev: Snapshot)
    requires RsiVote(latest, prev) == Buy && MacdVote(latest, prev) == Buy && MaVote(latest, prev) == Buy
    requires BbVote(latest) == Buy && StochVote(latest) == Buy
    ensures BuyVotes(latest, prev) == 5 && SellVotes(latest, prev) == 0
    ensures Aggregate(latest, prev) == Buy
  {
    CountFive(Buy, Buy, Buy, Buy, Buy, Buy);
    CountFive(Buy, Buy, Buy, Buy, Buy, Sell);
  }

  /** A warming-up row, whose numeric columns are all NaN, can at most cast
      the MACD vote, so it never yields a trade signal. */
  lemma UndefinedRowHolds(latest: Snapshot, prev: Snapshot)
    requires latest.close.None? && latest.rsi.None? && latest.ma9.None? && latest.ma21.None?
    requires latest.bbUpper.None? && latest.bbLower.None? && latest.stochK.None? && latest.stochD.None?
    ensures RsiVote(latest, prev) == Hold && MaVote(latest, prev) == Hold
    ensures BbVote(latest) == Hold && StochVote(latest) == Hold
    ensures BuyVotes(latest, prev) <= 1 && SellVotes(latest, prev) <= 1
    ensures Aggregate(latest, prev) == Hold
  {
    var m := MacdVote(latest, prev);
    CountFive(Hold, m, Hold, Hold, Hold, Buy);
    CountFive(Hold, m, Hold, Hold, Hold, Sell);
  }

  /** A row that fires BUY through RSI, MACD and the moving averages, and
      SELL through the Bollinger and stochastic levels: three against two
      is HOLD. */
  lemma ThreeBuyTwoSellRowsHold()
    ensures
      var prev := Snapshot(Some(100.0), Some(31.0), Some(0.0), false, Some(9.0), Some(10.0),
                           Some(99.0), Some(90.0), Some(85.0), Some(85.0));
      var latest := Snapshot(Some(100.0), Some(29.0), Some(1.0), true, Some(11.0), Some(10.0),
                             Some(99.0), Some(90.0), Some(85.0), Some(85.0));
      BuyVotes(latest, prev) == 3 && SellVotes(latest, prev) == 2 && Aggregate(latest, prev) == Hold
  {
    var prev := Snapshot(Some(100.0), Some(31.0), Some(0.0), false, Some(9.0), Some(10.0),
                         Some(99.0), Some(90.0), Some(85.0), Some(85.0));
    var latest := Snapshot(Some(100.0), Some(29.0), Some(1.0), true, Some(11.0), Some(10.0),
                           Some(99.0), Some(90.0), Some(85.0), Some(85.0));
    CountFive(Buy, Buy, Buy, Sell, Sell, Buy);
    CountFive(Buy, Buy, Buy, Sell, Sell, Sell);
  }

  /** All five conditions at once: RSI crossing down through 30, MACD and
      MA_9 crossing up, the close under the lower band and both stochastic
      lines under 20. */
  lemma AllFiveAgreeRowsBuy()
    ensures
      var prev := Snapshot(Some(100.0), Some(31.0), Some(0.0), false, Some(9.0), Some(10.0),
                           Some(120.0), Some(101.0), Some(15.0), Some(15.0));
      var latest := Snapshot(Some(100.0), Some(29.0), Some(1.0), true, Some(11.0), Some(10.0),
                             Some(120.0), Some(101.0), Some(15.0), Some(15.0));
      BuyVotes(latest, prev) == 5 && Aggregate(latest, prev) == Buy
  {
    var prev := Snapshot(Some(100.0), Some(31.0), Some(0.0), false, Some(9.0), Some(10.0),
                         Some(120.0), Some(101.0), Some(15.0), Some(15.0));
    var latest := Snapshot(Some(100.0), Some(29.0), Some(1.0), true, Some(11.0), Some(10.0),
                           Some(120.0), Some(101.0), Some(15.0), Some(15.0));
    AllFiveBuy(latest, prev);
  }

  // Edge triggering: an edge vote cannot fire on two consecutive rows,
  // because the second firing needs the middle row on the other side of the
  // threshold. The level votes can, since they look only at one row.

  lemma RsiEdgeTriggered(a: Snapshot, b: Snapshot, c: Snapshot)
    ensures RsiVote(b, a) == Buy ==> RsiVote(c, b) != Buy
    ensures RsiVote(b, a) == Sell ==> RsiVote(c, b) != Sell
  {
  }

  lemma MacdEdgeTriggered(a: Snapshot, b: Snapshot, c: Snapshot)
    ensures MacdVote(b, a) == Buy ==> MacdVote(c, b) != Buy
    ensures MacdVote(b, a) == Sell ==> MacdVote(c, b) != Sell
  {
  }

  lemma MaEdgeTriggered(a: Snapshot, b: Snapshot, c: Snapshot)
    ensures MaVote(b, a) == Buy ==> MaVote(c, b) != Buy
    ensures MaVote(b, a) == Sell ==> MaVote(c, b) != Sell
  {
  }

  /** RSI staying below 30 on both rows is not a BUY vote. */
  lemma RsiLevelIsNotAVote(latest: Snapshot, prev: Snapshot)
    requires Less(latest.rsi, Some(30.0)) && Less(prev.rsi, Some(30.0))
    ensures RsiVote(latest, prev) == Hold
  {
  }

  /** The level votes repeat on every row that stays past its threshold. */
  lemma LevelVotesRepeat(a: Snapshot, b: Snapshot)
    requires BbVote(a) == Buy && StochVote(a) == Buy
    requires b.close == a.close && b.bbLower == a.bbLower && b.stochK == a.stochK && b.stochD == a.stochD
    ensures BbVote(b) == Buy && StochVote(b) == Buy
  {
  }

  /** A row whose only defined price columns are RSI values. */
  function RsiRow(rsi: real): Snapshot
  {
    Snapshot(None, Some(rsi), None, false, None, None, None, None, None, None)
  }

  /** The RSI votes along a whole series of rows, one per row after the first. */
  function RsiVotes(rows: seq<Snapshot>): (vs: seq<Signal>)
    ensures |rows| >= 1 ==> |vs| == |rows| - 1
  {
    if |rows| < 2 then []
    else RsiVotes(rows[..|rows| - 1]) + [RsiVote(rows[|rows| - 1], rows[|rows| - 2])]
  }

  /** RSI values 31, 29, 25, 20 cross below 30 once: the vote is BUY on the
      crossing row and HOLD on the later rows, though RSI stays below 30. */
  lemma RsiSeriesFiresOnce()
    ensures RsiVotes([RsiRow(31.0), RsiRow(29.0), RsiRow(25.0), RsiRow(20.0)]) == [Buy, Hold, Hold]
  {
    var rows := [RsiRow(31.0), RsiRow(29.0), RsiRow(25.0), RsiRow(20.0)];
    assert rows[..3] == [RsiRow(31.0), RsiRow(29.0), RsiRow(25.0)];
    assert rows[..3][..2] == [RsiRow(31.0), RsiRow(29.0)];
    assert rows[..3][..2][..1] == [RsiRow(31.0)];
  }
}
