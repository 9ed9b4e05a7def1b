/** The concrete backtests: two six-bar price series, long and short round
    trips of 50 units over them, a lone open trade and the comparison. */
module Scenarios {
  import opened Errors
  import opened Series
  import opened Orders
  import opened Positions
  import opened TradingRecords
  import opened ProfitLoss

  const GainSeries: PriceSeries := [100.0, 105.0, 110.0, 100.0, 95.0, 105.0]
  const LossSeries: PriceSeries := [100.0, 95.0, 100.0, 80.0, 85.0, 70.0]

  /** `Order.buyAt` or `Order.sellAt` of 50 units at bar `i`. */
  function Leg(side: Side, i: int, series: PriceSeries): Result<Order>
  {
    if side == Buy then BuyAt(i, series, 50.0) else SellAt(i, series, 50.0)
  }

  /** Four alternating orders opening at `first` on bars i0, i1, i2, i3. */
  function RoundTrips(first: Side, series: PriceSeries, i0: int, i1: int, i2: int, i3: int): Result<seq<Order>>
  {
    var a := Leg(first, i0, series);
    var b := Leg(first.Opposite(), i1, series);
    var c := Leg(first, i2, series);
    var d := Leg(first.Opposite(), i3, series);
    if a.Err? then Err(a.error)
    else if b.Err? then Err(b.error)
    else if c.Err? then Err(c.error)
    else if d.Err? then Err(d.error)
    else Ok([a.value, b.value, c.value, d.value])
  }

  lemma RoundTripsFlipped(first: Side, series: PriceSeries, i0: int, i1: int, i2: int, i3: int)
    requires RoundTrips(first, series, i0, i1, i2, i3).Ok?
    ensures RoundTrips(first.Opposite(), series, i0, i1, i2, i3).Ok?
    ensures RoundTrips(first.Opposite(), series, i0, i1, i2, i3).value
         == FlipSides(RoundTrips(first, series, i0, i1, i2, i3).value)
  {
    assert first.Opposite().Opposite() == first;
  }

  /** Buy 0, sell 2, buy 3, sell 5 on the rising series: 500 + 250. */
  lemma CalculateOnlyWithGainTrades()
    ensures BuyAt(0, GainSeries, 50.0) == Ok(Order(Buy, 0, 50.0, 100.0))
    ensures RoundTrips(Buy, GainSeries, 0, 2, 3, 5).Ok?
    ensures Build(RoundTrips(Buy, GainSeries, 0, 2, 3, 5).value).Ok?
    ensures var ps := Build(RoundTrips(Buy, GainSeries, 0, 2, 3, 5).value).value.Positions();
            |ps| == 2 && ps[0].Direction() == Long && ps[1].Direction() == Long
            && Profit(ps[0]) == 500.0 && Profit(ps[1]) == 250.0
    ensures Calculate(Build(RoundTrips(Buy, GainSeries, 0, 2, 3, 5).value).value) == 500.0 + 250.0
  {
    var os := RoundTrips(Buy, GainSeries, 0, 2, 3, 5).value;
    assert os == [Order(Buy, 0, 50.0, 100.0), Order(Sell, 2, 50.0, 110.0),
                  Order(Buy, 3, 50.0, 100.0), Order(Sell, 5, 50.0, 105.0)];
    PricedRecord(os);
  }

  /** Buy 0, sell 1, buy 2, sell 5 on the falling series: -250 - 1500. */
  lemma CalculateOnlyWithLossTrades()
    ensures RoundTrips(Buy, LossSeries, 0, 1, 2, 5).Ok?
    ensures Build(RoundTrips(Buy, LossSeries, 0, 1, 2, 5).value).Ok?
    ensures var ps := Build(RoundTrips(Buy, LossSeries, 0, 1, 2, 5).value).value.Positions();
            |ps| == 2 && ps[0].Direction() == Long && ps[1].Direction() == Long
            && Profit(ps[0]) == -250.0 && Profit(ps[1]) == -1500.0
    ensures Calculate(Build(RoundTrips(Buy, LossSeries, 0, 1, 2, 5).value).value) == -250.0 - 1500.0
  {
    var os := RoundTrips(Buy, LossSeries, 0, 1, 2, 5).value;
    assert os == [Order(Buy, 0, 50.0, 100.0), Order(Sell, 1, 50.0, 95.0),
                  Order(Buy, 2, 50.0, 100.0), Order(Sell, 5, 50.0, 70.0)];
    PricedRecord(os);
  }

  /** Sell 0, buy 2, sell 3, buy 5 on the rising series: -(500 + 250). */
  lemma CalculateShortOnlyWithGainTrades()
    ensures RoundTrips(Sell, GainSeries, 0, 2, 3, 5).Ok?
    ensures Build(RoundTrips(Sell, GainSeries, 0, 2, 3, 5).value).Ok?
    ensures Calculate(Build(RoundTrips(Sell, GainSeries, 0, 2, 3, 5).value).value) == -(500.0 + 250.0)
  {
    CalculateOnlyWithGainTrades();
    RoundTripsFlipped(Buy, GainSeries, 0, 2, 3, 5);
    ShortMirrorsLong(RoundTrips(Buy, GainSeries, 0, 2, 3, 5).value);
  }

  /** Sell 0, buy 1, sell 2, buy 5 on the falling series: 250 + 1500. */
  lemma CalculateShortOnlyWithLossTrades()
    ensures RoundTrips(Sell, LossSeries, 0, 1, 2, 5).Ok?
    ensures Build(RoundTrips(Sell, LossSeries, 0, 1, 2, 5).value).Ok?
    ensures Calculate(Build(RoundTrips(Sell, LossSeries, 0, 1, 2, 5).value).value) == 250.0 + 1500.0
  {
    CalculateOnlyWithLossTrades();
    RoundTripsFlipped(Buy, LossSeries, 0, 1, 2, 5);
    ShortMirrorsLong(RoundTrips(Buy, LossSeries, 0, 1, 2, 5).value);
  }

  /** The record built from four alternating, index-ordered orders is two
      closed positions, and its total is their two contributions added. */
  lemma PricedRecord(os: seq<Order>)
    requires |os| == 4 && WellFormed(os)
    ensures Build(os).Ok?
    ensures Build(os).value.Positions() == [Position(os[0], Some(os[1])), Position(os[2], Some(os[3]))]
    ensures Calculate(Build(os).value) == Profit(Position(os[0], Some(os[1]))) + Profit(Position(os[2], Some(os[3])))
  {
    BuildOkIffWellFormed(os);
    BuildShape(os);
    var ps := Build(os).value.Positions();
    assert ps == Build(os).value.closed;
    assert ps[1..] == [ps[1]] && ps[1..][1..] == [];
    assert TotalProfit(ps[1..]) == Profit(ps[1]) + TotalProfit([]);
  }

  /** A single buy at bar 0 of the rising series, never sold: one open
      position, worth 0. */
  lemma CalculateOneOpenTradeShouldReturnZero()
    ensures BuyAt(0, GainSeries, 50.0).Ok?
    ensures Build([BuyAt(0, GainSeries, 50.0).value]).Ok?
    ensures var ps := Build([BuyAt(0, GainSeries, 50.0).value]).value.Positions();
            |ps| == 1 && !ps[0].IsClosed() && ps[0].Direction() == Long
    ensures Calculate(Build([BuyAt(0, GainSeries, 50.0).value]).value) == 0.0
  {
    OneOpenTradeIsZero(BuyAt(0, GainSeries, 50.0).value);
  }

  /** `betterThan(5000, 4500)` holds and `betterThan(4500, 5000)` does not. */
  lemma BetterThanScenario()
    ensures BetterThan(5000.0, 4500.0)
    ensures !BetterThan(4500.0, 5000.0)
  {
  }
}
