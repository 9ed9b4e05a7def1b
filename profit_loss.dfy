/** The profit/loss criterion: the sum, in record order, of the signed
    profit of every closed position; higher is better. */
module ProfitLoss {
  import opened Errors
  import opened Orders
  import opened Positions
  import opened TradingRecords

  /** Sum of the per-position contributions, first position first. */
  function TotalProfit(ps: seq<Position>): real
  {
    if ps == [] then 0.0 else Profit(ps[0]) + TotalProfit(ps[1..])
  }

  /** `ProfitLossCriterion.calculate(series, record)` */
  function Calculate(record: TradingRecord): real
  {
    TotalProfit(record.Positions())
  }

  /** `ProfitLossCriterion.betterThan(a, b)` */
  predicate BetterThan(a: real, b: real)
  {
    a > b
  }

  /** The total is additive over positions. */
  lemma {:induction false} TotalAppend(a: seq<Position>, b: seq<Position>)
    ensures TotalProfit(a + b) == TotalProfit(a) + TotalProfit(b)
  {
    if a != [] {
      assert (a + b)[1..] == a[1..] + b;
      TotalAppend(a[1..], b);
    } else {
      assert a + b == b;
    }
  }

  /** The open position at the end of a record contributes nothing. */
  lemma OpenPositionContributesNothing(record: TradingRecord)
    ensures Calculate(record) == TotalProfit(record.closed)
  {
    var tail := if record.current.Some? then [Position(record.current.value, None)] else [];
    TotalAppend(record.closed, tail);
    assert TotalProfit(tail) == 0.0;
  }

  /** A record of one open trade and nothing else is worth 0. */
  lemma OneOpenTradeIsZero(o: Order)
    ensures Build([o]).Ok?
    ensures |Build([o]).value.Positions()| == 1 && !Build([o]).value.Positions()[0].IsClosed()
    ensures Calculate(Build([o]).value) == 0.0
  {
    assert [o][..0] == [];
    assert Build([o]) == Ok(TradingRecord([], Some(o), Some(o.index)));
    var ps := Build([o]).value.Positions();
    assert ps == [Position(o, None)];
    assert TotalProfit(ps) == Profit(ps[0]) + TotalProfit([]);
  }

  /** Mirroring every position negates the total. */
  lemma {:induction false} TotalFlipped(ps: seq<Position>)
    ensures TotalProfit(FlipAll(ps)) == -TotalProfit(ps)
  {
    if ps != [] {
      assert FlipAll(ps)[1..] == FlipAll(ps[1..]);
      FlippedProfit(ps[0]);
      TotalFlipped(ps[1..]);
    }
  }

  /** Long/short symmetry: the stream with every side reversed is accepted
      exactly when the original is, and its profit/loss is the negation. */
  lemma ShortMirrorsLong(os: seq<Order>)
    ensures Build(FlipSides(os)).Ok? <==> Build(os).Ok?
    ensures Build(os).Ok? ==> Calculate(Build(FlipSides(os)).value) == -Calculate(Build(os).value)
  {
    BuildFlipped(os);
    if Build(os).Ok? {
      var r := Build(os).value;
      FlippedPositions(r);
      TotalFlipped(r.Positions());
    }
  }

  /** Sum of the price moves, exit minus entry, of the closed positions. */
  function PriceMoves(ps: seq<Position>): real
  {
    if ps == [] then 0.0
    else (if ps[0].IsClosed() then ps[0].exit.value.price - ps[0].entry.price else 0.0) + PriceMoves(ps[1..])
  }

  /** For closed positions of one direction, all of amount `a`, the total is
      `a` times the summed price moves, negated when the direction is short. */
  lemma {:induction false} UniformTotal(ps: seq<Position>, d: Direction, a: real)
    requires forall i :: 0 <= i < |ps| ==> ps[i].IsClosed() && ps[i].Direction() == d && ps[i].entry.amount == a
    ensures TotalProfit(ps) == (if d == Long then a else -a) * PriceMoves(ps)
  {
    if ps != [] {
      UniformTotal(ps[1..], d, a);
      var m := ps[0].exit.value.price - ps[0].entry.price;
      var c := if d == Long then a else -a;
      assert Profit(ps[0]) == c * m;
      assert c * m + c * PriceMoves(ps[1..]) == c * (m + PriceMoves(ps[1..]));
    }
  }

  /** If every position gains, the total is non-negative; if every position
      loses, the total is non-positive. */
  lemma {:induction false} TotalSign(ps: seq<Position>)
    ensures (forall i :: 0 <= i < |ps| ==> Profit(ps[i]) >= 0.0) ==> TotalProfit(ps) >= 0.0
    ensures (forall i :: 0 <= i < |ps| ==> Profit(ps[i]) <= 0.0) ==> TotalProfit(ps) <= 0.0
  {
    if ps != [] {
      TotalSign(ps[1..]);
      assert forall i :: 0 <= i < |ps| - 1 ==> ps[1..][i] == ps[i + 1];
    }
  }

  /** Higher is better, strictly: an irreflexive, asymmetric, transitive
      comparison that ranks any two different values, and a value that beats
      `b` is still beaten by anything higher. */
  lemma BetterThanIsStrictOrder(a: real, b: real, c: real)
    ensures !BetterThan(a, a)
    ensures BetterThan(a, b) ==> !BetterThan(b, a)
    ensures BetterThan(a, b) && BetterThan(b, c) ==> BetterThan(a, c)
    ensures a != b ==> BetterThan(a, b) || BetterThan(b, a)
    ensures BetterThan(a, b) && c > a ==> BetterThan(c, b)
  {
  }
}
