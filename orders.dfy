/** Orders: a single buy or sell of `amount` units at bar `index`, at the
    price the series had at that bar when the order was built. */
module Orders {
  import opened Errors
  import opened Series

  datatype Side = Buy | Sell {
    function Opposite(): Side {
      if this == Buy then Sell else Buy
    }
  }

  datatype Order = Order(side: Side, index: nat, amount: real, price: real) {
    /** The same order on the other side of the market. */
    function Flipped(): Order {
      Order(side.Opposite(), index, amount, price)
    }
  }

  /** Builds an order, resolving its price from the series once, eagerly. */
  function OrderAt(side: Side, index: int, series: PriceSeries, amount: real): (r: Result<Order>)
    ensures r.Ok? <==> 0 <= index < |series|
    ensures r.Err? ==> r.error == IndexOutOfRange(index)
    ensures r.Ok? ==> r.value.side == side && r.value.index == index
                      && r.value.amount == amount && r.value.price == series[index]
  {
    match PriceAt(series, index)
    case Err(e) => Err(e)
    case Ok(p) => Ok(Order(side, index, amount, p))
  }

  /** `Order.buyAt(index, series, amount)` */
  function BuyAt(index: int, series: PriceSeries, amount: real): (r: Result<Order>)
    ensures r.Ok? <==> 0 <= index < |series|
    ensures r.Ok? ==> r.value == Order(Buy, index, amount, series[index])
  {
    OrderAt(Buy, index, series, amount)
  }

  /** `Order.sellAt(index, series, amount)` */
  function SellAt(index: int, series: PriceSeries, amount: real): (r: Result<Order>)
    ensures r.Ok? <==> 0 <= index < |series|
    ensures r.Ok? ==> r.value == Order(Sell, index, amount, series[index])
  {
    OrderAt(Sell, index, series, amount)
  }

  /** The price is fixed when the order is built: extending the series
      afterwards does not change an order already built from it. */
  lemma PriceFrozen(side: Side, index: int, series: PriceSeries, later: seq<real>, amount: real)
    requires OrderAt(side, index, series, amount).Ok?
    ensures OrderAt(side, index, series + later, amount) == OrderAt(side, index, series, amount)
  {
  }

  /** Every order of the stream, on the other side. */
  function FlipSides(os: seq<Order>): (r: seq<Order>)
    ensures |r| == |os|
    ensures forall i :: 0 <= i < |os| ==> r[i] == os[i].Flipped()
  {
    seq(|os|, i requires 0 <= i < |os| => os[i].Flipped())
  }
}
