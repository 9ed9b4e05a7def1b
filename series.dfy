/** The price series a backtest runs over: one close price per bar, indexed by
    bar number from 0. Bar details other than the price are not modelled. */
module Series {
  import opened Errors

  type PriceSeries = seq<real>

  /** The price of bar `index`, or `IndexOutOfRange` outside `[0, |series|)`. */
  function PriceAt(series: PriceSeries, index: int): Result<real>
  {
    if 0 <= index < |series| then Ok(series[index]) else Err(IndexOutOfRange(index))
  }
}
