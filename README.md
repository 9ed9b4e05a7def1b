# Profit/loss criterion of a trading backtest

This project models the profit/loss trading criterion of ta4j. The model
covers the criterion as its unit test pins it down, together with the pieces
the test builds it from:

- a **price series**: one close price per bar, indexed from 0 (`Series`);
- **orders**: a side (buy or sell), a bar index, an amount and a price. The price
  is read from the series once, when `BuyAt`/`SellAt` builds the order
  (`Orders`);
- **positions**: an entry order and an optional exit order. The entry side
  sets the direction: buy is long, sell is short (`Positions`);
- the **trading record**: a two-state machine, "no open position" or "one open
  position", that consumes a flat order stream and pairs orders (1st,2nd),
  (3rd,4th), and so on. A trailing unmatched order stays open
  (`TradingRecords`);
- the **criterion**: `Calculate` sums, in record order, each closed
  position's (exit price − entry price) × amount, negated for short positions.
  Open positions contribute 0. `BetterThan(a, b)` is `a > b` (`ProfitLoss`);
- the test's six scenarios as ground lemmas (`Scenarios`).

Prices and amounts are Dafny `real`, so all arithmetic is exact.

The test builds only streams the record accepts. For the streams it never
builds, the results below are this model's own choice. They are not taken
from ta4j. An exit order on the same side as its entry gives
`InvalidOrderSequence`. An order at a lower bar index than the previous
order gives `UnorderedOrder`. The side is checked before the index, and each
error carries the refused order's place in the stream. An order built at a bar outside the series gives
`IndexOutOfRange`. `BuildOkIffWellFormed` characterises exactly which streams
the record accepts.

## Model

| member | source | states |
|---|---|---|
| Series.PriceAt | ta4j-core/src/test/java/org/ta4j/core/analysis/criteria/ProfitLossCriterionTest.java:45-46 | the bar price lookup; no contract of its own; `OrderAt` states what it gives: the price `series[i]` for a bar inside the series, `IndexOutOfRange` outside |
| Orders.OrderAt | ta4j-core/src/test/java/org/ta4j/core/analysis/criteria/ProfitLossCriterionTest.java:45-48 | an order is built exactly when its bar is inside the series; it keeps the requested side, bar and amount; its price is the series price at that bar; otherwise the result is `IndexOutOfRange` |
| Orders.BuyAt | ta4j-core/src/test/java/org/ta4j/core/analysis/criteria/ProfitLossCriterionTest.java:46 | `buyAt(i, series, a)` is a buy of `a` at bar `i` priced at `series[i]` (e.g. bar 0 at 100), defined exactly for bars inside the series |
| Orders.SellAt | ta4j-core/src/test/java/org/ta4j/core/analysis/criteria/ProfitLossCriterionTest.java:47-48 | `sellAt(i, series, a)` is a sell of `a` at bar `i` priced at `series[i]`, defined exactly for bars inside the series |
| Orders.PriceFrozen | ta4j-core/src/test/java/org/ta4j/core/analysis/criteria/ProfitLossCriterionTest.java:45-48 | the price is fixed when the order is built: extending the series later does not change an order already built |
| Positions.Profit | ta4j-core/src/test/java/org/ta4j/core/analysis/criteria/ProfitLossCriterionTest.java:95-97 | an open position contributes exactly 0 |
| Positions.FlippedProfit | ta4j-core/src/test/java/org/ta4j/core/analysis/criteria/ProfitLossCriterionTest.java:66-85 | mirroring a position's sides flips its direction, keeps it open or closed, and negates its profit |
| TradingRecords.BuildShape | ta4j-core/src/test/java/org/ta4j/core/analysis/criteria/ProfitLossCriterionTest.java:46-48 | an accepted stream of n orders gives n/2 closed positions; closed position k is (order 2k, order 2k+1); an odd trailing order is the open position; the last bar seen is the last order's |
| TradingRecords.BuildOkIffWellFormed | ta4j-core/src/test/java/org/ta4j/core/analysis/criteria/ProfitLossCriterionTest.java:46-48 | the record accepts a stream if and only if each pair's two orders are on opposite sides and bar indices never decrease |
| TradingRecords.PairingAt | ta4j-core/src/test/java/org/ta4j/core/analysis/criteria/ProfitLossCriterionTest.java:46-70 | position k has entry order 2k and exit order 2k+1 when one exists, otherwise it is open; its direction is long exactly when its entry is a buy (line 46), short when a sell (line 68) |
| TradingRecords.SameSideExitFails | ta4j-core/src/test/java/org/ta4j/core/analysis/criteria/ProfitLossCriterionTest.java:46-48 | in any stream whose first j orders are accepted, an order at odd place j on the same side as its entry makes construction fail with `InvalidOrderSequence(j)`, whatever follows it |
| TradingRecords.EarlierBarFails | ta4j-core/src/test/java/org/ta4j/core/analysis/criteria/ProfitLossCriterionTest.java:46-48 | in any stream whose first j orders are accepted, an order at place j with an acceptable side but a lower bar index than order j−1 makes construction fail with `UnorderedOrder(j)`, whatever follows it |
| TradingRecords.ErrorPersists | ta4j-core/src/test/java/org/ta4j/core/analysis/criteria/ProfitLossCriterionTest.java:46-48 | once a prefix of the stream is refused, the whole stream fails with that same error |
| TradingRecords.Build | ta4j-core/src/test/java/org/ta4j/core/analysis/criteria/ProfitLossCriterionTest.java:46-48 | the `BaseTradingRecord` constructor over an order stream; no contract of its own; what it builds is stated by `BuildShape`, `PairingAt` and `BuildOkIffWellFormed`, its errors by `SameSideExitFails`, `EarlierBarFails` and `ErrorPersists` |
| TradingRecords.Operate | ta4j-core/src/test/java/org/ta4j/core/analysis/criteria/ProfitLossCriterionTest.java:46-48 | one step of the pairing state machine; no contract of its own; its behaviour is stated through `Build` by the lemmas of the row above |
| TradingRecords.WellFormed | ta4j-core/src/test/java/org/ta4j/core/analysis/criteria/ProfitLossCriterionTest.java:46-70 | the reference condition for accepted streams: each pair's orders are on opposite sides and bar indices never decrease; `BuildOkIffWellFormed` proves `Build` accepts exactly these streams |
| TradingRecords.BuildFlipped | ta4j-core/src/test/java/org/ta4j/core/analysis/criteria/ProfitLossCriterionTest.java:66-85 | reversing every order's side turns each position into its mirror, and a refused stream fails with the same error |
| ProfitLoss.TotalAppend | ta4j-core/src/test/java/org/ta4j/core/analysis/criteria/ProfitLossCriterionTest.java:51 | the total is additive over positions in record order (500 + 250) |
| ProfitLoss.OpenPositionContributesNothing | ta4j-core/src/test/java/org/ta4j/core/analysis/criteria/ProfitLossCriterionTest.java:95-97 | a record's profit/loss equals the total of its closed positions alone |
| ProfitLoss.OneOpenTradeIsZero | ta4j-core/src/test/java/org/ta4j/core/analysis/criteria/ProfitLossCriterionTest.java:94-97 | any single order gives a record with one open position whose profit/loss is 0 |
| ProfitLoss.TotalFlipped | ta4j-core/src/test/java/org/ta4j/core/analysis/criteria/ProfitLossCriterionTest.java:73 | mirroring every position negates the total |
| ProfitLoss.ShortMirrorsLong | ta4j-core/src/test/java/org/ta4j/core/analysis/criteria/ProfitLossCriterionTest.java:66-85 | the side-reversed stream is accepted exactly when the original is, and its profit/loss is the negation of the original's |
| ProfitLoss.UniformTotal | ta4j-core/src/test/java/org/ta4j/core/analysis/criteria/ProfitLossCriterionTest.java:44-63 | for closed positions of one direction and equal amount a, the total is a × Σ(exit − entry), negated for short |
| ProfitLoss.TotalSign | ta4j-core/src/test/java/org/ta4j/core/analysis/criteria/ProfitLossCriterionTest.java:43-63 | if every position gains, the total is ≥ 0; if every position loses, the total is ≤ 0 |
| ProfitLoss.BetterThanIsStrictOrder | ta4j-core/src/test/java/org/ta4j/core/analysis/criteria/ProfitLossCriterionTest.java:87-92 | a strict order: irreflexive, asymmetric, transitive, and any two different values are ranked; higher is better: a value above one that beats `b` also beats `b` |
| ProfitLoss.BetterThan | ta4j-core/src/test/java/org/ta4j/core/analysis/criteria/ProfitLossCriterionTest.java:90-91 | `betterThan(a, b)`; no contract of its own; its laws are stated by `BetterThanIsStrictOrder`, the test's pair by `BetterThanScenario` |
| ProfitLoss.Calculate | ta4j-core/src/test/java/org/ta4j/core/analysis/criteria/ProfitLossCriterionTest.java:51 | `calculate(series, record)`; no contract of its own; `OpenPositionContributesNothing` reduces it to the closed positions, `UniformTotal` and `TotalAppend` state its value, `ShortMirrorsLong` relates short and long records |
| ProfitLoss.TotalProfit | ta4j-core/src/test/java/org/ta4j/core/analysis/criteria/ProfitLossCriterionTest.java:51 | the sum of per-position profits in record order; no contract of its own; additive by `TotalAppend`, negated by mirroring by `TotalFlipped`, signed by `TotalSign` |
| ProfitLoss.PriceMoves | ta4j-core/src/test/java/org/ta4j/core/analysis/criteria/ProfitLossCriterionTest.java:44-63 | the reference sum of exit − entry prices over closed positions; no contract of its own; `UniformTotal` proves the total is ±amount times it |
| Scenarios.CalculateOnlyWithGainTrades | ta4j-core/src/test/java/org/ta4j/core/analysis/criteria/ProfitLossCriterionTest.java:43-52 | prices [100,105,110,100,95,105]; buy 0, sell 2, buy 3, sell 5 at 50: two long positions worth 500 and 250, total 750 |
| Scenarios.CalculateOnlyWithLossTrades | ta4j-core/src/test/java/org/ta4j/core/analysis/criteria/ProfitLossCriterionTest.java:54-63 | prices [100,95,100,80,85,70]; buy 0, sell 1, buy 2, sell 5 at 50: two long positions worth −250 and −1500, total −1750 |
| Scenarios.CalculateShortOnlyWithGainTrades | ta4j-core/src/test/java/org/ta4j/core/analysis/criteria/ProfitLossCriterionTest.java:65-74 | the same trades entered with sells on the first series total −750 |
| Scenarios.CalculateShortOnlyWithLossTrades | ta4j-core/src/test/java/org/ta4j/core/analysis/criteria/ProfitLossCriterionTest.java:76-85 | the same trades entered with sells on the second series total 1750 |
| Scenarios.CalculateOneOpenTradeShouldReturnZero | ta4j-core/src/test/java/org/ta4j/core/analysis/criteria/ProfitLossCriterionTest.java:94-97 | a single buy at bar 0 of the rising series, never sold, gives one open long position and a profit/loss of 0 |
| Scenarios.BetterThanScenario | ta4j-core/src/test/java/org/ta4j/core/analysis/criteria/ProfitLossCriterionTest.java:87-92 | `betterThan(5000, 4500)` holds and `betterThan(4500, 5000)` does not |

## Left out

- The pluggable numeric backend (`Function<Number, Num>`): values are exact `real`s. Floating-point rounding and the tolerance of `assertNumEquals` are not modelled.
- The JUnit test harness and `AbstractCriterionTest` are not part of this model.
- `openedTradeUtils` is not part of this model. Its asserted outcome is modelled: one open trade, built from any order, is worth 0.
- The library's own handling of streams with same-side exits or decreasing bar indices is not reproduced: the errors, their order of checking and the place they carry are this model's choice.
- Bar data other than the close price (open, high, low, volume, time) is not modelled. `MockBarSeries` is a sequence of prices.
- ProfitLoss.Calculate: takes only the record. The series argument of `calculate` is dropped because each order carries the price fixed when it was built (Orders.PriceFrozen).
- Positions.Profit: multiplies by the entry amount and ignores the exit amount. Every trade in the test uses 50 on both sides.
- Fees, slippage and partial fills are not modelled.
- The criterion interface with its other implementations is not modelled. Profit/loss is the only criterion here.
