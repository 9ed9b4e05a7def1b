/** Positions: an entry order and, once the trade is closed, its exit order.
    A position entered with a buy is long, one entered with a sell is short. */
module Positions {
  import opened Errors
  import opened Orders

  datatype Direction = Long | Short

  datatype Position = Position(entry: Order, exit: Option<Order>) {
    function Direction(): Direction {
      if entry.side == Buy then Long else Short
    }

    predicate IsClosed() {
      exit.Some?
    }

    /** The mirror trade: both orders on the other side. */
    function Flipped(): Position {
      Position(entry.Flipped(), if exit.Some? then Some(exit.value.Flipped()) else None)
    }
  }

  /** Signed profit or loss of one position: the price move from entry to
      exit times the entry amount, negated for a short position; an open
      position contributes nothing. */
  function Profit(p: Position): (r: real)
    ensures !p.IsClosed() ==> r == 0.0
  {
    match p.exit
    case None => 0.0
    case Some(x) =>
      var delta := (x.price - p.entry.price) * p.entry.amount;
      if p.Direction() == Long then delta else -delta
  }

  /** A short position's profit is the negation of the long position over the
      same bars, prices and amount. */
  lemma FlippedProfit(p: Position)
    ensures p.Flipped().Direction() != p.Direction()
    ensures p.Flipped().IsClosed() == p.IsClosed()
    ensures Profit(p.Flipped()) == -Profit(p)
  {
  }

  /** Every position of the sequence, mirrored: the counterpart, on
      positions, of `Orders.FlipSides` on orders. */
  function FlipAll(ps: seq<Position>): (r: seq<Position>)
    ensures |r| == |ps|
    ensures forall i :: 0 <= i < |ps| ==> r[i] == ps[i].Flipped()
  {
    seq(|ps|, i requires 0 <= i < |ps| => ps[i].Flipped())
  }
}
