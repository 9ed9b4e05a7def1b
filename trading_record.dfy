/** The trading record: a flat stream of orders, paired into positions by a
    two-state machine (no open position / one open position). */
module TradingRecords {
  import opened Errors
  import opened Orders
  import opened Positions

  /** `closed` is the history of closed positions, `current` the entry order
      of the open position if there is one, `lastIndex` the bar index of the
      last order consumed. */
  datatype TradingRecord = TradingRecord(closed: seq<Position>, current: Option<Order>, lastIndex: Option<nat>) {
    /** All positions in record order; only the last one may be open. */
    function Positions(): seq<Position> {
      closed + (if current.Some? then [Position(current.value, None)] else [])
    }
  }

  const Empty: TradingRecord := TradingRecord([], None, None)

  /** Consumes order `o`, the `at`-th order of the stream. With no open
      position it opens one; with one open it closes it, provided `o` is on
      the other side. An order before the previous one's bar is refused. */
  function Operate(r: TradingRecord, o: Order, at: nat): Result<TradingRecord>
  {
    if r.current.Some? && o.side == r.current.value.side then
      Err(InvalidOrderSequence(at))
    else if r.lastIndex.Some? && o.index < r.lastIndex.value then
      Err(UnorderedOrder(at))
    else if r.current.None? then
      Ok(TradingRecord(r.closed, Some(o), Some(o.index)))
    else
      Ok(TradingRecord(r.closed + [Position(r.current.value, Some(o))], None, Some(o.index)))
  }

  /** `new BaseTradingRecord(orders...)`: feeds the orders, in stream order,
      to the state machine; the first refused order ends construction. */
  function Build(os: seq<Order>): Result<TradingRecord>
    decreases |os|
  {
    if os == [] then Ok(Empty)
    else
      match Build(os[..|os| - 1])
      case Err(e) => Err(e)
      case Ok(r) => Operate(r, os[|os| - 1], |os| - 1)
  }

  /** Reference condition for a stream the record accepts: the two orders of
      each pair (1st,2nd), (3rd,4th), ... are on opposite sides, and bar
      indices never decrease. */
  predicate WellFormed(os: seq<Order>) {
    (forall k :: 0 < k < |os| && k % 2 == 1 ==> os[k - 1].side != os[k].side)
    && (forall k :: 0 < k < |os| ==> os[k - 1].index <= os[k].index)
  }

  /** What a successfully built record holds, in terms of the stream. */
  lemma {:induction false} BuildShape(os: seq<Order>)
    requires Build(os).Ok?
    ensures |Build(os).value.closed| == |os| / 2
    ensures forall k :: 0 <= k < |Build(os).value.closed| ==>
              Build(os).value.closed[k] == Position(os[2 * k], Some(os[2 * k + 1]))
    ensures Build(os).value.current == if |os| % 2 == 1 then Some(os[|os| - 1]) else None
    ensures Build(os).value.lastIndex == if os == [] then None else Some(os[|os| - 1].index)
  {
    if os != [] {
      var p := os[..|os| - 1];
      BuildShape(p);
      var r := Build(p).value;
      forall k | 0 <= k < |r.closed|
        ensures r.closed[k] == Position(os[2 * k], Some(os[2 * k + 1]))
      {
        assert os[2 * k] == p[2 * k] && os[2 * k + 1] == p[2 * k + 1];
      }
      if |p| % 2 == 1 {
        assert p[|p| - 1] == os[2 * |r.closed|];
      }
    }
  }

  lemma WellFormedSnoc(p: seq<Order>, o: Order)
    ensures WellFormed(p + [o]) <==>
              WellFormed(p)
              && (|p| % 2 == 1 ==> p[|p| - 1].side != o.side)
              && (p != [] ==> p[|p| - 1].index <= o.index)
  {
    var os := p + [o];
    assert forall k :: 0 <= k < |p| ==> os[k] == p[k];
    if WellFormed(os) {
      if |p| % 2 == 1 {
        assert os[|p| - 1].side != os[|p|].side;
      }
      if p != [] {
        assert os[|p| - 1].index <= os[|p|].index;
      }
    }
  }

  /** The record accepts exactly the well-formed streams. */
  lemma {:induction false} BuildOkIffWellFormed(os: seq<Order>)
    ensures Build(os).Ok? <==> WellFormed(os)
  {
    if os != [] {
      var p := os[..|os| - 1];
      assert os == p + [os[|os| - 1]];
      BuildOkIffWellFormed(p);
      WellFormedSnoc(p, os[|os| - 1]);
      if Build(p).Ok? {
        BuildShape(p);
      }
    }
  }

  /** Pairing: position k of the record is entered by the (2k+1)-th order and
      closed by the (2k+2)-th if there is one; its direction is the side of
      its entry order; only a trailing unmatched order is left open. */
  lemma PairingAt(os: seq<Order>, k: nat)
    requires Build(os).Ok?
    requires k < (|os| + 1) / 2
    ensures |Build(os).value.Positions()| == (|os| + 1) / 2
    ensures Build(os).value.Positions()[k].entry == os[2 * k]
    ensures Build(os).value.Positions()[k].exit == if 2 * k + 1 < |os| then Some(os[2 * k + 1]) else None
    ensures Build(os).value.Positions()[k].Direction() == if os[2 * k].side == Buy then Long else Short
    ensures Build(os).value.Positions()[k].IsClosed() <==> 2 * k + 1 < |os|
  {
    BuildShape(os);
  }

  /** Once construction has failed, later orders do not change the error. */
  lemma {:induction false} ErrorPersists(os: seq<Order>, m: nat)
    requires m <= |os| && Build(os[..m]).Err?
    ensures Build(os) == Build(os[..m])
    decreases |os| - m
  {
    if m < |os| {
      var p := os[..|os| - 1];
      assert p[..m] == os[..m];
      ErrorPersists(p, m);
    } else {
      assert os[..m] == os;
    }
  }

  /** An exit order on the same side as the open position's entry (the
      order at odd place j, after the orders before it were accepted) is
      refused at place j, whatever follows it. */
  lemma SameSideExitFails(os: seq<Order>, j: nat)
    requires j < |os| && j % 2 == 1 && Build(os[..j]).Ok?
    requires os[j - 1].side == os[j].side
    ensures Build(os) == Err(InvalidOrderSequence(j))
  {
    BuildShape(os[..j]);
    assert os[..j + 1][..j] == os[..j];
    ErrorPersists(os, j + 1);
  }

  /** An order at an earlier bar than the previous order, whose side is
      otherwise acceptable, is refused at its place j, whatever follows it. */
  lemma EarlierBarFails(os: seq<Order>, j: nat)
    requires 0 < j < |os| && Build(os[..j]).Ok?
    requires j % 2 == 1 ==> os[j - 1].side != os[j].side
    requires os[j].index < os[j - 1].index
    ensures Build(os) == Err(UnorderedOrder(j))
  {
    BuildShape(os[..j]);
    assert os[..j + 1][..j] == os[..j];
    ErrorPersists(os, j + 1);
  }

  /** The record built from the mirrored stream. */
  function FlippedRecord(r: TradingRecord): TradingRecord {
    TradingRecord(FlipAll(r.closed), if r.current.Some? then Some(r.current.value.Flipped()) else None, r.lastIndex)
  }

  lemma FlippedPositions(r: TradingRecord)
    ensures FlippedRecord(r).Positions() == FlipAll(r.Positions())
  {
  }

  /** Mirroring every order's side mirrors every position and fails in the
      same place for the same reason. */
  lemma {:induction false} BuildFlipped(os: seq<Order>)
    ensures Build(FlipSides(os)) == if Build(os).Ok? then Ok(FlippedRecord(Build(os).value)) else Build(os)
  {
    if os != [] {
      var p := os[..|os| - 1];
      var fs := FlipSides(os);
      assert fs[..|fs| - 1] == FlipSides(p);
      BuildFlipped(p);
      if Build(p).Ok? {
        var r := Build(p).value;
        var o := os[|os| - 1];
        assert fs[|fs| - 1] == o.Flipped();
        if r.current.Some? {
          assert (o.Flipped().side == r.current.value.Flipped().side) == (o.side == r.current.value.side);
        }
        assert FlipAll(r.closed + [Position(if r.current.Some? then r.current.value else o, Some(o))])
            == FlipAll(r.closed) + [Position(if r.current.Some? then r.current.value else o, Some(o)).Flipped()];
      }
    }
  }
}
