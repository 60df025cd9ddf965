/** The `orders` table as the execution engine reads and writes it (execution.py:222-230,
    310-326, 349-406): one row per submitted leg, and the reconciliation of the pair's held
    quantities from the latest rows. */
module Ledger {
  import opened Wrappers

  const StatusNew: string := "NEW"
  const SpreadLong: string := "long"
  const SpreadShort: string := "short"
  const SpreadClosed: string := "closed"

  datatype Side = Buy | Sell
  datatype PositionSide = LongSide | ShortSide

  /** The fields of an exchange order response that the ledger keeps. */
  datatype OrderResponse = OrderResponse(
    orderId: int, symbol: string, status: string, origQty: real,
    side: Side, positionSide: PositionSide, updateTime: int)

  /** A row of `orders`. */
  datatype OrderRecord = OrderRecord(
    orderId: int, symbol: string, pair: string, pairOrder: int, status: string, spread: string,
    origQty: real, side: Side, positionSide: PositionSide, updateTime: int)

  /** The pair's name, `f'{symbol_1}-{symbol_2}'`. */
  function PairName(symbol1: string, symbol2: string): string {
    symbol1 + "-" + symbol2
  }

  /** The one record constructor shared by the four branches: the response's fields, tagged
      with the pair, the leg number and the spread label. */
  function MakeRecord(resp: OrderResponse, pair: string, pairOrder: int, spread: string): OrderRecord {
    OrderRecord(resp.orderId, resp.symbol, pair, pairOrder, resp.status, spread,
                resp.origQty, resp.side, resp.positionSide, resp.updateTime)
  }

  /** `SELECT ... FROM orders WHERE pair = :pair_symbol`, rows kept in the ledger's order. */
  function PairRows(ledger: seq<OrderRecord>, pair: string): (rows: seq<OrderRecord>)
    ensures forall r :: r in rows ==> r in ledger && r.pair == pair
    ensures forall r :: r in ledger && r.pair == pair ==> r in rows
    ensures |rows| <= |ledger|
  {
    if ledger == [] then []
    else if ledger[|ledger| - 1].pair == pair then PairRows(ledger[..|ledger| - 1], pair) + [ledger[|ledger| - 1]]
    else PairRows(ledger[..|ledger| - 1], pair)
  }

  /** Appending rows of the pair appends them to the pair's rows. */
  lemma {:induction false} PairRowsAppend(ledger: seq<OrderRecord>, more: seq<OrderRecord>, pair: string)
    ensures PairRows(ledger + more, pair) == PairRows(ledger, pair) + PairRows(more, pair)
    decreases |more|
  {
    if more == [] {
      assert ledger + more == ledger;
    } else {
      var init := more[..|more| - 1];
      assert (ledger + more)[..|ledger + more| - 1] == ledger + init;
      PairRowsAppend(ledger, init, pair);
    }
  }

  /** `positions[positions['symbol'] == symbol]['orig_qty'].iloc[-1]`: the quantity of the last
      row for the symbol, absent when it has none. */
  function LastQty(rows: seq<OrderRecord>, symbol: string): (q: Option<real>)
    ensures q.None? <==> forall k :: 0 <= k < |rows| ==> rows[k].symbol != symbol
    ensures q.Some? ==> exists k :: 0 <= k < |rows| && rows[k].symbol == symbol && rows[k].origQty == q.value &&
                                    forall j :: k < j < |rows| ==> rows[j].symbol != symbol
  {
    if rows == [] then None
    else if rows[|rows| - 1].symbol == symbol then Some(rows[|rows| - 1].origQty)
    else LastQty(rows[..|rows| - 1], symbol)
  }

  datatype Balances = Balances(qty1: real, qty2: real)

  /** The latest row says a spread is open. */
  predicate OpenSpreadRow(r: OrderRecord) {
    r.status == StatusNew && (r.spread == SpreadShort || r.spread == SpreadLong)
  }

  /** The held quantities (execution.py:311-324): when the latest row is an open spread, each
      symbol's last `orig_qty` (a symbol without rows raises IndexError, `Err`); otherwise 0. */
  function Reconcile(rows: seq<OrderRecord>, symbol1: string, symbol2: string): (r: Result<Balances, string>)
    requires rows != []
    ensures !OpenSpreadRow(rows[|rows| - 1]) ==> r == Ok(Balances(0.0, 0.0))
    ensures OpenSpreadRow(rows[|rows| - 1]) ==>
      (r.Ok? <==> LastQty(rows, symbol1).Some? && LastQty(rows, symbol2).Some?)
    ensures OpenSpreadRow(rows[|rows| - 1]) && r.Ok? ==>
      r.value == Balances(LastQty(rows, symbol1).value, LastQty(rows, symbol2).value)
  {
    if OpenSpreadRow(rows[|rows| - 1]) then
      match LastQty(rows, symbol1)
      case None => Err(symbol1)
      case Some(q1) =>
        match LastQty(rows, symbol2)
        case None => Err(symbol2)
        case Some(q2) => Ok(Balances(q1, q2))
    else Ok(Balances(0.0, 0.0))
  }

  /** Reconciling after a leg pair was appended reads that pair back. */
  lemma ReconcileAfterPair(rows: seq<OrderRecord>, rec1: OrderRecord, rec2: OrderRecord, symbol1: string, symbol2: string)
    requires rec1.symbol == symbol1 && rec2.symbol == symbol2 && symbol1 != symbol2
    ensures OpenSpreadRow(rec2) ==>
      Reconcile(rows + [rec1, rec2], symbol1, symbol2) == Ok(Balances(rec1.origQty, rec2.origQty))
    ensures !OpenSpreadRow(rec2) ==>
      Reconcile(rows + [rec1, rec2], symbol1, symbol2) == Ok(Balances(0.0, 0.0))
  {
    var all := rows + [rec1, rec2];
    assert all[..|all| - 1] == rows + [rec1];
    assert LastQty(all, symbol2) == Some(rec2.origQty);
    assert LastQty(all, symbol1) == LastQty(rows + [rec1], symbol1);
    assert LastQty(rows + [rec1], symbol1) == Some(rec1.origQty);
  }

  /** Rows of other pairs never show up among a pair's rows. */
  lemma {:induction false} PairRowsOfOthers(more: seq<OrderRecord>, pair: string)
    requires forall k :: 0 <= k < |more| ==> more[k].pair != pair
    ensures PairRows(more, pair) == []
  {
    if more != [] {
      PairRowsOfOthers(more[..|more| - 1], pair);
    }
  }

  /** Rows all tagged with the pair are all kept, in order. */
  lemma {:induction false} PairRowsOfOwn(more: seq<OrderRecord>, pair: string)
    requires forall k :: 0 <= k < |more| ==> more[k].pair == pair
    ensures PairRows(more, pair) == more
  {
    if more != [] {
      PairRowsOfOwn(more[..|more| - 1], pair);
      assert more[..|more| - 1] + [more[|more| - 1]] == more;
    }
  }
}
