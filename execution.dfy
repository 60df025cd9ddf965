/** The trade-execution half of `execution_model` (execution.py:209-985): for one pair, size and
    validate the legs, reconcile the held quantities from the ledger, choose at most one of
    close-long, close-short, open-long and open-short from the last two states, submit the two
    legs and write their two records. The exchange's answers to the two submissions are inputs
    (`None` is a ClientError); prices and the position size are inputs too. */
module Execution {
  import opened Wrappers
  import opened Decimals
  import opened PositionStateMachine
  import opened OrderSizing
  import opened Ledger

  datatype OrderIntent = OrderIntent(symbol: string, side: Side, quantity: real, positionSide: PositionSide)

  datatype Action = CloseLong | CloseShort | OpenLong | OpenShort
  {
    predicate IsClose() { this == CloseLong || this == CloseShort }
  }

  /** The `spread` value written with the action's two records. */
  function SpreadLabel(a: Action): string {
    match a
    case CloseLong => SpreadClosed
    case CloseShort => SpreadClosed
    case OpenLong => SpreadLong
    case OpenShort => SpreadShort
  }

  /** Why the run stops: a pandas IndexError (`.iloc` on too short a series or on a symbol
      without ledger rows), a re-raised ClientError on a close, or the NameError of building a
      record from the response of an open leg whose submission failed. */
  datatype Fault = IndexError | ClientError | MissingResponse

  /** `df['in_position'].iloc[-1] == last and df['in_position'].iloc[-2] == prev`, with Python's
      short-circuit: iloc[-2] is read only when the first comparison holds. */
  function LastTwoAre(states: seq<int>, last: int, prev: int): (r: Result<bool, Fault>)
    ensures r.Ok? ==> r.value == (|states| >= 2 && states[|states| - 1] == last && states[|states| - 2] == prev)
    ensures r.Err? <==> |states| == 0 || (|states| == 1 && states[0] == last)
  {
    if |states| == 0 then Err(IndexError)
    else if states[|states| - 1] != last then Ok(false)
    else if |states| < 2 then Err(IndexError)
    else Ok(states[|states| - 2] == prev)
  }

  /** The two open checks (execution.py:626, 807), consulted whatever the ledger holds. */
  function ChooseOpen(states: seq<int>): Result<Option<Action>, Fault> {
    match LastTwoAre(states, LongSpread, Flat)
    case Err(f) => Err(f)
    case Ok(true) => Ok(Some(OpenLong))
    case Ok(false) =>
      match LastTwoAre(states, ShortSpread, Flat)
      case Err(f) => Err(f)
      case Ok(true) => Ok(Some(OpenShort))
      case Ok(false) => Ok(None)
  }

  /** Whether the pair's ledger is non-empty with a latest row of status NEW. */
  predicate LedgerOpen(rows: seq<OrderRecord>) {
    rows != [] && rows[|rows| - 1].status == StatusNew
  }

  /** Whether reconciliation, which only runs on a non-empty ledger, succeeds. */
  predicate Reconciles(rows: seq<OrderRecord>, symbol1: string, symbol2: string) {
    rows == [] || Reconcile(rows, symbol1, symbol2).Ok?
  }

  /** The action of one run (execution.py:311-346, 479-490, 626, 807). A failed reconciliation
      is an IndexError; so is a frame too short for a check that reaches `iloc[-2]` or reads
      `iloc[-1]` of nothing. */
  function ChooseAction(states: seq<int>, rows: seq<OrderRecord>, symbol1: string, symbol2: string): (r: Result<Option<Action>, Fault>)
    ensures r.Err? ==> r == Err(IndexError)
    ensures r.Err? <==>
      !Reconciles(rows, symbol1, symbol2) || |states| == 0 ||
      (|states| == 1 && (states[0] == LongSpread || states[0] == ShortSpread || (LedgerOpen(rows) && states[0] == Flat)))
    ensures r == Ok(Some(CloseLong)) <==>
      Reconciles(rows, symbol1, symbol2) && LedgerOpen(rows) && |states| >= 2 &&
      states[|states| - 2] == LongSpread && states[|states| - 1] == Flat
    ensures r == Ok(Some(CloseShort)) <==>
      Reconciles(rows, symbol1, symbol2) && LedgerOpen(rows) && |states| >= 2 &&
      states[|states| - 2] == ShortSpread && states[|states| - 1] == Flat
    ensures r == Ok(Some(OpenLong)) <==>
      Reconciles(rows, symbol1, symbol2) && |states| >= 2 &&
      states[|states| - 2] == Flat && states[|states| - 1] == LongSpread
    ensures r == Ok(Some(OpenShort)) <==>
      Reconciles(rows, symbol1, symbol2) && |states| >= 2 &&
      states[|states| - 2] == Flat && states[|states| - 1] == ShortSpread
  {
    if rows != [] && Reconcile(rows, symbol1, symbol2).Err? then Err(IndexError)
    else if LedgerOpen(rows) then
      match LastTwoAre(states, Flat, LongSpread)
      case Err(f) => Err(f)
      case Ok(true) => Ok(Some(CloseLong))
      case Ok(false) =>
        match LastTwoAre(states, Flat, ShortSpread)
        case Err(f) => Err(f)
        case Ok(true) => Ok(Some(CloseShort))
        case Ok(false) => ChooseOpen(states)
    else ChooseOpen(states)
  }

  /** The `in_position` column the state machine loop leaves in the frame. */
  function ScannedStates(bars: seq<Bar>): seq<int> {
    seq(|bars|, k requires 0 <= k < |bars| => StateAt(bars, k))
  }

  /** On the states the loop produces, the action is decided by the second-to-last bar: its
      state and which of its thresholds the z-score meets. With two or more bars the only
      failure left is a failed reconciliation. */
  lemma ActionFromScan(bars: seq<Bar>, rows: seq<OrderRecord>, symbol1: string, symbol2: string)
    requires |bars| >= 2
    ensures var r := ChooseAction(ScannedStates(bars), rows, symbol1, symbol2);
      var p := StateAt(bars, |bars| - 2);
      var b := bars[|bars| - 2];
      var ok := Reconciles(rows, symbol1, symbol2);
      && (r.Err? <==> !ok)
      && (r == Ok(Some(OpenLong)) <==> ok && p == Flat && AtOrBelowNegated(b.zscore, b.entry))
      && (r == Ok(Some(OpenShort)) <==>
            ok && p == Flat && !AtOrBelowNegated(b.zscore, b.entry) && AtOrAbove(b.zscore, b.entry))
      && (r == Ok(Some(CloseLong)) <==> ok && LedgerOpen(rows) && p == LongSpread && AtOrAbove(b.zscore, b.exit))
      && (r == Ok(Some(CloseShort)) <==>
            ok && LedgerOpen(rows) && p == ShortSpread && AtOrBelowNegated(b.zscore, b.exit))
  {
    var n := |bars|;
    var states := ScannedStates(bars);
    assert states[n - 2] == StateAt(bars, n - 2) && states[n - 1] == StateAt(bars, n - 1);
    StepTable(StateAt(bars, n - 2), bars[n - 2]);
  }

  /** The two legs of an action: leg 1 on symbol_1 and leg 2 on symbol_2, with the sides of
      execution.py:344-346, 488-490, 638, 658, 819, 839. */
  function LegOrders(a: Action, symbol1: string, symbol2: string, qty1: real, qty2: real): (legs: (OrderIntent, OrderIntent))
    ensures legs.0.symbol == symbol1 && legs.1.symbol == symbol2
    ensures legs.0.quantity == qty1 && legs.1.quantity == qty2
    ensures legs.0.side != legs.1.side && legs.0.positionSide != legs.1.positionSide
    ensures (a == CloseLong || a == OpenShort) <==> legs.0.side == Sell
    ensures (a == OpenLong || a == CloseLong) <==> legs.0.positionSide == LongSide
  {
    match a
    case CloseLong => (OrderIntent(symbol1, Sell, qty1, LongSide), OrderIntent(symbol2, Buy, qty2, ShortSide))
    case CloseShort => (OrderIntent(symbol1, Buy, qty1, ShortSide), OrderIntent(symbol2, Sell, qty2, LongSide))
    case OpenLong => (OrderIntent(symbol1, Buy, qty1, LongSide), OrderIntent(symbol2, Sell, qty2, ShortSide))
    case OpenShort => (OrderIntent(symbol1, Sell, qty1, ShortSide), OrderIntent(symbol2, Buy, qty2, LongSide))
  }

  /** The inputs of one pair's turn: its symbols, the states of its frame, live prices, the
      instruments' constraints, the position size, and the exchange's answers to the first and
      second leg submissions (`None` stands for a ClientError). */
  datatype PairTurn = PairTurn(
    symbol1: string, symbol2: string, states: seq<int>,
    price1: real, price2: real, asset1: Asset, asset2: Asset, positionSize: real,
    answer1: Option<OrderResponse>, answer2: Option<OrderResponse>)
  {
    /** Exchange prices and lot sizes are positive. */
    predicate Priced() {
      price1 > 0.0 && price2 > 0.0 && asset1.minLotSize.Value() > 0.0 && asset2.minLotSize.Value() > 0.0
    }
  }

  /** What one pair's turn does: skipped by validation (`continue`), completed (orders submitted,
      records written; both empty when no action fires), or aborted (the exception leaves
      `execution_model`) after submitting some legs and writing nothing. */
  datatype PairOutcome =
    | Skipped(reason: SizingError)
    | Completed(action: Option<Action>, submitted: seq<OrderIntent>, written: seq<OrderRecord>)
    | Aborted(fault: Fault, action: Option<Action>, submitted: seq<OrderIntent>)

  /** Submit the two legs and build the records. A close re-raises a ClientError at once; an open
      swallows it, still submits leg 2, and then fails to build the missing leg's record. An order
      id of 0 is only logged. */
  function Submit(a: Action, pair: string, leg1: OrderIntent, leg2: OrderIntent,
                  answer1: Option<OrderResponse>, answer2: Option<OrderResponse>): (o: PairOutcome)
    ensures !o.Skipped? && o.action == Some(a)
    ensures o.Completed? <==> answer1.Some? && answer2.Some?
    ensures o.Completed? ==>
      (o.submitted == [leg1, leg2] &&
       o.written == [MakeRecord(answer1.value, pair, 1, SpreadLabel(a)), MakeRecord(answer2.value, pair, 2, SpreadLabel(a))])
    ensures o.Aborted? && a.IsClose() ==>
      (o.fault == ClientError && o.submitted == (if answer1.None? then [leg1] else [leg1, leg2]))
    ensures o.Aborted? && !a.IsClose() ==> o.fault == MissingResponse && o.submitted == [leg1, leg2]
  {
    if a.IsClose() && answer1.None? then Aborted(ClientError, Some(a), [leg1])
    else if answer1.None? || answer2.None? then
      Aborted(if a.IsClose() then ClientError else MissingResponse, Some(a), [leg1, leg2])
    else
      var spread := SpreadLabel(a);
      Completed(Some(a), [leg1, leg2],
                [MakeRecord(answer1.value, pair, 1, spread), MakeRecord(answer2.value, pair, 2, spread)])
  }

  /** The pair's rows of the ledger. */
  function TurnRows(t: PairTurn, ledger: seq<OrderRecord>): seq<OrderRecord> {
    PairRows(ledger, PairName(t.symbol1, t.symbol2))
  }

  /** The turn after a successful validation, given the validated sizing. */
  function PlanValidated(t: PairTurn, ledger: seq<OrderRecord>, sizing: Sizing): PairOutcome
  {
    var pair := PairName(t.symbol1, t.symbol2);
    var rows := TurnRows(t, ledger);
    match ChooseAction(t.states, rows, t.symbol1, t.symbol2)
    case Err(f) => Aborted(f, None, [])
    case Ok(None) => Completed(None, [], [])
    case Ok(Some(a)) =>
      var (qty1, qty2) :=
        if a.IsClose() then
          var b := Reconcile(rows, t.symbol1, t.symbol2).value; (b.qty1, b.qty2)
        else (sizing.quantity1, sizing.quantity2);
      var (leg1, leg2) := LegOrders(a, t.symbol1, t.symbol2, qty1, qty2);
      Submit(a, pair, leg1, leg2, t.answer1, t.answer2)
  }

  /** One pair's turn of the `for index, row in trading_pairs.iterrows()` loop. Validation comes
      first and a failed check submits nothing; otherwise the chosen action's legs are
      submitted, a close sized by the reconciled ledger quantities and an open by the target
      quantities. */
  function PlanPair(t: PairTurn, ledger: seq<OrderRecord>): PairOutcome
    requires t.Priced()
  {
    match SizeLegs(t.positionSize, t.price1, t.price2, t.asset1, t.asset2)
    case Err(e) => Skipped(e)
    case Ok(sizing) => PlanValidated(t, ledger, sizing)
  }

  /** What a validated turn does: a failed reconciliation aborts before any order; a close
      submits the legs sized by the reconciled balances, the second only when the first was
      answered; an open submits both legs at the target quantities; the records written are
      the two answers tagged with the pair, their order in it and the spread label. */
  lemma PlanValidatedContract(t: PairTurn, ledger: seq<OrderRecord>, sizing: Sizing)
    ensures !PlanValidated(t, ledger, sizing).Skipped?
    ensures var o := PlanValidated(t, ledger, sizing);
      var choice := ChooseAction(t.states, TurnRows(t, ledger), t.symbol1, t.symbol2);
      && (choice.Err? ==> o == Aborted(choice.error, None, []))
      && (choice.Ok? ==> o.action == choice.value)
    ensures var o := PlanValidated(t, ledger, sizing);
      o.action.Some? && o.action.value.IsClose() ==>
        (var b := Reconcile(TurnRows(t, ledger), t.symbol1, t.symbol2).value;
         var legs := LegOrders(o.action.value, t.symbol1, t.symbol2, b.qty1, b.qty2);
         && 1 <= |o.submitted| <= 2
         && o.submitted[0] == legs.0
         && (|o.submitted| == 2 ==> o.submitted[1] == legs.1))
    ensures var o := PlanValidated(t, ledger, sizing);
      o.action.Some? && !o.action.value.IsClose() ==>
        (var legs := LegOrders(o.action.value, t.symbol1, t.symbol2, sizing.quantity1, sizing.quantity2);
         o.submitted == [legs.0, legs.1])
    ensures var o := PlanValidated(t, ledger, sizing);
      o.Completed? && o.written != [] ==>
        (&& |o.written| == 2 && o.action.Some?
         && o.written[0].pair == PairName(t.symbol1, t.symbol2) && o.written[1].pair == PairName(t.symbol1, t.symbol2)
         && o.written[0].pairOrder == 1 && o.written[1].pairOrder == 2
         && o.written[0].spread == SpreadLabel(o.action.value) && o.written[1].spread == SpreadLabel(o.action.value)
         && t.answer1.Some? && t.answer2.Some?
         && o.written[0] == MakeRecord(t.answer1.value, PairName(t.symbol1, t.symbol2), 1, SpreadLabel(o.action.value))
         && o.written[1] == MakeRecord(t.answer2.value, PairName(t.symbol1, t.symbol2), 2, SpreadLabel(o.action.value)))
  {
  }

  /** A turn is skipped exactly when sizing rejects it, for sizing's reason; otherwise it is
      the validated turn at the sizing's quantities. */
  lemma PlanPairContract(t: PairTurn, ledger: seq<OrderRecord>)
    requires t.Priced()
    ensures var o := PlanPair(t, ledger);
      o.Skipped? <==> SizeLegs(t.positionSize, t.price1, t.price2, t.asset1, t.asset2).Err?
    ensures var o := PlanPair(t, ledger);
      o.Skipped? ==> o.reason == SizeLegs(t.positionSize, t.price1, t.price2, t.asset1, t.asset2).error
    ensures var o := PlanPair(t, ledger);
      !o.Skipped? ==> o == PlanValidated(t, ledger, SizeLegs(t.positionSize, t.price1, t.price2, t.asset1, t.asset2).value)
  {
  }

  /** At most one of the four actions can fire: their state conditions exclude each other. */
  lemma ActionsExclusive(states: seq<int>)
    requires |states| >= 2
    ensures var guards := [LastTwoAre(states, Flat, LongSpread), LastTwoAre(states, Flat, ShortSpread),
                          LastTwoAre(states, LongSpread, Flat), LastTwoAre(states, ShortSpread, Flat)];
      forall i, j :: 0 <= i < j < 4 ==> !(guards[i] == Ok(true) && guards[j] == Ok(true))
  {
  }

  /** What a close submits for a symbol: its last `orig_qty` when the latest row is an open
      spread, and 0 otherwise. */
  function CloseQty(rows: seq<OrderRecord>, symbol: string): real
    requires rows != []
  {
    if OpenSpreadRow(rows[|rows| - 1]) && LastQty(rows, symbol).Some? then LastQty(rows, symbol).value else 0.0
  }

  /** A close is sized from the ledger alone: each leg's quantity is that symbol's last
      `orig_qty` when the latest row is an open spread (both symbols then have rows), and 0
      otherwise, never the target quantity. */
  lemma CloseSizedFromLedger(t: PairTurn, ledger: seq<OrderRecord>)
    requires t.Priced()
    requires var o := PlanPair(t, ledger); !o.Skipped? && o.action.Some? && o.action.value.IsClose()
    ensures var o := PlanPair(t, ledger);
      var rows := TurnRows(t, ledger);
      && LedgerOpen(rows)
      && (OpenSpreadRow(rows[|rows| - 1]) ==> LastQty(rows, t.symbol1).Some? && LastQty(rows, t.symbol2).Some?)
      && |o.submitted| >= 1
      && o.submitted[0].quantity == CloseQty(rows, t.symbol1)
      && (|o.submitted| == 2 ==> o.submitted[1].quantity == CloseQty(rows, t.symbol2))
  {
    PlanPairContract(t, ledger);
    PlanValidatedContract(t, ledger, SizeLegs(t.positionSize, t.price1, t.price2, t.asset1, t.asset2).value);
  }

  /** The records written for an open read back, on the next reconciliation, as the opened
      quantities when the exchange answered with the pair's symbols and status NEW. */
  lemma OpenThenReconcile(t: PairTurn, ledger: seq<OrderRecord>)
    requires t.Priced() && t.symbol1 != t.symbol2
    requires var o := PlanPair(t, ledger); o.Completed? && o.action.Some? && !o.action.value.IsClose()
    requires t.answer1.Some? && t.answer2.Some?
    requires t.answer1.value.symbol == t.symbol1 && t.answer2.value.symbol == t.symbol2
    requires t.answer2.value.status == StatusNew
    ensures var after := ledger + PlanPair(t, ledger).written;
      Reconcile(TurnRows(t, after), t.symbol1, t.symbol2) ==
        Ok(Balances(t.answer1.value.origQty, t.answer2.value.origQty))
  {
    WrittenPairReadBack(t, ledger);
  }

  /** After a close, the pair's latest row is labelled closed, so it reconciles to nothing held. */
  lemma CloseThenReconcile(t: PairTurn, ledger: seq<OrderRecord>)
    requires t.Priced() && t.symbol1 != t.symbol2
    requires var o := PlanPair(t, ledger); o.Completed? && o.action.Some? && o.action.value.IsClose()
    requires t.answer1.Some? && t.answer2.Some?
    requires t.answer1.value.symbol == t.symbol1 && t.answer2.value.symbol == t.symbol2
    ensures var after := ledger + PlanPair(t, ledger).written;
      Reconcile(TurnRows(t, after), t.symbol1, t.symbol2) == Ok(Balances(0.0, 0.0))
  {
    WrittenPairReadBack(t, ledger);
  }

  lemma WrittenPairReadBack(t: PairTurn, ledger: seq<OrderRecord>)
    requires t.Priced() && t.symbol1 != t.symbol2
    requires var o := PlanPair(t, ledger); o.Completed? && o.action.Some?
    requires t.answer1.Some? && t.answer2.Some?
    requires t.answer1.value.symbol == t.symbol1 && t.answer2.value.symbol == t.symbol2
    ensures var o := PlanPair(t, ledger);
      var pair := PairName(t.symbol1, t.symbol2);
      TurnRows(t, ledger + o.written) == TurnRows(t, ledger) + o.written &&
      o.written == [MakeRecord(t.answer1.value, pair, 1, SpreadLabel(o.action.value)),
                    MakeRecord(t.answer2.value, pair, 2, SpreadLabel(o.action.value))]
    ensures var o := PlanPair(t, ledger);
      var rec2 := MakeRecord(t.answer2.value, PairName(t.symbol1, t.symbol2), 2, SpreadLabel(o.action.value));
      Reconcile(TurnRows(t, ledger + o.written), t.symbol1, t.symbol2) ==
        if OpenSpreadRow(rec2) then Ok(Balances(t.answer1.value.origQty, t.answer2.value.origQty))
        else Ok(Balances(0.0, 0.0))
  {
    var o := PlanPair(t, ledger);
    var pair := PairName(t.symbol1, t.symbol2);
    PlanPairContract(t, ledger);
    PlanValidatedContract(t, ledger, SizeLegs(t.positionSize, t.price1, t.price2, t.asset1, t.asset2).value);
    PairRowsAppend(ledger, o.written, pair);
    PairRowsOfOwn(o.written, pair);
    var rec1 := o.written[0];
    var rec2 := o.written[1];
    assert o.written == [rec1, rec2];
    ReconcileAfterPair(TurnRows(t, ledger), rec1, rec2, t.symbol1, t.symbol2);
  }

  /** A long spread recorded with orig_qty 5 and 7 on its two legs closes with a sell of 5
      and a buy of 7, whatever quantities sizing would give now. */
  lemma CloseLongExample()
    ensures var r1 := OrderRecord(1, "AUSDT", "AUSDT-BUSDT", 1, StatusNew, SpreadLong, 5.0, Buy, LongSide, 10);
      var r2 := OrderRecord(2, "BUSDT", "AUSDT-BUSDT", 2, StatusNew, SpreadLong, 7.0, Sell, ShortSide, 10);
      var b := Reconcile([r1, r2], "AUSDT", "BUSDT");
      && b == Ok(Balances(5.0, 7.0))
      && LegOrders(CloseLong, "AUSDT", "BUSDT", b.value.qty1, b.value.qty2) ==
           (OrderIntent("AUSDT", Sell, 5.0, LongSide), OrderIntent("BUSDT", Buy, 7.0, ShortSide))
  {
    var r1 := OrderRecord(1, "AUSDT", "AUSDT-BUSDT", 1, StatusNew, SpreadLong, 5.0, Buy, LongSide, 10);
    var r2 := OrderRecord(2, "BUSDT", "AUSDT-BUSDT", 2, StatusNew, SpreadLong, 7.0, Sell, ShortSide, 10);
    ReconcileAfterPair([], r1, r2, "AUSDT", "BUSDT");
  }

  /** Pairs are independent: records written for other pairs do not change a pair's turn. */
  lemma OtherPairsDoNotInterfere(t: PairTurn, ledger: seq<OrderRecord>, others: seq<OrderRecord>)
    requires t.Priced()
    requires forall k :: 0 <= k < |others| ==> others[k].pair != PairName(t.symbol1, t.symbol2)
    ensures PlanPair(t, ledger + others) == PlanPair(t, ledger)
  {
    var pair := PairName(t.symbol1, t.symbol2);
    PairRowsAppend(ledger, others, pair);
    PairRowsOfOthers(others, pair);
    assert TurnRows(t, ledger + others) == TurnRows(t, ledger);
  }

  /** The ledger after a turn: a completed turn appends its records, the others append
      nothing. */
  function Record(ledger: seq<OrderRecord>, o: PairOutcome): seq<OrderRecord> {
    if o.Completed? then ledger + o.written else ledger
  }

  /** The run over all pairs: each turn sees the records of the turns before it; an aborted
      turn ends the run. */
  function RunSpec(turns: seq<PairTurn>, ledger: seq<OrderRecord>): (seq<PairOutcome>, seq<OrderRecord>)
    requires forall k :: 0 <= k < |turns| ==> turns[k].Priced()
  {
    if turns == [] then ([], ledger)
    else
      var o := PlanPair(turns[0], ledger);
      if o.Aborted? then ([o], ledger)
      else
        var rest := RunSpec(turns[1..], Record(ledger, o));
        ([o] + rest.0, rest.1)
  }

  /** The run yields at most one outcome per pair and stops exactly at its first aborted turn. */
  lemma {:induction false} RunSpecStopsAtAbort(turns: seq<PairTurn>, ledger: seq<OrderRecord>)
    requires forall k :: 0 <= k < |turns| ==> turns[k].Priced()
    ensures var outcomes := RunSpec(turns, ledger).0;
      && |outcomes| <= |turns|
      && (forall k :: 0 <= k < |outcomes| - 1 ==> !outcomes[k].Aborted?)
      && (|outcomes| < |turns| ==> outcomes != [] && outcomes[|outcomes| - 1].Aborted?)
  {
    if turns != [] {
      var o := PlanPair(turns[0], ledger);
      if !o.Aborted? {
        var rest := RunSpec(turns[1..], Record(ledger, o)).0;
        RunSpecStopsAtAbort(turns[1..], Record(ledger, o));
        assert RunSpec(turns, ledger).0 == [o] + rest;
      }
    }
  }

  /** The run only ever appends to the ledger. */
  lemma {:induction false} RunSpecAppends(turns: seq<PairTurn>, ledger: seq<OrderRecord>)
    requires forall k :: 0 <= k < |turns| ==> turns[k].Priced()
    ensures var after := RunSpec(turns, ledger).1;
      |ledger| <= |after| && after[..|ledger|] == ledger
  {
    if turns != [] {
      var o := PlanPair(turns[0], ledger);
      if !o.Aborted? {
        var next := Record(ledger, o);
        RunSpecAppends(turns[1..], next);
        assert RunSpec(turns, ledger).1 == RunSpec(turns[1..], next).1;
        assert next[..|ledger|] == ledger;
      }
    }
  }

  /** One step of the run, unfolded at position i. */
  lemma RunSpecStep(turns: seq<PairTurn>, i: nat, ledger: seq<OrderRecord>)
    requires forall k :: 0 <= k < |turns| ==> turns[k].Priced()
    requires i < |turns|
    ensures var o := PlanPair(turns[i], ledger);
      RunSpec(turns[i..], ledger) ==
        if o.Aborted? then ([o], ledger)
        else ([o] + RunSpec(turns[i + 1..], Record(ledger, o)).0, RunSpec(turns[i + 1..], Record(ledger, o)).1)
  {
    assert turns[i..][0] == turns[i];
    assert turns[i..][1..] == turns[i + 1..];
  }

  /** The loop of execution.py:90-985 over the trading pairs, with the ledger it appends to. */
  method RunPairs(turns: seq<PairTurn>, ledger0: seq<OrderRecord>) returns (outcomes: seq<PairOutcome>, ledger: seq<OrderRecord>)
    requires forall k :: 0 <= k < |turns| ==> turns[k].Priced()
    ensures (outcomes, ledger) == RunSpec(turns, ledger0)
  {
    outcomes, ledger := [], ledger0;
    var i := 0;
    assert turns[i..] == turns;
    assert outcomes + RunSpec(turns, ledger0).0 == RunSpec(turns, ledger0).0;
    while i < |turns|
      invariant 0 <= i <= |turns|
      invariant RunSpec(turns, ledger0) ==
        (outcomes + RunSpec(turns[i..], ledger).0, RunSpec(turns[i..], ledger).1)
    {
      var o := PlanPair(turns[i], ledger);
      RunSpecStep(turns, i, ledger);
      if o.Aborted? {
        outcomes := outcomes + [o];
        return;
      }
      ghost var here := RunSpec(turns[i..], ledger);
      ghost var rest := RunSpec(turns[i + 1..], Record(ledger, o));
      assert here == ([o] + rest.0, rest.1);
      assert outcomes + here.0 == (outcomes + [o]) + rest.0;
      outcomes := outcomes + [o];
      ledger := Record(ledger, o);
      i := i + 1;
    }
    assert turns[i..] == [];
    assert outcomes + [] == outcomes;
  }
}
