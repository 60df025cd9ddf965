/** The decision rules of the daily ingestion in data_fetch.py: which exchange symbols become
    assets, where their lot size and minimum notional come from, when a symbol's price history
    is fetched again, and how the inserts are batched into commits. The database is modelled
    as the sequence of statements issued to it. */
module Ingestion {
  import opened Wrappers

  const StatusTrading := "TRADING"
  const LotSizeFilter := "LOT_SIZE"
  const MinNotionalFilter := "MIN_NOTIONAL"
  const MinQtyField := "minQty"
  const NotionalField := "notional"
  /** Asset inserts are committed ten at a time (data_fetch.py:81), price histories twenty at a
      time (data_fetch.py:157). */
  const AssetBatch: nat := 10
  const PriceBatch: nat := 20

  /** One entry of an exchange symbol's `filters`, its numeric fields already parsed. */
  datatype Filter = Filter(filterType: string, fields: map<string, real>)

  /** One entry of `exchangeInfo['symbols']`. */
  datatype SymbolInfo = SymbolInfo(symbol: string, status: string, filters: seq<Filter>)

  /** `[item['symbol'] for item in data['symbols'] if item['status'] == 'TRADING']`. */
  function TradingSymbols(data: seq<SymbolInfo>): (symbols: seq<string>)
    ensures |symbols| <= |data|
    ensures forall s :: s in symbols <==> exists k :: 0 <= k < |data| && data[k].status == StatusTrading && data[k].symbol == s
  {
    if data == [] then []
    else (if data[0].status == StatusTrading then [data[0].symbol] else []) + TradingSymbols(data[1..])
  }

  /** `next((item for item in data['symbols'] if item['symbol'] == symbol), None)`. */
  function FindSymbol(data: seq<SymbolInfo>, symbol: string): Option<SymbolInfo> {
    if data == [] then None
    else if data[0].symbol == symbol then Some(data[0])
    else FindSymbol(data[1..], symbol)
  }

  /** The lookup finds nothing exactly when no entry has the symbol, and otherwise the first entry
      that has it. */
  lemma {:induction false} FindSymbolFirst(data: seq<SymbolInfo>, symbol: string)
    ensures var r := FindSymbol(data, symbol);
      && (r.None? <==> forall k :: 0 <= k < |data| ==> data[k].symbol != symbol)
      && (r.Some? ==> exists k :: 0 <= k < |data| && data[k] == r.value && r.value.symbol == symbol &&
                                 forall j :: 0 <= j < k ==> data[j].symbol != symbol)
  {
    if data != [] && data[0].symbol != symbol {
      FindSymbolFirst(data[1..], symbol);
      var r := FindSymbol(data[1..], symbol);
      if r.Some? {
        var k :| 0 <= k < |data| - 1 && data[1..][k] == r.value && r.value.symbol == symbol &&
                 forall j :: 0 <= j < k ==> data[1..][j].symbol != symbol;
        assert data[k + 1] == r.value;
        assert forall j :: 0 < j < k + 1 ==> data[j] == data[1..][j - 1];
      } else {
        assert forall k :: 1 <= k < |data| ==> data[k] == data[1..][k - 1];
      }
    }
  }

  /** `next((item for item in filters if item['filterType'] == filterType), None)`. */
  function FindFilter(filters: seq<Filter>, filterType: string): Option<Filter> {
    if filters == [] then None
    else if filters[0].filterType == filterType then Some(filters[0])
    else FindFilter(filters[1..], filterType)
  }

  /** The lookup finds nothing exactly when no filter has the type, and otherwise the first filter
      that has it. */
  lemma {:induction false} FindFilterFirst(filters: seq<Filter>, filterType: string)
    ensures var r := FindFilter(filters, filterType);
      && (r.None? <==> forall k :: 0 <= k < |filters| ==> filters[k].filterType != filterType)
      && (r.Some? ==> exists k :: 0 <= k < |filters| && filters[k] == r.value && r.value.filterType == filterType &&
                                 forall j :: 0 <= j < k ==> filters[j].filterType != filterType)
  {
    if filters != [] && filters[0].filterType != filterType {
      FindFilterFirst(filters[1..], filterType);
      var r := FindFilter(filters[1..], filterType);
      if r.Some? {
        var k :| 0 <= k < |filters| - 1 && filters[1..][k] == r.value && r.value.filterType == filterType &&
                 forall j :: 0 <= j < k ==> filters[1..][j].filterType != filterType;
        assert filters[k + 1] == r.value;
        assert forall j :: 0 < j < k + 1 ==> filters[j] == filters[1..][j - 1];
      } else {
        assert forall k :: 1 <= k < |filters| ==> filters[k] == filters[1..][k - 1];
      }
    }
  }

  /** Subscripting `None` raises TypeError; a missing key raises KeyError. Neither is caught in the
      asset loop, so either ends the run. */
  datatype Fault = NoneSubscript | MissingKey

  /** `lookup[field]` where `lookup` is the result of a `next(..., None)`. */
  function FieldOf(f: Option<Filter>, field: string): (r: Result<real, Fault>)
    ensures r == Err(NoneSubscript) <==> f.None?
    ensures r == Err(MissingKey) <==> f.Some? && field !in f.value.fields
    ensures r.Ok? ==> f.Some? && field in f.value.fields && r.value == f.value.fields[field]
  {
    if f.None? then Err(NoneSubscript)
    else if field !in f.value.fields then Err(MissingKey)
    else Ok(f.value.fields[field])
  }

  /** The row inserted into `asset`; `trading` is always 1. */
  datatype NewAsset = NewAsset(symbol: string, minLotSize: real, trading: int, minNotional: real)

  /** The asset row of data_fetch.py:49-71: the lot size is the `minQty` of the first LOT_SIZE
      filter and the minimum notional the `notional` of the first MIN_NOTIONAL filter. */
  function AssetRow(data: seq<SymbolInfo>, symbol: string): Result<NewAsset, Fault>
  {
    match FindSymbol(data, symbol)
    case None => Err(NoneSubscript)
    case Some(info) =>
      match FieldOf(FindFilter(info.filters, LotSizeFilter), MinQtyField)
      case Err(e) => Err(e)
      case Ok(lot) =>
        match FieldOf(FindFilter(info.filters, MinNotionalFilter), NotionalField)
        case Err(e) => Err(e)
        case Ok(notional) => Ok(NewAsset(symbol, lot, 1, notional))
  }

  /** The first filter of the given type carries `field` with value `v`. */
  ghost predicate FirstFilterValue(filters: seq<Filter>, filterType: string, field: string, v: real) {
    exists k :: 0 <= k < |filters| && filters[k].filterType == filterType &&
      (forall j :: 0 <= j < k ==> filters[j].filterType != filterType) &&
      field in filters[k].fields && filters[k].fields[field] == v
  }

  /** The first filter of the given type exists and carries `field`. */
  predicate HasField(filters: seq<Filter>, filterType: string, field: string) {
    FindFilter(filters, filterType).Some? && field in FindFilter(filters, filterType).value.fields
  }

  /** A row is built exactly when the symbol's first LOT_SIZE filter has a `minQty` and its first
      MIN_NOTIONAL filter a `notional`; the row then carries those two values. Without the LOT_SIZE
      filter (or the symbol) the fault is the TypeError, and a LOT_SIZE failure wins over a
      MIN_NOTIONAL one. */
  lemma AssetRowFromFilters(data: seq<SymbolInfo>, symbol: string)
    requires FindSymbol(data, symbol).Some?
    ensures var r := AssetRow(data, symbol);
      var filters := FindSymbol(data, symbol).value.filters;
      && (r.Ok? <==> HasField(filters, LotSizeFilter, MinQtyField) && HasField(filters, MinNotionalFilter, NotionalField))
      && (r.Ok? ==> r.value.symbol == symbol && r.value.trading == 1 &&
                    FirstFilterValue(filters, LotSizeFilter, MinQtyField, r.value.minLotSize) &&
                    FirstFilterValue(filters, MinNotionalFilter, NotionalField, r.value.minNotional))
      && ((forall k :: 0 <= k < |filters| ==> filters[k].filterType != LotSizeFilter) ==> r == Err(NoneSubscript))
      && ((HasField(filters, LotSizeFilter, MinQtyField) &&
           (forall k :: 0 <= k < |filters| ==> filters[k].filterType != MinNotionalFilter)) ==> r == Err(NoneSubscript))
      && (FindFilter(filters, LotSizeFilter).Some? && !HasField(filters, LotSizeFilter, MinQtyField) ==> r == Err(MissingKey))
  {
    var filters := FindSymbol(data, symbol).value.filters;
    FindFilterFirst(filters, LotSizeFilter);
    FindFilterFirst(filters, MinNotionalFilter);
  }

  /** A trading symbol is always found again in the exchange data, so the asset loop can only fail
      on a missing filter or field. */
  lemma TradingSymbolsFound(data: seq<SymbolInfo>, symbol: string)
    requires symbol in TradingSymbols(data)
    ensures FindSymbol(data, symbol).Some?
    ensures AssetRow(data, symbol).Err? ==>
      var filters := FindSymbol(data, symbol).value.filters;
      FindFilter(filters, LotSizeFilter).None? || FindFilter(filters, MinNotionalFilter).None? ||
      MinQtyField !in FindFilter(filters, LotSizeFilter).value.fields ||
      NotionalField !in FindFilter(filters, MinNotionalFilter).value.fields
  {
    FindSymbolFirst(data, symbol);
  }

  /** The database's answer to one asset insert. */
  datatype InsertAnswer = Inserted | UniqueViolation | OtherDbError

  /** The statements issued to the database. */
  datatype Event = InsertAsset(asset: NewAsset) | InsertPrices(symbol: string) | Commit | Rollback

  /** The batching step: the counter goes up by one and, on reaching the batch size, a commit is
      issued and the counter is reset. */
  function Tick(count: nat, size: nat): (seq<Event>, nat) {
    if count + 1 == size then ([Commit], 0) else ([], count + 1)
  }

  /** The statements for one new symbol and the counter after it (data_fetch.py:68-84): the
      insert, a rollback when it hit a unique violation, then the counter tick. */
  function Attempt(row: NewAsset, a: InsertAnswer, count: nat): (seq<Event>, nat) {
    var tried := [InsertAsset(row)] + (if a == UniqueViolation then [Rollback] else []);
    var (batch, next) := Tick(count, AssetBatch);
    (tried + batch, next)
  }

  /** One new symbol's insert and counter tick, as the loop body runs them. */
  method AttemptInsert(row: NewAsset, a: InsertAnswer, count: nat) returns (step: seq<Event>, next: nat)
    ensures (step, next) == Attempt(row, a, count)
  {
    step := [InsertAsset(row)];
    if a == UniqueViolation {
      step := step + [Rollback];
    }
    ghost var tried := step;
    assert tried == [InsertAsset(row)] + (if a == UniqueViolation then [Rollback] else []);
    next := count + 1;
    if next == AssetBatch {
      step := step + [Commit];
      next := 0;
    } else {
      assert step == tried + [];
    }
  }

  /** The statements of the asset loop so far, its counter, and the fault that ended it, if any. */
  datatype AssetPhase = AssetPhase(events: seq<Event>, count: nat, fault: Option<Fault>)

  /** data_fetch.py:40-84 over the remaining symbols: a symbol already in the asset table is
      skipped; otherwise its row is built and inserted (a unique violation is rolled back, any
      other database error only logged), and the counter ticks either way. */
  function AssetSteps(data: seq<SymbolInfo>, symbols: seq<string>, existing: set<string>,
                      answer: string -> InsertAnswer, count: nat): AssetPhase
    decreases |symbols|
  {
    if symbols == [] then AssetPhase([], count, None)
    else if symbols[0] in existing then AssetSteps(data, symbols[1..], existing, answer, count)
    else match AssetRow(data, symbols[0])
      case Err(f) => AssetPhase([], count, Some(f))
      case Ok(row) =>
        var (step, next) := Attempt(row, answer(symbols[0]), count);
        var rest := AssetSteps(data, symbols[1..], existing, answer, next);
        AssetPhase(step + rest.events, rest.count, rest.fault)
  }

  /** What data_fetch.py:41-84 does with one selected symbol: the statements it issues, the
      counter after it, and the fault that ends the loop, if any. A stored symbol issues nothing. */
  function AssetStep(data: seq<SymbolInfo>, symbol: string, existing: set<string>, a: InsertAnswer,
                     count: nat): (seq<Event>, nat, Option<Fault>)
  {
    if symbol in existing then ([], count, None)
    else match AssetRow(data, symbol)
      case Err(f) => ([], count, Some(f))
      case Ok(row) =>
        var (step, next) := Attempt(row, a, count);
        (step, next, None)
  }

  /** The body of the asset loop for one symbol. */
  method ProcessSymbol(data: seq<SymbolInfo>, symbol: string, existing: set<string>, a: InsertAnswer,
                       count: nat) returns (step: seq<Event>, next: nat, fault: Option<Fault>)
    ensures (step, next, fault) == AssetStep(data, symbol, existing, a, count)
  {
    if symbol in existing {
      return [], count, None;
    }
    var row := AssetRow(data, symbol);
    if row.Err? {
      return [], count, Some(row.error);
    }
    step, next := AttemptInsert(row.value, a, count);
    fault := None;
  }

  /** The phase of the whole loop once `done` has been issued and `rest` is what the remaining
      symbols give. */
  function Resume(done: seq<Event>, rest: AssetPhase): AssetPhase {
    AssetPhase(done + rest.events, rest.count, rest.fault)
  }

  /** One symbol at position i that raises no fault moves the loop one position on. */
  lemma AssetStepsAdvance(data: seq<SymbolInfo>, symbols: seq<string>, i: nat, existing: set<string>,
                          answer: string -> InsertAnswer, count: nat, done: seq<Event>,
                          step: seq<Event>, next: nat)
    requires i < |symbols|
    requires AssetStep(data, symbols[i], existing, answer(symbols[i]), count) == (step, next, None)
    ensures Resume(done, AssetSteps(data, symbols[i..], existing, answer, count)) ==
      Resume(done + step, AssetSteps(data, symbols[i + 1..], existing, answer, next))
  {
    assert symbols[i..][0] == symbols[i] && symbols[i..][1..] == symbols[i + 1..];
    var rest := AssetSteps(data, symbols[i + 1..], existing, answer, next);
    if symbols[i] in existing {
      assert step == [];
      assert done + [] == done;
    } else {
      assert AssetSteps(data, symbols[i..], existing, answer, count).events == step + rest.events;
    }
    assert done + (step + rest.events) == (done + step) + rest.events;
  }

  /** A symbol at position i whose row cannot be built ends the loop with that fault and nothing
      more issued. */
  lemma AssetStepsStop(data: seq<SymbolInfo>, symbols: seq<string>, i: nat, existing: set<string>,
                       answer: string -> InsertAnswer, count: nat, done: seq<Event>,
                       step: seq<Event>, next: nat, f: Fault)
    requires i < |symbols|
    requires AssetStep(data, symbols[i], existing, answer(symbols[i]), count) == (step, next, Some(f))
    ensures Resume(done, AssetSteps(data, symbols[i..], existing, answer, count)) == AssetPhase(done, count, Some(f))
  {
    assert symbols[i..][0] == symbols[i];
    assert done + [] == done;
  }

  /** The asset loop of data_fetch.py:39-86, ending with an unconditional commit. */
  method IngestAssets(data: seq<SymbolInfo>, existing: set<string>, answer: string -> InsertAnswer)
    returns (events: seq<Event>, fault: Option<Fault>)
    ensures var p := AssetSteps(data, TradingSymbols(data), existing, answer, 0);
      fault == p.fault && events == p.events + (if p.fault.None? then [Commit] else [])
  {
    var symbols := TradingSymbols(data);
    events, fault := [], None;
    var count := 0;
    var i := 0;
    assert symbols[i..] == symbols;
    assert Resume([], AssetSteps(data, symbols, existing, answer, 0)) == AssetSteps(data, symbols, existing, answer, 0);
    while i < |symbols|
      invariant 0 <= i <= |symbols|
      invariant AssetSteps(data, symbols, existing, answer, 0) == Resume(events, AssetSteps(data, symbols[i..], existing, answer, count))
    {
      var step, next, f := ProcessSymbol(data, symbols[i], existing, answer(symbols[i]), count);
      if f.Some? {
        AssetStepsStop(data, symbols, i, existing, answer, count, events, step, next, f.value);
        fault := f;
        return;
      }
      AssetStepsAdvance(data, symbols, i, existing, answer, count, events, step, next);
      events, count := events + step, next;
      i := i + 1;
    }
    assert symbols[i..] == [];
    assert events + [] == events;
    events := events + [Commit];
  }

  /** The stored price range of a symbol: `MIN(open_time)` and `MAX(close_time)`, both NULL when
      it has no rows. */
  datatype Coverage = Coverage(firstOpen: int, lastClose: int)

  /** data_fetch.py:133: the history is fetched when nothing is stored, or the stored range starts
      after the requested start or ends before the requested end. */
  predicate NeedsFetch(stored: Option<Coverage>, start: int, end: int) {
    stored.None? || stored.value.firstOpen > start || stored.value.lastClose < end
  }

  /** A stored range that covers the request is not fetched again, and any other is. */
  lemma NeedsFetchIffUncovered(stored: Option<Coverage>, start: int, end: int)
    ensures !NeedsFetch(stored, start, end) <==>
      stored.Some? && stored.value.firstOpen <= start && end <= stored.value.lastClose
  {
  }

  /** How the fetch-and-insert of one symbol ends: normally, or with one of the exceptions the
      handlers of data_fetch.py:162-176 distinguish. */
  datatype FetchAnswer = FetchOk | PostgresError | IndexErr | ClientErr | TypeErr | OtherError

  /** The handlers that roll the transaction back: psycopg2.Error and the catch-all Exception. */
  predicate RollsBack(a: FetchAnswer) {
    a == PostgresError || a == OtherError
  }

  datatype PricePhase = PricePhase(events: seq<Event>, count: nat)

  /** data_fetch.py:111-179 over the remaining symbols: a covered symbol is skipped; otherwise a
      successful fetch inserts its bars and ticks the counter, a database or unexpected error rolls
      back, and an index, client or type error is only logged. */
  function PriceSteps(symbols: seq<string>, stored: string -> Option<Coverage>, start: int, end: int,
                      answer: string -> FetchAnswer, count: nat): PricePhase
    decreases |symbols|
  {
    if symbols == [] then PricePhase([], count)
    else
      var s := symbols[0];
      if !NeedsFetch(stored(s), start, end) then PriceSteps(symbols[1..], stored, start, end, answer, count)
      else if answer(s) == FetchOk then
        var (batch, next) := Tick(count, PriceBatch);
        var rest := PriceSteps(symbols[1..], stored, start, end, answer, next);
        PricePhase([InsertPrices(s)] + batch + rest.events, rest.count)
      else
        var rest := PriceSteps(symbols[1..], stored, start, end, answer, count);
        PricePhase((if RollsBack(answer(s)) then [Rollback] else []) + rest.events, rest.count)
  }

  /** The price loop of data_fetch.py:110-188, ending with a commit only when the counter is
      non-zero. */
  method IngestPrices(symbols: seq<string>, stored: string -> Option<Coverage>, start: int, end: int,
                      answer: string -> FetchAnswer) returns (events: seq<Event>)
    ensures var p := PriceSteps(symbols, stored, start, end, answer, 0);
      events == p.events + (if p.count > 0 then [Commit] else [])
  {
    events := [];
    var count := 0;
    var i := 0;
    assert symbols[i..] == symbols;
    while i < |symbols|
      invariant 0 <= i <= |symbols|
      invariant var rest := PriceSteps(symbols[i..], stored, start, end, answer, count);
        PriceSteps(symbols, stored, start, end, answer, 0) == PricePhase(events + rest.events, rest.count)
    {
      var symbol := symbols[i];
      assert symbols[i..][0] == symbol && symbols[i..][1..] == symbols[i + 1..];
      if NeedsFetch(stored(symbol), start, end) {
        ghost var before := events;
        match answer(symbol)
        case FetchOk =>
          ghost var (batch, next) := Tick(count, PriceBatch);
          ghost var rest := PriceSteps(symbols[i + 1..], stored, start, end, answer, next);
          assert events + ([InsertPrices(symbol)] + batch + rest.events) ==
            (events + [InsertPrices(symbol)] + batch) + rest.events;
          events := events + [InsertPrices(symbol)];
          count := count + 1;
          if count == PriceBatch {
            events := events + [Commit];
            count := 0;
          }
          assert events == before + [InsertPrices(symbol)] + batch && count == next;
        case PostgresError =>
          events := events + [Rollback];
          assert before + ([Rollback] + PriceSteps(symbols[i + 1..], stored, start, end, answer, count).events) ==
            events + PriceSteps(symbols[i + 1..], stored, start, end, answer, count).events;
        case OtherError =>
          events := events + [Rollback];
          assert before + ([Rollback] + PriceSteps(symbols[i + 1..], stored, start, end, answer, count).events) ==
            events + PriceSteps(symbols[i + 1..], stored, start, end, answer, count).events;
        case IndexErr =>
          assert [] + PriceSteps(symbols[i + 1..], stored, start, end, answer, count).events ==
            PriceSteps(symbols[i + 1..], stored, start, end, answer, count).events;
        case ClientErr =>
          assert [] + PriceSteps(symbols[i + 1..], stored, start, end, answer, count).events ==
            PriceSteps(symbols[i + 1..], stored, start, end, answer, count).events;
        case TypeErr =>
          assert [] + PriceSteps(symbols[i + 1..], stored, start, end, answer, count).events ==
            PriceSteps(symbols[i + 1..], stored, start, end, answer, count).events;
      }
      i := i + 1;
    }
    assert symbols[i..] == [];
    assert events + [] == events;
    if count > 0 {
      events := events + [Commit];
    }
  }

  /** The whole of data_fetch: the asset loop, then, unless it ended on a fault, the price loop over
      all trading symbols. */
  method DataFetch(data: seq<SymbolInfo>, existing: set<string>, insertAnswer: string -> InsertAnswer,
                   stored: string -> Option<Coverage>, start: int, end: int, fetchAnswer: string -> FetchAnswer)
    returns (events: seq<Event>, fault: Option<Fault>)
    ensures var assets := AssetSteps(data, TradingSymbols(data), existing, insertAnswer, 0);
      var prices := PriceSteps(TradingSymbols(data), stored, start, end, fetchAnswer, 0);
      && fault == assets.fault
      && (fault.Some? ==> events == assets.events)
      && (fault.None? ==> events == assets.events + [Commit] + prices.events + (if prices.count > 0 then [Commit] else []))
  {
    events, fault := IngestAssets(data, existing, insertAnswer);
    if fault.None? {
      var more := IngestPrices(TradingSymbols(data), stored, start, end, fetchAnswer);
      events := events + more;
    }
  }

  /** The symbols of the asset rows inserted. */
  function Inserted(events: seq<Event>): seq<string> {
    if events == [] then []
    else (if events[0].InsertAsset? then [events[0].asset.symbol] else []) + Inserted(events[1..])
  }

  /** The symbols whose price history was inserted. */
  function Fetched(events: seq<Event>): seq<string> {
    if events == [] then []
    else (if events[0].InsertPrices? then [events[0].symbol] else []) + Fetched(events[1..])
  }

  function Commits(events: seq<Event>): nat {
    if events == [] then 0 else (if events[0].Commit? then 1 else 0) + Commits(events[1..])
  }

  function Rollbacks(events: seq<Event>): nat {
    if events == [] then 0 else (if events[0].Rollback? then 1 else 0) + Rollbacks(events[1..])
  }

  lemma {:induction false} InsertedAppend(a: seq<Event>, b: seq<Event>)
    ensures Inserted(a + b) == Inserted(a) + Inserted(b)
  {
    if a == [] {
      assert a + b == b;
    } else {
      assert (a + b)[0] == a[0] && (a + b)[1..] == a[1..] + b;
      InsertedAppend(a[1..], b);
    }
  }

  lemma {:induction false} FetchedAppend(a: seq<Event>, b: seq<Event>)
    ensures Fetched(a + b) == Fetched(a) + Fetched(b)
  {
    if a == [] {
      assert a + b == b;
    } else {
      assert (a + b)[0] == a[0] && (a + b)[1..] == a[1..] + b;
      FetchedAppend(a[1..], b);
    }
  }

  lemma {:induction false} CommitsAppend(a: seq<Event>, b: seq<Event>)
    ensures Commits(a + b) == Commits(a) + Commits(b)
  {
    if a == [] {
      assert a + b == b;
    } else {
      assert (a + b)[0] == a[0] && (a + b)[1..] == a[1..] + b;
      CommitsAppend(a[1..], b);
    }
  }

  lemma {:induction false} RollbacksAppend(a: seq<Event>, b: seq<Event>)
    ensures Rollbacks(a + b) == Rollbacks(a) + Rollbacks(b)
  {
    if a == [] {
      assert a + b == b;
    } else {
      assert (a + b)[0] == a[0] && (a + b)[1..] == a[1..] + b;
      RollbacksAppend(a[1..], b);
    }
  }

  /** The counter tick issues at most a commit, and a commit exactly when the batch is full. */
  lemma TickCounts(count: nat, size: nat)
    ensures var batch := Tick(count, size).0;
      && Inserted(batch) == [] && Fetched(batch) == [] && Rollbacks(batch) == 0
      && Commits(batch) == (if count + 1 == size then 1 else 0)
  {
    if count + 1 == size {
      assert Tick(count, size).0 == [Commit];
      assert [Commit][1..] == [];
    }
  }

  /** The selected symbols not yet in the asset table, in order. */
  function Unstored(symbols: seq<string>, existing: set<string>): (unstored: seq<string>)
    ensures forall s :: s in unstored <==> s in symbols && s !in existing
  {
    if symbols == [] then []
    else (if symbols[0] !in existing then [symbols[0]] else []) + Unstored(symbols[1..], existing)
  }

  /** One attempt inserts the one row, rolls back only after a unique violation, and commits
      exactly when the counter reaches ten, which keeps the counter below ten. */
  lemma AttemptCounts(row: NewAsset, a: InsertAnswer, count: nat)
    requires count < AssetBatch
    ensures var (step, next) := Attempt(row, a, count);
      && step[0] == InsertAsset(row)
      && Inserted(step) == [row.symbol]
      && Rollbacks(step) == (if a == UniqueViolation then 1 else 0)
      && Commits(step) == (if count + 1 == AssetBatch then 1 else 0)
      && next == (count + 1) % AssetBatch
  {
    var undo: seq<Event> := if a == UniqueViolation then [Rollback] else [];
    var tried := [InsertAsset(row)] + undo;
    var (batch, next) := Tick(count, AssetBatch);
    TickCounts(count, AssetBatch);
    InsertedAppend(tried, batch);
    RollbacksAppend(tried, batch);
    CommitsAppend(tried, batch);
    InsertedAppend([InsertAsset(row)], undo);
    RollbacksAppend([InsertAsset(row)], undo);
    CommitsAppend([InsertAsset(row)], undo);
  }

  /** Every symbol of `symbols` has an asset row. */
  predicate AllRowsBuilt(data: seq<SymbolInfo>, symbols: seq<string>) {
    forall k :: 0 <= k < |symbols| ==> AssetRow(data, symbols[k]).Ok?
  }

  /** The asset loop ends on a fault exactly when some symbol not already stored has no row. */
  lemma {:induction false} AssetStepsFault(data: seq<SymbolInfo>, symbols: seq<string>, existing: set<string>,
                                           answer: string -> InsertAnswer, count: nat)
    decreases |symbols|
    ensures AssetSteps(data, symbols, existing, answer, count).fault.None? <==>
      AllRowsBuilt(data, Unstored(symbols, existing))
  {
    if symbols != [] {
      var s := symbols[0];
      var unstored := Unstored(symbols, existing);
      if s in existing {
        AssetStepsFault(data, symbols[1..], existing, answer, count);
        assert unstored == Unstored(symbols[1..], existing);
      } else if AssetRow(data, s).Ok? {
        var (step, next) := Attempt(AssetRow(data, s).value, answer(s), count);
        AssetStepsFault(data, symbols[1..], existing, answer, next);
        assert AssetSteps(data, symbols, existing, answer, count).fault ==
          AssetSteps(data, symbols[1..], existing, answer, next).fault;
        var later := Unstored(symbols[1..], existing);
        assert unstored == [s] + later;
        assert forall k :: 1 <= k < |unstored| ==> unstored[k] == later[k - 1];
        assert AllRowsBuilt(data, unstored) <==> AllRowsBuilt(data, later) by {
          if AllRowsBuilt(data, unstored) {
            forall k | 0 <= k < |later| ensures AssetRow(data, later[k]).Ok? {
              assert later[k] == unstored[k + 1];
            }
          }
        }
      } else {
        assert unstored[0] == s;
      }
    }
  }

  /** Without a fault the asset loop inserts exactly the symbols not already stored, in order. */
  lemma {:induction false} AssetStepsInserted(data: seq<SymbolInfo>, symbols: seq<string>, existing: set<string>,
                                              answer: string -> InsertAnswer, count: nat)
    requires count < AssetBatch
    decreases |symbols|
    ensures var p := AssetSteps(data, symbols, existing, answer, count);
      p.fault.None? ==> Inserted(p.events) == Unstored(symbols, existing)
  {
    if symbols != [] {
      var s := symbols[0];
      if s in existing {
        AssetStepsInserted(data, symbols[1..], existing, answer, count);
      } else if AssetRow(data, s).Ok? {
        var row := AssetRow(data, s).value;
        assert row.symbol == s;
        var (step, next) := Attempt(row, answer(s), count);
        AttemptCounts(row, answer(s), count);
        var rest := AssetSteps(data, symbols[1..], existing, answer, next);
        AssetStepsInserted(data, symbols[1..], existing, answer, next);
        InsertedAppend(step, rest.events);
      }
    }
  }

  /** Every symbol of `inserted` is one of `symbols` and none of `existing`. */
  predicate NewSymbolsOnly(inserted: seq<string>, symbols: seq<string>, existing: set<string>) {
    forall k :: 0 <= k < |inserted| ==> inserted[k] !in existing && inserted[k] in symbols
  }

  /** Even when a fault ends it, the asset loop never inserts a symbol already stored, nor one
      that was not selected. */
  lemma {:induction false} AssetStepsSkipExisting(data: seq<SymbolInfo>, symbols: seq<string>, existing: set<string>,
                                                  answer: string -> InsertAnswer, count: nat)
    requires count < AssetBatch
    decreases |symbols|
    ensures NewSymbolsOnly(Inserted(AssetSteps(data, symbols, existing, answer, count).events), symbols, existing)
  {
    if symbols != [] {
      var s := symbols[0];
      if s in existing {
        AssetStepsSkipExisting(data, symbols[1..], existing, answer, count);
      } else if AssetRow(data, s).Ok? {
        var row := AssetRow(data, s).value;
        assert row.symbol == s;
        var (step, next) := Attempt(row, answer(s), count);
        AttemptCounts(row, answer(s), count);
        var rest := AssetSteps(data, symbols[1..], existing, answer, next);
        AssetStepsSkipExisting(data, symbols[1..], existing, answer, next);
        InsertedAppend(step, rest.events);
        var ins := Inserted(step + rest.events);
        assert ins == [s] + Inserted(rest.events);
        assert forall k :: 1 <= k < |ins| ==> ins[k] == Inserted(rest.events)[k - 1];
      }
    }
  }

  /** Every asset row inserted in `events` is the one built from its symbol's filters. */
  predicate RowsFromFilters(data: seq<SymbolInfo>, events: seq<Event>) {
    forall k :: 0 <= k < |events| && events[k].InsertAsset? ==>
      AssetRow(data, events[k].asset.symbol) == Ok(events[k].asset) && events[k].asset.trading == 1
  }

  /** Every inserted asset row is the one built from its symbol's exchange filters. */
  lemma {:induction false} AssetStepsRows(data: seq<SymbolInfo>, symbols: seq<string>, existing: set<string>,
                                          answer: string -> InsertAnswer, count: nat)
    decreases |symbols|
    ensures RowsFromFilters(data, AssetSteps(data, symbols, existing, answer, count).events)
  {
    if symbols != [] {
      var s := symbols[0];
      if s in existing {
        AssetStepsRows(data, symbols[1..], existing, answer, count);
      } else if AssetRow(data, s).Ok? {
        var row := AssetRow(data, s).value;
        assert row.symbol == s && row.trading == 1;
        var (step, next) := Attempt(row, answer(s), count);
        var rest := AssetSteps(data, symbols[1..], existing, answer, next);
        AssetStepsRows(data, symbols[1..], existing, answer, next);
        var events := step + rest.events;
        assert AssetSteps(data, symbols, existing, answer, count).events == events;
        assert forall k :: 0 <= k < |step| && step[k].InsertAsset? ==> step[k] == InsertAsset(row);
        forall k | 0 <= k < |events| && events[k].InsertAsset?
          ensures AssetRow(data, events[k].asset.symbol) == Ok(events[k].asset) && events[k].asset.trading == 1
        {
          if k >= |step| {
            assert events[k] == rest.events[k - |step|];
          } else {
            assert events[k] == step[k];
          }
        }
      } else {
        assert AssetSteps(data, symbols, existing, answer, count).events == [];
      }
    }
  }

  /** Between iterations the asset counter stays below 10, and every ten inserts make one commit. */
  lemma {:induction false} AssetStepsBatches(data: seq<SymbolInfo>, symbols: seq<string>, existing: set<string>,
                                             answer: string -> InsertAnswer, count: nat)
    requires count < AssetBatch
    decreases |symbols|
    ensures var p := AssetSteps(data, symbols, existing, answer, count);
      && p.count < AssetBatch
      && Commits(p.events) * AssetBatch + p.count == count + |Inserted(p.events)|
  {
    if symbols != [] {
      var s := symbols[0];
      if s in existing {
        AssetStepsBatches(data, symbols[1..], existing, answer, count);
      } else if AssetRow(data, s).Ok? {
        var row := AssetRow(data, s).value;
        var (step, next) := Attempt(row, answer(s), count);
        AttemptCounts(row, answer(s), count);
        var rest := AssetSteps(data, symbols[1..], existing, answer, next);
        AssetStepsBatches(data, symbols[1..], existing, answer, next);
        InsertedAppend(step, rest.events);
        CommitsAppend(step, rest.events);
      }
    }
  }

  /** The symbols the price loop tries to fetch and that succeed, in order. */
  function Loaded(symbols: seq<string>, stored: string -> Option<Coverage>, start: int, end: int,
                  answer: string -> FetchAnswer): (loaded: seq<string>)
    ensures forall s :: s in loaded <==> s in symbols && NeedsFetch(stored(s), start, end) && answer(s) == FetchOk
  {
    if symbols == [] then []
    else
      var s := symbols[0];
      (if NeedsFetch(stored(s), start, end) && answer(s) == FetchOk then [s] else []) +
      Loaded(symbols[1..], stored, start, end, answer)
  }

  /** The number of symbols the price loop tries to fetch whose attempt is rolled back. */
  function Failed(symbols: seq<string>, stored: string -> Option<Coverage>, start: int, end: int,
                  answer: string -> FetchAnswer): (n: nat)
    ensures n <= |symbols|
  {
    if symbols == [] then 0
    else
      var s := symbols[0];
      (if NeedsFetch(stored(s), start, end) && RollsBack(answer(s)) then 1 else 0) +
      Failed(symbols[1..], stored, start, end, answer)
  }

  /** The price loop inserts the histories of exactly the uncovered symbols whose fetch succeeds,
      in order, so a covered symbol is never fetched. */
  lemma {:induction false} PriceStepsFetched(symbols: seq<string>, stored: string -> Option<Coverage>, start: int, end: int,
                                             answer: string -> FetchAnswer, count: nat)
    decreases |symbols|
    ensures Fetched(PriceSteps(symbols, stored, start, end, answer, count).events) == Loaded(symbols, stored, start, end, answer)
  {
    if symbols != [] {
      var s := symbols[0];
      if !NeedsFetch(stored(s), start, end) {
        PriceStepsFetched(symbols[1..], stored, start, end, answer, count);
      } else if answer(s) == FetchOk {
        var (batch, next) := Tick(count, PriceBatch);
        var rest := PriceSteps(symbols[1..], stored, start, end, answer, next);
        PriceStepsFetched(symbols[1..], stored, start, end, answer, next);
        TickCounts(count, PriceBatch);
        FetchedAppend([InsertPrices(s)], batch);
        FetchedAppend([InsertPrices(s)] + batch, rest.events);
      } else {
        var rest := PriceSteps(symbols[1..], stored, start, end, answer, count);
        var head: seq<Event> := if RollsBack(answer(s)) then [Rollback] else [];
        PriceStepsFetched(symbols[1..], stored, start, end, answer, count);
        FetchedAppend(head, rest.events);
      }
    }
  }

  /** The price loop rolls back once per uncovered symbol whose fetch meets a database or
      unexpected error. */
  lemma {:induction false} PriceStepsRollbacks(symbols: seq<string>, stored: string -> Option<Coverage>, start: int, end: int,
                                               answer: string -> FetchAnswer, count: nat)
    decreases |symbols|
    ensures Rollbacks(PriceSteps(symbols, stored, start, end, answer, count).events) == Failed(symbols, stored, start, end, answer)
  {
    if symbols != [] {
      var s := symbols[0];
      if !NeedsFetch(stored(s), start, end) {
        PriceStepsRollbacks(symbols[1..], stored, start, end, answer, count);
      } else if answer(s) == FetchOk {
        var (batch, next) := Tick(count, PriceBatch);
        var rest := PriceSteps(symbols[1..], stored, start, end, answer, next);
        PriceStepsRollbacks(symbols[1..], stored, start, end, answer, next);
        TickCounts(count, PriceBatch);
        RollbacksAppend([InsertPrices(s)], batch);
        RollbacksAppend([InsertPrices(s)] + batch, rest.events);
      } else {
        var rest := PriceSteps(symbols[1..], stored, start, end, answer, count);
        var head: seq<Event> := if RollsBack(answer(s)) then [Rollback] else [];
        PriceStepsRollbacks(symbols[1..], stored, start, end, answer, count);
        RollbacksAppend(head, rest.events);
      }
    }
  }

  /** Between iterations the price counter stays below 20, and every twenty insertions make one
      commit. */
  lemma {:induction false} PriceStepsBatches(symbols: seq<string>, stored: string -> Option<Coverage>, start: int, end: int,
                                             answer: string -> FetchAnswer, count: nat)
    requires count < PriceBatch
    decreases |symbols|
    ensures var p := PriceSteps(symbols, stored, start, end, answer, count);
      && p.count < PriceBatch
      && Commits(p.events) * PriceBatch + p.count == count + |Fetched(p.events)|
  {
    if symbols != [] {
      var s := symbols[0];
      if !NeedsFetch(stored(s), start, end) {
        PriceStepsBatches(symbols[1..], stored, start, end, answer, count);
      } else if answer(s) == FetchOk {
        var (batch, next) := Tick(count, PriceBatch);
        var rest := PriceSteps(symbols[1..], stored, start, end, answer, next);
        PriceStepsBatches(symbols[1..], stored, start, end, answer, next);
        TickCounts(count, PriceBatch);
        FetchedAppend([InsertPrices(s)], batch);
        FetchedAppend([InsertPrices(s)] + batch, rest.events);
        CommitsAppend([InsertPrices(s)], batch);
        CommitsAppend([InsertPrices(s)] + batch, rest.events);
      } else {
        var rest := PriceSteps(symbols[1..], stored, start, end, answer, count);
        var head: seq<Event> := if RollsBack(answer(s)) then [Rollback] else [];
        PriceStepsBatches(symbols[1..], stored, start, end, answer, count);
        FetchedAppend(head, rest.events);
        CommitsAppend(head, rest.events);
      }
    }
  }
}
