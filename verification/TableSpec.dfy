/** The five tables shared by all sleeves, the statements on them, and the ledger operations made of those. */
module TableSpec {
  import opened SleeveTypes
  import opened MapSums
  import opened LedgerSpec

  type Key = (string, string)

  datatype CashRow = CashRow(capital: real, virtualCash: real)

  datatype CashflowRow = CashflowRow(sleeveId: string, currency: Currency, amount: real)

  datatype Tables = Tables(
    cash: map<(string, Currency), CashRow>,
    reservations: map<Key, Reservation>,
    orders: map<Key, Order>,
    fills: map<Key, Fill>,
    cashflows: seq<CashflowRow>)

  // ---------------------------------------------------------------- one sleeve's rows

  ghost predicate IsRows<V>(m: map<Key, V>, sleeve: string, rows: map<string, V>) {
    && (forall k :: k in rows <==> (sleeve, k) in m)
    && (forall k | k in rows :: rows[k] == m[(sleeve, k)])
  }

  lemma RowsExist<V>(m: map<Key, V>, sleeve: string)
    ensures exists rows: map<string, V> :: IsRows(m, sleeve, rows)
  {
    var rows := map p | p in m && p.0 == sleeve :: p.1 := m[p];
    forall k | (sleeve, k) in m ensures k in rows {
      var p := (sleeve, k);
      assert p in m && p.0 == sleeve && p.1 == k;
    }
    assert IsRows(m, sleeve, rows);
  }

  /** The rows of one sleeve, by the rest of their primary key. */
  ghost function RowsOf<V>(m: map<Key, V>, sleeve: string): map<string, V> {
    RowsExist(m, sleeve);
    var rows :| IsRows(m, sleeve, rows);
    rows
  }

  lemma RowsUnique<V>(m: map<Key, V>, sleeve: string, rows: map<string, V>)
    requires IsRows(m, sleeve, rows)
    ensures rows == RowsOf(m, sleeve)
  {}

  /** Taking one row away takes it from its own sleeve only. */
  lemma RowsOfDelete<V>(m: map<Key, V>, p: Key, sleeve: string)
    ensures RowsOf(m - {p}, sleeve) == if p.0 == sleeve then RowsOf(m, sleeve) - {p.1} else RowsOf(m, sleeve)
  {
    RowsUnique(m - {p}, sleeve, if p.0 == sleeve then RowsOf(m, sleeve) - {p.1} else RowsOf(m, sleeve));
  }

  ghost predicate IsCash(m: map<(string, Currency), CashRow>, sleeve: string, cash: map<Currency, real>) {
    && (forall c :: c in cash <==> (sleeve, c) in m)
    && (forall c | c in cash :: cash[c] == m[(sleeve, c)].virtualCash)
  }

  /** One sleeve's rows are the dictionaries of a ledger state. */
  ghost predicate Represents(t: Tables, sleeve: string, s: State) {
    && IsCash(t.cash, sleeve, s.cash)
    && IsRows(t.reservations, sleeve, s.reserved)
    && IsRows(t.fills, sleeve, s.snapshots)
    && IsRows(t.orders, sleeve, s.orders)
  }

  /** Every fill row is stored under its own order id, which is one of its columns. */
  ghost predicate Keyed(t: Tables) { forall p | p in t.fills :: t.fills[p].orderId == p.1 }

  // ---------------------------------------------------------------- statements

  function InsertCash(t: Tables, sleeve: string, c: Currency, amount: real): Tables {
    if (sleeve, c) in t.cash then t else t.(cash := t.cash[(sleeve, c) := CashRow(amount, amount)])
  }

  function ReadCash(t: Tables, sleeve: string, c: Currency): real {
    if (sleeve, c) in t.cash then t.cash[(sleeve, c)].virtualCash else 0.0
  }

  function RowCapital(t: Tables, sleeve: string, c: Currency): real {
    if (sleeve, c) in t.cash then t.cash[(sleeve, c)].capital else 0.0
  }

  function UpdateCash(t: Tables, sleeve: string, c: Currency, value: real): Tables {
    if (sleeve, c) in t.cash
    then t.(cash := t.cash[(sleeve, c) := t.cash[(sleeve, c)].(virtualCash := value)]) else t
  }

  function PutReservation(t: Tables, sleeve: string, coid: string, r: Reservation): Tables {
    t.(reservations := t.reservations[(sleeve, coid) := r])
  }

  function UpdateReservation(t: Tables, sleeve: string, coid: string, amount: real): Tables {
    if (sleeve, coid) in t.reservations
    then PutReservation(t, sleeve, coid, t.reservations[(sleeve, coid)].(amount := amount)) else t
  }

  function DeleteReservation(t: Tables, sleeve: string, coid: string): Tables {
    t.(reservations := t.reservations - {(sleeve, coid)})
  }

  /** The upsert of an order row: an empty exchange id does not overwrite the stored one. */
  function UpsertOrder(t: Tables, sleeve: string, coid: string, o: Order): Tables {
    var kept := if (sleeve, coid) in t.orders && o.orderId == "" then t.orders[(sleeve, coid)].orderId else o.orderId;
    t.(orders := t.orders[(sleeve, coid) := o.(orderId := kept)])
  }

  function UpdateStatus(t: Tables, sleeve: string, coid: string, status: OrderStatus): Tables {
    if (sleeve, coid) in t.orders
    then t.(orders := t.orders[(sleeve, coid) := t.orders[(sleeve, coid)].(status := status)]) else t
  }

  /** The upsert of a fill row rewrites amounts and dates, not the columns that identify the order. */
  function UpsertFill(t: Tables, sleeve: string, f: Fill): Tables {
    var row: Fill :=
      if (sleeve, f.orderId) in t.fills then
        var stored := t.fills[(sleeve, f.orderId)];
        RawFill(stored.orderId, stored.clientOrderId, stored.symbol, stored.side, stored.currency,
                f.filledQuantity, f.avgPrice, f.commission, f.tax, f.filledAt, f.settlementDate)
      else f;
    t.(fills := t.fills[(sleeve, f.orderId) := row])
  }

  function InsertCashflow(t: Tables, sleeve: string, c: Currency, amount: real): Tables {
    t.(cashflows := t.cashflows + [CashflowRow(sleeve, c, amount)])
  }

  // ---------------------------------------------------------------- queries

  /** Unsettled as the query says it: the date alone, with no test for an empty one. */
  function UnsettledRowWeight(c: Currency, today: string): Fill -> real {
    (f: Fill) => if f.side.Sell? && f.currency == c && Before(today, f.settlementDate) then f.NetProceeds() else 0.0
  }

  ghost function QueryAvailable(t: Tables, sleeve: string, today: string, c: Currency): real {
    ReadCash(t, sleeve, c)
    - Total(RowsOf(t.reservations, sleeve), ReservedWeight(c))
    - Total(RowsOf(t.fills, sleeve), UnsettledRowWeight(c, today))
  }

  /** Position of the fill rows minus the open sell rows; dates play no part in either. */
  ghost function QuerySellAvailability(t: Tables, sleeve: string, symbol: string, exclude: Option<string>): real {
    SellAvailability(State(map[], map[], RowsOf(t.fills, sleeve), RowsOf(t.orders, sleeve), ""), symbol, exclude)
  }

  function ReadReservation(t: Tables, sleeve: string, coid: string): Option<Reservation> {
    Lookup(t.reservations, (sleeve, coid))
  }

  function ReadQuantity(t: Tables, sleeve: string, coid: string): real {
    if (sleeve, coid) in t.orders then t.orders[(sleeve, coid)].quantity else 0.0
  }

  // ---------------------------------------------------------------- operations

  ghost function TableReserve(t: Tables, sleeve: string, today: string, coid: string, amount: real, c: Currency):
    (Tables, Reply)
  {
    if coid == "" || amount < 0.0 then (t, ValueError)
    else
      var row := ReadReservation(t, sleeve, coid);
      var previous := if row.Some? && row.value.currency == c then row.value.amount else 0.0;
      if !CanReserve(QueryAvailable(t, sleeve, today, c), previous, amount) then (t, Answer(false))
      else (PutReservation(t, sleeve, coid, Reservation(c, amount)), Answer(true))
  }

  ghost function TableReserveSell(t: Tables, sleeve: string, coid: string, orderId: string, symbol: string,
                                  c: Currency, quantity: real): (Tables, Reply)
  {
    if coid == "" then (t, ValueError)
    else if quantity > QuerySellAvailability(t, sleeve, symbol, Some(coid)) then (t, Answer(false))
    else (UpsertOrder(t, sleeve, coid, Order(orderId, symbol, Sell, c, quantity, Pending)), Answer(true))
  }

  /** The reservation statement of a fill. */
  function DrawDownRow(t: Tables, sleeve: string, f: Fill, deltaNotional: real): Tables {
    var row := ReadReservation(t, sleeve, f.clientOrderId);
    if f.side.Buy? && f.clientOrderId != "" && row.Some? then
      match ReservationAfterFill(ReadQuantity(t, sleeve, f.clientOrderId), f.filledQuantity, row.value.amount,
                                 deltaNotional)
      case None => DeleteReservation(t, sleeve, f.clientOrderId)
      case Some(left) => UpdateReservation(t, sleeve, f.clientOrderId, left)
    else t
  }

  /** The status statement of a fill. */
  function MarkFilled(t: Tables, sleeve: string, f: Fill): Tables {
    if f.clientOrderId == "" then t
    else UpdateStatus(t, sleeve, f.clientOrderId,
                      StatusAfterFill(ReadQuantity(t, sleeve, f.clientOrderId), f.filledQuantity))
  }

  function BookCash(t: Tables, sleeve: string, c: Currency, delta: real): Tables {
    var known := InsertCash(t, sleeve, c, 0.0);
    UpdateCash(known, sleeve, c, ReadCash(known, sleeve, c) + delta)
  }

  function TableFill(t: Tables, sleeve: string, f: Fill): (Tables, Reply) {
    var prev := Lookup(t.fills, (sleeve, f.orderId));
    match FillProgress(prev, f)
    case Noop => (t, Done)
    case Regression => (t, ValueError)
    case Apply =>
      var booked := BookCash(t, sleeve, f.currency, DeltaCash(prev, f));
      var drawn := DrawDownRow(booked, sleeve, f, DeltaNotional(prev, f));
      (MarkFilled(UpsertFill(drawn, sleeve, f), sleeve, f), Done)
  }

  ghost function TableStep(t: Tables, sleeve: string, today: string, op: Op): (Tables, Reply) {
    match op
    case Reserve(coid, amount, c) => TableReserve(t, sleeve, today, coid, amount, c)
    case Release(coid) => (DeleteReservation(t, sleeve, coid), Done)
    case RecordOrder(coid, orderId, symbol, side, c, quantity) =>
      (UpsertOrder(t, sleeve, coid, Order(orderId, symbol, side, c, quantity, Pending)), Done)
    case ReserveSell(coid, orderId, symbol, c, quantity) =>
      TableReserveSell(t, sleeve, coid, orderId, symbol, c, quantity)
    case ApplyFill(f) => TableFill(t, sleeve, f)
    case MarkTerminal(coid, status) => (DeleteReservation(UpdateStatus(t, sleeve, coid, status), sleeve, coid), Done)
    case Cashflow(amount, c) => (InsertCashflow(BookCash(t, sleeve, c, amount), sleeve, c, amount), Done)
    case SetToday(_) => (t, Done)
  }

  function Clock(today: string, op: Op): string { if op.SetToday? then op.today else today }
}
