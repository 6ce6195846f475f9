/** The sleeve ledger as a state machine: one state, one step function per operation, and runs. */
module LedgerSpec {
  import opened SleeveTypes
  import opened MapSums
  import opened Positions

  datatype Reservation = Reservation(currency: Currency, amount: real)

  datatype Order = Order(
    orderId: string, symbol: string, side: Side, currency: Currency, quantity: real, status: OrderStatus)

  datatype State = State(
    cash: map<Currency, real>,
    reserved: map<string, Reservation>,
    snapshots: map<string, Fill>,
    orders: map<string, Order>,
    today: string)

  datatype Op =
    | Reserve(coid: string, amount: real, currency: Currency)
    | Release(coid: string)
    | RecordOrder(coid: string, orderId: string, symbol: string, side: Side, currency: Currency, quantity: real)
    | ReserveSell(coid: string, orderId: string, symbol: string, currency: Currency, quantity: real)
    | ApplyFill(fill: Fill)
    | MarkTerminal(coid: string, status: OrderStatus)
    | Cashflow(amount: real, currency: Currency)
    | SetToday(today: string)

  /** What the caller sees: nothing, a yes or no, or an exception. */
  datatype Reply = Done | Answer(ok: bool) | ValueError

  // ---------------------------------------------------------------- pure rules

  function SignedCash(f: RawFill): real {
    if f.side.Buy? then -(f.CostBasis() + f.commission + f.tax) else f.CostBasis() - f.commission - f.tax
  }

  predicate CanReserve(available: real, previous: real, amount: real) { amount <= available + previous }

  /** The order is complete: its quantity is known and the cumulative fill has reached it. */
  predicate Complete(recordedQty: real, filledQty: real) { recordedQty > 0.0 && filledQty >= recordedQty }

  function ReservationAfterFill(recordedQty: real, filledQty: real, previous: real, deltaNotional: real): Option<real> {
    if Complete(recordedQty, filledQty) then None
    else if previous - deltaNotional > 0.0 then Some(previous - deltaNotional)
    else None
  }

  datatype Progress = Noop | Apply | Regression

  function FillProgress(prev: Option<Fill>, f: Fill): Progress {
    if prev.None? then Apply
    else if f.filledQuantity < prev.value.filledQuantity then Regression
    else if f.SameEconomics(prev.value) then Noop
    else Apply
  }

  function StatusAfterFill(recordedQty: real, filledQty: real): OrderStatus {
    if Complete(recordedQty, filledQty) then Filled else PartiallyFilled
  }

  predicate Unsettled(f: RawFill, today: string) {
    f.side.Sell? && f.settlementDate != "" && Before(today, f.settlementDate)
  }

  // ---------------------------------------------------------------- weights and sums

  function ReservedWeight(c: Currency): Reservation -> real {
    (r: Reservation) => if r.currency == c then r.amount else 0.0
  }

  function UnsettledWeight(c: Currency, today: string): Fill -> real {
    (f: Fill) => if f.currency == c && Unsettled(f, today) then f.NetProceeds() else 0.0
  }

  /** What an open sell order may still sell. */
  function OpenRemainder(o: Order, filled: real): real {
    if o.side.Sell? && o.status.Open() then Max(0.0, o.quantity - filled) else 0.0
  }

  function FilledOf(snapshots: map<string, Fill>, orderId: string): real {
    if orderId in snapshots then snapshots[orderId].filledQuantity else 0.0
  }

  function OpenWeight(snapshots: map<string, Fill>, symbol: string): Order -> real {
    (o: Order) => if o.symbol == symbol then OpenRemainder(o, FilledOf(snapshots, o.orderId)) else 0.0
  }

  ghost function ReservedTotal(s: State, c: Currency): real { Total(s.reserved, ReservedWeight(c)) }

  ghost function SettlementPending(s: State, c: Currency): real {
    Total(s.snapshots, UnsettledWeight(c, s.today))
  }

  function CashOf(cash: map<Currency, real>, c: Currency): real { if c in cash then cash[c] else 0.0 }

  ghost function VirtualCash(s: State, c: Currency): real { CashOf(s.cash, c) }

  ghost function Available(s: State, c: Currency): real {
    VirtualCash(s, c) - ReservedTotal(s, c) - SettlementPending(s, c)
  }

  /** Open sell quantity of a symbol, leaving out one client order id. */
  ghost function OpenSellQty(s: State, symbol: string, exclude: Option<string>): real {
    Total(Without(s.orders, exclude), OpenWeight(s.snapshots, symbol))
  }

  function Without(orders: map<string, Order>, exclude: Option<string>): map<string, Order> {
    if exclude.Some? then orders - {exclude.value} else orders
  }

  lemma WithoutRemove(orders: map<string, Order>, coid: string, exclude: Option<string>, w: Order -> real)
    requires coid in orders
    ensures Total(Without(orders, exclude), w)
            == (if exclude == Some(coid) then 0.0 else w(orders[coid])) + Total(Without(orders - {coid}, exclude), w)
  {
    if exclude == Some(coid) {
      assert orders - {coid} - {coid} == orders - {coid};
    } else {
      TotalRemove(Without(orders, exclude), coid, w);
      assert Without(orders, exclude) - {coid} == Without(orders - {coid}, exclude);
    }
  }

  /** The snapshots in key order, whatever order the table hands them out in. */
  ghost function SortedValues(m: map<string, Fill>): seq<Fill>
    decreases m.Keys
  {
    if m == map[] then []
    else
      var k :| k in m;
      Insert(m[k], SortedValues(m - {k}))
  }

  ghost function PositionList(s: State): seq<BrokerPosition> { Rows(SortedValues(s.snapshots)) }

  ghost function PositionQuantity(s: State, ticker: string): real { QuantityIn(PositionList(s), ticker) }

  ghost function SellAvailability(s: State, symbol: string, exclude: Option<string>): real {
    PositionQuantity(s, symbol) - OpenSellQty(s, symbol, exclude)
  }

  ghost function AvailableToSell(s: State, ticker: string): real { SellAvailability(s, ticker, None) }

  function RecordedQty(orders: map<string, Order>, coid: string): real {
    if coid in orders then orders[coid].quantity else 0.0
  }

  // ---------------------------------------------------------------- steps

  /** The amount already held under a client order id in one currency. */
  function HeldIn(reserved: map<string, Reservation>, coid: string, c: Currency): real {
    if coid in reserved && reserved[coid].currency == c then reserved[coid].amount else 0.0
  }

  ghost function StepReserve(s: State, coid: string, amount: real, c: Currency): (State, Reply) {
    if coid == "" || amount < 0.0 then (s, ValueError)
    else if !CanReserve(Available(s, c), HeldIn(s.reserved, coid, c), amount) then (s, Answer(false))
    else (s.(reserved := s.reserved[coid := Reservation(c, amount)]), Answer(true))
  }

  function Recorded(orders: map<string, Order>, coid: string, orderId: string, symbol: string,
                    side: Side, c: Currency, quantity: real): map<string, Order>
  {
    var id := if orderId == "" && coid in orders then orders[coid].orderId else orderId;
    orders[coid := Order(id, symbol, side, c, quantity, Pending)]
  }

  ghost function StepReserveSell(s: State, coid: string, orderId: string, symbol: string,
                                 c: Currency, quantity: real): (State, Reply)
  {
    if coid == "" then (s, ValueError)
    else if quantity > SellAvailability(s, symbol, Some(coid)) then (s, Answer(false))
    else (s.(orders := Recorded(s.orders, coid, orderId, symbol, Sell, c, quantity)), Answer(true))
  }

  function Marked(orders: map<string, Order>, coid: string, status: OrderStatus): map<string, Order> {
    if coid in orders then orders[coid := orders[coid].(status := status)] else orders
  }

  function ReservedAfter(reserved: map<string, Reservation>, recordedQty: real, f: Fill, deltaNotional: real):
    map<string, Reservation>
  {
    if f.side.Buy? && f.clientOrderId in reserved then
      var held := reserved[f.clientOrderId];
      match ReservationAfterFill(recordedQty, f.filledQuantity, held.amount, deltaNotional)
      case None => reserved - {f.clientOrderId}
      case Some(left) => reserved[f.clientOrderId := Reservation(held.currency, left)]
    else reserved
  }

  function DeltaCash(prev: Option<Fill>, f: Fill): real {
    SignedCash(f) - (if prev.Some? then SignedCash(prev.value) else 0.0)
  }

  function DeltaNotional(prev: Option<Fill>, f: Fill): real {
    f.CostBasis() - (if prev.Some? then prev.value.CostBasis() else 0.0)
  }

  function DeltaQty(prev: Option<Fill>, f: Fill): real {
    f.filledQuantity - (if prev.Some? then prev.value.filledQuantity else 0.0)
  }

  /** The state after a snapshot that makes progress. */
  ghost function Settle(s: State, f: Fill): State {
    var prev := Lookup(s.snapshots, f.orderId);
    var recorded := RecordedQty(s.orders, f.clientOrderId);
    State(
      s.cash[f.currency := VirtualCash(s, f.currency) + DeltaCash(prev, f)],
      ReservedAfter(s.reserved, recorded, f, DeltaNotional(prev, f)),
      s.snapshots[f.orderId := f],
      Marked(s.orders, f.clientOrderId, StatusAfterFill(recorded, f.filledQuantity)),
      s.today)
  }

  ghost function StepFill(s: State, f: Fill): (State, Reply) {
    match FillProgress(Lookup(s.snapshots, f.orderId), f)
    case Noop => (s, Done)
    case Regression => (s, ValueError)
    case Apply => (Settle(s, f), Done)
  }

  ghost function StepTerminal(s: State, coid: string, status: OrderStatus): State {
    s.(orders := Marked(s.orders, coid, status), reserved := s.reserved - {coid})
  }

  ghost function Step(s: State, op: Op): (State, Reply) {
    match op
    case Reserve(coid, amount, c) => StepReserve(s, coid, amount, c)
    case Release(coid) => (s.(reserved := s.reserved - {coid}), Done)
    case RecordOrder(coid, orderId, symbol, side, c, quantity) =>
      (s.(orders := Recorded(s.orders, coid, orderId, symbol, side, c, quantity)), Done)
    case ReserveSell(coid, orderId, symbol, c, quantity) => StepReserveSell(s, coid, orderId, symbol, c, quantity)
    case ApplyFill(f) => StepFill(s, f)
    case MarkTerminal(coid, status) => (StepTerminal(s, coid, status), Done)
    case Cashflow(amount, c) => (s.(cash := s.cash[c := VirtualCash(s, c) + amount]), Done)
    case SetToday(today) => (s.(today := today), Done)
  }

  // ---------------------------------------------------------------- runs

  ghost function Run(s: State, ops: seq<Op>): State {
    if ops == [] then s else Step(Run(s, ops[..|ops| - 1]), ops[|ops| - 1]).0
  }

  /** The replies of a run, one per operation. */
  ghost function Replies(s: State, ops: seq<Op>): seq<Reply> {
    if ops == [] then []
    else
      var front := ops[..|ops| - 1];
      Replies(s, front) + [Step(Run(s, front), ops[|ops| - 1]).1]
  }

  /** A run whose every step meets a condition on the state it starts from. */
  ghost predicate Guarded(guard: (State, Op) -> bool, s: State, ops: seq<Op>) {
    ops != [] ==>
      && Guarded(guard, s, ops[..|ops| - 1])
      && guard(Run(s, ops[..|ops| - 1]), ops[|ops| - 1])
  }

  lemma RunAppend(s: State, ops: seq<Op>, op: Op)
    ensures Run(s, ops + [op]) == Step(Run(s, ops), op).0
  {
    assert (ops + [op])[..|ops + [op]| - 1] == ops;
  }

  lemma GuardedAppend(guard: (State, Op) -> bool, s: State, ops: seq<Op>, op: Op)
    ensures Guarded(guard, s, ops + [op]) <==> Guarded(guard, s, ops) && guard(Run(s, ops), op)
  {
    assert (ops + [op])[..|ops + [op]| - 1] == ops;
  }

  function Fresh(capital: real, base: Currency, today: string): State {
    State(map[base := capital], map[], map[], map[], today)
  }

  /** No trace of a client order id yet. */
  ghost predicate FreshId(s: State, coid: string) { coid !in s.reserved && coid !in s.orders }

  /** Nothing is held under a client order id: no reservation, and no sell row that is open. */
  predicate IdleId(s: State, coid: string) {
    && coid !in s.reserved
    && (coid in s.orders && s.orders[coid].side.Sell? ==> !s.orders[coid].status.Open())
  }

  /** Every snapshot is stored under its own order id. */
  ghost predicate WellKeyed(snapshots: map<string, Fill>) {
    forall k | k in snapshots :: snapshots[k].orderId == k
  }

  lemma StepWellKeyed(s: State, op: Op)
    requires WellKeyed(s.snapshots)
    ensures WellKeyed(Step(s, op).0.snapshots)
  {
    if op.ApplyFill? {
      assert WellKeyed(s.snapshots[op.fill.orderId := op.fill]);
    }
  }

  lemma {:induction false} RunWellKeyed(s: State, ops: seq<Op>)
    requires WellKeyed(s.snapshots)
    ensures WellKeyed(Run(s, ops).snapshots)
  {
    if ops != [] {
      RunWellKeyed(s, ops[..|ops| - 1]);
      StepWellKeyed(Run(s, ops[..|ops| - 1]), ops[|ops| - 1]);
    }
  }

  // ---------------------------------------------------------------- positions of a table of snapshots

  /** A list holds the values of a table, each once. */
  ghost predicate Enumerates(values: seq<Fill>, m: map<string, Fill>) {
    && DistinctOrders(values)
    && (forall f | f in values :: f.orderId in m && m[f.orderId] == f)
    && (forall k | k in m :: m[k] in values)
  }

  lemma {:induction false} SortedValuesSorted(m: map<string, Fill>)
    requires WellKeyed(m)
    ensures Sorted(SortedValues(m))
    ensures forall f :: f in SortedValues(m) <==> f.orderId in m && m[f.orderId] == f
    decreases m.Keys
  {
    if m != map[] {
      var k :| k in m && SortedValues(m) == Insert(m[k], SortedValues(m - {k}));
      var rest := SortedValues(m - {k});
      SortedValuesSorted(m - {k});
      InsertSorts(m[k], rest);
      InsertMembers(m[k], rest);
    }
  }

  /** Sorting any enumeration of a table gives the same list. */
  lemma EnumerationSorts(values: seq<Fill>, m: map<string, Fill>)
    requires WellKeyed(m) && Enumerates(values, m)
    ensures SortFills(values) == SortedValues(m)
  {
    SortSorts(values);
    SortedValuesSorted(m);
    forall f: Fill ensures f in SortFills(values) <==> f in SortedValues(m) {
      assert f in SortFills(values) <==> f in multiset(values);
      assert f in values <==> f in multiset(values);
    }
    SortedMembersUnique(SortFills(values), SortedValues(m));
  }

  function NetWeight(symbol: string): Fill -> real { (f: Fill) => SignedQty(f, symbol) }

  /** Bought minus sold over the latest snapshot of each order. */
  ghost function NetHeld(snapshots: map<string, Fill>, symbol: string): real {
    Total(snapshots, NetWeight(symbol))
  }

  lemma {:induction false} NetQtyCons(f: Fill, fs: seq<Fill>, symbol: string)
    ensures NetQty([f] + fs, symbol) == SignedQty(f, symbol) + NetQty(fs, symbol)
  {
    var all := [f] + fs;
    if fs == [] {
      assert all[..0] == [];
    } else {
      assert all[..|all| - 1] == [f] + fs[..|fs| - 1];
      NetQtyCons(f, fs[..|fs| - 1], symbol);
    }
  }

  lemma {:induction false} NetQtyInsert(f: Fill, fs: seq<Fill>, symbol: string)
    ensures NetQty(Insert(f, fs), symbol) == SignedQty(f, symbol) + NetQty(fs, symbol)
  {
    if fs != [] && KeyBefore(fs[0], f) {
      NetQtyInsert(f, fs[1..], symbol);
      NetQtyCons(fs[0], Insert(f, fs[1..]), symbol);
      assert fs == [fs[0]] + fs[1..];
      NetQtyCons(fs[0], fs[1..], symbol);
    } else {
      NetQtyCons(f, fs, symbol);
    }
  }

  lemma {:induction false} SortedValuesNet(m: map<string, Fill>, symbol: string)
    ensures NetQty(SortedValues(m), symbol) == NetHeld(m, symbol)
    decreases m.Keys
  {
    if m != map[] {
      var k :| k in m && SortedValues(m) == Insert(m[k], SortedValues(m - {k}));
      SortedValuesNet(m - {k}, symbol);
      NetQtyInsert(m[k], SortedValues(m - {k}), symbol);
      TotalRemove(m, k, NetWeight(symbol));
    }
  }

  /** The ledger's position quantity is the positive part of bought minus sold. */
  lemma PositionIsNetHeld(s: State, ticker: string)
    ensures PositionQuantity(s, ticker) == Max(0.0, NetHeld(s.snapshots, ticker))
  {
    QuantityIsPositivePart(SortedValues(s.snapshots), ticker);
    SortedValuesNet(s.snapshots, ticker);
  }
}
