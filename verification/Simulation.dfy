/** The table ledger simulates the dictionary ledger, and keeps to its own sleeve's rows. */
module Simulation {
  import opened SleeveTypes
  import opened MapSums
  import opened Positions
  import opened LedgerSpec
  import opened CashTheorems
  import opened PollTheorems
  import opened TableSpec

  // ---------------------------------------------------------------- statements, seen by their sleeve

  lemma PutSeen(t: Tables, sleeve: string, coid: string, r: Reservation, s: State)
    requires Represents(t, sleeve, s)
    ensures Represents(PutReservation(t, sleeve, coid, r), sleeve, s.(reserved := s.reserved[coid := r]))
  {}

  lemma DeleteSeen(t: Tables, sleeve: string, coid: string, s: State)
    requires Represents(t, sleeve, s)
    ensures Represents(DeleteReservation(t, sleeve, coid), sleeve, s.(reserved := s.reserved - {coid}))
  {}

  lemma OrderSeen(t: Tables, sleeve: string, coid: string, o: Order, s: State)
    requires Represents(t, sleeve, s) && o.status.Pending?
    ensures Represents(UpsertOrder(t, sleeve, coid, o), sleeve,
                       s.(orders := Recorded(s.orders, coid, o.orderId, o.symbol, o.side, o.currency, o.quantity)))
  {}

  lemma StatusSeen(t: Tables, sleeve: string, coid: string, status: OrderStatus, s: State)
    requires Represents(t, sleeve, s)
    ensures Represents(UpdateStatus(t, sleeve, coid, status), sleeve, s.(orders := Marked(s.orders, coid, status)))
  {}

  lemma BookedRow(t: Tables, sleeve: string, c: Currency, delta: real)
    ensures var u := BookCash(t, sleeve, c, delta);
            && (sleeve, c) in u.cash
            && u.cash[(sleeve, c)].virtualCash == ReadCash(t, sleeve, c) + delta
            && RowCapital(u, sleeve, c) == RowCapital(t, sleeve, c)
            && (forall p | p != (sleeve, c) :: Lookup(u.cash, p) == Lookup(t.cash, p))
            && u == t.(cash := u.cash)
  {}

  lemma CashSeen(t: Tables, sleeve: string, c: Currency, delta: real, s: State)
    requires Represents(t, sleeve, s)
    ensures Represents(BookCash(t, sleeve, c, delta), sleeve, s.(cash := s.cash[c := VirtualCash(s, c) + delta]))
  {
    BookedRow(t, sleeve, c, delta);
    var u := BookCash(t, sleeve, c, delta);
    var cash := s.cash[c := VirtualCash(s, c) + delta];
    forall d: Currency
      ensures d in cash <==> (sleeve, d) in u.cash
      ensures d in cash ==> cash[d] == u.cash[(sleeve, d)].virtualCash
    {
      if d != c {
        assert Lookup(u.cash, (sleeve, d)) == Lookup(t.cash, (sleeve, d));
      }
    }
  }

  /** A fill row ends up as the snapshot itself exactly when it is new or names the same order. */
  lemma FillSeen(t: Tables, sleeve: string, f: Fill, s: State)
    requires Represents(t, sleeve, s)
    ensures Represents(UpsertFill(t, sleeve, f), sleeve, s.(snapshots := s.snapshots[f.orderId := f]))
            <==> (f.orderId in s.snapshots ==> f.SameOrder(s.snapshots[f.orderId]))
  {
    var after := UpsertFill(t, sleeve, f);
    var row := after.fills[(sleeve, f.orderId)];
    var snapshots := s.snapshots[f.orderId := f];
    assert snapshots[f.orderId] == f && after.fills[(sleeve, f.orderId)] == row;
    if row == f {
      assert IsRows(after.fills, sleeve, snapshots);
    }
  }

  // ---------------------------------------------------------------- queries

  lemma AvailableAgrees(t: Tables, sleeve: string, s: State, c: Currency)
    requires Represents(t, sleeve, s)
    ensures QueryAvailable(t, sleeve, s.today, c) == Available(s, c)
    ensures ReadCash(t, sleeve, c) == VirtualCash(s, c)
  {
    RowsUnique(t.reservations, sleeve, s.reserved);
    RowsUnique(t.fills, sleeve, s.snapshots);
    TotalCongruent(s.snapshots, UnsettledRowWeight(c, s.today), s.snapshots, UnsettledWeight(c, s.today));
  }

  lemma RowWithout(t: Tables, sleeve: string, today: string, orderId: string, c: Currency)
    requires (sleeve, orderId) in t.fills
    ensures var without := t.(fills := t.fills - {(sleeve, orderId)});
            QueryAvailable(t, sleeve, today, c) == QueryAvailable(without, sleeve, today, c)
              - UnsettledRowWeight(c, today)(t.fills[(sleeve, orderId)])
  {
    RowsOfDelete(t.fills, (sleeve, orderId), sleeve);
    assert IsRows(t.fills, sleeve, RowsOf(t.fills, sleeve));
    TotalRemove(RowsOf(t.fills, sleeve), orderId, UnsettledRowWeight(c, today));
  }

  lemma RowByDate(f: Fill, c: Currency, today: string)
    ensures UnsettledRowWeight(c, today)(f)
            == if f.side.Sell? && f.currency == c && Before(today, f.settlementDate) then Proceeds(f) else 0.0
  {}

  /** The date rule on the rows: a sale dated after today keeps its proceeds out, any other row does not. */
  lemma RowCountsFromItsDate(t: Tables, sleeve: string, today: string, orderId: string, c: Currency)
    requires (sleeve, orderId) in t.fills
    ensures var f, without := t.fills[(sleeve, orderId)], t.(fills := t.fills - {(sleeve, orderId)});
            QueryAvailable(t, sleeve, today, c) == QueryAvailable(without, sleeve, today, c)
              - (if f.side.Sell? && f.currency == c && Before(today, f.settlementDate) then Proceeds(f) else 0.0)
  {
    RowWithout(t, sleeve, today, orderId, c);
    RowByDate(t.fills[(sleeve, orderId)], c, today);
  }

  /** When no sale row is dated after today, all cash that is not reserved can be spent. */
  lemma AllRowsSettled(t: Tables, sleeve: string, today: string, c: Currency)
    requires forall k | (sleeve, k) in t.fills ::
               t.fills[(sleeve, k)].side.Sell? && t.fills[(sleeve, k)].currency == c ==>
                 !Before(today, t.fills[(sleeve, k)].settlementDate)
    ensures QueryAvailable(t, sleeve, today, c)
            == ReadCash(t, sleeve, c) - Total(RowsOf(t.reservations, sleeve), ReservedWeight(c))
  {
    var rows, w := RowsOf(t.fills, sleeve), UnsettledRowWeight(c, today);
    var none: map<string, Fill> := map[];
    assert IsRows(t.fills, sleeve, rows);
    forall k | k in rows ensures w(rows[k]) == 0.0 {
      assert (sleeve, k) in t.fills && rows[k] == t.fills[(sleeve, k)];
    }
    TotalMonotone(rows, w, none, w);
    TotalMonotone(none, w, rows, w);
  }

  /** A poll with the stored quantity, price, commission and tax writes nothing, even if its dates are new. */
  lemma SameColumnsUnwritten(t: Tables, sleeve: string, f: Fill)
    requires (sleeve, f.orderId) in t.fills && SameColumns(f, t.fills[(sleeve, f.orderId)])
    ensures TableFill(t, sleeve, f) == (t, Done)
  {}

  /** A first poll, and one that changes a column with no smaller quantity, is stored but for the order it names. */
  lemma ChangedColumnsWritten(t: Tables, sleeve: string, f: Fill)
    requires (sleeve, f.orderId) in t.fills ==>
               t.fills[(sleeve, f.orderId)].filledQuantity <= f.filledQuantity
               && !SameColumns(f, t.fills[(sleeve, f.orderId)])
    ensures TableFill(t, sleeve, f).1 == Done
    ensures var row := Lookup(TableFill(t, sleeve, f).0.fills, (sleeve, f.orderId));
            && row.Some? && SameColumns(f, row.value)
            && row.value.filledAt == f.filledAt && row.value.settlementDate == f.settlementDate
            && row.value.SameOrder(if (sleeve, f.orderId) in t.fills then t.fills[(sleeve, f.orderId)] else f)
  {
    var prev := Lookup(t.fills, (sleeve, f.orderId));
    var booked := BookCash(t, sleeve, f.currency, DeltaCash(prev, f));
    BookedRow(t, sleeve, f.currency, DeltaCash(prev, f));
    DrawDownKeepsLog(booked, sleeve, f, DeltaNotional(prev, f));
    MarkFilledSnapshots(UpsertFill(DrawDownRow(booked, sleeve, f, DeltaNotional(prev, f)), sleeve, f), sleeve, f);
  }

  lemma SellAvailabilityAgrees(t: Tables, sleeve: string, s: State, symbol: string, exclude: Option<string>)
    requires Represents(t, sleeve, s)
    ensures QuerySellAvailability(t, sleeve, symbol, exclude) == SellAvailability(s, symbol, exclude)
  {
    RowsUnique(t.orders, sleeve, s.orders);
    RowsUnique(t.fills, sleeve, s.snapshots);
    var rows := State(map[], map[], s.snapshots, s.orders, "");
    assert PositionList(rows) == PositionList(s);
    assert OpenSellQty(rows, symbol, exclude) == OpenSellQty(s, symbol, exclude);
  }

  /** The reverse lookup of an exchange id finds a row in one form exactly when it does in the other. */
  lemma LookupAgrees(t: Tables, sleeve: string, s: State, orderId: string)
    requires Represents(t, sleeve, s)
    ensures forall coid ::
              (coid in s.orders && s.orders[coid].orderId == orderId)
              <==> ((sleeve, coid) in t.orders && t.orders[(sleeve, coid)].orderId == orderId)
    ensures forall coid :: Lookup(s.orders, coid) == Lookup(t.orders, (sleeve, coid))
  {}

  // ---------------------------------------------------------------- one step

  /** No row is stored under an empty client order id. */
  ghost predicate Attributed(s: State) { "" !in s.orders && "" !in s.reserved }

  /** What the table form asks of its callers beyond the dictionary form. */
  ghost predicate TableGuard(s: State, op: Op) {
    match op
    case RecordOrder(coid, _, _, _, _, _) => coid != ""
    case ApplyFill(f) =>
      f.orderId in s.snapshots && FillProgress(Some(s.snapshots[f.orderId]), f).Apply? ==>
        f.SameOrder(s.snapshots[f.orderId])
    case _ => true
  }

  lemma DrawDownSeen(t: Tables, sleeve: string, f: Fill, delta: real, s: State)
    requires Represents(t, sleeve, s) && Attributed(s)
    ensures Represents(DrawDownRow(t, sleeve, f, delta), sleeve,
                       s.(reserved := ReservedAfter(s.reserved, RecordedQty(s.orders, f.clientOrderId), f, delta)))
  {
    var coid := f.clientOrderId;
    assert RecordedQty(s.orders, coid) == ReadQuantity(t, sleeve, coid);
    assert Lookup(s.reserved, coid) == ReadReservation(t, sleeve, coid);
    DeleteSeen(t, sleeve, coid, s);
    if coid in s.reserved {
      var held := s.reserved[coid];
      var left := ReservationAfterFill(RecordedQty(s.orders, coid), f.filledQuantity, held.amount, delta);
      if left.Some? {
        PutSeen(t, sleeve, coid, Reservation(held.currency, left.value), s);
      }
    }
  }

  lemma MarkFilledSeen(t: Tables, sleeve: string, f: Fill, s: State)
    requires Represents(t, sleeve, s) && Attributed(s)
    ensures Represents(MarkFilled(t, sleeve, f), sleeve,
                       s.(orders := Marked(s.orders, f.clientOrderId,
                            StatusAfterFill(RecordedQty(s.orders, f.clientOrderId), f.filledQuantity))))
  {
    var coid := f.clientOrderId;
    assert RecordedQty(s.orders, coid) == ReadQuantity(t, sleeve, coid);
    StatusSeen(t, sleeve, coid, StatusAfterFill(ReadQuantity(t, sleeve, coid), f.filledQuantity), s);
  }

  lemma MarkFilledSnapshots(t: Tables, sleeve: string, f: Fill)
    ensures MarkFilled(t, sleeve, f).fills == t.fills
  {}

  /** The statements of an applied fill up to its row, seen by its sleeve. */
  lemma DrawnSeen(t: Tables, sleeve: string, f: Fill, s: State)
    requires Represents(t, sleeve, s) && Attributed(s)
    ensures var prev := Lookup(s.snapshots, f.orderId);
            var drawn := DrawDownRow(BookCash(t, sleeve, f.currency, DeltaCash(prev, f)), sleeve, f,
                                     DeltaNotional(prev, f));
            Represents(drawn, sleeve, Settle(s, f).(snapshots := s.snapshots, orders := s.orders))
  {
    var prev := Lookup(s.snapshots, f.orderId);
    CashSeen(t, sleeve, f.currency, DeltaCash(prev, f), s);
    var s1 := s.(cash := s.cash[f.currency := VirtualCash(s, f.currency) + DeltaCash(prev, f)]);
    DrawDownSeen(BookCash(t, sleeve, f.currency, DeltaCash(prev, f)), sleeve, f, DeltaNotional(prev, f), s1);
  }

  lemma StoredSeen(drawn: Tables, sleeve: string, f: Fill, mid: State)
    requires Represents(drawn, sleeve, mid) && Attributed(mid)
    ensures var stored := MarkFilled(UpsertFill(drawn, sleeve, f), sleeve, f);
            Represents(stored, sleeve,
              mid.(snapshots := mid.snapshots[f.orderId := f],
                   orders := Marked(mid.orders, f.clientOrderId,
                     StatusAfterFill(RecordedQty(mid.orders, f.clientOrderId), f.filledQuantity))))
            <==> (f.orderId in mid.snapshots ==> f.SameOrder(mid.snapshots[f.orderId]))
  {
    var upserted := UpsertFill(drawn, sleeve, f);
    var after := mid.(snapshots := mid.snapshots[f.orderId := f]);
    FillSeen(drawn, sleeve, f, mid);
    if Represents(upserted, sleeve, after) {
      MarkFilledSeen(upserted, sleeve, f, after);
    } else {
      MarkFilledSnapshots(upserted, sleeve, f);
      assert !IsRows(upserted.fills, sleeve, after.snapshots);
    }
  }

  /**
   * Applying a fill: the two forms give the same reply always, and the same state exactly when
   * an applied snapshot names the order its predecessor named.
   */
  lemma FillAgreesExactly(t: Tables, sleeve: string, f: Fill, s: State)
    requires Represents(t, sleeve, s) && Attributed(s)
    ensures TableFill(t, sleeve, f).1 == StepFill(s, f).1
    ensures Represents(TableFill(t, sleeve, f).0, sleeve, StepFill(s, f).0) <==> TableGuard(s, ApplyFill(f))
  {
    var prev := Lookup(s.snapshots, f.orderId);
    assert prev == Lookup(t.fills, (sleeve, f.orderId));
    if FillProgress(prev, f).Apply? {
      DrawnSeen(t, sleeve, f, s);
      var drawn := DrawDownRow(BookCash(t, sleeve, f.currency, DeltaCash(prev, f)), sleeve, f, DeltaNotional(prev, f));
      var mid := Settle(s, f).(snapshots := s.snapshots, orders := s.orders);
      StillAttributed(s, f);
      StoredSeen(drawn, sleeve, f, mid);
      assert Settle(s, f) ==
             mid.(snapshots := mid.snapshots[f.orderId := f],
                  orders := Marked(mid.orders, f.clientOrderId,
                    StatusAfterFill(RecordedQty(mid.orders, f.clientOrderId), f.filledQuantity)));
    }
  }

  lemma StillAttributed(s: State, f: Fill)
    requires Attributed(s)
    ensures Attributed(Settle(s, f))
  {}

  lemma ReserveAgrees(t: Tables, sleeve: string, s: State, coid: string, amount: real, c: Currency)
    requires Represents(t, sleeve, s)
    ensures var r := TableReserve(t, sleeve, s.today, coid, amount, c);
            r.1 == StepReserve(s, coid, amount, c).1
            && Represents(r.0, sleeve, StepReserve(s, coid, amount, c).0)
  {
    AvailableAgrees(t, sleeve, s, c);
    assert Lookup(s.reserved, coid) == ReadReservation(t, sleeve, coid);
    PutSeen(t, sleeve, coid, Reservation(c, amount), s);
  }

  lemma StepAgrees(t: Tables, sleeve: string, s: State, op: Op)
    requires Represents(t, sleeve, s) && Attributed(s) && TableGuard(s, op)
    ensures Represents(TableStep(t, sleeve, s.today, op).0, sleeve, Step(s, op).0)
    ensures TableStep(t, sleeve, s.today, op).1 == Step(s, op).1
  {
    match op
    case Reserve(coid, amount, c) => ReserveAgrees(t, sleeve, s, coid, amount, c);
    case Release(coid) => DeleteSeen(t, sleeve, coid, s);
    case RecordOrder(coid, orderId, symbol, side, c, quantity) =>
      OrderSeen(t, sleeve, coid, Order(orderId, symbol, side, c, quantity, Pending), s);
    case ReserveSell(coid, orderId, symbol, c, quantity) =>
      SellAvailabilityAgrees(t, sleeve, s, symbol, Some(coid));
      OrderSeen(t, sleeve, coid, Order(orderId, symbol, Sell, c, quantity, Pending), s);
    case ApplyFill(f) => FillAgreesExactly(t, sleeve, f, s);
    case MarkTerminal(coid, status) =>
      StatusSeen(t, sleeve, coid, status, s);
      DeleteSeen(UpdateStatus(t, sleeve, coid, status), sleeve, coid,
                 s.(orders := Marked(s.orders, coid, status)));
    case Cashflow(amount, c) => CashSeen(t, sleeve, c, amount, s);
    case SetToday(later) =>
  }

  lemma StepAttributed(s: State, op: Op)
    requires Attributed(s) && TableGuard(s, op)
    ensures Attributed(Step(s, op).0)
  {}

  // ---------------------------------------------------------------- whole runs

  ghost function TableRun(t: Tables, sleeve: string, today: string, ops: seq<Op>): (Tables, string) {
    if ops == [] then (t, today)
    else
      var before := TableRun(t, sleeve, today, ops[..|ops| - 1]);
      var op := ops[|ops| - 1];
      (TableStep(before.0, sleeve, before.1, op).0, Clock(before.1, op))
  }

  ghost function TableReplies(t: Tables, sleeve: string, today: string, ops: seq<Op>): seq<Reply> {
    if ops == [] then []
    else
      var front := ops[..|ops| - 1];
      var before := TableRun(t, sleeve, today, front);
      TableReplies(t, sleeve, today, front) + [TableStep(before.0, sleeve, before.1, ops[|ops| - 1]).1]
  }

  lemma StepClock(s: State, op: Op)
    ensures Step(s, op).0.today == Clock(s.today, op)
  {}

  /**
   * Simulation. For every sequence of calls the table ledger gives the replies of the
   * dictionary ledger and ends on rows that are its dictionaries.
   */
  lemma {:induction false} TablesSimulate(t: Tables, sleeve: string, s: State, ops: seq<Op>)
    requires Represents(t, sleeve, s) && Attributed(s)
    requires Guarded(TableGuard, s, ops)
    ensures var end := TableRun(t, sleeve, s.today, ops);
            Represents(end.0, sleeve, Run(s, ops)) && end.1 == Run(s, ops).today
    ensures TableReplies(t, sleeve, s.today, ops) == Replies(s, ops)
    ensures Attributed(Run(s, ops))
  {
    if ops != [] {
      var front, op := ops[..|ops| - 1], ops[|ops| - 1];
      TablesSimulate(t, sleeve, s, front);
      var mid := Run(s, front);
      StepAgrees(TableRun(t, sleeve, s.today, front).0, sleeve, mid, op);
      StepAttributed(mid, op);
      StepClock(mid, op);
    }
  }

  /**
   * After such a run every query of the two forms agrees: cash, positions, sell availability and,
   * row by row, status and reverse lookup.
   */
  lemma QueriesSimulate(t: Tables, sleeve: string, s: State, ops: seq<Op>)
    requires Represents(t, sleeve, s) && Attributed(s)
    requires Guarded(TableGuard, s, ops)
    ensures var end, u := TableRun(t, sleeve, s.today, ops), Run(s, ops);
            && (forall c: Currency :: QueryAvailable(end.0, sleeve, end.1, c) == Available(u, c))
            && (forall c: Currency :: ReadCash(end.0, sleeve, c) == VirtualCash(u, c))
            && Rows(SortedValues(RowsOf(end.0.fills, sleeve))) == PositionList(u)
            && (forall symbol: string, exclude: Option<string> ::
                  QuerySellAvailability(end.0, sleeve, symbol, exclude) == SellAvailability(u, symbol, exclude))
            && (forall coid: string :: Lookup(u.orders, coid) == Lookup(end.0.orders, (sleeve, coid)))
  {
    TablesSimulate(t, sleeve, s, ops);
    var end, u := TableRun(t, sleeve, s.today, ops), Run(s, ops);
    RowsUnique(end.0.fills, sleeve, u.snapshots);
    forall c: Currency
      ensures QueryAvailable(end.0, sleeve, end.1, c) == Available(u, c)
      ensures ReadCash(end.0, sleeve, c) == VirtualCash(u, c)
    {
      AvailableAgrees(end.0, sleeve, u, c);
    }
    forall symbol: string, exclude: Option<string>
      ensures QuerySellAvailability(end.0, sleeve, symbol, exclude) == SellAvailability(u, symbol, exclude)
    {
      SellAvailabilityAgrees(end.0, sleeve, u, symbol, exclude);
    }
    LookupAgrees(end.0, sleeve, u, "");
  }

  // ---------------------------------------------------------------- the rows of other sleeves

  /** Two tables have the same rows of every other sleeve. */
  ghost predicate SameElsewhere<K(!new), V>(m: map<(string, K), V>, n: map<(string, K), V>, sleeve: string) {
    forall p: (string, K) | p.0 != sleeve :: Lookup(n, p) == Lookup(m, p)
  }

  /** Every row of another sleeve is the same row, in every column, and new cashflow rows are the caller's own. */
  ghost predicate OthersKept(before: Tables, after: Tables, sleeve: string) {
    && SameElsewhere(before.cash, after.cash, sleeve)
    && SameElsewhere(before.reservations, after.reservations, sleeve)
    && SameElsewhere(before.orders, after.orders, sleeve)
    && SameElsewhere(before.fills, after.fills, sleeve)
    && before.cashflows <= after.cashflows
    && (forall i | |before.cashflows| <= i < |after.cashflows| :: after.cashflows[i].sleeveId == sleeve)
  }

  lemma OthersKeptTransitive(a: Tables, b: Tables, c: Tables, sleeve: string)
    requires OthersKept(a, b, sleeve) && OthersKept(b, c, sleeve)
    ensures OthersKept(a, c, sleeve)
  {
    forall i | |a.cashflows| <= i < |c.cashflows| ensures c.cashflows[i].sleeveId == sleeve {
      if i < |b.cashflows| {
        assert c.cashflows[i] == b.cashflows[i];
      }
    }
  }

  lemma OthersStillShown(before: Tables, after: Tables, sleeve: string, owner: string, s: State)
    requires OthersKept(before, after, sleeve) && Represents(before, owner, s) && owner != sleeve
    ensures Represents(after, owner, s)
  {
    assert forall c: Currency :: Lookup(after.cash, (owner, c)) == Lookup(before.cash, (owner, c));
    assert forall k: string :: Lookup(after.reservations, (owner, k)) == Lookup(before.reservations, (owner, k));
    assert forall k: string :: Lookup(after.orders, (owner, k)) == Lookup(before.orders, (owner, k));
    assert forall k: string :: Lookup(after.fills, (owner, k)) == Lookup(before.fills, (owner, k));
  }

  lemma BookKeepsOthers(t: Tables, sleeve: string, c: Currency, delta: real)
    ensures OthersKept(t, BookCash(t, sleeve, c, delta), sleeve)
  {
    BookedRow(t, sleeve, c, delta);
  }

  lemma ReservationKeepsOthers(t: Tables, sleeve: string, coid: string, row: Reservation)
    ensures OthersKept(t, PutReservation(t, sleeve, coid, row), sleeve)
    ensures OthersKept(t, DeleteReservation(t, sleeve, coid), sleeve)
  {}

  lemma OrderKeepsOthers(t: Tables, sleeve: string, coid: string, row: Order)
    ensures OthersKept(t, UpsertOrder(t, sleeve, coid, row), sleeve)
  {}

  lemma StatusKeepsOthers(t: Tables, sleeve: string, coid: string, status: OrderStatus)
    ensures OthersKept(t, UpdateStatus(t, sleeve, coid, status), sleeve)
  {}

  lemma DrawDownKeepsOthers(t: Tables, sleeve: string, f: Fill, delta: real)
    ensures OthersKept(t, DrawDownRow(t, sleeve, f, delta), sleeve)
  {
    var row := ReadReservation(t, sleeve, f.clientOrderId);
    if row.Some? {
      var left := ReservationAfterFill(
        ReadQuantity(t, sleeve, f.clientOrderId), f.filledQuantity, row.value.amount, delta);
      ReservationKeepsOthers(t, sleeve, f.clientOrderId,
                             if left.Some? then row.value.(amount := left.value) else row.value);
    }
  }

  lemma UpsertKeepsOthers(t: Tables, sleeve: string, f: Fill)
    ensures OthersKept(t, UpsertFill(t, sleeve, f), sleeve)
  {}

  lemma FillKeepsOthers(t: Tables, sleeve: string, f: Fill)
    ensures OthersKept(t, TableFill(t, sleeve, f).0, sleeve)
  {
    var prev := Lookup(t.fills, (sleeve, f.orderId));
    if FillProgress(prev, f).Apply? {
      var booked := BookCash(t, sleeve, f.currency, DeltaCash(prev, f));
      var drawn := DrawDownRow(booked, sleeve, f, DeltaNotional(prev, f));
      var stored := UpsertFill(drawn, sleeve, f);
      BookKeepsOthers(t, sleeve, f.currency, DeltaCash(prev, f));
      DrawDownKeepsOthers(booked, sleeve, f, DeltaNotional(prev, f));
      UpsertKeepsOthers(drawn, sleeve, f);
      StatusKeepsOthers(stored, sleeve, f.clientOrderId,
                        StatusAfterFill(ReadQuantity(stored, sleeve, f.clientOrderId), f.filledQuantity));
      OthersKeptTransitive(t, booked, drawn, sleeve);
      OthersKeptTransitive(t, drawn, stored, sleeve);
      OthersKeptTransitive(t, stored, MarkFilled(stored, sleeve, f), sleeve);
    }
  }

  lemma TerminalKeepsOthers(t: Tables, sleeve: string, coid: string, status: OrderStatus)
    ensures OthersKept(t, DeleteReservation(UpdateStatus(t, sleeve, coid, status), sleeve, coid), sleeve)
  {
    var marked := UpdateStatus(t, sleeve, coid, status);
    StatusKeepsOthers(t, sleeve, coid, status);
    ReservationKeepsOthers(marked, sleeve, coid, Reservation(KRW, 0.0));
    OthersKeptTransitive(t, marked, DeleteReservation(marked, sleeve, coid), sleeve);
  }

  lemma FlowKeepsOthers(t: Tables, sleeve: string, amount: real, c: Currency)
    ensures OthersKept(t, InsertCashflow(BookCash(t, sleeve, c, amount), sleeve, c, amount), sleeve)
  {
    var booked := BookCash(t, sleeve, c, amount);
    BookKeepsOthers(t, sleeve, c, amount);
    assert OthersKept(booked, InsertCashflow(booked, sleeve, c, amount), sleeve);
    OthersKeptTransitive(t, booked, InsertCashflow(booked, sleeve, c, amount), sleeve);
  }

  lemma StepKeepsOthers(t: Tables, sleeve: string, today: string, op: Op)
    ensures OthersKept(t, TableStep(t, sleeve, today, op).0, sleeve)
  {
    match op
    case Reserve(coid, amount, c) => ReservationKeepsOthers(t, sleeve, coid, Reservation(c, amount));
    case Release(coid) => ReservationKeepsOthers(t, sleeve, coid, Reservation(KRW, 0.0));
    case RecordOrder(coid, orderId, symbol, side, c, quantity) =>
      OrderKeepsOthers(t, sleeve, coid, Order(orderId, symbol, side, c, quantity, Pending));
    case ReserveSell(coid, orderId, symbol, c, quantity) =>
      OrderKeepsOthers(t, sleeve, coid, Order(orderId, symbol, Sell, c, quantity, Pending));
    case ApplyFill(f) => FillKeepsOthers(t, sleeve, f);
    case MarkTerminal(coid, status) => TerminalKeepsOthers(t, sleeve, coid, status);
    case Cashflow(amount, c) => FlowKeepsOthers(t, sleeve, amount, c);
    case SetToday(_) =>
  }

  /** Every other sleeve in the same tables keeps the rows it had, whatever is called. */
  lemma {:induction false} OtherSleevesUntouched(t: Tables, sleeve: string, today: string, ops: seq<Op>)
    ensures var end := TableRun(t, sleeve, today, ops).0;
            && OthersKept(t, end, sleeve)
            && forall owner: string, s: State | owner != sleeve && Represents(t, owner, s) :: Represents(end, owner, s)
  {
    var end := TableRun(t, sleeve, today, ops).0;
    if ops != [] {
      var front := ops[..|ops| - 1];
      OtherSleevesUntouched(t, sleeve, today, front);
      var mid := TableRun(t, sleeve, today, front);
      StepKeepsOthers(mid.0, sleeve, mid.1, ops[|ops| - 1]);
      OthersKeptTransitive(t, mid.0, end, sleeve);
    }
    forall owner: string, s: State | owner != sleeve && Represents(t, owner, s) ensures Represents(end, owner, s) {
      OthersStillShown(t, end, sleeve, owner, s);
    }
  }

  // ---------------------------------------------------------------- the books balance

  /** The cashflow rows of one sleeve in one currency. */
  ghost function FlowRows(rows: seq<CashflowRow>, sleeve: string, c: Currency): real {
    if rows == [] then 0.0
    else
      var row := rows[|rows| - 1];
      FlowRows(rows[..|rows| - 1], sleeve, c) + if row.sleeveId == sleeve && row.currency == c then row.amount else 0.0
  }

  lemma BookKeepsCapital(t: Tables, sleeve: string, cur: Currency, delta: real, c: Currency)
    ensures BookCash(t, sleeve, cur, delta).cashflows == t.cashflows
    ensures RowCapital(BookCash(t, sleeve, cur, delta), sleeve, c) == RowCapital(t, sleeve, c)
  {
    BookedRow(t, sleeve, cur, delta);
    if c != cur {
      assert Lookup(BookCash(t, sleeve, cur, delta).cash, (sleeve, c)) == Lookup(t.cash, (sleeve, c));
    }
  }

  lemma DrawDownKeepsLog(t: Tables, sleeve: string, f: Fill, delta: real)
    ensures DrawDownRow(t, sleeve, f, delta) == t.(reservations := DrawDownRow(t, sleeve, f, delta).reservations)
  {}

  lemma FillKeepsLog(t: Tables, sleeve: string, f: Fill, c: Currency)
    ensures TableFill(t, sleeve, f).0.cashflows == t.cashflows
    ensures RowCapital(TableFill(t, sleeve, f).0, sleeve, c) == RowCapital(t, sleeve, c)
    ensures Keyed(t) ==> Keyed(TableFill(t, sleeve, f).0)
  {
    var prev := Lookup(t.fills, (sleeve, f.orderId));
    if FillProgress(prev, f).Apply? {
      var booked := BookCash(t, sleeve, f.currency, DeltaCash(prev, f));
      BookedRow(t, sleeve, f.currency, DeltaCash(prev, f));
      BookKeepsCapital(t, sleeve, f.currency, DeltaCash(prev, f), c);
      DrawDownKeepsLog(booked, sleeve, f, DeltaNotional(prev, f));
      UpsertKeepsLog(DrawDownRow(booked, sleeve, f, DeltaNotional(prev, f)), sleeve, f);
    }
  }

  lemma UpsertKeepsLog(t: Tables, sleeve: string, f: Fill)
    ensures var u := MarkFilled(UpsertFill(t, sleeve, f), sleeve, f);
            && u == t.(fills := u.fills, orders := u.orders)
            && (Keyed(t) ==> Keyed(u))
  {
    var row := UpsertFill(t, sleeve, f);
    assert Keyed(t) ==> Keyed(row);
    assert MarkFilled(row, sleeve, f) == row.(orders := MarkFilled(row, sleeve, f).orders);
  }

  lemma StepLogsFlows(t: Tables, sleeve: string, today: string, op: Op, c: Currency)
    ensures var u := TableStep(t, sleeve, today, op).0;
            && FlowRows(u.cashflows, sleeve, c) == FlowRows(t.cashflows, sleeve, c) + FlowOf(op, c)
            && RowCapital(u, sleeve, c) == RowCapital(t, sleeve, c)
  {
    match op
    case ApplyFill(f) => FillKeepsLog(t, sleeve, f, c);
    case Cashflow(amount, cur) =>
      BookKeepsCapital(t, sleeve, cur, amount, c);
      assert (t.cashflows + [CashflowRow(sleeve, cur, amount)])[..|t.cashflows|] == t.cashflows;
    case _ => OtherStepsKeepLog(t, sleeve, today, op);
  }

  /** Nothing but reservations and orders differs. */
  predicate SameMoney(t: Tables, u: Tables) {
    u.cashflows == t.cashflows && u.cash == t.cash && u.fills == t.fills
  }

  lemma ReservesKeepLog(t: Tables, sleeve: string, today: string, op: Op)
    requires op.Reserve? || op.ReserveSell?
    ensures SameMoney(t, TableStep(t, sleeve, today, op).0)
  {
    match op
    case Reserve(coid, amount, c) =>
      var r := TableReserve(t, sleeve, today, coid, amount, c).0;
      assert r == t || r == PutReservation(t, sleeve, coid, Reservation(c, amount));
    case ReserveSell(coid, orderId, symbol, c, quantity) =>
      var r := TableReserveSell(t, sleeve, coid, orderId, symbol, c, quantity).0;
      assert r == t || r == UpsertOrder(t, sleeve, coid, Order(orderId, symbol, Sell, c, quantity, Pending));
  }

  lemma TerminalKeepsLog(t: Tables, sleeve: string, coid: string, status: OrderStatus)
    ensures SameMoney(t, DeleteReservation(UpdateStatus(t, sleeve, coid, status), sleeve, coid))
  {}

  lemma OtherStepsKeepLog(t: Tables, sleeve: string, today: string, op: Op)
    requires !op.ApplyFill? && !op.Cashflow?
    ensures SameMoney(t, TableStep(t, sleeve, today, op).0)
  {
    match op
    case Reserve(_, _, _) => ReservesKeepLog(t, sleeve, today, op);
    case ReserveSell(_, _, _, _, _) => ReservesKeepLog(t, sleeve, today, op);
    case MarkTerminal(coid, status) => TerminalKeepsLog(t, sleeve, coid, status);
    case Release(coid) => assert SameMoney(t, DeleteReservation(t, sleeve, coid));
    case RecordOrder(coid, orderId, symbol, side, c, quantity) =>
      assert SameMoney(t, UpsertOrder(t, sleeve, coid, Order(orderId, symbol, side, c, quantity, Pending)));
    case SetToday(_) =>
  }

  /** The cashflow table records exactly the external money of a run, and allocated capital never changes. */
  lemma {:induction false} FlowsAreLogged(t: Tables, sleeve: string, today: string, ops: seq<Op>, c: Currency)
    ensures var end := TableRun(t, sleeve, today, ops).0;
            && FlowRows(end.cashflows, sleeve, c) == FlowRows(t.cashflows, sleeve, c) + FlowTotal(ops, c)
            && RowCapital(end, sleeve, c) == RowCapital(t, sleeve, c)
  {
    if ops != [] {
      var front := ops[..|ops| - 1];
      FlowsAreLogged(t, sleeve, today, front, c);
      var mid := TableRun(t, sleeve, today, front);
      StepLogsFlows(mid.0, sleeve, mid.1, ops[|ops| - 1], c);
    }
  }

  /** Snapshots that keep their identity keep their currency. */
  lemma {:induction false} IdentityKeepsCurrency(s: State, ops: seq<Op>)
    requires Guarded(TableGuard, s, ops)
    ensures Guarded(KeepsCurrency, s, ops)
  {
    if ops != [] {
      IdentityKeepsCurrency(s, ops[..|ops| - 1]);
    }
  }

  /**
   * The books balance. In a database where a sleeve was opened, at any later moment and from its
   * rows alone: virtual cash is allocated capital plus the cashflow rows plus the signed cash of
   * the fill rows.
   */
  lemma TablesBalance(
    t: Tables, sleeve: string, capital: real, base: Currency, today: string, ops: seq<Op>, c: Currency)
    requires Represents(t, sleeve, Fresh(capital, base, today))
    requires RowCapital(t, sleeve, c) == OpeningOf(capital, base, c) && FlowRows(t.cashflows, sleeve, c) == 0.0
    requires Guarded(TableGuard, Fresh(capital, base, today), ops)
    ensures var end := TableRun(t, sleeve, today, ops).0;
            ReadCash(end, sleeve, c)
            == RowCapital(end, sleeve, c) + FlowRows(end.cashflows, sleeve, c)
               + Total(RowsOf(end.fills, sleeve), SignedWeight(c))
  {
    var s := Fresh(capital, base, today);
    QueriesSimulate(t, sleeve, s, ops);
    TablesSimulate(t, sleeve, s, ops);
    RowsUnique(TableRun(t, sleeve, today, ops).0.fills, sleeve, Run(s, ops).snapshots);
    FlowsAreLogged(t, sleeve, today, ops, c);
    IdentityKeepsCurrency(s, ops);
    CashConservation(capital, base, today, ops, c);
  }

  // ---------------------------------------------------------------- calls on any tables

  lemma KeyedRows(t: Tables, sleeve: string)
    requires Keyed(t)
    ensures WellKeyed(RowsOf(t.fills, sleeve))
  {
    assert IsRows(t.fills, sleeve, RowsOf(t.fills, sleeve));
  }

  lemma StepKeepsKeyed(t: Tables, sleeve: string, today: string, op: Op)
    requires Keyed(t)
    ensures Keyed(TableStep(t, sleeve, today, op).0)
  {
    match op
    case ApplyFill(f) => FillKeepsLog(t, sleeve, f, KRW);
    case Cashflow(amount, c) => BookedRow(t, sleeve, c, amount);
    case _ => OtherStepsKeepLog(t, sleeve, today, op);
  }

  /**
   * What a call on the tables means to its caller: whatever ledger state the rows stood for, they
   * now stand for that state after the call, with its reply; the rows of others are as they were.
   */
  ghost predicate Simulates(before: Tables, after: Tables, sleeve: string, today: string, op: Op, reply: Reply) {
    && (forall s | Represents(before, sleeve, s) && s.today == today && Attributed(s) && TableGuard(s, op) ::
          Represents(after, sleeve, Step(s, op).0) && reply == Step(s, op).1 && Attributed(Step(s, op).0))
    && OthersKept(before, after, sleeve)
    && (Keyed(before) ==> Keyed(after))
  }

  lemma StepSimulates(t: Tables, sleeve: string, today: string, op: Op)
    ensures Simulates(t, TableStep(t, sleeve, today, op).0, sleeve, today, op, TableStep(t, sleeve, today, op).1)
  {
    forall s | Represents(t, sleeve, s) && s.today == today && Attributed(s) && TableGuard(s, op)
      ensures Represents(TableStep(t, sleeve, today, op).0, sleeve, Step(s, op).0)
      ensures TableStep(t, sleeve, today, op).1 == Step(s, op).1 && Attributed(Step(s, op).0)
    {
      StepAgrees(t, sleeve, s, op);
      StepAttributed(s, op);
    }
    StepKeepsOthers(t, sleeve, today, op);
    if Keyed(t) {
      StepKeepsKeyed(t, sleeve, today, op);
    }
  }

  // ---------------------------------------------------------------- where the two forms part

  function EmptyTables(): Tables { Tables(map[], map[], map[], map[], []) }

  function NamedFirst(): Fill { RawFill("E", "a", "A", Buy, KRW, 1.0, 10.0, 0.0, 0.0, "", "") }

  function NamedLater(): Fill { RawFill("E", "b", "A", Buy, KRW, 2.0, 10.0, 0.0, 0.0, "", "") }

  // What is stored by the table form after both snapshots.
  function NamedRow(): Fill { RawFill("E", "a", "A", Buy, KRW, 2.0, 10.0, 0.0, 0.0, "", "") }

  function OpenedFor(sleeve: string): Tables { InsertCash(EmptyTables(), sleeve, KRW, 100.0) }

  lemma FirstNamed()
    ensures TableFill(OpenedFor("s"), "s", NamedFirst()).0
            == OpenedFor("s").(cash := map[("s", KRW) := CashRow(100.0, 90.0)],
                               fills := map[("s", "E") := NamedFirst()])
  {}

  lemma ThenRenamed(t: Tables)
    requires t.fills == map[("s", "E") := NamedFirst()]
    ensures TableFill(t, "s", NamedLater()).0.fills == map[("s", "E") := NamedRow()]
  {
    var f, prev := NamedLater(), Some(NamedFirst());
    assert Lookup(t.fills, ("s", "E")) == prev;
    assert FillProgress(prev, f).Apply?;
    var booked := BookCash(t, "s", f.currency, DeltaCash(prev, f));
    BookedRow(t, "s", f.currency, DeltaCash(prev, f));
    DrawDownKeepsLog(booked, "s", f, DeltaNotional(prev, f));
    MarkFilledSnapshots(UpsertFill(DrawDownRow(booked, "s", f, DeltaNotional(prev, f)), "s", f), "s", f);
  }

  /** A snapshot that renames its order is stored under the new name by one form and the old by the other. */
  lemma RenamedSnapshotDiffers()
    ensures var t, s := OpenedFor("s"), Fresh(100.0, KRW, "");
            var ops := [ApplyFill(NamedFirst()), ApplyFill(NamedLater())];
            && Represents(t, "s", s)
            && Run(s, ops).snapshots == map["E" := NamedLater()]
            && TableRun(t, "s", "", ops).0.fills == map[("s", "E") := NamedRow()]
            && !Represents(TableRun(t, "s", "", ops).0, "s", Run(s, ops))
  {
    var t, s := OpenedFor("s"), Fresh(100.0, KRW, "");
    var first, later := ApplyFill(NamedFirst()), ApplyFill(NamedLater());
    RenamedRun(s, first, later);
    FirstNamed();
    ThenRenamed(TableFill(t, "s", NamedFirst()).0);
    assert [first, later][..1] == [first] && [first][..0] == [];
    assert TableRun(t, "s", "", []) == (t, "");
    assert TableRun(t, "s", "", [first]) == (TableFill(t, "s", NamedFirst()).0, "");
    var end := TableRun(t, "s", "", [first, later]).0;
    assert end == TableFill(TableFill(t, "s", NamedFirst()).0, "s", NamedLater()).0;
    assert end.fills[("s", "E")] != Run(s, [first, later]).snapshots["E"];
  }

  lemma RenamedRun(s: State, first: Op, later: Op)
    requires s.snapshots == map[] && first == ApplyFill(NamedFirst()) && later == ApplyFill(NamedLater())
    ensures Run(s, [first, later]).snapshots == map["E" := NamedLater()]
  {
    RunAppend(s, [], first);
    RunAppend(s, [first], later);
    assert [] + [first] == [first] && [first] + [later] == [first, later];
  }
}
