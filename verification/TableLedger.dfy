/** The table ledger: the class that runs its statements on a shared connection, inside transactions. */
module TableLedger {
  import opened SleeveTypes
  import opened MapSums
  import opened Positions
  import opened LedgerSpec
  import opened TableSpec
  import opened Simulation

  /** A connection: the tables as its statements see them, and what a rollback returns to. */
  class Connection {
    var tables: Tables
    var saved: Tables
    var inTransaction: bool

    constructor (tables: Tables)
      ensures this.tables == tables && !inTransaction
    {
      this.tables, saved, inTransaction := tables, tables, false;
    }

    method BeginImmediate()
      requires !inTransaction
      modifies this
      ensures inTransaction && saved == tables == old(tables)
    {
      saved, inTransaction := tables, true;
    }

    method Commit()
      requires inTransaction
      modifies this
      ensures !inTransaction && tables == old(tables)
    {
      inTransaction := false;
    }

    method Rollback()
      requires inTransaction
      modifies this
      ensures !inTransaction && tables == old(saved)
    {
      tables, inTransaction := saved, false;
    }
  }

  class SqliteSleeveLedger {
    const sleeveId: string
    const conn: Connection
    var today: string

    /** Between calls no transaction is open, and every fill row is stored under its own order id. */
    ghost predicate Valid()
      reads this, conn
    {
      !conn.inTransaction && Keyed(conn.tables)
    }

    /** Opening inserts the opening cash row unless the sleeve already has one. */
    constructor (sleeveId: string, capital: real, base: Currency, conn: Connection, today: string)
      requires !conn.inTransaction && Keyed(conn.tables)
      modifies conn
      ensures Valid() && this.sleeveId == sleeveId && this.conn == conn && this.today == today
      ensures conn.tables == InsertCash(old(conn.tables), sleeveId, base, capital)
    {
      this.sleeveId, this.conn, this.today := sleeveId, conn, today;
      new;
      conn.tables := InsertCash(conn.tables, sleeveId, base, capital);
    }

    /** Construction refuses an empty sleeve id and a negative capital before it touches the tables. */
    static method Create(sleeveId: string, capital: real, base: Currency, conn: Connection, today: string)
      returns (r: Option<SqliteSleeveLedger>)
      requires !conn.inTransaction && Keyed(conn.tables)
      modifies conn
      ensures r.Some? <==> sleeveId != "" && 0.0 <= capital
      ensures conn.tables
              == if r.Some? then InsertCash(old(conn.tables), sleeveId, base, capital) else old(conn.tables)
      ensures r.Some? ==>
                && fresh(r.value) && r.value.Valid()
                && r.value.sleeveId == sleeveId && r.value.conn == conn && r.value.today == today
    {
      if sleeveId == "" || capital < 0.0 {
        return None;
      }
      var made := new SqliteSleeveLedger(sleeveId, capital, base, conn, today);
      r := Some(made);
    }

    // ---------------------------------------------------------------- queries

    /** Sums a weight over the rows of this sleeve. */
    method SumRows<V(!new)>(rows: map<Key, V>, w: V -> real) returns (total: real)
      ensures total == Total(RowsOf(rows, sleeveId), w)
    {
      total := 0.0;
      var todo := rows;
      while todo != map[]
        invariant total + Total(RowsOf(todo, sleeveId), w) == Total(RowsOf(rows, sleeveId), w)
        decreases todo.Keys
      {
        var p :| p in todo;
        RowsOfDelete(todo, p, sleeveId);
        if p.0 == sleeveId {
          TotalRemove(RowsOf(todo, sleeveId), p.1, w);
          total := total + w(todo[p]);
        }
        todo := todo - {p};
      }
      RowsUnique(todo, sleeveId, map[]);
    }

    method Available(c: Currency) returns (amount: real)
      ensures amount == QueryAvailable(conn.tables, sleeveId, today, c)
    {
      var held := SumRows(conn.tables.reservations, ReservedWeight(c));
      var pending := SumRows(conn.tables.fills, UnsettledRowWeight(c, today));
      amount := ReadCash(conn.tables, sleeveId, c) - held - pending;
    }

    /** The fill rows of this sleeve, each once. */
    method AllSnapshots() returns (values: seq<Fill>)
      requires Keyed(conn.tables)
      ensures Enumerates(values, RowsOf(conn.tables.fills, sleeveId))
    {
      KeyedRows(conn.tables, sleeveId);
      ghost var rows := RowsOf(conn.tables.fills, sleeveId);
      values := [];
      var todo := conn.tables.fills;
      while todo != map[]
        invariant todo.Keys <= conn.tables.fills.Keys
        invariant forall p | p in todo :: todo[p] == conn.tables.fills[p]
        invariant DistinctOrders(values)
        invariant forall f | f in values :: f.orderId in rows && (sleeveId, f.orderId) !in todo && rows[f.orderId] == f
        invariant forall k | k in rows :: (sleeveId, k) in todo || rows[k] in values
        decreases todo.Keys
      {
        var p :| p in todo;
        if p.0 == sleeveId {
          assert rows[p.1] == todo[p];
          values := values + [todo[p]];
        }
        todo := todo - {p};
      }
    }

    method PositionList() returns (rows: seq<BrokerPosition>)
      requires Keyed(conn.tables)
      ensures rows == Rows(SortedValues(RowsOf(conn.tables.fills, sleeveId)))
    {
      var values := AllSnapshots();
      KeyedRows(conn.tables, sleeveId);
      EnumerationSorts(values, RowsOf(conn.tables.fills, sleeveId));
      rows := PositionRows(values);
    }

    /** The fill rows of this sleeve by order id. */
    method FilledRows() returns (filled: map<string, Fill>)
      requires Keyed(conn.tables)
      ensures filled == RowsOf(conn.tables.fills, sleeveId)
    {
      var values := AllSnapshots();
      filled := map f | f in values :: f.orderId := f;
    }

    method SellAvailability(symbol: string, exclude: Option<string>) returns (quantity: real)
      requires Keyed(conn.tables)
      ensures quantity == QuerySellAvailability(conn.tables, sleeveId, symbol, exclude)
    {
      var rows := PositionList();
      var filled := FilledRows();
      var orders := conn.tables.orders;
      if exclude.Some? {
        RowsOfDelete(orders, (sleeveId, exclude.value), sleeveId);
        orders := orders - {(sleeveId, exclude.value)};
      }
      var open := SumRows(orders, OpenWeight(filled, symbol));
      quantity := QuantityIn(rows, symbol) - open;
    }

    // ---------------------------------------------------------------- updates

    /** A call is one step on the tables, and means to its caller what it means on a dictionary ledger. */
    twostate predicate Performed(op: Op, reply: Reply)
      reads this, conn
    {
      && (conn.tables, reply) == TableStep(old(conn.tables), sleeveId, today, op)
      && Simulates(old(conn.tables), conn.tables, sleeveId, today, op, reply)
    }

    method Reserve(coid: string, amount: real, c: Currency) returns (reply: Reply)
      requires Valid()
      modifies conn
      ensures Valid()
      ensures Performed(LedgerSpec.Reserve(coid, amount, c), reply)
    {
      if coid == "" || amount < 0.0 {
        StepSimulates(old(conn.tables), sleeveId, today, LedgerSpec.Reserve(coid, amount, c));
        return ValueError;
      }
      conn.BeginImmediate();
      var row := ReadReservation(conn.tables, sleeveId, coid);
      var previous := if row.Some? && row.value.currency == c then row.value.amount else 0.0;
      var available := Available(c);
      reply := Answer(CanReserve(available, previous, amount));
      if reply.ok {
        conn.tables := PutReservation(conn.tables, sleeveId, coid, Reservation(c, amount));
      }
      conn.Commit();
      StepSimulates(old(conn.tables), sleeveId, today, LedgerSpec.Reserve(coid, amount, c));
    }

    method Release(coid: string)
      requires Valid()
      modifies conn
      ensures Valid()
      ensures Performed(LedgerSpec.Release(coid), Done)
    {
      conn.tables := DeleteReservation(conn.tables, sleeveId, coid);
      StepSimulates(old(conn.tables), sleeveId, today, LedgerSpec.Release(coid));
    }

    method RecordOrder(coid: string, orderId: string, symbol: string, side: Side, c: Currency, quantity: real)
      requires Valid()
      modifies conn
      ensures Valid()
      ensures Performed(LedgerSpec.RecordOrder(coid, orderId, symbol, side, c, quantity), Done)
    {
      conn.BeginImmediate();
      conn.tables := UpsertOrder(conn.tables, sleeveId, coid, Order(orderId, symbol, side, c, quantity, Pending));
      conn.Commit();
      StepSimulates(old(conn.tables), sleeveId, today,
                    LedgerSpec.RecordOrder(coid, orderId, symbol, side, c, quantity));
    }

    method ReserveSell(coid: string, orderId: string, symbol: string, c: Currency, quantity: real)
      returns (reply: Reply)
      requires Valid()
      modifies conn
      ensures Valid()
      ensures Performed(LedgerSpec.ReserveSell(coid, orderId, symbol, c, quantity), reply)
    {
      if coid == "" {
        reply := ValueError;
      } else {
        conn.BeginImmediate();
        var free := SellAvailability(symbol, Some(coid));
        if quantity > free {
          reply := Answer(false);
        } else {
          conn.tables := UpsertOrder(conn.tables, sleeveId, coid, Order(orderId, symbol, Sell, c, quantity, Pending));
          reply := Answer(true);
        }
        conn.Commit();
      }
      StepSimulates(old(conn.tables), sleeveId, today, LedgerSpec.ReserveSell(coid, orderId, symbol, c, quantity));
    }

    method MarkOrderTerminal(coid: string, status: OrderStatus)
      requires Valid()
      modifies conn
      ensures Valid()
      ensures Performed(MarkTerminal(coid, status), Done)
    {
      conn.BeginImmediate();
      conn.tables := UpdateStatus(conn.tables, sleeveId, coid, status);
      conn.tables := DeleteReservation(conn.tables, sleeveId, coid);
      conn.Commit();
      StepSimulates(old(conn.tables), sleeveId, today, MarkTerminal(coid, status));
    }

    /** Adds to a cash row, which is there from then on. */
    method AddCash(c: Currency, delta: real)
      requires conn.inTransaction
      modifies conn`tables
      ensures conn.tables == BookCash(old(conn.tables), sleeveId, c, delta)
    {
      conn.tables := InsertCash(conn.tables, sleeveId, c, 0.0);
      var cash := ReadCash(conn.tables, sleeveId, c);
      conn.tables := UpdateCash(conn.tables, sleeveId, c, cash + delta);
    }

    /** The writes of a fill that makes progress. */
    method WriteFill(prev: Option<Fill>, f: Fill)
      requires conn.inTransaction && prev == Lookup(conn.tables.fills, (sleeveId, f.orderId))
      requires FillProgress(prev, f).Apply?
      modifies conn`tables
      ensures conn.tables == TableFill(old(conn.tables), sleeveId, f).0
    {
      AddCash(f.currency, DeltaCash(prev, f));
      conn.tables := DrawDownRow(conn.tables, sleeveId, f, DeltaNotional(prev, f));
      conn.tables := UpsertFill(conn.tables, sleeveId, f);
      conn.tables := MarkFilled(conn.tables, sleeveId, f);
    }

    /** A fill; a regression raises and leaves every table as it was. */
    method ApplyFill(f: Fill) returns (reply: Reply)
      requires Valid()
      modifies conn
      ensures Valid() && Performed(LedgerSpec.ApplyFill(f), reply)
      ensures reply == ValueError ==> conn.tables == old(conn.tables)
    {
      conn.BeginImmediate();
      var prev := Lookup(conn.tables.fills, (sleeveId, f.orderId));
      var progress := FillProgress(prev, f);
      if progress.Regression? {
        conn.Rollback();
        reply := ValueError;
      } else {
        if progress.Apply? {
          WriteFill(prev, f);
        }
        conn.Commit();
        reply := Done;
      }
      StepSimulates(old(conn.tables), sleeveId, today, LedgerSpec.ApplyFill(f));
    }

    /** External money; its cashflow row is appended with it. */
    method RecordCashflow(amount: real, c: Currency)
      requires Valid()
      modifies conn
      ensures Valid() && Performed(Cashflow(amount, c), Done)
      ensures conn.tables.cashflows == old(conn.tables.cashflows) + [CashflowRow(sleeveId, c, amount)]
    {
      conn.BeginImmediate();
      AddCash(c, amount);
      BookedRow(old(conn.tables), sleeveId, c, amount);
      conn.tables := InsertCashflow(conn.tables, sleeveId, c, amount);
      conn.Commit();
      StepSimulates(old(conn.tables), sleeveId, today, Cashflow(amount, c));
    }
  }

  /** No table has a row of a sleeve. */
  ghost predicate Unknown(t: Tables, sleeve: string) {
    && (forall p | p in t.cash :: p.0 != sleeve)
    && (forall p | p in t.reservations :: p.0 != sleeve)
    && (forall p | p in t.fills :: p.0 != sleeve)
    && (forall p | p in t.orders :: p.0 != sleeve)
  }

  /**
   * Opening a new sleeve starts it on its capital. Opening it again changes nothing exactly when
   * its base currency has a row; under another base currency, the named capital is added to it.
   */
  lemma OpeningAndReopening(t: Tables, sleeve: string, capital: real, base: Currency, s: State)
    ensures Unknown(t, sleeve) ==>
              forall today :: Represents(InsertCash(t, sleeve, base, capital), sleeve, Fresh(capital, base, today))
    ensures Represents(t, sleeve, s) ==> (InsertCash(t, sleeve, base, capital) == t <==> base in s.cash)
    ensures Represents(t, sleeve, s) && base !in s.cash ==>
              Represents(InsertCash(t, sleeve, base, capital), sleeve, s.(cash := s.cash[base := capital]))
  {
    if Represents(t, sleeve, s) && base !in s.cash {
      assert (sleeve, base) in InsertCash(t, sleeve, base, capital).cash && (sleeve, base) !in t.cash;
    }
  }

  /** A sleeve of a hundred won, opened again under dollars, can spend a hundred of each. */
  lemma ReopenedElsewhere()
    ensures var t := InsertCash(OpenedFor("s"), "s", USD, 100.0);
            && Represents(t, "s", Fresh(100.0, KRW, "").(cash := map[KRW := 100.0, USD := 100.0]))
            && ReadCash(t, "s", KRW) == 100.0 && ReadCash(t, "s", USD) == 100.0
  {
    OpeningAndReopening(EmptyTables(), "s", 100.0, KRW, Fresh(100.0, KRW, ""));
    OpeningAndReopening(OpenedFor("s"), "s", 100.0, USD, Fresh(100.0, KRW, ""));
    assert map[KRW := 100.0][USD := 100.0] == map[KRW := 100.0, USD := 100.0];
  }
}
