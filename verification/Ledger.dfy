/** The dictionary ledger: the class whose methods update its tables, tied step by step to the specification. */
module Ledger {
  import opened SleeveTypes
  import opened MapSums
  import opened Positions
  import opened LedgerSpec
  import CashTheorems
  import SellTheorems

  datatype Created = Made(ledger: InMemorySleeveLedger) | BadConfig

  class InMemorySleeveLedger {
    const sleeveId: string
    var cash: map<Currency, real>
    var reserved: map<string, Reservation>
    var snapshots: map<string, Fill>
    var orders: map<string, Order>
    var today: string  // what the injected clock answers

    ghost const initial: State
    ghost var history: seq<Op>

    ghost function Abstract(): State
      reads this
    {
      State(cash, reserved, snapshots, orders, today)
    }

    /** The tables are what the operations called so far make of the initial ones. */
    ghost predicate Valid()
      reads this
    {
      WellKeyed(snapshots) && WellKeyed(initial.snapshots) && Abstract() == Run(initial, history)
    }

    constructor (sleeveId: string, capital: real, base: Currency, today: string)
      ensures Valid() && this.sleeveId == sleeveId && history == []
      ensures initial == Fresh(capital, base, today)
    {
      this.sleeveId := sleeveId;
      cash, reserved, snapshots, orders, this.today := map[base := capital], map[], map[], map[], today;
      initial, history := Fresh(capital, base, today), [];
    }

    /** Construction refuses an empty sleeve id and a negative capital. */
    static method Create(sleeveId: string, capital: real, base: Currency, today: string) returns (r: Created)
      ensures r.Made? <==> sleeveId != "" && 0.0 <= capital
      ensures r.Made? ==>
                fresh(r.ledger) && r.ledger.Valid() && r.ledger.history == []
                && r.ledger.initial == Fresh(capital, base, today)
    {
      if sleeveId == "" || capital < 0.0 {
        return BadConfig;
      }
      var made := new InMemorySleeveLedger(sleeveId, capital, base, today);
      r := Made(made);
    }

    // ---------------------------------------------------------------- queries

    function VirtualCash(c: Currency): real
      reads this
    {
      CashOf(cash, c)
    }

    method ReservedTotal(c: Currency) returns (total: real)
      ensures total == LedgerSpec.ReservedTotal(Abstract(), c)
    {
      total := 0.0;
      var todo := reserved;
      while todo != map[]
        invariant total + Total(todo, ReservedWeight(c)) == Total(reserved, ReservedWeight(c))
        decreases todo.Keys
      {
        var k :| k in todo;
        TotalRemove(todo, k, ReservedWeight(c));
        if todo[k].currency == c {
          total := total + todo[k].amount;
        }
        todo := todo - {k};
      }
    }

    method SettlementPending(c: Currency) returns (total: real)
      ensures total == LedgerSpec.SettlementPending(Abstract(), c)
    {
      total := 0.0;
      var todo := snapshots;
      while todo != map[]
        invariant total + Total(todo, UnsettledWeight(c, today)) == Total(snapshots, UnsettledWeight(c, today))
        decreases todo.Keys
      {
        var k :| k in todo;
        TotalRemove(todo, k, UnsettledWeight(c, today));
        var f := todo[k];
        if f.side.Sell? && f.currency == c && f.settlementDate != "" && Before(today, f.settlementDate) {
          total := total + (f.CostBasis() - f.commission - f.tax);
        }
        todo := todo - {k};
      }
    }

    method Available(c: Currency) returns (amount: real)
      ensures amount == LedgerSpec.Available(Abstract(), c)
    {
      var held := ReservedTotal(c);
      var pending := SettlementPending(c);
      amount := VirtualCash(c) - held - pending;
    }

    /** Open sell quantity of a ticker over the order rows, leaving out one client order id. */
    method OpenSellQty(ticker: string, exclude: Option<string>) returns (total: real)
      ensures total == LedgerSpec.OpenSellQty(Abstract(), ticker, exclude)
    {
      total := 0.0;
      var todo := orders;
      ghost var w := OpenWeight(snapshots, ticker);
      while todo != map[]
        invariant total + Total(Without(todo, exclude), w) == Total(Without(orders, exclude), w)
        decreases todo.Keys
      {
        var coid :| coid in todo;
        WithoutRemove(todo, coid, exclude, w);
        var o := todo[coid];
        todo := todo - {coid};
        if exclude != Some(coid) && o.symbol == ticker && o.side.Sell? && o.status.Open() {
          var remaining := o.quantity - FilledOf(snapshots, o.orderId);
          if remaining > 0.0 {
            total := total + remaining;
          }
        }
      }
    }

    /** The stored snapshots, each once, in no particular order. */
    method SnapshotValues() returns (values: seq<Fill>)
      requires WellKeyed(snapshots)
      ensures Enumerates(values, snapshots)
    {
      values := [];
      var todo := snapshots;
      while todo != map[]
        invariant todo.Keys <= snapshots.Keys
        invariant forall k | k in todo :: todo[k] == snapshots[k]
        invariant DistinctOrders(values)
        invariant forall f | f in values :: f.orderId in snapshots && f.orderId !in todo && snapshots[f.orderId] == f
        invariant forall k | k in snapshots :: k in todo || snapshots[k] in values
        decreases todo.Keys
      {
        var k :| k in todo;
        values := values + [todo[k]];
        todo := todo - {k};
      }
    }

    method PositionList() returns (rows: seq<BrokerPosition>)
      requires WellKeyed(snapshots)
      ensures rows == LedgerSpec.PositionList(Abstract())
    {
      var values := SnapshotValues();
      EnumerationSorts(values, snapshots);
      rows := PositionRows(values);
    }

    method PositionQuantity(ticker: string) returns (quantity: real)
      requires WellKeyed(snapshots)
      ensures quantity == LedgerSpec.PositionQuantity(Abstract(), ticker)
      ensures quantity == Max(0.0, NetHeld(snapshots, ticker))
    {
      var rows := PositionList();
      PositionIsNetHeld(Abstract(), ticker);
      quantity := QuantityIn(rows, ticker);
    }

    method SellAvailability(ticker: string, exclude: Option<string>) returns (quantity: real)
      requires WellKeyed(snapshots)
      ensures quantity == LedgerSpec.SellAvailability(Abstract(), ticker, exclude)
    {
      var held := PositionQuantity(ticker);
      var open := OpenSellQty(ticker, exclude);
      quantity := held - open;
    }

    method AvailableToSell(ticker: string) returns (quantity: real)
      requires WellKeyed(snapshots)
      ensures quantity == LedgerSpec.AvailableToSell(Abstract(), ticker)
    {
      quantity := SellAvailability(ticker, None);
    }

    /** A client order id recorded with an exchange order id, if there is one. */
    method ClientOrderIdFor(orderId: string) returns (coid: Option<string>)
      ensures coid.Some? ==> coid.value in orders && orders[coid.value].orderId == orderId
      ensures coid.None? ==> forall k | k in orders :: orders[k].orderId != orderId
    {
      var todo := orders;
      while todo != map[]
        invariant forall k | k in orders :: (k in todo && todo[k] == orders[k]) || orders[k].orderId != orderId
        invariant todo.Keys <= orders.Keys
        decreases todo.Keys
      {
        var k :| k in todo;
        if orders[k].orderId == orderId {
          return Some(k);
        }
        todo := todo - {k};
      }
      coid := None;
    }

    function StatusOf(coid: string): (status: Option<OrderStatus>)
      reads this
      ensures status == if coid in orders then Some(orders[coid].status) else None
    {
      if coid in orders then Some(orders[coid].status) else None
    }

    // ---------------------------------------------------------------- updates

    /** Each update is one step of the specification, recorded in the history. */
    twostate predicate Performed(op: Op, reply: Reply)
      reads this
    {
      && Valid()
      && history == old(history) + [op]
      && Abstract() == Step(old(Abstract()), op).0
      && reply == Step(old(Abstract()), op).1
    }

    twostate lemma Perform(op: Op)
      requires old(Valid()) && history == old(history) + [op]
      requires Abstract() == Step(old(Abstract()), op).0
      ensures Valid()
    {
      RunAppend(initial, old(history), op);
      RunWellKeyed(initial, history);
    }

    method Reserve(coid: string, amount: real, c: Currency) returns (reply: Reply)
      requires Valid()
      modifies this
      ensures Performed(LedgerSpec.Reserve(coid, amount, c), reply)
    {
      history := history + [LedgerSpec.Reserve(coid, amount, c)];
      if coid == "" || amount < 0.0 {
        reply := ValueError;
      } else {
        var previous := if coid in reserved && reserved[coid].currency == c then reserved[coid].amount else 0.0;
        var available := Available(c);
        if !CanReserve(available, previous, amount) {
          reply := Answer(false);
        } else {
          reserved := reserved[coid := Reservation(c, amount)];
          reply := Answer(true);
        }
      }
      Perform(LedgerSpec.Reserve(coid, amount, c));
    }

    method Release(coid: string)
      requires Valid()
      modifies this
      ensures Performed(LedgerSpec.Release(coid), Done)
    {
      reserved := reserved - {coid};
      history := history + [LedgerSpec.Release(coid)];
      Perform(LedgerSpec.Release(coid));
    }

    method MarkOrderTerminal(coid: string, status: OrderStatus)
      requires Valid()
      modifies this
      ensures Performed(MarkTerminal(coid, status), Done)
    {
      if coid in orders {
        orders := orders[coid := orders[coid].(status := status)];
      }
      reserved := reserved - {coid};
      history := history + [MarkTerminal(coid, status)];
      Perform(MarkTerminal(coid, status));
    }

    /** Writes an order row; an empty exchange id does not overwrite a known one. */
    method WriteOrder(coid: string, orderId: string, symbol: string, side: Side, c: Currency, quantity: real)
      modifies this`orders
      ensures orders == Recorded(old(orders), coid, orderId, symbol, side, c, quantity)
    {
      var id := orderId;
      if orderId == "" && coid in orders {
        id := orders[coid].orderId;
      }
      orders := orders[coid := Order(id, symbol, side, c, quantity, Pending)];
    }

    method RecordOrder(coid: string, orderId: string, symbol: string, side: Side, c: Currency, quantity: real)
      requires Valid()
      modifies this
      ensures Performed(LedgerSpec.RecordOrder(coid, orderId, symbol, side, c, quantity), Done)
    {
      WriteOrder(coid, orderId, symbol, side, c, quantity);
      history := history + [LedgerSpec.RecordOrder(coid, orderId, symbol, side, c, quantity)];
      Perform(LedgerSpec.RecordOrder(coid, orderId, symbol, side, c, quantity));
    }

    method ReserveSell(coid: string, orderId: string, symbol: string, c: Currency, quantity: real)
      returns (reply: Reply)
      requires Valid()
      modifies this
      ensures Performed(LedgerSpec.ReserveSell(coid, orderId, symbol, c, quantity), reply)
    {
      history := history + [LedgerSpec.ReserveSell(coid, orderId, symbol, c, quantity)];
      if coid == "" {
        reply := ValueError;
      } else {
        var free := SellAvailability(symbol, Some(coid));
        assert free == LedgerSpec.SellAvailability(old(Abstract()), symbol, Some(coid));
        if quantity > free {
          reply := Answer(false);
        } else {
          WriteOrder(coid, orderId, symbol, Sell, c, quantity);
          reply := Answer(true);
        }
      }
      assert (Abstract(), reply) == StepReserveSell(old(Abstract()), coid, orderId, symbol, c, quantity);
      Perform(LedgerSpec.ReserveSell(coid, orderId, symbol, c, quantity));
    }

    /** Takes the notional of a buy out of its reservation, or frees it. */
    method DrawDown(f: Fill, deltaNotional: real)
      modifies this`reserved
      ensures reserved == ReservedAfter(old(reserved), RecordedQty(orders, f.clientOrderId), f, deltaNotional)
    {
      if f.side.Buy? && f.clientOrderId in reserved {
        var held := reserved[f.clientOrderId];
        var left := ReservationAfterFill(
          RecordedQty(orders, f.clientOrderId), f.filledQuantity, held.amount, deltaNotional);
        if left.None? {
          reserved := reserved - {f.clientOrderId};
        } else {
          reserved := reserved[f.clientOrderId := Reservation(held.currency, left.value)];
        }
      }
    }

    method ApplyFill(f: Fill) returns (reply: Reply)
      requires Valid()
      modifies this
      ensures Performed(LedgerSpec.ApplyFill(f), reply)
    {
      history := history + [LedgerSpec.ApplyFill(f)];
      var prev := Lookup(snapshots, f.orderId);
      var progress := FillProgress(prev, f);
      if progress.Noop? {
        reply := Done;
      } else if progress.Regression? {
        reply := ValueError;
      } else {
        var deltaCash := SignedCash(f) - (if prev.Some? then SignedCash(prev.value) else 0.0);
        var deltaNotional := f.CostBasis() - (if prev.Some? then prev.value.CostBasis() else 0.0);
        cash := cash[f.currency := VirtualCash(f.currency) + deltaCash];
        DrawDown(f, deltaNotional);
        snapshots := snapshots[f.orderId := f];
        if f.clientOrderId in orders {
          var status := StatusAfterFill(RecordedQty(orders, f.clientOrderId), f.filledQuantity);
          orders := orders[f.clientOrderId := orders[f.clientOrderId].(status := status)];
        }
        reply := Done;
      }
      Perform(LedgerSpec.ApplyFill(f));
    }

    method RecordCashflow(amount: real, c: Currency)
      requires Valid()
      modifies this
      ensures Performed(Cashflow(amount, c), Done)
    {
      cash := cash[c := VirtualCash(c) + amount];
      history := history + [Cashflow(amount, c)];
      Perform(Cashflow(amount, c));
    }

    /** The injected clock starts to answer another date. */
    method ClockMoves(later: string)
      requires Valid()
      modifies this
      ensures Performed(SetToday(later), Done)
    {
      today := later;
      history := history + [SetToday(later)];
      Perform(SetToday(later));
    }

    // ---------------------------------------------------------------- what an object can promise

    /** A ledger object whose calls kept the guards is within its cap and has not oversold. */
    lemma ObjectKeepsPromises(capital: real, base: Currency, start: string)
      requires Valid() && 0.0 <= capital && initial == Fresh(capital, base, start)
      requires Guarded(CashTheorems.CapGuard, initial, history)
      requires Guarded(SellTheorems.SellGuard, initial, history)
      ensures forall c: Currency :: 0.0 <= LedgerSpec.Available(Abstract(), c) + CashTheorems.BuyFees(Abstract(), c)
      ensures forall t: string :: 0.0 <= LedgerSpec.AvailableToSell(Abstract(), t)
    {
      CashTheorems.FreshWithinCap(capital, base, start);
      CashTheorems.HardCap(initial, history);
      SellTheorems.FreshNotOversold(capital, base, start);
      SellTheorems.NoOversell(initial, history);
    }
  }
}
