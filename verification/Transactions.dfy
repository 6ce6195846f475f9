/**
 * Several workers on one database: each ledger call is a transaction of single statements under
 * one write lock, with begin, work, commit and rollback steps in any interleaving.
 */
module Transactions {
  import opened SleeveTypes
  import opened MapSums
  import opened LedgerSpec
  import opened CashTheorems
  import opened SellTheorems
  import opened TableSpec
  import opened Simulation

  datatype Outcome = Running | Finished(reply: Reply) | Raised

  /** A call in progress: its next statement, what it has read, and its uncommitted tables. */
  datatype Txn = Txn(
    sleeve: string, today: string, op: Op, pc: nat, prev: Option<Fill>, seen: real, work: Tables, outcome: Outcome)
  {
    function Next(): Txn { this.(pc := pc + 1) }

    function Write(t: Tables): Txn { this.(work := t, pc := pc + 1) }

    function End(t: Tables, reply: Reply): Txn { this.(work := t, outcome := Finished(reply)) }
  }

  /** Arguments the call does not refuse before it opens a transaction. */
  predicate Transacts(op: Op) {
    match op
    case Reserve(coid, amount, _) => coid != "" && 0.0 <= amount
    case ReserveSell(coid, _, _, _, _) => coid != ""
    case SetToday(_) => false
    case _ => true
  }

  function Open(t: Tables, sleeve: string, today: string, op: Op): Txn {
    Txn(sleeve, today, op, 0, None, 0.0, t, Running)
  }

  ghost function ReserveStatement(x: Txn, coid: string, amount: real, c: Currency): Txn {
    match x.pc
    case 0 =>
      var row := ReadReservation(x.work, x.sleeve, coid);
      x.(seen := if row.Some? && row.value.currency == c then row.value.amount else 0.0).Next()
    case 1 =>
      if CanReserve(QueryAvailable(x.work, x.sleeve, x.today, c), x.seen, amount) then x.Next()
      else x.End(x.work, Answer(false))
    case _ => x.End(PutReservation(x.work, x.sleeve, coid, Reservation(c, amount)), Answer(true))
  }

  ghost function ReserveSellStatement(
    x: Txn, coid: string, orderId: string, symbol: string, c: Currency, quantity: real): Txn
  {
    if x.pc == 0 then
      if quantity > QuerySellAvailability(x.work, x.sleeve, symbol, Some(coid)) then x.End(x.work, Answer(false))
      else x.Next()
    else
      x.End(UpsertOrder(x.work, x.sleeve, coid, Order(orderId, symbol, Sell, c, quantity, Pending)), Answer(true))
  }

  ghost function FillStatement(x: Txn, f: Fill): Txn {
    match x.pc
    case 0 =>
      var prev := Lookup(x.work.fills, (x.sleeve, f.orderId));
      (match FillProgress(prev, f)
       case Noop => x.End(x.work, Done)
       case Regression => x.(outcome := Raised)
       case Apply => x.(prev := prev).Next())
    case 1 => x.Write(InsertCash(x.work, x.sleeve, f.currency, 0.0))
    case 2 => x.(seen := ReadCash(x.work, x.sleeve, f.currency)).Next()
    case 3 => x.Write(UpdateCash(x.work, x.sleeve, f.currency, x.seen + DeltaCash(x.prev, f)))
    case 4 => x.Write(DrawDownRow(x.work, x.sleeve, f, DeltaNotional(x.prev, f)))
    case 5 => x.Write(UpsertFill(x.work, x.sleeve, f))
    case _ => x.End(MarkFilled(x.work, x.sleeve, f), Done)
  }

  ghost function CashflowStatement(x: Txn, amount: real, c: Currency): Txn {
    match x.pc
    case 0 => x.Write(InsertCash(x.work, x.sleeve, c, 0.0))
    case 1 => x.(seen := ReadCash(x.work, x.sleeve, c)).Next()
    case 2 => x.Write(UpdateCash(x.work, x.sleeve, c, x.seen + amount))
    case _ => x.End(InsertCashflow(x.work, x.sleeve, c, amount), Done)
  }

  /** One statement of a call, on its own uncommitted tables. */
  ghost function Statement(x: Txn): Txn {
    match x.op
    case Reserve(coid, amount, c) => ReserveStatement(x, coid, amount, c)
    case ReserveSell(coid, orderId, symbol, c, quantity) =>
      ReserveSellStatement(x, coid, orderId, symbol, c, quantity)
    case ApplyFill(f) => FillStatement(x, f)
    case Cashflow(amount, c) => CashflowStatement(x, amount, c)
    case Release(coid) => x.End(DeleteReservation(x.work, x.sleeve, coid), Done)
    case RecordOrder(coid, orderId, symbol, side, c, quantity) =>
      x.End(UpsertOrder(x.work, x.sleeve, coid, Order(orderId, symbol, side, c, quantity, Pending)), Done)
    case MarkTerminal(coid, status) =>
      if x.pc == 0 then x.Write(UpdateStatus(x.work, x.sleeve, coid, status))
      else x.End(DeleteReservation(x.work, x.sleeve, coid), Done)
    case SetToday(_) => x
  }

  // ---------------------------------------------------------------- the database

  /** A committed call, with the reply its caller got. */
  datatype Entry = Entry(sleeve: string, today: string, op: Op, reply: Reply)

  datatype Database = Database(committed: Tables, holder: Option<nat>, active: map<nat, Txn>, log: seq<Entry>)

  datatype Event =
    | Begin(worker: nat, sleeve: string, today: string, op: Op)
    | Work(worker: nat)
    | Commit(worker: nat)
    | Rollback(worker: nat)

  /** One step of one worker; a step that is not enabled waits, which changes nothing. */
  ghost function Do(db: Database, e: Event): Database {
    match e
    case Begin(w, sleeve, today, op) =>
      if db.holder == None && w !in db.active && Transacts(op)
      then db.(holder := Some(w), active := db.active[w := Open(db.committed, sleeve, today, op)]) else db
    case Work(w) =>
      if w in db.active && db.active[w].outcome.Running?
      then db.(active := db.active[w := Statement(db.active[w])]) else db
    case Commit(w) =>
      if w in db.active && db.active[w].outcome.Finished?
      then
        var x := db.active[w];
        Database(x.work, None, db.active - {w}, db.log + [Entry(x.sleeve, x.today, x.op, x.outcome.reply)])
      else db
    case Rollback(w) =>
      if w in db.active then db.(holder := None, active := db.active - {w}) else db
  }

  ghost function DoAll(db: Database, events: seq<Event>): Database {
    if events == [] then db else Do(DoAll(db, events[..|events| - 1]), events[|events| - 1])
  }

  // ---------------------------------------------------------------- a call half way

  /** What a reserve has done and read after some statements, starting from committed tables. */
  ghost predicate MidReserve(x: Txn, t: Tables)
    requires x.op.Reserve?
  {
    var row := ReadReservation(t, x.sleeve, x.op.coid);
    var previous := if row.Some? && row.value.currency == x.op.currency then row.value.amount else 0.0;
    && x.pc <= 2 && x.work == t
    && (x.pc >= 1 ==> x.seen == previous)
    && (x.pc == 2 ==> CanReserve(QueryAvailable(t, x.sleeve, x.today, x.op.currency), previous, x.op.amount))
  }

  ghost predicate MidFill(x: Txn, t: Tables)
    requires x.op.ApplyFill?
  {
    var f := x.op.fill;
    var prev := Lookup(t.fills, (x.sleeve, f.orderId));
    var known := InsertCash(t, x.sleeve, f.currency, 0.0);
    var booked := BookCash(t, x.sleeve, f.currency, DeltaCash(prev, f));
    var drawn := DrawDownRow(booked, x.sleeve, f, DeltaNotional(prev, f));
    && x.pc <= 6
    && (x.pc >= 1 ==> x.prev == prev && FillProgress(prev, f).Apply?)
    && (x.pc == 3 ==> x.seen == ReadCash(known, x.sleeve, f.currency))
    && x.work == (if x.pc <= 1 then t else if x.pc <= 3 then known else if x.pc == 4 then booked
                  else if x.pc == 5 then drawn else UpsertFill(drawn, x.sleeve, f))
  }

  ghost predicate MidCashflow(x: Txn, t: Tables)
    requires x.op.Cashflow?
  {
    var known := InsertCash(t, x.sleeve, x.op.currency, 0.0);
    && x.pc <= 3
    && (x.pc == 2 ==> x.seen == ReadCash(known, x.sleeve, x.op.currency))
    && x.work == (if x.pc == 0 then t else if x.pc <= 2 then known
                  else BookCash(t, x.sleeve, x.op.currency, x.op.amount))
  }

  /** The uncommitted tables of a running call are what its statements so far make of the committed ones. */
  ghost predicate Midway(x: Txn, t: Tables) {
    && Transacts(x.op)
    && (x.outcome.Finished? ==> (x.work, x.outcome.reply) == TableStep(t, x.sleeve, x.today, x.op))
    && (x.outcome.Raised? ==> TableStep(t, x.sleeve, x.today, x.op) == (t, ValueError))
    && (x.outcome.Running? ==>
          match x.op
          case Reserve(_, _, _) => MidReserve(x, t)
          case ApplyFill(_) => MidFill(x, t)
          case Cashflow(_, _) => MidCashflow(x, t)
          case ReserveSell(coid, _, symbol, _, quantity) =>
            x.work == t
            && (x.pc > 0 ==> quantity <= QuerySellAvailability(t, x.sleeve, symbol, Some(coid)))
          case MarkTerminal(coid, status) =>
            x.work == if x.pc == 0 then t else UpdateStatus(t, x.sleeve, coid, status)
          case _ => x.work == t)
  }

  lemma FillStatementAdvances(x: Txn, t: Tables)
    requires x.op.ApplyFill? && x.outcome.Running? && MidFill(x, t)
    ensures Midway(Statement(x), t)
  {}

  lemma StatementAdvances(x: Txn, t: Tables)
    requires Midway(x, t) && x.outcome.Running?
    ensures Midway(Statement(x), t)
  {
    if x.op.ApplyFill? {
      FillStatementAdvances(x, t);
    }
  }

  // ---------------------------------------------------------------- serializability

  /** The committed calls, one after another, as if each ran alone. */
  ghost function Serial(t: Tables, log: seq<Entry>): Tables {
    if log == [] then t
    else
      var e := log[|log| - 1];
      TableStep(Serial(t, log[..|log| - 1]), e.sleeve, e.today, e.op).0
  }

  /** Each committed call answered what it would have answered alone on the tables before it. */
  ghost predicate RepliesMatch(t: Tables, log: seq<Entry>) {
    log != [] ==>
      var front, e := log[..|log| - 1], log[|log| - 1];
      RepliesMatch(t, front) && e.reply == TableStep(Serial(t, front), e.sleeve, e.today, e.op).1
  }

  ghost predicate Consistent(t: Tables, db: Database) {
    && (forall w | w in db.active :: db.holder == Some(w))
    && (forall w | w in db.active :: Midway(db.active[w], db.committed))
    && db.committed == Serial(t, db.log)
    && RepliesMatch(t, db.log)
  }

  lemma LogAppend(t: Tables, log: seq<Entry>, e: Entry)
    ensures var r := TableStep(Serial(t, log), e.sleeve, e.today, e.op);
            && Serial(t, log + [e]) == r.0
            && (RepliesMatch(t, log + [e]) <==> RepliesMatch(t, log) && e.reply == r.1)
  {
    assert (log + [e])[..|log + [e]| - 1] == log;
  }

  lemma CommitKeeps(t: Tables, db: Database, w: nat)
    requires Consistent(t, db) && w in db.active && db.active[w].outcome.Finished?
    ensures Consistent(t, Do(db, Commit(w)))
  {
    var x := db.active[w];
    LogAppend(t, db.log, Entry(x.sleeve, x.today, x.op, x.outcome.reply));
    assert Midway(x, db.committed);
    assert Do(db, Commit(w)).active == map[] by {
      assert forall v | v in db.active :: v == w;
    }
  }

  lemma DoKeeps(t: Tables, db: Database, e: Event)
    requires Consistent(t, db)
    ensures Consistent(t, Do(db, e))
  {
    match e
    case Work(w) =>
      if w in db.active && db.active[w].outcome.Running? {
        StatementAdvances(db.active[w], db.committed);
      }
    case Commit(w) =>
      if w in db.active && db.active[w].outcome.Finished? {
        CommitKeeps(t, db, w);
      }
    case _ =>
  }

  /**
   * Serializability. However the workers' steps interleave, the committed tables are those of
   * the committed calls run one after another in commit order, each with the reply it gave.
   */
  lemma {:induction false} Serializable(t: Tables, events: seq<Event>)
    ensures var db := DoAll(Database(t, None, map[], []), events);
            db.committed == Serial(t, db.log) && RepliesMatch(t, db.log)
    ensures Consistent(t, DoAll(Database(t, None, map[], []), events))
  {
    if events != [] {
      Serializable(t, events[..|events| - 1]);
      DoKeeps(t, DoAll(Database(t, None, map[], []), events[..|events| - 1]), events[|events| - 1]);
    }
  }

  /** A call that raised can only be rolled back, and a rollback leaves no trace. */
  lemma FailureLeavesNoTrace(db: Database, e: Event)
    ensures e.Rollback? ==> Do(db, e).committed == db.committed && Do(db, e).log == db.log
    ensures e.worker in db.active && db.active[e.worker].outcome.Raised? ==>
              Do(db, e).committed == db.committed && Do(db, e).log == db.log
  {}

  // ---------------------------------------------------------------- every call ends

  /** A call after some of its statements, or at its end if that came first. */
  ghost function Advance(x: Txn, statements: nat): Txn {
    if statements == 0 then x
    else
      var y := Advance(x, statements - 1);
      if y.outcome.Running? then Statement(y) else y
  }

  lemma StatementCounts(x: Txn)
    requires Transacts(x.op)
    ensures Statement(x).outcome.Running? && x.outcome.Running? ==> Statement(x).pc == x.pc + 1
    ensures Statement(x).outcome.Finished? && x.outcome.Running? ==> Statement(x).outcome.reply != ValueError
    ensures Statement(x).sleeve == x.sleeve && Statement(x).today == x.today && Statement(x).op == x.op
  {}

  /** A call of the same worker as another, some statements on its way. */
  ghost predicate OnTheWay(x: Txn, y: Txn, statements: nat) {
    && Transacts(y.op) && y.sleeve == x.sleeve && y.today == x.today && y.op == x.op
    && (y.outcome.Running? ==> y.pc == statements)
    && (y.outcome.Finished? ==> y.outcome.reply != ValueError)
  }

  lemma {:induction false} AdvanceCounts(x: Txn, statements: nat)
    requires Transacts(x.op) && x.outcome.Running? && x.pc == 0
    ensures OnTheWay(x, Advance(x, statements), statements)
  {
    if statements > 0 {
      AdvanceCounts(x, statements - 1);
      StatementCounts(Advance(x, statements - 1));
    }
  }

  lemma {:induction false} AdvanceMidway(t: Tables, x: Txn, statements: nat)
    requires Midway(x, t)
    ensures Midway(Advance(x, statements), t)
  {
    if statements > 0 {
      AdvanceMidway(t, x, statements - 1);
      if Advance(x, statements - 1).outcome.Running? {
        StatementAdvances(Advance(x, statements - 1), t);
      }
    }
  }

  lemma RunningIsEarly(x: Txn, t: Tables)
    requires Midway(x, t) && x.outcome.Running? && x.pc >= 7
    ensures x.op.Release? || x.op.RecordOrder? || x.op.ReserveSell? || x.op.MarkTerminal?
  {}

  lemma ShortCallsEnd(x: Txn, statements: nat)
    requires x.op.Release? || x.op.RecordOrder? || x.op.ReserveSell? || x.op.MarkTerminal?
    requires x.outcome.Running? && x.pc == 0 && statements >= 2
    ensures !Advance(x, statements).outcome.Running?
  {
    assert Advance(x, 0) == x;
    assert Advance(x, 1) == Statement(x);
    if statements > 2 {
      ShortCallsEnd(x, statements - 1);
    }
  }

  /** Every call that opens a transaction ends within seven statements, with what it would do alone. */
  lemma EveryCallEnds(t: Tables, sleeve: string, today: string, op: Op)
    requires Transacts(op)
    ensures var x := Advance(Open(t, sleeve, today, op), 7);
            && x.sleeve == sleeve && x.today == today && x.op == op
            && (x.outcome.Finished? <==> TableStep(t, sleeve, today, op).1 != ValueError)
            && (x.outcome.Raised? <==> TableStep(t, sleeve, today, op).1 == ValueError)
            && (x.outcome.Finished? ==> (x.work, x.outcome.reply) == TableStep(t, sleeve, today, op))
  {
    var x := Open(t, sleeve, today, op);
    AdvanceCounts(x, 7);
    AdvanceMidway(t, x, 7);
    if Advance(x, 7).outcome.Running? {
      RunningIsEarly(Advance(x, 7), t);
      ShortCallsEnd(x, 7);
      assert false;
    }
  }

  /** The statements of one worker. */
  function Works(worker: nat, n: nat): seq<Event> { seq(n, _ => Work(worker)) }

  lemma {:induction false} WorksAdvance(db: Database, worker: nat, n: nat)
    requires worker in db.active
    ensures DoAll(db, Works(worker, n)) == db.(active := db.active[worker := Advance(db.active[worker], n)])
  {
    if n == 0 {
      assert db.active[worker := db.active[worker]] == db.active;
    } else {
      WorksAdvance(db, worker, n - 1);
      assert Works(worker, n)[..n - 1] == Works(worker, n - 1);
    }
  }

  lemma DoAllAppend(db: Database, events: seq<Event>, e: Event)
    ensures DoAll(db, events + [e]) == Do(DoAll(db, events), e)
  {
    assert (events + [e])[..|events + [e]| - 1] == events;
  }

  /**
   * Progress. A worker that finds the lock free and is left to itself commits its call, with the
   * tables, the reply and the log entry of that call, unless the call raises; the lock is free again.
   */
  lemma AloneCommits(db: Database, worker: nat, sleeve: string, today: string, op: Op)
    requires db.holder == None && worker !in db.active && Transacts(op)
    ensures var r := TableStep(db.committed, sleeve, today, op);
            var begun := Do(db, Begin(worker, sleeve, today, op));
            var worked := DoAll(begun, Works(worker, 7));
            && (r.1 != ValueError ==>
                  Do(worked, Commit(worker))
                  == Database(r.0, None, db.active, db.log + [Entry(sleeve, today, op, r.1)]))
            && (r.1 == ValueError ==> Do(worked, Rollback(worker)) == db)
  {
    var x := Open(db.committed, sleeve, today, op);
    var begun := Do(db, Begin(worker, sleeve, today, op));
    assert begun == db.(holder := Some(worker), active := db.active[worker := x]);
    WorksAdvance(begun, worker, 7);
    EveryCallEnds(db.committed, sleeve, today, op);
    var end := Advance(x, 7);
    assert begun.active[worker := end] - {worker} == db.active;
  }

  // ---------------------------------------------------------------- back to the ledger

  /** The calls of one sleeve in a log, each preceded by the date its worker read. */
  ghost function CallsOf(log: seq<Entry>, sleeve: string): seq<Op> {
    if log == [] then []
    else
      var before, e := CallsOf(log[..|log| - 1], sleeve), log[|log| - 1];
      if e.sleeve == sleeve then before + [SetToday(e.today)] + [e.op] else before
  }

  lemma EntrySeen(t: Tables, e: Entry, s: State, ops: seq<Op>)
    requires Represents(t, e.sleeve, Run(s, ops)) && Attributed(Run(s, ops)) && !e.op.SetToday?
    requires Guarded(TableGuard, s, ops + [SetToday(e.today)] + [e.op])
    ensures var u := Run(s, ops + [SetToday(e.today)] + [e.op]);
            Represents(TableStep(t, e.sleeve, e.today, e.op).0, e.sleeve, u) && Attributed(u)
  {
    var mid := ops + [SetToday(e.today)];
    GuardedAppend(TableGuard, s, mid, e.op);
    RunAppend(s, ops, SetToday(e.today));
    RunAppend(s, mid, e.op);
    assert Run(s, mid) == Run(s, ops).(today := e.today);
    StepAgrees(t, e.sleeve, Run(s, mid), e.op);
    StepAttributed(Run(s, mid), e.op);
  }

  /**
   * Many workers are one ledger. For each sleeve, the tables that any interleaving commits are
   * the state that its committed calls lead a single ledger to, so what holds in every guarded
   * run of the ledger holds for the shared database.
   */
  lemma {:induction false} SerialIsLedgerRun(t: Tables, log: seq<Entry>, sleeve: string, s: State)
    requires Represents(t, sleeve, s) && Attributed(s)
    requires forall i | 0 <= i < |log| :: !log[i].op.SetToday?
    requires Guarded(TableGuard, s, CallsOf(log, sleeve))
    ensures Represents(Serial(t, log), sleeve, Run(s, CallsOf(log, sleeve)))
    ensures Attributed(Run(s, CallsOf(log, sleeve)))
  {
    if log != [] {
      var front, e := log[..|log| - 1], log[|log| - 1];
      var ops := CallsOf(front, sleeve);
      if e.sleeve == sleeve {
        GuardedAppend(TableGuard, s, ops, SetToday(e.today));
        GuardedAppend(TableGuard, s, ops + [SetToday(e.today)], e.op);
        SerialIsLedgerRun(t, front, sleeve, s);
        EntrySeen(Serial(t, front), e, s, ops);
      } else {
        SerialIsLedgerRun(t, front, sleeve, s);
        StepKeepsOthers(Serial(t, front), e.sleeve, e.today, e.op);
        OthersStillShown(Serial(t, front), Serial(t, log), e.sleeve, sleeve, Run(s, ops));
      }
    }
  }

  ghost predicate OnlyTransactions(db: Database) {
    && (forall i | 0 <= i < |db.log| :: Transacts(db.log[i].op))
    && (forall w | w in db.active :: Transacts(db.active[w].op))
  }

  lemma StatementKeepsOp(x: Txn)
    ensures Statement(x).op == x.op
  {}

  lemma DoKeepsTransactions(db: Database, e: Event)
    requires OnlyTransactions(db)
    ensures OnlyTransactions(Do(db, e))
  {
    if e.Work? && e.worker in db.active {
      StatementKeepsOp(db.active[e.worker]);
    }
  }

  lemma {:induction false} LogTransacts(t: Tables, events: seq<Event>)
    ensures OnlyTransactions(DoAll(Database(t, None, map[], []), events))
  {
    if events != [] {
      LogTransacts(t, events[..|events| - 1]);
      DoKeepsTransactions(DoAll(Database(t, None, map[], []), events[..|events| - 1]), events[|events| - 1]);
    }
  }

  /** The same, said of the events themselves. */
  lemma WorkersAreOneLedger(t: Tables, events: seq<Event>, sleeve: string, s: State)
    requires Represents(t, sleeve, s) && Attributed(s)
    requires Guarded(TableGuard, s, CallsOf(DoAll(Database(t, None, map[], []), events).log, sleeve))
    ensures var db := DoAll(Database(t, None, map[], []), events);
            Represents(db.committed, sleeve, Run(s, CallsOf(db.log, sleeve)))
  {
    var db := DoAll(Database(t, None, map[], []), events);
    Serializable(t, events);
    LogTransacts(t, events);
    SerialIsLedgerRun(t, db.log, sleeve, s);
  }

  /**
   * The shared database keeps what the sleeve was promised. However the workers interleave, on
   * the committed rows what can be spent is not negative, fees of buys apart, and no more is
   * promised for sale than was bought.
   */
  lemma SharedDatabaseKeepsPromises(
    t: Tables, events: seq<Event>, sleeve: string, capital: real, base: Currency, today: string)
    requires 0.0 <= capital && Represents(t, sleeve, Fresh(capital, base, today))
    requires var calls := CallsOf(DoAll(Database(t, None, map[], []), events).log, sleeve);
             var start := Fresh(capital, base, today);
             Guarded(TableGuard, start, calls) && Guarded(CapGuard, start, calls) && Guarded(SellGuard, start, calls)
    ensures var db := DoAll(Database(t, None, map[], []), events);
            var date := Run(Fresh(capital, base, today), CallsOf(db.log, sleeve)).today;
            && (forall c: Currency ::
                  0.0 <= QueryAvailable(db.committed, sleeve, date, c)
                         + Total(RowsOf(db.committed.fills, sleeve), FeesWeight(c)))
            && (forall symbol: string :: 0.0 <= QuerySellAvailability(db.committed, sleeve, symbol, None))
  {
    var start := Fresh(capital, base, today);
    var db := DoAll(Database(t, None, map[], []), events);
    var calls := CallsOf(db.log, sleeve);
    var end := Run(start, calls);
    WorkersAreOneLedger(t, events, sleeve, start);
    RowsUnique(db.committed.fills, sleeve, end.snapshots);
    FreshWithinCap(capital, base, today);
    HardCap(start, calls);
    FreshNotOversold(capital, base, today);
    NoOversell(start, calls);
    forall c: Currency ensures QueryAvailable(db.committed, sleeve, end.today, c) == Available(end, c) {
      AvailableAgrees(db.committed, sleeve, end, c);
    }
    forall symbol: string
      ensures QuerySellAvailability(db.committed, sleeve, symbol, None) == AvailableToSell(end, symbol)
    {
      SellAvailabilityAgrees(db.committed, sleeve, end, symbol, None);
    }
  }
}
