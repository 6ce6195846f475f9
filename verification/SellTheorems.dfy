/** A sleeve never promises more of a symbol than it bought: the sell side over whole runs. */
module SellTheorems {
  import opened SleeveTypes
  import opened MapSums
  import opened LedgerSpec
  import opened CashTheorems

  /** Bought minus sold minus everything the open sell orders may still sell. */
  ghost function Margin(s: State, symbol: string): real {
    NetHeld(s.snapshots, symbol) - OpenSellQty(s, symbol, None)
  }

  ghost predicate NotOversold(s: State) {
    WellKeyed(s.snapshots) && forall symbol: string :: 0.0 <= Margin(s, symbol)
  }

  /** A sell row is bound to its exchange id with the symbol and quantity it was reserved with. */
  ghost predicate BindsSell(s: State, op: Op)
    requires op.RecordOrder?
  {
    && op.coid in s.orders
    && var o := s.orders[op.coid];
    && o.side.Sell? && o.symbol == op.symbol && o.quantity == op.quantity
    && (op.orderId == "" || op.orderId == o.orderId || o.orderId !in s.snapshots)
    && (o.status.Open() || o.quantity <= FilledOf(s.snapshots, if op.orderId == "" then o.orderId else op.orderId))
  }

  /** A sell snapshot lands on its own row, within the recorded quantity. */
  ghost predicate SoldThroughRow(s: State, f: Fill) {
    && f.clientOrderId in s.orders
    && var o := s.orders[f.clientOrderId];
    && o.side.Sell? && o.symbol == f.symbol && f.filledQuantity <= o.quantity
    && if o.status.Open()
       then o.orderId == f.orderId
            || (f.filledQuantity == o.quantity && f.orderId !in s.snapshots && o.orderId !in s.snapshots)
       else f.filledQuantity == o.quantity && DeltaQty(Lookup(s.snapshots, f.orderId), f) == 0.0
  }

  ghost predicate SellGuard(s: State, op: Op) {
    match op
    case RecordOrder(_, _, _, side, _, _) => side.Sell? ==> BindsSell(s, op)
    case MarkTerminal(_, status) => !status.Open()
    case ApplyFill(f) =>
      FillProgress(Lookup(s.snapshots, f.orderId), f).Apply? ==>
        && (f.orderId in s.snapshots ==>
              s.snapshots[f.orderId].symbol == f.symbol && s.snapshots[f.orderId].side == f.side)
        && (if f.side.Sell? then SoldThroughRow(s, f)
            else f.clientOrderId in s.orders ==> s.orders[f.clientOrderId].side.Buy?)
    case _ => true
  }

  lemma OpenNonnegative(s: State, symbol: string, exclude: Option<string>)
    ensures 0.0 <= OpenSellQty(s, symbol, exclude)
  {
    TotalNonnegative(Without(s.orders, exclude), OpenWeight(s.snapshots, symbol));
  }

  /** Replacing one row changes the open quantity by what the row itself may sell. */
  lemma ReplaceRow(s: State, coid: string, row: Order, symbol: string)
    ensures Total(s.orders[coid := row], OpenWeight(s.snapshots, symbol))
            == OpenSellQty(s, symbol, Some(coid)) + OpenWeight(s.snapshots, symbol)(row)
    ensures OpenSellQty(s, symbol, Some(coid)) == OpenSellQty(s, symbol, None)
              - WeightAt(s.orders, coid, OpenWeight(s.snapshots, symbol))
  {
    TotalUpdate(s.orders, coid, row, OpenWeight(s.snapshots, symbol));
    TotalDelete(s.orders, coid, OpenWeight(s.snapshots, symbol));
  }

  lemma FilledNonnegative(snapshots: map<string, Fill>, orderId: string)
    ensures 0.0 <= FilledOf(snapshots, orderId)
  {}

  lemma ReserveSellKeeps(s: State, op: Op, symbol: string)
    requires NotOversold(s) && op.ReserveSell?
    ensures 0.0 <= Margin(Step(s, op).0, symbol)
  {
    var t := Step(s, op).0;
    if t != s {
      var row := t.orders[op.coid];
      ReplaceRow(s, op.coid, row, symbol);
      OpenNonnegative(s, symbol, None);
      OpenNonnegative(s, symbol, Some(op.coid));
      PositionIsNetHeld(s, symbol);
      FilledNonnegative(s.snapshots, row.orderId);
      assert 0.0 <= Margin(s, symbol);
    }
  }

  /** When a sale is registered, and what it leaves to sell. */
  lemma ReserveSellRule(s: State, op: Op)
    requires op.ReserveSell?
    ensures var t, reply := Step(s, op).0, Step(s, op).1;
            var held := Max(0.0, NetHeld(s.snapshots, op.symbol));
            && (reply == ValueError <==> op.coid == "")
            && (reply == Answer(true) <==>
                  op.coid != "" && op.quantity <= held - OpenSellQty(s, op.symbol, Some(op.coid)))
            && (reply != Answer(true) ==> t == s)
            && (reply == Answer(true) ==>
                  && op.coid in t.orders
                  && AvailableToSell(t, op.symbol) == held - OpenSellQty(s, op.symbol, Some(op.coid))
                       - Max(0.0, op.quantity - FilledOf(s.snapshots, t.orders[op.coid].orderId)))
  {
    PositionIsNetHeld(s, op.symbol);
    var t := Step(s, op).0;
    if Step(s, op).1 == Answer(true) {
      ReplaceRow(s, op.coid, t.orders[op.coid], op.symbol);
      PositionIsNetHeld(t, op.symbol);
    }
  }

  lemma RecordKeeps(s: State, op: Op, symbol: string)
    requires NotOversold(s) && op.RecordOrder? && SellGuard(s, op)
    ensures 0.0 <= Margin(Step(s, op).0, symbol)
  {
    var t := Step(s, op).0;
    var row := t.orders[op.coid];
    ReplaceRow(s, op.coid, row, symbol);
    FilledNonnegative(s.snapshots, row.orderId);
    assert 0.0 <= Margin(s, symbol);
  }

  lemma TerminalKeeps(s: State, coid: string, status: OrderStatus, symbol: string)
    requires NotOversold(s) && !status.Open()
    ensures 0.0 <= Margin(StepTerminal(s, coid, status), symbol)
  {
    assert 0.0 <= Margin(s, symbol);
    if coid in s.orders {
      ReplaceRow(s, coid, s.orders[coid].(status := status), symbol);
    }
  }

  lemma NetAfterFill(s: State, f: Fill, symbol: string)
    requires WellKeyed(s.snapshots)
    requires f.orderId in s.snapshots ==>
               s.snapshots[f.orderId].symbol == f.symbol && s.snapshots[f.orderId].side == f.side
    ensures var dq := DeltaQty(Lookup(s.snapshots, f.orderId), f);
            NetHeld(s.snapshots[f.orderId := f], symbol) == NetHeld(s.snapshots, symbol)
              + (if f.symbol != symbol then 0.0 else if f.side.Buy? then dq else -dq)
  {
    TotalUpdate(s.snapshots, f.orderId, f, NetWeight(symbol));
  }

  /** A later snapshot never widens what another row may sell. */
  lemma RowsShrink(s: State, f: Fill, symbol: string)
    requires !FillProgress(Lookup(s.snapshots, f.orderId), f).Regression?
    ensures forall o: Order :: OpenWeight(s.snapshots[f.orderId := f], symbol)(o) <= OpenWeight(s.snapshots, symbol)(o)
  {}

  lemma BuyFillKeeps(s: State, f: Fill, symbol: string)
    requires NotOversold(s) && SellGuard(s, ApplyFill(f)) && f.side.Buy?
    requires FillProgress(Lookup(s.snapshots, f.orderId), f).Apply?
    ensures 0.0 <= Margin(Settle(s, f), symbol)
  {
    var t := Settle(s, f);
    NetAfterFill(s, f, symbol);
    RowsShrink(s, f, symbol);
    TotalMonotone(t.orders, OpenWeight(t.snapshots, symbol), s.orders, OpenWeight(s.snapshots, symbol));
    assert 0.0 <= Margin(s, symbol);
  }

  lemma SellFillKeeps(s: State, f: Fill, symbol: string)
    requires NotOversold(s) && SellGuard(s, ApplyFill(f)) && f.side.Sell?
    requires FillProgress(Lookup(s.snapshots, f.orderId), f).Apply?
    ensures 0.0 <= Margin(Settle(s, f), symbol)
  {
    var t := Settle(s, f);
    var dq := DeltaQty(Lookup(s.snapshots, f.orderId), f);
    NetAfterFill(s, f, symbol);
    RowsShrink(s, f, symbol);
    var drop := if f.symbol == symbol then dq else 0.0;
    var before, after := s.orders[f.clientOrderId], t.orders[f.clientOrderId];
    assert OpenWeight(t.snapshots, symbol)(after) <= OpenWeight(s.snapshots, symbol)(before) - drop;
    TotalDrop(t.orders, OpenWeight(t.snapshots, symbol), s.orders, OpenWeight(s.snapshots, symbol),
              f.clientOrderId, drop);
    assert 0.0 <= Margin(s, symbol);
  }

  lemma StepKeepsMargin(s: State, op: Op)
    requires NotOversold(s) && SellGuard(s, op)
    ensures NotOversold(Step(s, op).0)
  {
    forall symbol: string ensures 0.0 <= Margin(Step(s, op).0, symbol) {
      assert 0.0 <= Margin(s, symbol);
      match op
      case ReserveSell(_, _, _, _, _) => ReserveSellKeeps(s, op, symbol);
      case RecordOrder(_, _, _, _, _, _) => RecordKeeps(s, op, symbol);
      case MarkTerminal(coid, status) => TerminalKeeps(s, coid, status, symbol);
      case ApplyFill(f) =>
        if FillProgress(Lookup(s.snapshots, f.orderId), f).Apply? {
          if f.side.Buy? {
            BuyFillKeeps(s, f, symbol);
          } else {
            SellFillKeeps(s, f, symbol);
          }
        }
      case _ =>
    }
  }

  /** In every reachable state, even if every open sell fills completely, no more is sold than was bought. */
  lemma {:induction false} NoOversell(s: State, ops: seq<Op>)
    requires NotOversold(s) && Guarded(SellGuard, s, ops)
    ensures NotOversold(Run(s, ops))
    ensures forall symbol: string :: 0.0 <= AvailableToSell(Run(s, ops), symbol) == Margin(Run(s, ops), symbol)
  {
    if ops != [] {
      NoOversell(s, ops[..|ops| - 1]);
      StepKeepsMargin(Run(s, ops[..|ops| - 1]), ops[|ops| - 1]);
    }
    var t := Run(s, ops);
    forall symbol: string ensures 0.0 <= AvailableToSell(t, symbol) == Margin(t, symbol) {
      assert 0.0 <= Margin(t, symbol);
      OpenNonnegative(t, symbol, None);
      PositionIsNetHeld(t, symbol);
    }
  }

  lemma FreshNotOversold(capital: real, base: Currency, today: string)
    ensures NotOversold(Fresh(capital, base, today))
  {}

  // ---------------------------------------------------------------- terminal marks are not final

  /** No other row carries an exchange id. */
  ghost predicate OnlyRow(s: State, coid: string) {
    coid in s.orders && forall k | k in s.orders && k != coid :: s.orders[k].orderId != s.orders[coid].orderId
  }

  /**
   * A snapshot that is applied to its own sell order after the row was closed: a late fee, a
   * corrected price, or a fill that was not polled in time.
   */
  ghost predicate LateSnapshot(s: State, f: Fill) {
    var prev := Lookup(s.snapshots, f.orderId);
    && FillProgress(prev, f).Apply?
    && (prev.Some? ==> f.SameOrder(prev.value))
    && f.clientOrderId in s.orders
    && var o := s.orders[f.clientOrderId];
    && o.side.Sell? && o.orderId == f.orderId && o.symbol == f.symbol && !o.status.Open() && 0.0 < o.quantity
    && (DeltaQty(prev, f) == 0.0 || (f.side.Sell? && OnlyRow(s, f.clientOrderId)))
  }

  /** What such a snapshot takes from the margin: the quantity it adds, and the remainder it opens again. */
  function Reopened(s: State, f: Fill): real
    requires f.clientOrderId in s.orders
  {
    DeltaQty(Lookup(s.snapshots, f.orderId), f) + Max(0.0, s.orders[f.clientOrderId].quantity - f.filledQuantity)
  }

  lemma OthersWeighTheSame(s: State, f: Fill, symbol: string)
    requires LateSnapshot(s, f)
    ensures var t := Settle(s, f);
            forall k | k in t.orders && k != f.clientOrderId ::
              OpenWeight(t.snapshots, symbol)(t.orders[k]) == OpenWeight(s.snapshots, symbol)(s.orders[k])
  {}

  lemma LateSnapshotMargin(s: State, f: Fill, symbol: string)
    requires WellKeyed(s.snapshots) && LateSnapshot(s, f)
    ensures Margin(Settle(s, f), symbol) == Margin(s, symbol) - (if symbol == f.symbol then Reopened(s, f) else 0.0)
  {
    var t, coid := Settle(s, f), f.clientOrderId;
    NetAfterFill(s, f, symbol);
    OthersWeighTheSame(s, f, symbol);
    TotalRemove(s.orders, coid, OpenWeight(s.snapshots, symbol));
    TotalRemove(t.orders, coid, OpenWeight(t.snapshots, symbol));
    TotalCongruent(t.orders - {coid}, OpenWeight(t.snapshots, symbol),
                   s.orders - {coid}, OpenWeight(s.snapshots, symbol));
  }

  /**
   * A late snapshot opens a closed sell row again: the margin drops by the quantity it adds and by
   * the remainder, and survives exactly when that much was left.
   */
  lemma LateSnapshotReopens(s: State, f: Fill)
    requires NotOversold(s) && LateSnapshot(s, f)
    ensures var t := Step(s, ApplyFill(f)).0;
            && Margin(t, f.symbol) == Margin(s, f.symbol) - Reopened(s, f)
            && (forall symbol | symbol != f.symbol :: Margin(t, symbol) == Margin(s, symbol))
            && (NotOversold(t) <==> Reopened(s, f) <= Margin(s, f.symbol))
            && (t.orders[f.clientOrderId].status.Open() <==> f.filledQuantity < s.orders[f.clientOrderId].quantity)
  {
    var t := Settle(s, f);
    forall symbol: string
      ensures Margin(t, symbol) == Margin(s, symbol) - (if symbol == f.symbol then Reopened(s, f) else 0.0)
    {
      LateSnapshotMargin(s, f, symbol);
    }
    assert forall symbol: string :: 0.0 <= Margin(s, symbol);
  }

  function SampleFill(id: string, coid: string, side: Side, quantity: real, fee: real): Fill
    requires quantity > 0.0 && fee >= 0.0
  {
    RawFill(id, coid, "A", side, KRW, quantity, 1.0, fee, 0.0, "", "")
  }

  // Ten bought; of a sell order for ten, four sold and six cancelled; the six promised to another order.
  function BuyTen(): seq<Op> { [Reserve("b", 10.0, KRW), ApplyFill(SampleFill("B", "b", Buy, 10.0, 0.0))] }

  function SellFourOfTen(): seq<Op> {
    BuyTen() + [ReserveSell("e", "E", "A", KRW, 10.0)] + [ApplyFill(SampleFill("E", "e", Sell, 4.0, 0.0))]
  }

  function PromiseTheRest(): seq<Op> {
    SellFourOfTen() + [MarkTerminal("e", Cancelled)] + [ReserveSell("g", "G", "A", KRW, 6.0)]
  }

  function LateFee(): Fill { SampleFill("E", "e", Sell, 4.0, 0.5) }

  /** A sleeve with ten to spend. */
  function Ten(): State { Fresh(10.0, KRW, "") }

  // The states that run passes through.
  function Bought(): State {
    State(map[KRW := 0.0], map[], map["B" := SampleFill("B", "b", Buy, 10.0, 0.0)], map[], "")
  }

  function SoldFour(status: OrderStatus): State {
    State(map[KRW := 4.0], map[], Bought().snapshots["E" := SampleFill("E", "e", Sell, 4.0, 0.0)],
          map["e" := Order("E", "A", Sell, KRW, 10.0, status)], "")
  }

  function ClosedThenPromised(): State {
    SoldFour(Cancelled).(orders := SoldFour(Cancelled).orders["g" := Order("G", "A", Sell, KRW, 6.0, Pending)])
  }

  function Offered(): State { Bought().(orders := map["e" := Order("E", "A", Sell, KRW, 10.0, Pending)]) }

  /** A guarded run from ten that ends in a state. */
  ghost predicate Reaches(ops: seq<Op>, s: State) {
    Run(Ten(), ops) == s && Guarded(SellGuard, Ten(), ops) && Guarded(CapGuard, Ten(), ops)
  }

  lemma Reach(ops: seq<Op>, s: State, op: Op, t: State)
    requires Reaches(ops, s) && SellGuard(s, op) && CapGuard(s, op) && Step(s, op).0 == t
    ensures Reaches(ops + [op], t)
  {
    RunAppend(Ten(), ops, op);
    GuardedAppend(SellGuard, Ten(), ops, op);
    GuardedAppend(CapGuard, Ten(), ops, op);
  }

  lemma BuyTenRun()
    ensures Reaches(BuyTen(), Bought())
  {
    var reserve, fill := Reserve("b", 10.0, KRW), ApplyFill(SampleFill("B", "b", Buy, 10.0, 0.0));
    var held := Ten().(reserved := map["b" := Reservation(KRW, 10.0)]);
    Reach([], Ten(), reserve, held);
    assert CoveredBuy(held, fill.fill);
    Reach([] + [reserve], held, fill, Bought());
    assert [] + [reserve] + [fill] == BuyTen();
  }

  lemma BoughtNet()
    ensures NetHeld(Bought().snapshots, "A") == 10.0
    ensures NetHeld(SoldFour(Cancelled).snapshots, "A") == 6.0
  {
    var none: map<string, Fill> := map[];
    TotalUpdate(none, "B", SampleFill("B", "b", Buy, 10.0, 0.0), NetWeight("A"));
    assert none["B" := SampleFill("B", "b", Buy, 10.0, 0.0)] == Bought().snapshots;
    TotalUpdate(Bought().snapshots, "E", SampleFill("E", "e", Sell, 4.0, 0.0), NetWeight("A"));
  }

  lemma OfferStep()
    ensures Step(Bought(), ReserveSell("e", "E", "A", KRW, 10.0)).0 == Offered()
  {
    BoughtNet();
    PositionIsNetHeld(Bought(), "A");
  }

  lemma SellFourStep()
    ensures var fill := ApplyFill(SampleFill("E", "e", Sell, 4.0, 0.0));
            && Step(Offered(), fill).0 == SoldFour(PartiallyFilled)
            && SellGuard(Offered(), fill) && CapGuard(Offered(), fill)
  {}

  lemma SellFourRun()
    ensures Reaches(SellFourOfTen(), SoldFour(PartiallyFilled))
  {
    BuyTenRun();
    OfferStep();
    SellFourStep();
    Reach(BuyTen(), Bought(), ReserveSell("e", "E", "A", KRW, 10.0), Offered());
    Reach(BuyTen() + [ReserveSell("e", "E", "A", KRW, 10.0)], Offered(),
          ApplyFill(SampleFill("E", "e", Sell, 4.0, 0.0)), SoldFour(PartiallyFilled));
  }

  lemma ClosedMargin()
    ensures OpenSellQty(SoldFour(Cancelled), "A", Some("g")) == 0.0
    ensures Margin(ClosedThenPromised(), "A") == 0.0
  {
    var s, t := SoldFour(Cancelled), ClosedThenPromised();
    BoughtNet();
    var none: map<string, Order> := map[];
    TotalUpdate(none, "e", s.orders["e"], OpenWeight(s.snapshots, "A"));
    assert none["e" := s.orders["e"]] == s.orders && s.orders - {"g"} == s.orders;
    TotalUpdate(s.orders, "g", t.orders["g"], OpenWeight(s.snapshots, "A"));
  }

  lemma CloseStep()
    ensures Step(SoldFour(PartiallyFilled), MarkTerminal("e", Cancelled)).0 == SoldFour(Cancelled)
  {}

  lemma SixLeft()
    ensures SellAvailability(SoldFour(Cancelled), "A", Some("g")) == 6.0
  {
    BoughtNet();
    ClosedMargin();
    PositionIsNetHeld(SoldFour(Cancelled), "A");
  }

  lemma PromiseStep()
    ensures Step(SoldFour(Cancelled), ReserveSell("g", "G", "A", KRW, 6.0)).0 == ClosedThenPromised()
  {
    SixLeft();
  }

  lemma PromiseTheRestRun()
    ensures Reaches(PromiseTheRest(), ClosedThenPromised())
  {
    SellFourRun();
    CloseStep();
    PromiseStep();
    Reach(SellFourOfTen(), SoldFour(PartiallyFilled), MarkTerminal("e", Cancelled), SoldFour(Cancelled));
    Reach(SellFourOfTen() + [MarkTerminal("e", Cancelled)], SoldFour(Cancelled),
          ReserveSell("g", "G", "A", KRW, 6.0), ClosedThenPromised());
  }

  lemma LateFeeFits()
    ensures LateSnapshot(ClosedThenPromised(), LateFee())
    ensures var o := ClosedThenPromised().orders[LateFee().clientOrderId];
            o == Order("E", "A", Sell, KRW, 10.0, Cancelled)
  {}

  /** A guarded run from a fresh sleeve after which a late fee is enough to promise more than was bought. */
  lemma LateFeeCanOversell()
    ensures Guarded(SellGuard, Ten(), PromiseTheRest()) && Guarded(CapGuard, Ten(), PromiseTheRest())
    ensures var s := Run(Ten(), PromiseTheRest());
            && NotOversold(s) && LateSnapshot(s, LateFee())
            && Margin(Step(s, ApplyFill(LateFee())).0, "A") == -6.0
  {
    PromiseTheRestRun();
    FreshNotOversold(10.0, KRW, "");
    NoOversell(Ten(), PromiseTheRest());
    LateFeeFromThere();
  }

  lemma LateFeeFromThere()
    requires NotOversold(ClosedThenPromised())
    ensures LateSnapshot(ClosedThenPromised(), LateFee())
    ensures Margin(Step(ClosedThenPromised(), ApplyFill(LateFee())).0, "A") == -6.0
  {
    ClosedMargin();
    LateFeeFits();
    LateSnapshotReopens(ClosedThenPromised(), LateFee());
  }

  // ---------------------------------------------------------------- a late fee on a sale and the cap

  /** The proceeds of the four that were sold, promised to a buy. */
  function PromiseProceeds(): seq<Op> { SellFourOfTen() + [Reserve("h", 4.0, KRW)] }

  function ProceedsPromised(): State {
    SoldFour(PartiallyFilled).(reserved := map["h" := Reservation(KRW, 4.0)])
  }

  lemma FourToSpend()
    ensures Available(SoldFour(PartiallyFilled), KRW) == 4.0
  {
    var none: map<string, Fill> := map[];
    var buy, sale := SampleFill("B", "b", Buy, 10.0, 0.0), SampleFill("E", "e", Sell, 4.0, 0.0);
    TotalUpdate(none, "B", buy, UnsettledWeight(KRW, ""));
    assert none["B" := buy] == Bought().snapshots;
    TotalUpdate(Bought().snapshots, "E", sale, UnsettledWeight(KRW, ""));
  }

  lemma NoBuyFees(s: State, c: Currency)
    requires forall k | k in s.snapshots :: s.snapshots[k].Fees() == 0.0
    ensures BuyFees(s, c) == 0.0
  {
    var none: map<string, Fill> := map[];
    TotalNonnegative(s.snapshots, FeesWeight(c));
    TotalMonotone(s.snapshots, FeesWeight(c), none, FeesWeight(c));
  }

  lemma NothingToSpend()
    ensures Step(SoldFour(PartiallyFilled), Reserve("h", 4.0, KRW)).0 == ProceedsPromised()
    ensures Available(ProceedsPromised(), KRW) == 0.0
  {
    FourToSpend();
    var none: map<string, Reservation> := map[];
    TotalUpdate(none, "h", Reservation(KRW, 4.0), ReservedWeight(KRW));
  }

  lemma FeeTakenBack()
    ensures var t := Step(ProceedsPromised(), ApplyFill(LateFee())).0;
            Available(t, KRW) == -0.5 && BuyFees(t, KRW) == 0.0
  {
    NothingToSpend();
    SaleExactly(ProceedsPromised(), LateFee());
    NoBuyFees(ProceedsPromised(), KRW);
  }

  /** A guarded run from a fresh sleeve after which one late fee on a sale leaves the cap behind. */
  lemma LateSaleFeeBreaksCap()
    ensures Guarded(SellGuard, Ten(), PromiseProceeds()) && Guarded(CapGuard, Ten(), PromiseProceeds())
    ensures var s := Run(Ten(), PromiseProceeds());
            var t := Step(s, ApplyFill(LateFee())).0;
            WithinCap(s) && Available(t, KRW) + BuyFees(t, KRW) == -0.5
  {
    SellFourRun();
    NothingToSpend();
    Reach(SellFourOfTen(), SoldFour(PartiallyFilled), Reserve("h", 4.0, KRW), ProceedsPromised());
    FreshWithinCap(10.0, KRW, "");
    HardCap(Ten(), PromiseProceeds());
    FeeTakenBack();
  }
}
