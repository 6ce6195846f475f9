/** Where the cash of a sleeve goes over whole runs: conservation, T+2 settlement and the hard cap. */
module CashTheorems {
  import opened SleeveTypes
  import opened MapSums
  import opened LedgerSpec

  // ---------------------------------------------------------------- conservation

  function SignedWeight(c: Currency): Fill -> real {
    (f: Fill) => if f.currency == c then SignedCash(f) else 0.0
  }

  /** The external money recorded in one currency. */
  function FlowOf(op: Op, c: Currency): real {
    if op.Cashflow? && op.currency == c then op.amount else 0.0
  }

  function FlowTotal(ops: seq<Op>, c: Currency): real {
    if ops == [] then 0.0 else FlowTotal(ops[..|ops| - 1], c) + FlowOf(ops[|ops| - 1], c)
  }

  /** An applied snapshot moved its order to another currency. */
  ghost predicate ChangesCurrency(s: State, op: Op) {
    && op.ApplyFill?
    && op.fill.orderId in s.snapshots
    && FillProgress(Some(s.snapshots[op.fill.orderId]), op.fill).Apply?
    && s.snapshots[op.fill.orderId].currency != op.fill.currency
  }

  /** Cash booked in one bucket that belongs to the other, because a step changed an order's currency. */
  ghost function DriftOf(s: State, op: Op, c: Currency): real {
    if !ChangesCurrency(s, op) then 0.0
    else
      var prev := s.snapshots[op.fill.orderId];
      if prev.currency == c then SignedCash(prev) else -SignedCash(prev)
  }

  ghost function DriftTotal(s: State, ops: seq<Op>, c: Currency): real {
    if ops == [] then 0.0
    else DriftTotal(s, ops[..|ops| - 1], c) + DriftOf(Run(s, ops[..|ops| - 1]), ops[|ops| - 1], c)
  }

  /** Cash that the latest snapshots do not explain. */
  ghost function Unexplained(s: State, c: Currency): real {
    VirtualCash(s, c) - Total(s.snapshots, SignedWeight(c))
  }

  lemma FillUnexplained(s: State, f: Fill, c: Currency)
    requires FillProgress(Lookup(s.snapshots, f.orderId), f).Apply?
    ensures Unexplained(Settle(s, f), c) == Unexplained(s, c) + DriftOf(s, ApplyFill(f), c)
  {
    TotalUpdate(s.snapshots, f.orderId, f, SignedWeight(c));
    assert VirtualCash(Settle(s, f), c) == VirtualCash(s, c)
             + (if c == f.currency then DeltaCash(Lookup(s.snapshots, f.orderId), f) else 0.0);
  }

  lemma OtherStepsKeepBooks(s: State, op: Op)
    requires !op.ApplyFill? && !op.Cashflow?
    ensures Step(s, op).0.cash == s.cash && Step(s, op).0.snapshots == s.snapshots
  {}

  lemma StepUnexplained(s: State, op: Op, c: Currency)
    ensures Unexplained(Step(s, op).0, c) == Unexplained(s, c) + FlowOf(op, c) + DriftOf(s, op, c)
  {
    match op
    case ApplyFill(f) =>
      if FillProgress(Lookup(s.snapshots, f.orderId), f).Apply? {
        FillUnexplained(s, f, c);
      }
    case Cashflow(amount, cur) =>
      assert VirtualCash(Step(s, op).0, c) == VirtualCash(s, c) + FlowOf(op, c);
    case _ => OtherStepsKeepBooks(s, op);
  }

  /** After any run, cash is what was there, plus the cashflows, plus every latest snapshot, plus the drift. */
  lemma {:induction false} CashLaw(s: State, ops: seq<Op>, c: Currency)
    ensures Unexplained(Run(s, ops), c) == Unexplained(s, c) + FlowTotal(ops, c) + DriftTotal(s, ops, c)
  {
    if ops != [] {
      CashLaw(s, ops[..|ops| - 1], c);
      StepUnexplained(Run(s, ops[..|ops| - 1]), ops[|ops| - 1], c);
    }
  }

  ghost predicate KeepsCurrency(s: State, op: Op) { !ChangesCurrency(s, op) }

  lemma {:induction false} NoDrift(s: State, ops: seq<Op>, c: Currency)
    requires Guarded(KeepsCurrency, s, ops)
    ensures DriftTotal(s, ops, c) == 0.0
  {
    if ops != [] {
      NoDrift(s, ops[..|ops| - 1], c);
    }
  }

  function OpeningOf(capital: real, base: Currency, c: Currency): real { if c == base then capital else 0.0 }

  /** Virtual cash is the opening amount, all cashflows, and the cash effect of each order's latest snapshot. */
  lemma CashConservation(capital: real, base: Currency, today: string, ops: seq<Op>, c: Currency)
    requires Guarded(KeepsCurrency, Fresh(capital, base, today), ops)
    ensures var s := Run(Fresh(capital, base, today), ops);
            VirtualCash(s, c) == OpeningOf(capital, base, c) + FlowTotal(ops, c) + Total(s.snapshots, SignedWeight(c))
  {
    CashLaw(Fresh(capital, base, today), ops, c);
    NoDrift(Fresh(capital, base, today), ops, c);
  }

  /** One step books cash in the right bucket exactly when it keeps the currency or the old effect was nil. */
  lemma DriftExactly(s: State, op: Op, c: Currency)
    ensures Unexplained(Step(s, op).0, c) == Unexplained(s, c) + FlowOf(op, c)
            <==> (ChangesCurrency(s, op) ==> SignedCash(s.snapshots[op.fill.orderId]) == 0.0)
  {
    StepUnexplained(s, op, c);
  }

  // An order polled first under a defaulted currency, then under its own.
  function DefaultedPoll(): Fill { RawFill("E1", "c1", "AAPL", Buy, KRW, 1.0, 100.0, 0.0, 0.0, "", "") }

  function CorrectedPoll(): Fill { RawFill("E1", "c1", "AAPL", Buy, USD, 2.0, 100.0, 0.0, 0.0, "", "") }

  /** Drift can happen: no order is left in the first currency, and its cash is still gone. */
  lemma DriftHappens()
    ensures var s := Run(Fresh(1000.0, KRW, ""), [ApplyFill(DefaultedPoll()), ApplyFill(CorrectedPoll())]);
            && s.snapshots == map["E1" := CorrectedPoll()]
            && VirtualCash(s, KRW) == 900.0
            && VirtualCash(s, USD) == -100.0 && SignedCash(CorrectedPoll()) == -200.0
  {
    var start := Fresh(1000.0, KRW, "");
    RunAppend(start, [], ApplyFill(DefaultedPoll()));
    RunAppend(start, [ApplyFill(DefaultedPoll())], ApplyFill(CorrectedPoll()));
    assert [] + [ApplyFill(DefaultedPoll())] == [ApplyFill(DefaultedPoll())];
    assert [ApplyFill(DefaultedPoll())] + [ApplyFill(CorrectedPoll())]
        == [ApplyFill(DefaultedPoll()), ApplyFill(CorrectedPoll())];
    assert SignedCash(DefaultedPoll()) == -100.0 && SignedCash(CorrectedPoll()) == -200.0;
    assert Run(start, [ApplyFill(DefaultedPoll())]) == Settle(start, DefaultedPoll());
  }

  // ---------------------------------------------------------------- T+2

  /** Cost of a buy with its fees. */
  function BuyCostWeight(c: Currency): Fill -> real {
    (f: Fill) => if f.currency == c && f.side.Buy? then f.CostBasis() + f.Fees() else 0.0
  }

  /** Proceeds of a sale that has settled. */
  function SettledWeight(c: Currency, today: string): Fill -> real {
    (f: Fill) => if f.currency == c && f.side.Sell? && !Unsettled(f, today) then f.NetProceeds() else 0.0
  }

  lemma {:induction false} SplitSigned(m: map<string, Fill>, c: Currency, today: string)
    ensures Total(m, SignedWeight(c))
            == Total(m, SettledWeight(c, today)) + Total(m, UnsettledWeight(c, today)) - Total(m, BuyCostWeight(c))
    decreases m.Keys
  {
    if m != map[] {
      var k :| k in m;
      TotalRemove(m, k, SignedWeight(c));
      TotalRemove(m, k, SettledWeight(c, today));
      TotalRemove(m, k, UnsettledWeight(c, today));
      TotalRemove(m, k, BuyCostWeight(c));
      SplitSigned(m - {k}, c, today);
    }
  }

  /** What can be spent on any date: nothing of a sale before it settles. */
  lemma SettlementIdentity(capital: real, base: Currency, today: string, ops: seq<Op>, c: Currency)
    requires Guarded(KeepsCurrency, Fresh(capital, base, today), ops)
    ensures var s := Run(Fresh(capital, base, today), ops);
            Available(s, c) ==
              OpeningOf(capital, base, c) + FlowTotal(ops, c)
              - Total(s.snapshots, BuyCostWeight(c))
              + Total(s.snapshots, SettledWeight(c, s.today))
              - ReservedTotal(s, c)
  {
    CashConservation(capital, base, today, ops, c);
    var s := Run(Fresh(capital, base, today), ops);
    SplitSigned(s.snapshots, c, s.today);
  }

  predicate NotBefore(later: string, earlier: string) { later == earlier || Before(earlier, later) }

  lemma StaysSettled(f: Fill, today: string, later: string)
    requires NotBefore(later, today) && !Unsettled(f, today)
    ensures !Unsettled(f, later)
  {
    if Unsettled(f, later) && today != later {
      BeforeTransitive(today, later, f.settlementDate);
    }
  }

  /** Proceeds that settle when the clock moves from one date to another. */
  function JustSettledWeight(c: Currency, today: string, later: string): Fill -> real {
    (f: Fill) => if f.currency == c && Unsettled(f, today) && !Unsettled(f, later) then f.NetProceeds() else 0.0
  }

  /** Moving the clock forward adds exactly the proceeds that have just settled. */
  lemma ClockReleasesSettled(s: State, later: string, c: Currency)
    requires NotBefore(later, s.today)
    ensures Available(Step(s, SetToday(later)).0, c)
            == Available(s, c) + Total(s.snapshots, JustSettledWeight(c, s.today, later))
  {
    forall k | k in s.snapshots
      ensures UnsettledWeight(c, s.today)(s.snapshots[k])
              == UnsettledWeight(c, later)(s.snapshots[k]) + JustSettledWeight(c, s.today, later)(s.snapshots[k])
    {
      if !Unsettled(s.snapshots[k], s.today) {
        StaysSettled(s.snapshots[k], s.today, later);
      }
    }
    TotalPlus(s.snapshots, UnsettledWeight(c, later), JustSettledWeight(c, s.today, later),
              UnsettledWeight(c, s.today));
  }

  /** A sale that is and was unsettled does not change what can be spent. */
  lemma UnsettledSaleIsInvisible(s: State, f: Fill, c: Currency)
    requires Unsettled(f, s.today)
    requires f.orderId in s.snapshots ==>
               s.snapshots[f.orderId].currency == f.currency && Unsettled(s.snapshots[f.orderId], s.today)
    ensures Available(Step(s, ApplyFill(f)).0, c) == Available(s, c)
  {
    TotalUpdate(s.snapshots, f.orderId, f, UnsettledWeight(c, s.today));
  }

  /** What a sale brings in, in its own columns. */
  function Proceeds(f: Fill): real { f.avgPrice * f.filledQuantity - f.commission - f.tax }

  /**
   * The date rule. A stored sale whose settlement date lies after today keeps its proceeds out of
   * what can be spent; any other snapshot leaves what can be spent to the cash.
   */
  lemma SaleCountsFromItsDate(s: State, orderId: string, c: Currency)
    requires orderId in s.snapshots
    ensures var f, without := s.snapshots[orderId], s.(snapshots := s.snapshots - {orderId});
            Available(s, c) == Available(without, c)
              - (if f.side.Sell? && f.currency == c && Before(s.today, f.settlementDate) then Proceeds(f) else 0.0)
  {
    TotalRemove(s.snapshots, orderId, UnsettledWeight(c, s.today));
    UnsettledByDate(s.snapshots[orderId], s.today);
  }

  lemma UnsettledByDate(f: Fill, today: string)
    ensures Unsettled(f, today) <==> f.side.Sell? && Before(today, f.settlementDate)
    ensures f.NetProceeds() == Proceeds(f)
  {}

  /** When no sale has a settlement date after today, all cash that is not reserved can be spent. */
  lemma AllSettled(s: State, c: Currency)
    requires forall k | k in s.snapshots && s.snapshots[k].side.Sell? && s.snapshots[k].currency == c ::
               !Before(s.today, s.snapshots[k].settlementDate)
    ensures Available(s, c) == VirtualCash(s, c) - ReservedTotal(s, c)
  {
    var none: map<string, Fill> := map[];
    TotalMonotone(s.snapshots, UnsettledWeight(c, s.today), none, UnsettledWeight(c, s.today));
    TotalMonotone(none, UnsettledWeight(c, s.today), s.snapshots, UnsettledWeight(c, s.today));
  }

  /** A new buy costs its price times quantity and its fees at once, a new sale brings its proceeds in. */
  lemma NewFillMovesCash(s: State, f: Fill)
    requires f.orderId !in s.snapshots
    ensures var t := Step(s, ApplyFill(f)).0;
            && VirtualCash(t, f.currency) == VirtualCash(s, f.currency)
                 + (if f.side.Buy? then -(f.avgPrice * f.filledQuantity + f.commission + f.tax) else Proceeds(f))
            && (forall c | c != f.currency :: VirtualCash(t, c) == VirtualCash(s, c))
  {}

  /** When a reservation is granted, and what it leaves to spend in every currency. */
  lemma ReserveRule(s: State, coid: string, amount: real, c: Currency)
    ensures var t, reply := Step(s, Reserve(coid, amount, c)).0, Step(s, Reserve(coid, amount, c)).1;
            && (reply == ValueError <==> coid == "" || amount < 0.0)
            && (reply == Answer(true) <==>
                  coid != "" && 0.0 <= amount <= Available(s, c) + HeldIn(s.reserved, coid, c))
            && (reply != Answer(true) ==> t == s)
            && (reply == Answer(true) ==>
                  && Lookup(t.reserved, coid) == Some(Reservation(c, amount))
                  && (forall d: Currency ::
                        Available(t, d)
                        == Available(s, d) + HeldIn(s.reserved, coid, d) - if d == c then amount else 0.0))
  {
    forall d: Currency
      ensures Total(s.reserved[coid := Reservation(c, amount)], ReservedWeight(d))
              == ReservedTotal(s, d) - HeldIn(s.reserved, coid, d) + if d == c then amount else 0.0
    {
      TotalUpdate(s.reserved, coid, Reservation(c, amount), ReservedWeight(d));
    }
  }

  /** A release gives back exactly what was held, and a terminal mark does the same. */
  lemma ReleaseRule(s: State, coid: string, status: OrderStatus, c: Currency)
    ensures Available(Step(s, Release(coid)).0, c) == Available(s, c) + HeldIn(s.reserved, coid, c)
    ensures Available(Step(s, MarkTerminal(coid, status)).0, c) == Available(s, c) + HeldIn(s.reserved, coid, c)
  {
    TotalDelete(s.reserved, coid, ReservedWeight(c));
  }

  // ---------------------------------------------------------------- the hard cap

  function FeesWeight(c: Currency): Fill -> real {
    (f: Fill) => if f.currency == c && f.side.Buy? then f.Fees() else 0.0
  }

  ghost function BuyFees(s: State, c: Currency): real { Total(s.snapshots, FeesWeight(c)) }

  /** A buy snapshot adds no more notional than its own reservation still holds. */
  ghost predicate CoveredBuy(s: State, f: Fill) {
    && f.side.Buy?
    && (f.clientOrderId in s.reserved ==> s.reserved[f.clientOrderId].currency == f.currency)
    && DeltaNotional(Lookup(s.snapshots, f.orderId), f) <= HeldIn(s.reserved, f.clientOrderId, f.currency)
  }

  /** A sale's proceeds are not negative, do not shrink, and do not become unsettled again. */
  ghost predicate GrowingSale(s: State, f: Fill) {
    && f.side.Sell?
    && 0.0 <= f.NetProceeds()
    && (f.orderId in s.snapshots ==>
          var prev := s.snapshots[f.orderId];
          prev.NetProceeds() <= f.NetProceeds() && (Unsettled(prev, s.today) || !Unsettled(f, s.today)))
  }

  /** What the exchange and the caller are trusted for, step by step. */
  ghost predicate CapGuard(s: State, op: Op) {
    match op
    case ApplyFill(f) =>
      FillProgress(Lookup(s.snapshots, f.orderId), f).Apply? ==>
        && (f.orderId in s.snapshots ==>
              s.snapshots[f.orderId].currency == f.currency && s.snapshots[f.orderId].side == f.side)
        && (CoveredBuy(s, f) || GrowingSale(s, f))
    case Cashflow(amount, c) => 0.0 <= amount || -amount <= Available(s, c)
    case SetToday(later) => NotBefore(later, s.today)
    case _ => true
  }

  ghost predicate WithinCap(s: State) {
    && (forall c: Currency :: 0.0 <= Available(s, c) + BuyFees(s, c))
    && NothingOwedBack(s.reserved)
    && (forall k | k in s.snapshots :: s.snapshots[k].side.Sell? ==> 0.0 <= s.snapshots[k].NetProceeds())
  }

  lemma ReservedDelete(s: State, coid: string, c: Currency)
    ensures Total(s.reserved - {coid}, ReservedWeight(c)) == ReservedTotal(s, c) - HeldIn(s.reserved, coid, c)
  {
    TotalDelete(s.reserved, coid, ReservedWeight(c));
  }

  lemma ReserveKeepsCap(s: State, coid: string, amount: real, cur: Currency, c: Currency)
    requires WithinCap(s)
    ensures var t := StepReserve(s, coid, amount, cur).0; 0.0 <= Available(t, c) + BuyFees(t, c)
  {
    var t := StepReserve(s, coid, amount, cur).0;
    TotalUpdate(s.reserved, coid, Reservation(cur, amount), ReservedWeight(c));
    assert WeightAt(s.reserved, coid, ReservedWeight(c)) == HeldIn(s.reserved, coid, c);
    TotalNonnegative(s.snapshots, FeesWeight(c));
    if t != s {
      assert Available(t, c) == Available(s, c) + HeldIn(s.reserved, coid, c) - (if cur == c then amount else 0.0);
      assert BuyFees(t, c) == BuyFees(s, c);
    }
  }

  /**
   * What a covered buy frees beyond the notional it books: the rest of the reservation when it
   * completes the order, and nothing while the order is open. All of it is known before the call.
   */
  function Surplus(s: State, f: Fill): real {
    var delta := DeltaNotional(Lookup(s.snapshots, f.orderId), f);
    if f.clientOrderId !in s.reserved then -delta
    else if Complete(RecordedQty(s.orders, f.clientOrderId), f.filledQuantity)
    then s.reserved[f.clientOrderId].amount - delta
    else 0.0
  }

  function DeltaFees(prev: Option<Fill>, f: Fill): real {
    f.Fees() - (if prev.Some? then prev.value.Fees() else 0.0)
  }

  lemma FillReserved(s: State, f: Fill, c: Currency)
    requires CoveredBuy(s, f)
    ensures ReservedTotal(Settle(s, f), c) == ReservedTotal(s, c)
              - (if c == f.currency then Surplus(s, f) + DeltaNotional(Lookup(s.snapshots, f.orderId), f) else 0.0)
    ensures 0.0 <= Surplus(s, f)
  {
    ReservedDelete(s, f.clientOrderId, c);
    if f.clientOrderId in s.reserved && f.clientOrderId in Settle(s, f).reserved {
      TotalUpdate(s.reserved, f.clientOrderId, Settle(s, f).reserved[f.clientOrderId], ReservedWeight(c));
    }
  }

  /**
   * A covered buy changes what can be spent by its surplus minus its fees, so the plain cap
   * survives it exactly when the fees fit.
   */
  lemma CoveredBuyExactly(s: State, f: Fill)
    requires CoveredBuy(s, f) && FillProgress(Lookup(s.snapshots, f.orderId), f).Apply?
    requires f.orderId in s.snapshots ==>
               s.snapshots[f.orderId].currency == f.currency && s.snapshots[f.orderId].side == f.side
    ensures var t := Step(s, ApplyFill(f)).0;
            var fees := DeltaFees(Lookup(s.snapshots, f.orderId), f);
            && 0.0 <= Surplus(s, f)
            && Available(t, f.currency) == Available(s, f.currency) + Surplus(s, f) - fees
            && BuyFees(t, f.currency) == BuyFees(s, f.currency) + fees
            && (0.0 <= Available(t, f.currency) <==> fees <= Available(s, f.currency) + Surplus(s, f))
            && (forall c | c != f.currency :: Available(t, c) == Available(s, c) && BuyFees(t, c) == BuyFees(s, c))
  {
    forall c: Currency
      ensures SettlementPending(Settle(s, f), c) == SettlementPending(s, c)
      ensures BuyFees(Settle(s, f), c)
              == BuyFees(s, c) + (if c == f.currency then DeltaFees(Lookup(s.snapshots, f.orderId), f) else 0.0)
    {
      TotalUpdate(s.snapshots, f.orderId, f, UnsettledWeight(c, s.today));
      TotalUpdate(s.snapshots, f.orderId, f, FeesWeight(c));
    }
    forall c: Currency ensures c != f.currency ==> ReservedTotal(Settle(s, f), c) == ReservedTotal(s, c) {
      FillReserved(s, f, c);
    }
    FillReserved(s, f, f.currency);
  }

  /** What a sale adds to the money that can be spent: its net proceeds, once it has settled. */
  function SettledPart(f: Option<Fill>, today: string): real {
    if f.Some? && !Unsettled(f.value, today) then f.value.NetProceeds() else 0.0
  }

  /**
   * An applied sale changes what can be spent by its settled part after, less its settled part
   * before, so the cap survives it exactly when what it takes back is there; no buy fees and no
   * other currency are touched.
   */
  lemma SaleExactly(s: State, f: Fill)
    requires f.side.Sell? && FillProgress(Lookup(s.snapshots, f.orderId), f).Apply?
    requires f.orderId in s.snapshots ==>
               s.snapshots[f.orderId].currency == f.currency && s.snapshots[f.orderId].side == f.side
    ensures var t := Step(s, ApplyFill(f)).0;
            var before, after := SettledPart(Lookup(s.snapshots, f.orderId), s.today), SettledPart(Some(f), s.today);
            && Available(t, f.currency) == Available(s, f.currency) + after - before
            && (forall c :: BuyFees(t, c) == BuyFees(s, c))
            && (forall c | c != f.currency :: Available(t, c) == Available(s, c))
            && (0.0 <= Available(t, f.currency) + BuyFees(t, f.currency)
                <==> before - after <= Available(s, f.currency) + BuyFees(s, f.currency))
  {
    var t := Settle(s, f);
    assert t.reserved == s.reserved;
    forall c: Currency
      ensures BuyFees(t, c) == BuyFees(s, c)
      ensures Available(t, c) == Available(s, c)
                + if c == f.currency
                  then SettledPart(Some(f), s.today) - SettledPart(Lookup(s.snapshots, f.orderId), s.today) else 0.0
    {
      TotalUpdate(s.snapshots, f.orderId, f, UnsettledWeight(c, s.today));
      TotalUpdate(s.snapshots, f.orderId, f, FeesWeight(c));
      assert VirtualCash(t, c) - VirtualCash(s, c)
             == if c == f.currency then DeltaCash(Lookup(s.snapshots, f.orderId), f) else 0.0;
    }
  }

  lemma SaleKeepsCap(s: State, f: Fill, c: Currency)
    requires WithinCap(s) && CapGuard(s, ApplyFill(f)) && f.side.Sell?
    ensures var t := Step(s, ApplyFill(f)).0; 0.0 <= Available(t, c) + BuyFees(t, c)
  {
    assert 0.0 <= Available(s, c) + BuyFees(s, c);
    if FillProgress(Lookup(s.snapshots, f.orderId), f).Apply? {
      SaleExactly(s, f);
    }
  }

  lemma ReleaseKeepsCap(s: State, coid: string, t: State, c: Currency)
    requires WithinCap(s)
    requires t.cash == s.cash && t.snapshots == s.snapshots && t.today == s.today
    requires t.reserved == s.reserved - {coid}
    ensures 0.0 <= Available(t, c) + BuyFees(t, c)
  {
    ReservedDelete(s, coid, c);
    assert 0.0 <= Available(s, c) + BuyFees(s, c);
  }

  lemma CashflowKeepsCap(s: State, op: Op, c: Currency)
    requires WithinCap(s) && op.Cashflow? && CapGuard(s, op)
    ensures var t := Step(s, op).0; 0.0 <= Available(t, c) + BuyFees(t, c)
  {
    var t := Step(s, op).0;
    TotalNonnegative(s.snapshots, FeesWeight(c));
    assert VirtualCash(t, c) == VirtualCash(s, c) + (if c == op.currency then op.amount else 0.0);
    assert BuyFees(t, c) == BuyFees(s, c);
  }

  lemma FillKeepsCap(s: State, f: Fill, c: Currency)
    requires WithinCap(s) && CapGuard(s, ApplyFill(f))
    ensures var t := Step(s, ApplyFill(f)).0; 0.0 <= Available(t, c) + BuyFees(t, c)
  {
    if FillProgress(Lookup(s.snapshots, f.orderId), f).Apply? {
      if f.side.Buy? {
        CoveredBuyExactly(s, f);
      } else {
        SaleKeepsCap(s, f, c);
      }
    }
  }

  lemma ClockKeepsCap(s: State, later: string, c: Currency)
    requires WithinCap(s) && NotBefore(later, s.today)
    ensures var t := Step(s, SetToday(later)).0; 0.0 <= Available(t, c) + BuyFees(t, c)
  {
    ClockReleasesSettled(s, later, c);
    TotalNonnegative(s.snapshots, JustSettledWeight(c, s.today, later));
  }

  ghost predicate NothingOwedBack(reserved: map<string, Reservation>) {
    forall k | k in reserved :: 0.0 <= reserved[k].amount
  }

  /** No call whatsoever makes a reservation negative. */
  lemma ReservedStayNonnegative(s: State, op: Op)
    requires NothingOwedBack(s.reserved)
    ensures NothingOwedBack(Step(s, op).0.reserved)
  {}

  lemma StepKeepsSigns(s: State, op: Op)
    requires WithinCap(s) && CapGuard(s, op)
    ensures var t := Step(s, op).0;
            && NothingOwedBack(t.reserved)
            && (forall k | k in t.snapshots :: t.snapshots[k].side.Sell? ==> 0.0 <= t.snapshots[k].NetProceeds())
  {}

  lemma StepKeepsCap(s: State, op: Op)
    requires WithinCap(s) && CapGuard(s, op)
    ensures WithinCap(Step(s, op).0)
  {
    var t := Step(s, op).0;
    StepKeepsSigns(s, op);
    forall c: Currency ensures 0.0 <= Available(t, c) + BuyFees(t, c) {
      match op
      case Reserve(coid, amount, cur) => ReserveKeepsCap(s, coid, amount, cur, c);
      case Release(coid) => ReleaseKeepsCap(s, coid, t, c);
      case MarkTerminal(coid, _) => ReleaseKeepsCap(s, coid, t, c);
      case ApplyFill(f) => FillKeepsCap(s, f, c);
      case SetToday(later) => ClockKeepsCap(s, later, c);
      case Cashflow(_, _) => CashflowKeepsCap(s, op, c);
      case _ => assert Available(t, c) == Available(s, c);
    }
  }

  /** In every reachable state a sleeve has spent or promised at most its own money, fees of buys apart. */
  lemma {:induction false} HardCap(s: State, ops: seq<Op>)
    requires WithinCap(s) && Guarded(CapGuard, s, ops)
    ensures WithinCap(Run(s, ops))
  {
    if ops != [] {
      HardCap(s, ops[..|ops| - 1]);
      StepKeepsCap(Run(s, ops[..|ops| - 1]), ops[|ops| - 1]);
    }
  }

  lemma FreshWithinCap(capital: real, base: Currency, today: string)
    requires 0.0 <= capital
    ensures WithinCap(Fresh(capital, base, today))
  {}

  function CostlyFill(): Fill { RawFill("E1", "c1", "005930", Buy, KRW, 1.0, 100.0, 1.0, 0.0, "", "") }

  /** All of a sleeve's hundred is reserved. */
  function AllReserved(): State {
    State(map[KRW := 100.0], map["c1" := Reservation(KRW, 100.0)], map[], map[], "")
  }

  lemma AllReservedIsReached()
    ensures Run(Fresh(100.0, KRW, ""), [Reserve("c1", 100.0, KRW)]) == AllReserved()
    ensures Guarded(CapGuard, Fresh(100.0, KRW, ""), [Reserve("c1", 100.0, KRW)])
    ensures Available(AllReserved(), KRW) == 0.0
  {
    var s, op := Fresh(100.0, KRW, ""), Reserve("c1", 100.0, KRW);
    assert [op][..0] == [];
    assert Step(s, op).0 == AllReserved();
    var none: map<string, Reservation> := map[];
    TotalUpdate(none, "c1", Reservation(KRW, 100.0), ReservedWeight(KRW));
  }

  /** Without the fees the cap can fail: a guarded run that ends below zero. */
  lemma PlainCapFails()
    ensures var ops := [Reserve("c1", 100.0, KRW), ApplyFill(CostlyFill())];
            && Guarded(CapGuard, Fresh(100.0, KRW, ""), ops)
            && Available(Run(Fresh(100.0, KRW, ""), ops), KRW) == -1.0
  {
    var ops := [Reserve("c1", 100.0, KRW), ApplyFill(CostlyFill())];
    AllReservedIsReached();
    assert ops[..1] == [Reserve("c1", 100.0, KRW)];
    assert CoveredBuy(AllReserved(), CostlyFill());
    CoveredBuyExactly(AllReserved(), CostlyFill());
    assert Surplus(AllReserved(), CostlyFill()) == 0.0;
  }
}
