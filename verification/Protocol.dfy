/**
 * The whole system: the ledger, an exchange that fills orders before they are polled, requests
 * in flight, answers that get lost, late and repeated polls. At every moment the ledger covers
 * what the exchange could still do.
 */
module Protocol {
  import opened SleeveTypes
  import opened MapSums
  import opened LedgerSpec
  import opened CashTheorems
  import opened SellTheorems
  import opened PollTheorems

  /** Where a request stands on the sleeve's side. */
  datatype Stage = Sending | Settled | Dropped | Closed

  /**
   * One order: what was asked, and the cumulative snapshots the exchange has made of it. A buy may
   * charge its budget: limit times quantity, or the amount of a market buy, whose quantity is not
   * known and recorded as zero.
   */
  datatype Request = Request(
    id: string, symbol: string, side: Side, currency: Currency, limit: real, quantity: real, budget: real,
    stage: Stage, accepted: bool, live: bool, trail: seq<Fill>)

  datatype Sys = Sys(ledger: State, requests: map<string, Request>)

  datatype Move =
    | HoldBuy(coid: string, symbol: string, currency: Currency, limit: real, quantity: real)
    | HoldAmount(coid: string, symbol: string, currency: Currency, amount: real)
    | HoldSell(coid: string, symbol: string, currency: Currency, quantity: real)
    | Accept(coid: string, id: string)     // the exchange takes the order
    | Execute(coid: string, fill: Fill)    // the exchange fills it further, or amends its fees or price
    | End(coid: string)                    // the exchange ends it
    | Bind(coid: string)                   // the 2xx answer arrives, or the order is found later
    | GiveUp(coid: string)                 // no conclusive answer arrives
    | Drop(coid: string)                   // it is known not to have been accepted
    | Poll(coid: string, index: nat)       // any snapshot so far is applied, old ones included
    | MarkClosed(coid: string, status: OrderStatus)
    | Other(op: Op)
  {
    predicate Hold() { HoldBuy? || HoldAmount? || HoldSell? }
  }

  // ---------------------------------------------------------------- the exchange

  /** A market buy by amount. */
  predicate ByAmount(r: Request) { r.side.Buy? && r.quantity == 0.0 }

  /** What a request that can be held looks like. */
  predicate WellAsked(r: Request) {
    if r.side.Sell? then r.quantity > 0.0
    else
      && r.budget > 0.0
      && (ByAmount(r) || (r.limit > 0.0 && r.quantity > 0.0 && r.budget == Notional(r.limit, r.quantity)))
  }

  /** A snapshot of a buy after which nothing stays held: the order is complete, or its amount is spent. */
  predicate Final(r: Request, f: Fill) {
    r.side.Buy? && if ByAmount(r) then f.CostBasis() == r.budget else f.filledQuantity == r.quantity
  }

  /**
   * A later cumulative snapshot: no less quantity, at any price. Only the cost of a final buy stays
   * as it is, since nothing is held for it any more.
   */
  predicate Follows(r: Request, f: Fill, g: Fill) {
    && f.filledQuantity <= g.filledQuantity
    && (Final(r, f) || (Final(r, g) && f.filledQuantity == g.filledQuantity) ==> f.CostBasis() == g.CostBasis())
  }

  /** A snapshot of this order, within its quantity and at or better than its limit, or within its amount. */
  predicate Belongs(coid: string, r: Request, f: Fill) {
    && f.orderId == r.id && f.clientOrderId == coid && f.symbol == r.symbol
    && f.side == r.side && f.currency == r.currency
    && if ByAmount(r) then f.CostBasis() <= r.budget
       else f.filledQuantity <= r.quantity
            && (r.side.Buy? ==> f.CostBasis() <= Notional(r.limit, f.filledQuantity))
  }

  function Last(r: Request): Option<Fill> { if r.trail == [] then None else Some(r.trail[|r.trail| - 1]) }

  function QtyOf(f: Option<Fill>): real { if f.Some? then f.value.filledQuantity else 0.0 }

  /** The snapshot of an order that the ledger has applied last. */
  function Applied(s: State, r: Request): Option<Fill> { if r.id == "" then None else Lookup(s.snapshots, r.id) }

  /** The ledger has applied what the exchange has done: the last quantity and, of a buy, the last cost. */
  predicate CaughtUp(s: State, r: Request) {
    && QtyOf(Applied(s, r)) == QtyOf(Last(r))
    && (r.side.Buy? ==> CostOf(Applied(s, r)) == CostOf(Last(r)))
  }

  // ---------------------------------------------------------------- moves

  /** A client order id that can be used: new, or one whose last request, of the same side, was not accepted. */
  ghost predicate Usable(y: Sys, coid: string, side: Side) {
    && coid != ""
    && if coid in y.requests then y.requests[coid].stage.Dropped? && y.requests[coid].side == side
       else FreshId(y.ledger, coid)
  }

  ghost predicate Enabled(y: Sys, m: Move) {
    match m
    case HoldBuy(coid, _, _, limit, quantity) => Usable(y, coid, Buy) && limit > 0.0 && quantity > 0.0
    case HoldAmount(coid, _, _, amount) => Usable(y, coid, Buy) && amount > 0.0
    case HoldSell(coid, _, _, quantity) => Usable(y, coid, Sell) && quantity > 0.0
    case Other(op) => op.Cashflow? || op.SetToday?
    case _ => m.coid in y.requests && EnabledFor(y, m, y.requests[m.coid])
  }

  predicate InFlight(r: Request) { r.stage.Sending? || r.stage.Settled? }

  /** When a move on a known request can happen. */
  ghost predicate EnabledFor(y: Sys, m: Move, r: Request) {
    match m
    case Accept(_, id) =>
      InFlight(r) && !r.accepted
      && id != "" && id !in y.ledger.snapshots && forall k | k in y.requests :: y.requests[k].id != id
    case Execute(coid, f) =>
      r.accepted && Belongs(coid, r, f)
      && (r.trail != [] ==> Follows(r, Last(r).value, f))
      && (r.side.Buy? && r.stage.Closed? ==> f.CostBasis() == CostOf(Last(r)))
      && (QtyOf(Last(r)) < f.filledQuantity ==> r.live)
    case End(_) => r.accepted
    case Bind(_) => r.accepted
    case GiveUp(_) => r.stage.Sending? || r.stage.Closed?
    case Drop(_) => InFlight(r) && !r.accepted
    case Poll(coid, i) =>
      i < |r.trail| && (r.side.Buy? && r.stage.Closed? ==> AddsNoCost(y.ledger, r, r.trail[i]))
    case MarkClosed(_, status) => r.accepted && !r.live && !status.Open() && CaughtUp(y.ledger, r)
    case _ => false
  }

  /** What may still be polled of a closed buy, for which nothing is held. */
  predicate AddsNoCost(s: State, r: Request, f: Fill) {
    FillProgress(Applied(s, r), f).Apply? ==> f.CostBasis() == CostOf(Applied(s, r))
  }

  /** The ledger call a move makes, if it makes one. */
  ghost function CallOf(y: Sys, m: Move): Option<Op>
    requires Enabled(y, m)
  {
    match m
    case HoldBuy(coid, _, c, limit, quantity) => Some(Reserve(coid, Notional(limit, quantity), c))
    case HoldAmount(coid, _, c, amount) => Some(Reserve(coid, amount, c))
    case HoldSell(coid, symbol, c, quantity) => Some(ReserveSell(coid, "", symbol, c, quantity))
    case Bind(coid) =>
      var r := y.requests[coid];
      Some(RecordOrder(coid, r.id, r.symbol, r.side, r.currency, r.quantity))
    case Drop(coid) => Some(if y.requests[coid].side.Buy? then Release(coid) else MarkTerminal(coid, Rejected))
    case Poll(coid, i) => Some(ApplyFill(y.requests[coid].trail[i]))
    case MarkClosed(coid, status) => Some(MarkTerminal(coid, status))
    case Other(op) => Some(op)
    case _ => None
  }

  ghost function LedgerAfter(y: Sys, m: Move): State
    requires Enabled(y, m)
  {
    if CallOf(y, m).Some? then Step(y.ledger, CallOf(y, m).value).0 else y.ledger
  }

  /** What is asked by a move that holds. */
  function Asked(m: Move): Request
    requires m.Hold()
  {
    match m
    case HoldBuy(_, symbol, c, limit, quantity) =>
      Request("", symbol, Buy, c, limit, quantity, Notional(limit, quantity), Sending, false, false, [])
    case HoldAmount(_, symbol, c, amount) => Request("", symbol, Buy, c, 0.0, 0.0, amount, Sending, false, false, [])
    case HoldSell(_, symbol, c, quantity) =>
      Request("", symbol, Sell, c, 0.0, quantity, 0.0, Sending, false, false, [])
  }

  /** The sleeve has its answer, or has stopped waiting for one. */
  function Answered(r: Request): Request { if r.stage.Closed? then r else r.(stage := Settled) }

  ghost function RequestsAfter(y: Sys, m: Move): map<string, Request>
    requires Enabled(y, m)
  {
    if m.Hold() then
      if Step(y.ledger, CallOf(y, m).value).1 == Answer(true) then y.requests[m.coid := Asked(m)] else y.requests
    else
      match m
      case Accept(coid, id) => y.requests[coid := y.requests[coid].(id := id, accepted := true, live := true)]
      case Execute(coid, f) => y.requests[coid := y.requests[coid].(trail := y.requests[coid].trail + [f])]
      case End(coid) => y.requests[coid := y.requests[coid].(live := false)]
      case Bind(coid) => y.requests[coid := Answered(y.requests[coid])]
      case GiveUp(coid) => y.requests[coid := Answered(y.requests[coid])]
      case Drop(coid) => y.requests[coid := y.requests[coid].(stage := Dropped)]
      case MarkClosed(coid, _) => y.requests[coid := y.requests[coid].(stage := Closed)]
      case _ => y.requests
  }

  /** A move that is not enabled does not happen. */
  ghost function Next(y: Sys, m: Move): Sys {
    if Enabled(y, m) then Sys(LedgerAfter(y, m), RequestsAfter(y, m)) else y
  }

  ghost function Moves(y: Sys, moves: seq<Move>): Sys {
    if moves == [] then y else Next(Moves(y, moves[..|moves| - 1]), moves[|moves| - 1])
  }

  // ---------------------------------------------------------------- how the ledger tracks one order

  ghost predicate GoodTrail(coid: string, r: Request) {
    && (forall f | f in r.trail :: Belongs(coid, r, f))
    && (forall i, j | 0 <= i < j < |r.trail| :: Follows(r, r.trail[i], r.trail[j]))
  }

  ghost predicate TracksBuy(r: Request, held: Option<Reservation>, applied: Option<Fill>) {
    && (held.Some? ==> held.value.currency == r.currency && 0.0 <= held.value.amount)
    && (applied.None? || !Final(r, applied.value) ==>
          held == Some(Reservation(r.currency, r.budget - CostOf(applied))))
  }

  ghost predicate TracksSell(r: Request, row: Option<Order>, applied: Option<Fill>) {
    && row.Some? && (row.value.orderId == "" || row.value.orderId == r.id)
    && (QtyOf(applied) < r.quantity ==> row.value.status.Open())
  }

  /** What the ledger knows of an order is enough for what the exchange has made of it. */
  ghost predicate Tracks(
    coid: string, r: Request, held: Option<Reservation>, row: Option<Order>, applied: Option<Fill>)
  {
    && WellAsked(r) && GoodTrail(coid, r)
    && (applied.Some? ==> applied.value in r.trail)
    && (if r.accepted then r.id != "" && !r.stage.Dropped?
        else r.id == "" && r.trail == [] && !r.stage.Closed? && (r.side.Buy? ==> row.None?))
    && (row.Some? ==> row.value.side == r.side && row.value.quantity == r.quantity && row.value.symbol == r.symbol)
    && match r.stage
       case Dropped => held.None? && (row.Some? ==> row.value.orderId == "" && !row.value.status.Open())
       case Closed =>
         && !r.live && QtyOf(applied) == QtyOf(Last(r))
         && (r.side.Buy? ==> held.None? && CostOf(applied) == CostOf(Last(r)))
         && (r.side.Sell? ==> row.Some? && (row.value.orderId == "" || row.value.orderId == r.id))
       case _ => if r.side.Buy? then TracksBuy(r, held, applied) else TracksSell(r, row, applied)
  }

  ghost predicate Tracked(s: State, coid: string, r: Request) {
    Tracks(coid, r, Lookup(s.reserved, coid), Lookup(s.orders, coid), Applied(s, r))
  }

  ghost predicate AllTracked(y: Sys) {
    forall k | k in y.requests :: k != "" && Tracked(y.ledger, k, y.requests[k])
  }

  ghost predicate DistinctIds(requests: map<string, Request>) {
    forall j, k | j in requests && k in requests && j != k && requests[j].id != "" :: requests[j].id != requests[k].id
  }

  ghost predicate Sound(y: Sys) {
    && AllTracked(y)
    && DistinctIds(y.requests)
    && "" !in y.ledger.snapshots && WellKeyed(y.ledger.snapshots)
    && NothingOwedBack(y.ledger.reserved)
  }

  // ---------------------------------------------------------------- one trail

  lemma PriceTimes(limit: real, a: real, b: real)
    requires limit > 0.0 && a < b
    ensures Notional(limit, a) < Notional(limit, b)
    ensures Notional(limit, b) == Notional(limit, a) + Notional(limit, b - a)
    ensures Notional(limit, 0.0) == 0.0
  {
    assert limit * (b - a) == limit * b - limit * a;
  }

  lemma Latest(coid: string, r: Request, f: Fill)
    requires GoodTrail(coid, r) && f in r.trail
    ensures f.filledQuantity <= QtyOf(Last(r))
    ensures Final(r, f) ==> f.CostBasis() == CostOf(Last(r))
    ensures Final(r, Last(r).value) && f.filledQuantity == QtyOf(Last(r)) ==> f.CostBasis() == CostOf(Last(r))
  {
    var i :| 0 <= i < |r.trail| && r.trail[i] == f;
    if i < |r.trail| - 1 {
      assert Follows(r, r.trail[i], r.trail[|r.trail| - 1]);
    }
  }

  /** A final snapshot is followed by final ones. */
  lemma StaysFinal(coid: string, r: Request, f: Fill, g: Fill)
    requires Belongs(coid, r, f) && Belongs(coid, r, g) && Follows(r, f, g) && Final(r, f)
    ensures Final(r, g)
  {}

  /** What is polled over a final snapshot costs the same and is final. */
  lemma FinalCost(coid: string, r: Request, f: Fill, g: Fill)
    requires GoodTrail(coid, r) && f in r.trail && g in r.trail
    requires Final(r, f) && f.filledQuantity <= g.filledQuantity
    ensures f.CostBasis() == g.CostBasis() && Final(r, g)
  {
    var i :| 0 <= i < |r.trail| && r.trail[i] == f;
    var j :| 0 <= j < |r.trail| && r.trail[j] == g;
    assert Belongs(coid, r, f) && Belongs(coid, r, g);
    if i < j {
      assert Follows(r, r.trail[i], r.trail[j]);
    } else if j < i {
      assert Follows(r, r.trail[j], r.trail[i]);
    }
  }

  /** A buy never costs more than its budget, and less while it is not final. */
  lemma WithinBudget(coid: string, r: Request, f: Fill)
    requires Belongs(coid, r, f) && r.side.Buy? && WellAsked(r)
    ensures f.CostBasis() <= r.budget
    ensures !Final(r, f) ==> f.CostBasis() < r.budget
  {
    if !ByAmount(r) && f.filledQuantity < r.quantity {
      PriceTimes(r.limit, f.filledQuantity, r.quantity);
    }
  }

  lemma FollowsOn(coid: string, r: Request, f: Fill, g: Fill, h: Fill)
    requires Belongs(coid, r, f) && Belongs(coid, r, g) && Belongs(coid, r, h)
    requires Follows(r, f, g) && Follows(r, g, h)
    ensures Follows(r, f, h)
  {
    if Final(r, f) {
      StaysFinal(coid, r, f, g);
    }
    if Final(r, h) && f.filledQuantity == h.filledQuantity {
      assert Final(r, g);
    }
  }

  // ---------------------------------------------------------------- polls

  lemma PollTracksBuy(
    coid: string, r: Request, held: Option<Reservation>, row: Option<Order>, applied: Option<Fill>, f: Fill)
    requires Tracks(coid, r, held, row, applied) && r.side.Buy? && InFlight(r)
    requires f in r.trail
    ensures TracksBuy(r, HeldAfter(held, RowQty(row), applied, f), Keep(applied, f))
  {
    assert Belongs(coid, r, f);
    WithinBudget(coid, r, f);
    if FillProgress(applied, f).Apply? && applied.Some? && Final(r, applied.value) {
      FinalCost(coid, r, applied.value, f);
    }
  }

  /** A poll of a closed order adds no quantity. */
  lemma ClosedPollAddsNothing(
    coid: string, r: Request, held: Option<Reservation>, row: Option<Order>, applied: Option<Fill>, f: Fill)
    requires Tracks(coid, r, held, row, applied) && r.stage.Closed? && f in r.trail
    requires FillProgress(applied, f).Apply?
    ensures applied.Some? && DeltaQty(applied, f) == 0.0
    ensures f.filledQuantity == QtyOf(Last(r))
  {
    Latest(coid, r, f);
  }

  /** Everything a poll changes about one order. */
  lemma PollSeen(s: State, f: Fill)
    ensures var t := Step(s, ApplyFill(f)).0;
            var prev := Lookup(s.snapshots, f.orderId);
            && Lookup(t.snapshots, f.orderId) == Keep(prev, f)
            && (forall id | id != f.orderId :: Lookup(t.snapshots, id) == Lookup(s.snapshots, id))
            && (forall k | k != f.clientOrderId ::
                  Lookup(t.reserved, k) == Lookup(s.reserved, k) && Lookup(t.orders, k) == Lookup(s.orders, k))
            && (f.side.Buy? ==>
                  Lookup(t.reserved, f.clientOrderId)
                    == HeldAfter(Lookup(s.reserved, f.clientOrderId), RecordedQty(s.orders, f.clientOrderId), prev, f))
  {
    if f.side.Buy? {
      ReservationStep(s, ApplyFill(f), f.clientOrderId, f.orderId);
    }
  }

  lemma PollRow(s: State, f: Fill)
    ensures var t := Step(s, ApplyFill(f)).0;
            var k := f.clientOrderId;
            Lookup(t.orders, k) ==
              if k in s.orders && FillProgress(Lookup(s.snapshots, f.orderId), f).Apply?
              then Some(s.orders[k].(status := StatusAfterFill(s.orders[k].quantity, f.filledQuantity)))
              else Lookup(s.orders, k)
  {}

  function RowQty(row: Option<Order>): real { if row.Some? then row.value.quantity else 0.0 }

  /** The order row after a poll. */
  function RowAfter(row: Option<Order>, applied: Option<Fill>, f: Fill): Option<Order> {
    if row.Some? && FillProgress(applied, f).Apply?
    then Some(row.value.(status := StatusAfterFill(row.value.quantity, f.filledQuantity))) else row
  }

  /** A closed order stays closed under the polls that may still come. */
  lemma ClosedPollTracked(
    coid: string, r: Request, held: Option<Reservation>, row: Option<Order>, applied: Option<Fill>, f: Fill)
    requires Tracks(coid, r, held, row, applied) && r.stage.Closed? && f in r.trail
    requires r.side.Buy? && FillProgress(applied, f).Apply? ==> f.CostBasis() == CostOf(applied)
    ensures Tracks(coid, r, if r.side.Buy? then HeldAfter(held, RowQty(row), applied, f) else held,
                   RowAfter(row, applied, f), Keep(applied, f))
  {
    if FillProgress(applied, f).Apply? {
      ClosedPollAddsNothing(coid, r, held, row, applied, f);
    }
  }

  /** An order in flight stays tracked under any poll of its own, its row bound or not. */
  lemma FlightPollTracked(
    coid: string, r: Request, held: Option<Reservation>, row: Option<Order>, applied: Option<Fill>, f: Fill)
    requires Tracks(coid, r, held, row, applied) && InFlight(r) && f in r.trail
    ensures Tracks(coid, r, if r.side.Buy? then HeldAfter(held, RowQty(row), applied, f) else held,
                   RowAfter(row, applied, f), Keep(applied, f))
  {
    if r.side.Buy? {
      PollTracksBuy(coid, r, held, row, applied, f);
    } else {
      assert Belongs(coid, r, f);
    }
  }

  lemma SaleReservations(s: State, f: Fill)
    requires f.side.Sell?
    ensures Step(s, ApplyFill(f)).0.reserved == s.reserved
  {}

  /** What a poll leaves behind for its own order. */
  lemma PolledParts(s: State, coid: string, r: Request, f: Fill)
    requires Belongs(coid, r, f) && r.id != ""
    ensures var t := Step(s, ApplyFill(f)).0;
            && Applied(t, r) == Keep(Applied(s, r), f)
            && Lookup(t.orders, coid) == RowAfter(Lookup(s.orders, coid), Applied(s, r), f)
            && Lookup(t.reserved, coid) ==
                 if r.side.Sell? then Lookup(s.reserved, coid)
                 else HeldAfter(Lookup(s.reserved, coid), RowQty(Lookup(s.orders, coid)), Applied(s, r), f)
  {
    PollSeen(s, f);
    PollRow(s, f);
    if f.side.Sell? {
      SaleReservations(s, f);
    }
  }

  // ---------------------------------------------------------------- the other moves

  lemma TrackedFrame(s: State, t: State, k: string, r: Request)
    requires Tracked(s, k, r)
    requires Lookup(t.reserved, k) == Lookup(s.reserved, k) && Lookup(t.orders, k) == Lookup(s.orders, k)
    requires Applied(t, r) == Applied(s, r)
    ensures Tracked(t, k, r)
  {}

  /** A call other than a fill leaves the snapshots, and what is stored under other client order ids. */
  lemma CallIsLocal(s: State, op: Op)
    requires !op.ApplyFill?
    ensures var t := Step(s, op).0;
            && t.snapshots == s.snapshots
            && (forall k | op.Cashflow? || op.SetToday? || k != op.coid ::
                  Lookup(t.reserved, k) == Lookup(s.reserved, k) && Lookup(t.orders, k) == Lookup(s.orders, k))
  {}

  lemma NotPolled(y: Sys, m: Move)
    requires Enabled(y, m) && !m.Poll?
    ensures var t := LedgerAfter(y, m);
            && t.snapshots == y.ledger.snapshots
            && (forall k | m.Other? || k != m.coid ::
                  && Lookup(t.reserved, k) == Lookup(y.ledger.reserved, k)
                  && Lookup(t.orders, k) == Lookup(y.ledger.orders, k))
  {
    if CallOf(y, m).Some? {
      CallIsLocal(y.ledger, CallOf(y, m).value);
      assert m.Other? || CallOf(y, m).value.coid == m.coid;
    }
  }

  /** What the ledger stores for one order is what it stored before. */
  ghost predicate SameFor(s: State, t: State, k: string, r: Request) {
    && Lookup(t.reserved, k) == Lookup(s.reserved, k)
    && Lookup(t.orders, k) == Lookup(s.orders, k)
    && Applied(t, r) == Applied(s, r)
  }

  lemma OthersNotPolled(y: Sys, coid: string, i: nat, k: string)
    requires Sound(y) && Enabled(y, Poll(coid, i)) && k in y.requests && k != coid
    ensures SameFor(y.ledger, LedgerAfter(y, Poll(coid, i)), k, y.requests[k])
  {
    var p, r := y.requests[coid], y.requests[k];
    assert Tracked(y.ledger, k, r) && Tracked(y.ledger, coid, p);
    assert Belongs(coid, p, p.trail[i]);
    PollSeen(y.ledger, p.trail[i]);
  }

  /** A move leaves alone what the ledger stores for every other order. */
  lemma OthersUntouched(y: Sys, m: Move, k: string)
    requires Sound(y) && Enabled(y, m) && k in y.requests && (m.Other? || k != m.coid)
    ensures SameFor(y.ledger, LedgerAfter(y, m), k, y.requests[k])
    ensures Tracked(LedgerAfter(y, m), k, y.requests[k])
  {
    assert Tracked(y.ledger, k, y.requests[k]);
    if m.Poll? {
      OthersNotPolled(y, m.coid, m.index, k);
    } else {
      NotPolled(y, m);
    }
    TrackedFrame(y.ledger, LedgerAfter(y, m), k, y.requests[k]);
  }

  lemma OtherRequestsKept(y: Sys, m: Move, k: string)
    requires Enabled(y, m) && (m.Other? || k != m.coid)
    ensures Lookup(RequestsAfter(y, m), k) == Lookup(y.requests, k)
  {}

  /** The order a move is about is still tracked after it. */
  ghost predicate OwnTrackedAfter(y: Sys, m: Move)
    requires Enabled(y, m) && !m.Other?
  {
    m.coid in RequestsAfter(y, m) ==> Tracked(LedgerAfter(y, m), m.coid, RequestsAfter(y, m)[m.coid])
  }

  lemma AskedTracked(s: State, m: Move)
    requires m.Hold() && WellAsked(Asked(m))
    requires if m.HoldSell? then
               Lookup(s.orders, m.coid) == Some(Order("", m.symbol, Sell, m.currency, m.quantity, Pending))
             else m.coid !in s.orders
                  && Lookup(s.reserved, m.coid) == Some(Reservation(m.currency, Asked(m).budget))
    ensures Tracked(s, m.coid, Asked(m))
  {}

  lemma HeldRow(y: Sys, m: Move)
    requires Sound(y) && Enabled(y, m) && m.Hold()
    ensures m.coid in y.ledger.orders ==> m.HoldSell? && y.ledger.orders[m.coid].orderId == ""
    ensures m.coid in y.ledger.orders ==> !y.ledger.orders[m.coid].status.Open()
  {
    if m.coid in y.requests {
      assert Tracked(y.ledger, m.coid, y.requests[m.coid]);
    }
  }

  lemma GrantedRow(y: Sys, m: Move)
    requires Sound(y) && Enabled(y, m) && m.HoldSell?
    ensures Step(y.ledger, CallOf(y, m).value).1 == Answer(true) ==>
              Lookup(LedgerAfter(y, m).orders, m.coid)
              == Some(Order("", m.symbol, Sell, m.currency, m.quantity, Pending))
  {
    HeldRow(y, m);
  }

  lemma HoldTracked(y: Sys, m: Move)
    requires Sound(y) && Enabled(y, m) && m.Hold()
    ensures OwnTrackedAfter(y, m)
  {
    var t := LedgerAfter(y, m);
    if Step(y.ledger, CallOf(y, m).value).1 == Answer(true) {
      HeldRow(y, m);
      if m.HoldBuy? {
        PriceTimes(m.limit, 0.0, m.quantity);
      }
      if m.HoldSell? {
        GrantedRow(y, m);
      } else {
        assert Lookup(t.reserved, m.coid) == Some(Reservation(m.currency, Asked(m).budget));
      }
      AskedTracked(t, m);
    } else {
      assert t == y.ledger && RequestsAfter(y, m) == y.requests;
      assert m.coid in y.requests ==> Tracked(y.ledger, m.coid, y.requests[m.coid]);
    }
  }

  lemma TrailExtends(coid: string, r: Request, f: Fill)
    requires GoodTrail(coid, r) && Belongs(coid, r, f)
    requires r.trail != [] ==> Follows(r, Last(r).value, f)
    ensures GoodTrail(coid, r.(trail := r.trail + [f]))
  {
    var next := r.(trail := r.trail + [f]);
    forall i, j | 0 <= i < j < |next.trail| ensures Follows(next, next.trail[i], next.trail[j]) {
      if j < |r.trail| {
        assert Follows(r, r.trail[i], r.trail[j]);
      } else if i < |r.trail| - 1 {
        assert Belongs(coid, r, r.trail[i]) && Belongs(coid, r, Last(r).value);
        FollowsOn(coid, r, r.trail[i], Last(r).value, f);
      }
    }
    forall g | g in next.trail ensures Belongs(coid, next, g) {
      assert g == f || Belongs(coid, r, g);
    }
  }

  lemma ExecuteTracked(
    coid: string, r: Request, f: Fill, held: Option<Reservation>, row: Option<Order>, applied: Option<Fill>)
    requires Tracks(coid, r, held, row, applied) && r.accepted && Belongs(coid, r, f)
    requires r.trail != [] ==> Follows(r, Last(r).value, f)
    requires r.side.Buy? && r.stage.Closed? ==> f.CostBasis() == CostOf(Last(r))
    requires QtyOf(Last(r)) < f.filledQuantity ==> r.live
    ensures Tracks(coid, r.(trail := r.trail + [f]), held, row, applied)
  {
    TrailExtends(coid, r, f);
  }

  /** The stage and liveness of a request can change without touching its trail. */
  lemma SameTrail(coid: string, r: Request, next: Request)
    requires GoodTrail(coid, r)
    requires next == r.(stage := next.stage, live := next.live)
    ensures GoodTrail(coid, next)
  {
    forall f | f in next.trail ensures Belongs(coid, next, f) {
      assert Belongs(coid, r, f);
    }
    forall i, j | 0 <= i < j < |next.trail| ensures Follows(next, next.trail[i], next.trail[j]) {
      assert Follows(r, r.trail[i], r.trail[j]);
    }
  }

  lemma ExecuteMove(y: Sys, coid: string, f: Fill)
    requires Sound(y) && Enabled(y, Execute(coid, f))
    ensures OwnTrackedAfter(y, Execute(coid, f))
  {
    var r := y.requests[coid];
    assert Tracked(y.ledger, coid, r);
    ExecuteTracked(coid, r, f, Lookup(y.ledger.reserved, coid), Lookup(y.ledger.orders, coid), Applied(y.ledger, r));
  }

  lemma AcceptMove(y: Sys, coid: string, id: string)
    requires Sound(y) && Enabled(y, Accept(coid, id))
    ensures OwnTrackedAfter(y, Accept(coid, id))
  {
    assert Tracked(y.ledger, coid, y.requests[coid]);
  }

  lemma QuietTracked(
    coid: string, r: Request, next: Request, held: Option<Reservation>, row: Option<Order>, applied: Option<Fill>)
    requires Tracks(coid, r, held, row, applied)
    requires (next == r.(live := false) && r.accepted) || (next == Answered(r) && (r.stage.Sending? || r.stage.Closed?))
    ensures Tracks(coid, next, held, row, applied)
  {
    SameTrail(coid, r, next);
  }

  /** Moves that change only the stage of a request. */
  lemma QuietMove(y: Sys, m: Move)
    requires Sound(y) && Enabled(y, m) && (m.End? || m.GiveUp?)
    ensures OwnTrackedAfter(y, m)
  {
    var r := y.requests[m.coid];
    var next := if m.End? then r.(live := false) else Answered(r);
    assert Tracked(y.ledger, m.coid, r);
    QuietTracked(m.coid, r, next, Lookup(y.ledger.reserved, m.coid), Lookup(y.ledger.orders, m.coid),
                 Applied(y.ledger, r));
    assert LedgerAfter(y, m) == y.ledger && RequestsAfter(y, m)[m.coid] == next;
  }

  /** A dropped request holds nothing, and its row, if there is one, is not open. */
  lemma DropTracked(coid: string, r: Request, held: Option<Reservation>, row: Option<Order>, applied: Option<Fill>)
    requires Tracks(coid, r, held, row, applied) && InFlight(r) && !r.accepted
    ensures Tracks(coid, r.(stage := Dropped), None,
                   if row.Some? then Some(row.value.(status := Rejected)) else None, applied)
  {
    SameTrail(coid, r, r.(stage := Dropped));
  }

  lemma DropSays(y: Sys, coid: string)
    requires Enabled(y, Drop(coid))
    ensures RequestsAfter(y, Drop(coid)) == y.requests[coid := y.requests[coid].(stage := Dropped)]
    ensures InFlight(y.requests[coid]) && !y.requests[coid].accepted
    ensures LedgerAfter(y, Drop(coid)) ==
            if y.requests[coid].side.Buy? then y.ledger.(reserved := y.ledger.reserved - {coid})
            else StepTerminal(y.ledger, coid, Rejected)
  {}

  lemma DropMove(y: Sys, coid: string)
    requires Sound(y) && Enabled(y, Drop(coid))
    ensures OwnTrackedAfter(y, Drop(coid))
  {
    var r := y.requests[coid];
    assert Tracked(y.ledger, coid, r);
    DropSays(y, coid);
    DropTracked(coid, r, Lookup(y.ledger.reserved, coid), Lookup(y.ledger.orders, coid), Applied(y.ledger, r));
    RowAfterMark(y.ledger, coid, Rejected);
  }

  lemma RowAfterMark(s: State, coid: string, status: OrderStatus)
    ensures Lookup(StepTerminal(s, coid, status).orders, coid) ==
            if coid in s.orders then Some(s.orders[coid].(status := status)) else None
  {}

  /** A closed order is tracked without its reservation. */
  lemma CloseTracked(
    coid: string, r: Request, held: Option<Reservation>, row: Option<Order>, applied: Option<Fill>, status: OrderStatus)
    requires Tracks(coid, r, held, row, applied) && r.accepted && !r.live && !status.Open()
    requires QtyOf(applied) == QtyOf(Last(r)) && (r.side.Buy? ==> CostOf(applied) == CostOf(Last(r)))
    ensures Tracks(coid, r.(stage := Closed), None,
                   if row.Some? then Some(row.value.(status := status)) else None, applied)
  {
    SameTrail(coid, r, r.(stage := Closed));
  }

  lemma ClosedTracked(s: State, coid: string, r: Request, status: OrderStatus)
    requires Tracked(s, coid, r) && r.accepted && !r.live && !status.Open() && CaughtUp(s, r)
    ensures Tracked(StepTerminal(s, coid, status), coid, r.(stage := Closed))
  {
    var t := StepTerminal(s, coid, status);
    CloseTracked(coid, r, Lookup(s.reserved, coid), Lookup(s.orders, coid), Applied(s, r), status);
    RowAfterMark(s, coid, status);
    assert Applied(t, r.(stage := Closed)) == Applied(s, r) && Lookup(t.reserved, coid) == None;
  }

  lemma CloseSays(y: Sys, coid: string, status: OrderStatus)
    requires Enabled(y, MarkClosed(coid, status))
    ensures LedgerAfter(y, MarkClosed(coid, status)) == StepTerminal(y.ledger, coid, status)
    ensures RequestsAfter(y, MarkClosed(coid, status)) == y.requests[coid := y.requests[coid].(stage := Closed)]
    ensures var r := y.requests[coid]; r.accepted && !r.live && !status.Open() && CaughtUp(y.ledger, r)
  {}

  lemma CloseMove(y: Sys, coid: string, status: OrderStatus)
    requires Sound(y) && Enabled(y, MarkClosed(coid, status))
    ensures OwnTrackedAfter(y, MarkClosed(coid, status))
  {
    assert Tracked(y.ledger, coid, y.requests[coid]);
    CloseSays(y, coid, status);
    ClosedTracked(y.ledger, coid, y.requests[coid], status);
  }

  /** A bound order is tracked with its exchange id in its row. */
  lemma BindTracked(
    coid: string, r: Request, held: Option<Reservation>, row: Option<Order>, applied: Option<Fill>, bound: Order)
    requires Tracks(coid, r, held, row, applied) && r.accepted
    requires bound == Order(r.id, r.symbol, r.side, r.currency, r.quantity, Pending)
    ensures Tracks(coid, Answered(r), held, Some(bound), applied)
  {
    SameTrail(coid, r, Answered(r));
  }

  lemma BindMove(y: Sys, coid: string)
    requires Sound(y) && Enabled(y, Bind(coid))
    ensures OwnTrackedAfter(y, Bind(coid))
  {
    var r := y.requests[coid];
    assert Tracked(y.ledger, coid, r);
    var t := LedgerAfter(y, Bind(coid));
    var bound := Order(r.id, r.symbol, r.side, r.currency, r.quantity, Pending);
    BindTracked(coid, r, Lookup(y.ledger.reserved, coid), Lookup(y.ledger.orders, coid), Applied(y.ledger, r), bound);
    assert Lookup(t.orders, coid) == Some(bound);
    assert Lookup(t.reserved, coid) == Lookup(y.ledger.reserved, coid);
  }

  lemma PollTracked(y: Sys, coid: string, i: nat)
    requires Sound(y) && Enabled(y, Poll(coid, i))
    ensures OwnTrackedAfter(y, Poll(coid, i))
  {
    var r := y.requests[coid];
    var f := r.trail[i];
    var held, row, applied := Lookup(y.ledger.reserved, coid), Lookup(y.ledger.orders, coid), Applied(y.ledger, r);
    assert Tracked(y.ledger, coid, r) && Belongs(coid, r, f);
    if r.stage.Closed? {
      ClosedPollTracked(coid, r, held, row, applied, f);
    } else {
      FlightPollTracked(coid, r, held, row, applied, f);
    }
    PolledParts(y.ledger, coid, r, f);
  }

  lemma OwnTracked(y: Sys, m: Move)
    requires Sound(y) && Enabled(y, m) && !m.Other?
    ensures OwnTrackedAfter(y, m)
  {
    if m.Hold() {
      HoldTracked(y, m);
    } else {
      match m
      case Poll(coid, i) => PollTracked(y, coid, i);
      case Execute(coid, f) => ExecuteMove(y, coid, f);
      case Accept(coid, id) => AcceptMove(y, coid, id);
      case Bind(coid) => BindMove(y, coid);
      case Drop(coid) => DropMove(y, coid);
      case MarkClosed(coid, status) => CloseMove(y, coid, status);
      case _ => QuietMove(y, m);
    }
  }

  lemma NextTracked(y: Sys, m: Move)
    requires Sound(y) && Enabled(y, m)
    ensures AllTracked(Next(y, m))
  {
    var z := Next(y, m);
    forall k | k in z.requests ensures k != "" && Tracked(z.ledger, k, z.requests[k]) {
      if m.Other? || k != m.coid {
        OtherRequestsKept(y, m, k);
        OthersUntouched(y, m, k);
      } else {
        OwnTracked(y, m);
      }
    }
  }

  /** Only an acceptance gives an exchange id. */
  ghost predicate IdsFrom(before: map<string, Request>, after: map<string, Request>, m: Move) {
    forall k | k in after ::
      if m.Accept? && k == m.coid then after[k].id == m.id
      else after[k].id == "" || (k in before && after[k].id == before[k].id)
  }

  lemma MoveGivesIds(y: Sys, m: Move)
    requires Enabled(y, m)
    ensures IdsFrom(y.requests, RequestsAfter(y, m), m)
  {}

  lemma StayDistinct(before: map<string, Request>, after: map<string, Request>, m: Move)
    requires DistinctIds(before) && IdsFrom(before, after, m)
    requires m.Accept? ==> m.coid in before && forall k | k in before :: before[k].id != m.id
    ensures DistinctIds(after)
  {}

  lemma NextDistinct(y: Sys, m: Move)
    requires Sound(y) && Enabled(y, m)
    ensures DistinctIds(RequestsAfter(y, m))
  {
    MoveGivesIds(y, m);
    StayDistinct(y.requests, RequestsAfter(y, m), m);
  }

  lemma NextSound(y: Sys, m: Move)
    requires Sound(y)
    ensures Sound(Next(y, m))
  {
    if Enabled(y, m) {
      NextTracked(y, m);
      NextDistinct(y, m);
      NoEmptyId(y, m);
      if CallOf(y, m).Some? {
        ReservedStayNonnegative(y.ledger, CallOf(y, m).value);
        StepWellKeyed(y.ledger, CallOf(y, m).value);
      }
    }
  }

  lemma NoEmptyId(y: Sys, m: Move)
    requires Sound(y) && Enabled(y, m)
    ensures "" !in LedgerAfter(y, m).snapshots
  {
    if m.Poll? {
      var r := y.requests[m.coid];
      assert Tracked(y.ledger, m.coid, r);
      assert Belongs(m.coid, r, r.trail[m.index]);
    } else {
      NotPolled(y, m);
    }
  }

  lemma {:induction false} MovesSound(y: Sys, moves: seq<Move>)
    requires Sound(y)
    ensures Sound(Moves(y, moves))
  {
    if moves != [] {
      MovesSound(y, moves[..|moves| - 1]);
      NextSound(Moves(y, moves[..|moves| - 1]), moves[|moves| - 1]);
    }
  }

  // ---------------------------------------------------------------- coverage

  /** What a live buy may still charge after its last snapshot: the rest at its limit, or of its amount. */
  function Remaining(r: Request): real {
    if ByAmount(r) then r.budget - CostOf(Last(r)) else Notional(r.limit, r.quantity - QtyOf(Last(r)))
  }

  /** What the exchange can still charge for a buy: fills not applied, and the rest. */
  function Owed(r: Request, applied: Option<Fill>): real {
    if r.stage.Dropped? then 0.0
    else if !r.accepted then r.budget
    else CostOf(Last(r)) - CostOf(applied) + (if r.live then Remaining(r) else 0.0)
  }

  /** What the exchange can still sell: fills not applied, and the rest. */
  function MaySell(r: Request, applied: Option<Fill>): real {
    if r.stage.Dropped? then 0.0
    else if !r.accepted then r.quantity
    else QtyOf(Last(r)) - QtyOf(applied) + (if r.live then r.quantity - QtyOf(Last(r)) else 0.0)
  }

  /** The last cost and the rest together stay within the budget. */
  lemma LastWithinBudget(coid: string, r: Request)
    requires GoodTrail(coid, r) && WellAsked(r) && r.side.Buy?
    ensures 0.0 <= Remaining(r) && CostOf(Last(r)) + Remaining(r) <= r.budget
    ensures r.trail != [] && Final(r, Last(r).value) ==> Remaining(r) == 0.0
  {
    if r.trail == [] {
      if !ByAmount(r) {
        PriceTimes(r.limit, 0.0, r.quantity);
      }
    } else {
      var last := r.trail[|r.trail| - 1];
      assert Belongs(coid, r, last);
      WithinBudget(coid, r, last);
      if !ByAmount(r) {
        if last.filledQuantity < r.quantity {
          PriceTimes(r.limit, last.filledQuantity, r.quantity);
          PriceTimes(r.limit, 0.0, r.quantity - last.filledQuantity);
        } else {
          PriceTimes(r.limit, 0.0, r.quantity);
        }
      }
    }
  }

  lemma BuyCovered(coid: string, r: Request, held: Option<Reservation>, row: Option<Order>, applied: Option<Fill>)
    requires Tracks(coid, r, held, row, applied) && r.side.Buy?
    requires held.Some? ==> 0.0 <= held.value.amount
    ensures Owed(r, applied) <= if held.Some? && held.value.currency == r.currency then held.value.amount else 0.0
  {
    LastWithinBudget(coid, r);
    if applied.Some? {
      Latest(coid, r, applied.value);
      if Final(r, applied.value) {
        FinalCost(coid, r, applied.value, Last(r).value);
      }
    }
  }

  lemma SellCovered(
    coid: string, r: Request, held: Option<Reservation>, row: Option<Order>, applied: Option<Fill>, filled: real)
    requires Tracks(coid, r, held, row, applied) && r.side.Sell?
    requires row.Some? && row.value.orderId == r.id ==> filled == QtyOf(applied)
    requires row.Some? && row.value.orderId == "" ==> filled == 0.0
    ensures MaySell(r, applied) <= if row.Some? then OpenRemainder(row.value, filled) else 0.0
  {
    if applied.Some? {
      Latest(coid, r, applied.value);
      assert Belongs(coid, r, applied.value);
    }
    if r.trail != [] {
      assert Belongs(coid, r, r.trail[|r.trail| - 1]);
    }
  }

  /** What the ledger holds for an order is enough for what the exchange can still do with it. */
  ghost predicate Covered(s: State, coid: string, r: Request) {
    if r.side.Buy? then Owed(r, Applied(s, r)) <= HeldIn(s.reserved, coid, r.currency)
    else MaySell(r, Applied(s, r)) <= WeightAt(s.orders, coid, OpenWeight(s.snapshots, r.symbol))
  }

  /**
   * Coverage. After any moves, each buy's reservation pays for the fills not yet applied and the
   * rest at its limit, and each sell row covers what is unpolled and unfilled.
   */
  lemma LedgerCoversExchange(y: Sys, moves: seq<Move>)
    requires Sound(y)
    ensures var z := Moves(y, moves); forall k | k in z.requests :: Covered(z.ledger, k, z.requests[k])
  {
    MovesSound(y, moves);
    var z := Moves(y, moves);
    forall k | k in z.requests ensures Covered(z.ledger, k, z.requests[k]) {
      RequestCovered(z, k);
    }
  }

  lemma RequestCovered(z: Sys, k: string)
    requires Sound(z) && k in z.requests
    ensures Covered(z.ledger, k, z.requests[k])
  {
    var r := z.requests[k];
    var held, row := Lookup(z.ledger.reserved, k), Lookup(z.ledger.orders, k);
    assert Tracked(z.ledger, k, r);
    if r.side.Buy? {
      BuyCovered(k, r, held, row, Applied(z.ledger, r));
    } else {
      var filled := if row.Some? then FilledOf(z.ledger.snapshots, row.value.orderId) else 0.0;
      SellCovered(k, r, held, row, Applied(z.ledger, r), filled);
    }
  }

  // ---------------------------------------------------------------- the sleeve as a whole

  function OwedWeight(snapshots: map<string, Fill>, c: Currency): Request -> real {
    (r: Request) =>
      if r.side.Buy? && r.currency == c then Owed(r, if r.id == "" then None else Lookup(snapshots, r.id)) else 0.0
  }

  function MaySellWeight(snapshots: map<string, Fill>, symbol: string): Request -> real {
    (r: Request) =>
      if r.side.Sell? && r.symbol == symbol then MaySell(r, if r.id == "" then None else Lookup(snapshots, r.id))
      else 0.0
  }

  /** What the sleeve bought and has not sold covers all the exchange could still sell. */
  ghost predicate SharesSuffice(y: Sys) {
    forall symbol: string ::
      Total(y.requests, MaySellWeight(y.ledger.snapshots, symbol)) <= NetHeld(y.ledger.snapshots, symbol)
  }

  lemma OwedWithinReserved(z: Sys, c: Currency)
    requires Sound(z)
    ensures Total(z.requests, OwedWeight(z.ledger.snapshots, c)) <= ReservedTotal(z.ledger, c)
  {
    forall k | k in z.requests
      ensures OwedWeight(z.ledger.snapshots, c)(z.requests[k]) <= WeightAt(z.ledger.reserved, k, ReservedWeight(c))
    {
      RequestCovered(z, k);
    }
    TotalMonotone(z.requests, OwedWeight(z.ledger.snapshots, c), z.ledger.reserved, ReservedWeight(c));
  }

  lemma MaySellWithinOpen(z: Sys, symbol: string)
    requires Sound(z)
    ensures Total(z.requests, MaySellWeight(z.ledger.snapshots, symbol)) <= OpenSellQty(z.ledger, symbol, None)
  {
    forall k | k in z.requests
      ensures MaySellWeight(z.ledger.snapshots, symbol)(z.requests[k])
              <= WeightAt(z.ledger.orders, k, OpenWeight(z.ledger.snapshots, symbol))
    {
      RequestCovered(z, k);
    }
    TotalMonotone(z.requests, MaySellWeight(z.ledger.snapshots, symbol),
                  z.ledger.orders, OpenWeight(z.ledger.snapshots, symbol));
  }

  /** A granted hold promises no more than the sleeve has left. */
  lemma HoldKeepsShares(y: Sys, m: Move, symbol: string)
    requires Sound(y) && SharesSuffice(y) && Enabled(y, m) && m.Hold()
    ensures var z := Next(y, m);
            Total(z.requests, MaySellWeight(z.ledger.snapshots, symbol)) <= NetHeld(z.ledger.snapshots, symbol)
  {
    var z, w := Next(y, m), MaySellWeight(y.ledger.snapshots, symbol);
    NotPolled(y, m);
    assert Total(y.requests, w) <= NetHeld(y.ledger.snapshots, symbol);
    if z.requests != y.requests {
      TotalUpdate(y.requests, m.coid, Asked(m), w);
      DroppedWeighsNothing(y, m, symbol);
      if m.HoldSell? && m.symbol == symbol {
        HeldRow(y, m);
        MaySellWithinOpen(y, symbol);
        ReplaceRow(y.ledger, m.coid, Order("", symbol, Sell, KRW, 0.0, Pending), symbol);
        OpenNonnegative(y.ledger, symbol, Some(m.coid));
        PositionIsNetHeld(y.ledger, symbol);
      }
    }
  }

  lemma DroppedWeighsNothing(y: Sys, m: Move, symbol: string)
    requires Enabled(y, m) && m.Hold()
    ensures WeightAt(y.requests, m.coid, MaySellWeight(y.ledger.snapshots, symbol)) == 0.0
  {}

  lemma ChangedAlone(y: Sys, m: Move)
    requires Enabled(y, m) && !m.Hold() && !m.Poll? && !m.Other?
    ensures m.coid in RequestsAfter(y, m)
    ensures RequestsAfter(y, m) == y.requests[m.coid := RequestsAfter(y, m)[m.coid]]
  {}

  /** An acceptance, further fills of a live order, an end, or another stage. */
  predicate Progresses(r: Request, next: Request) {
    && next.side == r.side && next.symbol == r.symbol && next.quantity == r.quantity
    && (r.stage.Dropped? ==> next.stage.Dropped?)
    && (r.accepted ==> next.accepted && (next.live ==> r.live) && next.stage.Dropped? == r.stage.Dropped?)
    && (next.trail == r.trail
        || (r.accepted && next.live == r.live && QtyOf(Last(next)) <= r.quantity
            && (if r.live then QtyOf(Last(r)) <= QtyOf(Last(next)) else QtyOf(Last(r)) == QtyOf(Last(next)))))
  }

  lemma MoveProgresses(y: Sys, m: Move)
    requires Enabled(y, m) && !m.Hold() && !m.Poll? && !m.Other?
    requires var r := y.requests[m.coid]; r.side.Sell? && !(r.accepted && r.stage.Dropped?)
    ensures m.coid in RequestsAfter(y, m) && Progresses(y.requests[m.coid], RequestsAfter(y, m)[m.coid])
  {
    if m.Execute? {
      var r := y.requests[m.coid];
      assert Last(r.(trail := r.trail + [m.fill])) == Some(m.fill);
    }
  }

  /** Progress never lets the exchange sell more. */
  lemma MaySellShrinks(
    coid: string, r: Request, next: Request, held: Option<Reservation>, row: Option<Order>, applied: Option<Fill>)
    requires Tracks(coid, r, held, row, applied) && r.side.Sell? && Progresses(r, next)
    ensures MaySell(next, applied) <= MaySell(r, applied)
  {
    if applied.Some? {
      Latest(coid, r, applied.value);
    }
    if r.trail != [] {
      assert Belongs(coid, r, Last(r).value);
    }
  }

  lemma StillApplied(y: Sys, m: Move)
    requires Sound(y) && Enabled(y, m) && !m.Hold() && !m.Poll? && !m.Other? && m.coid in RequestsAfter(y, m)
    ensures Applied(y.ledger, RequestsAfter(y, m)[m.coid]) == Applied(y.ledger, y.requests[m.coid])
  {
    assert Tracked(y.ledger, m.coid, y.requests[m.coid]);
  }

  /** No other move than a hold or a poll gives the exchange more to sell. */
  lemma WeightShrinks(y: Sys, m: Move, symbol: string)
    requires Sound(y) && Enabled(y, m) && !m.Hold() && !m.Poll? && !m.Other? && m.coid in RequestsAfter(y, m)
    ensures MaySellWeight(y.ledger.snapshots, symbol)(RequestsAfter(y, m)[m.coid])
            <= MaySellWeight(y.ledger.snapshots, symbol)(y.requests[m.coid])
  {
    var r, next := y.requests[m.coid], RequestsAfter(y, m)[m.coid];
    StillApplied(y, m);
    SameSide(y, m);
    if r.side.Sell? {
      assert Tracked(y.ledger, m.coid, r);
      MoveProgresses(y, m);
      MaySellShrinks(m.coid, r, next, Lookup(y.ledger.reserved, m.coid), Lookup(y.ledger.orders, m.coid),
                     Applied(y.ledger, r));
    }
  }

  lemma SameSide(y: Sys, m: Move)
    requires Enabled(y, m) && !m.Hold() && !m.Other? && m.coid in RequestsAfter(y, m)
    ensures RequestsAfter(y, m)[m.coid].side == y.requests[m.coid].side
    ensures RequestsAfter(y, m)[m.coid].symbol == y.requests[m.coid].symbol
  {}

  lemma QuietKeepsShares(y: Sys, m: Move, symbol: string)
    requires Sound(y) && SharesSuffice(y) && Enabled(y, m) && !m.Hold() && !m.Poll?
    ensures var z := Next(y, m);
            Total(z.requests, MaySellWeight(z.ledger.snapshots, symbol)) <= NetHeld(z.ledger.snapshots, symbol)
  {
    var w := MaySellWeight(y.ledger.snapshots, symbol);
    NotPolled(y, m);
    assert Total(y.requests, w) <= NetHeld(y.ledger.snapshots, symbol);
    if !m.Other? {
      ChangedAlone(y, m);
      WeightShrinks(y, m, symbol);
      TotalUpdate(y.requests, m.coid, RequestsAfter(y, m)[m.coid], w);
    }
  }

  /** A poll changes what one order may still sell by exactly what it books as sold. */
  lemma PolledWeight(y: Sys, coid: string, i: nat, symbol: string)
    requires Sound(y) && Enabled(y, Poll(coid, i))
    requires FillProgress(Applied(y.ledger, y.requests[coid]), y.requests[coid].trail[i]).Apply?
    ensures var r, t := y.requests[coid], LedgerAfter(y, Poll(coid, i));
            var f := r.trail[i];
            && t == Settle(y.ledger, f)
            && t.snapshots == y.ledger.snapshots[f.orderId := f]
            && (f.orderId in y.ledger.snapshots ==>
                  y.ledger.snapshots[f.orderId].symbol == f.symbol && y.ledger.snapshots[f.orderId].side == f.side)
            && MaySellWeight(t.snapshots, symbol)(r) == MaySellWeight(y.ledger.snapshots, symbol)(r)
                 - (if f.side.Sell? && f.symbol == symbol
                    then DeltaQty(Lookup(y.ledger.snapshots, f.orderId), f) else 0.0)
  {
    var r := y.requests[coid];
    var f, applied := r.trail[i], Applied(y.ledger, r);
    assert Tracked(y.ledger, coid, r) && Belongs(coid, r, f);
    assert applied == Lookup(y.ledger.snapshots, f.orderId);
    if applied.Some? {
      assert Belongs(coid, r, applied.value);
    }
  }

  lemma OthersWeighTheSame(y: Sys, coid: string, i: nat, symbol: string, k: string)
    requires Sound(y) && Enabled(y, Poll(coid, i)) && k in y.requests && k != coid
    ensures MaySellWeight(LedgerAfter(y, Poll(coid, i)).snapshots, symbol)(y.requests[k])
            == MaySellWeight(y.ledger.snapshots, symbol)(y.requests[k])
  {
    OthersNotPolled(y, coid, i, k);
  }

  lemma PolledTotal(y: Sys, coid: string, i: nat, symbol: string)
    requires Sound(y) && Enabled(y, Poll(coid, i))
    ensures var w, u := MaySellWeight(y.ledger.snapshots, symbol),
                        MaySellWeight(LedgerAfter(y, Poll(coid, i)).snapshots, symbol);
            Total(y.requests, u) == Total(y.requests, w) - w(y.requests[coid]) + u(y.requests[coid])
  {
    var w, u := MaySellWeight(y.ledger.snapshots, symbol),
                MaySellWeight(LedgerAfter(y, Poll(coid, i)).snapshots, symbol);
    forall k | k in y.requests - {coid} ensures u((y.requests - {coid})[k]) == w((y.requests - {coid})[k]) {
      OthersWeighTheSame(y, coid, i, symbol, k);
    }
    TotalRemove(y.requests, coid, w);
    TotalRemove(y.requests, coid, u);
    TotalCongruent(y.requests - {coid}, u, y.requests - {coid}, w);
  }

  lemma UnappliedPoll(y: Sys, coid: string, i: nat)
    requires Sound(y) && Enabled(y, Poll(coid, i))
    requires !FillProgress(Applied(y.ledger, y.requests[coid]), y.requests[coid].trail[i]).Apply?
    ensures Next(y, Poll(coid, i)) == y
  {
    assert Tracked(y.ledger, coid, y.requests[coid]);
    assert Belongs(coid, y.requests[coid], y.requests[coid].trail[i]);
  }

  /** What a poll books as sold it takes from what may still be sold. */
  lemma PollBalances(y: Sys, coid: string, i: nat, symbol: string)
    requires Sound(y) && Enabled(y, Poll(coid, i))
    requires FillProgress(Applied(y.ledger, y.requests[coid]), y.requests[coid].trail[i]).Apply?
    ensures var r, t := y.requests[coid], LedgerAfter(y, Poll(coid, i)).snapshots;
            MaySellWeight(t, symbol)(r) - MaySellWeight(y.ledger.snapshots, symbol)(r)
            <= NetHeld(t, symbol) - NetHeld(y.ledger.snapshots, symbol)
  {
    PolledWeight(y, coid, i, symbol);
    NetAfterFill(y.ledger, y.requests[coid].trail[i], symbol);
  }

  lemma PollKeepsShares(y: Sys, coid: string, i: nat, symbol: string)
    requires Sound(y) && Enabled(y, Poll(coid, i))
    requires Total(y.requests, MaySellWeight(y.ledger.snapshots, symbol)) <= NetHeld(y.ledger.snapshots, symbol)
    ensures var t := LedgerAfter(y, Poll(coid, i)).snapshots;
            Total(y.requests, MaySellWeight(t, symbol)) <= NetHeld(t, symbol)
  {
    var r := y.requests[coid];
    if FillProgress(Applied(y.ledger, r), r.trail[i]).Apply? {
      PolledTotal(y, coid, i, symbol);
      PollBalances(y, coid, i, symbol);
    } else {
      UnappliedPoll(y, coid, i);
    }
  }

  lemma NextKeepsShares(y: Sys, m: Move)
    requires Sound(y) && SharesSuffice(y)
    ensures SharesSuffice(Next(y, m))
  {
    if Enabled(y, m) {
      var z := Next(y, m);
      forall symbol: string
        ensures Total(z.requests, MaySellWeight(z.ledger.snapshots, symbol)) <= NetHeld(z.ledger.snapshots, symbol)
      {
        if m.Hold() {
          HoldKeepsShares(y, m, symbol);
        } else if m.Poll? {
          assert Total(y.requests, MaySellWeight(y.ledger.snapshots, symbol)) <= NetHeld(y.ledger.snapshots, symbol);
          PollKeepsShares(y, m.coid, m.index, symbol);
        } else {
          QuietKeepsShares(y, m, symbol);
        }
      }
    }
  }

  lemma {:induction false} MovesKeepShares(y: Sys, moves: seq<Move>)
    requires Sound(y) && SharesSuffice(y)
    ensures SharesSuffice(Moves(y, moves))
  {
    if moves != [] {
      MovesKeepShares(y, moves[..|moves| - 1]);
      MovesSound(y, moves[..|moves| - 1]);
      NextKeepsShares(Moves(y, moves[..|moves| - 1]), moves[|moves| - 1]);
    }
  }

  /**
   * A sleeve never lives on others. After any moves, in every symbol what it bought covers all the
   * exchange could still sell, and in every currency what it has reserved pays for all the
   * exchange could still charge.
   */
  lemma SleeveStandsAlone(y: Sys, moves: seq<Move>)
    requires Sound(y) && SharesSuffice(y)
    ensures var z := Moves(y, moves);
            && (forall symbol: string ::
                  Total(z.requests, MaySellWeight(z.ledger.snapshots, symbol)) <= NetHeld(z.ledger.snapshots, symbol))
            && (forall c: Currency ::
                  Total(z.requests, OwedWeight(z.ledger.snapshots, c)) <= ReservedTotal(z.ledger, c))
  {
    MovesSound(y, moves);
    MovesKeepShares(y, moves);
    var z := Moves(y, moves);
    forall c: Currency
      ensures Total(z.requests, OwedWeight(z.ledger.snapshots, c)) <= ReservedTotal(z.ledger, c)
    {
      OwedWithinReserved(z, c);
    }
  }

  lemma FreshSound(capital: real, base: Currency, today: string)
    ensures Sound(Sys(Fresh(capital, base, today), map[]))
    ensures SharesSuffice(Sys(Fresh(capital, base, today), map[]))
  {}
}
