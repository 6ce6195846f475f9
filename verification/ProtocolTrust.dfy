/**
 * What the system owes to trust. Its calls meet the conditions of the tables, and those of buys for
 * the cap, by themselves; sale reports, external money, the clock and unbound sales need trust, and
 * with it the cap holds and no open row promises shares that the sleeve has not bought.
 */
module ProtocolTrust {
  import opened SleeveTypes
  import opened MapSums
  import opened LedgerSpec
  import opened CashTheorems
  import opened SellTheorems
  import opened PollTheorems
  import opened Simulation
  import opened Protocol

  // ---------------------------------------------------------------- what is trusted

  /** A call whose guard of the cap has to be trusted: a sale report, external money, or the clock. */
  predicate NeedsTrust(y: Sys, m: Move) {
    m.Other? || (m.Poll? && m.coid in y.requests && y.requests[m.coid].side.Sell?)
  }

  /** What is trusted for the cap alone: sale reports that grow, withdrawals that are covered, a forward clock. */
  ghost predicate CapTrusted(y: Sys, m: Move) {
    Enabled(y, m) && CallOf(y, m).Some? && NeedsTrust(y, m) ==> CapGuard(y.ledger, CallOf(y, m).value)
  }

  /**
   * What is trusted for the open sell rows alone: a partial sale is applied only once its row
   * carries the exchange id, and a closed sale that is not complete is left alone.
   */
  ghost predicate SellTrusted(y: Sys, m: Move) {
    Enabled(y, m) && !m.Other? && m.coid in y.requests && y.requests[m.coid].side.Sell? ==>
      var r := y.requests[m.coid];
      match m
      case Poll(coid, i) =>
        FillProgress(Applied(y.ledger, r), r.trail[i]).Apply? ==> SaleKnown(y.ledger, coid, r, r.trail[i])
      case Bind(_) => r.stage.Closed? ==> QtyOf(Applied(y.ledger, r)) == r.quantity
      case _ => true
  }

  predicate SaleKnown(s: State, coid: string, r: Request, f: Fill) {
    || f.filledQuantity == r.quantity
    || (!r.stage.Closed? && coid in s.orders && s.orders[coid].orderId == r.id)
  }

  /** A run of moves each of which is trusted. */
  ghost predicate TrustedMoves(trusted: (Sys, Move) -> bool, y: Sys, moves: seq<Move>) {
    moves != [] ==>
      && TrustedMoves(trusted, y, moves[..|moves| - 1])
      && trusted(Moves(y, moves[..|moves| - 1]), moves[|moves| - 1])
  }

  // ---------------------------------------------------------------- rows that show what may be sold

  /** An unbound row whose sale was applied is complete and closed, and a closed order's row is not open unbound. */
  ghost predicate RowExact(r: Request, row: Option<Order>, applied: Option<Fill>) {
    r.side.Sell? ==>
      match r.stage
      case Dropped => true
      case Closed => row.Some? && (row.value.status.Open() ==> row.value.orderId == r.id)
      case _ =>
        row.Some? && row.value.orderId == "" && applied.Some? ==>
          QtyOf(applied) == r.quantity && !row.value.status.Open()
  }

  ghost predicate RowExactFor(s: State, coid: string, r: Request) {
    RowExact(r, Lookup(s.orders, coid), Applied(s, r))
  }

  /** No row promises too much, and the rows show what may be sold. */
  ghost predicate SellSide(y: Sys) {
    NotOversold(y.ledger) && forall k | k in y.requests :: RowExactFor(y.ledger, k, y.requests[k])
  }

  // ---------------------------------------------------------------- guards

  lemma PollCovered(
    coid: string, r: Request, held: Option<Reservation>, row: Option<Order>, applied: Option<Fill>, f: Fill)
    requires Tracks(coid, r, held, row, applied) && r.side.Buy? && !r.stage.Dropped?
    requires f in r.trail && FillProgress(applied, f).Apply?
    requires r.stage.Closed? ==> f.CostBasis() == CostOf(applied)
    ensures DeltaNotional(applied, f) <= if held.Some? then held.value.amount else 0.0
    ensures held.Some? ==> held.value.currency == r.currency
  {
    assert Belongs(coid, r, f);
    WithinBudget(coid, r, f);
    if applied.Some? && Final(r, applied.value) {
      FinalCost(coid, r, applied.value, f);
    }
  }

  /** A polled snapshot names the order that the stored one names. */
  lemma PollNames(y: Sys, coid: string, i: nat)
    requires Sound(y) && Enabled(y, Poll(coid, i))
    ensures var r := y.requests[coid];
            var f := r.trail[i];
            && Belongs(coid, r, f) && !r.stage.Dropped?
            && Applied(y.ledger, r) == Lookup(y.ledger.snapshots, f.orderId)
            && (f.orderId in y.ledger.snapshots ==> f.SameOrder(y.ledger.snapshots[f.orderId]))
  {
    var r := y.requests[coid];
    assert Tracked(y.ledger, coid, r) && Belongs(coid, r, r.trail[i]);
    if Applied(y.ledger, r).Some? {
      assert Belongs(coid, r, Applied(y.ledger, r).value);
    }
  }

  /** A poll of a buy is covered by the reservation it draws on, whatever the price. */
  lemma BuyPollGuarded(y: Sys, coid: string, i: nat)
    requires Sound(y) && Enabled(y, Poll(coid, i)) && y.requests[coid].side.Buy?
    ensures CapGuard(y.ledger, ApplyFill(y.requests[coid].trail[i]))
    ensures SellGuard(y.ledger, ApplyFill(y.requests[coid].trail[i]))
  {
    var r := y.requests[coid];
    var f, applied := r.trail[i], Applied(y.ledger, r);
    PollNames(y, coid, i);
    assert Tracked(y.ledger, coid, r);
    if FillProgress(applied, f).Apply? {
      PollCovered(coid, r, Lookup(y.ledger.reserved, coid), Lookup(y.ledger.orders, coid), applied, f);
      assert CoveredBuy(y.ledger, f);
    }
  }

  /** A trusted poll of a sale lands on its own row. */
  lemma SalePollGuarded(y: Sys, coid: string, i: nat)
    requires Sound(y) && SellSide(y) && Enabled(y, Poll(coid, i)) && y.requests[coid].side.Sell?
    requires SellTrusted(y, Poll(coid, i))
    ensures SellGuard(y.ledger, ApplyFill(y.requests[coid].trail[i]))
  {
    var r := y.requests[coid];
    var f, applied := r.trail[i], Applied(y.ledger, r);
    PollNames(y, coid, i);
    assert Tracked(y.ledger, coid, r) && RowExactFor(y.ledger, coid, r);
    if FillProgress(applied, f).Apply? {
      if r.stage.Closed? {
        ClosedPollAddsNothing(coid, r, Lookup(y.ledger.reserved, coid), Lookup(y.ledger.orders, coid), applied, f);
      }
      assert SoldThroughRow(y.ledger, f);
    }
  }

  lemma BindGuarded(y: Sys, coid: string)
    requires Sound(y) && Enabled(y, Bind(coid))
    ensures coid != ""
    ensures SellTrusted(y, Bind(coid)) ==> SellGuard(y.ledger, CallOf(y, Bind(coid)).value)
  {
    var r := y.requests[coid];
    assert Tracked(y.ledger, coid, r);
    if r.side.Sell? && SellTrusted(y, Bind(coid)) {
      var row := y.ledger.orders[coid];
      if !row.status.Open() {
        assert QtyOf(Applied(y.ledger, r)) >= r.quantity;
      }
    }
  }

  /**
   * Every ledger call of the system meets the condition of the tables; every call but those that
   * need trust meets the condition of the cap; and every call trusted for it that of the sell side.
   */
  lemma CallsGuarded(y: Sys, m: Move)
    requires Sound(y) && Enabled(y, m) && CallOf(y, m).Some?
    ensures TableGuard(y.ledger, CallOf(y, m).value)
    ensures !NeedsTrust(y, m) ==> CapGuard(y.ledger, CallOf(y, m).value)
    ensures SellSide(y) && SellTrusted(y, m) ==> SellGuard(y.ledger, CallOf(y, m).value)
  {
    if m.Poll? {
      PollNames(y, m.coid, m.index);
      if y.requests[m.coid].side.Buy? {
        BuyPollGuarded(y, m.coid, m.index);
      } else if SellSide(y) && SellTrusted(y, m) {
        SalePollGuarded(y, m.coid, m.index);
      }
    } else if m.Bind? {
      BindGuarded(y, m.coid);
    }
  }

  // ---------------------------------------------------------------- the cap

  /** Moves that are trusted for it keep the cap in every state. */
  lemma {:induction false} MovesWithinCap(y: Sys, moves: seq<Move>)
    requires Sound(y) && WithinCap(y.ledger) && TrustedMoves(CapTrusted, y, moves)
    ensures WithinCap(Moves(y, moves).ledger)
  {
    if moves != [] {
      var front, m := moves[..|moves| - 1], moves[|moves| - 1];
      var mid := Moves(y, front);
      MovesWithinCap(y, front);
      MovesSound(y, front);
      assert CapTrusted(mid, m);
      if Enabled(mid, m) && CallOf(mid, m).Some? {
        CallsGuarded(mid, m);
        StepKeepsCap(mid.ledger, CallOf(mid, m).value);
      }
    }
  }

  /** With the cap, settled cash pays for all the exchange could still charge, fees apart. */
  lemma CashPays(y: Sys, moves: seq<Move>)
    requires Sound(y) && WithinCap(y.ledger) && TrustedMoves(CapTrusted, y, moves)
    ensures var z := Moves(y, moves);
            forall c: Currency ::
              Total(z.requests, OwedWeight(z.ledger.snapshots, c))
              <= VirtualCash(z.ledger, c) - SettlementPending(z.ledger, c) + BuyFees(z.ledger, c)
  {
    MovesSound(y, moves);
    MovesWithinCap(y, moves);
    var z := Moves(y, moves);
    forall c: Currency
      ensures Total(z.requests, OwedWeight(z.ledger.snapshots, c))
              <= VirtualCash(z.ledger, c) - SettlementPending(z.ledger, c) + BuyFees(z.ledger, c)
    {
      OwedWithinReserved(z, c);
      assert 0.0 <= Available(z.ledger, c) + BuyFees(z.ledger, c);
    }
  }

  // ---------------------------------------------------------------- the sell side

  lemma PolledRowExact(
    coid: string, r: Request, held: Option<Reservation>, row: Option<Order>, applied: Option<Fill>, f: Fill)
    requires Tracks(coid, r, held, row, applied) && r.side.Sell? && f in r.trail && RowExact(r, row, applied)
    requires FillProgress(applied, f).Apply? ==>
               f.filledQuantity == r.quantity
               || (!r.stage.Closed? && row.Some? && row.value.orderId == r.id)
    ensures RowExact(r, RowAfter(row, applied, f), Keep(applied, f))
  {}

  lemma OwnRowExact(y: Sys, m: Move)
    requires Sound(y) && SellSide(y) && Enabled(y, m) && !m.Other? && SellTrusted(y, m)
    ensures m.coid in RequestsAfter(y, m) ==> RowExactFor(LedgerAfter(y, m), m.coid, RequestsAfter(y, m)[m.coid])
  {
    if m.Hold() {
      HoldRowExact(y, m);
    } else if m.Poll? {
      var r := y.requests[m.coid];
      PollNames(y, m.coid, m.index);
      assert Tracked(y.ledger, m.coid, r) && RowExactFor(y.ledger, m.coid, r);
      if r.side.Sell? {
        PolledRowExact(m.coid, r, Lookup(y.ledger.reserved, m.coid), Lookup(y.ledger.orders, m.coid),
                       Applied(y.ledger, r), r.trail[m.index]);
        PolledParts(y.ledger, m.coid, r, r.trail[m.index]);
      }
    } else {
      QuietRowExact(y, m);
    }
  }

  lemma HoldRowExact(y: Sys, m: Move)
    requires Sound(y) && SellSide(y) && Enabled(y, m) && m.Hold()
    ensures m.coid in RequestsAfter(y, m) ==> RowExactFor(LedgerAfter(y, m), m.coid, RequestsAfter(y, m)[m.coid])
  {
    if Step(y.ledger, CallOf(y, m).value).1 != Answer(true) {
      assert LedgerAfter(y, m) == y.ledger;
      assert m.coid in y.requests ==> RowExactFor(y.ledger, m.coid, y.requests[m.coid]);
    }
  }

  lemma QuietRowExact(y: Sys, m: Move)
    requires Sound(y) && SellSide(y) && Enabled(y, m) && !m.Hold() && !m.Poll? && !m.Other?
    ensures m.coid in RequestsAfter(y, m) ==> RowExactFor(LedgerAfter(y, m), m.coid, RequestsAfter(y, m)[m.coid])
  {
    var r := y.requests[m.coid];
    assert Tracked(y.ledger, m.coid, r) && RowExactFor(y.ledger, m.coid, r);
    NotPolled(y, m);
    if m.MarkClosed? {
      RowAfterMark(y.ledger, m.coid, m.status);
    }
  }

  lemma NextSellSide(y: Sys, m: Move)
    requires Sound(y) && SellSide(y) && SellTrusted(y, m)
    ensures SellSide(Next(y, m))
  {
    if Enabled(y, m) {
      var z := Next(y, m);
      if CallOf(y, m).Some? {
        CallsGuarded(y, m);
        StepKeepsMargin(y.ledger, CallOf(y, m).value);
      }
      forall k | k in z.requests ensures RowExactFor(z.ledger, k, z.requests[k]) {
        if m.Other? || k != m.coid {
          OtherRequestsKept(y, m, k);
          OthersUntouched(y, m, k);
          assert RowExactFor(y.ledger, k, y.requests[k]);
        } else {
          OwnRowExact(y, m);
        }
      }
    }
  }

  /** Moves that are trusted for it never let the open rows promise more than was bought. */
  lemma {:induction false} MovesKeepSellSide(y: Sys, moves: seq<Move>)
    requires Sound(y) && SellSide(y) && TrustedMoves(SellTrusted, y, moves)
    ensures SellSide(Moves(y, moves))
  {
    if moves != [] {
      MovesKeepSellSide(y, moves[..|moves| - 1]);
      MovesSound(y, moves[..|moves| - 1]);
      assert SellTrusted(Moves(y, moves[..|moves| - 1]), moves[|moves| - 1]);
      NextSellSide(Moves(y, moves[..|moves| - 1]), moves[|moves| - 1]);
    }
  }

  lemma FreshTrust(capital: real, base: Currency, today: string)
    ensures SellSide(Sys(Fresh(capital, base, today), map[]))
    ensures 0.0 <= capital ==> WithinCap(Fresh(capital, base, today))
  {
    FreshNotOversold(capital, base, today);
    if 0.0 <= capital {
      FreshWithinCap(capital, base, today);
    }
  }
}
