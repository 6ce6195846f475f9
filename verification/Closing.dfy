/** Marks and corrections that come at the wrong time: exactly which orders they leave uncovered, and runs that do. */
module Closing {
  import opened SleeveTypes
  import opened LedgerSpec
  import opened CashTheorems
  import opened PollTheorems
  import opened Protocol

  // ---------------------------------------------------------------- an order closed too early

  /** The exchange can do nothing further with the order: it is complete, or its amount is spent. */
  predicate Done(r: Request) {
    if r.side.Sell? then QtyOf(Last(r)) == r.quantity else r.trail != [] && Final(r, Last(r).value)
  }

  /** The ledger has applied everything, and nothing more can come. */
  predicate NothingLeft(s: State, r: Request) { CaughtUp(s, r) && (r.live ==> Done(r)) }

  /** More quantity costs more money, and no price is corrected. */
  ghost predicate CostsGrow(r: Request) {
    forall i, j | 0 <= i < j < |r.trail| ::
      && (r.trail[i].filledQuantity < r.trail[j].filledQuantity ==> r.trail[i].CostBasis() < r.trail[j].CostBasis())
      && (r.trail[i].filledQuantity == r.trail[j].filledQuantity ==> r.trail[i].CostBasis() == r.trail[j].CostBasis())
  }

  lemma CostShowsQuantity(coid: string, r: Request, applied: Option<Fill>)
    requires GoodTrail(coid, r) && (applied.Some? ==> applied.value in r.trail) && CostsGrow(r)
    ensures CostOf(applied) <= CostOf(Last(r))
    ensures CostOf(applied) == CostOf(Last(r)) ==> QtyOf(applied) == QtyOf(Last(r))
  {
    if applied.Some? {
      Latest(coid, r, applied.value);
      var i :| 0 <= i < |r.trail| && r.trail[i] == applied.value;
      assert i < |r.trail| - 1 ==> Follows(r, r.trail[i], r.trail[|r.trail| - 1]);
    } else if r.trail != [] {
      CostPositive(Last(r).value);
    }
  }

  lemma CostPositive(f: Fill)
    ensures 0.0 < f.CostBasis()
  {}

  /** A buy has nothing left to charge exactly when it is done. */
  lemma RemainingExactly(coid: string, r: Request)
    requires GoodTrail(coid, r) && WellAsked(r) && r.side.Buy?
    ensures 0.0 <= Remaining(r)
    ensures Remaining(r) == 0.0 <==> Done(r)
  {
    LastWithinBudget(coid, r);
    if !ByAmount(r) {
      if r.trail != [] {
        assert Belongs(coid, r, Last(r).value);
      }
      if QtyOf(Last(r)) < r.quantity {
        PriceTimes(r.limit, 0.0, r.quantity - QtyOf(Last(r)));
      }
    }
  }

  lemma ClosedBuy(coid: string, r: Request, applied: Option<Fill>)
    requires GoodTrail(coid, r) && WellAsked(r) && r.side.Buy? && r.accepted && !r.stage.Dropped?
    requires applied.Some? ==> applied.value in r.trail
    ensures var caughtUp := QtyOf(applied) == QtyOf(Last(r)) && CostOf(applied) == CostOf(Last(r));
            && (caughtUp && (r.live ==> Done(r)) ==> Owed(r, applied) <= 0.0)
            && (CostsGrow(r) && Owed(r, applied) <= 0.0 ==> caughtUp && (r.live ==> Done(r)))
  {
    RemainingExactly(coid, r);
    if CostsGrow(r) {
      CostShowsQuantity(coid, r, applied);
    }
  }

  lemma ClosedSell(coid: string, r: Request, applied: Option<Fill>)
    requires GoodTrail(coid, r) && WellAsked(r) && r.side.Sell? && r.accepted && !r.stage.Dropped?
    requires applied.Some? ==> applied.value in r.trail
    ensures MaySell(r, applied) <= 0.0 <==> QtyOf(applied) == QtyOf(Last(r)) && (r.live ==> Done(r))
  {
    if applied.Some? {
      Latest(coid, r, applied.value);
    }
    if r.trail != [] {
      assert Belongs(coid, r, Last(r).value);
    }
  }

  /**
   * Marking an order closed frees what was held for it, whatever the exchange still does with it.
   * A sale stays covered exactly when nothing is left of it, a buy exactly when no more cost can
   * come than was applied; without price corrections that is when nothing is left.
   */
  lemma EarlyCloseExactly(y: Sys, coid: string, status: OrderStatus)
    requires Sound(y) && coid in y.requests && !status.Open()
    requires y.requests[coid].accepted && !y.requests[coid].stage.Closed?
    ensures var r, t := y.requests[coid], StepTerminal(y.ledger, coid, status);
            && (r.side.Sell? ==> (Covered(t, coid, r) <==> NothingLeft(y.ledger, r)))
            && (r.side.Buy? ==>
                  (Covered(t, coid, r)
                   <==> CostOf(Last(r)) + (if r.live then Remaining(r) else 0.0) <= CostOf(Applied(y.ledger, r))))
            && (NothingLeft(y.ledger, r) ==> Covered(t, coid, r))
            && (CostsGrow(r) ==> (Covered(t, coid, r) <==> NothingLeft(y.ledger, r)))
  {
    var r, t := y.requests[coid], StepTerminal(y.ledger, coid, status);
    assert Tracked(y.ledger, coid, r);
    RowAfterMark(y.ledger, coid, status);
    assert Applied(t, r) == Applied(y.ledger, r);
    if r.side.Buy? {
      ClosedBuy(coid, r, Applied(y.ledger, r));
    } else {
      ClosedSell(coid, r, Applied(y.ledger, r));
    }
  }

  /**
   * Where a price correction bites: once nothing is held for a buy that was caught up, a further
   * snapshot leaves it covered exactly when it does not cost more.
   */
  lemma LateCorrectionExactly(y: Sys, coid: string, f: Fill)
    requires Sound(y) && coid in y.requests && coid !in y.ledger.reserved
    requires var r := y.requests[coid]; r.side.Buy? && r.accepted && !r.live && CaughtUp(y.ledger, r)
    ensures var r := y.requests[coid];
            Covered(y.ledger, coid, r.(trail := r.trail + [f])) <==> f.CostBasis() <= CostOf(Last(r))
  {
    assert Tracked(y.ledger, coid, y.requests[coid]);
  }

  // ---------------------------------------------------------------- runs that leave orders uncovered

  function Hundred(): Sys { Sys(Fresh(100.0, KRW, ""), map[]) }

  function BuyTen(): Move { HoldBuy("c", "A", KRW, 10.0, 10.0) }

  function Snapshot(quantity: real, price: real): Fill
    requires quantity > 0.0 && price > 0.0
  {
    RawFill("E", "c", "A", Buy, KRW, quantity, price, 0.0, 0.0, "", "")
  }

  /** A buy of ten, taken by the exchange and bound, of which one snapshot is made before it ends. */
  function Bought(f: Fill): seq<Move> { [BuyTen(), Accept("c", "E"), Bind("c"), Execute("c", f), End("c")] }

  /** That system while its one request goes through its stages. */
  function Buying(bound: bool, r: Request): Sys {
    Sys(Fresh(100.0, KRW, "").(
          reserved := map["c" := Reservation(KRW, 100.0)],
          orders := if bound then map["c" := Order("E", "A", Buy, KRW, 10.0, Pending)] else map[]),
        map["c" := r])
  }

  function Taken(): Request { Asked(BuyTen()).(id := "E", accepted := true, live := true) }

  lemma HeldHundred()
    ensures Next(Hundred(), BuyTen()) == Buying(false, Asked(BuyTen()))
  {
    assert Notional(10.0, 10.0) == 100.0;
    assert Available(Hundred().ledger, KRW) == 100.0;
    assert Enabled(Hundred(), BuyTen());
  }

  lemma TakenAndBound()
    ensures Next(Buying(false, Asked(BuyTen())), Accept("c", "E")) == Buying(false, Taken())
    ensures Next(Buying(false, Taken()), Bind("c")) == Buying(true, Taken().(stage := Settled))
  {
    assert Enabled(Buying(false, Asked(BuyTen())), Accept("c", "E"));
    assert Enabled(Buying(false, Taken()), Bind("c"));
  }

  lemma FilledAndEnded(f: Fill)
    requires Belongs("c", Taken(), f)
    ensures var r := Taken().(stage := Settled);
            && Next(Buying(true, r), Execute("c", f)) == Buying(true, r.(trail := [f]))
            && Next(Buying(true, r.(trail := [f])), End("c")) == Buying(true, r.(trail := [f], live := false))
  {
    var r := Taken().(stage := Settled);
    assert r.trail + [f] == [f];
    assert Enabled(Buying(true, r), Execute("c", f));
    assert map["c" := r]["c" := r.(trail := [f])] == map["c" := r.(trail := [f])];
    assert Enabled(Buying(true, r.(trail := [f])), End("c"));
  }

  lemma MovesAppend(y: Sys, moves: seq<Move>, m: Move)
    ensures Moves(y, moves + [m]) == Next(Moves(y, moves), m)
  {
    assert (moves + [m])[..|moves + [m]| - 1] == moves;
  }

  lemma BoughtRun(f: Fill)
    requires Belongs("c", Taken(), f)
    ensures Moves(Hundred(), Bought(f)) == Buying(true, Taken().(stage := Settled, trail := [f], live := false))
    ensures Sound(Moves(Hundred(), Bought(f)))
  {
    var all := Bought(f);
    HeldHundred();
    TakenAndBound();
    FilledAndEnded(f);
    MovesAppend(Hundred(), [], all[0]);
    MovesAppend(Hundred(), [all[0]], all[1]);
    MovesAppend(Hundred(), [all[0], all[1]], all[2]);
    MovesAppend(Hundred(), [all[0], all[1], all[2]], all[3]);
    MovesAppend(Hundred(), [all[0], all[1], all[2], all[3]], all[4]);
    assert [] + [all[0]] == [all[0]] && [all[0]] + [all[1]] == [all[0], all[1]];
    assert [all[0], all[1]] + [all[2]] == [all[0], all[1], all[2]];
    assert [all[0], all[1], all[2]] + [all[3]] == [all[0], all[1], all[2], all[3]];
    assert [all[0], all[1], all[2], all[3]] + [all[4]] == all;
    FreshSound(100.0, KRW, "");
    MovesSound(Hundred(), all);
  }

  /** From a fresh sleeve: a cancel that is marked before the fills are polled leaves them uncovered. */
  lemma EarlyCloseUncovers()
    ensures var y := Moves(Hundred(), Bought(Snapshot(4.0, 10.0)));
            && Sound(y) && "c" in y.requests && Covered(y.ledger, "c", y.requests["c"])
            && !Covered(StepTerminal(y.ledger, "c", Cancelled), "c", y.requests["c"])
            && Owed(y.requests["c"], Applied(y.ledger, y.requests["c"])) == 40.0
  {
    BoughtRun(Snapshot(4.0, 10.0));
    RequestCovered(Moves(Hundred(), Bought(Snapshot(4.0, 10.0))), "c");
  }

  /** Complete at nine, polled and closed. */
  function ClosedAtNine(): seq<Move> {
    Bought(Snapshot(10.0, 9.0)) + [Poll("c", 0)] + [MarkClosed("c", Filled)]
  }

  function Nine(stage: Stage): Sys {
    Sys(State(map[KRW := 10.0], map[], map["E" := Snapshot(10.0, 9.0)],
              map["c" := Order("E", "A", Buy, KRW, 10.0, Filled)], ""),
        map["c" := Taken().(stage := stage, trail := [Snapshot(10.0, 9.0)], live := false)])
  }

  lemma PolledAtNine()
    ensures var y := Buying(true, Taken().(stage := Settled, trail := [Snapshot(10.0, 9.0)], live := false));
            Next(y, Poll("c", 0)) == Nine(Settled)
  {
    var y := Buying(true, Taken().(stage := Settled, trail := [Snapshot(10.0, 9.0)], live := false));
    assert Enabled(y, Poll("c", 0));
    assert Step(y.ledger, ApplyFill(Snapshot(10.0, 9.0))).0 == Settle(y.ledger, Snapshot(10.0, 9.0));
    assert Settle(y.ledger, Snapshot(10.0, 9.0)) == Nine(Settled).ledger;
  }

  lemma MarkedAtNine()
    ensures Next(Nine(Settled), MarkClosed("c", Filled)) == Nine(Closed)
  {
    assert Enabled(Nine(Settled), MarkClosed("c", Filled));
    assert StepTerminal(Nine(Settled).ledger, "c", Filled) == Nine(Closed).ledger;
  }

  /** From a fresh sleeve: a price corrected from 9 to 9.5 after the order was closed leaves five uncovered. */
  lemma LateCorrectionUncovers()
    ensures var y := Moves(Hundred(), ClosedAtNine());
            && Sound(y) && "c" in y.requests && Covered(y.ledger, "c", y.requests["c"])
            && var r := y.requests["c"].(trail := y.requests["c"].trail + [Snapshot(10.0, 9.5)]);
            !Covered(y.ledger, "c", r) && Owed(r, Applied(y.ledger, r)) == 5.0
  {
    BoughtRun(Snapshot(10.0, 9.0));
    PolledAtNine();
    MarkedAtNine();
    MovesAppend(Hundred(), Bought(Snapshot(10.0, 9.0)), Poll("c", 0));
    MovesAppend(Hundred(), Bought(Snapshot(10.0, 9.0)) + [Poll("c", 0)], MarkClosed("c", Filled));
    FreshSound(100.0, KRW, "");
    MovesSound(Hundred(), ClosedAtNine());
    RequestCovered(Nine(Closed), "c");
    LateCorrectionExactly(Nine(Closed), "c", Snapshot(10.0, 9.5));
  }
}
