/**
 * The whole deployment: several workers on one database, whose committed calls are those of the
 * order protocol. What the protocol guarantees holds of the committed rows.
 */
module Deployment {
  import opened SleeveTypes
  import opened MapSums
  import opened LedgerSpec
  import opened CashTheorems
  import opened SellTheorems
  import opened TableSpec
  import opened Simulation
  import opened Transactions
  import opened Protocol
  import opened ProtocolTrust

  /** The ledger calls that a sequence of moves makes, in their order. */
  ghost function CallsIn(y: Sys, moves: seq<Move>): seq<Op> {
    if moves == [] then []
    else
      var before, mid, m := CallsIn(y, moves[..|moves| - 1]), Moves(y, moves[..|moves| - 1]), moves[|moves| - 1];
      if Enabled(mid, m) && CallOf(mid, m).Some? then before + [CallOf(mid, m).value] else before
  }

  /**
   * The protocol runs the ledger. Its ledger is what its calls make of the first one, and the
   * calls meet the guards of the tables by themselves.
   */
  lemma {:induction false} MovesRunTheLedger(y: Sys, moves: seq<Move>)
    requires Sound(y)
    ensures Moves(y, moves).ledger == Run(y.ledger, CallsIn(y, moves))
    ensures Guarded(TableGuard, y.ledger, CallsIn(y, moves))
  {
    if moves != [] {
      var front, m := moves[..|moves| - 1], moves[|moves| - 1];
      var mid := Moves(y, front);
      MovesRunTheLedger(y, front);
      MovesSound(y, front);
      if Enabled(mid, m) && CallOf(mid, m).Some? {
        CallsGuarded(mid, m);
        RunAppend(y.ledger, CallsIn(y, front), CallOf(mid, m).value);
        GuardedAppend(TableGuard, y.ledger, CallsIn(y, front), CallOf(mid, m).value);
      }
    }
  }

  /** Where the moves are trusted for the cap, the calls meet its guard. */
  lemma {:induction false} CallsMeetCap(y: Sys, moves: seq<Move>)
    requires Sound(y) && TrustedMoves(CapTrusted, y, moves)
    ensures Guarded(CapGuard, y.ledger, CallsIn(y, moves))
  {
    if moves != [] {
      var front, m := moves[..|moves| - 1], moves[|moves| - 1];
      var mid := Moves(y, front);
      CallsMeetCap(y, front);
      MovesRunTheLedger(y, front);
      MovesSound(y, front);
      assert CapTrusted(mid, m);
      if Enabled(mid, m) && CallOf(mid, m).Some? {
        CallsGuarded(mid, m);
        GuardedAppend(CapGuard, y.ledger, CallsIn(y, front), CallOf(mid, m).value);
      }
    }
  }

  /** Where the moves are trusted for the open sell rows, the calls meet the guard of the sell side. */
  lemma {:induction false} CallsMeetSellSide(y: Sys, moves: seq<Move>)
    requires Sound(y) && SellSide(y) && TrustedMoves(SellTrusted, y, moves)
    ensures Guarded(SellGuard, y.ledger, CallsIn(y, moves))
  {
    if moves != [] {
      var front, m := moves[..|moves| - 1], moves[|moves| - 1];
      var mid := Moves(y, front);
      CallsMeetSellSide(y, front);
      MovesRunTheLedger(y, front);
      MovesSound(y, front);
      MovesKeepSellSide(y, front);
      assert SellTrusted(mid, m);
      if Enabled(mid, m) && CallOf(mid, m).Some? {
        CallsGuarded(mid, m);
        GuardedAppend(SellGuard, y.ledger, CallsIn(y, front), CallOf(mid, m).value);
      }
    }
  }

  /** The committed rows of a sleeve are the ledger that the protocol's moves lead to. */
  lemma DatabaseFollowsProtocol(t: Tables, events: seq<Event>, sleeve: string, y: Sys, moves: seq<Move>)
    requires Sound(y) && Represents(t, sleeve, y.ledger) && Attributed(y.ledger)
    requires CallsOf(DoAll(Database(t, None, map[], []), events).log, sleeve) == CallsIn(y, moves)
    ensures Represents(DoAll(Database(t, None, map[], []), events).committed, sleeve, Moves(y, moves).ledger)
  {
    MovesRunTheLedger(y, moves);
    WorkersAreOneLedger(t, events, sleeve, y.ledger);
  }

  /**
   * The deployment is safe. However the workers' transactions interleave, if a sleeve's committed
   * calls are those of the protocol from a fresh sleeve, then its committed rows cover whatever
   * the exchange could still do with each of its orders, and what was bought covers all it could
   * still sell. Where the moves are trusted for it, the rows promise no more for sale than was
   * bought, and never overspend, fees of buys apart.
   */
  lemma DeploymentIsSafe(
    t: Tables, events: seq<Event>, sleeve: string, capital: real, base: Currency, today: string, moves: seq<Move>)
    requires 0.0 <= capital && Represents(t, sleeve, Fresh(capital, base, today))
    requires CallsOf(DoAll(Database(t, None, map[], []), events).log, sleeve)
             == CallsIn(Sys(Fresh(capital, base, today), map[]), moves)
    ensures var rows := DoAll(Database(t, None, map[], []), events).committed;
            var y := Sys(Fresh(capital, base, today), map[]);
            var z := Moves(y, moves);
            && Represents(rows, sleeve, z.ledger)
            && (forall k | k in z.requests :: Covered(z.ledger, k, z.requests[k]))
            && SharesSuffice(z)
            && (TrustedMoves(SellTrusted, y, moves) ==>
                  forall symbol: string :: 0.0 <= QuerySellAvailability(rows, sleeve, symbol, None))
            && (TrustedMoves(CapTrusted, y, moves) ==>
                  forall c: Currency ::
                    0.0 <= QueryAvailable(rows, sleeve, z.ledger.today, c)
                           + Total(RowsOf(rows.fills, sleeve), FeesWeight(c)))
  {
    var y := Sys(Fresh(capital, base, today), map[]);
    var rows := DoAll(Database(t, None, map[], []), events).committed;
    FreshSound(capital, base, today);
    FreshTrust(capital, base, today);
    DatabaseFollowsProtocol(t, events, sleeve, y, moves);
    LedgerCoversExchange(y, moves);
    MovesKeepShares(y, moves);
    if TrustedMoves(SellTrusted, y, moves) {
      SoundRows(rows, sleeve, y, moves);
    }
    if TrustedMoves(CapTrusted, y, moves) {
      CappedRows(rows, sleeve, y, moves);
    }
  }

  lemma SoundRows(rows: Tables, sleeve: string, y: Sys, moves: seq<Move>)
    requires Sound(y) && SellSide(y) && TrustedMoves(SellTrusted, y, moves)
    requires Represents(rows, sleeve, Moves(y, moves).ledger)
    ensures forall symbol: string :: 0.0 <= QuerySellAvailability(rows, sleeve, symbol, None)
  {
    var z := Moves(y, moves);
    MovesRunTheLedger(y, moves);
    CallsMeetSellSide(y, moves);
    NoOversell(y.ledger, CallsIn(y, moves));
    forall symbol: string ensures 0.0 <= QuerySellAvailability(rows, sleeve, symbol, None) {
      SellAvailabilityAgrees(rows, sleeve, z.ledger, symbol, None);
      assert 0.0 <= AvailableToSell(z.ledger, symbol);
    }
  }

  lemma CappedRows(rows: Tables, sleeve: string, y: Sys, moves: seq<Move>)
    requires Sound(y) && WithinCap(y.ledger) && TrustedMoves(CapTrusted, y, moves)
    requires Represents(rows, sleeve, Moves(y, moves).ledger)
    ensures var date := Moves(y, moves).ledger.today;
            forall c: Currency ::
              0.0 <= QueryAvailable(rows, sleeve, date, c) + Total(RowsOf(rows.fills, sleeve), FeesWeight(c))
  {
    var z := Moves(y, moves);
    MovesWithinCap(y, moves);
    RowsUnique(rows.fills, sleeve, z.ledger.snapshots);
    forall c: Currency
      ensures 0.0 <= QueryAvailable(rows, sleeve, z.ledger.today, c) + Total(RowsOf(rows.fills, sleeve), FeesWeight(c))
    {
      AvailableAgrees(rows, sleeve, z.ledger, c);
      assert 0.0 <= Available(z.ledger, c) + BuyFees(z.ledger, c);
    }
  }
}
