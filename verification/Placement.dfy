/** A placement by the broker is a run of the whole system's moves: hold, then drop, bind or give up. */
module Placement {
  import opened SleeveTypes
  import opened LedgerSpec
  import opened Broker
  import opened Protocol

  /** An order that the broker can hold money or shares for. */
  predicate Sendable(req: OrderRequest) {
    if req.side.Buy? then ReserveAmount(req).Some? else req.quantity.Some?
  }

  function QuantityAsked(req: OrderRequest): real { if req.quantity.Some? then req.quantity.value else 0.0 }

  function HoldMove(req: OrderRequest): Move
    requires Sendable(req)
  {
    if req.side.Sell? then HoldSell(req.coid, req.ticker, req.currency, req.quantity.value)
    else if req.limit then HoldBuy(req.coid, req.ticker, req.currency, req.price.value, req.quantity.value)
    else HoldAmount(req.coid, req.ticker, req.currency, req.orderAmount.value)
  }

  /** What the system records of a request the broker has held money or shares for. */
  predicate Recorder(r: Request, req: OrderRequest)
    requires Sendable(req)
  {
    && r.symbol == req.ticker && r.side == req.side && r.currency == req.currency
    && r.quantity == QuantityAsked(req) && (req.side.Buy? ==> r.budget == ReserveAmount(req).value)
  }

  /** The ledger call that holds for an order. */
  function HoldCall(req: OrderRequest): Op
    requires Sendable(req)
  {
    if req.side.Buy? then LedgerSpec.Reserve(req.coid, ReserveAmount(req).value, req.currency)
    else LedgerSpec.ReserveSell(req.coid, "", req.ticker, req.currency, req.quantity.value)
  }

  lemma HoldCallGrants(s: State, req: OrderRequest)
    requires Sendable(req) && req.coid != ""
    ensures Step(s, HoldCall(req)) == if Holdable(s, {}, req) then (Held(s, req), Answer(true)) else (s, Answer(false))
  {}

  /** Holding for an order is a move of the system, and is refused exactly when the order cannot be covered. */
  lemma HoldIsMove(y: Sys, req: OrderRequest)
    requires Sendable(req) && Usable(y, req.coid, req.side)
    ensures Enabled(y, HoldMove(req))
    ensures var z := Next(y, HoldMove(req));
            if Holdable(y.ledger, {}, req) then
              z.ledger == Held(y.ledger, req)
              && req.coid in z.requests && z.requests[req.coid].stage.Sending? && Recorder(z.requests[req.coid], req)
            else z == y
  {
    HoldCallGrants(y.ledger, req);
    var m := HoldMove(req);
    assert m.coid == req.coid && Enabled(y, m);
    assert CallOf(y, m) == Some(HoldCall(req));
  }

  /** The move that a placement ends with. */
  function EndMove(parsed: Parsed, coid: string): Move {
    if !MayHavePlaced(parsed) then Drop(coid) else if parsed.Payload? then Bind(coid) else GiveUp(coid)
  }

  /**
   * Ending a placement is a move of the system, whenever an accepted order is read as one that
   * may have been placed and a named one was accepted under that name.
   */
  lemma EndIsMove(y: Sys, req: OrderRequest, parsed: Parsed)
    requires Sendable(req) && req.coid in y.requests && Recorder(y.requests[req.coid], req)
    requires AnswerFits(y.requests[req.coid], parsed)
    ensures Enabled(y, EndMove(parsed, req.coid))
    ensures Next(y, EndMove(parsed, req.coid)).ledger == Concluded(y.ledger, req, parsed)
  {}

  /** A move that leaves the end of a placement to the placement itself. */
  predicate LeavesEnd(m: Move, coid: string) {
    m.Other? || m.coid != coid || m.Accept? || m.Execute? || m.End? || m.Poll? || m.MarkClosed?
  }

  /** The answer is still to come, though someone may have cancelled the order meanwhile. */
  predicate AwaitsEnd(r: Request) { r.stage.Sending? || (r.stage.Closed? && r.accepted) }

  lemma NextAwaitsEnd(y: Sys, m: Move, req: OrderRequest)
    requires Sendable(req) && LeavesEnd(m, req.coid)
    requires req.coid in y.requests && AwaitsEnd(y.requests[req.coid]) && Recorder(y.requests[req.coid], req)
    ensures var z := Next(y, m);
            req.coid in z.requests && AwaitsEnd(z.requests[req.coid]) && Recorder(z.requests[req.coid], req)
  {
    if Enabled(y, m) && (m.Other? || m.coid != req.coid) {
      OtherRequestsKept(y, m, req.coid);
      assert Lookup(Next(y, m).requests, req.coid) == Some(y.requests[req.coid]);
    }
  }

  /** Such moves do not forget the request, change what was asked, or end it. */
  lemma {:induction false} StillAwaitsEnd(y: Sys, moves: seq<Move>, req: OrderRequest)
    requires Sendable(req) && forall m | m in moves :: LeavesEnd(m, req.coid)
    requires req.coid in y.requests && AwaitsEnd(y.requests[req.coid]) && Recorder(y.requests[req.coid], req)
    ensures var z := Moves(y, moves);
            req.coid in z.requests && AwaitsEnd(z.requests[req.coid]) && Recorder(z.requests[req.coid], req)
  {
    if moves != [] {
      var front, m := moves[..|moves| - 1], moves[|moves| - 1];
      StillAwaitsEnd(y, front, req);
      NextAwaitsEnd(Moves(y, front), m, req);
    }
  }

  /** What a placement has read fits what the exchange did with its order. */
  ghost predicate AnswerFits(r: Request, parsed: Parsed) {
    && AwaitsEnd(r)
    && (r.accepted ==> MayHavePlaced(parsed))
    && (parsed.Payload? && parsed.orderId != "" ==> r.accepted && r.id == parsed.orderId)
  }

  /** The POSTs of one placement: what the exchange did, and what it is trusted to say about it. */
  ghost predicate TransportTells(net: Network, from: nat, to: nat, r: Request) {
    && (forall i: nat | from <= i < to :: Truthful(net.posts(i)))
    && (r.accepted ==> exists i: nat :: from <= i < to && net.posts(i).accepted)
    && (forall i: nat | from <= i < to && NamesOrder(net.posts(i)) ::
          r.accepted && r.id == net.posts(i).attempt.response.orderId)
  }

  /** A success that names an order. */
  predicate NamesOrder(p: Post) {
    p.attempt.Answered? && Success(p.attempt.response) && p.attempt.response.orderId != ""
  }

  /** What is read always fits: it follows from what each single POST is trusted for. */
  lemma ReadingFits(net: Network, retries: nat, prep: nat, from: nat, to: nat, parsed: Parsed, r: Request)
    requires Transmitted(net, retries, true, prep, from, to, parsed)
    requires TransportTells(net, from, to, r) && AwaitsEnd(r)
    ensures AnswerFits(r, parsed)
  {
    AcceptedIsNotMissed(net, retries, prep, from, to, parsed);
    if parsed.Payload? && parsed.orderId != "" {
      PayloadIsSuccess(net, retries, true, prep, from, to, parsed);
    }
  }

  /**
   * A placement, whatever happens between its hold and its end: the moves of other orders, of
   * the exchange and of the poller, and any outcome of its POSTs. Everything stays covered, and
   * the ledger ends as the broker leaves it.
   */
  lemma PlacementKeepsCoverage(
    y: Sys, req: OrderRequest, between: seq<Move>,
    net: Network, retries: nat, prep: nat, from: nat, to: nat, parsed: Parsed)
    requires Sound(y) && Sendable(req) && Usable(y, req.coid, req.side) && Holdable(y.ledger, {}, req)
    requires forall m | m in between :: LeavesEnd(m, req.coid)
    requires Transmitted(net, retries, true, prep, from, to, parsed)
    requires var z := Moves(Next(y, HoldMove(req)), between);
             req.coid in z.requests ==> TransportTells(net, from, to, z.requests[req.coid])
    ensures Next(y, HoldMove(req)).ledger == Held(y.ledger, req)
    ensures var z := Moves(Next(y, HoldMove(req)), between);
            var end := Next(z, EndMove(parsed, req.coid));
            Sound(end) && end.ledger == Concluded(z.ledger, req, parsed)
  {
    HoldIsMove(y, req);
    NextSound(y, HoldMove(req));
    var z := Moves(Next(y, HoldMove(req)), between);
    MovesSound(Next(y, HoldMove(req)), between);
    StillAwaitsEnd(Next(y, HoldMove(req)), between, req);
    ReadingFits(net, retries, prep, from, to, parsed, z.requests[req.coid]);
    EndIsMove(z, req, parsed);
    NextSound(z, EndMove(parsed, req.coid));
  }
}
