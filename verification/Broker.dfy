/** Placing and cancelling one order over an unreliable transport, beside the ledger. */
module Broker {
  import opened SleeveTypes
  import opened MapSums
  import opened LedgerSpec
  import opened Ledger

  // ---------------------------------------------------------------- requests and answers

  datatype RawRequest = RawRequest(
    ticker: string, side: Side, limit: bool, currency: Currency,
    quantity: Option<real>, orderAmount: Option<real>, price: Option<real>, coid: string)
  {
    predicate Valid() {
      && ticker != ""
      && quantity.Some? != orderAmount.Some?
      && (quantity.Some? ==> quantity.value > 0.0)
      && (orderAmount.Some? ==> side.Buy? && !limit && orderAmount.value > 0.0)
      && (limit ==> price.Some?)
      && (price.Some? ==> price.value > 0.0)
    }
  }

  type OrderRequest = r: RawRequest | r.Valid()
    witness RawRequest("A", Buy, false, KRW, Some(1.0), None, None, "")

  datatype OrderAck = OrderAck(accepted: bool, orderId: string, coid: string)

  datatype Kind = Plain | Transport | Ambiguous

  datatype TossError = TossError(kind: Kind, status: Option<int>, code: string)

  datatype Response = Response(status: int, hasJson: bool, code: string, orderId: string)

  /** What became of one POST, and whether the exchange accepted an order for it. */
  datatype Attempt = ConnectFailure | LostAfterSend | Answered(response: Response)

  datatype Post = Post(attempt: Attempt, accepted: bool)

  /** The steps before a POST: auth headers and the account number. */
  datatype Preparation =
    | Ready
    | PlainFault(status: Option<int>, code: string)
    | TransportFault(status: Option<int>, code: string)
    | HttpFault

  datatype Parsed = Payload(orderId: string) | Fault(error: TossError) | RawHttpFault

  predicate Success(r: Response) { 200 <= r.status < 300 }

  /** Answers that do not say whether the order was taken. */
  predicate Inconclusive(r: Response) { r.status >= 500 || r.status == 429 || !r.hasJson }

  function ParseToss(r: Response, ambiguous: bool): Parsed {
    if Success(r) then Payload(r.orderId)
    else if Inconclusive(r) then
      Fault(TossError(if ambiguous then Ambiguous else Transport, Some(r.status), r.code))
    else Fault(TossError(Plain, Some(r.status), r.code))
  }

  const INVALID_TOKEN := "invalid-token"

  predicate TokenRefused(e: TossError) { e.status == Some(401) && e.code == INVALID_TOKEN }

  predicate BusinessRejection(e: TossError) { e.kind.Plain? && (e.status == Some(400) || e.status == Some(422)) }

  // ---------------------------------------------------------------- the network

  /** The network: an arbitrary script of outcomes, consumed in order. */
  class Network {
    const posts: nat -> Post
    const preparations: nat -> Preparation
    var sent: nat
    var prepared: nat

    constructor (posts: nat -> Post, preparations: nat -> Preparation)
      ensures this.posts == posts && this.preparations == preparations && sent == 0 && prepared == 0
    {
      this.posts, this.preparations, sent, prepared := posts, preparations, 0, 0;
    }
  }

  /** What the exchange is trusted for: an error in so many words, or no connection, is not an order. */
  ghost predicate Truthful(p: Post) {
    match p.attempt
    case ConnectFailure => !p.accepted
    case LostAfterSend => true
    case Answered(r) =>
      if 200 <= r.status < 300 then p.accepted ==> r.hasJson && r.orderId != ""
      else !r.hasJson || r.status == 409 || r.status == 429 || r.status >= 500 || !p.accepted
  }

  /** A POST that was refused for its token, before it could do anything. */
  predicate RefusedToken(p: Post) {
    && p.attempt.Answered?
    && var r := ParseToss(p.attempt.response, true);
       r.Fault? && r.error.kind.Plain? && TokenRefused(r.error)
  }

  /** A POST after which another one may follow. */
  predicate Harmless(p: Post) { p.attempt.ConnectFailure? || RefusedToken(p) }

  lemma HarmlessNotAccepted(p: Post)
    requires Truthful(p) && Harmless(p)
    ensures !p.accepted
  {}

  /** A token is refused in so many words: a 401 that names the token. */
  lemma RefusedTokenExactly(p: Post)
    ensures RefusedToken(p) <==>
              p.attempt.Answered? && p.attempt.response.status == 401 && p.attempt.response.hasJson
              && p.attempt.response.code == "invalid-token"
  {}

  /** What the last POST of a call is read as. */
  function ReadLast(p: Post, ambiguous: bool): Parsed {
    match p.attempt
    case ConnectFailure => Fault(TossError(Transport, None, ""))
    case LostAfterSend => Fault(TossError(if ambiguous then Ambiguous else Transport, None, ""))
    case Answered(r) => ParseToss(r, ambiguous)
  }

  /** What a call is read as that failed before its POST. */
  function ReadFault(p: Preparation): Parsed
    requires !p.Ready?
  {
    match p
    case PlainFault(status, code) => Fault(TossError(Plain, status, code))
    case TransportFault(status, code) => Fault(TossError(Transport, status, code))
    case HttpFault => RawHttpFault
  }

  /** The POSTs of one send: again while the connection itself failed and attempts remain, and not otherwise. */
  ghost predicate OneSend(posts: nat -> Post, from: nat, to: nat, retries: nat) {
    && from < to <= from + retries + 1
    && (forall i: nat | from <= i < to - 1 :: posts(i).attempt.ConnectFailure?)
    && (posts(to - 1).attempt.ConnectFailure? ==> to == from + retries + 1)
  }

  /**
   * What one authenticated POST makes of the network: it ends on the first preparation that
   * fails, or on its last attempt; a refused token is renewed and sent again, once.
   */
  ghost predicate Transmitted(
    net: Network, retries: nat, ambiguous: bool, prep: nat, from: nat, to: nat, r: Parsed)
  {
    if !net.preparations(prep).Ready? then to == from && r == ReadFault(net.preparations(prep))
    else
      exists mid: nat :: OneSend(net.posts, from, mid, retries) &&
        if !RefusedToken(net.posts(mid - 1)) then to == mid && r == ReadLast(net.posts(mid - 1), ambiguous)
        else if !net.preparations(prep + 1).Ready? then to == mid && r == ReadFault(net.preparations(prep + 1))
        else OneSend(net.posts, mid, to, retries) && r == ReadLast(net.posts(to - 1), ambiguous)
  }

  /** The call is read as one that may have placed the order. */
  predicate MayHavePlaced(r: Parsed) {
    match r
    case Payload(orderId) => orderId != ""
    case Fault(e) => e.kind.Ambiguous? || e.status == Some(409)
    case RawHttpFault => false
  }

  /** All POSTs of a call but the last are ones after which another may follow. */
  lemma EarlierHarmless(net: Network, retries: nat, ambiguous: bool, prep: nat, from: nat, to: nat, r: Parsed)
    requires Transmitted(net, retries, ambiguous, prep, from, to, r)
    ensures from <= to
    ensures forall i: nat | from <= i < to - 1 :: Harmless(net.posts(i))
    ensures (forall i: nat | from <= i < to :: Harmless(net.posts(i)))
            || (from < to && r == ReadLast(net.posts(to - 1), ambiguous))
  {
    if net.preparations(prep).Ready? {
      var mid: nat :| OneSend(net.posts, from, mid, retries) &&
        if !RefusedToken(net.posts(mid - 1)) then to == mid && r == ReadLast(net.posts(mid - 1), ambiguous)
        else if !net.preparations(prep + 1).Ready? then to == mid && r == ReadFault(net.preparations(prep + 1))
        else OneSend(net.posts, mid, to, retries) && r == ReadLast(net.posts(to - 1), ambiguous);
      forall i: nat | from <= i < mid - 1 ensures Harmless(net.posts(i)) {
        assert net.posts(i).attempt.ConnectFailure?;
      }
    }
  }

  /**
   * However many times an order is sent, at most the last POST can have been accepted; and when
   * one was, the call is read as one that may have placed the order.
   */
  lemma AcceptedIsNotMissed(net: Network, retries: nat, prep: nat, from: nat, to: nat, r: Parsed)
    requires Transmitted(net, retries, true, prep, from, to, r)
    requires forall i: nat | from <= i < to :: Truthful(net.posts(i))
    ensures forall i: nat | from <= i < to && net.posts(i).accepted :: i == to - 1 && MayHavePlaced(r)
  {
    EarlierHarmless(net, retries, true, prep, from, to, r);
    forall i: nat | from <= i < to && net.posts(i).accepted ensures i == to - 1 && MayHavePlaced(r) {
      if Harmless(net.posts(i)) {
        HarmlessNotAccepted(net.posts(i));
        assert false;
      }
    }
  }

  /** A payload is only ever read off a success of the last POST. */
  lemma PayloadIsSuccess(net: Network, retries: nat, ambiguous: bool, prep: nat, from: nat, to: nat, r: Parsed)
    requires Transmitted(net, retries, ambiguous, prep, from, to, r) && r.Payload?
    ensures from < to && net.posts(to - 1).attempt.Answered?
    ensures Success(net.posts(to - 1).attempt.response) && net.posts(to - 1).attempt.response.orderId == r.orderId
  {
    if net.preparations(prep).Ready? {
      var mid: nat :| OneSend(net.posts, from, mid, retries) &&
        if !RefusedToken(net.posts(mid - 1)) then to == mid && r == ReadLast(net.posts(mid - 1), ambiguous)
        else if !net.preparations(prep + 1).Ready? then to == mid && r == ReadFault(net.preparations(prep + 1))
        else OneSend(net.posts, mid, to, retries) && r == ReadLast(net.posts(to - 1), ambiguous);
    }
  }

  /** A call that got to a POST whose token was not refused is read off that POST. */
  lemma ReadOffLast(net: Network, retries: nat, ambiguous: bool, prep: nat, from: nat, to: nat, r: Parsed)
    requires Transmitted(net, retries, ambiguous, prep, from, to, r)
    ensures from < to && !RefusedToken(net.posts(to - 1)) ==> r == ReadLast(net.posts(to - 1), ambiguous)
    ensures from == to ==> !net.preparations(prep).Ready? && r == ReadFault(net.preparations(prep))
    ensures from < to && RefusedToken(net.posts(to - 1)) ==>
              r == ReadLast(net.posts(to - 1), ambiguous)
              || (!net.preparations(prep + 1).Ready? && r == ReadFault(net.preparations(prep + 1)))
  {
    if net.preparations(prep).Ready? {
      var mid: nat :| OneSend(net.posts, from, mid, retries) &&
        if !RefusedToken(net.posts(mid - 1)) then to == mid && r == ReadLast(net.posts(mid - 1), ambiguous)
        else if !net.preparations(prep + 1).Ready? then to == mid && r == ReadFault(net.preparations(prep + 1))
        else OneSend(net.posts, mid, to, retries) && r == ReadLast(net.posts(to - 1), ambiguous);
    }
  }

  datatype Result = Ack(ack: OrderAck) | Raise(error: TossError)

  function Reject(req: OrderRequest): Result { Ack(OrderAck(false, "", req.coid)) }

  /** The amount a buy reserves; None when it cannot be capped. */
  function ReserveAmount(req: OrderRequest): (amount: Option<real>)
    ensures amount.Some? ==> amount.value > 0.0
    ensures amount.None? <==> req.orderAmount.None? && !req.limit
    ensures req.limit ==> amount == Some(Notional(req.price.value, req.quantity.value))
    ensures !req.limit ==> amount == req.orderAmount
  {
    if req.limit && req.price.Some? && req.quantity.Some? then
      Positive(req.price.value, req.quantity.value);
      Some(req.price.value * req.quantity.value)
    else req.orderAmount
  }

  lemma Positive(a: real, b: real)
    requires a > 0.0 && b > 0.0
    ensures a * b > 0.0
  {}

  /** The sleeve may send the order: it is attributed, not denied, and covered by its own money or shares. */
  ghost predicate Holdable(s: State, denylist: set<string>, req: OrderRequest) {
    && req.coid != ""
    && if req.side.Buy? then
         && req.ticker !in denylist
         && ReserveAmount(req).Some?
         && ReserveAmount(req).value <= Available(s, req.currency) + HeldIn(s.reserved, req.coid, req.currency)
       else req.quantity.Some? && req.quantity.value <= SellAvailability(s, req.ticker, Some(req.coid))
  }

  /** Something is still held for the order: its reservation, or its open sell row. */
  ghost predicate Holding(s: State, req: OrderRequest) {
    if req.side.Buy? then
      && ReserveAmount(req).Some?
      && Lookup(s.reserved, req.coid) == Some(Reservation(req.currency, ReserveAmount(req).value))
    else
      && req.quantity.Some?
      && req.coid in s.orders
      && s.orders[req.coid].side.Sell? && s.orders[req.coid].status.Pending?
      && s.orders[req.coid].symbol == req.ticker && s.orders[req.coid].quantity == req.quantity.value
  }

  /** Nothing a caller can ask about money or sellable quantity differs. */
  ghost predicate SameAvailability(s: State, t: State) {
    && (forall c: Currency :: Available(t, c) == Available(s, c))
    && (forall ticker: string :: AvailableToSell(t, ticker) == AvailableToSell(s, ticker))
  }

  lemma RejectedRowIsInert(s: State, coid: string, row: Order)
    requires IdleId(s, coid) && row.status.Rejected?
    ensures SameAvailability(s, s.(orders := s.orders[coid := row]))
  {
    var t := s.(orders := s.orders[coid := row]);
    forall ticker: string ensures AvailableToSell(t, ticker) == AvailableToSell(s, ticker) {
      TotalUpdate(s.orders, coid, row, OpenWeight(s.snapshots, ticker));
      assert PositionList(t) == PositionList(s);
    }
  }

  /** The state once a request holds its money or shares. */
  ghost function Held(s: State, req: OrderRequest): State
    requires if req.side.Buy? then ReserveAmount(req).Some? else req.quantity.Some?
  {
    if req.side.Buy? then s.(reserved := s.reserved[req.coid := Reservation(req.currency, ReserveAmount(req).value)])
    else s.(orders := Recorded(s.orders, req.coid, "", req.ticker, Sell, req.currency, req.quantity.value))
  }

  /** The state once they are given back. */
  ghost function Unwound(s: State, req: OrderRequest): State {
    if req.side.Buy? then s.(reserved := s.reserved - {req.coid}) else StepTerminal(s, req.coid, Rejected)
  }

  /** The state once a placement has ended: given back, recorded, or still held. */
  ghost function Concluded(s: State, req: OrderRequest, parsed: Parsed): State {
    if !MayHavePlaced(parsed) then Unwound(s, req)
    else if parsed.Payload? then
      s.(orders := Recorded(s.orders, req.coid, parsed.orderId, req.ticker, req.side, req.currency,
                            if req.quantity.Some? then req.quantity.value else 0.0))
    else s
  }

  /** Holding and giving back leaves every availability as it was. */
  lemma UnwindRestores(s: State, during: State, after: State, req: OrderRequest)
    requires IdleId(s, req.coid) && (if req.side.Buy? then ReserveAmount(req).Some? else req.quantity.Some?)
    requires during == Held(s, req) && after == Unwound(during, req)
    ensures SameAvailability(s, after)
  {
    if req.side.Buy? {
      assert after.reserved == s.reserved;
      assert after == s;
    } else {
      assert after.reserved == s.reserved;
      assert after.orders == s.orders[req.coid := after.orders[req.coid]];
      RejectedRowIsInert(s, req.coid, after.orders[req.coid]);
      assert after == s.(orders := s.orders[req.coid := after.orders[req.coid]]);
    }
  }

  /** What the caller gets for each way a call can be read; a conflict may be answered with a remembered ack. */
  function ReplyTo(parsed: Parsed, req: OrderRequest, remembered: Option<OrderAck>): Result {
    match parsed
    case Payload(orderId) =>
      if orderId == "" then Raise(TossError(Plain, None, "")) else Ack(OrderAck(true, orderId, req.coid))
    case RawHttpFault => Raise(TossError(Transport, None, ""))
    case Fault(e) =>
      if e.status == Some(409) then
        if remembered.Some? then Ack(remembered.value) else Raise(TossError(Ambiguous, e.status, e.code))
      else if BusinessRejection(e) then Reject(req)
      else Raise(e)
  }

  /** The result says that nothing is held any more. */
  predicate Released(r: Result) {
    match r
    case Ack(ack) => !ack.accepted
    case Raise(e) => !e.kind.Ambiguous?
  }

  /** A covered order was sent, and reply and ledger follow from what the network made of it. */
  ghost predicate Placed(
    net: Network, retries: nat, prep: nat, from: nat, to: nat, s: State, t: State, req: OrderRequest, r: Result)
    requires if req.side.Buy? then ReserveAmount(req).Some? else req.quantity.Some?
  {
    exists parsed ::
      && Transmitted(net, retries, true, prep, from, to, parsed)
      && r == ReplyTo(parsed, req, None)
      && t == Concluded(Held(s, req), req, parsed)
  }

  lemma RepliesTell(parsed: Parsed, req: OrderRequest)
    ensures Released(ReplyTo(parsed, req, None)) <==> !MayHavePlaced(parsed)
  {}

  /** A release restored every availability, any other end still holds, and an accepted POST was the last and held. */
  ghost predicate SafeEnd(net: Network, from: nat, to: nat, s: State, t: State, req: OrderRequest, r: Result) {
    && (if Released(r) then SameAvailability(s, t) else Holding(t, req))
    && (forall i: nat | from <= i < to - 1 :: Harmless(net.posts(i)))
    && ((forall i: nat | from <= i < to :: Truthful(net.posts(i))) ==>
          forall i: nat | from <= i < to && net.posts(i).accepted :: i == to - 1 && !Released(r))
  }

  /** What is given back restores every availability, and what is not is still held. */
  lemma ConcludedEnds(s: State, req: OrderRequest, parsed: Parsed)
    requires IdleId(s, req.coid) && (if req.side.Buy? then ReserveAmount(req).Some? else req.quantity.Some?)
    ensures var t := Concluded(Held(s, req), req, parsed);
            if MayHavePlaced(parsed) then Holding(t, req) else SameAvailability(s, t)
    ensures parsed.Payload? && parsed.orderId != "" ==>
              Lookup(Concluded(Held(s, req), req, parsed).orders, req.coid) ==
                Some(Order(parsed.orderId, req.ticker, req.side, req.currency,
                           if req.quantity.Some? then req.quantity.value else 0.0, Pending))
  {
    if !MayHavePlaced(parsed) {
      UnwindRestores(s, Held(s, req), Concluded(Held(s, req), req, parsed), req);
    }
  }

  /**
   * A placement is safe. On an idle client order id: a rejection or a plain error leaves every
   * availability as it was; any other outcome still holds the money or the shares; and if the
   * exchange accepted a POST, it was the last one and the outcome is one that still holds.
   */
  lemma PlacedIsSafe(
    net: Network, retries: nat, prep: nat, from: nat, to: nat, s: State, t: State, req: OrderRequest, r: Result)
    requires IdleId(s, req.coid)
    requires if req.side.Buy? then ReserveAmount(req).Some? else req.quantity.Some?
    requires Placed(net, retries, prep, from, to, s, t, req, r)
    ensures SafeEnd(net, from, to, s, t, req, r)
    ensures r.Ack? && r.ack.accepted ==>
              && r.ack.orderId != ""
              && Lookup(t.orders, req.coid) ==
                   Some(Order(r.ack.orderId, req.ticker, req.side, req.currency,
                              if req.quantity.Some? then req.quantity.value else 0.0, Pending))
  {
    var parsed :|
      && Transmitted(net, retries, true, prep, from, to, parsed)
      && r == ReplyTo(parsed, req, None)
      && t == Concluded(Held(s, req), req, parsed);
    EarlierHarmless(net, retries, true, prep, from, to, parsed);
    RepliesTell(parsed, req);
    ConcludedEnds(s, req, parsed);
    if forall i: nat | from <= i < to :: Truthful(net.posts(i)) {
      AcceptedIsNotMissed(net, retries, prep, from, to, parsed);
    }
  }

  /**
   * The replies to a sent order, by what the last POST met. Nothing is known after a lost answer,
   * a 5xx, a 429, a 409, or an answer without a JSON body: the caller is told so, and what was
   * held stays held. A 400 or 422 is a rejection, any other error is passed on, and with those
   * what was held is given back.
   */
  ghost predicate RepliesAsMet(attempt: Attempt, req: OrderRequest, s: State, t: State, r: Result)
    requires if req.side.Buy? then ReserveAmount(req).Some? else req.quantity.Some?
  {
    match attempt
    case LostAfterSend => r == Raise(TossError(Ambiguous, None, "")) && Holding(t, req)
    case ConnectFailure => r == Raise(TossError(Transport, None, "")) && t == Unwound(Held(s, req), req)
    case Answered(a) =>
      if 200 <= a.status < 300 then
        if a.orderId != "" then r == Ack(OrderAck(true, a.orderId, req.coid)) && Holding(t, req)
        else r == Raise(TossError(Plain, None, "")) && t == Unwound(Held(s, req), req)
      else if a.status == 409 || a.status == 429 || a.status >= 500 || !a.hasJson then
        r == Raise(TossError(Ambiguous, Some(a.status), a.code)) && Holding(t, req)
      else if a.status == 400 || a.status == 422 then
        r == Ack(OrderAck(false, "", req.coid)) && t == Unwound(Held(s, req), req)
      else r == Raise(TossError(Plain, Some(a.status), a.code)) && t == Unwound(Held(s, req), req)
  }

  /** Every order that got to a POST whose token was not refused is answered by that table. */
  lemma PlacedIsAnswered(
    net: Network, retries: nat, prep: nat, from: nat, to: nat, s: State, t: State, req: OrderRequest, r: Result)
    requires if req.side.Buy? then ReserveAmount(req).Some? else req.quantity.Some?
    requires Placed(net, retries, prep, from, to, s, t, req, r)
    ensures from < to && !RefusedToken(net.posts(to - 1)) ==> RepliesAsMet(net.posts(to - 1).attempt, req, s, t, r)
  {
    var parsed :|
      && Transmitted(net, retries, true, prep, from, to, parsed)
      && r == ReplyTo(parsed, req, None)
      && t == Concluded(Held(s, req), req, parsed);
    ReadOffLast(net, retries, true, prep, from, to, parsed);
    HeldHolds(s, req);
  }

  /** Both consequences of a placement. */
  lemma PlacedEnds(
    net: Network, retries: nat, prep: nat, from: nat, to: nat, s: State, t: State, req: OrderRequest, r: Result)
    requires if req.side.Buy? then ReserveAmount(req).Some? else req.quantity.Some?
    requires Placed(net, retries, prep, from, to, s, t, req, r)
    ensures from < to && !RefusedToken(net.posts(to - 1)) ==> RepliesAsMet(net.posts(to - 1).attempt, req, s, t, r)
    ensures IdleId(s, req.coid) ==> SafeEnd(net, from, to, s, t, req, r)
  {
    PlacedIsAnswered(net, retries, prep, from, to, s, t, req, r);
    if IdleId(s, req.coid) {
      PlacedIsSafe(net, retries, prep, from, to, s, t, req, r);
    }
  }

  lemma HeldHolds(s: State, req: OrderRequest)
    requires if req.side.Buy? then ReserveAmount(req).Some? else req.quantity.Some?
    ensures Holding(Held(s, req), req)
  {}

  /** The list of denied tickers stops their buys, and nothing else. */
  lemma DenylistExactly(s: State, denylist: set<string>, req: OrderRequest)
    ensures Holdable(s, denylist, req) <==> Holdable(s, {}, req) && (req.side.Buy? ==> req.ticker !in denylist)
  {}

  // ---------------------------------------------------------------- placing again after an ambiguous result

  /** What is held pays for the whole of an order. */
  ghost predicate Covers(s: State, req: OrderRequest) {
    if req.side.Buy? then
      ReserveAmount(req).Some? && ReserveAmount(req).value <= HeldIn(s.reserved, req.coid, req.currency)
    else
      && req.quantity.Some?
      && req.quantity.value <= WeightAt(s.orders, req.coid, OpenWeight(s.snapshots, req.ticker))
  }

  /** A second placement under the same client order id that keeps the first one covered. */
  predicate KeepsFirst(s: State, req: OrderRequest, retry: OrderRequest, parsed: Parsed) {
    if req.side.Buy? then
      && MayHavePlaced(parsed)
      && (retry.side.Buy? ==>
            && retry.currency == req.currency
            && ReserveAmount(req).Some? && ReserveAmount(retry).Some?
            && ReserveAmount(req).value <= ReserveAmount(retry).value)
    else
      && req.quantity.Some? && req.coid in s.orders
      && if retry.side.Buy? then
           !(MayHavePlaced(parsed) && parsed.Payload?)
           && req.quantity.value <= s.orders[req.coid].quantity - FilledOf(s.snapshots, s.orders[req.coid].orderId)
         else
           && MayHavePlaced(parsed) && retry.quantity.Some? && retry.ticker == req.ticker
           && req.quantity.value <= retry.quantity.value - FilledOf(
                s.snapshots, if parsed.Payload? then parsed.orderId else s.orders[req.coid].orderId)
  }

  lemma RetryOverBuy(s: State, req: OrderRequest, retry: OrderRequest, denylist: set<string>, parsed: Parsed)
    requires Holding(s, req) && retry.coid == req.coid && Holdable(s, denylist, retry) && req.side.Buy?
    ensures Covers(Concluded(Held(s, retry), retry, parsed), req) <==> KeepsFirst(s, req, retry, parsed)
  {}

  lemma RetryOverSell(s: State, req: OrderRequest, retry: OrderRequest, denylist: set<string>, parsed: Parsed)
    requires Holding(s, req) && retry.coid == req.coid && Holdable(s, denylist, retry) && req.side.Sell?
    ensures Covers(Concluded(Held(s, retry), retry, parsed), req) <==> KeepsFirst(s, req, retry, parsed)
  {}

  /**
   * Which retries leave the first order uncovered. An order may be live after an ambiguous
   * result; placing again under its client order id keeps it covered exactly when the second
   * call may itself have placed an order that is no smaller. A retry that is refused or fails
   * in so many words gives back what the first one held.
   */
  lemma RetryKeepsFirstExactly(s: State, req: OrderRequest, retry: OrderRequest, denylist: set<string>, parsed: Parsed)
    requires Holding(s, req) && retry.coid == req.coid && Holdable(s, denylist, retry)
    ensures Covers(Concluded(Held(s, retry), retry, parsed), req) <==> KeepsFirst(s, req, retry, parsed)
    ensures retry == req && !MayHavePlaced(parsed) ==> !Covers(Concluded(Held(s, retry), retry, parsed), req)
  {
    if req.side.Buy? {
      RetryOverBuy(s, req, retry, denylist, parsed);
    } else {
      RetryOverSell(s, req, retry, denylist, parsed);
    }
  }

  /**
   * No retry is safe to send. Whatever is sent again under the client order id of an order that
   * may be live, some end of it leaves that order uncovered: a plain refusal, or, for a buy sent
   * over a sale, a success.
   */
  lemma NoRetryIsSafe(s: State, req: OrderRequest, retry: OrderRequest, denylist: set<string>)
    requires Holding(s, req) && retry.coid == req.coid && Holdable(s, denylist, retry)
    ensures var refused := Fault(TossError(Plain, Some(400), ""));
            req.side.Buy? || retry.side.Sell? ==> !Covers(Concluded(Held(s, retry), retry, refused), req)
    ensures forall id | id != "" && req.side.Sell? && retry.side.Buy? ::
              !Covers(Concluded(Held(s, retry), retry, Payload(id)), req)
    ensures exists parsed :: !Covers(Concluded(Held(s, retry), retry, parsed), req)
  {
    var refused := Fault(TossError(Plain, Some(400), ""));
    RetryKeepsFirstExactly(s, req, retry, denylist, refused);
    forall id | id != "" && req.side.Sell? && retry.side.Buy?
      ensures !Covers(Concluded(Held(s, retry), retry, Payload(id)), req)
    {
      RetryKeepsFirstExactly(s, req, retry, denylist, Payload(id));
    }
    if req.side.Buy? || retry.side.Sell? {
      assert !Covers(Concluded(Held(s, retry), retry, refused), req);
    } else {
      assert !Covers(Concluded(Held(s, retry), retry, Payload("x")), req);
    }
  }

  function SampleBuy(): OrderRequest { RawRequest("A", Buy, true, KRW, Some(10.0), None, Some(10.0), "c") }

  /** From a fresh sleeve: the first order may be live, and its refused retry gives back all it held. */
  lemma RefusedRetryUncovers()
    ensures var s := Held(Fresh(100.0, KRW, ""), SampleBuy());
            var refused := Fault(TossError(Plain, Some(400), ""));
            && Holdable(Fresh(100.0, KRW, ""), {}, SampleBuy()) && Holdable(s, {}, SampleBuy())
            && Covers(s, SampleBuy())
            && !Covers(Concluded(Held(s, SampleBuy()), SampleBuy(), refused), SampleBuy())
  {
    var fresh0 := Fresh(100.0, KRW, "");
    var s := Held(fresh0, SampleBuy());
    assert ReserveAmount(SampleBuy()) == Some(100.0);
    assert Available(fresh0, KRW) == 100.0;
    TotalUpdate(fresh0.reserved, "c", Reservation(KRW, 100.0), ReservedWeight(KRW));
    assert Available(s, KRW) == 0.0;
    RetryKeepsFirstExactly(s, SampleBuy(), SampleBuy(), {}, Fault(TossError(Plain, Some(400), "")));
  }

  // ---------------------------------------------------------------- the broker

  /** An agreed cancel, a refused one, or an exception. */
  datatype Cancellation = Agreed | Refused | Failed(cause: Parsed)

  function ReadCancel(parsed: Parsed): Cancellation {
    match parsed
    case Payload(_) => Agreed
    case RawHttpFault => Failed(parsed)
    case Fault(e) => if BusinessRejection(e) then Refused else Failed(parsed)
  }

  /** A preparation that is a rejection by status. */
  predicate RejectsEarly(p: Preparation) {
    p.PlainFault? && (p.status == Some(400) || p.status == Some(422))
  }

  /**
   * The replies to a cancel, by what the last POST met: agreed on a 2xx, refused on a 400 or 422
   * with a JSON body, and an exception on everything else.
   */
  ghost predicate CancelsAsMet(net: Network, prep: nat, from: nat, to: nat, done: Cancellation) {
    if from == to then
      if RejectsEarly(net.preparations(prep)) then done.Refused? else done.Failed?
    else if from > to then false
    else
      match net.posts(to - 1).attempt
      case LostAfterSend => done.Failed?
      case ConnectFailure => done.Failed?
      case Answered(a) =>
        if 200 <= a.status < 300 then done.Agreed?
        else if a.status == 401 && a.hasJson && a.code == "invalid-token" then
          done.Failed? || (done.Refused? && RejectsEarly(net.preparations(prep + 1)))
        else if a.hasJson && (a.status == 400 || a.status == 422) then done.Refused?
        else done.Failed?
  }

  lemma CancelReads(net: Network, retries: nat, prep: nat, from: nat, to: nat, parsed: Parsed)
    requires Transmitted(net, retries, false, prep, from, to, parsed)
    ensures CancelsAsMet(net, prep, from, to, ReadCancel(parsed))
    ensures ReadCancel(parsed).Agreed? ==>
              from < to && net.posts(to - 1).attempt.Answered? && Success(net.posts(to - 1).attempt.response)
  {
    if parsed.Payload? {
      PayloadIsSuccess(net, retries, false, prep, from, to, parsed);
    }
    EarlierHarmless(net, retries, false, prep, from, to, parsed);
    ReadOffLast(net, retries, false, prep, from, to, parsed);
    if from < to {
      RefusedTokenExactly(net.posts(to - 1));
    }
  }

  class TossBroker {
    const ledger: InMemorySleeveLedger
    const net: Network
    const denylist: set<string>
    const transportRetries: nat
    var acks: map<string, OrderAck>

    /** Only acks of accepted orders are remembered, under their own client order ids. */
    ghost predicate Valid()
      reads this
    {
      forall k | k in acks :: acks[k].accepted && acks[k].coid == k && acks[k].orderId != ""
    }

    constructor (ledger: InMemorySleeveLedger, net: Network, denylist: set<string>, transportRetries: nat)
      ensures this.ledger == ledger && this.net == net && this.denylist == denylist
      ensures this.transportRetries == transportRetries && acks == map[] && Valid()
    {
      this.ledger, this.net, this.denylist, this.transportRetries := ledger, net, denylist, transportRetries;
      acks := map[];
    }

    /** Sends one POST, again only while the connection itself failed and attempts remain. */
    method Send(ambiguous: bool) returns (r: Parsed, answer: Option<Response>)
      modifies net
      ensures net.prepared == old(net.prepared)
      ensures OneSend(net.posts, old(net.sent), net.sent, transportRetries)
      ensures var last := net.posts(net.sent - 1);
              && (answer.Some? <==> last.attempt.Answered?)
              && (answer.Some? ==> answer.value == last.attempt.response)
              && (answer.None? ==> r == ReadLast(last, ambiguous))
    {
      var tries := 0;
      while tries < transportRetries + 1
        invariant tries <= transportRetries + 1
        invariant net.sent == old(net.sent) + tries && net.prepared == old(net.prepared)
        invariant forall i | old(net.sent) <= i < net.sent :: net.posts(i).attempt.ConnectFailure?
      {
        var post := net.posts(net.sent);
        net.sent := net.sent + 1;
        match post.attempt {
          case Answered(response) => return RawHttpFault, Some(response);
          case ConnectFailure => tries := tries + 1;
          case LostAfterSend =>
            return Fault(TossError(if ambiguous then Ambiguous else Transport, None, "")), None;
        }
      }
      return Fault(TossError(Transport, None, "")), None;
    }

    /** Auth headers and account number; a fault here comes before the POST. */
    method Prepare() returns (fault: Option<Parsed>)
      modifies net
      ensures net.sent == old(net.sent) && net.prepared == old(net.prepared) + 1
      ensures var p := net.preparations(old(net.prepared)); fault == if p.Ready? then None else Some(ReadFault(p))
    {
      var p := net.preparations(net.prepared);
      net.prepared := net.prepared + 1;
      match p
      case Ready => fault := None;
      case PlainFault(status, code) => fault := Some(Fault(TossError(Plain, status, code)));
      case TransportFault(status, code) => fault := Some(Fault(TossError(Transport, status, code)));
      case HttpFault => fault := Some(RawHttpFault);
    }

    /** One authenticated POST; a refused token is renewed and the POST sent once more. */
    method PostOrder(ambiguous: bool) returns (r: Parsed)
      modifies net
      ensures Transmitted(net, transportRetries, ambiguous, old(net.prepared), old(net.sent), net.sent, r)
    {
      var fault := Prepare();
      if fault.Some? {
        return fault.value;
      }
      var sentResult, answer := Send(ambiguous);
      ghost var mid := net.sent;
      if answer.None? {
        return sentResult;
      }
      r := ParseToss(answer.value, ambiguous);
      if !r.Fault? || !TokenRefused(r.error) || !r.error.kind.Plain? {
        return r;
      }
      assert OneSend(net.posts, old(net.sent), mid, transportRetries) && RefusedToken(net.posts(mid - 1));
      fault := Prepare();
      if fault.Some? {
        return fault.value;
      }
      sentResult, answer := Send(ambiguous);
      r := if answer.Some? then ParseToss(answer.value, ambiguous) else sentResult;
    }

    /** The order was certainly not placed: give back what was held for it. */
    method Unwind(req: OrderRequest)
      requires ledger.Valid() && req.coid != ""
      modifies ledger
      ensures ledger.Valid()
      ensures ledger.Abstract() == Unwound(old(ledger.Abstract()), req)
    {
      if req.side.Buy? {
        ledger.Release(req.coid);
      } else {
        ledger.MarkOrderTerminal(req.coid, Rejected);
      }
    }

    /** Holds money or shares for the order, or refuses it. */
    method Hold(req: OrderRequest) returns (held: bool)
      requires ledger.Valid()
      modifies ledger
      ensures ledger.Valid()
      ensures held <==> Holdable(old(ledger.Abstract()), denylist, req)
      ensures !held ==> ledger.Abstract() == old(ledger.Abstract())
      ensures held ==> Holding(ledger.Abstract(), req) && ledger.Abstract() == Held(old(ledger.Abstract()), req)
    {
      if req.side.Buy? {
        var amount := ReserveAmount(req);
        if req.ticker in denylist || req.coid == "" || amount.None? {
          return false;
        }
        var reply := ledger.Reserve(req.coid, amount.value, req.currency);
        held := reply == Reply.Answer(true);
      } else {
        if req.coid == "" || req.quantity.None? {
          return false;
        }
        var reply := ledger.ReserveSell(req.coid, "", req.ticker, req.currency, req.quantity.value);
        held := reply == Reply.Answer(true);
      }
    }

    /**
     * One order. A remembered order is answered from memory and one that is not covered is
     * rejected, neither of them sent; any other is sent once, and reply and ledger follow from
     * what the network made of it. On an idle client order id no accepted order is left uncovered.
     */
    method Place(req: OrderRequest) returns (r: Result)
      requires Valid() && ledger.Valid()
      modifies this, ledger, net
      ensures Valid() && ledger.Valid()
      ensures req.coid in old(acks) && req.coid != "" ==>
                && r == Ack(old(acks)[req.coid]) && acks == old(acks)
                && net.sent == old(net.sent) && net.prepared == old(net.prepared)
                && ledger.Abstract() == old(ledger.Abstract())
      ensures !(req.coid in old(acks) && req.coid != "") && !Holdable(old(ledger.Abstract()), denylist, req) ==>
                && r == Reject(req) && acks == old(acks)
                && net.sent == old(net.sent) && net.prepared == old(net.prepared)
                && ledger.Abstract() == old(ledger.Abstract())
      ensures !(req.coid in old(acks) && req.coid != "") && Holdable(old(ledger.Abstract()), denylist, req) ==>
                && Placed(net, transportRetries, old(net.prepared), old(net.sent), net.sent,
                          old(ledger.Abstract()), ledger.Abstract(), req, r)
                && acks == (if r.Ack? && r.ack.accepted then old(acks)[req.coid := r.ack] else old(acks))
                && (old(net.sent) < net.sent && !RefusedToken(net.posts(net.sent - 1)) ==>
                      RepliesAsMet(net.posts(net.sent - 1).attempt, req, old(ledger.Abstract()), ledger.Abstract(), r))
      ensures !(req.coid in old(acks) && req.coid != "") && Holdable(old(ledger.Abstract()), denylist, req)
              && IdleId(old(ledger.Abstract()), req.coid) ==>
                SafeEnd(net, old(net.sent), net.sent, old(ledger.Abstract()), ledger.Abstract(), req, r)
    {
      if req.coid != "" && req.coid in acks {
        return Ack(acks[req.coid]);
      }
      ghost var s := ledger.Abstract();
      var held := Hold(req);
      if !held {
        return Reject(req);
      }
      r := PostHeld(req, s);
    }

    /** Sends an order that holds its money or shares; its reply and what is held follow from the last POST. */
    method PostHeld(req: OrderRequest, ghost s: State) returns (r: Result)
      requires Valid() && ledger.Valid() && req.coid != "" && req.coid !in acks
      requires if req.side.Buy? then ReserveAmount(req).Some? else req.quantity.Some?
      requires ledger.Abstract() == Held(s, req)
      modifies this, ledger, net
      ensures Valid() && ledger.Valid()
      ensures Placed(net, transportRetries, old(net.prepared), old(net.sent), net.sent, s, ledger.Abstract(), req, r)
      ensures acks == if r.Ack? && r.ack.accepted then old(acks)[req.coid := r.ack] else old(acks)
      ensures old(net.sent) < net.sent && !RefusedToken(net.posts(net.sent - 1)) ==>
                RepliesAsMet(net.posts(net.sent - 1).attempt, req, s, ledger.Abstract(), r)
      ensures IdleId(s, req.coid) ==> SafeEnd(net, old(net.sent), net.sent, s, ledger.Abstract(), req, r)
    {
      r := PostAndConclude(req, s);
      PlacedEnds(net, transportRetries, old(net.prepared), old(net.sent), net.sent, s, ledger.Abstract(), req, r);
    }

    method PostAndConclude(req: OrderRequest, ghost s: State) returns (r: Result)
      requires Valid() && ledger.Valid() && req.coid != "" && req.coid !in acks
      requires if req.side.Buy? then ReserveAmount(req).Some? else req.quantity.Some?
      requires ledger.Abstract() == Held(s, req)
      modifies this, ledger, net
      ensures Valid() && ledger.Valid()
      ensures Placed(net, transportRetries, old(net.prepared), old(net.sent), net.sent, s, ledger.Abstract(), req, r)
      ensures acks == if r.Ack? && r.ack.accepted then old(acks)[req.coid := r.ack] else old(acks)
    {
      var parsed := PostOrder(true);
      r := Conclude(parsed, req);
    }

    /** Ends a placement on what the POST was read as. */
    method Conclude(parsed: Parsed, req: OrderRequest) returns (r: Result)
      requires Valid() && ledger.Valid() && req.coid != ""
      modifies this, ledger
      ensures Valid() && ledger.Valid()
      ensures r == ReplyTo(parsed, req, Lookup(old(acks), req.coid))
      ensures Released(r) <==> !MayHavePlaced(parsed)
      ensures ledger.Abstract() == Concluded(old(ledger.Abstract()), req, parsed)
      ensures acks == if parsed.Payload? && parsed.orderId != "" then old(acks)[req.coid := r.ack] else old(acks)
    {
      match parsed {
        case Fault(e) => r := HandleOrderError(e, req);
        case RawHttpFault =>
          Unwind(req);
          r := Raise(TossError(Transport, None, ""));
        case Payload(orderId) =>
          if orderId == "" {
            Unwind(req);
            r := Raise(TossError(Plain, None, ""));
          } else {
            ledger.RecordOrder(req.coid, orderId, req.ticker, req.side, req.currency,
                               if req.quantity.Some? then req.quantity.value else 0.0);
            var ack := OrderAck(true, orderId, req.coid);
            acks := acks[req.coid := ack];
            r := Ack(ack);
          }
      }
    }

    /** What an error of the order POST means for the caller and for what is held. */
    method HandleOrderError(e: TossError, req: OrderRequest) returns (r: Result)
      requires Valid() && ledger.Valid() && req.coid != ""
      modifies ledger
      ensures ledger.Valid() && unchanged(this)
      ensures r == ReplyTo(Fault(e), req, Lookup(acks, req.coid))
      ensures Released(r) <==> !MayHavePlaced(Fault(e))
      ensures ledger.Abstract() == if Released(r) then Unwound(old(ledger.Abstract()), req) else old(ledger.Abstract())
    {
      if e.status == Some(409) {
        if req.coid in acks {
          return Ack(acks[req.coid]);
        }
        return Raise(TossError(Ambiguous, e.status, e.code));
      }
      if BusinessRejection(e) {
        Unwind(req);
        return Reject(req);
      }
      if !e.kind.Ambiguous? {
        Unwind(req);
      }
      r := Raise(e);
    }

    /** Marks a row with an exchange id, if there is one under a client order id. */
    method MarkCancelled(orderId: string)
      requires ledger.Valid()
      modifies ledger
      ensures ledger.Valid()
      ensures || (ledger.Abstract() == old(ledger.Abstract())
                  && ((forall k | k in ledger.orders :: ledger.orders[k].orderId != orderId)
                      || ("" in ledger.orders && ledger.orders[""].orderId == orderId)))
              || exists coid | coid in old(ledger.orders) ::
                   old(ledger.orders)[coid].orderId == orderId
                   && ledger.Abstract() == StepTerminal(old(ledger.Abstract()), coid, Cancelled)
    {
      var coid := ledger.ClientOrderIdFor(orderId);
      if coid.Some? && coid.value != "" {
        ledger.MarkOrderTerminal(coid.value, Cancelled);
      }
    }

    /** A cancel changes the ledger only when the exchange agreed, and then marks a row with that exchange id. */
    method Cancel(orderId: string) returns (done: Cancellation)
      requires ledger.Valid()
      modifies ledger, net
      ensures ledger.Valid()
      ensures exists parsed ::
                && Transmitted(net, transportRetries, false, old(net.prepared), old(net.sent), net.sent, parsed)
                && done == ReadCancel(parsed)
      ensures CancelsAsMet(net, old(net.prepared), old(net.sent), net.sent, done)
      ensures done.Agreed? ==>
                && old(net.sent) < net.sent
                && net.posts(net.sent - 1).attempt.Answered? && Success(net.posts(net.sent - 1).attempt.response)
      ensures !done.Agreed? ==> ledger.Abstract() == old(ledger.Abstract())
      ensures done.Agreed? ==>
                || (ledger.Abstract() == old(ledger.Abstract())
                    && ((forall k | k in ledger.orders :: ledger.orders[k].orderId != orderId)
                        || ("" in ledger.orders && ledger.orders[""].orderId == orderId)))
                || exists coid | coid in old(ledger.orders) ::
                     old(ledger.orders)[coid].orderId == orderId
                     && ledger.Abstract() == StepTerminal(old(ledger.Abstract()), coid, Cancelled)
    {
      var parsed := PostOrder(false);
      done := ReadCancel(parsed);
      CancelReads(net, transportRetries, old(net.prepared), old(net.sent), net.sent, parsed);
      if done.Agreed? {
        MarkCancelled(orderId);
      }
    }
  }

  /**
   * Exactly which answers make a placement give back what it held: a success that names no
   * order, or an error in so many words other than a conflict.
   */
  lemma ReleasingAnswersExactly(p: Post)
    requires p.attempt.Answered?
    ensures var r := p.attempt.response;
            !MayHavePlaced(ReadLast(p, true))
            <==> (if Success(r) then r.orderId == "" else !Inconclusive(r) && r.status != 409)
  {}
}
