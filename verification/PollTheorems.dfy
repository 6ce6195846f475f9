/** Cumulative polls: what repeats, refusals and interleavings of snapshots can and cannot change. */
module PollTheorems {
  import opened SleeveTypes
  import opened MapSums
  import opened LedgerSpec
  import opened CashTheorems

  // ---------------------------------------------------------------- one poll

  /** Applying a snapshot twice is applying it once. */
  lemma PollIdempotent(s: State, f: Fill)
    ensures Step(Step(s, ApplyFill(f)).0, ApplyFill(f)).0 == Step(s, ApplyFill(f)).0
  {}

  /** Only a smaller cumulative quantity is refused, and a refusal changes nothing. */
  lemma RegressionRefused(s: State, f: Fill)
    ensures Step(s, ApplyFill(f)).1 == ValueError
            <==> f.orderId in s.snapshots && f.filledQuantity < s.snapshots[f.orderId].filledQuantity
    ensures Step(s, ApplyFill(f)).1 == ValueError ==> Step(s, ApplyFill(f)).0 == s
  {}

  /** The four columns that decide whether a poll says anything new. */
  predicate SameColumns(f: Fill, g: Fill) {
    f.filledQuantity == g.filledQuantity && f.avgPrice == g.avgPrice && f.commission == g.commission && f.tax == g.tax
  }

  /** A poll with the stored quantity, price, commission and tax does nothing, even if its dates are new. */
  lemma SameColumnsDropped(s: State, f: Fill)
    requires f.orderId in s.snapshots && SameColumns(f, s.snapshots[f.orderId])
    ensures Step(s, ApplyFill(f)) == (s, Done)
  {}

  /** A first poll, and one that changes a column with no smaller quantity, is what is stored then. */
  lemma ChangedColumnsStored(s: State, f: Fill)
    requires f.orderId in s.snapshots ==>
               s.snapshots[f.orderId].filledQuantity <= f.filledQuantity && !SameColumns(f, s.snapshots[f.orderId])
    ensures Step(s, ApplyFill(f)).1 == Done
    ensures Step(s, ApplyFill(f)).0.snapshots == s.snapshots[f.orderId := f]
  {}

  /** An applied snapshot closes its own row exactly when the order is complete, and touches no other row. */
  lemma FillDecidesStatus(s: State, f: Fill)
    requires FillProgress(Lookup(s.snapshots, f.orderId), f).Apply? && f.clientOrderId in s.orders
    ensures var row, t := s.orders[f.clientOrderId], Step(s, ApplyFill(f)).0.orders;
            && t.Keys == s.orders.Keys
            && t[f.clientOrderId] == row.(status := t[f.clientOrderId].status)
            && (t[f.clientOrderId].status.Filled? <==> 0.0 < row.quantity <= f.filledQuantity)
            && (t[f.clientOrderId].status.Open() <==> !t[f.clientOrderId].status.Filled?)
            && (forall k | k in t && k != f.clientOrderId :: t[k] == s.orders[k])
  {}

  /** A step that writes another exchange id into a row. */
  predicate Rebinds(op: Op, coid: string) {
    (op.RecordOrder? || op.ReserveSell?) && op.coid == coid && op.orderId != ""
  }

  lemma StepKeepsExchangeId(s: State, op: Op, coid: string)
    requires coid in s.orders && s.orders[coid].orderId != ""
    ensures coid in Step(s, op).0.orders && Step(s, op).0.orders[coid].orderId != ""
    ensures !Rebinds(op, coid) ==> Step(s, op).0.orders[coid].orderId == s.orders[coid].orderId
  {}

  /**
   * A known exchange id is never lost. Whatever is called afterwards, retries with an empty id
   * included, the row can still be found; it names another order only if it was bound to one.
   */
  lemma {:induction false} ExchangeIdNeverLost(s: State, ops: seq<Op>, coid: string)
    requires coid in s.orders && s.orders[coid].orderId != ""
    ensures coid in Run(s, ops).orders && Run(s, ops).orders[coid].orderId != ""
    ensures (forall i | 0 <= i < |ops| :: !Rebinds(ops[i], coid)) ==>
              Run(s, ops).orders[coid].orderId == s.orders[coid].orderId
  {
    if ops != [] {
      var front := ops[..|ops| - 1];
      ExchangeIdNeverLost(s, front, coid);
      StepKeepsExchangeId(Run(s, front), ops[|ops| - 1], coid);
      assert forall i | 0 <= i < |front| :: front[i] == ops[i];
    }
  }

  // ---------------------------------------------------------------- sequences of polls

  /** The snapshot kept for an order after one more poll. */
  function Keep(prev: Option<Fill>, f: Fill): Option<Fill> {
    if FillProgress(prev, f).Apply? then Some(f) else prev
  }

  /** The last accepted snapshot of one order over its own polls. */
  function Accepted(prev: Option<Fill>, polls: seq<Fill>): Option<Fill> {
    if polls == [] then prev else Keep(Accepted(prev, polls[..|polls| - 1]), polls[|polls| - 1])
  }

  /** The polls of one order within a run, in their order. */
  function PollsOf(ops: seq<Op>, orderId: string): seq<Fill> {
    if ops == [] then []
    else
      var front, op := PollsOf(ops[..|ops| - 1], orderId), ops[|ops| - 1];
      if op.ApplyFill? && op.fill.orderId == orderId then front + [op.fill] else front
  }

  lemma AcceptedAppend(prev: Option<Fill>, polls: seq<Fill>, f: Fill)
    ensures Accepted(prev, polls + [f]) == Keep(Accepted(prev, polls), f)
  {
    assert (polls + [f])[..|polls + [f]| - 1] == polls;
  }

  lemma StepKept(s: State, op: Op, orderId: string)
    ensures Lookup(Step(s, op).0.snapshots, orderId) ==
            if op.ApplyFill? && op.fill.orderId == orderId
            then Keep(Lookup(s.snapshots, orderId), op.fill) else Lookup(s.snapshots, orderId)
  {}

  /** What a run keeps for an order is decided by that order's own polls, however they are interleaved. */
  lemma {:induction false} KeptIsLastAccepted(s: State, ops: seq<Op>, orderId: string)
    ensures Lookup(Run(s, ops).snapshots, orderId)
            == Accepted(Lookup(s.snapshots, orderId), PollsOf(ops, orderId))
  {
    if ops != [] {
      var front, op := ops[..|ops| - 1], ops[|ops| - 1];
      KeptIsLastAccepted(s, front, orderId);
      StepKept(Run(s, front), op, orderId);
      if op.ApplyFill? && op.fill.orderId == orderId {
        AcceptedAppend(Lookup(s.snapshots, orderId), PollsOf(front, orderId), op.fill);
      }
    }
  }

  /** Two kept snapshots mean the same money and quantity. */
  predicate Agree(a: Option<Fill>, b: Option<Fill>) {
    a.None? == b.None?
    && (a.Some? ==>
          a.value.SameEconomics(b.value) && a.value.side == b.value.side && a.value.currency == b.value.currency)
  }

  /** Cumulative quantities that never go down. */
  ghost predicate Cumulative(prev: Option<Fill>, polls: seq<Fill>) {
    && (forall i, j | 0 <= i < j < |polls| :: polls[i].filledQuantity <= polls[j].filledQuantity)
    && (prev.Some? && polls != [] ==> prev.value.filledQuantity <= polls[0].filledQuantity)
  }

  /** Of polls that never go down, the kept snapshot is worth what the last one is worth. */
  lemma {:induction false} KeptIsLastPoll(prev: Option<Fill>, polls: seq<Fill>)
    requires polls != [] && Cumulative(prev, polls)
    ensures Accepted(prev, polls).Some?
    ensures Accepted(prev, polls).value.SameEconomics(polls[|polls| - 1])
  {
    var front := polls[..|polls| - 1];
    if front != [] {
      KeptIsLastPoll(prev, front);
    }
  }

  lemma AgreeingTables(m: map<string, Fill>, n: map<string, Fill>, c: Currency)
    requires forall id: string :: Agree(Lookup(m, id), Lookup(n, id))
    ensures Total(m, SignedWeight(c)) == Total(n, SignedWeight(c))
  {
    forall id: string ensures id in m <==> id in n {
      assert Agree(Lookup(m, id), Lookup(n, id));
    }
    forall id | id in m ensures SignedWeight(c)(m[id]) == SignedWeight(c)(n[id]) {
      assert Agree(Lookup(m, id), Lookup(n, id));
    }
    TotalCongruent(m, SignedWeight(c), n, SignedWeight(c));
  }

  /**
   * Confluence. Two runs from one state with the same cashflows, whose orders end on agreeing
   * accepted snapshots, end with the same cash in every currency and the same filled quantities.
   */
  lemma PollingConfluent(s: State, ops: seq<Op>, others: seq<Op>)
    requires Guarded(KeepsCurrency, s, ops) && Guarded(KeepsCurrency, s, others)
    requires forall c: Currency :: FlowTotal(ops, c) == FlowTotal(others, c)
    requires forall id: string ::
               Agree(Accepted(Lookup(s.snapshots, id), PollsOf(ops, id)),
                     Accepted(Lookup(s.snapshots, id), PollsOf(others, id)))
    ensures forall c: Currency :: VirtualCash(Run(s, ops), c) == VirtualCash(Run(s, others), c)
    ensures forall id: string :: FilledOf(Run(s, ops).snapshots, id) == FilledOf(Run(s, others).snapshots, id)
  {
    var t, u := Run(s, ops), Run(s, others);
    forall id: string ensures Agree(Lookup(t.snapshots, id), Lookup(u.snapshots, id)) {
      KeptIsLastAccepted(s, ops, id);
      KeptIsLastAccepted(s, others, id);
    }
    forall c: Currency ensures VirtualCash(t, c) == VirtualCash(u, c) {
      CashLaw(s, ops, c);
      CashLaw(s, others, c);
      NoDrift(s, ops, c);
      NoDrift(s, others, c);
      AgreeingTables(t.snapshots, u.snapshots, c);
    }
    forall id: string ensures FilledOf(t.snapshots, id) == FilledOf(u.snapshots, id) {
      assert Agree(Lookup(t.snapshots, id), Lookup(u.snapshots, id));
    }
  }

  /** Two runs end with the same last accepted snapshot, dates included, of every order. */
  ghost predicate SameAccepted(s: State, ops: seq<Op>, others: seq<Op>) {
    forall id: string ::
      Accepted(Lookup(s.snapshots, id), PollsOf(ops, id)) == Accepted(Lookup(s.snapshots, id), PollsOf(others, id))
  }

  /**
   * The last accepted snapshots decide. Runs that share them, in whatever interleaving they were
   * polled, list the same positions; with the same cashflows and date, what they can spend and
   * what they hold add up to the same.
   */
  lemma AcceptedSnapshotsDecide(s: State, ops: seq<Op>, others: seq<Op>)
    requires SameAccepted(s, ops, others)
    ensures Run(s, ops).snapshots == Run(s, others).snapshots
    ensures PositionList(Run(s, ops)) == PositionList(Run(s, others))
    ensures SameBooks(s, ops, others) ==>
              forall c: Currency :: Available(Run(s, ops), c) + ReservedTotal(Run(s, ops), c)
                                    == Available(Run(s, others), c) + ReservedTotal(Run(s, others), c)
  {
    var t, u := Run(s, ops).snapshots, Run(s, others).snapshots;
    forall id: string ensures Lookup(t, id) == Lookup(u, id) {
      KeptIsLastAccepted(s, ops, id);
      KeptIsLastAccepted(s, others, id);
    }
    assert forall id: string :: id in t ==> Lookup(u, id) == Lookup(t, id);
    assert forall id: string :: id in u ==> Lookup(t, id) == Lookup(u, id);
    assert t == u;
    if SameBooks(s, ops, others) {
      forall c: Currency ensures VirtualCash(Run(s, ops), c) == VirtualCash(Run(s, others), c) {
        CashLaw(s, ops, c);
        CashLaw(s, others, c);
        NoDrift(s, ops, c);
        NoDrift(s, others, c);
      }
    }
  }

  /** The same external money, the same date, and no order that changes its currency. */
  ghost predicate SameBooks(s: State, ops: seq<Op>, others: seq<Op>) {
    && Guarded(KeepsCurrency, s, ops) && Guarded(KeepsCurrency, s, others)
    && Run(s, ops).today == Run(s, others).today
    && forall c: Currency :: FlowTotal(ops, c) == FlowTotal(others, c)
  }

  // ---------------------------------------------------------------- the reservation of one buy

  /** A step that leaves one reservation and its order row to the polls of one buy order. */
  ghost predicate LeavesToPolls(op: Op, coid: string, orderId: string) {
    match op
    case Reserve(id, _, _) => id != coid
    case Release(id) => id != coid
    case RecordOrder(id, _, _, _, _, _) => id != coid
    case ReserveSell(id, _, _, _, _) => id != coid
    case MarkTerminal(id, _) => id != coid
    case ApplyFill(f) =>
      (f.orderId == orderId <==> f.clientOrderId == coid) && (f.orderId == orderId ==> f.side.Buy?)
    case _ => true
  }

  ghost function PollsOnly(coid: string, orderId: string): (State, Op) -> bool {
    (s: State, op: Op) => LeavesToPolls(op, coid, orderId)
  }

  function CostOf(f: Option<Fill>): real { if f.Some? then f.value.CostBasis() else 0.0 }

  /** A kept snapshot at which nothing stays reserved: the order is complete, or has cost the whole amount. */
  predicate Spends(kept: Option<Fill>, recordedQty: real, amount: real) {
    kept.Some? && (Complete(recordedQty, kept.value.filledQuantity) || amount <= kept.value.CostBasis())
  }

  /** Some prefix of the polls left nothing to reserve. */
  ghost predicate EverSpends(polls: seq<Fill>, recordedQty: real, amount: real) {
    exists i | 0 <= i <= |polls| :: Spends(Accepted(None, polls[..i]), recordedQty, amount)
  }

  lemma EverSpendsAppend(polls: seq<Fill>, f: Fill, recordedQty: real, amount: real)
    ensures EverSpends(polls + [f], recordedQty, amount) <==>
              EverSpends(polls, recordedQty, amount) || Spends(Accepted(None, polls + [f]), recordedQty, amount)
  {
    var all := polls + [f];
    assert all[..|all|] == all;
    assert forall i | 0 <= i <= |polls| :: all[..i] == polls[..i];
    if EverSpends(polls, recordedQty, amount) {
      var i :| 0 <= i <= |polls| && Spends(Accepted(None, polls[..i]), recordedQty, amount);
      assert Spends(Accepted(None, all[..i]), recordedQty, amount);
    }
  }

  /** What is held for one order after its polls. */
  ghost predicate HoldsRemainder(held: Option<Reservation>, first: Reservation, recordedQty: real, polls: seq<Fill>) {
    && (held.Some? <==> !EverSpends(polls, recordedQty, first.amount))
    && (held.Some? ==>
          && held.value.currency == first.currency
          && held.value.amount + CostOf(Accepted(None, polls)) == first.amount)
  }

  /** The reservation of an order after one more of its polls. */
  function HeldAfter(held: Option<Reservation>, recordedQty: real, prev: Option<Fill>, f: Fill): Option<Reservation> {
    if held.None? || !FillProgress(prev, f).Apply? then held
    else match ReservationAfterFill(recordedQty, f.filledQuantity, held.value.amount, DeltaNotional(prev, f))
      case None => None
      case Some(left) => Some(Reservation(held.value.currency, left))
  }

  lemma PollKeepsRemainder(held: Option<Reservation>, first: Reservation, recordedQty: real, polls: seq<Fill>, f: Fill)
    requires HoldsRemainder(held, first, recordedQty, polls)
    ensures HoldsRemainder(HeldAfter(held, recordedQty, Accepted(None, polls), f), first, recordedQty, polls + [f])
  {
    AcceptedAppend(None, polls, f);
    EverSpendsAppend(polls, f, recordedQty, first.amount);
    assert polls[..|polls|] == polls;
    if Spends(Accepted(None, polls), recordedQty, first.amount) {
      assert EverSpends(polls, recordedQty, first.amount);
    }
  }

  lemma ReservationStep(s: State, op: Op, coid: string, orderId: string)
    requires LeavesToPolls(op, coid, orderId)
    ensures RecordedQty(Step(s, op).0.orders, coid) == RecordedQty(s.orders, coid)
    ensures !(op.ApplyFill? && op.fill.orderId == orderId) ==>
              Lookup(Step(s, op).0.reserved, coid) == Lookup(s.reserved, coid)
    ensures op.ApplyFill? && op.fill.orderId == orderId ==>
              var prev := Lookup(s.snapshots, orderId);
              Lookup(Step(s, op).0.reserved, coid)
                == HeldAfter(Lookup(s.reserved, coid), RecordedQty(s.orders, coid), prev, op.fill)
  {}

  /**
   * The reservation law. From the first poll on, something stays reserved exactly while no
   * accepted snapshot completed the order or cost the whole amount, and then remaining
   * reservation plus filled notional is the amount first reserved.
   */
  lemma {:induction false} ReservationLaw(s: State, ops: seq<Op>, coid: string, orderId: string)
    requires coid in s.reserved && orderId !in s.snapshots
    requires Guarded(PollsOnly(coid, orderId), s, ops)
    ensures var t, polls := Run(s, ops), PollsOf(ops, orderId);
            var recorded := RecordedQty(s.orders, coid);
            RecordedQty(t.orders, coid) == recorded
            && HoldsRemainder(Lookup(t.reserved, coid), s.reserved[coid], recorded, polls)
  {
    if ops == [] {
      assert forall i | 0 <= i <= 0 :: PollsOf(ops, orderId)[..i] == [];
    } else {
      var front, op := ops[..|ops| - 1], ops[|ops| - 1];
      var t := Run(s, front);
      ReservationLaw(s, front, coid, orderId);
      KeptIsLastAccepted(s, front, orderId);
      assert PollsOnly(coid, orderId)(t, op);
      ReservationStep(t, op, coid, orderId);
      if op.ApplyFill? && op.fill.orderId == orderId {
        PollKeepsRemainder(Lookup(t.reserved, coid), s.reserved[coid], RecordedQty(s.orders, coid),
                           PollsOf(front, orderId), op.fill);
      }
    }
  }

  /** An order that is complete keeps nothing reserved, whatever its partial fills cost. */
  lemma CompleteFreesAll(s: State, ops: seq<Op>, coid: string, orderId: string)
    requires coid in s.reserved && orderId !in s.snapshots
    requires Guarded(PollsOnly(coid, orderId), s, ops)
    requires Complete(RecordedQty(s.orders, coid), FilledOf(Run(s, ops).snapshots, orderId))
    ensures coid !in Run(s, ops).reserved
  {
    ReservationLaw(s, ops, coid, orderId);
    KeptIsLastAccepted(s, ops, orderId);
    SpentAtLast(PollsOf(ops, orderId), RecordedQty(s.orders, coid), s.reserved[coid].amount);
  }

  lemma SpentAtLast(polls: seq<Fill>, recordedQty: real, amount: real)
    requires Spends(Accepted(None, polls), recordedQty, amount)
    ensures EverSpends(polls, recordedQty, amount)
  {
    assert polls[..|polls|] == polls;
  }

  /** Two polling paths to the same cost reserve the same exactly when both or neither ever overspent. */
  lemma RemainderPathFree(s: State, ops: seq<Op>, others: seq<Op>, coid: string, orderId: string)
    requires coid in s.reserved && orderId !in s.snapshots
    requires Guarded(PollsOnly(coid, orderId), s, ops) && Guarded(PollsOnly(coid, orderId), s, others)
    requires CostOf(Accepted(None, PollsOf(ops, orderId))) == CostOf(Accepted(None, PollsOf(others, orderId)))
    ensures var recorded, amount := RecordedQty(s.orders, coid), s.reserved[coid].amount;
            Lookup(Run(s, ops).reserved, coid) == Lookup(Run(s, others).reserved, coid)
            <==> (EverSpends(PollsOf(ops, orderId), recorded, amount)
                  <==> EverSpends(PollsOf(others, orderId), recorded, amount))
  {
    var first, recorded := s.reserved[coid], RecordedQty(s.orders, coid);
    ReservationLaw(s, ops, coid, orderId);
    ReservationLaw(s, others, coid, orderId);
    SameRemainder(Lookup(Run(s, ops).reserved, coid), PollsOf(ops, orderId),
                  Lookup(Run(s, others).reserved, coid), PollsOf(others, orderId), first, recorded);
  }

  lemma SameRemainder(held: Option<Reservation>, polls: seq<Fill>, held': Option<Reservation>, polls': seq<Fill>,
                      first: Reservation, recordedQty: real)
    requires HoldsRemainder(held, first, recordedQty, polls) && HoldsRemainder(held', first, recordedQty, polls')
    requires CostOf(Accepted(None, polls)) == CostOf(Accepted(None, polls'))
    ensures held == held' <==>
              (EverSpends(polls, recordedQty, first.amount) <==> EverSpends(polls', recordedQty, first.amount))
  {}

  // ---------------------------------------------------------------- all reservations at once

  /** What a reservation becomes over the polls of its order. */
  function HeldFold(held: Option<Reservation>, recordedQty: real, prev: Option<Fill>, polls: seq<Fill>):
    Option<Reservation>
  {
    if polls == [] then held
    else
      var front := polls[..|polls| - 1];
      HeldAfter(HeldFold(held, recordedQty, prev, front), recordedQty, Accepted(prev, front), polls[|polls| - 1])
  }

  lemma HeldFoldAppend(held: Option<Reservation>, recordedQty: real, prev: Option<Fill>, polls: seq<Fill>, f: Fill)
    ensures HeldFold(held, recordedQty, prev, polls + [f])
            == HeldAfter(HeldFold(held, recordedQty, prev, polls), recordedQty, Accepted(prev, polls), f)
  {
    assert (polls + [f])[..|polls + [f]| - 1] == polls;
  }

  /** What is reserved for an order after a run depends on the order's own polls alone. */
  lemma {:induction false} HeldIsFold(s: State, ops: seq<Op>, coid: string, orderId: string)
    requires Guarded(PollsOnly(coid, orderId), s, ops)
    ensures RecordedQty(Run(s, ops).orders, coid) == RecordedQty(s.orders, coid)
    ensures Lookup(Run(s, ops).reserved, coid)
            == HeldFold(Lookup(s.reserved, coid), RecordedQty(s.orders, coid), Lookup(s.snapshots, orderId),
                        PollsOf(ops, orderId))
  {
    if ops != [] {
      var front, op := ops[..|ops| - 1], ops[|ops| - 1];
      HeldIsFold(s, front, coid, orderId);
      KeptIsLastAccepted(s, front, orderId);
      assert PollsOnly(coid, orderId)(Run(s, front), op);
      ReservationStep(Run(s, front), op, coid, orderId);
      if op.ApplyFill? && op.fill.orderId == orderId {
        HeldFoldAppend(Lookup(s.reserved, coid), RecordedQty(s.orders, coid), Lookup(s.snapshots, orderId),
                       PollsOf(front, orderId), op.fill);
      }
    }
  }

  /** Nothing new is reserved, and each reservation is left to the polls of its one order. */
  ghost predicate PollsAlone(orderOf: map<string, string>, s: State, ops: seq<Op>) {
    && (forall i | 0 <= i < |ops| :: !ops[i].Reserve?)
    && (forall coid | coid in s.reserved :: coid in orderOf && Guarded(PollsOnly(coid, orderOf[coid]), s, ops))
  }

  lemma {:induction false} NothingNewReserved(s: State, ops: seq<Op>)
    requires forall i | 0 <= i < |ops| :: !ops[i].Reserve?
    ensures Run(s, ops).reserved.Keys <= s.reserved.Keys
  {
    if ops != [] {
      var front := ops[..|ops| - 1];
      assert forall i | 0 <= i < |front| :: front[i] == ops[i];
      NothingNewReserved(s, front);
      StepReservesNothing(Run(s, front), ops[|ops| - 1]);
    }
  }

  lemma StepReservesNothing(s: State, op: Op)
    requires !op.Reserve?
    ensures Step(s, op).0.reserved.Keys <= s.reserved.Keys
  {}

  /** Reservations that agree under every client order id are the same reservations. */
  lemma SameReservations(s: State, ops: seq<Op>, others: seq<Op>)
    requires forall i | 0 <= i < |ops| :: !ops[i].Reserve?
    requires forall i | 0 <= i < |others| :: !others[i].Reserve?
    ensures Run(s, ops).reserved == Run(s, others).reserved
            <==> forall coid | coid in s.reserved ::
                   Lookup(Run(s, ops).reserved, coid) == Lookup(Run(s, others).reserved, coid)
  {
    var t, u := Run(s, ops).reserved, Run(s, others).reserved;
    NothingNewReserved(s, ops);
    NothingNewReserved(s, others);
    if forall coid | coid in s.reserved :: Lookup(t, coid) == Lookup(u, coid) {
      assert forall coid :: coid in t ==> Lookup(u, coid) == Lookup(t, coid);
      assert forall coid :: coid in u ==> Lookup(t, coid) == Lookup(u, coid);
      assert t == u;
    }
  }

  /**
   * Polls of different orders can be interleaved in any way: if each order sees the same polls in
   * the same order, the snapshots end the same; where the reservations are left to those polls,
   * so do they, and so does what can be spent.
   */
  lemma InterleavingIrrelevant(s: State, ops: seq<Op>, others: seq<Op>, orderOf: map<string, string>)
    requires forall id: string :: PollsOf(ops, id) == PollsOf(others, id)
    ensures Run(s, ops).snapshots == Run(s, others).snapshots
    ensures PositionList(Run(s, ops)) == PositionList(Run(s, others))
    ensures PollsAlone(orderOf, s, ops) && PollsAlone(orderOf, s, others) ==>
              && Run(s, ops).reserved == Run(s, others).reserved
              && (SameBooks(s, ops, others) ==>
                    forall c: Currency :: Available(Run(s, ops), c) == Available(Run(s, others), c))
  {
    AcceptedSnapshotsDecide(s, ops, others);
    if PollsAlone(orderOf, s, ops) && PollsAlone(orderOf, s, others) {
      forall coid | coid in s.reserved
        ensures Lookup(Run(s, ops).reserved, coid) == Lookup(Run(s, others).reserved, coid)
      {
        HeldIsFold(s, ops, coid, orderOf[coid]);
        HeldIsFold(s, others, coid, orderOf[coid]);
      }
      SameReservations(s, ops, others);
    }
  }

  /** For each reserved order, both polling paths once left nothing to reserve, or neither did. */
  ghost predicate SpendAlike(s: State, ops: seq<Op>, others: seq<Op>, orderOf: map<string, string>)
    requires s.reserved.Keys <= orderOf.Keys
  {
    forall coid | coid in s.reserved ::
      var recorded, amount := RecordedQty(s.orders, coid), s.reserved[coid].amount;
      EverSpends(PollsOf(ops, orderOf[coid]), recorded, amount)
      <==> EverSpends(PollsOf(others, orderOf[coid]), recorded, amount)
  }

  /**
   * Confluence of what can be spent. Runs that end on the same accepted snapshots, by whatever
   * polls, hold the same reservations exactly when every order was spent on both paths or on
   * neither; and then they can spend the same.
   */
  lemma AvailableConfluent(s: State, ops: seq<Op>, others: seq<Op>, orderOf: map<string, string>)
    requires SameAccepted(s, ops, others)
    requires PollsAlone(orderOf, s, ops) && PollsAlone(orderOf, s, others)
    requires forall coid | coid in s.reserved :: orderOf[coid] !in s.snapshots
    ensures Run(s, ops).reserved == Run(s, others).reserved <==> SpendAlike(s, ops, others, orderOf)
    ensures SameBooks(s, ops, others) && SpendAlike(s, ops, others, orderOf) ==>
              forall c: Currency :: Available(Run(s, ops), c) == Available(Run(s, others), c)
  {
    AcceptedSnapshotsDecide(s, ops, others);
    SameReservations(s, ops, others);
    forall coid | coid in s.reserved
      ensures var recorded, amount := RecordedQty(s.orders, coid), s.reserved[coid].amount;
              Lookup(Run(s, ops).reserved, coid) == Lookup(Run(s, others).reserved, coid)
              <==> (EverSpends(PollsOf(ops, orderOf[coid]), recorded, amount)
                    <==> EverSpends(PollsOf(others, orderOf[coid]), recorded, amount))
    {
      assert Accepted(None, PollsOf(ops, orderOf[coid])) == Accepted(None, PollsOf(others, orderOf[coid]));
      RemainderPathFree(s, ops, others, coid, orderOf[coid]);
    }
  }

  // A first report above the reserved amount, and its correction below it.
  function HighReport(): Fill { RawFill("E", "c1", "A", Buy, KRW, 1.0, 120.0, 0.0, 0.0, "", "") }

  function CorrectedReport(): Fill { RawFill("E", "c1", "A", Buy, KRW, 1.0, 90.0, 0.0, 0.0, "", "") }

  /**
   * The polling path can show in the reservation: from a fresh sleeve, an overshoot that is
   * corrected frees it for good, though both paths end on one snapshot.
   */
  lemma ReservationRemembersOvershoot()
    ensures var start, reserve := Fresh(100.0, KRW, ""), Reserve("c1", 100.0, KRW);
            var direct := [reserve, ApplyFill(CorrectedReport())];
            var detour := [reserve, ApplyFill(HighReport()), ApplyFill(CorrectedReport())];
            && Run(start, direct).snapshots == Run(start, detour).snapshots == map["E" := CorrectedReport()]
            && Run(start, direct).cash == Run(start, detour).cash
            && Run(start, direct).reserved == map["c1" := Reservation(KRW, 10.0)]
            && Run(start, detour).reserved == map[]
  {
    var start, reserve := Fresh(100.0, KRW, ""), Reserve("c1", 100.0, KRW);
    var high, low := ApplyFill(HighReport()), ApplyFill(CorrectedReport());
    AllReservedIsReached();
    RunAppend(start, [reserve], low);
    RunAppend(start, [reserve], high);
    RunAppend(start, [reserve, high], low);
    assert [reserve] + [low] == [reserve, low] && [reserve] + [high] == [reserve, high];
    assert [reserve, high] + [low] == [reserve, high, low];
    assert Run(start, [reserve, high]) == Settle(AllReserved(), HighReport());
    assert Run(start, [reserve, low]) == Settle(AllReserved(), CorrectedReport());
  }
}
