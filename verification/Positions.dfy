/** The moving-average position fold: sort the snapshots by time, then fold them symbol by symbol. */
module Positions {
  import opened SleeveTypes

  // ---------------------------------------------------------------- sorting

  /** The sort key (filledAt, orderId). */
  predicate KeyBefore(f: Fill, g: Fill) {
    Before(f.filledAt, g.filledAt) || (f.filledAt == g.filledAt && Before(f.orderId, g.orderId))
  }

  lemma KeyTotal(f: Fill, g: Fill)
    ensures KeyBefore(f, g) || KeyBefore(g, f) || (f.filledAt == g.filledAt && f.orderId == g.orderId)
  {
    BeforeTotal(f.filledAt, g.filledAt);
    BeforeTotal(f.orderId, g.orderId);
  }

  lemma KeyAsymmetric(f: Fill, g: Fill)
    requires KeyBefore(f, g)
    ensures !KeyBefore(g, f) && f != g
  {
    if Before(f.filledAt, g.filledAt) {
      BeforeAsymmetric(f.filledAt, g.filledAt);
    } else {
      BeforeAsymmetric(f.orderId, g.orderId);
    }
  }

  lemma KeyTransitive(f: Fill, g: Fill, h: Fill)
    requires KeyBefore(f, g) && KeyBefore(g, h)
    ensures KeyBefore(f, h)
  {
    if Before(f.filledAt, g.filledAt) && Before(g.filledAt, h.filledAt) {
      BeforeTransitive(f.filledAt, g.filledAt, h.filledAt);
    }
    if Before(f.orderId, g.orderId) && Before(g.orderId, h.orderId) {
      BeforeTransitive(f.orderId, g.orderId, h.orderId);
    }
  }

  /** A stable insertion: an equal key stays behind the newcomer, which came first. */
  function Insert(f: Fill, s: seq<Fill>): seq<Fill> {
    if s != [] && KeyBefore(s[0], f) then [s[0]] + Insert(f, s[1..]) else [f] + s
  }

  function SortFills(s: seq<Fill>): seq<Fill> {
    if s == [] then [] else Insert(s[0], SortFills(s[1..]))
  }

  ghost predicate Sorted(s: seq<Fill>) {
    forall i, j :: 0 <= i < j < |s| ==> KeyBefore(s[i], s[j])
  }

  /** No two snapshots of one order, as in a table keyed by order id. */
  ghost predicate DistinctOrders(s: seq<Fill>) {
    forall i, j :: 0 <= i < j < |s| ==> s[i].orderId != s[j].orderId
  }

  lemma {:induction false} InsertAdds(f: Fill, s: seq<Fill>)
    ensures multiset(Insert(f, s)) == multiset{f} + multiset(s)
  {
    if s != [] && KeyBefore(s[0], f) {
      InsertAdds(f, s[1..]);
      assert s == [s[0]] + s[1..];
    }
  }

  lemma {:induction false} InsertMembers(f: Fill, s: seq<Fill>)
    ensures forall g :: g in Insert(f, s) <==> g == f || g in s
  {
    if s != [] && KeyBefore(s[0], f) {
      InsertMembers(f, s[1..]);
      assert s == [s[0]] + s[1..];
    }
  }

  lemma PrependSorted(f: Fill, s: seq<Fill>)
    requires Sorted(s) && forall g | g in s :: KeyBefore(f, g)
    ensures Sorted([f] + s)
  {}

  lemma {:induction false} InsertSorts(f: Fill, s: seq<Fill>)
    requires Sorted(s)
    requires forall g | g in s :: g.orderId != f.orderId
    ensures Sorted(Insert(f, s))
  {
    if s != [] && KeyBefore(s[0], f) {
      InsertSorts(f, s[1..]);
      InsertMembers(f, s[1..]);
      PrependSorted(s[0], Insert(f, s[1..]));
    } else if s != [] {
      KeyTotal(f, s[0]);
      forall g | g in s ensures KeyBefore(f, g) {
        var j :| 0 <= j < |s| && s[j] == g;
        if j > 0 {
          KeyTransitive(f, s[0], s[j]);
        }
      }
      PrependSorted(f, s);
    }
  }

  lemma {:induction false} SortSorts(s: seq<Fill>)
    requires DistinctOrders(s)
    ensures Sorted(SortFills(s))
    ensures multiset(SortFills(s)) == multiset(s)
  {
    if s != [] {
      SortSorts(s[1..]);
      forall g | g in SortFills(s[1..]) ensures g.orderId != s[0].orderId {
        assert g in multiset(s[1..]);
      }
      InsertSorts(s[0], SortFills(s[1..]));
      InsertAdds(s[0], SortFills(s[1..]));
      assert s == [s[0]] + s[1..];
    }
  }

  lemma KeyMeans(f: Fill, g: Fill)
    requires KeyBefore(f, g)
    ensures !Before(g.filledAt, f.filledAt)
    ensures f.filledAt == g.filledAt ==> Before(f.orderId, g.orderId)
  {
    if Before(f.filledAt, g.filledAt) {
      BeforeAsymmetric(f.filledAt, g.filledAt);
    } else if Before(g.filledAt, f.filledAt) {
      BeforeAsymmetric(g.filledAt, f.filledAt);
    }
  }

  /** The folded order is by time, and by order id among equal times. */
  lemma SortedByTimeThenId(s: seq<Fill>)
    requires DistinctOrders(s)
    ensures var r := SortFills(s);
            forall i, j | 0 <= i < j < |r| ::
              && !Before(r[j].filledAt, r[i].filledAt)
              && (r[i].filledAt == r[j].filledAt ==> Before(r[i].orderId, r[j].orderId))
  {
    SortSorts(s);
    var r := SortFills(s);
    forall i, j | 0 <= i < j < |r|
      ensures !Before(r[j].filledAt, r[i].filledAt)
      ensures r[i].filledAt == r[j].filledAt ==> Before(r[i].orderId, r[j].orderId)
    {
      KeyMeans(r[i], r[j]);
    }
  }

  /** A strictly sorted list is determined by its members. */
  lemma {:induction false} SortedMembersUnique(a: seq<Fill>, b: seq<Fill>)
    requires Sorted(a) && Sorted(b)
    requires forall f :: f in a <==> f in b
    ensures a == b
  {
    assert a == [] || a[0] in b;
    assert b == [] || b[0] in a;
    if a != [] {
      HeadIsLeast(a, b[0]);
      HeadIsLeast(b, a[0]);
      if a[0] != b[0] {
        KeyAsymmetric(a[0], b[0]);
        assert false;
      }
      SortedTail(a);
      SortedTail(b);
      SortedMembersUnique(a[1..], b[1..]);
    }
  }

  lemma HeadIsLeast(a: seq<Fill>, f: Fill)
    requires Sorted(a) && f in a
    ensures f == a[0] || KeyBefore(a[0], f)
  {
    var i :| 0 <= i < |a| && a[i] == f;
  }

  lemma SortedTail(a: seq<Fill>)
    requires Sorted(a) && a != []
    ensures forall f :: f in a[1..] <==> f in a && f != a[0]
  {
    NotBeforeItself(a[0]);
    assert a == [a[0]] + a[1..];
    forall f | f in a[1..] ensures f != a[0] {
      var i :| 1 <= i < |a| && a[i] == f;
      assert KeyBefore(a[0], a[i]);
    }
  }

  lemma NotBeforeItself(f: Fill)
    ensures !KeyBefore(f, f)
  {
    if KeyBefore(f, f) {
      KeyAsymmetric(f, f);
    }
  }

  // ---------------------------------------------------------------- the fold

  /** Running state of one symbol: net quantity, and the cost and quantity of the tracked buys. */
  datatype Slot = Slot(net: real, cost: real, qty: real)

  const EMPTY_SLOT := Slot(0.0, 0.0, 0.0)

  function StepSlot(s: Slot, f: Fill): Slot {
    if f.side.Buy? then
      Slot(s.net + f.filledQuantity, s.cost + f.CostBasis(), s.qty + f.filledQuantity)
    else
      var avg := if s.qty > 0.0 then s.cost / s.qty else 0.0;
      var removed := Min(f.filledQuantity, s.qty);
      var left := Slot(s.net - f.filledQuantity, s.cost - avg * removed, s.qty - removed);
      if left.net <= 0.0 || left.qty <= 0.0 then Slot(left.net, 0.0, 0.0) else left
  }

  function FoldFrom(start: Slot, fs: seq<Fill>, symbol: string): Slot {
    if fs == [] then start
    else
      var before := FoldFrom(start, fs[..|fs| - 1], symbol);
      var f := fs[|fs| - 1];
      if f.symbol == symbol then StepSlot(before, f) else before
  }

  function Fold(fs: seq<Fill>, symbol: string): Slot { FoldFrom(EMPTY_SLOT, fs, symbol) }

  /** Symbols in order of first appearance. */
  function FirstSeen(fs: seq<Fill>): seq<string> {
    if fs == [] then []
    else
      var before := FirstSeen(fs[..|fs| - 1]);
      var s := fs[|fs| - 1].symbol;
      if s in before then before else before + [s]
  }

  /** The currency of the first fill of a symbol. */
  function CurrencyOf(fs: seq<Fill>, symbol: string): Currency
    requires symbol in FirstSeen(fs)
  {
    var f := fs[|fs| - 1];
    if symbol in FirstSeen(fs[..|fs| - 1]) then CurrencyOf(fs[..|fs| - 1], symbol) else f.currency
  }

  function RowOf(slot: Slot, symbol: string, currency: Currency): BrokerPosition {
    BrokerPosition(symbol, slot.net, if slot.qty > 0.0 then slot.cost / slot.qty else 0.0, currency)
  }

  /** The row of one symbol: none unless its net quantity is positive. */
  function RowList(fs: seq<Fill>, symbol: string): seq<BrokerPosition>
    requires symbol in FirstSeen(fs)
  {
    var slot := Fold(fs, symbol);
    if slot.net > 0.0 then [RowOf(slot, symbol, CurrencyOf(fs, symbol))] else []
  }

  /** The listed positions, symbol by symbol. */
  function RowsOver(symbols: seq<string>, fs: seq<Fill>): seq<BrokerPosition>
    requires forall s | s in symbols :: s in FirstSeen(fs)
  {
    if symbols == [] then []
    else
      RowsOver(symbols[..|symbols| - 1], fs) + RowList(fs, symbols[|symbols| - 1])
  }

  function Rows(fs: seq<Fill>): seq<BrokerPosition> { RowsOver(FirstSeen(fs), fs) }

  /** The slots and currencies of all symbols, with the symbols in order of first appearance. */
  method Aggregate(ordered: seq<Fill>)
    returns (keys: seq<string>, agg: map<string, Slot>, currencyOf: map<string, Currency>)
    ensures keys == FirstSeen(ordered)
    ensures forall s :: s in keys <==> s in agg
    ensures agg.Keys == currencyOf.Keys
    ensures forall s | s in agg :: agg[s] == Fold(ordered, s) && currencyOf[s] == CurrencyOf(ordered, s)
  {
    keys, agg, currencyOf := [], map[], map[];
    for i := 0 to |ordered|
      invariant keys == FirstSeen(ordered[..i])
      invariant forall s :: s in keys <==> s in agg
      invariant agg.Keys == currencyOf.Keys
      invariant forall s | s in agg :: agg[s] == Fold(ordered[..i], s) && currencyOf[s] == CurrencyOf(ordered[..i], s)
      invariant forall s | s !in agg :: Fold(ordered[..i], s) == EMPTY_SLOT
    {
      var f := ordered[i];
      assert ordered[..i + 1][..i] == ordered[..i];
      if f.symbol !in agg {
        agg := agg[f.symbol := EMPTY_SLOT];
        currencyOf := currencyOf[f.symbol := f.currency];
        keys := keys + [f.symbol];
      }
      agg := agg[f.symbol := StepSlot(agg[f.symbol], f)];
    }
    assert ordered[..|ordered|] == ordered;
  }

  lemma RowsOverNext(symbols: seq<string>, i: nat, fs: seq<Fill>)
    requires i < |symbols| && forall s | s in symbols :: s in FirstSeen(fs)
    ensures RowsOver(symbols[..i + 1], fs) == RowsOver(symbols[..i], fs) + RowList(fs, symbols[i])
  {
    assert symbols[..i + 1][..i] == symbols[..i];
  }

  /** The position list of the snapshots, as the ledger computes it. */
  method PositionRows(snapshots: seq<Fill>) returns (out: seq<BrokerPosition>)
    ensures out == Rows(SortFills(snapshots))
  {
    var ordered := SortFills(snapshots);
    var keys, agg, currencyOf := Aggregate(ordered);
    out := [];
    for i := 0 to |keys|
      invariant out == RowsOver(keys[..i], ordered)
    {
      RowsOverNext(keys, i, ordered);
      var slot := agg[keys[i]];
      assert slot == Fold(ordered, keys[i]) && currencyOf[keys[i]] == CurrencyOf(ordered, keys[i]);
      if slot.net > 0.0 {
        out := out + [RowOf(slot, keys[i], currencyOf[keys[i]])];
      }
    }
    assert keys[..|keys|] == keys;
  }

  // ---------------------------------------------------------------- quantities

  /** Signed quantity of one snapshot in a symbol: bought counts up, sold counts down. */
  function SignedQty(f: Fill, symbol: string): real {
    if f.symbol != symbol then 0.0 else if f.side.Buy? then f.filledQuantity else -f.filledQuantity
  }

  ghost function NetQty(fs: seq<Fill>, symbol: string): real {
    if fs == [] then 0.0 else NetQty(fs[..|fs| - 1], symbol) + SignedQty(fs[|fs| - 1], symbol)
  }

  /** In spite of the clamp and the resets, the net of a slot is bought minus sold. */
  lemma {:induction false} NetIsBoughtMinusSold(fs: seq<Fill>, symbol: string)
    ensures Fold(fs, symbol).net == NetQty(fs, symbol)
  {
    if fs != [] {
      NetIsBoughtMinusSold(fs[..|fs| - 1], symbol);
    }
  }

  lemma {:induction false} NeverSeen(fs: seq<Fill>, symbol: string)
    ensures symbol in FirstSeen(fs) <==> exists f :: f in fs && f.symbol == symbol
    ensures symbol !in FirstSeen(fs) ==> Fold(fs, symbol) == EMPTY_SLOT
  {
    if fs != [] {
      assert fs == fs[..|fs| - 1] + [fs[|fs| - 1]];
      NeverSeen(fs[..|fs| - 1], symbol);
    }
  }

  lemma {:induction false} FirstSeenDistinct(fs: seq<Fill>)
    ensures forall i, j :: 0 <= i < j < |FirstSeen(fs)| ==> FirstSeen(fs)[i] != FirstSeen(fs)[j]
  {
    if fs != [] {
      FirstSeenDistinct(fs[..|fs| - 1]);
    }
  }

  /** Where a symbol is first traded. */
  function FirstIndex(fs: seq<Fill>, symbol: string): nat {
    if fs == [] || fs[0].symbol == symbol then 0 else 1 + FirstIndex(fs[1..], symbol)
  }

  lemma {:induction false} FirstIndexAppend(fs: seq<Fill>, f: Fill, symbol: string)
    ensures FirstIndex(fs, symbol) <= |fs|
    ensures FirstIndex(fs, symbol) < |fs| <==> symbol in FirstSeen(fs)
    ensures symbol in FirstSeen(fs) ==> FirstIndex(fs + [f], symbol) == FirstIndex(fs, symbol)
    ensures symbol !in FirstSeen(fs) && f.symbol == symbol ==> FirstIndex(fs + [f], symbol) == |fs|
  {
    NeverSeen(fs, symbol);
    if fs != [] {
      NeverSeen(fs[1..], symbol);
      assert fs == [fs[0]] + fs[1..];
      assert (fs + [f])[1..] == fs[1..] + [f];
      FirstIndexAppend(fs[1..], f, symbol);
    }
  }

  /** Symbols in the order in which they are first traded. */
  ghost predicate InOrder(fs: seq<Fill>, symbols: seq<string>) {
    forall i, j | 0 <= i < j < |symbols| :: FirstIndex(fs, symbols[i]) < FirstIndex(fs, symbols[j])
  }

  function Tickers(rows: seq<BrokerPosition>): (tickers: seq<string>)
    ensures |tickers| == |rows| && forall i | 0 <= i < |rows| :: tickers[i] == rows[i].ticker
  {
    if rows == [] then [] else Tickers(rows[..|rows| - 1]) + [rows[|rows| - 1].ticker]
  }

  lemma {:induction false} FirstSeenInOrder(fs: seq<Fill>)
    ensures InOrder(fs, FirstSeen(fs))
  {
    if fs != [] {
      var front, f := fs[..|fs| - 1], fs[|fs| - 1];
      assert fs == front + [f];
      FirstSeenInOrder(front);
      forall s: string
        ensures s in FirstSeen(front) ==> FirstIndex(fs, s) == FirstIndex(front, s) < |front|
        ensures s !in FirstSeen(front) && s == f.symbol ==> FirstIndex(fs, s) == |front|
      {
        FirstIndexAppend(front, f, s);
      }
    }
  }

  lemma OneMoreInOrder(fs: seq<Fill>, tickers: seq<string>, symbols: seq<string>, last: string)
    requires InOrder(fs, tickers) && InOrder(fs, symbols + [last])
    requires forall s | s in tickers :: s in symbols
    ensures InOrder(fs, tickers + [last])
  {
    forall i | 0 <= i < |tickers| ensures FirstIndex(fs, tickers[i]) < FirstIndex(fs, last) {
      assert tickers[i] in symbols;
      var k :| 0 <= k < |symbols| && symbols[k] == tickers[i];
      assert (symbols + [last])[k] == symbols[k] && (symbols + [last])[|symbols|] == last;
    }
  }

  lemma TickersAfter(rows: seq<BrokerPosition>, row: BrokerPosition)
    ensures Tickers(rows + [row]) == Tickers(rows) + [row.ticker]
  {
    assert (rows + [row])[..|rows + [row]| - 1] == rows;
  }

  lemma {:induction false} ListedAmong(symbols: seq<string>, fs: seq<Fill>)
    requires forall s | s in symbols :: s in FirstSeen(fs)
    requires InOrder(fs, symbols)
    ensures InOrder(fs, Tickers(RowsOver(symbols, fs)))
    ensures forall s | s in Tickers(RowsOver(symbols, fs)) :: s in symbols
  {
    if symbols != [] {
      var front, last := symbols[..|symbols| - 1], symbols[|symbols| - 1];
      assert symbols == front + [last];
      ListedAmong(front, fs);
      var before := RowsOver(front, fs);
      if RowList(fs, last) == [] {
        assert RowsOver(symbols, fs) == before;
      } else {
        TickersAfter(before, RowList(fs, last)[0]);
        OneMoreInOrder(fs, Tickers(before), front, last);
      }
    }
  }

  /** Positions are listed in the order in which their symbols were first traded. */
  lemma ListedInOrderOfFirstFill(fs: seq<Fill>)
    ensures InOrder(fs, Tickers(Rows(fs)))
  {
    FirstSeenInOrder(fs);
    ListedAmong(FirstSeen(fs), fs);
  }

  /** The quantity of the first listed row of a ticker, or zero. */
  function QuantityIn(rows: seq<BrokerPosition>, ticker: string): real {
    if rows == [] then 0.0
    else if rows[0].ticker == ticker then rows[0].quantity
    else QuantityIn(rows[1..], ticker)
  }

  /** The rows of one ticker. */
  function RowsFor(rows: seq<BrokerPosition>, ticker: string): seq<BrokerPosition> {
    if rows == [] then []
    else RowsFor(rows[..|rows| - 1], ticker) + (if rows[|rows| - 1].ticker == ticker then [rows[|rows| - 1]] else [])
  }

  /** Each listed symbol has one row, made from its own slot; a symbol that is flat or short has none. */
  lemma {:induction false} OneRowPerSymbol(symbols: seq<string>, fs: seq<Fill>, ticker: string)
    requires forall s | s in symbols :: s in FirstSeen(fs)
    requires forall i, j :: 0 <= i < j < |symbols| ==> symbols[i] != symbols[j]
    ensures RowsFor(RowsOver(symbols, fs), ticker) == if ticker in symbols then RowList(fs, ticker) else []
  {
    if symbols != [] {
      var front, s := symbols[..|symbols| - 1], symbols[|symbols| - 1];
      assert symbols == front + [s];
      OneRowPerSymbol(front, fs, ticker);
      RowsForAppend(RowsOver(front, fs), fs, s, ticker);
    }
  }

  lemma RowsForAppend(rows: seq<BrokerPosition>, fs: seq<Fill>, symbol: string, ticker: string)
    requires symbol in FirstSeen(fs)
    ensures RowsFor(rows + RowList(fs, symbol), ticker)
            == RowsFor(rows, ticker) + (if symbol == ticker then RowList(fs, symbol) else [])
  {
    var all := rows + RowList(fs, symbol);
    if Fold(fs, symbol).net > 0.0 {
      assert all[..|all| - 1] == rows;
    } else {
      assert all == rows;
    }
  }

  /** The row list of a ticker, read off its slot alone. */
  lemma PositionOf(fs: seq<Fill>, ticker: string)
    ensures RowsFor(Rows(fs), ticker) == if ticker in FirstSeen(fs) then RowList(fs, ticker) else []
    ensures ticker !in FirstSeen(fs) ==> Fold(fs, ticker) == EMPTY_SLOT
  {
    NeverSeen(fs, ticker);
    FirstSeenDistinct(fs);
    OneRowPerSymbol(FirstSeen(fs), fs, ticker);
  }

  lemma {:induction false} RowsForCons(row: BrokerPosition, rest: seq<BrokerPosition>, ticker: string)
    ensures RowsFor([row] + rest, ticker) == (if row.ticker == ticker then [row] else []) + RowsFor(rest, ticker)
  {
    var all := [row] + rest;
    if rest != [] {
      assert all[..|all| - 1] == [row] + rest[..|rest| - 1];
      RowsForCons(row, rest[..|rest| - 1], ticker);
    } else {
      assert all[..0] == [];
    }
  }

  lemma {:induction false} QuantityReadsRowsFor(rows: seq<BrokerPosition>, ticker: string)
    ensures QuantityIn(rows, ticker) ==
            if RowsFor(rows, ticker) == [] then 0.0 else RowsFor(rows, ticker)[0].quantity
  {
    if rows != [] {
      assert rows == [rows[0]] + rows[1..];
      RowsForCons(rows[0], rows[1..], ticker);
      QuantityReadsRowsFor(rows[1..], ticker);
    }
  }

  /** The reported quantity is the positive part of bought minus sold. */
  lemma QuantityIsPositivePart(fs: seq<Fill>, ticker: string)
    ensures QuantityIn(Rows(fs), ticker) == Max(0.0, NetQty(fs, ticker))
  {
    PositionOf(fs, ticker);
    QuantityReadsRowsFor(Rows(fs), ticker);
    NetIsBoughtMinusSold(fs, ticker);
  }

  // ---------------------------------------------------------------- the moving average

  ghost predicate BuyPricesWithin(fs: seq<Fill>, symbol: string, lo: real, hi: real) {
    forall f | f in fs && f.symbol == symbol && f.side.Buy? :: lo <= f.avgPrice <= hi
  }

  ghost predicate SoundSlot(s: Slot, lo: real, hi: real) {
    && 0.0 <= s.cost && 0.0 <= s.qty && s.net <= s.qty
    && lo * s.qty <= s.cost <= hi * s.qty
  }

  lemma ScaleBounds(lo: real, hi: real, q: real, p: real)
    requires 0.0 <= q && lo <= p <= hi
    ensures lo * q <= p * q <= hi * q
  {}

  lemma CancelFactor(a: real, b: real, q: real)
    requires 0.0 < q && a * q <= b * q
    ensures a <= b
  {
    var d := b - a;
    assert d * q == b * q - a * q;
  }

  lemma DivideBounds(lo: real, hi: real, cost: real, q: real)
    requires 0.0 < q && lo * q <= cost <= hi * q
    ensures lo <= cost / q <= hi
    ensures cost / q * q == cost
  {
    var a := cost / q;
    assert a * q == cost;
    CancelFactor(lo, a, q);
    CancelFactor(a, hi, q);
  }

  /** A sale takes out cost in proportion: what stays is the old average times the quantity left. */
  lemma SaleKeepsProportion(s: Slot, f: Fill)
    requires f.side.Sell? && s.qty > 0.0 && StepSlot(s, f).qty > 0.0
    ensures StepSlot(s, f).cost == s.cost / s.qty * StepSlot(s, f).qty
  {
    var avg := s.cost / s.qty;
    var removed := Min(f.filledQuantity, s.qty);
    assert avg * s.qty == s.cost;
    assert avg * s.qty - avg * removed == avg * (s.qty - removed);
  }

  lemma BuyKeepsBounds(s: Slot, f: Fill, lo: real, hi: real)
    requires SoundSlot(s, lo, hi) && 0.0 <= lo && f.side.Buy? && lo <= f.avgPrice <= hi
    ensures SoundSlot(StepSlot(s, f), lo, hi)
  {
    var q, c := f.filledQuantity, f.CostBasis();
    ScaleBounds(lo, hi, q, f.avgPrice);
    assert lo * (s.qty + q) == lo * s.qty + lo * q;
    assert hi * (s.qty + q) == hi * s.qty + hi * q;
    ScaleBounds(0.0, f.avgPrice, q, f.avgPrice);
  }

  lemma SaleKeepsBounds(s: Slot, f: Fill, lo: real, hi: real)
    requires SoundSlot(s, lo, hi) && 0.0 <= lo && f.side.Sell?
    ensures SoundSlot(StepSlot(s, f), lo, hi)
  {
    var t := StepSlot(s, f);
    if t.qty > 0.0 {
      DivideBounds(lo, hi, s.cost, s.qty);
      SaleKeepsProportion(s, f);
      ScaleBounds(lo, hi, t.qty, s.cost / s.qty);
      ScaleBounds(0.0, lo, t.qty, lo);
    }
  }

  /** After any history the tracked cost lies between the lowest and the highest buy price. */
  lemma {:induction false} FoldKeepsBounds(fs: seq<Fill>, symbol: string, lo: real, hi: real)
    requires BuyPricesWithin(fs, symbol, lo, hi) && 0.0 <= lo
    ensures SoundSlot(Fold(fs, symbol), lo, hi)
  {
    if fs != [] {
      assert fs == fs[..|fs| - 1] + [fs[|fs| - 1]];
      FoldKeepsBounds(fs[..|fs| - 1], symbol, lo, hi);
      var f := fs[|fs| - 1];
      if f.symbol == symbol {
        if f.side.Buy? {
          BuyKeepsBounds(Fold(fs[..|fs| - 1], symbol), f, lo, hi);
        } else {
          SaleKeepsBounds(Fold(fs[..|fs| - 1], symbol), f, lo, hi);
        }
      }
    }
  }

  lemma RowWithinBounds(s: Slot, ticker: string, lo: real, hi: real)
    requires SoundSlot(s, lo, hi)
    ensures s.net > 0.0 ==> forall c :: lo <= RowOf(s, ticker, c).avgPrice <= hi
  {
    if s.net > 0.0 {
      DivideBounds(lo, hi, s.cost, s.qty);
    }
  }

  /** Every listed position has an average price between its lowest and highest buy price. */
  lemma ListedAverageWithinBuyPrices(fs: seq<Fill>, ticker: string, lo: real, hi: real)
    requires BuyPricesWithin(fs, ticker, lo, hi) && 0.0 < lo
    ensures forall p | p in RowsFor(Rows(fs), ticker) :: 0.0 < p.quantity && lo <= p.avgPrice <= hi
  {
    PositionOf(fs, ticker);
    FoldKeepsBounds(fs, ticker, lo, hi);
    RowWithinBounds(Fold(fs, ticker), ticker, lo, hi);
  }

  /** A sale that leaves a position open leaves its average price as it was. */
  lemma SaleKeepsAverage(fs: seq<Fill>, f: Fill)
    requires f.side.Sell?
    requires Fold(fs + [f], f.symbol).net > 0.0
    ensures Fold(fs, f.symbol).qty > 0.0 && Fold(fs + [f], f.symbol).qty > 0.0
    ensures Fold(fs + [f], f.symbol).cost / Fold(fs + [f], f.symbol).qty
            == Fold(fs, f.symbol).cost / Fold(fs, f.symbol).qty
  {
    var s := Fold(fs, f.symbol);
    assert (fs + [f])[..|fs + [f]| - 1] == fs;
    var hi := HighestPrice(fs);
    FoldKeepsBounds(fs, f.symbol, 0.0, hi);
    SaleKeepsProportion(s, f);
    DivideExact(s.cost / s.qty, StepSlot(s, f).qty);
  }

  lemma DivideExact(a: real, q: real)
    requires q != 0.0
    ensures a * q / q == a
  {}

  // ---------------------------------------------------------------- what several buys cost together

  /** What the buys of a symbol cost: price times quantity, added up. */
  ghost function SpentOn(fs: seq<Fill>, symbol: string): real {
    if fs == [] then 0.0
    else
      var f := fs[|fs| - 1];
      SpentOn(fs[..|fs| - 1], symbol)
      + if f.symbol == symbol && f.side.Buy? then f.avgPrice * f.filledQuantity else 0.0
  }

  ghost predicate OnlyBuys(fs: seq<Fill>, symbol: string) {
    forall f | f in fs && f.symbol == symbol :: f.side.Buy?
  }

  /** Without sales the cost of a symbol is what its buys cost, at their own prices. */
  lemma {:induction false} BuysAddUp(fs: seq<Fill>, symbol: string)
    requires OnlyBuys(fs, symbol)
    ensures Fold(fs, symbol).cost == SpentOn(fs, symbol)
    ensures Fold(fs, symbol).qty == Fold(fs, symbol).net == NetQty(fs, symbol)
  {
    if fs != [] {
      assert fs == fs[..|fs| - 1] + [fs[|fs| - 1]];
      BuysAddUp(fs[..|fs| - 1], symbol);
    }
  }

  /** What a listed position is worth at its average price. */
  function Worth(p: BrokerPosition): real { p.avgPrice * p.quantity }

  lemma RowWorth(s: Slot, ticker: string, c: Currency)
    requires s.net == s.qty > 0.0
    ensures Worth(RowOf(s, ticker, c)) == s.cost
  {
    var a := s.cost / s.qty;
    assert a * s.qty == s.cost;
  }

  /** The one row of a symbol whose tracked quantity is its net quantity is worth its cost. */
  lemma RowsWorth(fs: seq<Fill>, ticker: string)
    requires Fold(fs, ticker).qty == Fold(fs, ticker).net
    ensures Fold(fs, ticker).net > 0.0 ==> |RowsFor(Rows(fs), ticker)| == 1
    ensures Fold(fs, ticker).net <= 0.0 ==> RowsFor(Rows(fs), ticker) == []
    ensures forall p | p in RowsFor(Rows(fs), ticker) ::
              p.quantity == Fold(fs, ticker).net && Worth(p) == Fold(fs, ticker).cost
  {
    PositionOf(fs, ticker);
    if ticker in FirstSeen(fs) && Fold(fs, ticker).net > 0.0 {
      RowWorth(Fold(fs, ticker), ticker, CurrencyOf(fs, ticker));
    }
  }

  /** The listed average of a symbol that was never sold, times its quantity, is what its buys cost. */
  lemma ListedAverageIsMean(fs: seq<Fill>, ticker: string)
    requires OnlyBuys(fs, ticker)
    ensures forall p | p in RowsFor(Rows(fs), ticker) ::
              p.quantity == NetQty(fs, ticker) && Worth(p) == SpentOn(fs, ticker)
  {
    BuysAddUp(fs, ticker);
    RowsWorth(fs, ticker);
  }

  /** While a symbol was never oversold, the tracked quantity is the net quantity. */
  lemma {:induction false} TrackedIsNet(fs: seq<Fill>, symbol: string)
    requires NeverOversold(fs, symbol)
    ensures Fold(fs, symbol).qty == Fold(fs, symbol).net == NetQty(fs, symbol) >= 0.0
  {
    NetIsBoughtMinusSold(fs, symbol);
    assert fs[..|fs|] == fs;
    if fs != [] {
      var front := fs[..|fs| - 1];
      forall i | 0 <= i <= |front| ensures 0.0 <= NetQty(front[..i], symbol) {
        assert front[..i] == fs[..i];
      }
      TrackedIsNet(front, symbol);
    }
  }

  lemma StillNeverOversold(fs: seq<Fill>, f: Fill)
    requires f.side.Buy? && NeverOversold(fs, f.symbol)
    ensures NeverOversold(fs + [f], f.symbol)
    ensures NetQty(fs + [f], f.symbol) == NetQty(fs, f.symbol) + f.filledQuantity
  {
    var all := fs + [f];
    assert all[..|fs|] == fs && all[..|all|] == all && fs[..|fs|] == fs;
    forall i | 0 <= i <= |all| ensures 0.0 <= NetQty(all[..i], f.symbol) {
      if i <= |fs| {
        assert all[..i] == fs[..i];
      }
    }
  }

  /**
   * A buy onto a position that was never oversold mixes the averages by quantity: new average
   * times new quantity is old average times old quantity plus price times quantity bought.
   */
  lemma BuyMixesAverage(fs: seq<Fill>, f: Fill)
    requires f.side.Buy? && NeverOversold(fs, f.symbol) && NetQty(fs, f.symbol) > 0.0
    ensures var before, after := RowsFor(Rows(fs), f.symbol), RowsFor(Rows(fs + [f]), f.symbol);
            && |before| == |after| == 1
            && after[0].quantity == before[0].quantity + f.filledQuantity
            && Worth(after[0]) == Worth(before[0]) + f.avgPrice * f.filledQuantity
  {
    StillNeverOversold(fs, f);
    TrackedIsNet(fs, f.symbol);
    TrackedIsNet(fs + [f], f.symbol);
    RowsWorth(fs, f.symbol);
    RowsWorth(fs + [f], f.symbol);
    BuyAddsCost(fs, f);
  }

  lemma BuyAddsCost(fs: seq<Fill>, f: Fill)
    requires f.side.Buy?
    ensures Fold(fs + [f], f.symbol).cost == Fold(fs, f.symbol).cost + f.avgPrice * f.filledQuantity
  {
    assert (fs + [f])[..|fs + [f]| - 1] == fs;
  }

  /** A sale that leaves nothing, or less, forgets the cost of all earlier buys. */
  lemma SaleOutResets(fs: seq<Fill>, f: Fill)
    requires f.side.Sell? && NetQty(fs + [f], f.symbol) <= 0.0
    ensures Fold(fs + [f], f.symbol) == Slot(NetQty(fs + [f], f.symbol), 0.0, 0.0)
  {
    assert (fs + [f])[..|fs + [f]| - 1] == fs;
    NetIsBoughtMinusSold(fs + [f], f.symbol);
  }

  function HighestPrice(fs: seq<Fill>): (hi: real)
    ensures forall f | f in fs :: 0.0 <= f.avgPrice <= hi
    ensures 0.0 <= hi
  {
    if fs == [] then 0.0 else Max(fs[0].avgPrice, HighestPrice(fs[1..]))
  }

  // ---------------------------------------------------------------- the reset

  /** Bought minus sold never went below zero at any point of the history. */
  ghost predicate NeverOversold(fs: seq<Fill>, symbol: string) {
    forall i | 0 <= i <= |fs| :: 0.0 <= NetQty(fs[..i], symbol)
  }

  /** The side of the last fill in a symbol; None when the symbol has no fill. */
  function LastSide(fs: seq<Fill>, symbol: string): Option<Side> {
    if fs == [] then None
    else if fs[|fs| - 1].symbol == symbol then Some(fs[|fs| - 1].side)
    else LastSide(fs[..|fs| - 1], symbol)
  }

  /** A flat history leaves nothing behind exactly when it does not end on a buy. */
  lemma {:induction false} FlatSlot(fs: seq<Fill>, symbol: string)
    requires NetQty(fs, symbol) == 0.0
    ensures Fold(fs, symbol) == EMPTY_SLOT <==> LastSide(fs, symbol) != Some(Buy)
    ensures Fold(fs, symbol).net == 0.0
    ensures LastSide(fs, symbol) == Some(Buy) ==> Fold(fs, symbol).qty > 0.0
  {
    NetIsBoughtMinusSold(fs, symbol);
    if fs != [] {
      var front, f := fs[..|fs| - 1], fs[|fs| - 1];
      if f.symbol == symbol {
        FoldKeepsBounds(front, symbol, 0.0, HighestPrice(front));
      } else {
        FlatSlot(front, symbol);
      }
    }
  }

  lemma {:induction false} FoldConcat(a: seq<Fill>, b: seq<Fill>, symbol: string)
    ensures Fold(a + b, symbol) == FoldFrom(Fold(a, symbol), b, symbol)
  {
    if b == [] {
      assert a + b == a;
    } else {
      assert (a + b)[..|a + b| - 1] == a + b[..|b| - 1];
      FoldConcat(a, b[..|b| - 1], symbol);
    }
  }

  /** A single buy that tells a leftover slot from an empty one by its average price. */
  function ProbeBuy(symbol: string, price: real): Fill
    requires price > 0.0
  {
    RawFill("probe", "", symbol, Buy, KRW, 1.0, price, 0.0, 0.0, "", "")
  }

  lemma LeftoverShows(s: Slot, symbol: string)
    requires s.net == 0.0 && s.qty > 0.0 && s.cost >= 0.0
    ensures exists f: Fill :: f.symbol == symbol &&
              RowOf(StepSlot(s, f), symbol, KRW) != RowOf(StepSlot(EMPTY_SLOT, f), symbol, KRW)
  {
    var kept := s.cost / s.qty;
    assert kept * s.qty == s.cost;
    var f: Fill := ProbeBuy(symbol, kept + 1.0);
    var q := s.qty + 1.0;
    var mixed := (s.cost + (kept + 1.0)) / q;
    assert mixed * q == s.cost + kept + 1.0;
    assert (kept + 1.0) * q == kept * s.qty + kept + s.qty + 1.0;
    assert StepSlot(s, f) == Slot(1.0, s.cost + (kept + 1.0), q);
    assert RowOf(StepSlot(EMPTY_SLOT, f), symbol, KRW).avgPrice == kept + 1.0;
  }

  /**
   * Re-entry after a flat history. When the history does not end on a buy, every later slot is
   * the slot of the later fills alone; when it does, some later buy gets a different average.
   */
  lemma FlatHistoryIsForgotten(history: seq<Fill>, symbol: string)
    requires NetQty(history, symbol) == 0.0
    ensures LastSide(history, symbol) != Some(Buy) <==>
            forall later: seq<Fill> :: Fold(history + later, symbol) == Fold(later, symbol)
  {
    FlatSlot(history, symbol);
    var s := Fold(history, symbol);
    if LastSide(history, symbol) != Some(Buy) {
      forall later: seq<Fill> ensures Fold(history + later, symbol) == Fold(later, symbol) {
        FoldConcat(history, later, symbol);
      }
    } else {
      FoldKeepsBounds(history, symbol, 0.0, HighestPrice(history));
      LeftoverShows(s, symbol);
      var f: Fill :| f.symbol == symbol &&
        RowOf(StepSlot(s, f), symbol, KRW) != RowOf(StepSlot(EMPTY_SLOT, f), symbol, KRW);
      FoldConcat(history, [f], symbol);
      assert [f][..0] == [];
      assert FoldFrom(s, [f], symbol) == StepSlot(s, f);
      assert FoldFrom(EMPTY_SLOT, [f], symbol) == StepSlot(EMPTY_SLOT, f);
      assert Fold(history + [f], symbol) != Fold([f], symbol);
    }
  }

  lemma {:induction false} FirstSeenConcat(a: seq<Fill>, b: seq<Fill>, symbol: string)
    ensures symbol in FirstSeen(a + b) <==> symbol in FirstSeen(a) || symbol in FirstSeen(b)
    ensures symbol in FirstSeen(a + b) ==>
              CurrencyOf(a + b, symbol)
              == if symbol in FirstSeen(a) then CurrencyOf(a, symbol) else CurrencyOf(b, symbol)
  {
    if b == [] {
      assert a + b == a;
    } else {
      assert (a + b)[..|a + b| - 1] == a + b[..|b| - 1];
      FirstSeenConcat(a, b[..|b| - 1], symbol);
    }
  }

  /**
   * Re-entry, as it is listed. After a flat history that does not end on a buy, the symbol has the
   * quantity and average price of the later fills alone, and the very same row exactly when the
   * currency that the history began with, which the row keeps, is that of the later fills.
   */
  lemma FlatHistoryRow(history: seq<Fill>, later: seq<Fill>, symbol: string)
    requires NetQty(history, symbol) == 0.0 && LastSide(history, symbol) != Some(Buy)
    requires symbol in FirstSeen(history) && NetQty(later, symbol) > 0.0
    ensures symbol in FirstSeen(later)
    ensures var row, alone := RowsFor(Rows(history + later), symbol), RowsFor(Rows(later), symbol);
            && |row| == |alone| == 1
            && row[0] == alone[0].(currency := CurrencyOf(history, symbol))
            && (row == alone <==> CurrencyOf(history, symbol) == CurrencyOf(later, symbol))
  {
    FlatHistoryIsForgotten(history, symbol);
    NetIsBoughtMinusSold(later, symbol);
    NeverSeen(later, symbol);
    FirstSeenConcat(history, later, symbol);
    PositionOf(history + later, symbol);
    PositionOf(later, symbol);
    assert Fold(history + later, symbol) == Fold(later, symbol);
  }

  // A symbol traded in won, sold out, and bought again in dollars.
  function Traded(id: string, side: Side, c: Currency, day: string): Fill {
    RawFill(id, "", "A", side, c, 1.0, 10.0, 0.0, 0.0, day, "")
  }

  function InAndOut(): seq<Fill> { [Traded("1", Buy, KRW, "a"), Traded("2", Sell, KRW, "b")] }

  function InAgain(): seq<Fill> { [Traded("3", Buy, USD, "c")] }

  /** The new position is listed in the old currency. */
  lemma OldCurrencyIsKept()
    ensures var row := RowsFor(Rows(InAndOut() + InAgain()), "A");
            |row| == 1 && row[0].quantity == 1.0 && row[0].currency == KRW
    ensures RowsFor(Rows(InAgain()), "A") != RowsFor(Rows(InAndOut() + InAgain()), "A")
  {
    assert InAndOut()[..1] == [Traded("1", Buy, KRW, "a")] && InAndOut()[..1][..0] == [];
    assert InAgain()[..0] == [];
    assert NetQty(InAndOut()[..1], "A") == 1.0 && NetQty(InAndOut(), "A") == 0.0;
    assert FirstSeen(InAndOut()[..1]) == ["A"] && CurrencyOf(InAndOut(), "A") == KRW;
    assert FirstSeen(InAgain()) == ["A"] && CurrencyOf(InAgain(), "A") == USD && NetQty(InAgain(), "A") == 1.0;
    FlatHistoryRow(InAndOut(), InAgain(), "A");
    QuantityReadsRowsFor(Rows(InAgain()), "A");
    QuantityIsPositivePart(InAgain(), "A");
  }

  /** With nothing bought beyond what was sold later, neither list has a row. */
  lemma FlatHistoryNoRow(history: seq<Fill>, later: seq<Fill>, symbol: string)
    requires NetQty(history, symbol) == 0.0 && LastSide(history, symbol) != Some(Buy)
    requires NetQty(later, symbol) <= 0.0
    ensures RowsFor(Rows(history + later), symbol) == RowsFor(Rows(later), symbol) == []
  {
    FlatHistoryIsForgotten(history, symbol);
    NetIsBoughtMinusSold(later, symbol);
    PositionOf(history + later, symbol);
    PositionOf(later, symbol);
    assert Fold(history + later, symbol) == Fold(later, symbol);
  }

  /** Snapshots that all come after a history are sorted behind it, so the ledger folds them last. */
  lemma LaterSortsBehind(history: seq<Fill>, later: seq<Fill>)
    requires DistinctOrders(history + later)
    requires forall f, g | f in history && g in later :: KeyBefore(f, g)
    ensures SortFills(history + later) == SortFills(history) + SortFills(later)
  {
    assert forall i | 0 <= i < |history| :: (history + later)[i] == history[i];
    assert forall i | 0 <= i < |later| :: (history + later)[|history| + i] == later[i];
    SortSorts(history);
    SortSorts(later);
    SortSorts(history + later);
    var parts := SortFills(history) + SortFills(later);
    SortMembers(history);
    SortMembers(later);
    SortMembers(history + later);
    assert Sorted(parts);
    SortedMembersUnique(SortFills(history + later), parts);
  }

  lemma SortMembers(s: seq<Fill>)
    requires DistinctOrders(s)
    ensures forall f :: f in SortFills(s) <==> f in s
  {
    SortSorts(s);
    forall f ensures f in SortFills(s) <==> f in s {
      assert f in SortFills(s) <==> f in multiset(SortFills(s));
      assert f in s <==> f in multiset(s);
    }
  }

  /** A history that never oversold and ends flat cannot end on a buy. */
  lemma {:induction false} NeverOversoldEndsOnSale(fs: seq<Fill>, symbol: string)
    requires NeverOversold(fs, symbol) && NetQty(fs, symbol) == 0.0
    ensures LastSide(fs, symbol) != Some(Buy)
  {
    if fs != [] {
      var front := fs[..|fs| - 1];
      assert 0.0 <= NetQty(front, symbol);
      forall i | 0 <= i <= |front| ensures 0.0 <= NetQty(front[..i], symbol) {
        assert front[..i] == fs[..i];
      }
      if fs[|fs| - 1].symbol != symbol {
        NeverOversoldEndsOnSale(front, symbol);
      }
    }
  }

  // ---------------------------------------------------------------- order and symbols

  /** The list does not depend on the order in which the snapshots arrive. */
  lemma PermutationInvariant(a: seq<Fill>, b: seq<Fill>)
    requires multiset(a) == multiset(b)
    requires DistinctOrders(a) && DistinctOrders(b)
    ensures SortFills(a) == SortFills(b)
    ensures Rows(SortFills(a)) == Rows(SortFills(b))
  {
    SortSorts(a);
    SortSorts(b);
    forall f ensures f in SortFills(a) <==> f in SortFills(b) {
      assert f in SortFills(a) <==> f in multiset(SortFills(a));
      assert f in SortFills(b) <==> f in multiset(SortFills(b));
    }
    SortedMembersUnique(SortFills(a), SortFills(b));
  }

  function OnlySymbol(fs: seq<Fill>, symbol: string): seq<Fill> {
    if fs == [] then []
    else if fs[0].symbol == symbol then [fs[0]] + OnlySymbol(fs[1..], symbol)
    else OnlySymbol(fs[1..], symbol)
  }

  lemma {:induction false} OnlySymbolConcat(a: seq<Fill>, b: seq<Fill>, symbol: string)
    ensures OnlySymbol(a + b, symbol) == OnlySymbol(a, symbol) + OnlySymbol(b, symbol)
  {
    if a == [] {
      assert a + b == b;
    } else {
      assert (a + b)[1..] == a[1..] + b;
      OnlySymbolConcat(a[1..], b, symbol);
    }
  }

  lemma {:induction false} OnlySymbolInsert(f: Fill, s: seq<Fill>, symbol: string)
    requires Sorted(s) && forall g | g in s :: g.orderId != f.orderId
    ensures OnlySymbol(Insert(f, s), symbol) ==
            if f.symbol == symbol then Insert(f, OnlySymbol(s, symbol)) else OnlySymbol(s, symbol)
  {
    OnlySymbolIn(s, symbol);
    if s != [] && KeyBefore(s[0], f) {
      OnlySymbolInsert(f, s[1..], symbol);
    } else if s != [] && f.symbol == symbol {
      KeyTotal(f, s[0]);
      var rest := OnlySymbol(s, symbol);
      if rest != [] && KeyBefore(rest[0], f) {
        var k :| 0 <= k < |s| && s[k] == rest[0];
        if k > 0 {
          KeyTransitive(f, s[0], s[k]);
        }
        KeyAsymmetric(rest[0], f);
        assert false;
      }
    }
  }

  lemma {:induction false} OnlySymbolIn(s: seq<Fill>, symbol: string)
    ensures forall f :: f in OnlySymbol(s, symbol) <==> f in s && f.symbol == symbol
  {
    if s != [] {
      assert s == [s[0]] + s[1..];
      OnlySymbolIn(s[1..], symbol);
    }
  }

  lemma {:induction false} OnlySymbolSort(s: seq<Fill>, symbol: string)
    requires DistinctOrders(s)
    ensures OnlySymbol(SortFills(s), symbol) == SortFills(OnlySymbol(s, symbol))
  {
    if s != [] {
      OnlySymbolSort(s[1..], symbol);
      SortSorts(s[1..]);
      forall g | g in SortFills(s[1..]) ensures g.orderId != s[0].orderId {
        assert g in multiset(s[1..]);
      }
      OnlySymbolInsert(s[0], SortFills(s[1..]), symbol);
    }
  }

  lemma {:induction false} FoldOnlySymbol(fs: seq<Fill>, symbol: string)
    ensures Fold(fs, symbol) == Fold(OnlySymbol(fs, symbol), symbol)
    ensures symbol in FirstSeen(fs) <==> symbol in FirstSeen(OnlySymbol(fs, symbol))
    ensures symbol in FirstSeen(fs) ==> CurrencyOf(fs, symbol) == CurrencyOf(OnlySymbol(fs, symbol), symbol)
  {
    if fs != [] {
      var front, f := fs[..|fs| - 1], fs[|fs| - 1];
      FoldOnlySymbol(front, symbol);
      assert fs == front + [f];
      OnlySymbolConcat(front, [f], symbol);
      assert [f][1..] == [];
      var kept := OnlySymbol(front, symbol);
      if f.symbol == symbol {
        assert OnlySymbol(fs, symbol) == kept + [f];
        assert (kept + [f])[..|kept + [f]| - 1] == kept;
      } else {
        assert OnlySymbol(fs, symbol) == kept;
      }
    }
  }

  /** Each symbol is treated as if the others were absent. */
  lemma SymbolIndependent(snapshots: seq<Fill>, ticker: string)
    requires DistinctOrders(snapshots)
    ensures RowsFor(Rows(SortFills(snapshots)), ticker)
            == RowsFor(Rows(SortFills(OnlySymbol(snapshots, ticker))), ticker)
  {
    var all := SortFills(snapshots);
    OnlySymbolSort(snapshots, ticker);
    FoldOnlySymbol(all, ticker);
    PositionOf(all, ticker);
    PositionOf(OnlySymbol(all, ticker), ticker);
    NeverSeen(all, ticker);
  }
}
