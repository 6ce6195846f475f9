/** Value types of the sleeve ledger: currencies, sides, statuses, fills and the text order on dates. */
module SleeveTypes {

  datatype Option<+T> = None | Some(value: T)

  function Lookup<K, V>(m: map<K, V>, k: K): Option<V> {
    if k in m then Some(m[k]) else None
  }

  datatype Currency = KRW | USD

  datatype Side = Buy | Sell

  datatype OrderStatus = Pending | PartiallyFilled | Filled | Cancelled | Rejected {
    predicate Open() { Pending? || PartiallyFilled? }
  }

  /** What a quantity costs at a price. */
  function Notional(price: real, quantity: real): real { price * quantity }

  /** One cumulative execution snapshot of an exchange order. */
  datatype RawFill = RawFill(
    orderId: string, clientOrderId: string, symbol: string, side: Side, currency: Currency,
    filledQuantity: real, avgPrice: real, commission: real, tax: real,
    filledAt: string, settlementDate: string)
  {
    predicate Valid() {
      filledQuantity > 0.0 && avgPrice > 0.0 && commission >= 0.0 && tax >= 0.0
    }

    function CostBasis(): real { Notional(avgPrice, filledQuantity) }

    function Fees(): real { commission + tax }

    /** What a sale brings in once it settles. */
    function NetProceeds(): real { CostBasis() - commission - tax }

    /** The fields that decide cash: what a repeated poll must agree on to be dropped. */
    predicate SameEconomics(other: RawFill) {
      && filledQuantity == other.filledQuantity
      && avgPrice == other.avgPrice
      && commission == other.commission
      && tax == other.tax
    }

    /** The fields that say which order a snapshot belongs to. */
    predicate SameOrder(other: RawFill) {
      && orderId == other.orderId
      && clientOrderId == other.clientOrderId
      && symbol == other.symbol
      && side == other.side
      && currency == other.currency
    }
  }

  // A fill cannot be constructed with a non-positive quantity or price, or a negative fee.
  type Fill = f: RawFill | f.Valid()
    witness RawFill("", "", "", Buy, KRW, 1.0, 1.0, 0.0, 0.0, "", "")

  datatype BrokerPosition = BrokerPosition(ticker: string, quantity: real, avgPrice: real, currency: Currency)

  function Max(a: real, b: real): real { if a < b then b else a }

  function Min(a: real, b: real): real { if b < a then b else a }

  /** Text order by code point, used on ISO dates and on sort keys. */
  predicate Before(a: string, b: string) {
    b != [] && (a == [] || a[0] < b[0] || (a[0] == b[0] && Before(a[1..], b[1..])))
  }

  /** The texts agree up to a place, and there the first one ends or has the smaller character. */
  predicate SplitAt(a: string, b: string, i: nat) {
    && i <= |a| && i < |b| && a[..i] == b[..i]
    && (i == |a| || a[i] < b[i])
  }

  lemma SameStart(a: string, b: string, i: nat)
    requires SplitAt(a, b, i) && i > 0
    ensures a != [] && b != [] && a[0] == b[0]
  {
    assert a[..i][0] == b[..i][0];
  }

  /** The text order is the lexicographic one. */
  lemma {:induction false} BeforeIsLexicographic(a: string, b: string)
    ensures Before(a, b) <==> exists i: nat :: SplitAt(a, b, i)
  {
    if a != [] && b != [] && a[0] == b[0] {
      BeforeIsLexicographic(a[1..], b[1..]);
      if Before(a[1..], b[1..]) {
        var i: nat :| SplitAt(a[1..], b[1..], i);
        assert a[..i + 1] == [a[0]] + a[1..][..i] && b[..i + 1] == [b[0]] + b[1..][..i];
        assert SplitAt(a, b, i + 1);
      }
      if i: nat :| SplitAt(a, b, i) {
        assert i > 0;
        assert a[1..][..i - 1] == a[..i][1..] && b[1..][..i - 1] == b[..i][1..];
        assert SplitAt(a[1..], b[1..], i - 1);
      }
    } else if Before(a, b) {
      assert SplitAt(a, b, 0);
    } else if i: nat :| SplitAt(a, b, i) {
      if i > 0 {
        SameStart(a, b, i);
      }
    }
  }

  lemma {:induction false} BeforeTotal(a: string, b: string)
    ensures Before(a, b) || a == b || Before(b, a)
  {
    if a != [] && b != [] && a[0] == b[0] {
      BeforeTotal(a[1..], b[1..]);
      if a[1..] == b[1..] {
        assert a == [a[0]] + a[1..] == b;
      }
    }
  }

  lemma {:induction false} BeforeAsymmetric(a: string, b: string)
    requires Before(a, b)
    ensures !Before(b, a) && a != b
  {
    if a != [] && a[0] == b[0] {
      BeforeAsymmetric(a[1..], b[1..]);
    }
  }

  lemma {:induction false} BeforeTransitive(a: string, b: string, c: string)
    requires Before(a, b) && Before(b, c)
    ensures Before(a, c)
  {
    if a != [] && a[0] == b[0] == c[0] {
      BeforeTransitive(a[1..], b[1..], c[1..]);
    }
  }
}
