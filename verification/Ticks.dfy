/** Price ticks: a banded table of tick sizes, and snapping to the nearest legal price on either side. */
module Ticks {
  import opened SleeveTypes

  datatype Band = Band(upper: int, size: int)

  const KRX_TICKS: seq<Band> :=
    [Band(2_000, 1), Band(5_000, 5), Band(20_000, 10), Band(50_000, 50), Band(200_000, 100), Band(500_000, 500)]

  const KRX_TOP := 1_000

  const USD_TICK := 0.01

  /** Integer part, towards zero. */
  function Truncate(x: real): int { if x >= 0.0 then x.Floor else -((-x).Floor) }

  /** The size of the first band whose upper edge is above the price. */
  function FindTick(p: int, bands: seq<Band>, top: int): int {
    if bands == [] then top
    else if p < bands[0].upper then bands[0].size
    else FindTick(p, bands[1..], top)
  }

  function TickOn(price: real, bands: seq<Band>, top: int): real { FindTick(Truncate(price), bands, top) as real }

  function TickSize(price: real, c: Currency): (t: real)
    ensures t > 0.0
  {
    if c.USD? then USD_TICK
    else
      KrxAligned();
      TickPositive(Truncate(price), 0, KRX_TICKS, KRX_TOP);
      TickOn(price, KRX_TICKS, KRX_TOP)
  }

  /** A whole number of ticks. */
  function Steps(k: int, tick: real): real { k as real * tick }

  function FlooredTo(price: real, tick: real): real
    requires tick != 0.0
  {
    Steps(Truncate(price / tick), tick)
  }

  function SnapDown(price: real, c: Currency): real { FlooredTo(price, TickSize(price, c)) }

  function RaisedTo(price: real, tick: real): real
    requires tick != 0.0
  {
    var floored := FlooredTo(price, tick);
    if floored == price then floored else floored + tick
  }

  function SnapUp(price: real, c: Currency): real { RaisedTo(price, TickSize(price, c)) }

  ghost predicate OnGrid(price: real, tick: real) { exists k: int :: price == Steps(k, tick) }

  /** A price is legal when it is a multiple of the tick of its own band. */
  ghost predicate Legal(price: real, c: Currency) { OnGrid(price, TickSize(price, c)) }

  // ---------------------------------------------------------------- band tables

  /** Every band starts and ends on multiples of its own tick. */
  predicate Aligned(lower: int, bands: seq<Band>, top: int)
    decreases bands
  {
    if bands == [] then top > 0 && lower % top == 0
    else
      var b := bands[0];
      b.size > 0 && lower < b.upper && lower % b.size == 0 && b.upper % b.size == 0
      && Aligned(b.upper, bands[1..], top)
  }

  lemma KrxAligned()
    ensures Aligned(0, KRX_TICKS, KRX_TOP)
  {
    var b1, b2, b3 := KRX_TICKS[1..], KRX_TICKS[2..], KRX_TICKS[3..];
    var b4, b5, b6 := KRX_TICKS[4..], KRX_TICKS[5..], KRX_TICKS[6..];
    assert b1[1..] == b2 && b2[1..] == b3 && b3[1..] == b4 && b4[1..] == b5 && b5[1..] == b6 && b6 == [];
    assert Aligned(500_000, b6, KRX_TOP);
    assert Aligned(200_000, b5, KRX_TOP);
    assert Aligned(50_000, b4, KRX_TOP);
    assert Aligned(20_000, b3, KRX_TOP);
    assert Aligned(5_000, b2, KRX_TOP);
    assert Aligned(2_000, b1, KRX_TOP);
  }

  lemma {:induction false} TickPositive(p: int, lower: int, bands: seq<Band>, top: int)
    requires Aligned(lower, bands, top)
    ensures FindTick(p, bands, top) > 0
    decreases bands
  {
    if bands != [] && p >= bands[0].upper {
      TickPositive(p, bands[0].upper, bands[1..], top);
    }
  }

  /** Two edges around a price, between which the tick is the same and to which it leads. */
  ghost predicate InBand(p: int, lo: int, hi: Option<int>, bands: seq<Band>, top: int) {
    var t := FindTick(p, bands, top);
    && t > 0 && lo <= p && lo % t == 0
    && (forall m | lo <= m && (hi.Some? ==> m < hi.value) :: FindTick(m, bands, top) == t)
    && (hi.Some? ==> p < hi.value && hi.value % t == 0
                     && FindTick(hi.value, bands, top) > 0 && hi.value % FindTick(hi.value, bands, top) == 0)
  }

  lemma {:induction false} BandOf(p: int, lower: int, bands: seq<Band>, top: int) returns (lo: int, hi: Option<int>)
    requires Aligned(lower, bands, top) && lower <= p
    ensures lower <= lo && InBand(p, lo, hi, bands, top)
    decreases bands
  {
    if bands == [] {
      lo, hi := lower, None;
    } else if p < bands[0].upper {
      lo, hi := lower, Some(bands[0].upper);
      FirstTick(bands[0].upper, bands[1..], top);
    } else {
      lo, hi := BandOf(p, bands[0].upper, bands[1..], top);
      assert forall m | lo <= m :: FindTick(m, bands, top) == FindTick(m, bands[1..], top);
    }
  }

  lemma FirstTick(lower: int, bands: seq<Band>, top: int)
    requires Aligned(lower, bands, top)
    ensures FindTick(lower, bands, top) > 0 && lower % FindTick(lower, bands, top) == 0
  {}

  /** The tick of every price, in numbers. */
  lemma TickTable(price: real)
    ensures TickSize(price, USD) == 0.01
    ensures TickSize(price, KRW) ==
            if price < 2000.0 then 1.0 else if price < 5000.0 then 5.0 else if price < 20000.0 then 10.0
            else if price < 50000.0 then 50.0 else if price < 200000.0 then 100.0
            else if price < 500000.0 then 500.0 else 1000.0
  {
    var p := Truncate(price);
    var b1, b2, b3 := KRX_TICKS[1..], KRX_TICKS[2..], KRX_TICKS[3..];
    var b4, b5, b6 := KRX_TICKS[4..], KRX_TICKS[5..], KRX_TICKS[6..];
    assert b1[1..] == b2 && b2[1..] == b3 && b3[1..] == b4 && b4[1..] == b5 && b5[1..] == b6 && b6 == [];
    assert FindTick(p, b6, KRX_TOP) == 1000;
    assert FindTick(p, b5, KRX_TOP) == if p < 500_000 then 500 else 1000;
    assert FindTick(p, b4, KRX_TOP) == if p < 200_000 then 100 else FindTick(p, b5, KRX_TOP);
    assert FindTick(p, b3, KRX_TOP) == if p < 50_000 then 50 else FindTick(p, b4, KRX_TOP);
    assert FindTick(p, b2, KRX_TOP) == if p < 20_000 then 10 else FindTick(p, b3, KRX_TOP);
    assert FindTick(p, b1, KRX_TOP) == if p < 5_000 then 5 else FindTick(p, b2, KRX_TOP);
  }

  // ---------------------------------------------------------------- the grid of one tick

  lemma TimesOrder(a: real, b: real, t: real)
    requires t > 0.0
    ensures a <= b ==> a * t <= b * t
    ensures a < b ==> a * t < b * t
  {
    var d := b - a;
    assert d * t == b * t - a * t;
    assert d > 0.0 ==> d * t > 0.0;
  }

  lemma StepsNext(k: int, t: real)
    ensures Steps(k + 1, t) == Steps(k, t) + t
    ensures Steps(0, t) == 0.0 && Steps(-k, t) == -Steps(k, t)
  {
    var y := k as real;
    assert (k + 1) as real == y + 1.0 && (-k) as real == -y;
    assert (y + 1.0) * t == y * t + t && -y * t == -(y * t);
  }

  lemma StepsUp(j: int, k: int, t: real)
    requires t > 0.0
    ensures j <= k ==> Steps(j, t) <= Steps(k, t)
  {
    TimesOrder(j as real, k as real, t);
  }

  lemma StepsOrder(j: int, k: int, t: real)
    requires t > 0.0
    ensures j <= k ==> Steps(j, t) <= Steps(k, t)
    ensures j < k ==> Steps(j, t) + t <= Steps(k, t)
    ensures Steps(k + 1, t) == Steps(k, t) + t
    ensures Steps(0, t) == 0.0 && Steps(-k, t) == -Steps(k, t)
  {
    StepsUp(j, k, t);
    StepsUp(j + 1, k, t);
    StepsNext(j, t);
    StepsNext(k, t);
  }

  /** The number of whole ticks in a price. */
  lemma Whole(price: real, t: real) returns (k: int)
    requires t > 0.0
    ensures k == (price / t).Floor
    ensures Steps(k, t) <= price < Steps(k + 1, t)
  {
    var q := price / t;
    k := q.Floor;
    var low, high := k as real, (k + 1) as real;
    assert low <= q < high && q * t == price;
    TimesOrder(low, q, t);
    TimesOrder(q, high, t);
    assert Steps(k, t) == low * t && Steps(k + 1, t) == high * t;
    assert q * t < high * t;
    assert price < Steps(k + 1, t);
  }

  /** On one grid, flooring gives the greatest point not above and raising the least not below. */
  lemma GridSnaps(price: real, t: real)
    requires t > 0.0 && 0.0 <= price
    ensures OnGrid(FlooredTo(price, t), t) && 0.0 <= FlooredTo(price, t) <= price
    ensures OnGrid(RaisedTo(price, t), t) && price <= RaisedTo(price, t)
    ensures forall q | OnGrid(q, t) && q <= price :: q <= FlooredTo(price, t)
    ensures forall q | OnGrid(q, t) && price <= q :: RaisedTo(price, t) <= q
  {
    var k := Whole(price, t);
    StepsOrder(0, k, t);
    QuotientNonnegative(price, t);
    assert FlooredTo(price, t) == Steps(k, t);
    assert RaisedTo(price, t) == Steps(if Steps(k, t) == price then k else k + 1, t);
    forall q | OnGrid(q, t) ensures q <= price ==> q <= Steps(k, t)
                            ensures price <= q ==> RaisedTo(price, t) <= q
    {
      var j: int :| q == Steps(j, t);
      StepsOrder(j, k, t);
      StepsOrder(k, j, t);
      StepsOrder(k + 1, j, t);
    }
  }

  lemma QuotientNonnegative(price: real, t: real)
    requires t > 0.0 && 0.0 <= price
    ensures 0.0 <= price / t && Truncate(price / t) == (price / t).Floor
  {}

  lemma EdgeOnGrid(edge: int, t: int)
    requires t > 0 && edge % t == 0
    ensures OnGrid(edge as real, t as real)
  {
    var j := edge / t;
    assert edge == j * t;
    assert (j * t) as real == Steps(j, t as real);
  }

  // ---------------------------------------------------------------- snapping on a banded table

  ghost predicate LegalOn(price: real, bands: seq<Band>, top: int) { OnGrid(price, TickOn(price, bands, top)) }

  /** Snapping down on an aligned table stays inside the band and beats every legal price below. */
  lemma DownOn(price: real, bands: seq<Band>, top: int)
    requires Aligned(0, bands, top) && 0.0 <= price && TickOn(price, bands, top) > 0.0
    ensures var r := FlooredTo(price, TickOn(price, bands, top));
            && LegalOn(r, bands, top) && 0.0 <= r <= price
            && forall q | LegalOn(q, bands, top) && q <= price :: q <= r
  {
    var t := TickOn(price, bands, top);
    var r := FlooredTo(price, t);
    var lo, hi := BandOf(price.Floor, 0, bands, top);
    GridSnaps(price, t);
    EdgeOnGrid(lo, FindTick(price.Floor, bands, top));
    assert lo as real <= r;
    assert r.Floor <= price.Floor;
    assert TickOn(r, bands, top) == t;
    forall q | LegalOn(q, bands, top) && q <= price ensures q <= r {
      if lo as real <= q {
        assert q.Floor <= price.Floor;
        assert TickOn(q, bands, top) == t;
      }
    }
  }

  /** Snapping up on an aligned table is legal even on the next band's edge, and the least there is. */
  lemma UpOn(price: real, bands: seq<Band>, top: int)
    requires Aligned(0, bands, top) && 0.0 <= price && TickOn(price, bands, top) > 0.0
    ensures var u := RaisedTo(price, TickOn(price, bands, top));
            && LegalOn(u, bands, top) && price <= u
            && forall q | LegalOn(q, bands, top) && price <= q :: u <= q
  {
    var t := TickOn(price, bands, top);
    var u := RaisedTo(price, t);
    var lo, hi := BandOf(price.Floor, 0, bands, top);
    GridSnaps(price, t);
    if hi.Some? {
      EdgeOnGrid(hi.value, FindTick(price.Floor, bands, top));
      EdgeOnGrid(hi.value, FindTick(hi.value, bands, top));
      assert u <= hi.value as real;
    }
    if hi.Some? && u == hi.value as real {
      assert u.Floor == hi.value;
    } else {
      assert TickOn(u, bands, top) == t;
    }
    forall q | LegalOn(q, bands, top) && price <= q ensures u <= q {
      if hi.None? || q < hi.value as real {
        assert TickOn(q, bands, top) == t;
      }
    }
  }

  // ---------------------------------------------------------------- the two currencies

  /** Snapping down gives the greatest legal price that is not above. */
  lemma SnapDownGreatest(price: real, c: Currency)
    requires 0.0 <= price
    ensures Legal(SnapDown(price, c), c) && 0.0 <= SnapDown(price, c) <= price
    ensures forall q | Legal(q, c) && q <= price :: q <= SnapDown(price, c)
  {
    if c.USD? {
      GridSnaps(price, USD_TICK);
    } else {
      KrxAligned();
      TickPositive(Truncate(price), 0, KRX_TICKS, KRX_TOP);
      DownOn(price, KRX_TICKS, KRX_TOP);
      forall q | Legal(q, c) && q <= price ensures q <= SnapDown(price, c) {
        assert LegalOn(q, KRX_TICKS, KRX_TOP);
      }
    }
  }

  /** Snapping up gives the least legal price that is not below, also across a band edge. */
  lemma SnapUpLeast(price: real, c: Currency)
    requires 0.0 <= price
    ensures Legal(SnapUp(price, c), c) && price <= SnapUp(price, c)
    ensures forall q | Legal(q, c) && price <= q :: SnapUp(price, c) <= q
  {
    if c.USD? {
      GridSnaps(price, USD_TICK);
    } else {
      KrxAligned();
      TickPositive(Truncate(price), 0, KRX_TICKS, KRX_TOP);
      UpOn(price, KRX_TICKS, KRX_TOP);
      forall q | Legal(q, c) && price <= q ensures SnapUp(price, c) <= q {
        assert LegalOn(q, KRX_TICKS, KRX_TOP);
      }
    }
  }

  /** Snapping is monotone and idempotent, and leaves exactly the legal prices where they are. */
  lemma SnapMonotone(p: real, q: real, c: Currency)
    requires 0.0 <= p <= q
    ensures SnapDown(p, c) <= SnapDown(q, c) && SnapUp(p, c) <= SnapUp(q, c)
    ensures (Legal(p, c) <==> SnapDown(p, c) == p) && (Legal(p, c) <==> SnapUp(p, c) == p)
    ensures SnapDown(SnapDown(p, c), c) == SnapDown(p, c) && SnapUp(SnapUp(p, c), c) == SnapUp(p, c)
  {
    SnapDownGreatest(p, c);
    SnapDownGreatest(q, c);
    SnapUpLeast(p, c);
    SnapUpLeast(q, c);
    SnapDownGreatest(SnapDown(p, c), c);
    SnapUpLeast(SnapUp(p, c), c);
  }

  /** On one grid, rounding towards zero raises every negative price that is off the grid. */
  lemma NegativeFloored(price: real, t: real)
    requires t > 0.0 && price < 0.0
    ensures FlooredTo(price, t) <= price <==> OnGrid(price, t)
  {
    var k := Whole(-price, t);
    assert -(price / t) == -price / t;
    assert price / t < 0.0;
    StepsOrder(k, k, t);
    assert FlooredTo(price, t) == Steps(-k, t) == -Steps(k, t);
    if OnGrid(price, t) {
      var j: int :| price == Steps(j, t);
      StepsOrder(j, -j, t);
      StepsOrder(k + 1, -j, t);
      StepsOrder(-j, k, t);
      StepsOrder(k, -j, t);
      assert Steps(-j, t) == -price;
    }
  }

  /** A price is never raised by snapping down exactly when it is not negative or is legal. */
  lemma SnapDownNeverRaisesExactly(price: real, c: Currency)
    ensures SnapDown(price, c) <= price <==> 0.0 <= price || Legal(price, c)
  {
    if 0.0 <= price {
      SnapDownGreatest(price, c);
    } else {
      NegativeFloored(price, TickSize(price, c));
    }
  }

  /** Half a won below zero is snapped down to zero. */
  lemma NegativePriceIsRaised()
    ensures SnapDown(-0.5, KRW) == 0.0 && !Legal(-0.5, KRW)
  {
    assert Truncate(-0.5) == 0;
    assert FindTick(0, KRX_TICKS, KRX_TOP) == 1;
    assert -0.5 / 1.0 == -0.5;
    SnapDownNeverRaisesExactly(-0.5, KRW);
  }
}
