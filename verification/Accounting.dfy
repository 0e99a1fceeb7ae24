/** What a fill does to the net asset value under the collateral model. */
module Accounting {
  import opened Money
  import opened Simulation
  import opened Fills

  /** Covering credits the current notional although the position is carried at
      collateral plus profit, so every covered lot moves the NAV by 2 * (price - avg). */
  function CoverDrift(q: int, avg: real, delta: int, lot: int, price: real): real {
    if q < 0 && delta > 0 then 2.0 * Notional(ClosedLots(q, delta), lot, price - avg) else 0.0
  }

  lemma ScaleSplit(n: real, lot: real, a: real, b: real)
    ensures n * (lot * a) + n * (lot * b) == n * (lot * (a + b))
  {
    assert lot * a + lot * b == lot * (a + b);
  }

  /** A long is worth its market value, a short twice its entry minus its market value. */
  lemma ValueOf(q: int, avg: real, lot: int, mark: real)
    ensures q >= 0 ==> CollateralValue(q, avg, lot, mark) == Notional(q, lot, mark)
    ensures q <= 0 ==> CollateralValue(q, avg, lot, mark) == 2.0 * Notional(-q, lot, avg) - Notional(-q, lot, mark)
  {
    var n, l := Abs(q) as real, lot as real;
    if q > 0 {
      ScaleSplit(n, l, avg, mark - avg);
    } else if q < 0 {
      ScaleSplit(n, l, avg, -mark);
      ScaleSplit(n, l, mark, -mark);
    }
  }

  /** Averaging keeps the total entry cost. */
  lemma AverageBalances(q: int, avg: real, delta: int, price: real, lot: int)
    requires q != 0 && delta != 0 && (q > 0) == (delta > 0)
    ensures Notional(Abs(q + delta), lot, NewAverage(q, avg, delta, price))
         == Notional(Abs(q), lot, avg) + Notional(Abs(delta), lot, price)
  {
    var n, l := Abs(q + delta) as real, lot as real;
    var cost := (Abs(q) as real) * avg + (Abs(delta) as real) * price;
    QuotientTimes(cost, n);
    assert n * (l * (cost / n)) == l * ((cost / n) * n);
    assert l * cost == (Abs(q) as real) * (l * avg) + (Abs(delta) as real) * (l * price);
  }

  /** NAV change of the touched row plus the cash it moves is exactly the cover drift. */
  lemma ValueChange(q: int, avg: real, delta: int, lot: int, price: real)
    ensures CollateralValue(q + delta, AverageAfter(q, avg, delta, price), lot, price)
            - CollateralValue(q, avg, lot, price) + CashDelta(q, delta, lot, price)
         == CoverDrift(q, avg, delta, lot, price)
  {
    ValueOf(q, avg, lot, price);
    ValueOf(q + delta, AverageAfter(q, avg, delta, price), lot, price);
    var closed := ClosedLots(q, delta);
    if delta == 0 {
    } else if closed == 0 {
      ExtendValue(q, avg, delta, lot, price);
    } else {
      ReduceValue(q, avg, delta, lot, price);
    }
  }

  lemma ExtendValue(q: int, avg: real, delta: int, lot: int, price: real)
    requires delta != 0 && ClosedLots(q, delta) == 0
    ensures CollateralValue(q + delta, AverageAfter(q, avg, delta, price), lot, price)
         == CollateralValue(q, avg, lot, price) + Notional(Abs(delta), lot, price)
  {
    hide NewAverage, CollateralValue, Notional;
    var avg' := AverageAfter(q, avg, delta, price);
    ValueOf(q, avg, lot, price);
    ValueOf(q + delta, avg', lot, price);
    NotionalAdds(Abs(q), Abs(delta), lot, price);
    assert Abs(q + delta) == Abs(q) + Abs(delta);
    if q == 0 {
      FirstAverage(avg, delta, price);
    } else {
      AverageBalances(q, avg, delta, price, lot);
    }
    if q + delta < 0 {
      ZeroLots(lot, price);
      ZeroLots(lot, avg);
    } else {
      ZeroLots(lot, price);
    }
  }

  lemma ZeroLots(lot: int, price: real)
    ensures Notional(0, lot, price) == 0.0
  {}

  lemma FirstAverage(avg: real, delta: int, price: real)
    ensures NewAverage(0, avg, delta, price) == price
  {}

  lemma KeptAverage(q: int, avg: real, delta: int, price: real)
    requires ClosedLots(q, delta) > 0 && q + delta != 0
    ensures NewAverage(q, avg, delta, price) == if OpenedLots(q, delta) > 0 then price else avg
  {}

  lemma NotionalDifference(n: int, lot: int, a: real, b: real)
    ensures Notional(n, lot, a - b) == Notional(n, lot, a) - Notional(n, lot, b)
  {
    ScaleSplit(n as real, lot as real, a, -b);
  }

  lemma ReduceValue(q: int, avg: real, delta: int, lot: int, price: real)
    requires ClosedLots(q, delta) > 0
    ensures CollateralValue(q + delta, AverageAfter(q, avg, delta, price), lot, price)
            - CollateralValue(q, avg, lot, price) + CashDelta(q, delta, lot, price)
         == CoverDrift(q, avg, delta, lot, price)
  {
    hide NewAverage, CollateralValue, Notional;
    var avg' := AverageAfter(q, avg, delta, price);
    var closed := ClosedLots(q, delta);
    ValueOf(q, avg, lot, price);
    ValueOf(q + delta, avg', lot, price);
    NotionalAdds(closed, Abs(q) - closed, lot, price);
    NotionalAdds(closed, Abs(q) - closed, lot, avg);
    NotionalDifference(closed, lot, price, avg);
    ZeroLots(lot, price);
    ZeroLots(lot, avg);
    ZeroLots(lot, avg');
    if q + delta != 0 {
      KeptAverage(q, avg, delta, price);
    }
  }
}
