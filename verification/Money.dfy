/** Arithmetic shared by every module: lots are integers, money is exact. */
module Money {

  datatype Option<+T> = None | Some(value: T)

  function Abs(x: int): nat { if x < 0 then -x else x }

  function MinInt(x: int, y: int): int { if x <= y then x else y }

  function MaxInt(x: int, y: int): int { if x >= y then x else y }

  function AbsReal(x: real): real { if x < 0.0 then -x else x }

  function MinReal(x: real, y: real): real { if x <= y then x else y }

  function MaxReal(x: real, y: real): real { if x >= y then x else y }

  function Ceil(x: real): int { -((-x).Floor) }

  /** Value of one lot of `lot` shares at `price`. */
  function LotValue(lot: int, price: real): real { (lot as real) * price }

  /** Value of `qty` lots. */
  function Notional(qty: int, lot: int, price: real): real {
    (qty as real) * LotValue(lot, price)
  }

  /** How many whole units an amount covers. */
  function WholeUnits(amount: real, unit: real): int
    requires unit != 0.0
  {
    (amount / unit).Floor
  }

  function Fee(notional: real, rate: real): real { notional * rate }

  lemma LotValuePositive(lot: int, price: real)
    requires lot > 0 && price > 0.0
    ensures LotValue(lot, price) > 0.0
  {
    ProductPositive(lot as real, price);
  }

  lemma NotionalAdds(a: int, b: int, lot: int, price: real)
    ensures Notional(a + b, lot, price) == Notional(a, lot, price) + Notional(b, lot, price)
  {
    var u := LotValue(lot, price);
    assert (a + b) as real * u == a as real * u + b as real * u;
  }

  lemma NotionalNonNegative(qty: int, lot: int, price: real)
    requires qty >= 0 && lot >= 0 && price >= 0.0
    ensures Notional(qty, lot, price) >= 0.0
  {
    ProductNonNegative(lot as real, price);
    ProductNonNegative(qty as real, LotValue(lot, price));
  }

  lemma ProductNonNegative(x: real, y: real)
    requires x >= 0.0 && y >= 0.0
    ensures x * y >= 0.0
  {}

  lemma ProductPositive(x: real, y: real)
    requires x > 0.0 && y > 0.0
    ensures x * y > 0.0
  {}

  lemma ScaleLess(x: real, y: real, k: real)
    requires x <= y && k >= 0.0
    ensures x * k <= y * k
  {
    ProductNonNegative(y - x, k);
  }

  /** Floor division gives the largest whole number of units that fits. */
  lemma WholeUnitsFit(amount: real, unit: real)
    requires unit > 0.0
    ensures (WholeUnits(amount, unit) as real) * unit <= amount
    ensures amount < ((WholeUnits(amount, unit) + 1) as real) * unit
    ensures amount >= 0.0 ==> WholeUnits(amount, unit) >= 0
  {
    var y := amount / unit;
    QuotientTimes(amount, unit);
    var hi := (y.Floor + 1) as real;
    Sandwich(y.Floor as real, y, hi, unit);
    assert amount < hi * unit;
    if amount >= 0.0 && y.Floor < 0 {
      ScaleLess(hi, 0.0, unit);
    }
  }

  lemma Sandwich(lo: real, y: real, hi: real, unit: real)
    requires lo <= y < hi && unit > 0.0
    ensures lo * unit <= y * unit < hi * unit
  {
    ProductNonNegative(y - lo, unit);
    ProductPositive(hi - y, unit);
    assert (hi - y) * unit == hi * unit - y * unit;
  }

  /** x / n scaled back. */
  lemma QuotientTimes(x: real, n: real)
    requires n != 0.0
    ensures (x / n) * n == x
  {}
}
