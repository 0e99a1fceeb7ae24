/** Risk-initiated trims: minimal without a per-tick limit, convergent with one. */
module Trim {
  import opened Money
  import opened Portfolio
  import opened Operations
  import opened Risk
  import opened Simulation
  import opened Fills
  import Accounting

  function UnitFor(d: Decision, c: Context): real { LotValue(LotSizeFor(d.symbol, c.lotSizes), c.lastPrice) }

  /** Weight of `lots` lots of the traded ticker. */
  function WeightOf(d: Decision, c: Context, lots: int): real
    requires c.nav != 0.0
  {
    Share(Notional(lots, LotSizeFor(d.symbol, c.lotSizes), c.lastPrice), c.nav)
  }

  /** Largest lot count within the cap. */
  function CapLots(d: Decision, c: Context): int
    requires c.lastPrice > 0.0
  {
    LotValuePositive(LotSizeFor(d.symbol, c.lotSizes), c.lastPrice);
    WholeUnits(Slice(c.settings.maxInstrumentWeight, c.nav), UnitFor(d, c))
  }

  lemma ShareTimes(x: real, nav: real)
    requires nav != 0.0
    ensures Share(x, nav) * nav == x
  {
    QuotientTimes(x, nav);
  }

  lemma ShareVersusCap(x: real, cap: real, nav: real)
    requires nav > 0.0
    ensures Share(x, nav) <= cap <==> x <= Slice(cap, nav)
  {
    ShareTimes(x, nav);
    hide Share;
    var y := Share(x, nav);
    if y <= cap {
      ScaleLess(y, cap, nav);
    } else {
      ProductPositive(y - cap, nav);
      assert (y - cap) * nav == y * nav - cap * nav;
    }
  }

  lemma CapLotsIsLargest(d: Decision, c: Context)
    requires c.lastPrice > 0.0 && c.nav > 0.0 && c.settings.maxInstrumentWeight > 0.0
    ensures var k := CapLots(d, c);
      k >= 0 && WeightOf(d, c, k) <= c.settings.maxInstrumentWeight < WeightOf(d, c, k + 1)
  {
    hide LotSizeFor, Share, LotValue, WholeUnits;
    var lot, cap := LotSizeFor(d.symbol, c.lotSizes), c.settings.maxInstrumentWeight;
    LotValuePositive(lot, c.lastPrice);
    ProductPositive(cap, c.nav);
    WholeUnitsFit(Slice(cap, c.nav), LotValue(lot, c.lastPrice));
    var k := CapLots(d, c);
    ShareVersusCap(Notional(k, lot, c.lastPrice), cap, c.nav);
    ShareVersusCap(Notional(k + 1, lot, c.lastPrice), cap, c.nav);
  }

  /** What a trim tells about its context and its size. */
  lemma TrimFacts(d: Decision, c: Context)
    requires RiskTrim(d, c).Some?
    ensures c.lastPrice > 0.0 && c.nav > 0.0 && c.settings.maxInstrumentWeight > 0.0
    ensures var g := RiskTrim(d, c).value; var q := PositionFor(c.positions, d.symbol);
      && g.Gate? && g.qty.Some? && g.op == Some(if q < 0 then RiskTrimCover else RiskTrimSell)
      && 0 < g.qty.value == TrimLots(c.settings, Abs(q), UnitFor(d, c), c.nav)
  {
    hide WholeUnits, PositionFor, LotSizeFor, Share, TrimPnl, TrimLots, Notional;
  }

  lemma TrimLotsBound(d: Decision, c: Context)
    requires RiskTrim(d, c).Some?
    ensures c.lastPrice > 0.0
    ensures var q := PositionFor(c.positions, d.symbol); var qty := RiskTrim(d, c).value.qty;
      && qty.Some? && 1 <= qty.value <= Abs(q) - CapLots(d, c)
      && (c.settings.trimMaxPctPerTick <= 0.0 ==> qty.value == Abs(q) - CapLots(d, c))
  {
    hide RiskTrim, WholeUnits, PositionFor, LotSizeFor, LotValue, Slice;
    TrimFacts(d, c);
    LotValuePositive(LotSizeFor(d.symbol, c.lotSizes), c.lastPrice);
  }

  /** Without a per-tick limit the trim leaves the largest position within the cap. */
  lemma UnlimitedTrimIsMinimal(d: Decision, c: Context)
    requires RiskTrim(d, c).Some? && c.settings.trimMaxPctPerTick <= 0.0
    ensures c.lastPrice > 0.0 && c.nav > 0.0 && RiskTrim(d, c).value.Gate? && RiskTrim(d, c).value.qty.Some?
    ensures var left := Abs(PositionFor(c.positions, d.symbol)) - RiskTrim(d, c).value.qty.value;
      && left == CapLots(d, c)
      && WeightOf(d, c, left) <= c.settings.maxInstrumentWeight < WeightOf(d, c, left + 1)
  {
    hide RiskTrim, CapLots, WeightOf, PositionFor;
    TrimFacts(d, c);
    TrimLotsBound(d, c);
    CapLotsIsLargest(d, c);
  }

  /** With a per-tick limit that affords at least one lot, a trim sells the excess
      but at most the largest lot count within the limit; a limit below one lot
      does not hold it back. */
  lemma LimitedTrimExactly(d: Decision, c: Context, n: int)
    requires RiskTrim(d, c).Some? && c.settings.trimMaxPctPerTick > 0.0 && n >= 0
    requires c.nav > 0.0 && c.lastPrice > 0.0
      && WeightOf(d, c, n) <= c.settings.trimMaxPctPerTick < WeightOf(d, c, n + 1)
    ensures var g := RiskTrim(d, c).value; var excess := Abs(PositionFor(c.positions, d.symbol)) - CapLots(d, c);
      g.Gate? && g.qty == Some(if n >= 1 then MinInt(excess, n) else excess)
  {
    hide RiskTrim, PositionFor, LotSizeFor, Share, LotValue;
    TrimFacts(d, c);
    var lot, limit := LotSizeFor(d.symbol, c.lotSizes), c.settings.trimMaxPctPerTick;
    LotValuePositive(lot, c.lastPrice);
    ShareVersusCap(Notional(n, lot, c.lastPrice), limit, c.nav);
    ShareVersusCap(Notional(n + 1, lot, c.lastPrice), limit, c.nav);
    WholeUnitsUnique(Slice(limit, c.nav), LotValue(lot, c.lastPrice), n);
    hide WholeUnits, Slice;
  }

  lemma WholeUnitsUnique(amount: real, unit: real, n: int)
    requires unit > 0.0 && n as real * unit <= amount < (n + 1) as real * unit
    ensures WholeUnits(amount, unit) == n
  {
    WholeUnitsFit(amount, unit);
    var k := WholeUnits(amount, unit);
    assert Stack(k, unit) <= amount < Stack(k + 1, unit) && Stack(n, unit) <= amount < Stack(n + 1, unit);
    hide WholeUnits, Stack;
    if k < n {
      StackGrows(k + 1, n, unit);
    } else if k > n {
      StackGrows(n + 1, k, unit);
    }
  }

  function Stack(n: int, unit: real): real { n as real * unit }

  lemma StackGrows(k: int, n: int, unit: real)
    requires k <= n && unit > 0.0
    ensures Stack(k, unit) <= Stack(n, unit)
  {
    ScaleLess(k as real, n as real, unit);
  }

  // ---- Repeated trims at a fixed price and NAV ---------------------------

  function TrimDelta(g: Gate): int
    requires g.Gate? && g.qty.Some? && g.op.Some?
  {
    if CoverSuffix(g.op.value) then g.qty.value else -g.qty.value
  }

  /** The next tick, after the trim order was filled. */
  function AfterTrim(d: Decision, c: Context): Context
    requires RiskTrim(d, c).Some?
  {
    TrimFacts(d, c);
    c.(positions := FillPositions(c.positions, d.symbol, TrimDelta(RiskTrim(d, c).value), c.lastPrice))
  }

  lemma TrimProgress(d: Decision, c: Context)
    requires UniqueSecids(c.positions) && RiskTrim(d, c).Some?
    ensures var c' := AfterTrim(d, c);
      var q, q' := PositionFor(c.positions, d.symbol), PositionFor(c'.positions, d.symbol);
      && c.lastPrice > 0.0
      && UniqueSecids(c'.positions)
      && CapLots(d, c) <= Abs(q') < Abs(q)
      && (q' != 0 ==> AvgPriceFor(c'.positions, d.symbol) == AvgPriceFor(c.positions, d.symbol) && (q' > 0 <==> q > 0))
  {
    hide RiskTrim, PositionFor, AvgPriceFor, FillPositions, CapLots;
    var g := RiskTrim(d, c).value;
    TrimFacts(d, c);
    TrimLotsBound(d, c);
    CapLotsIsLargest(d, c);
    FillLookup(c.positions, d.symbol, TrimDelta(g), c.lastPrice);
    var q := PositionFor(c.positions, d.symbol);
    if q + TrimDelta(g) != 0 {
      Accounting.KeptAverage(q, AvgPriceFor(c.positions, d.symbol), TrimDelta(g), c.lastPrice);
    }
  }

  function TrimUntilDone(d: Decision, c: Context): Context
    requires UniqueSecids(c.positions)
    decreases Abs(PositionFor(c.positions, d.symbol))
  {
    if RiskTrim(d, c).None? then c
    else
      TrimProgress(d, c);
      TrimUntilDone(d, AfterTrim(d, c))
  }

  /** The profit gate of the trim is open, or there is nothing left to trim. */
  predicate TrimGateOpen(d: Decision, c: Context) {
    var q := PositionFor(c.positions, d.symbol);
    q == 0 || TrimPnlAllows(c.settings, TrimPnl(q, AvgPriceFor(c.positions, d.symbol), c.lastPrice))
  }

  lemma TrimStops(d: Decision, c: Context)
    requires RiskTrim(d, c).None? && TrimGateOpen(d, c)
    requires c.settings.trimEnabled && c.settings.maxInstrumentWeight > 0.0 && c.settings.trimBand >= 0.0
    requires c.lastPrice > 0.0 && c.nav > 0.0
    ensures WeightOf(d, c, Abs(PositionFor(c.positions, d.symbol)))
       <= c.settings.maxInstrumentWeight * (1.0 + c.settings.trimBand)
  {
    var s := c.settings;
    var q := PositionFor(c.positions, d.symbol);
    var cap := s.maxInstrumentWeight;
    BandAboveCap(cap, s.trimBand);
    CapLotsIsLargest(d, c);
    WeightMonotone(d, c, Abs(q), CapLots(d, c));
    if q != 0 && OverCapBand(s, WeightOf(d, c, Abs(q))) {
      NothingToTrim(d, c);
      hide PositionFor, RiskTrim, CapLots, WeightOf, LotSizeFor;
    }
  }

  lemma BandAboveCap(cap: real, band: real)
    requires cap > 0.0 && band >= 0.0
    ensures cap <= cap * (1.0 + band)
  {
    ProductNonNegative(cap, band);
  }

  lemma WeightMonotone(d: Decision, c: Context, a: int, b: int)
    requires c.nav > 0.0 && c.lastPrice > 0.0
    ensures a <= b ==> WeightOf(d, c, a) <= WeightOf(d, c, b)
  {
    hide LotSizeFor, Share, LotValue;
    var lot := LotSizeFor(d.symbol, c.lotSizes);
    var y := WeightOf(d, c, b);
    if a <= b {
      LotValuePositive(lot, c.lastPrice);
      ScaleLess(a as real, b as real, LotValue(lot, c.lastPrice));
      ShareTimes(Notional(b, lot, c.lastPrice), c.nav);
      ShareVersusCap(Notional(a, lot, c.lastPrice), y, c.nav);
    }
  }

  lemma NothingToTrim(d: Decision, c: Context)
    requires RiskTrim(d, c).None? && TrimGateOpen(d, c) && c.settings.trimEnabled
      && c.settings.maxInstrumentWeight > 0.0
    requires c.lastPrice > 0.0 && c.nav > 0.0 && PositionFor(c.positions, d.symbol) != 0
    requires OverCapBand(c.settings, WeightOf(d, c, Abs(PositionFor(c.positions, d.symbol))))
    ensures Abs(PositionFor(c.positions, d.symbol)) <= CapLots(d, c)
  {
    var q := PositionFor(c.positions, d.symbol);
    LotValuePositive(LotSizeFor(d.symbol, c.lotSizes), c.lastPrice);
    NoTrimNoLots(d, c);
    SomeExcess(d, c);
  }

  lemma NoTrimNoLots(d: Decision, c: Context)
    requires RiskTrim(d, c).None? && TrimGateOpen(d, c) && c.settings.trimEnabled
      && c.settings.maxInstrumentWeight > 0.0
    requires c.lastPrice > 0.0 && c.nav > 0.0 && PositionFor(c.positions, d.symbol) != 0
    requires OverCapBand(c.settings, WeightOf(d, c, Abs(PositionFor(c.positions, d.symbol))))
    ensures UnitFor(d, c) != 0.0
      && TrimLots(c.settings, Abs(PositionFor(c.positions, d.symbol)), UnitFor(d, c), c.nav) <= 0
  {
    LotValuePositive(LotSizeFor(d.symbol, c.lotSizes), c.lastPrice);
    hide LotSizeFor, PositionFor, Share, TrimPnl, TrimPnlAllows, TrimLots, Notional, OverCapBand, LotValue;
  }

  lemma SomeExcess(d: Decision, c: Context)
    requires c.lastPrice > 0.0 && UnitFor(d, c) != 0.0
    requires TrimLots(c.settings, Abs(PositionFor(c.positions, d.symbol)), UnitFor(d, c), c.nav) <= 0
    ensures Abs(PositionFor(c.positions, d.symbol)) <= CapLots(d, c)
  {
    hide PositionFor, LotSizeFor, WholeUnits, LotValue, Slice;
  }

  /** Repeated trims at a fixed price and NAV end, stay on the same side, never
      cut below the largest position within the cap, and leave the weight within
      the cap plus its band. */
  lemma {:induction false} TrimConverges(d: Decision, c: Context)
    requires UniqueSecids(c.positions) && TrimGateOpen(d, c)
    requires c.settings.trimEnabled && c.settings.maxInstrumentWeight > 0.0 && c.settings.trimBand >= 0.0
    requires c.lastPrice > 0.0 && c.nav > 0.0
    ensures var end := TrimUntilDone(d, c);
      var q, q' := PositionFor(c.positions, d.symbol), PositionFor(end.positions, d.symbol);
      && MinInt(Abs(q), CapLots(d, c)) <= Abs(q') <= Abs(q)
      && (q' > 0 ==> q > 0) && (q' < 0 ==> q < 0)
      && WeightOf(d, c, Abs(q')) <= c.settings.maxInstrumentWeight * (1.0 + c.settings.trimBand)
    decreases Abs(PositionFor(c.positions, d.symbol))
  {
    hide PositionFor, AvgPriceFor, LotSizeFor, Share, RiskTrim, AfterTrim, TrimGateOpen;
    if RiskTrim(d, c).None? {
      TrimStops(d, c);
    } else {
      var c' := AfterTrim(d, c);
      TrimProgress(d, c);
      TrimSameContext(d, c);
      TrimPnlSide(d, c);
      TrimConverges(d, c');
    }
  }

  lemma TrimSameContext(d: Decision, c: Context)
    requires RiskTrim(d, c).Some?
    ensures AfterTrim(d, c) == c.(positions := AfterTrim(d, c).positions)
  {
    hide RiskTrim, FillPositions;
  }

  /** Profit depends on the side and the average, which a trim keeps. */
  lemma TrimPnlSide(d: Decision, c: Context)
    requires UniqueSecids(c.positions) && RiskTrim(d, c).Some? && TrimGateOpen(d, c)
    ensures TrimGateOpen(d, AfterTrim(d, c))
  {
    TrimProgress(d, c);
    TrimSameContext(d, c);
    var q, q' := PositionFor(c.positions, d.symbol), PositionFor(AfterTrim(d, c).positions, d.symbol);
    hide PositionFor, AvgPriceFor, RiskTrim, AfterTrim, TrimPnlAllows;
    if q' != 0 {
      SameSidePnl(q, q', AvgPriceFor(c.positions, d.symbol), c.lastPrice);
    }
  }

  lemma SameSidePnl(q: int, q': int, avg: real, price: real)
    requires q != 0 && q' != 0 && (q' > 0 <==> q > 0)
    ensures TrimPnl(q, avg, price) == TrimPnl(q', avg, price)
  {}
}
