/** Openings that pass every gate: what a decision and its context need for an
    opening of a given number of lots to go through. */
module PlainOpenings {
  import opened Money
  import opened Portfolio
  import opened Sizing
  import opened Operations
  import opened Risk
  import opened RiskProperties
  import opened Openings
  import opened Accounting
  import opened TickExposure

  /** The bounds that a trading decision is validated against. */
  predicate ValidDecision(d: Decision) { 0.0 <= d.sizePct <= 1.0 && 0.0 <= d.confidence <= 1.0 }

  /** Settings under which some opening passes the gates that look at neither size nor cash. */
  predicate Permissive(s: Settings) {
    && s.riskEnabled && s.maxInstrumentWeight > 0.0 && s.maxSectorWeight > 0.0
    && s.minConfidence <= 1.0 && s.maxVarPct >= 0.0 && s.maxDrawdown > 0.0
  }

  /** The tighter of the instrument and the sector cap. */
  function TightCap(s: Settings): real { MinReal(s.maxInstrumentWeight, s.maxSectorWeight) }

  /** An amount together with its commission. */
  function WithCommission(x: real, s: Settings): real { x * (1.0 + CommissionRate(s)) }

  /** The tick budget, a share of the NAV, covers an opening of this notional. */
  predicate InBudget(notional: real, nav: real, s: Settings) {
    s.maxTickBuyPct > 0.0 ==> WithCommission(notional, s) <= nav * s.maxTickBuyPct
  }

  /** The cash less its buffer covers it. */
  predicate InCash(notional: real, cash: real, s: Settings) {
    WithCommission(notional, s) <= cash * (1.0 - s.cashBuffer)
  }

  function HeldWeight(c: Context, held: int): real
    requires c.nav > 0.0
  {
    Share(Notional(held, 1, c.lastPrice), c.nav)
  }

  /** No record of today, and none above the current NAV. */
  predicate QuietHistory(c: Context) {
    forall i :: 0 <= i < |c.navHistory| ==> c.navHistory[i].nav <= c.nav && c.navHistory[i].day != c.today
  }

  /** No other ticker of the book is in the sector of the traded one. */
  ghost predicate SectorAlone(c: Context, symbol: string) {
    && UniqueSecids(c.positions)
    && forall p :: p in c.positions && p.secid != symbol ==> SectorOf(p.secid, c.sectors) != SectorOf(symbol, c.sectors)
  }

  /** The market and the account before any trade of this tick or bar. */
  ghost predicate CalmMarket(d: Decision, c: Context) {
    && Permissive(c.settings) && c.cash > 0.0 && c.nav > 0.0 && c.lastPrice > 0.0
    && QuietHistory(c) && c.flow.None? && c.returnsCount == 0 && c.tickBuySpent == 0.0 && c.tickOpenNav == c.nav
    && c.sigmaBySymbol == map[] && LotSizeFor(d.symbol, c.lotSizes) == 1 && SectorAlone(c, d.symbol)
  }

  /** The decision adds to `held` lots entered at the current price, with no room
      taken by anything else, and exactly `qty` lots fit size, cash and budget. */
  ghost predicate LotsFit(d: Decision, c: Context, held: int, size: real, qty: int) {
    var s := c.settings;
    && CalmMarket(d, c) && held >= 0 && qty >= 1 && !d.signal.Hold? && d.confidence == 1.0
    && PositionFor(c.positions, d.symbol) == (if d.signal.Buy? then held else -held)
    && (held > 0 ==> AvgPriceFor(c.positions, d.symbol) == c.lastPrice)
    && 0.0 < size == MinReal(d.sizePct, TightCap(s) - HeldWeight(c, held))
    && QuantityForBuy(c.cash, size, c.lastPrice, 1) == qty
    && (d.signal.Buy? ==> InCash(Notional(qty, 1, c.lastPrice), c.cash, s))
    && InBudget(Notional(qty, 1, c.lastPrice), c.nav, s)
  }

  // ---- Exposure of such a book -------------------------------------------

  lemma {:induction false} TotalOfZeros(ps: seq<Position>, f: Position -> real)
    requires forall p :: p in ps ==> f(p) == 0.0
    ensures Total(ps, f) == 0.0
  {
    if ps != [] {
      TotalOfZeros(ps[..|ps| - 1], f);
    }
  }

  /** A sum in which only the row of one ticker counts. */
  lemma TotalOfOwn(ps: seq<Position>, symbol: string, f: Position -> real)
    requires UniqueSecids(ps) && forall p :: p in ps && p.secid != symbol ==> f(p) == 0.0
    ensures Total(ps, f) == if IndexOf(ps, symbol) < 0 then 0.0 else f(ps[IndexOf(ps, symbol)])
  {
    var i := IndexOf(ps, symbol);
    hide IndexOf, Total;
    if i < 0 {
      TotalOfZeros(ps, f);
    } else {
      TotalSplit(ps, i, f);
      TotalOfZeros(ps[..i], f);
      forall p | p in ps[i + 1..] ensures f(p) == 0.0 {
        var k :| 0 <= k < |ps[i + 1..]| && ps[i + 1..][k] == p;
        assert ps[i + 1 + k] == p && ps[i].secid != ps[i + 1 + k].secid;
      }
      TotalOfZeros(ps[i + 1..], f);
    }
  }

  lemma OwnSectorLoad(d: Decision, c: Context)
    requires CalmMarket(d, c)
    ensures SectorLoad(c, d.symbol, SectorOf(d.symbol, c.sectors))
       == HeldWeight(c, Abs(PositionFor(c.positions, d.symbol)))
    ensures OthersSigma(c, d.symbol) == 0.0
  {
    hide Share, Notional, Total, LotSizeFor;
    var sector := SectorTerm(c, d.symbol, SectorOf(d.symbol, c.sectors));
    TotalOfOwn(c.positions, d.symbol, sector);
    TotalOfZeros(c.positions, SigmaTerm(c, d.symbol));
    ZeroLots(1, c.lastPrice);
    ShareOfNothing(c.nav);
  }

  lemma LotNotional(n: int, price: real)
    ensures Notional(n, 1, price) == n as real * price
  {}

  lemma OneLotNotional(price: real)
    ensures Notional(1, 1, price) == price
  {}

  /** One lot fits when the allotment is its price. */
  lemma OneLotFits(d: Decision, c: Context, held: int, size: real)
    requires CalmMarket(d, c) && held >= 0 && !d.signal.Hold? && d.confidence == 1.0
    requires PositionFor(c.positions, d.symbol) == (if d.signal.Buy? then held else -held)
    requires held > 0 ==> AvgPriceFor(c.positions, d.symbol) == c.lastPrice
    requires 0.0 < size == MinReal(d.sizePct, TightCap(c.settings) - Share(Notional(held, 1, c.lastPrice), c.nav))
    requires Allotment(c.cash, size) == c.lastPrice
    requires (d.signal.Buy? ==> InCash(c.lastPrice, c.cash, c.settings)) && InBudget(c.lastPrice, c.nav, c.settings)
    ensures LotsFit(d, c, held, size, 1)
  {
    assert c.cash > 0.0 && c.lastPrice > 0.0 && c.nav > 0.0;
    hide CalmMarket, PositionFor, AvgPriceFor, TightCap, Share, Notional, Allotment, InCash, InBudget, QuantityForBuy,
         MinReal;
    UnitQuantity(c.cash, size, c.lastPrice);
    OneLotNotional(c.lastPrice);
  }

  // ---- Gate by gate ------------------------------------------------------

  lemma FitPlan(d: Decision, c: Context, held: int, size: real, qty: int)
    requires LotsFit(d, c, held, size, qty)
    ensures var plan := PlanFor(d, c);
      && plan.baseAbsQty == held && (plan.long <==> d.signal.Buy?) && plan.flipClose.None?
      && plan.target == DesiredQty(d, c)
      && !ClosesOnly(d, c)
      && BaseWeight(d, c, plan) == HeldWeight(c, held) && SectorCurrent(d, c, plan) == HeldWeight(c, held)
  {
    OwnSectorLoad(d, c);
    hide DesiredQty, SectorLoad, Share, Notional, SectorAlone, QuietHistory, PositionFor, AvgPriceFor, QuantityForBuy,
         WithCommission;
  }

  lemma MaxNavAtMost(history: seq<NavPoint>, nav: real)
    requires history != [] && forall i :: 0 <= i < |history| ==> history[i].nav <= nav
    ensures MaxNav(history) <= nav
  {
    MaxNavIsMaximum(history);
  }

  lemma QuietSession(c: Context)
    requires QuietHistory(c) && c.nav > 0.0
    ensures DrawdownPct(c) == 0.0 && DailyPnlPct(c) == None
  {
    SessionOpenIsFirst(c.navHistory, c.today);
    if c.navHistory != [] {
      MaxNavAtMost(c.navHistory, c.nav);
    }
    hide MaxNav, SessionOpenNav;
    assert PeakNav(c.navHistory, c.nav, c.positions) == c.nav;
  }

  lemma FitNotRefused(d: Decision, c: Context, held: int, size: real, qty: int)
    requires LotsFit(d, c, held, size, qty)
    ensures FirstRefusal(d, c).None?
  {
    QuietSession(c);
    hide SectorAlone, HeldWeight, PositionFor, AvgPriceFor, LotSizeFor, QuantityForBuy, WithCommission, DrawdownPct,
         DailyPnlPct, QuietHistory;
  }

  lemma FitClip(d: Decision, c: Context, held: int, size: real, qty: int)
    requires LotsFit(d, c, held, size, qty)
    ensures var plan := PlanFor(d, c);
      && ClipSize(d, c, plan) == Clipped(size)
      && VarPct(c, d.symbol, BaseWeight(d, c, plan) + size) <= c.settings.maxVarPct
  {
    FitPlan(d, c, held, size, qty);
    OwnSectorLoad(d, c);
    hide PlanFor, BaseWeight, SectorCurrent, SectorLoad, OthersSigma, HeldWeight, PositionFor, LotSizeFor,
         CommissionRate, SectorAlone, QuantityForBuy, WithCommission, QuietHistory, ClosesOnly;
  }

  lemma FitQty(d: Decision, c: Context, held: int, size: real, qty: int)
    requires LotsFit(d, c, held, size, qty)
    ensures OpenQty(d, c, PlanFor(d, c), size) == qty
  {
    FitPlan(d, c, held, size, qty);
    QuantityGrowsWithSize(c.cash, size, d.sizePct, c.lastPrice, 1);
    hide PlanFor, QuantityForBuy, BaseWeight, SectorCurrent, HeldWeight, PositionFor, LotSizeFor, ClosesOnly,
         SectorAlone, WithCommission, QuietHistory, TightCap;
  }

  lemma FitAffordable(d: Decision, c: Context, held: int, size: real, qty: int)
    requires LotsFit(d, c, held, size, qty)
    ensures SecondRefusal(c, PlanFor(d, c), qty, OpenMetrics(d, c, qty)).None?
    ensures OpenMetrics(d, c, qty).totalCost == WithCommission(Notional(qty, 1, c.lastPrice), c.settings)
  {
    FitPlan(d, c, held, size, qty);
    hide PlanFor, BaseWeight, SectorCurrent, HeldWeight, PositionFor, LotSizeFor, ClosesOnly, CommissionRate,
         SectorAlone, QuietHistory, QuantityForBuy, Notional;
    var n, rate := Notional(qty, 1, c.lastPrice), CommissionRate(c.settings);
    assert n * (1.0 + rate) == n + n * rate;
  }

  lemma FitWithinCap(d: Decision, c: Context, held: int, size: real, qty: int)
    requires LotsFit(d, c, held, size, qty)
    ensures held as real * LotValue(1, c.lastPrice) <= Slice(c.settings.maxInstrumentWeight, c.nav)
  {
    hide PositionFor, AvgPriceFor, LotSizeFor, SectorAlone, QuietHistory, QuantityForBuy, WithCommission, LotValue;
    var w := HeldWeight(c, held);
    QuotientTimes(Notional(held, 1, c.lastPrice), c.nav);
    ScaleLess(w, c.settings.maxInstrumentWeight, c.nav);
  }

  lemma FitNotTrimmed(d: Decision, c: Context, held: int, size: real, qty: int)
    requires LotsFit(d, c, held, size, qty)
    ensures RiskTrim(d, c).None?
  {
    FitWithinCap(d, c, held, size, qty);
    LotValuePositive(1, c.lastPrice);
    FitsWhole(held, Slice(c.settings.maxInstrumentWeight, c.nav), LotValue(1, c.lastPrice));
    hide TrimPnl, TrimPnlAllows, OverCapBand, LotSizeFor, PositionFor, AvgPriceFor, WholeUnits, Slice, LotValue,
         Notional, Share, SectorAlone, QuietHistory, QuantityForBuy, WithCommission, HeldWeight;
  }

  lemma FitsWhole(n: int, amount: real, unit: real)
    requires unit > 0.0 && n as real * unit <= amount
    ensures WholeUnits(amount, unit) >= n
  {
    WholeUnitsFit(amount, unit);
    var k := WholeUnits(amount, unit);
    hide WholeUnits;
    if k < n {
      ScaleLess((k + 1) as real, n as real, unit);
    }
  }

  lemma FlatPnl(q: int, price: real)
    requires price > 0.0
    ensures PnlPct(q, price, price) == 0.0
  {}

  lemma FitNotExited(d: Decision, c: Context, held: int, size: real, qty: int)
    requires LotsFit(d, c, held, size, qty)
    ensures RiskPnlExit(d, c).None?
  {
    FlatPnl(PositionFor(c.positions, d.symbol), c.lastPrice);
    hide LotSizeFor, PositionFor, AvgPriceFor, HeldWeight, PartialQty, SectorAlone, QuietHistory, QuantityForBuy,
         WithCommission, PnlPct;
  }

  lemma FitEvaluated(d: Decision, c: Context, held: int, size: real, qty: int)
    requires LotsFit(d, c, held, size, qty)
    ensures Evaluate(d, c) == EvaluateOpening(d, c, PlanFor(d, c))
  {
    FitNotTrimmed(d, c, held, size, qty);
    FitNotExited(d, c, held, size, qty);
    FitPlan(d, c, held, size, qty);
    hide EvaluateOpening, PlanFor, RiskTrim, RiskPnlExit, ClosesOnly, HeldWeight, PositionFor, AvgPriceFor,
         LotSizeFor, SectorAlone, QuietHistory, QuantityForBuy, WithCommission;
  }

  /** Composition of the opening gates when each lets the order through. */
  lemma OpeningGoesThrough(d: Decision, c: Context, size: real)
    requires FirstRefusal(d, c).None? && ClipSize(d, c, PlanFor(d, c)) == Clipped(size)
    requires VarPct(c, d.symbol, BaseWeight(d, c, PlanFor(d, c)) + size) <= c.settings.maxVarPct
    requires var qty := OpenQty(d, c, PlanFor(d, c), size);
      SecondRefusal(c, PlanFor(d, c), qty, OpenMetrics(d, c, qty)).None?
    requires PlanFor(d, c).flipClose.None?
    ensures var g := EvaluateOpening(d, c, PlanFor(d, c));
      && IsOpeningGate(g) && OpenedQty(g) == OpenQty(d, c, PlanFor(d, c), size)
      && g.allowed && g.op == Some(PlanFor(d, c).openOp)
  {
    hide FirstRefusal, ClipSize, VarPct, OpenQty, OpenMetrics, BaseWeight, PlanFor, SecondRefusal, LotSizeFor;
  }

  lemma PlainOp(d: Decision, c: Context)
    requires PlanFor(d, c).flipClose.None?
    ensures var op := PlanFor(d, c).openOp; IsOpening(op) && !IsFlip(op)
  {
    hide PositionFor, DesiredQty;
  }

  /** Such a decision opens exactly the lots that fit. */
  lemma FittingLotsOpen(d: Decision, c: Context, held: int, size: real, qty: int)
    requires LotsFit(d, c, held, size, qty)
    ensures var g := Evaluate(d, c);
      && IsOpeningGate(g) && OpenedQty(g) == qty && g.allowed
      && g.op.Some? && IsOpening(g.op.value) && !IsFlip(g.op.value)
      && PlanFor(d, c).baseAbsQty == held
      && OpenMetrics(d, c, qty).totalCost == WithCommission(Notional(qty, 1, c.lastPrice), c.settings)
  {
    hide Evaluate, EvaluateOpening, PlanFor, FirstRefusal, ClipSize, VarPct, OpenQty, OpenMetrics, BaseWeight,
         LotsFit, DesiredQty, IsOpeningGate, Notional, SecondRefusal, ClosesOnly, SectorCurrent, OpenedQty,
         WithCommission, IsOpening, IsFlip;
    FitPlan(d, c, held, size, qty);
    FitNotRefused(d, c, held, size, qty);
    FitClip(d, c, held, size, qty);
    FitQty(d, c, held, size, qty);
    FitAffordable(d, c, held, size, qty);
    FitEvaluated(d, c, held, size, qty);
    OpeningGoesThrough(d, c, size);
    PlainOp(d, c);
  }

  // ---- Caps after an opening ---------------------------------------------

  /** Weight of the ticker after the opening. */
  function OpenedWeight(d: Decision, c: Context): real
    requires c.nav != 0.0 && IsOpeningGate(Evaluate(d, c))
  {
    Share(Notional(PlanFor(d, c).baseAbsQty + OpenedQty(Evaluate(d, c)), LotSizeFor(d.symbol, c.lotSizes),
                   c.lastPrice), c.nav)
  }

  /** Weight of its sector after the opening. */
  function OpenedSector(d: Decision, c: Context): real
    requires c.nav != 0.0 && IsOpeningGate(Evaluate(d, c))
  {
    SectorCurrent(d, c, PlanFor(d, c))
    + Share(Notional(OpenedQty(Evaluate(d, c)), LotSizeFor(d.symbol, c.lotSizes), c.lastPrice), c.nav)
  }

  lemma CapsHeldByOpening(d: Decision, c: Context)
    requires IsOpeningGate(Evaluate(d, c)) && c.cash <= c.nav
    ensures c.nav > 0.0
    ensures OpenedWeight(d, c) <= c.settings.maxInstrumentWeight && OpenedSector(d, c) <= c.settings.maxSectorWeight
  {
    hide Evaluate, PlanFor, OpenedQty, Share, Notional, LotSizeFor, SectorCurrent, OpeningPassed;
    InstrumentCapHolds(d, c);
    OpeningHasPassed(d, c);
    OpeningRoom(d, c, Evaluate(d, c).effectiveSize.value, OpenedQty(Evaluate(d, c)));
    OpenedShareWithinSize(d, c, Evaluate(d, c).effectiveSize.value, OpenedQty(Evaluate(d, c)));
  }

  /** Ticker and sector weigh the same after the opening: the held lots and the new ones. */
  lemma OpenedWeights(d: Decision, c: Context, held: int, size: real, qty: int)
    requires LotsFit(d, c, held, size, qty)
    ensures IsOpeningGate(Evaluate(d, c))
    ensures OpenedWeight(d, c) == Share(Notional(held + qty, 1, c.lastPrice), c.nav)
    ensures OpenedSector(d, c) == HeldWeight(c, held) + Share(Notional(qty, 1, c.lastPrice), c.nav)
  {
    FittingLotsOpen(d, c, held, size, qty);
    FitPlan(d, c, held, size, qty);
    hide Evaluate, PlanFor, OpenedQty, Share, Notional, LotSizeFor, SectorCurrent, BaseWeight, ClosesOnly,
         OpenMetrics, QuietHistory, SectorAlone, QuantityForBuy, PositionFor, AvgPriceFor, WithCommission, HeldWeight;
  }

  /** Exactly one lot fits when the allotment is its price. */
  lemma UnitQuantity(cash: real, size: real, price: real)
    requires cash > 0.0 && size > 0.0 && price > 0.0 && Allotment(cash, size) == price
    ensures QuantityForBuy(cash, size, price, 1) == 1
  {
    OneUnitFits(price);
    LotValuePositive(1, price);
    hide LotValue;
  }

  lemma OneUnitFits(x: real)
    requires x > 0.0
    ensures WholeUnits(x, LotValue(1, x)) == 1
  {
    assert LotValue(1, x) == x;
    WholeUnitsFit(x, x);
    var n := WholeUnits(x, x);
    if n < 1 {
      ScaleLess((n + 1) as real, 1.0, x);
    } else if n > 1 {
      ScaleLess(2.0, n as real, x);
    }
  }
}
