/** What the Risk Officer guarantees about the operation it returns. */
module RiskProperties {
  import opened Money
  import opened Portfolio
  import opened Sizing
  import opened Operations
  import opened Risk

  // ---- The operation fits the held position ------------------------------

  predicate SingleOrder(g: Gate, lo: int, hi: int)
    requires g.Gate?
  {
    g.qty.Some? && lo <= g.qty.value <= hi && g.flipCloseQty.None? && g.flipOpenQty.None?
  }

  predicate OpensLots(g: Gate)
    requires g.Gate?
  {
    g.qty.Some? && g.qty.value > 0 && g.flipCloseQty.None? && g.flipOpenQty.None?
  }

  predicate FlipsLots(g: Gate, q: int)
    requires g.Gate?
  {
    g.qty.None? && g.flipCloseQty == Some(Abs(q)) && g.flipOpenQty.Some? && g.flipOpenQty.value > 0
  }

  /** Operation type, signal, sign of the position and order size agree. */
  ghost predicate FitsPosition(g: Gate, signal: Signal, q: int, allowFlip: bool) {
    g.Gate? &&
    if !g.allowed then true
    else if g.op.None? then g.qty.None? && g.flipCloseQty.None? && g.flipOpenQty.None?
    else
      match g.op.value
      case OpenLong => signal.Buy? && q == 0 && OpensLots(g)
      case AddLong => signal.Buy? && q > 0 && OpensLots(g)
      case OpenShort => signal.Sell? && q == 0 && OpensLots(g)
      case AddShort => signal.Sell? && q < 0 && OpensLots(g)
      case CloseLong => signal.Sell? && q > 0 && SingleOrder(g, 1, q)
      case CoverShort => signal.Buy? && q < 0 && SingleOrder(g, 1, -q)
      case FlipLongToShort => allowFlip && signal.Sell? && q > 0 && FlipsLots(g, q)
      case FlipShortToLong => allowFlip && signal.Buy? && q < 0 && FlipsLots(g, q)
      case RiskTrimSell => q > 0 && SingleOrder(g, 1, q)
      case TakeProfitSell => q > 0 && SingleOrder(g, 1, q)
      case StopLossSell => q > 0 && SingleOrder(g, 1, q)
      case RiskTrimCover => q < 0 && SingleOrder(g, 1, -q)
      case TakeProfitCover => q < 0 && SingleOrder(g, 1, -q)
      case StopLossCover => q < 0 && SingleOrder(g, 1, -q)
      case PlainBuy => false
      case PlainSell => false
  }

  lemma TrimLotsInRange(s: Settings, absQty: int, unit: real, nav: real)
    requires absQty > 0 && unit > 0.0 && nav > 0.0 && s.maxInstrumentWeight > 0.0
    ensures TrimLots(s, absQty, unit, nav) <= absQty
    ensures WholeUnits(Slice(s.maxInstrumentWeight, nav), unit) >= 0
  {
    ProductPositive(s.maxInstrumentWeight, nav);
    WholeUnitsFit(Slice(s.maxInstrumentWeight, nav), unit);
  }

  lemma TrimFits(d: Decision, c: Context)
    requires RiskTrim(d, c).Some?
    ensures FitsPosition(RiskTrim(d, c).value, d.signal, PositionFor(c.positions, d.symbol), c.settings.allowFlip)
    ensures IsReduceOverride(RiskTrim(d, c).value.op.value)
  {
    var lot := LotSizeFor(d.symbol, c.lotSizes);
    LotValuePositive(lot, c.lastPrice);
    TrimLotsInRange(c.settings, Abs(PositionFor(c.positions, d.symbol)), LotValue(lot, c.lastPrice), c.nav);
  }

  lemma PartialQtyInRange(absQty: int, fraction: real)
    ensures absQty > 0 ==> 0 <= PartialQty(absQty, fraction) <= absQty
    ensures absQty > 0 && fraction > 0.0 ==> PartialQty(absQty, fraction) >= 1
  {}

  lemma PnlExitFits(d: Decision, c: Context)
    requires RiskPnlExit(d, c).Some?
    ensures FitsPosition(RiskPnlExit(d, c).value, d.signal, PositionFor(c.positions, d.symbol), c.settings.allowFlip)
    ensures IsReduceOverride(RiskPnlExit(d, c).value.op.value)
  {
    hide PnlPct, PartialQty, LotSizeFor, Notional;
    var q := PositionFor(c.positions, d.symbol);
    PartialQtyInRange(Abs(q), c.settings.profitPartialFraction);
    PartialQtyInRange(Abs(q), c.settings.profitLockFraction);
  }

  lemma OpeningFits(d: Decision, c: Context)
    requires !d.signal.Hold? && !ClosesOnly(d, c)
    requires EvaluateOpening(d, c, PlanFor(d, c)).Gate?
    ensures FitsPosition(EvaluateOpening(d, c, PlanFor(d, c)), d.signal, PositionFor(c.positions, d.symbol),
                         c.settings.allowFlip)
  {
    hide FirstRefusal, ClipSize, VarPct, OpenQty, OpenMetrics, BaseWeight, LotSizeFor, DesiredQty;
  }

  /** Whatever the decision, the market and the account, the operation that
      comes back fits the position: openings extend it, reductions take between
      one lot and all of it, flips close all of it first and need the setting. */
  lemma EvaluateFitsPosition(d: Decision, c: Context)
    ensures Evaluate(d, c).Gate? ==>
      FitsPosition(Evaluate(d, c), d.signal, PositionFor(c.positions, d.symbol), c.settings.allowFlip)
  {
    hide RiskTrim, RiskPnlExit, EvaluateOpening, PlanFor, DesiredQty, Notional;
    if RiskTrim(d, c).Some? {
      TrimFits(d, c);
    }
    if RiskPnlExit(d, c).Some? {
      PnlExitFits(d, c);
    }
    if !d.signal.Hold? && !ClosesOnly(d, c) && EvaluateOpening(d, c, PlanFor(d, c)).Gate? {
      OpeningFits(d, c);
    }
  }

  // ---- Exits are never blocked -------------------------------------------

  /** Lots of the held position that the operation closes. */
  function ReducingLots(g: Gate): int
    requires g.Gate?
  {
    if g.flipCloseQty.Some? then g.flipCloseQty.value else if g.qty.Some? then g.qty.value else 0
  }

  /** The one input on which evaluation raises: a flip that reaches the sector gate with a NAV of zero. */
  predicate RaisesAtZeroNav(d: Decision, c: Context) {
    && c.nav == 0.0 && c.settings.riskEnabled && RiskPnlExit(d, c).None?
    && Opposes(d.signal, PositionFor(c.positions, d.symbol)) && !ClosesOnly(d, c)
    && FirstRefusal(d, c).None? && c.settings.maxInstrumentWeight > 0.0
  }

  lemma EvaluateRaisesExactly(d: Decision, c: Context)
    ensures Evaluate(d, c).Raised? <==> RaisesAtZeroNav(d, c)
  {
    hide RiskPnlExit, FirstRefusal, VarPct, OpenQty, OpenMetrics, SectorCurrent, LotSizeFor, Notional, DesiredQty;
    if RiskPnlExit(d, c).Some? {
      PnlExitFits(d, c);
    }
  }

  predicate ReducesPosition(op: OpType, q: int) {
    if q > 0 then op.CloseLong? || op.FlipLongToShort? || SellSuffix(op)
    else op.CoverShort? || op.FlipShortToLong? || CoverSuffix(op)
  }

  /** A signal against the position always gets through with a reducing leg,
      whatever the confidence, spread, drawdown, exposure or budget, except for
      the single raising input above. */
  lemma ExitsNeverBlocked(d: Decision, c: Context)
    requires c.settings.riskEnabled && Opposes(d.signal, PositionFor(c.positions, d.symbol))
    ensures var g := Evaluate(d, c); var q := PositionFor(c.positions, d.symbol);
      (g.Gate? && g.allowed && g.op.Some? && ReducesPosition(g.op.value, q) && 1 <= ReducingLots(g) <= Abs(q))
      <==> !RaisesAtZeroNav(d, c)
  {
    EvaluateRaisesExactly(d, c);
    EvaluateFitsPosition(d, c);
    if !RaisesAtZeroNav(d, c) {
      ExitAllowed(d, c);
    }
  }

  lemma ExitAllowed(d: Decision, c: Context)
    requires c.settings.riskEnabled && Opposes(d.signal, PositionFor(c.positions, d.symbol))
    requires Evaluate(d, c).Gate?
    ensures Evaluate(d, c).allowed && Evaluate(d, c).op.Some?
  {
    hide FirstRefusal, ClipSize, VarPct, OpenQty, OpenMetrics, BaseWeight, LotSizeFor, DesiredQty, Notional, PnlPct,
         ProfitLadder, Bracket;
  }

  // ---- What an allowed opening has passed --------------------------------

  /** An opening (or the opening part of a flip) is recognised by its effective size. */
  predicate IsOpeningGate(g: Gate) { g.Gate? && g.effectiveSize.Some? }

  function OpenedQty(g: Gate): int
    requires g.Gate?
  {
    if g.flipOpenQty.Some? then g.flipOpenQty.value else if g.qty.Some? then g.qty.value else 0
  }

  /** Everything the gates established about an opening of `qty` lots. */
  ghost predicate OpeningPassed(d: Decision, c: Context, size: real, qty: int) {
    var s := c.settings;
    var plan := PlanFor(d, c);
    var m := OpenMetrics(d, c, qty);
    && c.lastPrice > 0.0 && 0 < qty <= OpenQty(d, c, plan, size)
    && (plan.flipClose.Some? ==> c.nav != 0.0)
    && size <= d.sizePct
    && size <= s.maxInstrumentWeight - BaseWeight(d, c, plan)
    && size <= s.maxSectorWeight - SectorCurrent(d, c, plan)
    && VarPct(c, d.symbol, BaseWeight(d, c, plan) + size) <= s.maxVarPct
    && (plan.long ==> m.totalCost <= c.cash * (1.0 - s.cashBuffer))
    && (s.maxTickBuyPct > 0.0 ==> c.tickBuySpent + m.totalCost <= TickBudget(c))
  }

  lemma OpeningEvaluated(d: Decision, c: Context)
    requires IsOpeningGate(Evaluate(d, c))
    ensures !d.signal.Hold? && !ClosesOnly(d, c) && Evaluate(d, c) == EvaluateOpening(d, c, PlanFor(d, c))
  {
    hide EvaluateOpening, PlanFor, PnlPct, ProfitLadder, Bracket, TrimLots, DesiredQty, Notional, LotSizeFor;
  }

  lemma OpeningHasPassed(d: Decision, c: Context)
    requires IsOpeningGate(Evaluate(d, c))
    ensures var g := Evaluate(d, c); var plan := PlanFor(d, c);
      && g.allowed && g.op == Some(plan.openOp)
      && OpeningPassed(d, c, g.effectiveSize.value, OpenedQty(g))
      && g.metrics == OpenMetrics(d, c, OpenedQty(g))
      && g.flipCloseQty == plan.flipClose
  {
    OpeningEvaluated(d, c);
    hide Evaluate, VarPct, SectorCurrent, BaseWeight, PlanFor, DesiredQty, Notional, LotSizeFor, OpenQty, DrawdownPct,
         DailyPnlPct;
  }

  /** Against a NAV no smaller than the cash, the order weighs no more than the effective size. */
  lemma OpenedShareWithinSize(d: Decision, c: Context, size: real, qty: int)
    requires OpeningPassed(d, c, size, qty) && c.cash <= c.nav
    ensures c.nav > 0.0
    ensures size > 0.0
    ensures Share(Notional(qty, LotSizeFor(d.symbol, c.lotSizes), c.lastPrice), c.nav) <= size
  {
    hide OpeningPassed, Notional, LotSizeFor;
    var lot := LotSizeFor(d.symbol, c.lotSizes);
    OpenedFitsCash(d, c, size, qty);
    var n := Notional(qty, lot, c.lastPrice);
    ScaleLess(c.cash, c.nav, size);
    ShareAtMost(n, size, c.nav);
  }

  lemma OpenedFitsCash(d: Decision, c: Context, size: real, qty: int)
    requires OpeningPassed(d, c, size, qty)
    ensures c.cash > 0.0 && size > 0.0
    ensures 0.0 < Notional(qty, LotSizeFor(d.symbol, c.lotSizes), c.lastPrice) <= c.cash * size
  {
    hide VarPct, SectorCurrent, BaseWeight, PlanFor, QuantityForBuy, Notional, LotSizeFor, OpenMetrics, TickBudget;
    ClippedQuantityFits(qty, c.cash, size, c.lastPrice, LotSizeFor(d.symbol, c.lotSizes));
  }

  lemma ShareAtMost(x: real, size: real, nav: real)
    requires nav > 0.0 && x <= nav * size
    ensures Share(x, nav) <= size
  {
    var y := Share(x, nav);
    QuotientTimes(x, nav);
    if y > size {
      ProductPositive(y - size, nav);
      assert (y - size) * nav == y * nav - size * nav;
    }
  }

  lemma ShareAdds(x: real, y: real, nav: real)
    requires nav != 0.0
    ensures Share(x, nav) + Share(y, nav) == Share(x + y, nav)
  {}

  /** An allowed opening keeps the weight of its ticker within the cap. */
  lemma InstrumentCapHolds(d: Decision, c: Context)
    requires IsOpeningGate(Evaluate(d, c)) && c.cash <= c.nav
    ensures c.nav > 0.0
    ensures var after := PlanFor(d, c).baseAbsQty + OpenedQty(Evaluate(d, c));
      Share(Notional(after, LotSizeFor(d.symbol, c.lotSizes), c.lastPrice), c.nav) <= c.settings.maxInstrumentWeight
  {
    OpeningHasPassed(d, c);
    var g := Evaluate(d, c);
    var size, qty := g.effectiveSize.value, OpenedQty(g);
    OpenedShareWithinSize(d, c, size, qty);
    var lot := LotSizeFor(d.symbol, c.lotSizes);
    var plan := PlanFor(d, c);
    hide Evaluate, PlanFor, VarPct, SectorCurrent, Notional, LotSizeFor, Share;
    NotionalAdds(plan.baseAbsQty, qty, lot, c.lastPrice);
    ShareAdds(Notional(plan.baseAbsQty, lot, c.lastPrice), Notional(qty, lot, c.lastPrice), c.nav);
  }

  /** Without that condition the cap scales with the cash: what the ticker is
      worth after the opening is the cap's share of the larger of cash and NAV. */
  lemma ScaledCapHolds(d: Decision, c: Context)
    requires IsOpeningGate(Evaluate(d, c)) && c.nav > 0.0
    ensures var after := PlanFor(d, c).baseAbsQty + OpenedQty(Evaluate(d, c));
      Notional(after, LotSizeFor(d.symbol, c.lotSizes), c.lastPrice)
         <= c.settings.maxInstrumentWeight * MaxReal(c.cash, c.nav)
  {
    hide Evaluate, PlanFor, VarPct, SectorCurrent, Notional, LotSizeFor, Share, OpeningPassed, BaseWeight, OpenedQty;
    OpeningHasPassed(d, c);
    var size, qty := Evaluate(d, c).effectiveSize.value, OpenedQty(Evaluate(d, c));
    var lot, base := LotSizeFor(d.symbol, c.lotSizes), PlanFor(d, c).baseAbsQty;
    OpenedFitsCash(d, c, size, qty);
    PassedRoom(d, c, size, qty);
    NotionalAdds(base, qty, lot, c.lastPrice);
    ScaledRoom(Notional(base, lot, c.lastPrice), Notional(qty, lot, c.lastPrice), BaseWeight(d, c, PlanFor(d, c)), size,
               c.settings.maxInstrumentWeight, c.cash, c.nav);
  }

  lemma PassedRoom(d: Decision, c: Context, size: real, qty: int)
    requires OpeningPassed(d, c, size, qty) && c.nav > 0.0
    ensures size <= c.settings.maxInstrumentWeight - BaseWeight(d, c, PlanFor(d, c))
    ensures BaseWeight(d, c, PlanFor(d, c)) * c.nav
         == Notional(PlanFor(d, c).baseAbsQty, LotSizeFor(d.symbol, c.lotSizes), c.lastPrice) >= 0.0
  {
    hide PlanFor, VarPct, SectorCurrent, OpenQty, OpenMetrics, TickBudget, LotSizeFor, Notional;
    var lot, base := LotSizeFor(d.symbol, c.lotSizes), PlanFor(d, c).baseAbsQty;
    NotionalNonNegative(base, lot, c.lastPrice);
    QuotientTimes(Notional(base, lot, c.lastPrice), c.nav);
  }

  lemma ScaledRoom(held: real, added: real, base: real, size: real, cap: real, cash: real, nav: real)
    requires nav > 0.0 && cash > 0.0 && size > 0.0 && size <= cap - base
    requires base * nav == held >= 0.0 && added <= cash * size
    ensures held + added <= cap * MaxReal(cash, nav)
  {
    var m := MaxReal(cash, nav);
    if base < 0.0 {
      ProductPositive(-base, nav);
    }
    ScaleLess(nav, m, base);
    ScaleLess(cash, m, size);
    ScaleLess(size, cap - base, m);
    assert (cap - base) * m == cap * m - base * m;
  }
}
