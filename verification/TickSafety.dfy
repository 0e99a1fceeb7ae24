/** Solvency and exposure: what the simulated book satisfies after every step. */
module TickSafety {
  import opened Money
  import opened Portfolio
  import opened Sizing
  import opened Operations
  import opened Risk
  import opened RiskProperties
  import opened Orders
  import opened Simulation
  import opened Fills
  import opened Accounting
  import opened TickSteps
  import opened TickNav
  import opened TickLimits

  // ---- Sound marks: no short trades above twice its entry ----------------

  predicate SoundRow(q: int, avg: real, mark: real) {
    (q > 0 ==> mark >= 0.0) && (q < 0 ==> mark <= 2.0 * avg)
  }

  ghost predicate SoundMarks(ps: seq<Position>, prices: map<string, real>) {
    forall p :: p in ps ==> SoundRow(p.lots, p.avgPrice, Mark(p, prices))
  }

  lemma SoundRowHasValue(q: int, avg: real, lot: int, mark: real)
    requires SoundRow(q, avg, mark) && lot >= 1
    ensures CollateralValue(q, avg, lot, mark) >= 0.0
  {
    ValueOf(q, avg, lot, mark);
    if q > 0 {
      NotionalNonNegative(q, lot, mark);
    } else if q < 0 {
      NotionalNonNegative(-q, lot, 2.0 * avg - mark);
      NotionalDifference(-q, lot, 2.0 * avg, mark);
      assert Notional(-q, lot, 2.0 * avg) == 2.0 * Notional(-q, lot, avg);
    }
  }

  /** Available cash never exceeds the NAV of a soundly marked book. */
  lemma CashWithinNav(cash: real, ps: seq<Position>, prices: map<string, real>, lotSizes: map<string, int>)
    requires SoundMarks(ps, prices)
    ensures cash <= PortfolioNav(cash, ps, prices, lotSizes)
  {
    forall p | p in ps ensures ValueTerm(prices, lotSizes)(p) >= 0.0 {
      SoundRowHasValue(p.lots, p.avgPrice, EffectiveLot(p, lotSizes), Mark(p, prices));
    }
    TotalNonNegative(ps, ValueTerm(prices, lotSizes));
  }

  /** Trading at the mark keeps a row sound: an average of entries at or above
      half the price is itself at or above half the price. */
  lemma FillKeepsSoundRow(q: int, avg: real, delta: int, price: real)
    requires SoundRow(q, avg, price) && price > 0.0
    ensures SoundRow(q + delta, AverageAfter(q, avg, delta, price), price)
  {
    if q + delta < 0 && q < 0 && delta < 0 {
      var n, k := Abs(q) as real, Abs(delta) as real;
      var cost := n * avg + k * price;
      var mean := cost / (n + k);
      QuotientTimes(cost, n + k);
      ProductNonNegative(n, 2.0 * avg - price);
      ProductNonNegative(k, price);
      assert n * (2.0 * avg - price) == 2.0 * (n * avg) - n * price;
      assert (n + k) * price == n * price + k * price;
      if price > 2.0 * mean {
        ProductPositive(price - 2.0 * mean, n + k);
        assert (price - 2.0 * mean) * (n + k) == price * (n + k) - 2.0 * (mean * (n + k));
      }
      assert Abs(q + delta) as real == n + k;
    } else if q + delta != 0 && delta != 0 && q != 0 && ClosedLots(q, delta) > 0 {
      KeptAverage(q, avg, delta, price);
    }
  }

  /** Rows after a fill: other tickers untouched, one row for the traded one. */
  lemma RowsAfterFill(ps: seq<Position>, secid: string, delta: int, price: real)
    requires UniqueSecids(ps)
    ensures var ps' := FillPositions(ps, secid, delta, price);
      forall p :: p in ps' ==>
        if p.secid == secid then p.lots == PositionFor(ps', secid) && p.avgPrice == AvgPriceFor(ps', secid) else p in ps
  {
    var ps' := FillPositions(ps, secid, delta, price);
    FillLookup(ps, secid, delta, price);
    forall p | p in ps'
      ensures if p.secid == secid then p.lots == PositionFor(ps', secid)
        && p.avgPrice == AvgPriceFor(ps', secid) else p in ps
    {
      if p.secid == secid {
        var i :| 0 <= i < |ps'| && ps'[i] == p;
        hide FillPositions, PositionFor, AvgPriceFor;
        LookupRow(ps', i);
      } else {
        FillOthers(ps, secid, delta, price, p);
      }
    }
  }

  lemma FillOthers(ps: seq<Position>, secid: string, delta: int, price: real, p: Position)
    requires p in FillPositions(ps, secid, delta, price) && p.secid != secid
    ensures p in ps
  {
    hide StepPositions, PositionFor;
    var q := PositionFor(ps, secid);
    if Crosses(q, delta) {
      StepOthers(StepPositions(ps, secid, -q, price), secid, q + delta, price, p);
      StepOthers(ps, secid, -q, price, p);
    } else if delta != 0 {
      StepOthers(ps, secid, delta, price, p);
    }
  }

  lemma StepOthers(ps: seq<Position>, secid: string, delta: int, price: real, p: Position)
    requires p in StepPositions(ps, secid, delta, price) && p.secid != secid
    ensures p in ps
  {
    hide NewAverage;
  }

  lemma FillKeepsSoundMarks(ps: seq<Position>, prices: map<string, real>, secid: string, delta: int)
    requires UniqueSecids(ps) && SoundMarks(ps, prices) && secid in prices && prices[secid] > 0.0
    ensures SoundMarks(FillPositions(ps, secid, delta, prices[secid]), prices)
  {
    var price := prices[secid];
    var ps' := FillPositions(ps, secid, delta, price);
    FillLookup(ps, secid, delta, price);
    RowsAfterFill(ps, secid, delta, price);
    var q, avg := PositionFor(ps, secid), AvgPriceFor(ps, secid);
    var i := IndexOf(ps, secid);
    assert SoundRow(q, avg, price) by {
      if i >= 0 {
        assert ps[i] in ps;
      }
    }
    FillKeepsSoundRow(q, avg, delta, price);
    hide FillPositions, PositionFor, AvgPriceFor, IndexOf, AverageAfter;
    forall p | p in ps' ensures SoundRow(p.lots, p.avgPrice, Mark(p, prices)) {}
  }

  // ---- Solvency ----------------------------------------------------------

  /** Settings under which clipping alone pays for a short: cap * (1 + rate) <= 1. */
  predicate SolventSettings(s: Settings) {
    && s.maxInstrumentWeight * (1.0 + CommissionRate(s)) <= 1.0
    && CommissionRate(s) <= 1.0
    && s.cashBuffer >= 0.0
  }

  lemma ShareOfCash(cash: real, size: real, cap: real, rate: real)
    requires cash > 0.0 && 0.0 < size <= cap && rate >= 0.0 && cap * (1.0 + rate) <= 1.0
    ensures Grossed(cash * size, rate) <= cash
  {
    ScaleLess(size, cap, 1.0 + rate);
    ScaleLess(size * (1.0 + rate), 1.0, cash);
    assert (cash * size) * (1.0 + rate) == (size * (1.0 + rate)) * cash;
  }

  lemma BaseWeightNonNegative(d: Decision, c: Context)
    requires c.lastPrice > 0.0
    ensures BaseWeight(d, c, PlanFor(d, c)) >= 0.0
  {
    hide PlanFor, LotSizeFor, Notional;
    var n := Notional(PlanFor(d, c).baseAbsQty, LotSizeFor(d.symbol, c.lotSizes), c.lastPrice);
    NotionalNonNegative(PlanFor(d, c).baseAbsQty, LotSizeFor(d.symbol, c.lotSizes), c.lastPrice);
    if c.nav > 0.0 {
      ShareNonNegative(n, c.nav);
    }
  }

  lemma ShareNonNegative(x: real, nav: real)
    requires x >= 0.0 && nav > 0.0
    ensures Share(x, nav) >= 0.0
  {
    QuotientTimes(x, nav);
    var y := Share(x, nav);
    if y < 0.0 {
      ProductPositive(-y, nav);
    }
  }

  lemma OpeningSizeFits(d: Decision, c: Context, size: real, qty: int)
    requires OpeningPassed(d, c, size, qty)
    ensures c.lastPrice > 0.0 && size <= c.settings.maxInstrumentWeight - BaseWeight(d, c, PlanFor(d, c))
  {
    hide BaseWeight, VarPct, SectorCurrent, PlanFor, OpenQty, OpenMetrics, TickBudget;
  }

  /** What an allowed opening costs, long or short, is covered by the cash before it. */
  lemma OpeningIsPaid(d: Decision, c: Context, size: real, qty: int)
    requires OpeningPassed(d, c, size, qty) && SolventSettings(c.settings)
    ensures OpenMetrics(d, c, qty).totalCost <= c.cash
  {
    hide OpeningPassed, Notional, LotSizeFor, PlanFor, BaseWeight, CommissionRate, Fee;
    OpenedFitsCash(d, c, size, qty);
    OpeningSizeFits(d, c, size, qty);
    BaseWeightNonNegative(d, c);
    var rate := CommissionRate(c.settings);
    var n := Notional(qty, LotSizeFor(d.symbol, c.lotSizes), c.lastPrice);
    ShareWithFee(n, c.cash, size, c.settings.maxInstrumentWeight, rate);
  }

  lemma ShareWithFee(n: real, cash: real, size: real, cap: real, rate: real)
    requires n <= cash * size && cash > 0.0 && 0.0 < size <= cap && rate >= 0.0 && cap * (1.0 + rate) <= 1.0
    ensures n + Fee(n, rate) <= cash
  {
    hide Grossed, Fee;
    ShareOfCash(cash, size, cap, rate);
    GrossedGrows(n, cash * size, rate);
    FeeOnTop(n, rate);
  }

  /** An amount with the commission on it. */
  function Grossed(n: real, rate: real): real { n * (1.0 + rate) }

  lemma GrossedGrows(n: real, m: real, rate: real)
    requires n <= m && rate >= 0.0
    ensures Grossed(n, rate) <= Grossed(m, rate)
  {
    ScaleLess(n, m, 1.0 + rate);
  }

  lemma FeeOnTop(n: real, rate: real)
    ensures Grossed(n, rate) == n + Fee(n, rate)
  {}

  /** The metrics a reduction of `k` lots can carry: the notional is right or
      (fallback) lacks the lot size; the commission is absent or left over from
      the refused opening. */
  ghost predicate ReductionMetrics(m: Metrics, k: int, lot: int, price: real, cash: real) {
    && m.lotSize == lot
    && (m.notional == Notional(k, lot, price) || m.notional == (k as real) * price)
    && 0.0 <= m.commission <= cash
  }

  lemma TrimMetrics(d: Decision, c: Context)
    requires RiskTrim(d, c).Some? && c.cash >= 0.0
    ensures var g := RiskTrim(d, c).value;
      g.Gate? && ReductionMetrics(g.metrics, ReducingLots(g), LotSizeFor(d.symbol, c.lotSizes), c.lastPrice, c.cash)
  {
    hide PositionFor, LotSizeFor, Notional, TrimLots, OverCapBand, TrimPnl;
  }

  lemma ExitMetrics(d: Decision, c: Context)
    requires RiskPnlExit(d, c).Some? && c.cash >= 0.0
    ensures var g := RiskPnlExit(d, c).value;
      g.Gate? && ReductionMetrics(g.metrics, ReducingLots(g), LotSizeFor(d.symbol, c.lotSizes), c.lastPrice, c.cash)
  {
    hide PositionFor, LotSizeFor, Notional, ProfitLadder, Bracket, PnlPct;
  }

  lemma CloseMetrics(d: Decision, c: Context)
    requires c.cash >= 0.0
    ensures var g := CloseGate(d, c);
      ReductionMetrics(g.metrics, ReducingLots(g), LotSizeFor(d.symbol, c.lotSizes), c.lastPrice, c.cash)
  {
    hide PositionFor, LotSizeFor, Notional, DesiredQty;
  }

  lemma FallbackMetrics(m: Metrics, plan: Plan, price: real, name: GateName, lot: int, cash: real)
    requires m.lotSize == lot && 0.0 <= m.commission <= cash
    requires FlipFallbackOrBlock(m, plan, price, name).allowed
    ensures var g := FlipFallbackOrBlock(m, plan, price, name);
      ReductionMetrics(g.metrics, ReducingLots(g), lot, price, cash)
  {}

  lemma OpeningOrReduction(d: Decision, c: Context)
    requires SolventSettings(c.settings) && c.cash >= 0.0 && c.lastPrice > 0.0
    requires var g := EvaluateOpening(d, c, PlanFor(d, c)); g.Gate? && g.allowed && g.op.Some? && !IsOpening(g.op.value)
    ensures var g := EvaluateOpening(d, c, PlanFor(d, c));
      ReductionMetrics(g.metrics, ReducingLots(g), LotSizeFor(d.symbol, c.lotSizes), c.lastPrice, c.cash)
  {
    hide PlanFor, FirstRefusal, SecondRefusal, VarPct, OpenQty, OpenMetrics, ClipSize, BaseWeight, LotSizeFor,
         CommissionRate, ReductionMetrics, IsOpening, FlipFallbackOrBlock, ReducingLots;
    var plan := PlanFor(d, c);
    var lot := LotSizeFor(d.symbol, c.lotSizes);
    PlanOpens(d, c);
    var m0 := NO_METRICS.(lotSize := lot);
    var first := FirstRefusal(d, c);
    if first.Some? {
      FallbackMetrics(m0, plan, c.lastPrice, first.value, lot, c.cash);
    } else if ClipSize(d, c, plan).Refused? {
      FallbackMetrics(m0, plan, c.lastPrice, ClipSize(d, c, plan).name, lot, c.cash);
    } else if ClipSize(d, c, plan).Clipped? {
      var size := ClipSize(d, c, plan).size;
      var qty := OpenQty(d, c, plan, size);
      var m := OpenMetrics(d, c, qty);
      if VarPct(c, d.symbol, BaseWeight(d, c, plan) + size) > c.settings.maxVarPct {
        FallbackMetrics(m0, plan, c.lastPrice, VarGate, lot, c.cash);
      } else if SecondRefusal(c, plan, qty, m).Some? {
        RefusedOpeningCommission(d, c, size);
        FallbackMetrics(m, plan, c.lastPrice, SecondRefusal(c, plan, qty, m).value, lot, c.cash);
      }
    }
  }

  lemma PlanOpens(d: Decision, c: Context)
    ensures IsOpening(PlanFor(d, c).openOp)
  {
    hide DesiredQty, PositionFor;
  }

  lemma ClippedWithinCap(d: Decision, c: Context, size: real)
    requires ClipSize(d, c, PlanFor(d, c)) == Clipped(size)
    ensures size <= c.settings.maxInstrumentWeight - BaseWeight(d, c, PlanFor(d, c))
  {
    hide PlanFor, BaseWeight, SectorCurrent;
  }

  lemma RateOfPaid(n: real, amount: real, rate: real, cash: real)
    requires 0.0 <= n <= amount && rate >= 0.0 && amount * (1.0 + rate) <= cash
    ensures 0.0 <= n * rate <= cash
  {
    ScaleLess(n, amount, rate);
    ProductNonNegative(n, rate);
    assert amount * (1.0 + rate) == amount + amount * rate;
  }

  lemma RefusedOpeningCommission(d: Decision, c: Context, size: real)
    requires ClipSize(d, c, PlanFor(d, c)) == Clipped(size)
    requires SolventSettings(c.settings) && c.cash >= 0.0 && c.lastPrice > 0.0
    ensures var m := OpenMetrics(d, c, OpenQty(d, c, PlanFor(d, c), size));
      m.lotSize == LotSizeFor(d.symbol, c.lotSizes) && 0.0 <= m.commission <= c.cash
  {
    hide PlanFor, Notional, LotSizeFor, ClipSize, QuantityForBuy, BaseWeight, CommissionRate;
    BaseWeightNonNegative(d, c);
    ClippedWithinCap(d, c, size);
    var qty := OpenQty(d, c, PlanFor(d, c), size);
    var rate := CommissionRate(c.settings);
    var lot := LotSizeFor(d.symbol, c.lotSizes);
    var n := Notional(qty, lot, c.lastPrice);
    if qty == 0 {
      ZeroLots(lot, c.lastPrice);
    } else {
      ClippedQuantityFits(qty, c.cash, size, c.lastPrice, lot);
      ShareOfCash(c.cash, size, c.settings.maxInstrumentWeight, rate);
      ProductPositive(c.cash, size);
      RateOfPaid(n, c.cash * size, rate, c.cash);
    }
  }

  lemma ReducingMetrics(d: Decision, c: Context)
    requires var g := Evaluate(d, c); g.Gate? && g.allowed && g.op.Some? && !IsOpening(g.op.value)
    requires SolventSettings(c.settings) && c.cash >= 0.0 && c.lastPrice > 0.0
    ensures ReductionMetrics(Evaluate(d, c).metrics, ReducingLots(Evaluate(d, c)), LotSizeFor(d.symbol, c.lotSizes),
                             c.lastPrice, c.cash)
  {
    hide RiskTrim, RiskPnlExit, CloseGate, ClosesOnly, EvaluateOpening, PlanFor, LotSizeFor, ReductionMetrics,
         IsOpening, ReducingLots;
    if RiskTrim(d, c).Some? {
      TrimMetrics(d, c);
    }
    if RiskPnlExit(d, c).Some? {
      ExitMetrics(d, c);
    }
    CloseMetrics(d, c);
    if Evaluate(d, c) == EvaluateOpening(d, c, PlanFor(d, c)) {
      OpeningOrReduction(d, c);
    }
  }

  lemma PositiveReduction(g: Gate, signal: Signal, q: int, allowFlip: bool)
    requires FitsPosition(g, signal, q, allowFlip) && g.allowed && g.op.Some? && !IsOpening(g.op.value)
    ensures ReducingLots(g) >= 1 && g.qty == Some(ReducingLots(g)) && g.flipCloseQty.None? && g.flipOpenQty.None?
  {}

  lemma NotionalAtLeast(qty: int, lot: int, price: real)
    requires qty >= 1 && lot >= 1 && price > 0.0
    ensures 0.0 < (qty as real) * price <= Notional(qty, lot, price)
  {
    LotValuePositive(lot, price);
    ProductPositive(qty as real, price);
    ScaleLess(1.0, lot as real, price);
    ScaleLess(price, LotValue(lot, price), qty as real);
  }

  /** The commission estimated for a reducing order never exceeds cash plus proceeds. */
  lemma ReductionIsPaid(m: Metrics, k: int, lot: int, price: real, cash: real, rate: real)
    requires ReductionMetrics(m, k, lot, price, cash) && k >= 1 && lot >= 1 && price > 0.0 && 0.0 <= rate <= 1.0
    ensures var n := Notional(k, lot, price);
      0.0 <= OrElse(m.commission, Fee(OrElse(m.notional, n), rate)) <= cash + n
  {
    var n := Notional(k, lot, price);
    NotionalAtLeast(k, lot, price);
    hide Notional;
    FeeWithinNotional(OrElse(m.notional, n), rate);
  }

  lemma ReducingAction(d: Decision, g: Gate, price: real, trades: int, limit: int, rate: real, r: Replies)
    requires g.Gate?
    ensures var a := ApplyGate(d, g, price, trades, limit, rate, r).action;
      a.Submitted? && !IsOpening(a.op) ==>
        && g.allowed
        && (if g.flipCloseQty.Some? && g.flipOpenQty.Some? then
              a.qty == g.flipCloseQty.value
                && a.estimatedCommission == Fee(Notional(a.qty, g.metrics.lotSize, price), rate)
            else
              a.qty == (if g.qty.Some? then g.qty.value else 0)
              && (g.op.Some? ==> !IsOpening(g.op.value))
              && a.estimatedCommission
                 == OrElse(g.metrics.commission,
                           Fee(OrElse(g.metrics.notional, Notional(a.qty, g.metrics.lotSize, price)), rate)))
  {
    hide Notional, RoundStep;
  }

  /** The estimate for a reducing order is covered by the cash and its proceeds. */
  lemma ReducingStepIsPaid(env: Env, st: Live, item: Item)
    requires Applies(env, st, item) && item.lastPrice > 0.0 && st.cash >= 0.0 && SolventSettings(env.settings)
    requires var a := OutcomeFor(env, st, item).action; a.Submitted? && !IsOpening(a.op) && a.qty > 0
    ensures var a := OutcomeFor(env, st, item).action;
      0.0 <= a.estimatedCommission
      <= st.cash + Notional(a.qty, LotSizeFor(item.decision.symbol, env.lotSizes), item.lastPrice)
  {
    hide Evaluate, ApplyGate, Notional, LotSizeFor, FitsPosition, PositionFor, IsOpening, ReductionMetrics,
         OpenMetrics, OpeningPassed, PlanFor, OpenedQty, SolventSettings, OrElse, IsFlip, Fee;
    var d, c, g := item.decision, ContextFor(env, st, item), GateFor(env, st, item);
    var rate := CommissionRate(env.settings);
    var lot := LotSizeFor(d.symbol, env.lotSizes);
    var q := PositionFor(st.positions, d.symbol);
    RateAtMostOne(env.settings);
    ReducingAction(d, g, item.lastPrice, st.trades, env.tradeLimit, rate, item.replies);
    EvaluateFitsPosition(d, c);
    FlipGateParts(g, d.signal, q, env.settings.allowFlip);
    NoOpNoQty(g, d.signal, q, env.settings.allowFlip);
    var a := OutcomeFor(env, st, item).action;
    if g.flipCloseQty.Some? {
      FlipOpens(g.op.value);
      OpeningOpsPassedTheGates(d, c);
      OpeningHasPassed(d, c);
      OpenMetricsLot(d, c, OpenedQty(g));
      NotionalAtLeast(a.qty, lot, item.lastPrice);
      FeeWithinNotional(Notional(a.qty, lot, item.lastPrice), rate);
    } else {
      PositiveReduction(g, d.signal, q, env.settings.allowFlip);
      ReducingMetrics(d, c);
      ReductionLot(g.metrics, ReducingLots(g), lot, item.lastPrice, st.cash);
      ReductionIsPaid(g.metrics, ReducingLots(g), lot, item.lastPrice, st.cash, rate);
    }
  }

  lemma FeeWithinNotional(n: real, rate: real)
    requires n >= 0.0 && 0.0 <= rate <= 1.0
    ensures 0.0 <= Fee(n, rate) <= n
  {
    ProductNonNegative(n, rate);
    ScaleLess(rate, 1.0, n);
    assert rate * n == n * rate;
  }

  lemma RateAtMostOne(s: Settings)
    requires SolventSettings(s)
    ensures 0.0 <= CommissionRate(s) <= 1.0
  {}

  lemma ReductionLot(m: Metrics, k: int, lot: int, price: real, cash: real)
    requires ReductionMetrics(m, k, lot, price, cash)
    ensures m.lotSize == lot
  {}

  lemma OpenMetricsLot(d: Decision, c: Context, qty: int)
    ensures OpenMetrics(d, c, qty).lotSize == LotSizeFor(d.symbol, c.lotSizes)
  {}

  lemma FlipOpens(op: OpType)
    requires IsFlip(op)
    ensures IsOpening(op)
  {}

  lemma NoOpNoQty(g: Gate, signal: Signal, q: int, allowFlip: bool)
    requires FitsPosition(g, signal, q, allowFlip) && g.allowed
    ensures g.op.None? ==> g.qty.None? && g.flipCloseQty.None?
  {}

  lemma FlipIsPaid(closed: real, opening: real, rate: real, cash: real)
    requires closed >= 0.0 && 0.0 <= rate <= 1.0 && opening + Fee(opening, rate) <= cash
    ensures Fee(closed + opening, rate) <= cash + closed - opening
  {
    FeeWithinNotional(closed, rate);
    assert (closed + opening) * rate == closed * rate + opening * rate;
  }

  /** The cash that the broker reports, if any, is not negative. */
  predicate SoundReport(reported: Option<real>) { reported.Some? ==> reported.value >= 0.0 }

  /** From non-negative cash, a step leaves negative cash exactly when the broker reports it. */
  lemma StepSolvent(env: Env, st: Live, item: Item)
    requires st.cash >= 0.0 && SolventSettings(env.settings) && (item.Priced? ==> NoCommission(item.replies))
    ensures TickStep(env, st, item).cash >= 0.0 <==> SoundReport(StepReport(env, st, item))
  {
    if Applies(env, st, item) {
      if item.lastPrice > 0.0 {
        hide TickStep, Reported;
        StepIsFill(env, st, item);
        SimulatedStepSolvent(env, st, item);
      } else {
        NoPriceNoDelta(OutcomeFor(env, st, item).action, item.lastPrice, item.decision.symbol, st.cash, st.positions,
                       env.lotSizes);
        NothingReported(OutcomeFor(env, st, item).action, item.lastPrice);
      }
    }
  }

  lemma ChargedEstimate(d: Decision, g: Gate, price: real, trades: int, limit: int, rate: real, r: Replies)
    requires g.Gate? && NoCommission(r)
    ensures var a := ApplyGate(d, g, price, trades, limit, rate, r).action;
      Charged(a, price) == if NoDelta(a, price)
        || !(a.Submitted? || a.FlipExecuted?) then 0.0 else a.estimatedCommission
  {
    hide Notional, RoundStep;
  }

  lemma SimulatedStepSolvent(env: Env, st: Live, item: Item)
    requires Applies(env, st, item) && item.lastPrice > 0.0
    requires st.cash >= 0.0 && SolventSettings(env.settings) && NoCommission(item.replies)
    ensures SimulatedCash(env, st, item) >= 0.0
  {
    hide Evaluate, ApplyGate, Notional, LotSizeFor, PositionFor, IsOpening, IsFlip, OpenMetrics, OpeningPassed,
         Charged, TickStep, NetLots, FitsPosition, PlanFor, OpenedQty, SolventSettings, OpensPosition, SpendOf, Fee;
    var d, c, g := item.decision, ContextFor(env, st, item), GateFor(env, st, item);
    var rate := CommissionRate(env.settings);
    var lot := LotSizeFor(d.symbol, env.lotSizes);
    var q, delta := PositionFor(st.positions, d.symbol), NetLots(env, st, item);
    var a := OutcomeFor(env, st, item).action;
    StepShape(env, st, item);
    ChargedEstimate(d, g, item.lastPrice, st.trades, env.tradeLimit, rate, item.replies);
    ZeroLots(lot, item.lastPrice);
    RateAtMostOne(env.settings);
    if a.FlipExecuted? || (a.Submitted? && IsOpening(a.op)) {
      FlipOrOpening(a);
      OpeningStep(env, st, item);
      OpeningIsPaid(d, c, g.effectiveSize.value, OpenedQty(g));
      OpenMetricsParts(d, c, g.effectiveSize.value, OpenedQty(g));
      if a.FlipExecuted? {
        NotionalAdds(a.closeQty, a.openQty, lot, item.lastPrice);
        NotionalNonNegative(a.closeQty, lot, item.lastPrice);
        FlipIsPaid(Notional(a.closeQty, lot, item.lastPrice), Notional(a.openQty, lot, item.lastPrice), rate, st.cash);
      }
    } else if a.Submitted? && a.qty > 0 {
      ReducingStepIsPaid(env, st, item);
    }
  }

  lemma FlipOrOpening(a: Action)
    requires (a.FlipExecuted? && IsFlip(a.op)) || (a.Submitted? && IsOpening(a.op))
    ensures OpensPosition(a)
  {}

  /** No step of the tick reports negative cash. */
  predicate SoundReports(env: Env, st: Live, items: seq<Item>)
    decreases |items|
  {
    items == []
    || (SoundReport(StepReport(env, st, items[0])) && SoundReports(env, TickStep(env, st, items[0]), items[1..]))
  }

  /** In-tick solvency, for every order of tickers and every pattern of accepted
      and rejected orders: unless the broker itself reports negative cash, the
      live cash never goes negative. */
  lemma {:induction false} Solvency(env: Env, st: Live, items: seq<Item>)
    requires st.cash >= 0.0 && SolventSettings(env.settings) && NoCommissions(items) && SoundReports(env, st, items)
    ensures RunItems(env, st, items).cash >= 0.0
    decreases |items|
  {
    hide TickStep, NoCommission, SolventSettings, StepReport;
    if items != [] {
      StepSolvent(env, st, items[0]);
      Solvency(env, TickStep(env, st, items[0]), items[1..]);
    }
  }

  ghost predicate NoCommissions(items: seq<Item>) {
    forall i :: 0 <= i < |items| && items[i].Priced? ==> NoCommission(items[i].replies)
  }
}
