/** Stops, take-profits and trims: when exactly they fire, and that an exit
    reaches the broker. */
module Exits {
  import opened Money
  import opened Portfolio
  import opened Operations
  import opened Sizing
  import opened Risk
  import opened RiskProperties
  import opened Openings
  import opened Orders
  import opened Simulation
  import opened Trim

  // ---- Profit in per cent and in the NAV ---------------------------------

  /** Unrealized profit of a position, as the NAV carries it above its collateral. */
  function Unrealized(q: int, avg: real, lot: int, price: real): real {
    CollateralValue(q, avg, lot, price) - Notional(Abs(q), lot, avg)
  }

  lemma ScaledGain(n: real, lot: real, avg: real, gain: real)
    requires avg > 0.0
    ensures (gain / avg) * (n * (lot * avg)) == n * (lot * gain)
  {
    QuotientTimes(gain, avg);
    assert (gain / avg) * (n * (lot * avg)) == n * (lot * ((gain / avg) * avg));
  }

  /** The percentage that stops and take-profits look at is the share of the
      entry cost by which the NAV carries the position above its collateral. */
  lemma PnlIsUnrealizedShare(q: int, avg: real, lot: int, price: real)
    requires avg > 0.0 && q != 0
    ensures PnlPct(q, avg, price) * Notional(Abs(q), lot, avg) == Unrealized(q, avg, lot, price)
  {
    var gain := if q < 0 then avg - price else price - avg;
    ScaledGain(Abs(q) as real, lot as real, avg, gain);
  }

  lemma PnlAtMost(q: int, avg: real, lot: int, price: real, bound: real)
    requires avg > 0.0 && q != 0 && lot > 0
    ensures PnlPct(q, avg, price) <= bound <==> Unrealized(q, avg, lot, price) <= bound * Notional(Abs(q), lot, avg)
  {
    PnlIsUnrealizedShare(q, avg, lot, price);
    EntryCostPositive(q, avg, lot);
    hide PnlPct, Unrealized, Notional;
    var pnl, cost := PnlPct(q, avg, price), Notional(Abs(q), lot, avg);
    if pnl <= bound {
      ScaleLess(pnl, bound, cost);
    } else {
      ProductPositive(pnl - bound, cost);
      assert (pnl - bound) * cost == pnl * cost - bound * cost;
    }
  }

  lemma EntryCostPositive(q: int, avg: real, lot: int)
    requires avg > 0.0 && q != 0 && lot > 0
    ensures Notional(Abs(q), lot, avg) > 0.0
  {
    LotValuePositive(lot, avg);
    ProductPositive(Abs(q) as real, LotValue(lot, avg));
  }

  // ---- Stop loss ---------------------------------------------------------

  /** A held position with a known entry, seen at a valid price. */
  predicate Priceable(d: Decision, c: Context) {
    c.lastPrice > 0.0 && PositionFor(c.positions, d.symbol) != 0 && AvgPriceFor(c.positions, d.symbol) > 0.0
  }

  predicate IsStop(g: Gate) { g.Gate? && g.name.StopLoss? }

  lemma PnlExitStops(d: Decision, c: Context)
    requires Priceable(d, c) && c.settings.stopLossPct > 0.0
    ensures (RiskPnlExit(d, c).Some? && IsStop(RiskPnlExit(d, c).value))
      <==> PnlPct(PositionFor(c.positions, d.symbol), AvgPriceFor(c.positions, d.symbol), c.lastPrice)
           <= -c.settings.stopLossPct
    ensures RiskPnlExit(d, c).Some? && IsStop(RiskPnlExit(d, c).value) ==>
      RiskPnlExit(d, c).value.qty == Some(Abs(PositionFor(c.positions, d.symbol)))
  {
    hide PositionFor, AvgPriceFor, PnlPct, PartialQty, LotSizeFor, Notional;
  }

  lemma EvaluateStops(d: Decision, c: Context)
    requires c.settings.riskEnabled && RiskTrim(d, c).None?
    ensures IsStop(Evaluate(d, c)) <==> RiskPnlExit(d, c).Some? && IsStop(RiskPnlExit(d, c).value)
    ensures IsStop(Evaluate(d, c)) ==> Evaluate(d, c) == RiskPnlExit(d, c).value
  {
    hide RiskTrim, RiskPnlExit, PlanFor, FirstRefusal, ClipSize, VarPct, BaseWeight, OpenQty, OpenMetrics,
         SecondRefusal, LotSizeFor, ClosesOnly, Notional, DesiredQty;
    NoRefusalIsStop(d, c);
  }

  lemma NoRefusalIsStop(d: Decision, c: Context)
    ensures FirstRefusal(d, c) != Some(StopLoss)
    ensures ClipSize(d, c, PlanFor(d, c)) != Refused(StopLoss)
    ensures forall qty: int, m: Metrics :: SecondRefusal(c, PlanFor(d, c), qty, m) != Some(StopLoss)
  {
    hide PlanFor, BaseWeight, SectorCurrent, DrawdownPct, DailyPnlPct, CommissionRate;
  }

  /** A stop closes the whole position exactly when the loss carried in the NAV
      has reached the stop share of the entry cost, whatever the signal says,
      with either the ladder or the plain bracket. */
  lemma StopLossExactly(d: Decision, c: Context)
    requires c.settings.riskEnabled && RiskTrim(d, c).None? && Priceable(d, c) && c.settings.stopLossPct > 0.0
    ensures var q, avg := PositionFor(c.positions, d.symbol), AvgPriceFor(c.positions, d.symbol);
      var lot := LotSizeFor(d.symbol, c.lotSizes); var g := Evaluate(d, c);
      && (IsStop(g) <==> Unrealized(q, avg, lot, c.lastPrice) <= -c.settings.stopLossPct * Notional(Abs(q), lot, avg))
      && (IsStop(g) ==>
            g.allowed && g.qty == Some(Abs(q)) && g.op == Some(if q > 0 then StopLossSell else StopLossCover))
  {
    hide Evaluate, RiskTrim, RiskPnlExit, PositionFor, AvgPriceFor, PnlPct, Unrealized, Notional, LotSizeFor, IsStop;
    var q, avg := PositionFor(c.positions, d.symbol), AvgPriceFor(c.positions, d.symbol);
    PnlExitStops(d, c);
    EvaluateStops(d, c);
    PnlAtMost(q, avg, LotSizeFor(d.symbol, c.lotSizes), c.lastPrice, -c.settings.stopLossPct);
    if IsStop(Evaluate(d, c)) {
      StopOp(d, c);
    }
  }

  lemma StopOp(d: Decision, c: Context)
    requires RiskPnlExit(d, c).Some? && IsStop(RiskPnlExit(d, c).value)
    ensures var q := PositionFor(c.positions, d.symbol); var g := RiskPnlExit(d, c).value;
      g.allowed && g.op == Some(if q > 0 then StopLossSell else StopLossCover)
  {
    hide PositionFor, AvgPriceFor, PnlPct, LotSizeFor, Notional, PartialQty;
  }

  // ---- Take profit -------------------------------------------------------

  lemma PnlAtLeast(q: int, avg: real, lot: int, price: real, bound: real)
    requires avg > 0.0 && q != 0 && lot > 0
    ensures PnlPct(q, avg, price) >= bound <==> Unrealized(q, avg, lot, price) >= bound * Notional(Abs(q), lot, avg)
  {
    PnlIsUnrealizedShare(q, avg, lot, price);
    EntryCostPositive(q, avg, lot);
    hide PnlPct, Unrealized, Notional;
    var pnl, cost := PnlPct(q, avg, price), Notional(Abs(q), lot, avg);
    if pnl >= bound {
      ScaleLess(bound, pnl, cost);
    } else {
      ProductPositive(bound - pnl, cost);
      assert (bound - pnl) * cost == bound * cost - pnl * cost;
    }
  }

  predicate IsTake(g: Gate) { g.Gate? && g.name.TakeProfit? }

  lemma BracketTakes(d: Decision, c: Context)
    requires Priceable(d, c) && !c.settings.profitTakeEnabled && c.settings.takeProfitPct > 0.0
    ensures var q := PositionFor(c.positions, d.symbol); var exit := RiskPnlExit(d, c);
      && ((exit.Some? && IsTake(exit.value))
          <==> PnlPct(q, AvgPriceFor(c.positions, d.symbol), c.lastPrice) >= c.settings.takeProfitPct)
      && (exit.Some? && IsTake(exit.value) ==>
            exit.value.allowed && exit.value.qty == Some(Abs(q))
            && exit.value.op == Some(if q > 0 then TakeProfitSell else TakeProfitCover))
  {
    hide PositionFor, AvgPriceFor, PnlPct, LotSizeFor, Notional;
  }

  lemma NoRefusalIsTake(d: Decision, c: Context)
    ensures FirstRefusal(d, c) != Some(TakeProfit)
    ensures ClipSize(d, c, PlanFor(d, c)) != Refused(TakeProfit)
    ensures forall qty: int, m: Metrics :: SecondRefusal(c, PlanFor(d, c), qty, m) != Some(TakeProfit)
  {
    hide PlanFor, BaseWeight, SectorCurrent, DrawdownPct, DailyPnlPct, CommissionRate;
  }

  lemma EvaluateTakes(d: Decision, c: Context)
    requires c.settings.riskEnabled && RiskTrim(d, c).None?
    ensures IsTake(Evaluate(d, c)) <==> RiskPnlExit(d, c).Some? && IsTake(RiskPnlExit(d, c).value)
    ensures IsTake(Evaluate(d, c)) ==> Evaluate(d, c) == RiskPnlExit(d, c).value
  {
    hide RiskTrim, RiskPnlExit, PlanFor, FirstRefusal, ClipSize, VarPct, BaseWeight, OpenQty, OpenMetrics,
         SecondRefusal, LotSizeFor, ClosesOnly, Notional, DesiredQty;
    NoRefusalIsTake(d, c);
  }

  /** Under the plain bracket a take-profit closes the whole position exactly
      when the profit carried in the NAV has reached its share of the entry cost,
      whatever the signal says. */
  lemma TakeProfitExactly(d: Decision, c: Context)
    requires c.settings.riskEnabled && RiskTrim(d, c).None? && Priceable(d, c)
    requires !c.settings.profitTakeEnabled && c.settings.takeProfitPct > 0.0
    ensures var q, avg := PositionFor(c.positions, d.symbol), AvgPriceFor(c.positions, d.symbol);
      var lot := LotSizeFor(d.symbol, c.lotSizes); var g := Evaluate(d, c);
      && (IsTake(g) <==> Unrealized(q, avg, lot, c.lastPrice) >= c.settings.takeProfitPct * Notional(Abs(q), lot, avg))
      && (IsTake(g) ==>
            g.allowed && g.qty == Some(Abs(q)) && g.op == Some(if q > 0 then TakeProfitSell else TakeProfitCover))
  {
    hide Evaluate, RiskTrim, RiskPnlExit, PositionFor, AvgPriceFor, PnlPct, Unrealized, Notional, LotSizeFor, IsTake;
    var q, avg := PositionFor(c.positions, d.symbol), AvgPriceFor(c.positions, d.symbol);
    BracketTakes(d, c);
    EvaluateTakes(d, c);
    PnlAtLeast(q, avg, LotSizeFor(d.symbol, c.lotSizes), c.lastPrice, c.settings.takeProfitPct);
  }

  /** With the ladder on, what the ladder decides is what is evaluated. */
  lemma LadderIsEvaluated(d: Decision, c: Context)
    requires c.settings.riskEnabled && RiskTrim(d, c).None? && Priceable(d, c) && c.settings.profitTakeEnabled
    ensures var q, avg := PositionFor(c.positions, d.symbol), AvgPriceFor(c.positions, d.symbol);
      var exit := ProfitLadder(c.settings, PnlPct(q, avg, c.lastPrice), q, d.signal, c.stepsDone);
      var g := Evaluate(d, c);
      && (exit.Some? <==> IsStop(g) || IsTake(g))
      && (exit.Some? ==>
            && (IsStop(g) <==> exit.value.isStop) && g.allowed && g.qty == Some(exit.value.qty)
            && g.metrics.profitStep == Some(exit.value.stepPct) && g.metrics.avgPrice == Some(avg)
            && g.op == Some(if exit.value.isStop then (if q > 0 then StopLossSell else StopLossCover)
                            else (if q > 0 then TakeProfitSell else TakeProfitCover)))
  {
    EvaluateStops(d, c);
    EvaluateTakes(d, c);
    hide Evaluate, RiskTrim, ProfitLadder, PnlPct, PositionFor, AvgPriceFor, LotSizeFor, Notional;
  }

  // ---- Closing on a signal -----------------------------------------------

  /** `n` is the largest lot count whose value fits in the requested share of the cash. */
  ghost predicate Affords(d: Decision, c: Context, n: int) {
    var lot := LotSizeFor(d.symbol, c.lotSizes);
    && c.cash > 0.0 && d.sizePct > 0.0 && c.lastPrice > 0.0 && n >= 0
    && Notional(n, lot, c.lastPrice) <= Allotment(c.cash, d.sizePct) < Notional(n + 1, lot, c.lastPrice)
  }

  lemma AffordedQuantity(d: Decision, c: Context, n: int)
    requires Affords(d, c, n)
    ensures DesiredQty(d, c) == n
  {
    hide QuantityForBuy, Notional, LotSizeFor;
    var lot := LotSizeFor(d.symbol, c.lotSizes);
    QuantityIsLargestThatFits(c.cash, d.sizePct, c.lastPrice, lot);
    LargestFitIsUnique(c.cash, d.sizePct, c.lastPrice, lot, n);
    var m := QuantityForBuy(c.cash, d.sizePct, c.lastPrice, lot);
    if m < n {
      NotionalGrows(m + 1, n, lot, c.lastPrice);
    }
  }

  lemma CloseEvaluated(d: Decision, c: Context, desired: nat)
    requires c.settings.riskEnabled && RiskTrim(d, c).None? && RiskPnlExit(d, c).None?
    requires Opposes(d.signal, PositionFor(c.positions, d.symbol)) && desired == DesiredQty(d, c)
    requires desired <= Abs(PositionFor(c.positions, d.symbol)) || !c.settings.allowFlip
    ensures var g := Evaluate(d, c); var q := PositionFor(c.positions, d.symbol);
      && g.Gate? && g.allowed && g.name.AllPassed? && g.op == Some(if q > 0 then CloseLong else CoverShort)
      && g.qty == Some(if 1 <= desired < Abs(q) then desired else Abs(q)) && g.flipCloseQty.None?
  {
    hide RiskTrim, RiskPnlExit, PositionFor, DesiredQty, LotSizeFor, Notional, EvaluateOpening, PlanFor;
  }

  /** An opposing signal that fits into the position, or that may not flip it,
      closes the requested lots: the largest count within the requested share of
      the cash when that is fewer than are held, else everything. */
  lemma ClosesRequestedLots(d: Decision, c: Context, n: int)
    requires c.settings.riskEnabled && RiskTrim(d, c).None? && RiskPnlExit(d, c).None?
    requires Opposes(d.signal, PositionFor(c.positions, d.symbol)) && Affords(d, c, n)
    requires n <= Abs(PositionFor(c.positions, d.symbol)) || !c.settings.allowFlip
    ensures var g := Evaluate(d, c); var q := PositionFor(c.positions, d.symbol);
      && g.Gate? && g.allowed && g.name.AllPassed? && g.op == Some(if q > 0 then CloseLong else CoverShort)
      && g.qty == Some(if 1 <= n < Abs(q) then n else Abs(q)) && g.flipCloseQty.None?
  {
    hide Evaluate, RiskTrim, RiskPnlExit, PositionFor, DesiredQty, Affords;
    AffordedQuantity(d, c, n);
    CloseEvaluated(d, c, n);
  }

  /** Without cash, size or price the whole position is closed, flips on or off. */
  lemma ClosesAllWithoutMoney(d: Decision, c: Context)
    requires c.settings.riskEnabled && RiskTrim(d, c).None? && RiskPnlExit(d, c).None?
    requires Opposes(d.signal, PositionFor(c.positions, d.symbol))
    requires c.cash <= 0.0 || d.sizePct <= 0.0 || c.lastPrice <= 0.0
    ensures var g := Evaluate(d, c); var q := PositionFor(c.positions, d.symbol);
      && g.Gate? && g.allowed && g.op == Some(if q > 0 then CloseLong else CoverShort) && g.qty == Some(Abs(q))
  {
    hide Evaluate, RiskTrim, RiskPnlExit, PositionFor, LotSizeFor;
    assert DesiredQty(d, c) == 0;
    CloseEvaluated(d, c, 0);
  }

  /** A request for more lots than are held is a flip, or its refused closing
      half, when flips are on; it never passes as a plain close. */
  lemma LargerRequestFlips(d: Decision, c: Context, n: int)
    requires c.settings.riskEnabled && RiskTrim(d, c).None? && RiskPnlExit(d, c).None? && c.settings.allowFlip
    requires Opposes(d.signal, PositionFor(c.positions, d.symbol)) && Affords(d, c, n)
    requires n > Abs(PositionFor(c.positions, d.symbol)) && Evaluate(d, c).Gate?
    ensures var g := Evaluate(d, c);
      g.op.Some? && (IsFlip(g.op.value) || (!g.name.AllPassed? && g.qty == Some(Abs(PositionFor(c.positions,
                                                                                                d.symbol)))))
  {
    AffordedQuantity(d, c, n);
    FlipPlan(d, c);
    NoRefusalPasses(d, c);
    hide Affords, RiskTrim, RiskPnlExit, PositionFor, DesiredQty, LotSizeFor, Notional, PlanFor, FirstRefusal,
         ClipSize, VarPct, BaseWeight, OpenQty, OpenMetrics, SecondRefusal;
  }

  lemma FlipPlan(d: Decision, c: Context)
    requires Opposes(d.signal, PositionFor(c.positions, d.symbol))
    ensures var plan := PlanFor(d, c);
      IsFlip(plan.openOp) && plan.closeOnlyOp.Some? && plan.flipClose == Some(Abs(PositionFor(c.positions, d.symbol)))
  {
    hide PositionFor, DesiredQty;
  }

  lemma NoRefusalPasses(d: Decision, c: Context)
    ensures FirstRefusal(d, c) != Some(AllPassed)
    ensures ClipSize(d, c, PlanFor(d, c)) != Refused(AllPassed)
    ensures forall qty: int, m: Metrics :: SecondRefusal(c, PlanFor(d, c), qty, m) != Some(AllPassed)
  {
    hide PlanFor, BaseWeight, SectorCurrent, DrawdownPct, DailyPnlPct, CommissionRate;
  }

  // ---- Partial closes ----------------------------------------------------

  /** A rung closes the smallest number of lots that makes up its fraction. */
  lemma PartialQtyIsSmallest(absQty: int, fraction: real)
    requires absQty > 0 && 0.0 < fraction <= 1.0
    ensures var qty := PartialQty(absQty, fraction);
      (qty - 1) as real < Portion(absQty, fraction) <= qty as real
  {
    hide Ceil, PartialQty;
    ProductPositive(absQty as real, fraction);
    ScaleLess(fraction, 1.0, absQty as real);
    CeilBounds(Portion(absQty, fraction), absQty);
    if fraction == 1.0 {
      WholePartialQty(absQty);
    } else {
      SplitPartialQty(absQty, fraction);
    }
  }

  /** Fractions outside the unit interval close nothing or everything. */
  lemma PartialQtyOutside(absQty: int, fraction: real)
    requires absQty > 0
    ensures fraction <= 0.0 ==> PartialQty(absQty, fraction) == 0
    ensures fraction >= 1.0 ==> PartialQty(absQty, fraction) == absQty
  {}

  lemma WholePartialQty(absQty: int)
    requires absQty > 0
    ensures PartialQty(absQty, 1.0) == absQty
  {}

  lemma SplitPartialQty(absQty: int, fraction: real)
    requires absQty > 0 && 0.0 < fraction < 1.0
    ensures PartialQty(absQty, fraction) == MinInt(absQty, MaxInt(Ceil(Portion(absQty, fraction)), 1))
  {
    hide Ceil, Portion;
  }

  lemma CeilBounds(x: real, n: int)
    requires 0.0 < x <= n as real
    ensures (Ceil(x) - 1) as real < x <= Ceil(x) as real
    ensures 1 <= Ceil(x) <= n
  {}

  // ---- Profit ladder -----------------------------------------------------

  /** A rung whose threshold the profit has reached and that may still fire. */
  predicate Due(s: Settings, pnl: real, q: int, signal: Signal, done: set<StepId>, pct: real) {
    pnl >= pct
    && (|| pct == s.profitFullPct
        || (pct == s.profitPartialPct && ProfitPartial !in done)
        || (pct == s.profitLockPct && ProfitLock !in done
            && (signal.Hold? || (signal.Sell? && q > 0) || (signal.Buy? && q < 0))))
  }

  function RungFraction(s: Settings, pct: real): real {
    if pct == s.profitFullPct then 1.0
    else if pct == s.profitPartialPct then s.profitPartialFraction
    else s.profitLockFraction
  }

  /** With rising thresholds the ladder closes the fraction of the highest rung that is due. */
  lemma LadderTakesHighestDue(s: Settings, pnl: real, q: int, signal: Signal, done: set<StepId>)
    requires 0.0 < s.profitLockPct < s.profitPartialPct < s.profitFullPct
    requires s.profitLockFraction > 0.0 && s.profitPartialFraction > 0.0 && q != 0
    requires s.stopLossPct <= 0.0 || pnl > -s.stopLossPct
    ensures var exit := ProfitLadder(s, pnl, q, signal, done);
      && (exit.Some? <==> exists pct :: Due(s, pnl, q, signal, done, pct))
      && (exit.Some? ==>
            && !exit.value.isStop
            && Due(s, pnl, q, signal, done, exit.value.stepPct)
            && (forall pct :: Due(s, pnl, q, signal, done, pct) ==> pct <= exit.value.stepPct)
            && exit.value.qty == PartialQty(Abs(q), RungFraction(s, exit.value.stepPct)))
  {
    PartialQtyInRange(Abs(q), s.profitLockFraction);
    PartialQtyInRange(Abs(q), s.profitPartialFraction);
    WholePartialQty(Abs(q));
    hide PartialQty;
    var exit := ProfitLadder(s, pnl, q, signal, done);
    if exit.Some? {
      assert Due(s, pnl, q, signal, done, exit.value.stepPct);
    }
  }

  // ---- Trims -------------------------------------------------------------

  /** A trim fires exactly on an overweight position whose profit gate is open. */
  lemma TrimFiresExactly(d: Decision, c: Context)
    requires c.settings.trimBand >= 0.0
    ensures RiskTrim(d, c).Some? <==>
      && c.settings.trimEnabled && c.lastPrice > 0.0 && c.nav > 0.0 && c.settings.maxInstrumentWeight > 0.0
      && PositionFor(c.positions, d.symbol) != 0
      && TrimGateOpen(d, c)
      && WeightOf(d, c, Abs(PositionFor(c.positions, d.symbol)))
         > c.settings.maxInstrumentWeight * (1.0 + c.settings.trimBand)
  {
    var s, q := c.settings, PositionFor(c.positions, d.symbol);
    if RiskTrim(d, c).Some? {
      TrimNeeds(d, c);
    } else if s.trimEnabled && c.lastPrice > 0.0 && c.nav > 0.0 && s.maxInstrumentWeight > 0.0 && TrimGateOpen(d, c) {
      TrimStops(d, c);
    }
  }

  lemma TrimNeeds(d: Decision, c: Context)
    requires RiskTrim(d, c).Some?
    ensures c.settings.trimEnabled && c.lastPrice > 0.0 && c.nav > 0.0 && c.settings.maxInstrumentWeight > 0.0
    ensures PositionFor(c.positions, d.symbol) != 0 && TrimGateOpen(d, c)
    ensures WeightOf(d, c, Abs(PositionFor(c.positions, d.symbol)))
       > c.settings.maxInstrumentWeight * (1.0 + c.settings.trimBand)
  {
    hide PositionFor, AvgPriceFor, LotSizeFor, Share, Notional, TrimLots, TrimPnl, TrimPnlAllows, LotValue;
  }

  /** The profit gate in roubles: a trim waits only while the position is carried
      at a loss beyond the tolerance that has not reached the stop; without a
      known entry it counts as break-even. */
  lemma TrimGateExactly(d: Decision, c: Context)
    ensures var q, avg := PositionFor(c.positions, d.symbol), AvgPriceFor(c.positions, d.symbol);
      var lot := LotSizeFor(d.symbol, c.lotSizes); var entry := Notional(Abs(q), lot, avg);
      TrimGateOpen(d, c)
      <==> || q == 0
           || (if avg > 0.0
               then || Unrealized(q, avg, lot, c.lastPrice) >= -c.settings.trimLossTolerance * entry
                    || Unrealized(q, avg, lot, c.lastPrice) <= -c.settings.trimStopPct * entry
               else c.settings.trimLossTolerance >= 0.0 || c.settings.trimStopPct <= 0.0)
  {
    hide PositionFor, AvgPriceFor, Unrealized, Notional, LotSizeFor, PnlPct;
    var q, avg := PositionFor(c.positions, d.symbol), AvgPriceFor(c.positions, d.symbol);
    if q != 0 && avg > 0.0 {
      var lot := LotSizeFor(d.symbol, c.lotSizes);
      PnlAtLeast(q, avg, lot, c.lastPrice, -c.settings.trimLossTolerance);
      PnlAtMost(q, avg, lot, c.lastPrice, -c.settings.trimStopPct);
    }
  }

  // ---- What comes first --------------------------------------------------

  /** A due trim is evaluated before any exit, signal or gate. */
  lemma TrimComesFirst(d: Decision, c: Context)
    requires c.settings.riskEnabled && RiskTrim(d, c).Some?
    ensures Evaluate(d, c) == RiskTrim(d, c).value && Evaluate(d, c).Gate? && Evaluate(d, c).name.RiskTrimGate?
    ensures Evaluate(d, c).allowed && Evaluate(d, c).qty.Some?
  {
    hide PositionFor, LotSizeFor, Share, TrimPnl, TrimLots, Notional, EvaluateOpening, RiskPnlExit, CloseGate,
         ClosesOnly;
  }

  /** A HOLD without a trim or an exit passes without an operation, and nothing is sent. */
  lemma HoldPasses(d: Decision, c: Context, trades: int, limit: int, rate: real, r: Replies)
    requires c.settings.riskEnabled && RiskTrim(d, c).None? && RiskPnlExit(d, c).None? && d.signal.Hold?
    ensures var g := Evaluate(d, c);
      && g.Gate? && g.allowed && g.op.None? && g.qty.None?
      && ApplyGate(d, g, c.lastPrice, trades, limit, rate, r) == Outcome(Held, [])
  {
    hide RiskTrim, RiskPnlExit;
  }

  /** With the Risk Officer off every signal is allowed but carries no lots, so
      that a BUY or SELL sends an order of zero lots. */
  lemma DisabledSendsNoLots(d: Decision, c: Context, trades: int, limit: int, rate: real, r: Replies)
    requires !c.settings.riskEnabled && HasTradeRoom(limit, trades)
    ensures var g := Evaluate(d, c);
      && g.Gate? && g.allowed && g.qty.None? && g.op.None?
      && ApplyGate(d, g, c.lastPrice, trades, limit, rate, r).orders
         == if d.signal.Hold? then []
            else [Order(d.symbol, if d.signal.Buy? then BuySide else SellSide, 0, r.first.success)]
  {
    hide Notional, OrElse, RoundStep, Fee;
  }

  // ---- Reported reasons --------------------------------------------------

  /** The reason given for a refusal holds. */
  ghost predicate ReasonHolds(name: GateName, d: Decision, c: Context)
    requires c.nav > 0.0
  {
    var s, plan := c.settings, PlanFor(d, c);
    match name
    case SanityPrice => c.lastPrice <= 0.0
    case SanityConfidence => d.confidence < s.minConfidence
    case IlliquidSpread => s.spreadCapBps > 0.0 && c.flow.Some? && EffectiveSpread(c.flow.value) > s.spreadCapBps
    case MinEdge =>
      s.minEdgePct > 0.0 && d.confidence * c.sigma * s.edgeVolMult < MaxReal(s.minEdgePct, 2.0 * CommissionRate(s))
    case KillSwitchDrawdown => !DrawdownClear(c)
    case KillSwitchDailyLoss => !DailyLossClear(c)
    case InstrumentConcentration => BaseWeight(d, c, plan) >= s.maxInstrumentWeight
    case SectorConcentration => SectorCurrent(d, c, plan) >= s.maxSectorWeight
    case VarGate =>
      ClipSize(d, c, plan).Clipped?
        && VarPct(c, d.symbol, BaseWeight(d, c, plan) + ClipSize(d, c, plan).size) > s.maxVarPct
    case SanityQtyCash =>
      ClipSize(d, c, plan).Clipped?
      && var qty := OpenQty(d, c, plan, ClipSize(d, c, plan).size);
         qty == 0 || (plan.long && OpenMetrics(d, c, qty).totalCost > c.cash * (1.0 - s.cashBuffer))
    case TickAllocation =>
      ClipSize(d, c, plan).Clipped?
      && s.maxTickBuyPct > 0.0
      && c.tickBuySpent + OpenMetrics(d, c, OpenQty(d, c, plan, ClipSize(d, c, plan).size)).totalCost > TickBudget(c)
    case _ => false
  }

  lemma FirstReasonHolds(d: Decision, c: Context)
    requires c.nav > 0.0 && 0.0 < c.settings.maxDrawdown <= 1.0 && FirstRefusal(d, c).Some?
    ensures ReasonHolds(FirstRefusal(d, c).value, d, c)
  {
    DrawdownClearExactly(c);
    DailyLossClearExactly(c);
    hide DrawdownPct, DailyPnlPct, DrawdownClear, DailyLossClear, CommissionRate, PlanFor, ClipSize, OpenQty,
         OpenMetrics, TickBudget, VarPct, BaseWeight, SectorCurrent;
  }

  lemma LaterReasonsHold(d: Decision, c: Context)
    requires c.nav > 0.0
    ensures var clip := ClipSize(d, c, PlanFor(d, c)); clip.Refused? ==> ReasonHolds(clip.name, d, c)
    ensures var clip := ClipSize(d, c, PlanFor(d, c));
      clip.Clipped? ==>
        var qty := OpenQty(d, c, PlanFor(d, c), clip.size);
        var second := SecondRefusal(c, PlanFor(d, c), qty, OpenMetrics(d, c, qty));
        second.Some? ==> ReasonHolds(second.value, d, c)
  {
    hide PlanFor, OpenQty, OpenMetrics, TickBudget, VarPct, BaseWeight, SectorCurrent, DrawdownClear, DailyLossClear,
         EffectiveSpread, CommissionRate;
  }

  /** Whatever is refused, and whatever flip is degraded to its closing half, is
      reported under a reason that holds; a refusal names itself in the journal. */
  lemma RefusalNamesItsReason(d: Decision, c: Context)
    requires c.nav > 0.0 && 0.0 < c.settings.maxDrawdown <= 1.0 && c.settings.riskEnabled
    requires RiskTrim(d, c).None? && RiskPnlExit(d, c).None? && !d.signal.Hold? && !ClosesOnly(d, c)
    ensures var g := Evaluate(d, c); g.Gate? && (!IsOpeningGate(g) ==> ReasonHolds(g.name, d, c))
  {
    hide RiskTrim, RiskPnlExit, PlanFor, FirstRefusal, ClipSize, VarPct, BaseWeight, SecondRefusal, OpenQty,
         OpenMetrics, LotSizeFor, ClosesOnly;
    if FirstRefusal(d, c).Some? {
      FirstReasonHolds(d, c);
    } else {
      RoomClips(d, c, PlanFor(d, c));
      LaterReasonsHold(d, c);
    }
  }

  lemma BlockNamesGate(d: Decision, g: Gate, price: real, trades: int, limit: int, rate: real, r: Replies)
    requires g.Gate? && !g.allowed && !d.signal.Hold?
    ensures ApplyGate(d, g, price, trades, limit, rate, r) == Outcome(RiskBlocked(g.name), [])
  {}

  // ---- An exit reaches the broker ----------------------------------------

  predicate HasTradeRoom(limit: int, trades: int) { limit <= 0 || trades < limit }

  /** A signal against the position sends a reducing order of at most the whole
      position exactly when the daily trade limit has room and evaluation does
      not raise; no other gate can hold it back. */
  lemma ExitSentExactly(d: Decision, c: Context, trades: int, limit: int, rate: real, r: Replies)
    requires c.settings.riskEnabled && Opposes(d.signal, PositionFor(c.positions, d.symbol))
    ensures var g := Evaluate(d, c); var q := PositionFor(c.positions, d.symbol);
      (g.Gate? && SendsReduction(ApplyGate(d, g, c.lastPrice, trades, limit, rate, r), q))
      <==> (HasTradeRoom(limit, trades) && !RaisesAtZeroNav(d, c))
  {
    ExitsNeverBlocked(d, c);
    EvaluateRaisesExactly(d, c);
    EvaluateFitsPosition(d, c);
    hide Evaluate, RaisesAtZeroNav, PositionFor;
    if Evaluate(d, c).Gate? {
      ReductionSent(d, Evaluate(d, c), PositionFor(c.positions, d.symbol), c.settings.allowFlip, c.lastPrice, trades,
                    limit, rate, r);
    }
  }

  ghost predicate SendsReduction(out: Outcome, q: int) {
    && out.orders != []
    && out.orders[0].side == (if q > 0 then SellSide else BuySide)
    && 1 <= out.orders[0].qty <= Abs(q)
  }

  lemma ReductionSent(d: Decision, g: Gate, q: int, allowFlip: bool, price: real, trades: int, limit: int, rate: real,
                      r: Replies)
    requires FitsPosition(g, d.signal, q, allowFlip) && g.allowed && g.op.Some? && ReducesPosition(g.op.value, q)
    requires Opposes(d.signal, q)
    ensures SendsReduction(ApplyGate(d, g, price, trades, limit, rate, r), q) <==> HasTradeRoom(limit, trades)
  {
    hide Notional, OrElse, RoundStep, Fee;
  }
}
