/** What a tick charges for its trades, and the one place where it charges
    something else than the commission on what was traded. */
module Charges {
  import opened Money
  import opened Portfolio
  import opened Operations
  import opened Risk
  import opened RiskProperties
  import opened Orders
  import opened Simulation
  import opened TickSteps
  import opened TickNav
  import opened TickSafety

  /** Closing half of a flip whose opening half a gate refused. */
  predicate IsFallback(g: Gate) {
    g.Gate? && g.allowed && g.op.Some? && (g.op.value.CloseLong? || g.op.value.CoverShort?) && !g.name.AllPassed?
  }

  function TradeFee(lots: int, lot: int, price: real, rate: real): real { Fee(Notional(Abs(lots), lot, price), rate) }

  /** The metrics price exactly the lots of the order. */
  ghost predicate WellPriced(g: Gate, lot: int, price: real, rate: real)
    requires g.Gate?
  {
    var m := g.metrics;
    && (g.flipCloseQty.Some? && g.flipOpenQty.Some? ==> m.lotSize == lot)
    && (g.flipCloseQty.None? && g.qty.Some? ==>
          && g.qty.value >= 0
          && m.lotSize == lot && m.notional == Notional(g.qty.value, lot, price)
          && (m.commission == 0.0 || m.commission == Fee(m.notional, rate)))
    && (g.flipCloseQty.None? <==> g.flipOpenQty.None?)
  }

  // ---- Orders priced by their own metrics --------------------------------

  lemma TrimWellPriced(d: Decision, c: Context, rate: real)
    requires RiskTrim(d, c).Some?
    ensures RiskTrim(d, c).value.Gate?
      && WellPriced(RiskTrim(d, c).value, LotSizeFor(d.symbol, c.lotSizes), c.lastPrice, rate)
    ensures !IsFallback(RiskTrim(d, c).value)
  {
    hide PositionFor, LotSizeFor, Notional, TrimLots, OverCapBand, TrimPnl;
  }

  lemma ExitWellPriced(d: Decision, c: Context, rate: real)
    requires RiskPnlExit(d, c).Some?
    ensures RiskPnlExit(d, c).value.Gate?
      && WellPriced(RiskPnlExit(d, c).value, LotSizeFor(d.symbol, c.lotSizes), c.lastPrice, rate)
    ensures !IsFallback(RiskPnlExit(d, c).value)
  {
    PnlExitFits(d, c);
    hide PositionFor, LotSizeFor, Notional, ProfitLadder, Bracket, PnlPct;
  }

  lemma CloseWellPriced(d: Decision, c: Context, rate: real)
    ensures WellPriced(CloseGate(d, c), LotSizeFor(d.symbol, c.lotSizes), c.lastPrice, rate)
    ensures !IsFallback(CloseGate(d, c))
  {
    hide PositionFor, LotSizeFor, Notional, DesiredQty;
  }

  lemma OpeningWellPriced(d: Decision, c: Context)
    requires IsOpeningGate(Evaluate(d, c))
    ensures WellPriced(Evaluate(d, c), LotSizeFor(d.symbol, c.lotSizes), c.lastPrice, CommissionRate(c.settings))
  {
    hide Evaluate, PlanFor, Notional, LotSizeFor, PositionFor, CommissionRate, OpeningPassed;
    OpeningHasPassed(d, c);
    EvaluateFitsPosition(d, c);
    OpeningOps(d, c);
  }

  lemma OpeningOps(d: Decision, c: Context)
    ensures var op := PlanFor(d, c).openOp; IsOpening(op) && (IsFlip(op) <==> PlanFor(d, c).flipClose.Some?)
  {
    hide PositionFor, DesiredQty;
  }

  /** Lots of the opening half that a sized gate looked at. */
  function RefusedQty(d: Decision, c: Context): nat {
    match ClipSize(d, c, PlanFor(d, c))
    case Clipped(size) => OpenQty(d, c, PlanFor(d, c), size)
    case _ => 0
  }

  predicate RefusedAfterSizing(name: GateName) { name.SanityQtyCash? || name.TickAllocation? }

  /** Commission that a refused opening leaves behind in the metrics. */
  function Leftover(d: Decision, c: Context, name: GateName): real {
    if RefusedAfterSizing(name)
    then TradeFee(RefusedQty(d, c), LotSizeFor(d.symbol, c.lotSizes), c.lastPrice, CommissionRate(c.settings)) else 0.0
  }

  ghost predicate FallbackPriced(d: Decision, c: Context, g: Gate)
    requires g.Gate?
  {
    && g.qty == Some(Abs(PositionFor(c.positions, d.symbol))) && g.flipCloseQty.None? && g.flipOpenQty.None?
    && g.metrics.notional == (Abs(PositionFor(c.positions, d.symbol)) as real) * c.lastPrice
    && g.metrics.commission == Leftover(d, c, g.name)
  }

  lemma FallbackParts(d: Decision, c: Context, m: Metrics, name: GateName)
    requires var g := FlipFallbackOrBlock(m, PlanFor(d, c), c.lastPrice, name); g.allowed
    requires m.commission == Leftover(d, c, name) && !name.AllPassed?
    ensures var g := FlipFallbackOrBlock(m, PlanFor(d, c), c.lastPrice, name); IsFallback(g) && FallbackPriced(d, c, g)
  {
    hide PositionFor, DesiredQty, Leftover;
  }

  lemma RefusalNames(d: Decision, c: Context, qty: int, m: Metrics)
    ensures FirstRefusal(d, c).Some? ==>
      !RefusedAfterSizing(FirstRefusal(d, c).value) && !FirstRefusal(d, c).value.AllPassed?
    ensures var clip := ClipSize(d, c, PlanFor(d, c));
      clip.Refused? ==> !RefusedAfterSizing(clip.name) && !clip.name.AllPassed?
    ensures SecondRefusal(c, PlanFor(d, c), qty, m).Some? ==>
      RefusedAfterSizing(SecondRefusal(c, PlanFor(d, c), qty, m).value)
  {
    hide PlanFor, BaseWeight, SectorCurrent, DrawdownPct, DailyPnlPct, CommissionRate;
  }

  lemma RefusedOpening(d: Decision, c: Context)
    requires var g := EvaluateOpening(d, c, PlanFor(d, c)); g.Gate? && g.allowed && g.effectiveSize.None?
    ensures var g := EvaluateOpening(d, c, PlanFor(d, c)); IsFallback(g) && FallbackPriced(d, c, g)
  {
    hide PlanFor, FirstRefusal, SecondRefusal, VarPct, OpenQty, ClipSize, BaseWeight, LotSizeFor, CommissionRate,
         IsFallback, FallbackPriced, FlipFallbackOrBlock, Notional;
    var plan := PlanFor(d, c);
    var m0 := NO_METRICS.(lotSize := LotSizeFor(d.symbol, c.lotSizes));
    var clip := ClipSize(d, c, plan);
    var m := OpenMetrics(d, c, RefusedQty(d, c));
    RefusalNames(d, c, RefusedQty(d, c), m);
    if FirstRefusal(d, c).Some? {
      FallbackParts(d, c, m0, FirstRefusal(d, c).value);
    } else if clip.Refused? {
      FallbackParts(d, c, m0, clip.name);
    } else if clip.Clipped? {
      if VarPct(c, d.symbol, BaseWeight(d, c, plan) + clip.size) > c.settings.maxVarPct {
        FallbackParts(d, c, m0, VarGate);
      } else if SecondRefusal(c, plan, RefusedQty(d, c), m).Some? {
        FallbackParts(d, c, m, SecondRefusal(c, plan, RefusedQty(d, c), m).value);
      }
    }
  }

  /** An allowed operation is either priced by its own lots or is a fallback. */
  lemma PricedOrFallback(d: Decision, c: Context)
    requires Evaluate(d, c).Gate? && Evaluate(d, c).allowed && Evaluate(d, c).op.Some?
    ensures var g := Evaluate(d, c);
      if IsFallback(g) then FallbackPriced(d, c, g)
      else WellPriced(g, LotSizeFor(d.symbol, c.lotSizes), c.lastPrice, CommissionRate(c.settings))
  {
    hide RiskTrim, RiskPnlExit, CloseGate, ClosesOnly, EvaluateOpening, PlanFor, LotSizeFor, CommissionRate,
         WellPriced, FallbackPriced, IsFallback;
    var rate := CommissionRate(c.settings);
    if RiskTrim(d, c).Some? {
      TrimWellPriced(d, c, rate);
    }
    if RiskPnlExit(d, c).Some? {
      ExitWellPriced(d, c, rate);
    }
    CloseWellPriced(d, c, rate);
    var g := Evaluate(d, c);
    if IsOpeningGate(g) {
      OpeningWellPriced(d, c);
      OpeningHasPassed(d, c);
      OpeningOps(d, c);
      assert !IsFallback(g) by { OpeningIsNoFallback(g); }
    } else if g == EvaluateOpening(d, c, PlanFor(d, c)) {
      RefusedOpening(d, c);
    }
  }

  lemma OpeningIsNoFallback(g: Gate)
    requires g.Gate? && g.op.Some? && IsOpening(g.op.value)
    ensures !IsFallback(g)
  {}

  // ---- The charge of a step ----------------------------------------------

  lemma SingleFee(qty: int, lot: int, price: real, rate: real, m: Metrics)
    requires m.notional == Notional(qty, lot, price) && m.lotSize == lot
    requires m.commission == 0.0 || m.commission == Fee(m.notional, rate)
    ensures var notional := OrElse(m.notional, Notional(qty, m.lotSize, price));
      OrElse(m.commission, Fee(notional, rate)) == TradeFee(qty, lot, price, rate) || qty < 0
  {
    hide Notional, Fee;
  }

  lemma NoFee(lot: int, price: real, rate: real)
    ensures TradeFee(0, lot, price, rate) == 0.0
  {}

  /** An order priced by its own metrics is charged the commission on its lots. */
  lemma WellPricedCharge(d: Decision, g: Gate, lot: int, price: real, trades: int, limit: int, rate: real, r: Replies)
    requires g.Gate? && WellPriced(g, lot, price, rate) && NoCommission(r) && price > 0.0
    requires g.flipCloseQty.Some? ==> g.flipCloseQty.value >= 0 && g.flipOpenQty.Some? && g.flipOpenQty.value >= 0
    ensures var a := ApplyGate(d, g, price, trades, limit, rate, r).action;
      Charged(a, price) == TradeFee(ClaimedLots(a), lot, price, rate)
  {
    ChargedEstimate(d, g, price, trades, limit, rate, r);
    NoFee(lot, price, rate);
    if g.flipCloseQty.None? && g.qty.Some? {
      SingleFee(g.qty.value, lot, price, rate, g.metrics);
    }
    hide Notional, Fee, OrElse, RoundStep, Charged;
  }

  lemma GateQuantities(g: Gate, signal: Signal, q: int, allowFlip: bool)
    requires FitsPosition(g, signal, q, allowFlip) && g.allowed
    ensures g.flipCloseQty.Some? ==> g.flipCloseQty.value >= 0 && g.flipOpenQty.Some? && g.flipOpenQty.value >= 0
    ensures g.qty.Some? ==> g.qty.value >= 0 && g.op.Some?
    ensures g.flipCloseQty.Some? ==> g.op.Some?
  {}

  lemma BlockedCharge(d: Decision, g: Gate, price: real, lot: int, trades: int, limit: int, rate: real, r: Replies)
    requires g.Gate? && (!g.allowed || (g.op.None? && g.qty.None? && g.flipCloseQty.None?))
    ensures var a := ApplyGate(d, g, price, trades, limit, rate, r).action;
      Charged(a, price) == 0.0 && ClaimedLots(a) == 0
  {
    hide Notional, Fee, OrElse, RoundStep;
  }

  /** Every trade is charged the commission on the value of the lots the broker
      accepted, unless it is the closing half of a refused flip. */
  lemma ChargeIsFee(env: Env, st: Live, item: Item)
    requires Applies(env, st, item) && item.lastPrice > 0.0 && NoCommission(item.replies)
    requires !IsFallback(GateFor(env, st, item))
    ensures StepCharge(env, st, item)
         == TradeFee(NetLots(env, st, item), LotSizeFor(item.decision.symbol, env.lotSizes), item.lastPrice,
                     CommissionRate(env.settings))
  {
    hide Evaluate, ApplyGate, Charged, ClaimedLots, NetAccepted, LotSizeFor, PositionFor, FitsPosition, WellPriced,
         IsFallback, TradeFee, CommissionRate;
    var d, c, g := item.decision, ContextFor(env, st, item), GateFor(env, st, item);
    var lot, rate := LotSizeFor(d.symbol, env.lotSizes), CommissionRate(env.settings);
    var q := PositionFor(st.positions, d.symbol);
    EvaluateFitsPosition(d, c);
    NonNegativeQty(g, d.signal, q, env.settings.allowFlip);
    ActionStatesOrders(d, g, item.lastPrice, st.trades, env.tradeLimit, rate, item.replies);
    NoFee(lot, item.lastPrice, rate);
    if g.allowed {
      GateQuantities(g, d.signal, q, env.settings.allowFlip);
    }
    if g.allowed && g.op.Some? {
      PricedOrFallback(d, c);
      WellPricedCharge(d, g, lot, item.lastPrice, st.trades, env.tradeLimit, rate, item.replies);
    } else {
      BlockedCharge(d, g, item.lastPrice, lot, st.trades, env.tradeLimit, rate, item.replies);
    }
  }

  /** A fallback close of `lots` lots is charged the commission left over from the
      refused opening, else the commission on a notional without the lot size. */
  lemma FallbackCharge(d: Decision, g: Gate, lots: int, price: real, trades: int, limit: int, rate: real, r: Replies)
    requires IsFallback(g) && g.qty == Some(lots) && g.flipCloseQty.None? && lots >= 1 && price > 0.0 && NoCommission(r)
    requires g.metrics.notional == (lots as real) * price
    requires ApplyGate(d, g, price, trades, limit, rate, r).action.Submitted?
    ensures Charged(ApplyGate(d, g, price, trades, limit, rate, r).action, price)
         == OrElse(g.metrics.commission, TradeFee(lots, 1, price, rate))
  {
    ChargedEstimate(d, g, price, trades, limit, rate, r);
    UnitNotional(lots, price);
    hide Fee, RoundStep, Charged, Notional;
  }

  lemma UnitNotional(lots: int, price: real)
    requires lots >= 1 && price > 0.0
    ensures (lots as real) * price == Notional(lots, 1, price) && (lots as real) * price != 0.0
  {
    ProductPositive(lots as real, price);
    assert LotValue(1, price) == price;
  }

  /** Two fees at one price are equal exactly when the rate is zero or the shares are as many. */
  lemma FeesEqualExactly(a: int, lotA: int, b: int, lotB: int, price: real, rate: real)
    requires a >= 0 && b >= 0 && price > 0.0
    ensures TradeFee(a, lotA, price, rate) == TradeFee(b, lotB, price, rate) <==> (rate == 0.0 || a * lotA == b * lotB)
  {
    SharesOf(a, lotA, price, rate);
    SharesOf(b, lotB, price, rate);
    var x, y := (a * lotA) as real, (b * lotB) as real;
    ScalesApart(x, y, price * rate);
    if rate != 0.0 {
      ScalesApart(price, 0.0, rate);
    }
  }

  lemma SharesOf(n: int, lot: int, price: real, rate: real)
    requires n >= 0
    ensures TradeFee(n, lot, price, rate) == (n * lot) as real * (price * rate)
  {
    assert (n as real) * (lot as real) == (n * lot) as real;
    assert (n as real) * ((lot as real) * price) * rate == ((n as real) * (lot as real)) * (price * rate);
  }

  lemma ScalesApart(x: real, y: real, k: real)
    ensures x * k == y * k <==> x == y || k == 0.0
  {
    if x * k == y * k {
      assert (x - y) * k == 0.0;
    }
  }

  /** Shares whose commission a fallback close is charged: those of the refused
      opening when a sized gate refused it, else one share per closed lot. */
  function ChargedShares(d: Decision, c: Context, name: GateName, closed: nat): int {
    if RefusedAfterSizing(name) && RefusedQty(d, c) > 0
    then RefusedQty(d, c) * LotSizeFor(d.symbol, c.lotSizes) else closed
  }

  lemma LeftoverOrUnit(d: Decision, c: Context, name: GateName, closed: nat)
    requires c.lastPrice > 0.0
    ensures OrElse(Leftover(d, c, name), TradeFee(closed, 1, c.lastPrice, CommissionRate(c.settings)))
         == TradeFee(ChargedShares(d, c, name, closed), 1, c.lastPrice, CommissionRate(c.settings))
  {
    hide RefusedQty, LotSizeFor, TradeFee, CommissionRate;
    var price, rate := c.lastPrice, CommissionRate(c.settings);
    var lot := LotSizeFor(d.symbol, c.lotSizes);
    var refused := RefusedQty(d, c);
    NoFee(lot, price, rate);
    if RefusedAfterSizing(name) && refused > 0 {
      FeesEqualExactly(refused, lot, refused * lot, 1, price, rate);
      FeesEqualExactly(refused, lot, 0, lot, price, rate);
      FeesEqualExactly(closed, 1, refused * lot, 1, price, rate);
      SharesPositive(refused, lot);
    }
  }

  lemma SharesPositive(n: int, lot: int)
    requires n > 0 && lot >= 1
    ensures n * lot > 0
  {}

  /** Market, account, room and VaR were clear, so that the opening half was sized. */
  ghost predicate Sized(d: Decision, c: Context) {
    var clip := ClipSize(d, c, PlanFor(d, c));
    && FirstRefusal(d, c).None? && clip.Clipped?
    && VarPct(c, d.symbol, BaseWeight(d, c, PlanFor(d, c)) + clip.size) <= c.settings.maxVarPct
  }

  /** The name of a fallback tells whether it was refused after sizing. */
  lemma FallbackName(d: Decision, c: Context)
    requires IsFallback(Evaluate(d, c))
    ensures RefusedAfterSizing(Evaluate(d, c).name) <==> Sized(d, c)
  {
    hide RiskTrim, RiskPnlExit, CloseGate, ClosesOnly, PlanFor, FirstRefusal, SecondRefusal, VarPct, OpenQty,
         ClipSize, BaseWeight, LotSizeFor, CommissionRate, RefusedAfterSizing, OpenMetrics;
    if RiskTrim(d, c).Some? {
      TrimWellPriced(d, c, 0.0);
    }
    if RiskPnlExit(d, c).Some? {
      ExitWellPriced(d, c, 0.0);
    }
    CloseWellPriced(d, c, 0.0);
    RefusalNames(d, c, RefusedQty(d, c), OpenMetrics(d, c, RefusedQty(d, c)));
    assert !RefusedAfterSizing(VarGate) by {
      NamesBeforeSizing();
    }
  }

  lemma NamesBeforeSizing()
    ensures !RefusedAfterSizing(VarGate)
  {}

  /** Shares charged and shares closed coincide exactly when the refused lots, or
      failing these the lot size, say so. */
  lemma SharesCoincideExactly(d: Decision, c: Context, name: GateName, closed: nat)
    requires closed > 0
    ensures ChargedShares(d, c, name, closed) == closed * LotSizeFor(d.symbol, c.lotSizes)
      <==> if RefusedAfterSizing(name) && RefusedQty(d, c) > 0 then RefusedQty(d, c) == closed
           else LotSizeFor(d.symbol, c.lotSizes) == 1
  {
    var lot := LotSizeFor(d.symbol, c.lotSizes);
    SameProduct(RefusedQty(d, c), closed, lot);
    SameProduct(1, lot, closed);
    hide RefusedQty, LotSizeFor;
  }

  lemma SameProduct(a: int, b: int, k: int)
    requires k > 0
    ensures a * k == b * k <==> a == b
  {}

  /** The closing half of a refused flip is charged the right commission exactly
      when there is none, or the opening half was sized and refused for as many
      lots as are closed, or it was not sized to any lot and the lot is one share. */
  lemma FallbackChargedExactly(env: Env, st: Live, item: Item)
    requires Applies(env, st, item) && item.lastPrice > 0.0 && NoCommission(item.replies)
    requires IsFallback(GateFor(env, st, item)) && OutcomeFor(env, st, item).action.Submitted?
    ensures var d, c := item.decision, ContextFor(env, st, item);
      var lot, rate := LotSizeFor(d.symbol, env.lotSizes), CommissionRate(env.settings);
      var closed := Abs(PositionFor(st.positions, d.symbol));
      && Abs(NetLots(env, st, item)) == closed
      && StepCharge(env, st, item)
         == TradeFee(ChargedShares(d, c, GateFor(env, st, item).name, closed), 1, item.lastPrice, rate)
      && (StepCharge(env, st, item) == TradeFee(NetLots(env, st, item), lot, item.lastPrice, rate)
          <==> rate == 0.0 || if Sized(d, c) && RefusedQty(d, c) > 0 then RefusedQty(d, c) == closed else lot == 1)
  {
    hide Sized, RefusedQty, RefusedAfterSizing, Evaluate, ApplyGate, Charged, ClaimedLots, NetAccepted, LotSizeFor,
         PositionFor, FitsPosition, TradeFee, CommissionRate, ChargedShares, Leftover, OrElse;
    var d, c, g := item.decision, ContextFor(env, st, item), GateFor(env, st, item);
    var lot, rate := LotSizeFor(d.symbol, env.lotSizes), CommissionRate(env.settings);
    var closed := Abs(PositionFor(st.positions, d.symbol));
    EvaluateFitsPosition(d, c);
    PricedOrFallback(d, c);
    FallbackLots(g, d, PositionFor(st.positions, d.symbol), env.settings.allowFlip, item.lastPrice, st.trades,
                 env.tradeLimit, rate, item.replies);
    ActionStatesOrders(d, g, item.lastPrice, st.trades, env.tradeLimit, rate, item.replies);
    FallbackCharge(d, g, closed, item.lastPrice, st.trades, env.tradeLimit, rate, item.replies);
    LeftoverOrUnit(d, c, g.name, closed);
    SharesNonNegative(d, c, g.name, closed);
    FeesEqualExactly(ChargedShares(d, c, g.name, closed), 1, closed, lot, item.lastPrice, rate);
    SameFee(NetLots(env, st, item), closed, lot, item.lastPrice, rate);
    FallbackName(d, c);
    SharesCoincideExactly(d, c, g.name, closed);
  }

  lemma SameFee(lots: int, closed: nat, lot: int, price: real, rate: real)
    requires Abs(lots) == closed
    ensures TradeFee(lots, lot, price, rate) == TradeFee(closed, lot, price, rate)
  {
    hide Notional;
  }

  lemma SharesNonNegative(d: Decision, c: Context, name: GateName, closed: nat)
    ensures ChargedShares(d, c, name, closed) >= 0
  {
    hide RefusedQty, LotSizeFor;
  }

  lemma FallbackLots(g: Gate, d: Decision, q: int, allowFlip: bool, price: real, trades: int, limit: int, rate: real,
                     r: Replies)
    requires IsFallback(g) && FitsPosition(g, d.signal, q, allowFlip) && g.qty == Some(Abs(q))
    requires ApplyGate(d, g, price, trades, limit, rate, r).action.Submitted?
    ensures q != 0 && g.flipCloseQty.None?
    ensures ClaimedLots(ApplyGate(d, g, price, trades, limit, rate, r).action) == -q
  {
    hide Notional, Fee, RoundStep, OrElse;
  }

  // ---- The whole tick in fees --------------------------------------------

  /** Commission on what the broker accepted in one step. */
  function StepFee(env: Env, st: Live, item: Item): real {
    if item.Priced? && item.lastPrice > 0.0 then
      TradeFee(NetLots(env, st, item), LotSizeFor(item.decision.symbol, env.lotSizes), item.lastPrice,
               CommissionRate(env.settings))
    else 0.0
  }

  function TotalFee(env: Env, st: Live, items: seq<Item>): real
    decreases |items|
  {
    if items == [] then 0.0
    else StepFee(env, st, items[0]) + TotalFee(env, TickStep(env, st, items[0]), items[1..])
  }

  /** No flip of the tick is refused and degraded to its closing half. */
  predicate NoFallbacks(env: Env, st: Live, items: seq<Item>)
    decreases |items|
  {
    items == []
    || (&& !(items[0].Priced? && IsFallback(GateFor(env, st, items[0])))
        && NoFallbacks(env, TickStep(env, st, items[0]), items[1..]))
  }

  lemma StepChargeIsFee(env: Env, st: Live, item: Item)
    requires item.Priced? ==> NoCommission(item.replies) && !IsFallback(GateFor(env, st, item))
    ensures StepCharge(env, st, item) == StepFee(env, st, item)
  {
    hide Evaluate, ApplyGate, Charged, NetAccepted, LotSizeFor, TradeFee, IsFallback, NoCommission, CommissionRate;
    if item.Priced? {
      NoFee(LotSizeFor(item.decision.symbol, env.lotSizes), item.lastPrice, CommissionRate(env.settings));
      if Applies(env, st, item) {
        if item.lastPrice > 0.0 {
          ChargeIsFee(env, st, item);
        } else {
          ChargedNothing(OutcomeFor(env, st, item).action, item.lastPrice);
        }
      }
    }
  }

  lemma {:induction false} ChargesAreFees(env: Env, st: Live, items: seq<Item>)
    requires NoCommissions(items) && NoFallbacks(env, st, items)
    ensures TotalCharge(env, st, items) == TotalFee(env, st, items)
    decreases |items|
  {
    hide TickStep, StepCharge, StepFee, IsFallback, NoCommission, GateFor;
    if items != [] {
      StepChargeIsFee(env, st, items[0]);
      ChargesAreFees(env, TickStep(env, st, items[0]), items[1..]);
    }
  }

  /** A tick without refused flips costs exactly the commission on every lot the
      broker filled; covered shorts add their drift, the broker's own cash figures
      add what they differ by, nothing else moves the NAV. */
  lemma TickCostsItsFees(env: Env, st: Live, items: seq<Item>)
    requires Ready(env, st, items) && NoCommissions(items) && NoFallbacks(env, st, items)
    ensures RunItems(env, st, items).nav
         == st.nav - TotalFee(env, st, items) + TotalDrift(env, st, items) + TotalAdjustment(env, st, items)
  {
    hide RunItems, TotalCharge, TotalFee, TotalDrift, TotalAdjustment, NoFallbacks, WellFormed, PortfolioNav;
    ChargesAreFees(env, st, items);
    NavAccounting(env, st, items);
  }
}
