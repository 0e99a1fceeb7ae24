/** The live gateway and the backtest engine read the same Risk Officer result:
    same side and lots, not the same budget. */
module Agreement {
  import opened Money
  import opened Portfolio
  import opened Sizing
  import opened Operations
  import opened Risk
  import opened RiskProperties
  import opened Orders
  import opened Simulation
  import opened TickSteps
  import opened TickLimits
  import opened Ladder
  import opened Engine
  import EngineBooks
  import EngineRuns

  /** Lots and operation that the engine takes from a gate result. */
  ghost predicate TakenFrom(res: Resolution, g: Gate)
    requires g.Gate? && res.Resolved?
  {
    if !g.allowed then res.lots == 0
    else if g.flipCloseQty.Some? && g.flipOpenQty.Some? then
      res.lots == g.flipCloseQty.value + g.flipOpenQty.value && res.op == g.op && res.opening
    else
      && res.lots == (if g.qty.Some? then g.qty.value else 0) && res.op == g.op
      && (res.opening <==> !(g.op.Some? && ClosesForBudget(g.op.value)))
  }

  lemma ResolutionOf(cfg: Config, b: Book, history: Prices, nav: real, d: Decision, price: real)
    requires cfg.applyRisk
    ensures var g := Evaluate(d, EngineContext(cfg, b, history, nav, d.symbol, price));
      var res := Resolve(cfg, b, history, nav, d, price);
      if g.Raised? then res.Raises? else res.Resolved? && TakenFrom(res, g)
  {
    hide Evaluate, EngineContext, StepOfGate, KeyOf, PositionFor, ClosesForBudget;
  }

  lemma EngineLots(cfg: Config, b: Book, history: Prices, nav: real, secid: string, price: real)
    requires UniqueSecids(b.rows)
    ensures PositionFor(EngineContext(cfg, b, history, nav, secid, price).positions, secid)
       == PositionFor(b.rows, secid)
    ensures EngineContext(cfg, b, history, nav, secid, price).settings == cfg.settings
    ensures EngineContext(cfg, b, history, nav, secid, price).lotSizes == cfg.lotSizes
    ensures EngineContext(cfg, b, history, nav, secid, price).lastPrice == price
  {
    hide PositionFor, NonZeroRows, StepsAt, KeyOf;
    EngineRuns.NonZeroLookup(b.rows, secid);
  }

  predicate AllAccepted(r: Replies) { r.first.success && r.second.success }

  /** From a gate that fits the position, gateway and engine move the same signed lots. */
  lemma SameMove(d: Decision, g: Gate, res: Resolution, q: int, allowFlip: bool, price: real, trades: int, limit: int,
                 rate: real, r: Replies)
    requires FitsPosition(g, d.signal, q, allowFlip) && res.Resolved? && TakenFrom(res, g)
    requires AllAccepted(r) && limit <= 0
    ensures ClaimedLots(ApplyGate(d, g, price, trades, limit, rate, r).action)
         == if d.signal.Hold? && (res.op.None? || res.lots == 0) then 0 else SignOf(d, res.op) * res.lots
  {
    hide Notional, Fee, OrElse, RoundStep, ClosesForBudget, IsOpening;
    if g.allowed && g.op.Some? && g.flipCloseQty.None? {
      SameDirection(d, g, q, allowFlip);
    }
  }

  lemma SameDirection(d: Decision, g: Gate, q: int, allowFlip: bool)
    requires FitsPosition(g, d.signal, q, allowFlip) && g.allowed && g.op.Some? && g.flipCloseQty.None?
    ensures SignOf(d, g.op) == if SideOf(d, g.op.value).BuySide? then 1 else -1
    ensures d.signal.Hold? ==> IsReduceOverride(g.op.value)
  {}

  /** Given the same book and price, what the engine fills is what the live
      gateway has the broker fill when every order is accepted: same side, same
      number of lots, through opens, closes, trims, exits and flips. */
  lemma EngineFillsGatewayOrders(cfg: Config, b: Book, history: Prices, nav: real, d: Decision, price: real,
                                 trades: int, limit: int, rate: real, r: Replies)
    requires cfg.applyRisk && UniqueSecids(b.rows) && AllAccepted(r) && limit <= 0
    requires Resolve(cfg, b, history, nav, d, price).Resolved?
    ensures var g := Evaluate(d, EngineContext(cfg, b, history, nav, d.symbol, price));
      var res := Resolve(cfg, b, history, nav, d, price);
      && g.Gate?
      && res.lots >= 0
      && NetAccepted(ApplyGate(d, g, price, trades, limit, rate, r).orders, d.symbol)
         == (if res.lots == 0 then 0 else SignOf(d, res.op) * res.lots)
  {
    hide Evaluate, EngineContext, Resolve, ApplyGate, NetAccepted, ClaimedLots, PositionFor, FitsPosition, SignOf,
         TakenFrom;
    var c := EngineContext(cfg, b, history, nav, d.symbol, price);
    ResolutionOf(cfg, b, history, nav, d, price);
    EngineLots(cfg, b, history, nav, d.symbol, price);
    EvaluateFitsPosition(d, c);
    var g, res, q := Evaluate(d, c), Resolve(cfg, b, history, nav, d, price), PositionFor(b.rows, d.symbol);
    NonNegativeQty(g, d.signal, q, cfg.settings.allowFlip);
    TakenLots(g, res, d.signal, q, cfg.settings.allowFlip);
    SameMove(d, g, res, q, cfg.settings.allowFlip, price, trades, limit, rate, r);
    ActionStatesOrders(d, g, price, trades, limit, rate, r);
  }

  lemma TakenLots(g: Gate, res: Resolution, signal: Signal, q: int, allowFlip: bool)
    requires FitsPosition(g, signal, q, allowFlip) && res.Resolved? && TakenFrom(res, g)
    ensures res.lots >= 0
    ensures res.lots > 0 ==> g.allowed && g.op.Some? && res.op == g.op && (res.opening <==> IsOpening(g.op.value))
    ensures res.lots > 0 && IsOpening(g.op.value) && !IsFlip(g.op.value) ==> res.lots == OpenedQty(g)
    ensures res.lots > 0 && IsFlip(g.op.value) ==> g.flipCloseQty == Some(Abs(q)) && res.lots == Abs(q) + OpenedQty(g)
  {}

  // ---- Budgets -----------------------------------------------------------

  /** What the engine adds to its tick spend for a resolution at `price`. */
  function EngineSpend(res: Resolution, lot: int, price: real): real
    requires res.Resolved?
  {
    if res.opening && res.lots > 0 then Notional(res.lots, lot, price) else 0.0
  }

  function OrderFee(qty: int, lot: int, price: real, rate: real): real { Fee(Notional(qty, lot, price), rate) }

  /** The engine charges the tick budget without commissions and with the closed
      half of a flip; the gateway with the commission of long openings and of
      the opened half of a flip, and without the closed half. */
  lemma BudgetsDiffer(cfg: Config, b: Book, history: Prices, nav: real, d: Decision, price: real,
                      trades: int, limit: int, r: Replies)
    requires cfg.applyRisk && UniqueSecids(b.rows) && AllAccepted(r) && limit <= 0 && price > 0.0
    requires Resolve(cfg, b, history, nav, d, price).Resolved? && Resolve(cfg, b, history, nav, d, price).lots > 0
    ensures var g := Evaluate(d, EngineContext(cfg, b, history, nav, d.symbol, price));
      var res := Resolve(cfg, b, history, nav, d, price);
      var rate := CommissionRate(cfg.settings); var lot := LotSizeFor(d.symbol, cfg.lotSizes);
      && g.Gate? && g.op.Some?
      && var spend := SpendOf(ApplyGate(d, g, price, trades, limit, rate, r).action, lot, price, rate);
         EngineSpend(res, lot, price) - spend
         == (match g.op.value
             case OpenLong => -OrderFee(OpenedQty(g), lot, price, rate)
             case AddLong => -OrderFee(OpenedQty(g), lot, price, rate)
             case FlipLongToShort =>
               Notional(Abs(PositionFor(b.rows, d.symbol)), lot, price) - OrderFee(OpenedQty(g), lot, price, rate)
             case FlipShortToLong =>
               Notional(Abs(PositionFor(b.rows, d.symbol)), lot, price) - OrderFee(OpenedQty(g), lot, price, rate)
             case _ => 0.0)
  {
    hide Evaluate, EngineContext, Resolve, ApplyGate, PositionFor, FitsPosition, TakenFrom, LotSizeFor,
         CommissionRate, SpendOf, Notional, OpenedQty, IsOpening, IsFlip, OrderFee, OpeningPassed, OpenMetrics;
    var c := EngineContext(cfg, b, history, nav, d.symbol, price);
    ResolutionOf(cfg, b, history, nav, d, price);
    EngineLots(cfg, b, history, nav, d.symbol, price);
    EvaluateFitsPosition(d, c);
    var g, res, q := Evaluate(d, c), Resolve(cfg, b, history, nav, d, price), PositionFor(b.rows, d.symbol);
    var rate, lot := CommissionRate(cfg.settings), LotSizeFor(d.symbol, cfg.lotSizes);
    TakenLots(g, res, d.signal, q, cfg.settings.allowFlip);
    if IsOpening(g.op.value) {
      OpeningOpsPassedTheGates(d, c);
      OpeningHasPassed(d, c);
      OpenMetricsParts(d, c, g.effectiveSize.value, OpenedQty(g));
      GatewaySpend(d, g, q, cfg.settings.allowFlip, lot, price, trades, limit, rate, r);
      NotionalAdds(Abs(q), OpenedQty(g), lot, price);
    } else {
      NoSpend(d, g, lot, price, trades, limit, rate, r);
    }
    OpeningNames(g.op.value);
  }

  lemma OpeningNames(op: OpType)
    ensures IsFlip(op) ==> IsOpening(op)
    ensures IsFlip(op) <==> op.FlipLongToShort? || op.FlipShortToLong?
    ensures IsOpening(op) <==> IsFlip(op) || op.OpenLong? || op.AddLong? || op.OpenShort? || op.AddShort?
  {}

  lemma NoSpend(d: Decision, g: Gate, lot: int, price: real, trades: int, limit: int, rate: real, r: Replies)
    requires g.Gate? && g.op.Some? && !IsOpening(g.op.value)
    ensures SpendOf(ApplyGate(d, g, price, trades, limit, rate, r).action, lot, price, rate) == 0.0
  {
    hide Notional, Fee, OrElse, RoundStep;
  }

  /** What the gateway adds to the tick spend for an accepted opening. */
  lemma GatewaySpend(d: Decision, g: Gate, q: int, allowFlip: bool, lot: int, price: real, trades: int, limit: int,
                     rate: real, r: Replies)
    requires FitsPosition(g, d.signal, q, allowFlip) && g.allowed && g.op.Some? && IsOpening(g.op.value)
    requires OpeningPrice(g.metrics, OpenedQty(g), lot, price, rate)
    requires AllAccepted(r) && limit <= 0
    ensures SpendOf(ApplyGate(d, g, price, trades, limit, rate, r).action, lot, price, rate)
         == Notional(OpenedQty(g), lot, price)
            + (if g.op.value.OpenShort? || g.op.value.AddShort? then 0.0 else OrderFee(OpenedQty(g), lot, price, rate))
  {
    var n := Notional(OpenedQty(g), lot, price);
    ProductNonNegative(n, rate);
    assert n * (1.0 + rate) == n + Fee(n, rate);
    hide Notional, Fee, RoundStep;
  }

  // ---- No crossing in the engine -----------------------------------------

  /** With the Risk Officer on and flips off, no fill of a backtest carries a
      position through zero, and no other ticker moves. */
  lemma SignalKeepsSide(cfg: Config, prices: Prices, t: nat, history: Prices, nav: real, b: Book, d: Decision,
                        secid: string)
    requires cfg.applyRisk && !cfg.settings.allowFlip && UniqueSecids(b.rows)
    ensures var b' := SignalStep(cfg, prices, t, history, nav, b, d);
      && SameSide(PositionFor(b.rows, secid), PositionFor(b'.rows, secid))
      && (secid != d.symbol ==> PositionFor(b'.rows, secid) == PositionFor(b.rows, secid))
  {
    hide Resolve, LotSizeFor, Notional, Slipped, ExecutionPrice, PositionFor, AvgPriceFor, StepsAt, KeyOf, FillRows,
         RecordHolding, Realized, TradeCommission, CashAfter, SignOf;
    if !b.raised && !Skips(cfg, b, d) && d.symbol in prices && ExecutionPrice(prices, d.symbol, t + 1).Some? {
      var raw := ExecutionPrice(prices, d.symbol, t + 1).value;
      var res := Resolve(cfg, b, history, nav, d, raw);
      if res.Resolved? && res.lots > 0 {
        var sign := SignOf(d, res.op);
        var price := Slipped(raw, sign, cfg.slippage);
        ResolvedKeepsSide(cfg, b, history, nav, d, raw);
        EngineBooks.FillRowsLookup(b.rows, d.symbol, sign * res.lots, price);
        if secid != d.symbol {
          EngineBooks.FillRowsFrame(b.rows, d.symbol, sign * res.lots, price, secid);
        }
      }
    }
  }

  lemma ResolvedKeepsSide(cfg: Config, b: Book, history: Prices, nav: real, d: Decision, price: real)
    requires cfg.applyRisk && !cfg.settings.allowFlip && UniqueSecids(b.rows)
    requires Resolve(cfg, b, history, nav, d, price).Resolved? && Resolve(cfg, b, history, nav, d, price).lots > 0
    ensures var res := Resolve(cfg, b, history, nav, d, price); var q := PositionFor(b.rows, d.symbol);
      SameSide(q, q + SignOf(d, res.op) * res.lots)
  {
    hide Evaluate, EngineContext, Resolve, PositionFor, FitsPosition, SignOf, TakenFrom, IsOpening;
    var c := EngineContext(cfg, b, history, nav, d.symbol, price);
    ResolutionOf(cfg, b, history, nav, d, price);
    EngineLots(cfg, b, history, nav, d.symbol, price);
    EvaluateFitsPosition(d, c);
    MoveKeepsSide(d, Evaluate(d, c), Resolve(cfg, b, history, nav, d, price), PositionFor(b.rows, d.symbol));
  }

  lemma MoveKeepsSide(d: Decision, g: Gate, res: Resolution, q: int)
    requires FitsPosition(g, d.signal, q, false) && res.Resolved? && TakenFrom(res, g) && res.lots > 0
    ensures SameSide(q, q + SignOf(d, res.op) * res.lots)
  {}

  /** When a backtest signal carries a position through zero. The Risk Officer
      lets only flips do so; without it, any opposing order larger than the
      position does. */
  ghost predicate CrossingSignal(cfg: Config, prices: Prices, t: nat, history: Prices, nav: real, b: Book,
                                 d: Decision) {
    && !b.raised && !Skips(cfg, b, d) && d.symbol in prices && ExecutionPrice(prices, d.symbol, t + 1).Some?
    && var raw := ExecutionPrice(prices, d.symbol, t + 1).value;
       if cfg.applyRisk then
         var res := Resolve(cfg, b, history, nav, d, raw);
         res.Resolved? && res.lots > 0 && res.op.Some? && IsFlip(res.op.value)
       else
         var q := PositionFor(b.rows, d.symbol);
         Opposes(d.signal, q)
         && QuantityForBuy(MaxReal(nav, 0.0), d.sizePct, raw, LotSizeFor(d.symbol, cfg.lotSizes)) > Abs(q)
  }

  lemma SignalCrossesExactly(cfg: Config, prices: Prices, t: nat, history: Prices, nav: real, b: Book, d: Decision)
    requires UniqueSecids(b.rows)
    ensures !SameSide(PositionFor(b.rows, d.symbol),
                      PositionFor(SignalStep(cfg, prices, t, history, nav, b, d).rows, d.symbol))
      <==> CrossingSignal(cfg, prices, t, history, nav, b, d)
  {
    hide Resolve, LotSizeFor, Notional, Slipped, ExecutionPrice, PositionFor, AvgPriceFor, StepsAt, KeyOf, FillRows,
         RecordHolding, Realized, TradeCommission, CashAfter, SignOf, QuantityForBuy, IsFlip;
    if !b.raised && !Skips(cfg, b, d) && d.symbol in prices && ExecutionPrice(prices, d.symbol, t + 1).Some? {
      var raw := ExecutionPrice(prices, d.symbol, t + 1).value;
      var res := Resolve(cfg, b, history, nav, d, raw);
      ResolvedCrosses(cfg, b, history, nav, d, raw);
      if res.Resolved? && res.lots > 0 {
        var sign := SignOf(d, res.op);
        EngineBooks.FillRowsLookup(b.rows, d.symbol, sign * res.lots, Slipped(raw, sign, cfg.slippage));
      }
    }
  }

  lemma ResolvedCrosses(cfg: Config, b: Book, history: Prices, nav: real, d: Decision, price: real)
    requires UniqueSecids(b.rows) && !Skips(cfg, b, d)
    ensures var res := Resolve(cfg, b, history, nav, d, price); var q := PositionFor(b.rows, d.symbol);
      var qty := QuantityForBuy(MaxReal(nav, 0.0), d.sizePct, price, LotSizeFor(d.symbol, cfg.lotSizes));
      (res.Resolved? && res.lots > 0 && !SameSide(q, q + SignOf(d, res.op) * res.lots))
      <==> if cfg.applyRisk then res.Resolved? && res.lots > 0 && res.op.Some? && IsFlip(res.op.value)
           else Opposes(d.signal, q) && qty > Abs(q)
  {
    hide Evaluate, EngineContext, PositionFor, FitsPosition, SignOf, TakenFrom, IsOpening, QuantityForBuy, LotSizeFor,
         IsFlip;
    var res, q := Resolve(cfg, b, history, nav, d, price), PositionFor(b.rows, d.symbol);
    if cfg.applyRisk {
      hide Resolve;
      var c := EngineContext(cfg, b, history, nav, d.symbol, price);
      ResolutionOf(cfg, b, history, nav, d, price);
      EngineLots(cfg, b, history, nav, d.symbol, price);
      EvaluateFitsPosition(d, c);
      if res.Resolved? && res.lots > 0 {
        MoveCrosses(d, Evaluate(d, c), res, q, cfg.settings.allowFlip);
      }
    } else {
      UnguardedMove(d, res.lots, q);
    }
  }

  lemma MoveCrosses(d: Decision, g: Gate, res: Resolution, q: int, allowFlip: bool)
    requires FitsPosition(g, d.signal, q, allowFlip) && res.Resolved? && TakenFrom(res, g) && res.lots > 0
    ensures !SameSide(q, q + SignOf(d, res.op) * res.lots) <==> res.op.Some? && IsFlip(res.op.value)
  {}

  lemma UnguardedMove(d: Decision, lots: int, q: int)
    requires !d.signal.Hold?
    ensures lots > 0 && !SameSide(q, q + SignOf(d, None) * lots) <==> Opposes(d.signal, q) && lots > Abs(q)
  {}
}
