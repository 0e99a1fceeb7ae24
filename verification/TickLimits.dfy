/** Limits that hold at every point of a tick: the buy budget, the daily trade
    count and the no-flip discipline. */
module TickLimits {
  import opened Money
  import opened Portfolio
  import opened Operations
  import opened Risk
  import opened RiskProperties
  import opened Orders
  import opened Simulation
  import opened Fills
  import opened TickSteps

  // ---- Openings and what they cost ---------------------------------------

  predicate OpensPosition(a: Action) { (a.Submitted? || a.FlipExecuted?) && IsOpening(a.op) }

  /** Only a gate that passed every opening check carries an opening operation. */
  lemma OpeningOpsPassedTheGates(d: Decision, c: Context)
    requires var g := Evaluate(d, c); g.Gate? && g.allowed && g.op.Some? && IsOpening(g.op.value)
    ensures IsOpeningGate(Evaluate(d, c))
  {
    hide PositionFor, LotSizeFor, Notional, FirstRefusal, ClipSize, VarPct, OpenQty, OpenMetrics, BaseWeight,
         DesiredQty, PnlPct, ProfitLadder, Bracket, TrimLots;
  }

  lemma ActionKeepsOp(d: Decision, g: Gate, price: real, trades: int, limit: int, rate: real, r: Replies)
    requires g.Gate? && OpensPosition(ApplyGate(d, g, price, trades, limit, rate, r).action)
    ensures g.allowed && g.op == Some(ApplyGate(d, g, price, trades, limit, rate, r).action.op)
  {
    hide Notional, OrElse, RoundStep;
  }

  /** The action record carries the opening's size and cost. */
  ghost predicate OpeningCost(a: Action, g: Gate, qty: int, m: Metrics, lot: int, price: real, rate: real)
    requires g.Gate?
  {
    && OpensPosition(a)
    && m.notional <= SpendOf(a, lot, price, rate) <= m.totalCost
    && (a.Submitted? ==>
          a.qty == qty && g.flipCloseQty.None? && a.notional == m.notional && a.estimatedCommission == m.commission)
    && (a.FlipExecuted? ==>
          a.openQty == qty && g.flipCloseQty == Some(a.closeQty)
          && a.estimatedCommission == Fee(Notional(a.closeQty + qty, lot, price), rate))
  }

  /** Metrics of an opening of `qty` lots. */
  ghost predicate OpeningPrice(m: Metrics, qty: int, lot: int, price: real, rate: real) {
    && rate >= 0.0
    && m.lotSize == lot && m.notional == Notional(qty, lot, price) > 0.0
    && m.commission == Fee(m.notional, rate) && m.totalCost == m.notional + m.commission
  }

  ghost predicate FlipParts(g: Gate)
    requires g.Gate?
  {
    && (g.flipCloseQty.Some? <==> g.flipOpenQty.Some?)
    && (g.flipCloseQty.Some? ==> g.op.Some? && IsFlip(g.op.value))
  }

  lemma OpeningAction(d: Decision, g: Gate, qty: int, lot: int, price: real, trades: int, limit: int, rate: real,
                      r: Replies)
    requires g.Gate? && FlipParts(g)
    requires OpensPosition(ApplyGate(d, g, price, trades, limit, rate, r).action)
    requires OpeningPrice(g.metrics, qty, lot, price, rate) && qty == OpenedQty(g)
    ensures OpeningCost(ApplyGate(d, g, price, trades, limit, rate, r).action, g, qty, g.metrics, lot, price, rate)
  {
    hide Notional, RoundStep;
    var m := g.metrics;
    ProductNonNegative(m.notional, rate);
    assert m.notional * (1.0 + rate) == m.notional + m.notional * rate;
  }

  lemma OpenMetricsParts(d: Decision, c: Context, size: real, qty: int)
    requires OpeningPassed(d, c, size, qty)
    ensures OpeningPrice(OpenMetrics(d, c, qty), qty, LotSizeFor(d.symbol, c.lotSizes), c.lastPrice,
                         CommissionRate(c.settings))
  {
    hide OpeningPassed, Notional, LotSizeFor;
    OpenedFitsCash(d, c, size, qty);
  }

  lemma FlipGateParts(g: Gate, signal: Signal, q: int, allowFlip: bool)
    requires FitsPosition(g, signal, q, allowFlip) && g.allowed
    ensures FlipParts(g)
    ensures g.flipCloseQty.Some? ==> allowFlip && g.flipCloseQty.value == Abs(q)
    ensures g.op.Some? && IsFlip(g.op.value) ==> g.flipCloseQty.Some?
  {}

  /** Everything later lemmas need to know about a step that opens. */
  lemma OpeningStep(env: Env, st: Live, item: Item)
    requires Applies(env, st, item) && OpensPosition(OutcomeFor(env, st, item).action)
    ensures var d, c, g := item.decision, ContextFor(env, st, item), GateFor(env, st, item);
      && IsOpeningGate(g) && OpeningPassed(d, c, g.effectiveSize.value, OpenedQty(g))
      && g.flipCloseQty == PlanFor(d, c).flipClose
      && g.op == Some(PlanFor(d, c).openOp)
      && OpeningCost(OutcomeFor(env, st, item).action, g, OpenedQty(g), OpenMetrics(d, c, OpenedQty(g)),
                     LotSizeFor(d.symbol, env.lotSizes), item.lastPrice, CommissionRate(env.settings))
  {
    hide ApplyGate, Evaluate, OpeningPassed, OpeningPrice, OpeningCost, FlipParts, OpensPosition, LotSizeFor,
         Notional, PositionFor, PlanFor, FitsPosition, OpenedQty, OpenMetrics, CommissionRate;
    var d, c := item.decision, ContextFor(env, st, item);
    var g := GateFor(env, st, item);
    var rate := CommissionRate(env.settings);
    ActionKeepsOp(d, g, item.lastPrice, st.trades, env.tradeLimit, rate, item.replies);
    OpeningActionOp(OutcomeFor(env, st, item).action);
    OpeningOpsPassedTheGates(d, c);
    OpeningHasPassed(d, c);
    EvaluateFitsPosition(d, c);
    FlipGateParts(g, d.signal, PositionFor(c.positions, d.symbol), env.settings.allowFlip);
    OpenMetricsParts(d, c, g.effectiveSize.value, OpenedQty(g));
    OpeningAction(d, g, OpenedQty(g), LotSizeFor(d.symbol, env.lotSizes), item.lastPrice, st.trades, env.tradeLimit,
                  rate, item.replies);
  }

  lemma OpeningActionOp(a: Action)
    requires OpensPosition(a)
    ensures IsOpening(a.op)
  {}

  // ---- Tick budget -------------------------------------------------------

  function Budget(env: Env): real { env.tickOpenNav * env.settings.maxTickBuyPct }

  /** Notional opened by the accepted orders of one step. */
  function OpenedNotional(env: Env, st: Live, item: Item): real {
    if !item.Priced? then 0.0
    else
      Notional(OpenedLots(PositionFor(st.positions, item.decision.symbol), NetLots(env, st, item)),
               LotSizeFor(item.decision.symbol, env.lotSizes), item.lastPrice)
  }

  lemma StepBudget(env: Env, st: Live, item: Item)
    requires env.settings.maxTickBuyPct > 0.0 && env.tickOpenNav > 0.0 && st.spent <= Budget(env)
    ensures var st' := TickStep(env, st, item);
      st'.spent <= Budget(env) && st'.spent - st.spent >= OpenedNotional(env, st, item)
  {
    hide Evaluate, ApplyGate, SummaryDelta, PortfolioNav, PositionFor, LotSizeFor, Notional, NetAccepted,
         OpeningPassed;
    var lot := if item.Priced? then LotSizeFor(item.decision.symbol, env.lotSizes) else 1;
    var price := if item.Priced? then item.lastPrice else 0.0;
    Accounting.ZeroLots(lot, price);
    if Applies(env, st, item) {
      StepShape(env, st, item);
      if OpensPosition(OutcomeFor(env, st, item).action) {
        OpeningStep(env, st, item);
        OpeningFitsBudget(item.decision, ContextFor(env, st, item), GateFor(env, st, item).effectiveSize.value,
                          OpenedQty(GateFor(env, st, item)));
      }
    }
  }

  lemma OpeningFitsBudget(d: Decision, c: Context, size: real, qty: int)
    requires OpeningPassed(d, c, size, qty) && c.settings.maxTickBuyPct > 0.0
    ensures c.tickBuySpent + OpenMetrics(d, c, qty).totalCost <= TickBudget(c)
  {
    hide PlanFor, BaseWeight, SectorCurrent, VarPct, OpenQty, OpenMetrics, TickBudget;
  }

  function TotalOpened(env: Env, st: Live, items: seq<Item>): real
    decreases |items|
  {
    if items == [] then 0.0
    else OpenedNotional(env, st, items[0]) + TotalOpened(env, TickStep(env, st, items[0]), items[1..])
  }

  /** Whatever the ticker order and the broker's answers, the spend stays within
      the budget and bounds from above everything that was opened, long or short. */
  lemma {:induction false} BudgetHolds(env: Env, st: Live, items: seq<Item>)
    requires env.settings.maxTickBuyPct > 0.0 && env.tickOpenNav > 0.0 && st.spent <= Budget(env)
    ensures var end := RunItems(env, st, items);
      end.spent <= Budget(env) && st.spent + TotalOpened(env, st, items) <= end.spent
    decreases |items|
  {
    hide TickStep, OpenedNotional, Budget;
    if items != [] {
      StepBudget(env, st, items[0]);
      BudgetHolds(env, TickStep(env, st, items[0]), items[1..]);
    }
  }

  // ---- Trade count -------------------------------------------------------

  lemma CountOfTwo(a: Order, b: Order)
    ensures AcceptedCount([a]) == (if a.accepted then 1 else 0)
    ensures AcceptedCount([a, b]) == (if a.accepted then 1 else 0) + (if b.accepted then 1 else 0)
  {
    assert [a, b] == [a] + [b];
    AcceptedCountAppend([a], [b]);
    assert [a][1..] == [] && [b][1..] == [];
  }

  /** Half-filled flips and rejections included, the counter moves by the accepted orders. */
  lemma TradesAreAcceptedOrders(d: Decision, g: Gate, price: real, trades: int, limit: int, rate: real, r: Replies)
    requires g.Gate?
    ensures var out := ApplyGate(d, g, price, trades, limit, rate, r);
      && TradesOf(out.action) == AcceptedCount(out.orders)
      && TradesOf(out.action) <= (if g.flipCloseQty.Some? && g.flipOpenQty.Some? then 2 else 1)
      && (limit > 0 && trades >= limit ==> out.orders == [])
  {
    hide Notional, OrElse, RoundStep;
    var out := ApplyGate(d, g, price, trades, limit, rate, r);
    if |out.orders| == 1 {
      CountOfTwo(out.orders[0], out.orders[0]);
      assert out.orders == [out.orders[0]];
    } else if |out.orders| == 2 {
      CountOfTwo(out.orders[0], out.orders[1]);
      assert out.orders == [out.orders[0], out.orders[1]];
    }
  }

  lemma NoOrdersNoCount()
    ensures AcceptedCount([]) == 0
  {}

  /** Most trades the counter can show: one more than the limit when flips are on. */
  function TradeCap(env: Env): int { env.tradeLimit + if env.settings.allowFlip then 1 else 0 }

  lemma StepTrades(env: Env, st: Live, item: Item)
    ensures var st' := TickStep(env, st, item);
      && st'.trades - AcceptedCount(st'.orders) == st.trades - AcceptedCount(st.orders)
      && (env.tradeLimit > 0 && st.trades <= TradeCap(env) ==> st'.trades <= TradeCap(env))
  {
    hide Evaluate, ApplyGate, SummaryDelta, PortfolioNav, PositionFor, LotSizeFor, Notional, TradesOf, AcceptedCount,
         FitsPosition;
    if Applies(env, st, item) {
      var g := GateFor(env, st, item);
      EvaluateFitsPosition(item.decision, ContextFor(env, st, item));
      TradesAreAcceptedOrders(item.decision, g, item.lastPrice, st.trades, env.tradeLimit,
                              CommissionRate(env.settings), item.replies);
      AcceptedCountAppend(st.orders, OutcomeFor(env, st, item).orders);
      NoOrdersNoCount();
      if g.allowed {
        FlipGateParts(g, item.decision.signal, PositionFor(st.positions, item.decision.symbol), env.settings.allowFlip);
      } else {
        TradesNeedPermission(item.decision, g, item.lastPrice, st.trades, env.tradeLimit, CommissionRate(env.settings),
                             item.replies);
      }
    }
  }

  lemma TradesNeedPermission(d: Decision, g: Gate, price: real, trades: int, limit: int, rate: real, r: Replies)
    requires g.Gate? && !g.allowed
    ensures TradesOf(ApplyGate(d, g, price, trades, limit, rate, r).action) == 0
  {}

  /** Counter and broker agree after any tick, and the daily limit is exceeded
      by at most the second half of one flip. */
  lemma {:induction false} TradeLimitHolds(env: Env, st: Live, items: seq<Item>)
    ensures var end := RunItems(env, st, items);
      && end.trades - AcceptedCount(end.orders) == st.trades - AcceptedCount(st.orders)
      && (env.tradeLimit > 0 && st.trades <= TradeCap(env) ==> end.trades <= TradeCap(env))
    decreases |items|
  {
    hide TickStep, AcceptedCount, TradeCap;
    if items != [] {
      StepTrades(env, st, items[0]);
      TradeLimitHolds(env, TickStep(env, st, items[0]), items[1..]);
    }
  }

  /** Exactly when a step overshoots: a whole flip executed on the last free trade. */
  lemma LimitExceededOnlyByFlip(env: Env, st: Live, item: Item)
    requires env.tradeLimit > 0 && st.trades <= env.tradeLimit
    ensures TickStep(env, st, item).trades > env.tradeLimit
      <==> (st.trades == env.tradeLimit - 1 && Applies(env, st, item) && OutcomeFor(env, st, item).action.FlipExecuted?)
  {
    hide Evaluate, SummaryDelta, PortfolioNav, LotSizeFor, Notional, AcceptedCount;
    if Applies(env, st, item) {
      TradesAreAcceptedOrders(item.decision, GateFor(env, st, item), item.lastPrice, st.trades, env.tradeLimit,
                              CommissionRate(env.settings), item.replies);
      NoOrdersNoCount();
      hide ApplyGate;
    }
  }

  // ---- No flip -----------------------------------------------------------

  /** Flat, or still on the same side. */
  predicate SameSide(q: int, q': int) { (q >= 0 || q' <= 0) && (q <= 0 || q' >= 0) }

  function Tickers(items: seq<Item>): seq<string> {
    seq(|items|, i requires 0 <= i < |items| => if items[i].Priced? then items[i].decision.symbol else items[i].secid)
  }

  ghost predicate DistinctTickers(items: seq<Item>) {
    forall i, j :: 0 <= i < j < |items| ==> Tickers(items)[i] != Tickers(items)[j]
  }

  lemma StepElsewhere(env: Env, st: Live, item: Item, secid: string)
    requires UniqueSecids(st.positions) && item.Priced? && secid != item.decision.symbol
    ensures UniqueSecids(TickStep(env, st, item).positions)
    ensures PositionFor(TickStep(env, st, item).positions, secid) == PositionFor(st.positions, secid)
  {
    hide LotSizeFor, FillPositions, PositionFor, AvgPriceFor, Evaluate, ApplyGate, SummaryDelta, PortfolioNav,
         NetAccepted;
    assert [item][0] == item;
    if Applies(env, st, item) {
      if item.lastPrice > 0.0 {
        StepIsFill(env, st, item);
        FillLookup(st.positions, item.decision.symbol, NetLots(env, st, item), item.lastPrice);
        FillFrame(st.positions, item.decision.symbol, NetLots(env, st, item), item.lastPrice, secid);
      } else {
        NoPriceNoDelta(OutcomeFor(env, st, item).action, item.lastPrice, item.decision.symbol, st.cash, st.positions,
                       env.lotSizes);
      }
    }
  }

  lemma StepKeepsSide(env: Env, st: Live, item: Item)
    requires UniqueSecids(st.positions) && item.Priced? && !env.settings.allowFlip
    ensures UniqueSecids(TickStep(env, st, item).positions)
    ensures SameSide(PositionFor(st.positions, item.decision.symbol),
                     PositionFor(TickStep(env, st, item).positions, item.decision.symbol))
  {
    hide LotSizeFor, FillPositions, PositionFor, AvgPriceFor, Evaluate, ApplyGate, SummaryDelta, PortfolioNav,
         NetAccepted;
    assert [item][0] == item;
    if Applies(env, st, item) {
      StepShape(env, st, item);
      if item.lastPrice > 0.0 {
        StepIsFill(env, st, item);
        FillLookup(st.positions, item.decision.symbol, NetLots(env, st, item), item.lastPrice);
      } else {
        NoPriceNoDelta(OutcomeFor(env, st, item).action, item.lastPrice, item.decision.symbol, st.cash, st.positions,
                       env.lotSizes);
      }
    }
  }

  /** With flips off, no tick carries a position through zero. */
  lemma {:induction false} NoFlipDiscipline(env: Env, st: Live, items: seq<Item>, secid: string)
    requires UniqueSecids(st.positions) && DistinctTickers(items) && !env.settings.allowFlip
    ensures SameSide(PositionFor(st.positions, secid), PositionFor(RunItems(env, st, items).positions, secid))
    ensures secid !in Tickers(items) ==>
      PositionFor(RunItems(env, st, items).positions, secid) == PositionFor(st.positions, secid)
    decreases |items|
  {
    hide TickStep, PositionFor;
    if items != [] {
      var st' := TickStep(env, st, items[0]);
      assert Tickers(items)[0] in Tickers(items);
      if items[0].Priced? {
        if items[0].decision.symbol == secid {
          StepKeepsSide(env, st, items[0]);
        } else {
          StepElsewhere(env, st, items[0], secid);
        }
      } else {
        FailedItemDoesNothing(env, st, items[0]);
      }
      assert forall i :: 0 <= i < |items| - 1 ==> Tickers(items[1..])[i] == Tickers(items)[i + 1];
      NoFlipDiscipline(env, st', items[1..], secid);
      if secid !in Tickers(items) {
        forall t | t in Tickers(items[1..]) ensures t in Tickers(items) {
          var i :| 0 <= i < |items| - 1 && Tickers(items[1..])[i] == t;
          assert Tickers(items)[i + 1] == t;
        }
      }
      if items[0].Priced? && items[0].decision.symbol == secid {
        forall i | 0 <= i < |items| - 1 ensures Tickers(items[1..])[i] != secid {
          assert Tickers(items)[0] != Tickers(items)[i + 1];
        }
      }
    }
  }

  lemma FailedItemDoesNothing(env: Env, st: Live, item: Item)
    requires !item.Priced?
    ensures TickStep(env, st, item) == st
  {}
}
