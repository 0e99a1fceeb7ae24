/** What a step of a tick takes from its surroundings: an opening has passed the
    market gates on the item's own data, the last accepted order settles it, and
    the journal gets the events that the gateway writes. */
module TickGates {
  import opened Money
  import opened Portfolio
  import opened Operations
  import opened Risk
  import opened RiskProperties
  import opened Openings
  import opened Orders
  import opened Journal
  import opened Simulation
  import opened TickSteps
  import opened TickLimits
  import opened Charges

  // ---- Openings ----------------------------------------------------------

  lemma OpeningMarketClear(d: Decision, c: Context)
    requires IsOpeningGate(Evaluate(d, c)) && c.nav > 0.0 && 0.0 < c.settings.maxDrawdown <= 1.0
    ensures MarketClear(d, c)
  {
    OpeningEvaluated(d, c);
    FirstRefusalExactly(d, c);
    hide Evaluate, PlanFor, FirstRefusal, ClipSize, VarPct, BaseWeight, SecondRefusal, OpenQty, OpenMetrics,
         LotSizeFor, MarketClear;
  }

  /** Every opening of a tick had a price and enough conviction, and was clear of
      the item's own spread and expected move, of the drawdown of the recorded
      NAVs against the live NAV, and of the loss since today's first record. */
  lemma OpeningMetItsMarket(env: Env, st: Live, item: Item)
    requires Applies(env, st, item) && OpensPosition(OutcomeFor(env, st, item).action)
    requires st.nav > 0.0 && 0.0 < env.settings.maxDrawdown <= 1.0
    ensures var s, d := env.settings, item.decision;
      && item.lastPrice > 0.0 && d.confidence >= s.minConfidence
      && (s.spreadCapBps > 0.0 && item.flow.Some? ==>
            (var f := item.flow.value; if f.spreadOneMillionBps > 0.0 then f.spreadOneMillionBps else f.spreadBestBps)
            <= s.spreadCapBps)
      && (s.minEdgePct > 0.0 && item.returnsCount >= 5 ==>
            d.confidence * item.sigma * s.edgeVolMult >= s.minEdgePct
            && d.confidence * item.sigma * s.edgeVolMult >= 2.0 * MaxReal(s.commissionRate, 0.0))
      && (HasOpen(st.positions) ==>
            forall i :: 0 <= i < |env.navHistory| ==> LowestAllowed(env.navHistory[i].nav, s.maxDrawdown) < st.nav)
      && (forall i :: OpensSession(env.navHistory, env.today, i) && env.navHistory[i].nav > 0.0 ==>
            LowestAllowed(env.navHistory[i].nav, s.maxDailyLoss) < st.nav)
  {
    hide Evaluate, ApplyGate, LowestAllowed, ProfitStepsDone, OpensSession, HasOpen, OpensPosition, OpenedQty,
         CommissionRate;
    OpeningIsGated(env, st, item);
    OpeningMarketClear(item.decision, ContextFor(env, st, item));
  }

  lemma OpeningIsGated(env: Env, st: Live, item: Item)
    requires Applies(env, st, item) && OpensPosition(OutcomeFor(env, st, item).action)
    ensures IsOpeningGate(GateFor(env, st, item))
  {
    hide ApplyGate, Evaluate, OpeningPassed, OpeningCost, OpensPosition, LotSizeFor, PlanFor, OpenedQty, OpenMetrics,
         CommissionRate, ContextFor;
    OpeningStep(env, st, item);
  }

  /** Spend of the tick so far, cost with commission, and the NAV at its start are
      what the tick budget compares. */
  lemma OpeningMetItsBudget(env: Env, st: Live, item: Item)
    requires Applies(env, st, item) && OpensPosition(OutcomeFor(env, st, item).action)
      && env.settings.maxTickBuyPct > 0.0
    ensures var n := Notional(OpenedQty(GateFor(env, st, item)), LotSizeFor(item.decision.symbol, env.lotSizes),
                              item.lastPrice);
      st.spent + n + n * MaxReal(env.settings.commissionRate, 0.0)
      <= (if env.tickOpenNav > 0.0 then env.tickOpenNav else st.nav) * env.settings.maxTickBuyPct
  {
    hide Evaluate, ApplyGate, OpeningPassed, OpeningCost, PlanFor, ProfitStepsDone, OpenedQty, LotSizeFor, Notional,
         OpensPosition;
    OpeningStep(env, st, item);
    var d, c, g := item.decision, ContextFor(env, st, item), GateFor(env, st, item);
    OpeningFitsBudget(d, c, g.effectiveSize.value, OpenedQty(g));
  }

  /** The ladder of an item counts the rungs on record in the last 2000 records,
      those written earlier in the same tick included. */
  lemma StepsSeen(env: Env, st: Live, item: Item, step: StepId)
    requires item.Priced?
    ensures var q, avg := PositionFor(st.positions, item.decision.symbol),
                          AvgPriceFor(st.positions, item.decision.symbol);
      var records := env.journal + st.logged;
      step in ContextFor(env, st, item).stepsDone
      <==> q != 0 && avg > 0.0
           && exists i ::
             0 <= i < |records| && |records| - 2000 <= i
             && Witnesses(records[i], item.decision.symbol, q < 0, avg, step, env.settings)
  {
    hide ProfitStepsDone, Witnesses, PositionFor, AvgPriceFor;
    StepsDoneExactly(env.journal + st.logged, item.decision.symbol, st.positions, env.settings, step);
  }

  // ---- Replies -----------------------------------------------------------

  /** A step is settled by the reply to its last accepted order, and rejected
      exactly when it sent an order and none was accepted. */
  lemma LastAcceptedReplySettles(d: Decision, g: Gate, price: real, trades: int, limit: int, rate: real, r: Replies)
    requires g.Gate?
    ensures var out := ApplyGate(d, g, price, trades, limit, rate, r); var n := AcceptedCount(out.orders);
      && n <= 2
      && (n == 0 <==> !(out.action.Submitted? || out.action.FlipExecuted?))
      && (n == 1 ==> out.action.Submitted? && out.action.reply == r.first && r.first.success)
      && (n == 2 ==> out.action.FlipExecuted? && out.action.reply == r.second && r.first.success && r.second.success)
      && (out.orders != [] && n == 0 <==> out.action.Rejected?)
  {
    TradesAreAcceptedOrders(d, g, price, trades, limit, rate, r);
    hide Notional, OrElse, RoundStep, Fee, AcceptedCount;
    var out := ApplyGate(d, g, price, trades, limit, rate, r);
    NoOrdersNoCount();
    assert out.orders == [] || |out.orders| >= 1;
  }

  /** Orders of an allowed signal: a flip sends its closing lots and, only when
      these were accepted, its opening lots to the same side; anything else is one
      order. Risk exits pick their own side, all else follows the signal. */
  lemma OrdersSent(d: Decision, g: Gate, price: real, trades: int, limit: int, rate: real, r: Replies)
    requires g.Gate? && g.allowed && (limit <= 0 || trades < limit)
    requires d.signal.Hold? ==> g.op.Some? && IsReduceOverride(g.op.value)
    ensures var orders := ApplyGate(d, g, price, trades, limit, rate, r).orders;
      if g.flipCloseQty.Some? && g.flipOpenQty.Some? then
        var side := if g.op == Some(FlipLongToShort) then SellSide else BuySide;
        var closing := Order(d.symbol, side, g.flipCloseQty.value, r.first.success);
        orders == if r.first.success then [closing, Order(d.symbol, side, g.flipOpenQty.value, r.second.success)]
                  else [closing]
      else
        var covers := g.op == Some(RiskTrimCover) || g.op == Some(TakeProfitCover) || g.op == Some(StopLossCover);
        var sells := g.op == Some(RiskTrimSell) || g.op == Some(TakeProfitSell) || g.op == Some(StopLossSell);
        orders == [Order(d.symbol, if sells || (d.signal.Sell? && !covers) then SellSide else BuySide,
                         if g.qty.Some? then g.qty.value else 0, r.first.success)]
  {
    hide Notional, OrElse, RoundStep, Fee;
  }

  /** A commission that the reply states is charged as it is. */
  lemma StatedCommissionIsCharged(env: Env, st: Live, item: Item)
    requires Applies(env, st, item) && !NoDelta(OutcomeFor(env, st, item).action, item.lastPrice)
    requires OutcomeFor(env, st, item).action.reply.commission != 0.0
    ensures StepCharge(env, st, item) == OutcomeFor(env, st, item).action.reply.commission
  {
    hide Evaluate, ApplyGate, ContextFor;
  }

  /** With or without a stated commission: the charge of a step that is no refused
      flip is the stated one, else the commission on the accepted lots. */
  lemma StepChargeInGeneral(env: Env, st: Live, item: Item)
    requires Applies(env, st, item) && item.lastPrice > 0.0 && !IsFallback(GateFor(env, st, item))
    requires !NoDelta(OutcomeFor(env, st, item).action, item.lastPrice)
    ensures var a, d := OutcomeFor(env, st, item).action, item.decision;
      StepCharge(env, st, item)
      == if a.reply.commission != 0.0 then a.reply.commission
         else TradeFee(NetLots(env, st, item), LotSizeFor(d.symbol, env.lotSizes), item.lastPrice,
                       CommissionRate(env.settings))
  {
    if OutcomeFor(env, st, item).action.reply.commission == 0.0 {
      var silent := item.(replies := Uncharged(item.replies));
      UnchargedStep(env, st, item);
      ChargeIsFee(env, st, silent);
    } else {
      StatedCommissionIsCharged(env, st, item);
    }
    hide Evaluate, ApplyGate, ContextFor, LotSizeFor, TradeFee, IsFallback, NetAccepted;
  }

  function Uncharged(r: Replies): Replies { Replies(r.first.(commission := 0.0), r.second.(commission := 0.0)) }

  /** Removing commissions from the replies changes neither orders nor estimate. */
  lemma UnchargedGate(d: Decision, g: Gate, price: real, trades: int, limit: int, rate: real, r: Replies)
    requires g.Gate?
    ensures var a, b := ApplyGate(d, g, price, trades, limit, rate, r), ApplyGate(d, g, price, trades, limit, rate,
                                                                                  Uncharged(r));
      && a.orders == b.orders
      && (a.action.Submitted? <==> b.action.Submitted?) && (a.action.FlipExecuted? <==> b.action.FlipExecuted?)
      && (a.action.Submitted? || a.action.FlipExecuted? ==>
            a.action.estimatedCommission == b.action.estimatedCommission && b.action.reply.commission == 0.0)
      && (a.action.Submitted? ==> a.action.qty == b.action.qty)
  {
    hide Notional, OrElse, RoundStep, Fee;
  }

  lemma UnchargedStep(env: Env, st: Live, item: Item)
    requires Applies(env, st, item) && !NoDelta(OutcomeFor(env, st, item).action, item.lastPrice)
    requires OutcomeFor(env, st, item).action.reply.commission == 0.0
    ensures var silent := item.(replies := Uncharged(item.replies));
      && Applies(env, st, silent) && GateFor(env, st, silent) == GateFor(env, st, item)
      && NetLots(env, st, silent) == NetLots(env, st, item) && StepCharge(env, st, silent) == StepCharge(env, st, item)
      && NoCommission(silent.replies)
  {
    var silent := item.(replies := Uncharged(item.replies));
    assert ContextFor(env, st, silent) == ContextFor(env, st, item);
    UnchargedGate(item.decision, GateFor(env, st, item), item.lastPrice, st.trades, env.tradeLimit,
                  CommissionRate(env.settings), item.replies);
    hide Evaluate, ApplyGate, ContextFor, NetAccepted;
  }

  // ---- The journal -------------------------------------------------------

  function EventsOf(item: Item, g: Gate, out: Outcome): nat {
    if out.action.RiskBlocked? then 1
    else if item.Priced? && g.Gate? && out.orders != [] && g.effectiveSize.Some? && g.effectiveSize.value != 0.0
            && item.decision.sizePct - g.effectiveSize.value > 0.000000001 then 1
    else 0
  }

  /** A step writes one event for a refusal, one for an order of a size that was
      clipped by more than the tolerance, and none otherwise. */
  lemma LoggedEvents(env: Env, st: Live, item: Item)
    requires Applies(env, st, item)
    ensures var g, st' := GateFor(env, st, item), TickStep(env, st, item);
      && st.logged <= st'.logged
      && |st'.logged| == |st.logged| + EventsOf(item, g, OutcomeFor(env, st, item))
      && forall k :: |st.logged| <= k < |st'.logged| ==> st'.logged[k] == Other
  {
    OrdersNeedAction(item.decision, GateFor(env, st, item), item.lastPrice, st.trades, env.tradeLimit,
                     CommissionRate(env.settings), item.replies);
    hide Evaluate, ApplyGate, ContextFor, SummaryDelta, PortfolioNav, LotSizeFor, SpendOf;
  }

  lemma OrdersNeedAction(d: Decision, g: Gate, price: real, trades: int, limit: int, rate: real, r: Replies)
    requires g.Gate?
    ensures var out := ApplyGate(d, g, price, trades, limit, rate, r);
      out.orders == [] <==> out.action.Held? || out.action.RiskBlocked? || out.action.DailyTradeLimit?
  {
    hide Notional, OrElse, RoundStep, Fee;
  }

  /** The trade limit holds back what is allowed, and nothing but that: a refusal
      is reported as such even when the limit is reached. */
  lemma LimitHoldsBackAllowed(d: Decision, g: Gate, price: real, trades: int, limit: int, rate: real, r: Replies)
    requires g.Gate? && !d.signal.Hold?
    ensures var a := ApplyGate(d, g, price, trades, limit, rate, r).action;
      && (a.RiskBlocked? <==> !g.allowed)
      && (a.DailyTradeLimit? <==> g.allowed && limit > 0 && trades >= limit)
  {
    hide Notional, OrElse, RoundStep, Fee;
  }
}
