/** One Phase 2 step: the operation chosen by the Risk Officer, the orders the
    broker accepted and the simulated book all describe the same fill. */
module TickSteps {
  import opened Money
  import opened Portfolio
  import opened Operations
  import opened Risk
  import opened RiskProperties
  import opened Orders
  import opened Simulation
  import opened Fills
  import opened Accounting

  /** The broker does not report commissions of its own. */
  predicate NoCommission(r: Replies) { r.first.commission == 0.0 && r.second.commission == 0.0 }

  /** The remaining cash that the reply reports; it replaces the simulated one. */
  function Reported(a: Action, price: real): Option<real> { if NoDelta(a, price) then None else a.reply.remainingCash }

  function Settled(reported: Option<real>, simulated: real): real {
    if reported.Some? then reported.value else simulated
  }

  function Charged(a: Action, price: real): real { if NoDelta(a, price) then 0.0 else CommissionOf(a) }

  lemma NetOfOne(o: Order, secid: string)
    ensures NetAccepted([o], secid) == if o.accepted && o.secid == secid then SignedQty(o) else 0
  {
    assert NetAccepted([o][1..], secid) == 0;
  }

  lemma NetOfTwo(o1: Order, o2: Order, secid: string)
    ensures NetAccepted([o1, o2], secid) == NetAccepted([o1], secid) + NetAccepted([o2], secid)
  {
    assert [o1, o2] == [o1] + [o2];
    NetAcceptedAppend([o1], [o2], secid);
  }

  /** Signed lots that an action record claims were traded. */
  function ClaimedLots(a: Action): int {
    match a
    case Submitted(side, _, qty, _, _, _, _, _, _) => if side.BuySide? then qty else -qty
    case FlipExecuted(op, closeQty, openQty, _, _, _) =>
      if op.FlipLongToShort? then -(closeQty + openQty) else closeQty + openQty
    case _ => 0
  }

  /** The action record states what the broker accepted. */
  lemma ActionStatesOrders(d: Decision, g: Gate, price: real, trades: int, limit: int, rate: real, r: Replies)
    requires g.Gate? && (g.allowed && g.qty.Some? ==> g.qty.value >= 0)
    ensures var out := ApplyGate(d, g, price, trades, limit, rate, r);
      NetAccepted(out.orders, d.symbol) == ClaimedLots(out.action)
  {
    hide Notional, NetAccepted;
    var out := ApplyGate(d, g, price, trades, limit, rate, r);
    if |out.orders| == 1 {
      NetOfOne(out.orders[0], d.symbol);
    } else if |out.orders| == 2 {
      NetOfTwo(out.orders[0], out.orders[1], d.symbol);
      NetOfOne(out.orders[0], d.symbol);
      NetOfOne(out.orders[1], d.symbol);
      assert out.orders == [out.orders[0], out.orders[1]];
    } else {
      NetOfNone(d.symbol);
    }
  }

  lemma NetOfNone(secid: string)
    ensures NetAccepted([], secid) == 0
  {}

  /** Without a positive price the simulation stands still. */
  lemma NoPriceNoDelta(a: Action, price: real, secid: string, cash: real, ps: seq<Position>, lotSizes: map<string, int>)
    requires price <= 0.0
    ensures SummaryDelta(a, price, secid, cash, ps, lotSizes) == (cash, ps)
  {}

  // ---- The step as a fill ------------------------------------------------

  /** Net lots the broker accepted for the item's ticker in this step. */
  function NetLots(env: Env, st: Live, item: Item): int {
    if Applies(env, st, item) then NetAccepted(OutcomeFor(env, st, item).orders, item.decision.symbol) else 0
  }

  function StepCharge(env: Env, st: Live, item: Item): real {
    if Applies(env, st, item) then Charged(OutcomeFor(env, st, item).action, item.lastPrice) else 0.0
  }

  /** What an action says about the net lots `delta` on a position of `q`. */
  ghost predicate ActionFitsFill(a: Action, q: int, delta: int, allowFlip: bool) {
    && (Crosses(q, delta) <==> a.FlipExecuted?)
    && (a.FlipExecuted? ==>
          allowFlip && IsFlip(a.op) && a.openQty == OpenedLots(q, delta) && a.closeQty == ClosedLots(q, delta))
    && (a.FlipExecuted? ==> (a.op.FlipLongToShort? <==> q > 0))
    && (a.Submitted? ==> Abs(delta) == a.qty && (IsOpening(a.op) <==> OpenedLots(q, delta) > 0))
    && (a.Submitted? ==> a.qty == 0 || (ReturnsCollateral(a.side, a.op) <==> ClosedLots(q, delta) > 0))
    && (!a.Submitted? && !a.FlipExecuted? ==> delta == 0)
  }

  /** A single order of `qty` lots on `q`: openings extend, the rest reduce. */
  ghost predicate SideFits(side: Side, op: OpType, qty: int, q: int) {
    && qty >= 1
    && (ReturnsCollateral(side, op) <==> !IsOpening(op))
    && (IsOpening(op) ==> if side.BuySide? then q >= 0 else q <= 0)
    && (!IsOpening(op) ==> if side.BuySide? then qty <= -q else qty <= q)
  }

  lemma SingleSide(d: Decision, g: Gate, q: int, allowFlip: bool)
    requires FitsPosition(g, d.signal, q, allowFlip) && g.allowed && g.flipCloseQty.None? && g.op.Some?
    ensures g.qty.Some? && SideFits(SideOf(d, g.op.value), g.op.value, g.qty.value, q)
  {}

  lemma SideShape(side: Side, op: OpType, qty: int, q: int)
    requires SideFits(side, op, qty, q)
    ensures var delta := if side.BuySide? then qty else -qty;
      && !Crosses(q, delta) && (IsOpening(op) <==> OpenedLots(q, delta) > 0)
      && (ReturnsCollateral(side, op) <==> ClosedLots(q, delta) > 0)
  {
    hide IsOpening, ReturnsCollateral;
  }

  lemma SingleShape(d: Decision, g: Gate, q: int, price: real, rate: real, r: Replies, allowFlip: bool)
    requires FitsPosition(g, d.signal, q, allowFlip) && g.allowed && g.flipCloseQty.None?
    requires d.signal.Hold? ==> g.op.Some? && IsReduceOverride(g.op.value)
    ensures var a := ApplySingle(d, g, price, rate, r).action; ActionFitsFill(a, q, ClaimedLots(a), allowFlip)
  {
    if g.op.Some? {
      SingleSide(d, g, q, allowFlip);
      SideShape(SideOf(d, g.op.value), g.op.value, g.qty.value, q);
      hide Notional, RoundStep, OrElse, FitsPosition, SideOf, IsOpening, Crosses, OpenedLots, ClosedLots,
           ReturnsCollateral, Fee;
    }
  }

  lemma FlipShape(d: Decision, g: Gate, q: int, price: real, rate: real, r: Replies, allowFlip: bool)
    requires FitsPosition(g, d.signal, q, allowFlip) && g.allowed && g.flipCloseQty.Some? && g.flipOpenQty.Some?
    ensures var a := ApplyFlip(d, g, price, rate, r).action; ActionFitsFill(a, q, ClaimedLots(a), allowFlip)
  {
    hide Notional, NetAccepted;
  }

  /** Which fills are possible: none, an extension, a reduction within the
      position, or, with flips allowed, a full close plus an opening. */
  lemma ActionShape(d: Decision, g: Gate, q: int, price: real, trades: int, limit: int, rate: real, r: Replies,
                    allowFlip: bool)
    requires FitsPosition(g, d.signal, q, allowFlip)
    ensures var out := ApplyGate(d, g, price, trades, limit, rate, r);
      ActionFitsFill(out.action, q, NetAccepted(out.orders, d.symbol), allowFlip)
  {
    hide Notional, NetAccepted, ApplySingle, ApplyFlip;
    ActionStatesOrders(d, g, price, trades, limit, rate, r);
    var out := ApplyGate(d, g, price, trades, limit, rate, r);
    if out.action.Submitted? || out.action.FlipExecuted? || out.action.Rejected? {
      if g.flipCloseQty.Some? && g.flipOpenQty.Some? {
        FlipShape(d, g, q, price, rate, r, allowFlip);
      } else {
        SingleShape(d, g, q, price, rate, r, allowFlip);
      }
    }
  }

  lemma StepShape(env: Env, st: Live, item: Item)
    requires Applies(env, st, item)
    ensures ActionFitsFill(OutcomeFor(env, st, item).action, PositionFor(st.positions, item.decision.symbol),
                           NetLots(env, st, item), env.settings.allowFlip)
  {
    hide Evaluate, ApplyGate, PositionFor, NetAccepted, ActionFitsFill, FitsPosition;
    EvaluateFitsPosition(item.decision, ContextFor(env, st, item));
    ActionShape(item.decision, GateFor(env, st, item), PositionFor(st.positions, item.decision.symbol), item.lastPrice,
                st.trades, env.tradeLimit, CommissionRate(env.settings), item.replies, env.settings.allowFlip);
  }

  // ---- Every step is one fill --------------------------------------------

  lemma SingleStep(a: Action, price: real, cash: real, ps: seq<Position>, secid: string, lot: int)
    requires a.Submitted?
    ensures var step := StepsOf(a, lot, price)[0];
      ApplySteps(cash, ps, secid, price, StepsOf(a, lot, price))
      == (cash + step.cash, StepPositions(ps, secid, step.delta, price))
  {
    hide StepPositions, Notional;
  }

  lemma FlipSteps(a: Action, price: real, cash: real, ps: seq<Position>, secid: string, lot: int)
    requires a.FlipExecuted? && a.closeQty > 0 && a.openQty > 0
    ensures var sign := if a.op.FlipLongToShort? then -1 else 1;
      ApplySteps(cash, ps, secid, price, StepsOf(a, lot, price))
      == (cash + Notional(a.closeQty, lot, price) - Notional(a.openQty, lot, price),
          StepPositions(StepPositions(ps, secid, sign * a.closeQty, price), secid, sign * a.openQty, price))
  {
    hide StepPositions, Notional;
    var steps := StepsOf(a, lot, price);
    assert |steps| == 2 && steps[1..] == [steps[1]];
    var mid := StepPositions(ps, secid, steps[0].delta, price);
    assert ApplySteps(cash + steps[0].cash, mid, secid, price, [steps[1]])
        == (cash + steps[0].cash + steps[1].cash, StepPositions(mid, secid, steps[1].delta, price));
  }

  /** Direction, cash sign and size agree across gateway, simulation and broker:
      the simulated delta is the fill of the net accepted lots, settled at the
      remaining cash that the broker reports, if it does. */
  lemma ActionIsFill(a: Action, secid: string, delta: int, price: real, cash: real, ps: seq<Position>,
                     lotSizes: map<string, int>, allowFlip: bool)
    requires ActionFitsFill(a, PositionFor(ps, secid), delta, allowFlip) && delta == ClaimedLots(a)
    requires price > 0.0
    ensures var fill := CollateralFill(cash, ps, secid, delta, LotSizeFor(secid, lotSizes), price, Charged(a, price));
      SummaryDelta(a, price, secid, cash, ps, lotSizes) == (Settled(Reported(a, price), fill.0), fill.1)
  {
    hide StepPositions, PositionFor, LotSizeFor, Notional, IsOpening, ReturnsCollateral, OrElse;
    var lot := LotSizeFor(secid, lotSizes);
    ZeroLots(lot, price);
    if a.FlipExecuted? {
      FlipSteps(a, price, cash, ps, secid, lot);
    } else if a.Submitted? && !NoDelta(a, price) {
      SingleStep(a, price, cash, ps, secid, lot);
    }
  }

  lemma NonNegativeQty(g: Gate, signal: Signal, q: int, allowFlip: bool)
    requires FitsPosition(g, signal, q, allowFlip)
    ensures g.allowed && g.qty.Some? ==> g.qty.value >= 0
  {}

  /** Cash after the step as the simulation alone would have it. */
  function SimulatedCash(env: Env, st: Live, item: Item): real
    requires item.Priced?
  {
    st.cash + CashDelta(PositionFor(st.positions, item.decision.symbol), NetLots(env, st, item),
                        LotSizeFor(item.decision.symbol, env.lotSizes), item.lastPrice) - StepCharge(env, st, item)
  }

  function StepReport(env: Env, st: Live, item: Item): Option<real> {
    if Applies(env, st, item) then Reported(OutcomeFor(env, st, item).action, item.lastPrice) else None
  }

  /** One step is one fill of the net accepted lots, whatever the replies; the
      cash is the simulated one unless the broker reports another. */
  lemma StepIsFill(env: Env, st: Live, item: Item)
    requires Applies(env, st, item) && item.lastPrice > 0.0
    ensures var st' := TickStep(env, st, item); var secid := item.decision.symbol;
      && st'.positions == FillPositions(st.positions, secid, NetLots(env, st, item), item.lastPrice)
      && st'.cash == Settled(StepReport(env, st, item), SimulatedCash(env, st, item))
  {
    hide Evaluate, ApplyGate, SummaryDelta, Charged, NetAccepted, FillPositions, CashDelta, Reported, LotSizeFor,
         PortfolioNav, FitsPosition, ActionFitsFill, ClaimedLots, PositionFor;
    var d, g := item.decision, GateFor(env, st, item);
    var out := OutcomeFor(env, st, item);
    EvaluateFitsPosition(d, ContextFor(env, st, item));
    NonNegativeQty(g, d.signal, PositionFor(st.positions, d.symbol), env.settings.allowFlip);
    StepShape(env, st, item);
    ActionStatesOrders(d, g, item.lastPrice, st.trades, env.tradeLimit, CommissionRate(env.settings), item.replies);
    ActionIsFill(out.action, d.symbol, NetLots(env, st, item), item.lastPrice, st.cash, st.positions, env.lotSizes,
                 env.settings.allowFlip);
  }
}
