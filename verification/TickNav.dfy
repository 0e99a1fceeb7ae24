/** Exact accounting over a whole tick. */
module TickNav {
  import opened Money
  import opened Portfolio
  import opened Operations
  import opened Risk
  import opened Orders
  import opened Simulation
  import opened Fills
  import opened Accounting
  import opened TickSteps

  // ---- The state in which Phase 2 starts and stays -----------------------

  /** Fresh prices are already in the price map. */
  ghost predicate MarkAgrees(prices: map<string, real>, item: Item) {
    item.Priced? ==>
      item.lastPrice >= 0.0 &&
      (item.lastPrice > 0.0 ==> item.decision.symbol in prices && prices[item.decision.symbol] == item.lastPrice)
  }

  ghost predicate Ready(env: Env, st: Live, items: seq<Item>) {
    && WellFormed(st.positions, env.lotSizes)
    && st.nav == PortfolioNav(st.cash, st.positions, st.prices, env.lotSizes)
    && forall i :: 0 <= i < |items| ==> MarkAgrees(st.prices, items[i])
  }

  /** What one row of `secid` is worth at the tick's price. */
  ghost function RowValue(lot: int, price: real): (int, real) -> real {
    (q: int, avg: real) => CollateralValue(q, avg, lot, price)
  }

  lemma ValueTermPricesRow(secid: string, prices: map<string, real>, lotSizes: map<string, int>)
    requires secid in prices && prices[secid] != 0.0
    ensures PricesRow(ValueTerm(prices, lotSizes), RowValue(LotSizeFor(secid, lotSizes), prices[secid]), secid,
                      lotSizes)
  {
    hide LotSizeFor, Notional;
  }

  /** A fill at the mark moves the NAV by minus its commission plus the cover drift. */
  lemma FillNav(cash: real, ps: seq<Position>, prices: map<string, real>, lotSizes: map<string, int>,
                secid: string, delta: int, commission: real)
    requires WellFormed(ps, lotSizes) && secid in prices && prices[secid] > 0.0
    ensures var lot, price := LotSizeFor(secid, lotSizes), prices[secid];
      var fill := CollateralFill(cash, ps, secid, delta, lot, price, commission);
      && WellFormed(fill.1, lotSizes)
      && PortfolioNav(fill.0, fill.1, prices, lotSizes)
         == PortfolioNav(cash, ps, prices, lotSizes) - commission
            + CoverDrift(PositionFor(ps, secid), AvgPriceFor(ps, secid), delta, lot, price)
  {
    hide LotSizeFor, FillPositions, PositionFor, AvgPriceFor, CollateralValue, CashDelta, AverageAfter, CoverDrift,
         Total;
    var lot, price := LotSizeFor(secid, lotSizes), prices[secid];
    ValueTermPricesRow(secid, prices, lotSizes);
    FillTotal(ps, secid, delta, price, lotSizes, ValueTerm(prices, lotSizes), RowValue(lot, price));
    ValueChange(PositionFor(ps, secid), AvgPriceFor(ps, secid), delta, lot, price);
  }

  // ---- One step ----------------------------------------------------------

  function StepDrift(env: Env, st: Live, item: Item): real {
    if item.Priced? && item.lastPrice > 0.0 then
      var secid := item.decision.symbol;
      CoverDrift(PositionFor(st.positions, secid), AvgPriceFor(st.positions, secid), NetLots(env, st, item),
                 LotSizeFor(secid, env.lotSizes), item.lastPrice)
    else 0.0
  }

  /** By how much the cash that the broker reports differs from the simulated one. */
  function StepAdjustment(env: Env, st: Live, item: Item): real {
    match StepReport(env, st, item)
    case Some(cash) => cash - SimulatedCash(env, st, item)
    case None => 0.0
  }

  lemma StepNav(env: Env, st: Live, item: Item)
    requires Ready(env, st, [item])
    ensures var st' := TickStep(env, st, item);
      && WellFormed(st'.positions, env.lotSizes)
      && st'.prices == st.prices
      && st'.nav == PortfolioNav(st'.cash, st'.positions, st'.prices, env.lotSizes)
      && st'.nav == st.nav - StepCharge(env, st, item) + StepDrift(env, st, item) + StepAdjustment(env, st, item)
  {
    hide LotSizeFor, Evaluate, ApplyGate, SummaryDelta, PortfolioNav, CoverDrift, Charged, NetAccepted, FillPositions,
         CashDelta, Reported;
    assert [item][0] == item;
    assert MarkAgrees(st.prices, item);
    if Applies(env, st, item) && item.lastPrice > 0.0 {
      StepIsFill(env, st, item);
      FillNav(st.cash, st.positions, st.prices, env.lotSizes, item.decision.symbol, NetLots(env, st, item),
              StepCharge(env, st, item));
      NavShifts(SimulatedCash(env, st, item), TickStep(env, st, item).cash, TickStep(env, st, item).positions,
                st.prices,
                env.lotSizes);
      assert st.prices[item.decision.symbol := item.lastPrice] == st.prices;
    } else if Applies(env, st, item) {
      NoPriceNoDelta(OutcomeFor(env, st, item).action, item.lastPrice, item.decision.symbol, st.cash, st.positions,
                     env.lotSizes);
      ChargedNothing(OutcomeFor(env, st, item).action, item.lastPrice);
      NothingReported(OutcomeFor(env, st, item).action, item.lastPrice);
    } else if item.Priced? {
      NoLotsNoDrift(PositionFor(st.positions, item.decision.symbol), AvgPriceFor(st.positions, item.decision.symbol),
                    LotSizeFor(item.decision.symbol, env.lotSizes), item.lastPrice);
    }
  }

  lemma NavShifts(cash: real, cash': real, ps: seq<Position>, prices: map<string, real>, lotSizes: map<string, int>)
    ensures PortfolioNav(cash', ps, prices, lotSizes) == PortfolioNav(cash, ps, prices, lotSizes) + (cash' - cash)
  {
    hide Total;
  }

  lemma NothingReported(a: Action, price: real)
    requires price <= 0.0
    ensures Reported(a, price) == None
  {}

  lemma ChargedNothing(a: Action, price: real)
    requires price <= 0.0
    ensures Charged(a, price) == 0.0
  {}

  lemma NoLotsNoDrift(q: int, avg: real, lot: int, price: real)
    ensures CoverDrift(q, avg, 0, lot, price) == 0.0
  {}

  lemma ReadyStep(env: Env, st: Live, items: seq<Item>)
    requires items != [] && Ready(env, st, items)
    ensures Ready(env, TickStep(env, st, items[0]), items[1..])
  {
    hide TickStep, WellFormed, PortfolioNav, MarkAgrees;
    StepNav(env, st, items[0]);
  }

  // ---- The whole tick ----------------------------------------------------

  function TotalCharge(env: Env, st: Live, items: seq<Item>): real
    decreases |items|
  {
    if items == [] then 0.0
    else StepCharge(env, st, items[0]) + TotalCharge(env, TickStep(env, st, items[0]), items[1..])
  }

  function TotalDrift(env: Env, st: Live, items: seq<Item>): real
    decreases |items|
  {
    if items == [] then 0.0
    else StepDrift(env, st, items[0]) + TotalDrift(env, TickStep(env, st, items[0]), items[1..])
  }

  function TotalAdjustment(env: Env, st: Live, items: seq<Item>): real
    decreases |items|
  {
    if items == [] then 0.0
    else StepAdjustment(env, st, items[0]) + TotalAdjustment(env, TickStep(env, st, items[0]), items[1..])
  }

  /** For every order of tickers and all broker replies, the tick ends with the
      NAV it started with, minus commissions, plus cover drift, plus what the
      broker's own cash figures differ from the simulated ones. */
  lemma {:induction false} NavAccounting(env: Env, st: Live, items: seq<Item>)
    requires Ready(env, st, items)
    ensures var end := RunItems(env, st, items);
      && Ready(env, end, [])
      && end.nav
         == st.nav - TotalCharge(env, st, items) + TotalDrift(env, st, items) + TotalAdjustment(env, st, items)
    decreases |items|
  {
    hide TickStep, StepCharge, StepDrift, StepAdjustment, WellFormed, PortfolioNav, MarkAgrees;
    if items != [] {
      StepNav(env, st, items[0]);
      ReadyStep(env, st, items);
      NavAccounting(env, TickStep(env, st, items[0]), items[1..]);
    }
  }

  ghost predicate Silent(items: seq<Item>) {
    forall i :: 0 <= i < |items| && items[i].Priced? ==>
      items[i].replies.first.remainingCash.None? && items[i].replies.second.remainingCash.None?
  }

  lemma SilentStep(env: Env, st: Live, item: Item)
    requires item.Priced? ==> item.replies.first.remainingCash.None? && item.replies.second.remainingCash.None?
    ensures StepReport(env, st, item) == None
  {
    hide Evaluate, ContextFor, Notional, OrElse, RoundStep, Fee;
  }

  /** A broker that reports no cash, as in a dry run, adjusts nothing. */
  lemma {:induction false} SilentRepliesAdjustNothing(env: Env, st: Live, items: seq<Item>)
    requires Silent(items)
    ensures TotalAdjustment(env, st, items) == 0.0
    decreases |items|
  {
    hide TickStep, StepReport;
    if items != [] {
      SilentStep(env, st, items[0]);
      SilentRepliesAdjustNothing(env, TickStep(env, st, items[0]), items[1..]);
    }
  }

  // ---- Simulated lots are the broker's lots ------------------------------

  /** Item by item: the simulated position follows the accepted orders exactly
      when there is a price or the signal does not point against the position. */
  lemma SimulatedLotsFollowBroker(env: Env, st: Live, item: Item)
    requires Applies(env, st, item) && UniqueSecids(st.positions)
    requires env.settings.riskEnabled && item.replies.first.success && item.replies.second.success
    requires env.tradeLimit <= 0 || st.trades < env.tradeLimit
    ensures var secid := item.decision.symbol; var q := PositionFor(st.positions, secid);
      PositionFor(TickStep(env, st, item).positions, secid) == q + NetLots(env, st, item)
      <==> (item.lastPrice > 0.0 || !Opposes(item.decision.signal, q))
  {
    hide LotSizeFor, FillPositions, PositionFor, AvgPriceFor, Evaluate, SummaryDelta, PortfolioNav, NetAccepted;
    if item.lastPrice > 0.0 {
      StepIsFill(env, st, item);
      FillLookup(st.positions, item.decision.symbol, NetLots(env, st, item), item.lastPrice);
    } else {
      NoPriceNoDelta(OutcomeFor(env, st, item).action, item.lastPrice, item.decision.symbol, st.cash, st.positions,
                     env.lotSizes);
      NoPriceNetLots(env, st, item);
    }
  }

  /** Without a price only a close against the position is sent, and it is sent in full. */
  lemma NoPriceNetLots(env: Env, st: Live, item: Item)
    requires Applies(env, st, item) && item.lastPrice <= 0.0
    requires env.settings.riskEnabled && item.replies.first.success && item.replies.second.success
    requires env.tradeLimit <= 0 || st.trades < env.tradeLimit
    ensures var q := PositionFor(st.positions, item.decision.symbol);
      NetLots(env, st, item) == if Opposes(item.decision.signal, q) then -q else 0
  {
    var d := item.decision;
    var c := ContextFor(env, st, item);
    NoPriceGate(d, c);
    hide Evaluate, PositionFor, ContextFor, LotSizeFor, Notional, NetAccepted;
    ActionStatesOrders(d, GateFor(env, st, item), item.lastPrice, st.trades, env.tradeLimit,
                       CommissionRate(env.settings), item.replies);
  }

  lemma NoPriceGate(d: Decision, c: Context)
    requires c.lastPrice <= 0.0 && c.settings.riskEnabled
    ensures var g := Evaluate(d, c); var q := PositionFor(c.positions, d.symbol);
      && g.Gate? && g.flipCloseQty.None? && g.flipOpenQty.None?
      && (d.signal.Hold? ==> g.op.None?)
      && (if Opposes(d.signal, q)
          then g.allowed && g.qty == Some(Abs(q)) && g.op == Some(if q > 0 then CloseLong else CoverShort)
          else d.signal.Hold? || !g.allowed)
  {
    hide PositionFor, LotSizeFor, Notional;
  }

  lemma {:induction false} ForeignOrders(orders: seq<Order>, secid: string, other: string)
    requires other != secid && forall o :: o in orders ==> o.secid == secid
    ensures NetAccepted(orders, other) == 0
  {
    if orders != [] {
      ForeignOrders(orders[1..], secid, other);
    }
  }

  lemma OrdersNameTheTicker(d: Decision, g: Gate, price: real, trades: int, limit: int, rate: real, r: Replies)
    requires g.Gate?
    ensures forall o :: o in ApplyGate(d, g, price, trades, limit, rate, r).orders ==> o.secid == d.symbol
  {
    hide Notional, OrElse, RoundStep;
  }

  /** Items that the simulation can follow: priced, or holding. */
  ghost predicate Followable(items: seq<Item>) {
    forall i :: 0 <= i < |items| && items[i].Priced? ==> items[i].lastPrice > 0.0 || items[i].decision.signal.Hold?
  }

  lemma HoldWithoutPrice(d: Decision, c: Context, price: real, trades: int, limit: int, rate: real, r: Replies)
    requires d.signal.Hold? && c.lastPrice <= 0.0
    ensures Evaluate(d, c).Gate? && ApplyGate(d, Evaluate(d, c), price, trades, limit, rate, r) == Outcome(Held, [])
  {
    hide PositionFor, LotSizeFor, Notional;
  }

  lemma StepLots(env: Env, st: Live, item: Item, secid: string)
    requires UniqueSecids(st.positions) && Followable([item])
    ensures var st' := TickStep(env, st, item);
      && UniqueSecids(st'.positions)
      && PositionFor(st'.positions, secid) - NetAccepted(st'.orders, secid)
         == PositionFor(st.positions, secid) - NetAccepted(st.orders, secid)
  {
    hide LotSizeFor, FillPositions, PositionFor, AvgPriceFor, Evaluate, ApplyGate, SummaryDelta, PortfolioNav,
         NetAccepted;
    assert [item][0] == item;
    if Applies(env, st, item) {
      var d := item.decision;
      var out := OutcomeFor(env, st, item);
      NetAcceptedAppend(st.orders, out.orders, secid);
      if item.lastPrice > 0.0 {
        StepIsFill(env, st, item);
        FillLookup(st.positions, d.symbol, NetLots(env, st, item), item.lastPrice);
        if secid != d.symbol {
          FillFrame(st.positions, d.symbol, NetLots(env, st, item), item.lastPrice, secid);
          OrdersNameTheTicker(d, GateFor(env, st, item), item.lastPrice, st.trades, env.tradeLimit,
                              CommissionRate(env.settings), item.replies);
          ForeignOrders(out.orders, d.symbol, secid);
        }
      } else {
        HoldWithoutPrice(d, ContextFor(env, st, item), item.lastPrice, st.trades, env.tradeLimit,
                         CommissionRate(env.settings), item.replies);
        NoPriceNoDelta(out.action, item.lastPrice, d.symbol, st.cash, st.positions, env.lotSizes);
        NetOfNone(secid);
      }
    }
  }

  /** Conservation of lots: for every ticker, simulated lots minus accepted
      signed lots never change during a tick. */
  lemma {:induction false} LotsConserved(env: Env, st: Live, items: seq<Item>, secid: string)
    requires UniqueSecids(st.positions) && Followable(items)
    ensures var end := RunItems(env, st, items);
      && UniqueSecids(end.positions)
      && PositionFor(end.positions, secid) - NetAccepted(end.orders, secid)
         == PositionFor(st.positions, secid) - NetAccepted(st.orders, secid)
    decreases |items|
  {
    hide TickStep, PositionFor, NetAccepted;
    if items != [] {
      StepLots(env, st, items[0], secid);
      LotsConserved(env, TickStep(env, st, items[0]), items[1..], secid);
    }
  }
}
