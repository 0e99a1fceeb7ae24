/** Phase 2 as the scheduler starts it: everything that holds when it ends. */
module TickGuarantees {
  import opened Money
  import opened Portfolio
  import opened Orders
  import opened Simulation
  import opened TickSteps
  import opened TickNav
  import opened TickLimits
  import opened TickSafety
  import opened Scheduling

  /** The book, prices and settings with which a tick may start. */
  ghost predicate SoundStart(env: Env, start: Live, items: seq<Item>) {
    && WellFormed(start.positions, env.lotSizes)
    && DistinctTickers(items)
    && (forall i :: 0 <= i < |items| && items[i].Priced? ==>
          items[i].lastPrice >= 0.0 && NoCommission(items[i].replies))
    && start.cash >= 0.0 && start.nav > 0.0
    && env.tickOpenNav == start.nav
    && SolventSettings(env.settings) && env.settings.maxTickBuyPct > 0.0
    && env.tradeLimit > 0 && start.trades < env.tradeLimit
  }

  lemma ShufflesKeep(items: seq<Item>, order: seq<Item>)
    requires multiset(order) == multiset(items)
    requires forall i :: 0 <= i < |items| && items[i].Priced? ==>
      items[i].lastPrice >= 0.0 && NoCommission(items[i].replies)
    ensures forall i :: 0 <= i < |order| && order[i].Priced? ==>
      order[i].lastPrice >= 0.0 && NoCommission(order[i].replies)
  {
    forall k | 0 <= k < |order| && order[k].Priced?
      ensures order[k].lastPrice >= 0.0 && NoCommission(order[k].replies)
    {
      assert order[k] in multiset(order);
      assert order[k] in multiset(items);
      var i :| 0 <= i < |items| && items[i] == order[k];
    }
  }

  /** Whatever the shuffle and whatever the broker accepts: the NAV is accounted
      for to the last commission, covered lot and reported figure, cash is negative
      only if the broker reports it so, the spend is within budget and bounds all openings, and the trade counter is
      the broker's and within the daily limit (plus one if flips are on). */
  lemma PhaseTwoGuarantees(env: Env, cash: real, ps: seq<Position>, items: seq<Item>, order: seq<Item>,
                           quotes: map<string, real>, trades: int)
    requires multiset(order) == multiset(items)
    requires SoundStart(env, StartOfPhase2(cash, ps, items, quotes, env.lotSizes, trades), items)
    ensures var start := StartOfPhase2(cash, ps, items, quotes, env.lotSizes, trades);
      var end := RunItems(env, start, order);
      && end.nav
         == start.nav - TotalCharge(env, start, order) + TotalDrift(env, start, order) + TotalAdjustment(env, start,
                                                                                                         order)
      && (SoundReports(env, start, order) ==> end.cash >= 0.0)
      && TotalOpened(env, start, order) <= end.spent <= Budget(env)
      && end.trades == trades + AcceptedCount(end.orders) <= TradeCap(env)
  {
    hide PortfolioNav, LivePrices, RunItems, TotalCharge, TotalDrift, TotalAdjustment, TotalOpened, SoundReports,
         WellFormed, DistinctTickers, SolventSettings;
    var start := StartOfPhase2(cash, ps, items, quotes, env.lotSizes, trades);
    ShufflesKeep(items, order);
    StartIsReady(env, cash, ps, items, order, quotes, trades);
    ProductPositive(env.tickOpenNav, env.settings.maxTickBuyPct);
    NavAccounting(env, start, order);
    if SoundReports(env, start, order) {
      Solvency(env, start, order);
    }
    BudgetHolds(env, start, order);
    NoOrdersNoCount();
    TradeLimitHolds(env, start, order);
  }
}
