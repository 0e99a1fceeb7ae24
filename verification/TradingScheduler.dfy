/** The scheduler object: Phase 2 as a loop over live variables, and the balance
    failsafe as updates of a field and the journal. */
module Scheduling {
  import opened Money
  import opened Portfolio
  import opened Risk
  import opened Orders
  import opened Journal
  import opened Simulation
  import opened TickNav
  import opened TickLimits
  import opened Failsafe

  // ---- What Phase 2 starts from ------------------------------------------

  /** lot_size fields of the positions override the table. */
  function LotSizesFor(table: map<string, int>, ps: seq<Position>): map<string, int> {
    if ps == [] then table
    else
      var p := ps[|ps| - 1];
      var rest := LotSizesFor(table, ps[..|ps| - 1]);
      if p.secid != "" && p.brokerLot != 0 then rest[p.secid := p.brokerLot] else rest
  }

  lemma {:induction false} LotSizesElsewhere(table: map<string, int>, ps: seq<Position>, secid: string)
    requires forall k :: 0 <= k < |ps| ==> ps[k].secid != secid
    ensures LotSizeFor(secid, LotSizesFor(table, ps)) == LotSizeFor(secid, table)
  {
    if ps != [] {
      LotSizesElsewhere(table, ps[..|ps| - 1], secid);
    }
  }

  /** With unique named rows the merged table agrees with every broker lot size. */
  lemma {:induction false} LotSizesAgree(table: map<string, int>, ps: seq<Position>, i: nat)
    requires UniqueSecids(ps) && i < |ps| && ps[i].secid != ""
    ensures RowLotAgrees(ps[i], LotSizesFor(table, ps))
    decreases |ps|
  {
    var n := |ps| - 1;
    if i < n {
      LotSizesAgree(table, ps[..n], i);
      assert ps[..n][i] == ps[i];
    }
  }

  /** Prices of the Phase 1 results; only positive ones count. */
  function PricesFromResults(items: seq<Item>): map<string, real> {
    if items == [] then map[]
    else
      var item := items[|items| - 1];
      var rest := PricesFromResults(items[..|items| - 1]);
      if item.Priced? && item.lastPrice > 0.0 then rest[item.decision.symbol := item.lastPrice] else rest
  }

  /** Prices for held positions that are not known yet: the broker's, else a quote. */
  function LatestPrices(ps: seq<Position>, known: map<string, real>, quotes: map<string, real>): map<string, real> {
    if ps == [] then map[]
    else
      var p := ps[|ps| - 1];
      var rest := LatestPrices(ps[..|ps| - 1], known, quotes);
      if p.secid == "" || p.lots == 0 || p.secid in known then rest
      else if p.brokerPrice > 0.0 then rest[p.secid := p.brokerPrice]
      else if p.secid in quotes && quotes[p.secid] > 0.0 then rest[p.secid := quotes[p.secid]]
      else rest
  }

  function LivePrices(ps: seq<Position>, items: seq<Item>, quotes: map<string, real>): map<string, real> {
    var known := LatestPrices(ps, map[], quotes) + PricesFromResults(items);
    known + LatestPrices(ps, known, quotes)
  }

  function StartOfPhase2(cash: real, ps: seq<Position>, items: seq<Item>, quotes: map<string, real>,
                         lotSizes: map<string, int>, trades: int): Live
  {
    var prices := LivePrices(ps, items, quotes);
    Live(cash, ps, prices, PortfolioNav(cash, ps, prices, lotSizes), 0.0, trades, map[], [], [])
  }

  lemma {:induction false} ResultPriceKept(items: seq<Item>, i: nat)
    requires DistinctTickers(items) && i < |items| && items[i].Priced? && items[i].lastPrice > 0.0
    ensures var prices := PricesFromResults(items); var secid := items[i].decision.symbol;
      secid in prices && prices[secid] == items[i].lastPrice
    decreases |items|
  {
    var n := |items| - 1;
    if i < n {
      assert DistinctTickers(items[..n]) by {
        assert forall k :: 0 <= k < n ==> Tickers(items[..n])[k] == Tickers(items)[k];
      }
      ResultPriceKept(items[..n], i);
      assert items[..n][i] == items[i];
      assert Tickers(items)[i] != Tickers(items)[n];
    }
  }

  lemma {:induction false} LatestSkipsKnown(ps: seq<Position>, known: map<string, real>, quotes: map<string, real>,
                                            secid: string)
    requires secid in known
    ensures secid !in LatestPrices(ps, known, quotes)
  {
    if ps != [] {
      LatestSkipsKnown(ps[..|ps| - 1], known, quotes, secid);
    }
  }

  /** Phase 2 starts ready whatever the order in which it takes the tickers. */
  lemma StartIsReady(env: Env, cash: real, ps: seq<Position>, items: seq<Item>, order: seq<Item>,
                     quotes: map<string, real>, trades: int)
    requires WellFormed(ps, env.lotSizes) && DistinctTickers(items) && multiset(order) == multiset(items)
    requires forall i :: 0 <= i < |items| && items[i].Priced? ==> items[i].lastPrice >= 0.0
    ensures Ready(env, StartOfPhase2(cash, ps, items, quotes, env.lotSizes, trades), order)
  {
    hide WellFormed, PortfolioNav, PricesFromResults, LatestPrices;
    var start := StartOfPhase2(cash, ps, items, quotes, env.lotSizes, trades);
    var known := LatestPrices(ps, map[], quotes) + PricesFromResults(items);
    forall k | 0 <= k < |order| ensures MarkAgrees(start.prices, order[k]) {
      assert order[k] in multiset(order);
      assert order[k] in multiset(items);
      var i :| 0 <= i < |items| && items[i] == order[k];
      if items[i].Priced? && items[i].lastPrice > 0.0 {
        ResultPriceKept(items, i);
        LatestSkipsKnown(ps, known, quotes, items[i].decision.symbol);
      }
    }
  }

  // ---- The object --------------------------------------------------------

  predicate IsOrderAction(a: Action) { a.Submitted? || a.FlipExecuted? }

  predicate AnyOrder(decisions: map<string, Action>) { exists k :: k in decisions && IsOrderAction(decisions[k]) }

  class TradingScheduler {
    const settings: Settings
    const failsafe: FailsafeSettings
    const lotSizes: map<string, int>
    const sectors: map<string, string>
    const dailyTradeLimit: int
    var journal: seq<Record>
    var depletedAt: Option<int>
    var consecutiveIdleTicks: nat

    /** A start or restart: the latch comes from the journal's tail. */
    constructor (settings: Settings, failsafe: FailsafeSettings, lotSizes: map<string, int>,
                 sectors: map<string, string>,
                 dailyTradeLimit: int, journal: seq<Record>)
      ensures this.settings == settings && this.failsafe == failsafe && this.lotSizes == lotSizes
      ensures this.sectors == sectors && this.dailyTradeLimit == MaxInt(dailyTradeLimit, 0)
      ensures this.journal == journal && depletedAt == Replay(Tail(journal, TAIL_WINDOW)) && consecutiveIdleTicks == 0
    {
      this.settings, this.failsafe, this.lotSizes, this.sectors := settings, failsafe, lotSizes, sectors;
      this.dailyTradeLimit := MaxInt(dailyTradeLimit, 0);
      this.journal := journal;
      consecutiveIdleTicks := 0;
      new;
      depletedAt := LoadDepletedAt();
    }

    /** Scan the tail backwards for the newest latch record. */
    method LoadDepletedAt() returns (at: Option<int>)
      ensures at == Replay(Tail(journal, TAIL_WINDOW))
    {
      var records := Tail(journal, TAIL_WINDOW);
      var i := |records|;
      assert records[..i] == records;
      while i > 0
        invariant 0 <= i <= |records|
        invariant Replay(records[..i]) == Replay(records)
      {
        i := i - 1;
        assert records[..i + 1][..i] == records[..i];
        if records[i].BalanceRecovered? {
          return None;
        }
        if records[i].BalanceDepleted? {
          return Some(records[i].at);
        }
      }
      assert records[..0] == [];
      return None;
    }

    ghost function Latched(): Latch
      reads this
    {
      Latch(depletedAt, journal)
    }

    /** One balance check. Returns whether the tick is skipped and the close-all orders. */
    method HandleBalance(reading: Option<real>, now: int, positions: seq<Position>, accepted: seq<bool>)
      returns (skip: bool, orders: seq<Order>)
      requires |accepted| == |positions|
      modifies this
      ensures consecutiveIdleTicks == old(consecutiveIdleTicks)
      ensures !failsafe.enabled || !failsafe.hasBilling || reading.None? ==>
        !skip && orders == [] && Latched() == old(Latched())
      ensures failsafe.enabled && failsafe.hasBilling && reading.Some? ==>
        && Latched() == LatchStep(failsafe, old(Latched()), Checked(reading.value, now))
        && var reaction := ReactionTo(failsafe, reading.value, now, depletedAt);
           skip == !reaction.Proceed? && orders == if reaction.CloseAll? then FlattenOrders(positions, accepted) else []
    {
      skip, orders := false, [];
      if !failsafe.enabled || !failsafe.hasBilling || reading.None? {
        return;
      }
      var balance := reading.value;
      if balance > MinBalance(failsafe) {
        if depletedAt.Some? {
          journal := journal + [BalanceRecovered];
        }
        depletedAt := None;
        return;
      }
      if depletedAt.None? {
        depletedAt := Some(now);
        journal := journal + [BalanceDepleted(now)];
      }
      skip := true;
      if now - depletedAt.value < Grace(failsafe) {
        journal := journal + [Other];
        return;
      }
      orders := ClosePositions(positions, accepted);
      journal := journal + [Other];
    }

    lemma ContextOf(env: Env, st: Live, item: Item)
      requires item.Priced?
      ensures ContextFor(env, st, item)
           == Context(st.cash, st.positions, st.nav, item.lastPrice, item.sigma, item.returnsCount, env.navHistory,
                      env.today,
                      env.settings, env.lotSizes, env.sectors, map[], st.spent, env.tickOpenNav, item.flow,
                      ProfitStepsDone(env.journal + st.logged, item.decision.symbol, st.positions, env.settings))
    {
      hide ProfitStepsDone;
    }

    lemma RunItemsHead(env: Env, st: Live, items: seq<Item>)
      requires items != []
      ensures RunItems(env, st, items) == RunItems(env, TickStep(env, st, items[0]), items[1..])
    {
      hide TickStep;
    }

    lemma RunItemsNone(env: Env, st: Live)
      ensures RunItems(env, st, []) == st
    {}

    lemma FailedStep(env: Env, st: Live, item: Item)
      requires !Applies(env, st, item)
      ensures TickStep(env, st, item) == st
    {}

    lemma AppliedStep(env: Env, st: Live, item: Item)
      requires Applies(env, st, item)
      ensures var out := OutcomeFor(env, st, item); var secid := item.decision.symbol;
        var (cash, ps) := SummaryDelta(out.action, item.lastPrice, secid, st.cash, st.positions, env.lotSizes);
        var prices := if item.lastPrice != 0.0 then st.prices[secid := item.lastPrice] else st.prices;
        TickStep(env, st, item)
        == Live(cash, ps, prices, PortfolioNav(cash, ps, prices, env.lotSizes),
                st.spent + SpendOf(out.action, LotSizeFor(secid, env.lotSizes), item.lastPrice,
                                   CommissionRate(env.settings)),
                st.trades + TradesOf(out.action), st.decisions[secid := out.action], st.orders + out.orders,
                st.logged + GateLog(item.decision, GateFor(env, st, item), out.action))
    {
      hide Evaluate, ApplyGate, SummaryDelta, PortfolioNav, LotSizeFor, SpendOf, CommissionRate, GateLog, ContextFor;
    }

    /** Phase 2 of one tick. `order` is the shuffled work list; the broker's answers travel with the items. */
    method RunPhase2(cash: real, positions: seq<Position>, items: seq<Item>, order: seq<Item>,
                     quotes: map<string, real>,
                     navHistory: seq<NavPoint>, today: int, dailyTradeCount: int)
      returns (end: Live)
      modifies this
      ensures var lots := LotSizesFor(lotSizes, positions);
        var start := StartOfPhase2(cash, positions, items, quotes, lots, dailyTradeCount);
        var env := Env(settings, lots, sectors, navHistory, today, old(journal), dailyTradeLimit, start.nav);
        end == RunItems(env, start, order)
      ensures journal == old(journal) + end.logged + [Tick(end.decisions)] && depletedAt == old(depletedAt)
      ensures consecutiveIdleTicks == if AnyOrder(end.decisions) then 0 else old(consecutiveIdleTicks) + 1
    {
      hide Evaluate, ApplyGate, SummaryDelta, PortfolioNav, LotSizeFor, ProfitStepsDone, SpendOf, CommissionRate,
           LivePrices, LotSizesFor, GateLog, AnyOrder, ContextFor, TickStep, RunItems;
      var lots := LotSizesFor(lotSizes, positions);
      var prices := LivePrices(positions, items, quotes);
      var nav := ComputePortfolioNav(cash, positions, prices, lots);
      var env := Env(settings, lots, sectors, navHistory, today, journal, dailyTradeLimit, nav);
      ghost var start := StartOfPhase2(cash, positions, items, quotes, lots, dailyTradeCount);
      var rate := CommissionRate(settings);

      var liveCash, livePositions, livePrices, liveNav := cash, positions, prices, nav;
      var spent, trades := 0.0, dailyTradeCount;
      var decisions: map<string, Action> := map[];
      var orders: seq<Order> := [];
      var logged: seq<Record> := [];
      var i := 0;
      while i < |order|
        invariant 0 <= i <= |order|
        invariant RunItems(env,
                           Live(liveCash, livePositions, livePrices, liveNav, spent, trades, decisions, orders,
                                logged), order[i..])
               == RunItems(env, start, order)
        invariant journal == old(journal) + logged && depletedAt == old(depletedAt)
          && consecutiveIdleTicks == old(consecutiveIdleTicks)
      {
        hide StartOfPhase2;
        var item := order[i];
        assert order[i..][0] == item && order[i..][1..] == order[i + 1..];
        i := i + 1;
        if item.Failed? {
          ghost var idle := Live(liveCash, livePositions, livePrices, liveNav, spent, trades, decisions, orders,
                                 logged);
          RunItemsHead(env, idle, order[i - 1..]);
          FailedStep(env, idle, item);
          continue;
        }
        var secid := item.decision.symbol;
        ghost var before := Live(liveCash, livePositions, livePrices, liveNav, spent, trades, decisions, orders,
                                 logged);
        var done := ScanProfitSteps(journal, secid, livePositions, settings);
        var c := Context(liveCash, livePositions, liveNav, item.lastPrice, item.sigma, item.returnsCount, navHistory,
                         today,
                         settings, lots, sectors, map[], spent, nav, item.flow, done);
        ContextOf(env, before, item);
        RunItemsHead(env, before, order[i - 1..]);
        var g := Evaluate(item.decision, c);
        if g.Raised? {
          FailedStep(env, before, item);
          continue;
        }
        var out := ApplyGate(item.decision, g, item.lastPrice, trades, dailyTradeLimit, rate, item.replies);
        assert Applies(env, before, item) && out == OutcomeFor(env, before, item);
        journal := journal + GateLog(item.decision, g, out.action);
        logged := logged + GateLog(item.decision, g, out.action);
        orders := orders + out.orders;
        decisions := decisions[secid := out.action];
        if out.action.Submitted? {
          trades := trades + 1;
        } else if out.action.FlipExecuted? {
          trades := trades + 2;
        }
        spent := spent + SpendOf(out.action, LotSizeFor(secid, lots), item.lastPrice, rate);
        liveCash, livePositions := ApplySummaryDelta(out.action, item.lastPrice, secid, liveCash, livePositions, lots);
        if item.lastPrice != 0.0 {
          livePrices := livePrices[secid := item.lastPrice];
        }
        liveNav := ComputePortfolioNav(liveCash, livePositions, livePrices, lots);
        AppliedStep(env, before, item);
      }
      RunItemsNone(env, Live(liveCash, livePositions, livePrices, liveNav, spent, trades, decisions, orders, logged));
      assert order[i..] == [];
      end := Live(liveCash, livePositions, livePrices, liveNav, spent, trades, decisions, orders, logged);
      if AnyOrder(decisions) {
        consecutiveIdleTicks := 0;
      } else {
        consecutiveIdleTicks := consecutiveIdleTicks + 1;
      }
      journal := journal + [Tick(decisions)];
    }
  }
}
