/** Where Phase 2 starts and what its end means for the idle counter: prices and
    NAV of the opening state, and orders of the tick. */
module TickStart {
  import opened Money
  import opened Portfolio
  import opened Risk
  import opened Orders
  import opened Simulation
  import opened TickLimits
  import opened Scheduling
  import Accounting

  // ---- Opening prices ----------------------------------------------------

  /** Phase 1 priced the ticker. */
  ghost predicate Fresh(items: seq<Item>, secid: string, price: real) {
    exists i :: 0 <= i < |items| && items[i].Priced? && items[i].decision.symbol == secid
      && items[i].lastPrice == price > 0.0
  }

  /** The positive last price that the broker sends with an open row, else a positive quote. */
  function HeldPrice(p: Position, quotes: map<string, real>): Option<real> {
    if p.brokerPrice > 0.0 then Some(p.brokerPrice)
    else if p.secid in quotes && quotes[p.secid] > 0.0 then Some(quotes[p.secid])
    else None
  }

  function PriceIn(prices: map<string, real>, secid: string): Option<real> {
    if secid in prices then Some(prices[secid]) else None
  }

  lemma {:induction false} ResultPrice(items: seq<Item>, secid: string)
    requires DistinctTickers(items)
    ensures forall price: real ::
      Fresh(items, secid, price) <==> PriceIn(PricesFromResults(items), secid) == Some(price)
  {
    if items != [] {
      var n := |items| - 1;
      var front := items[..n];
      assert forall k :: 0 <= k < n ==> front[k] == items[k] && Tickers(front)[k] == Tickers(items)[k];
      ResultPrice(front, secid);
      forall price: real ensures Fresh(items, secid, price)
        <==> PriceIn(PricesFromResults(items), secid) == Some(price) {
        if Fresh(items, secid, price) {
          var i :| 0 <= i < |items| && items[i].Priced? && items[i].decision.symbol == secid
            && items[i].lastPrice == price > 0.0;
          if i < n {
            assert front[i] == items[i];
            assert Fresh(front, secid, price);
            assert Tickers(items)[i] != Tickers(items)[n];
          }
        }
        if PriceIn(PricesFromResults(items), secid) == Some(price) {
          if items[n].Priced? && items[n].lastPrice > 0.0 && items[n].decision.symbol == secid {
            assert items[n].lastPrice == price;
          } else {
            var i :| 0 <= i < |front| && front[i].Priced? && front[i].decision.symbol == secid
              && front[i].lastPrice == price > 0.0;
            assert items[i] == front[i];
          }
        }
      }
    }
  }

  /** The latest prices of open rows, one by one. */
  lemma {:induction false} LatestPrice(ps: seq<Position>, known: map<string, real>, quotes: map<string, real>, i: nat)
    requires UniqueSecids(ps) && i < |ps|
    ensures PriceIn(LatestPrices(ps, known, quotes), ps[i].secid)
         == if ps[i].secid == "" || ps[i].lots == 0 || ps[i].secid in known then None else HeldPrice(ps[i], quotes)
    decreases |ps|
  {
    var n := |ps| - 1;
    if i < n {
      LatestPrice(ps[..n], known, quotes, i);
      assert ps[..n][i] == ps[i] && ps[i].secid != ps[n].secid;
    } else {
      LatestPriceElsewhere(ps[..n], known, quotes, ps[n].secid);
    }
  }

  lemma {:induction false} LatestPriceElsewhere(ps: seq<Position>, known: map<string, real>, quotes: map<string, real>,
                                                secid: string)
    requires forall k :: 0 <= k < |ps| ==> ps[k].secid != secid
    ensures secid !in LatestPrices(ps, known, quotes)
  {
    if ps != [] {
      LatestPriceElsewhere(ps[..|ps| - 1], known, quotes, secid);
    }
  }

  /** Opening price of an open row: its positive Phase 1 price, else the broker's
      positive last price, else a positive quote, else none. */
  lemma OpeningPriceOfRow(env: Env, cash: real, ps: seq<Position>, items: seq<Item>, quotes: map<string, real>,
                          trades: int,
                          i: nat)
    requires UniqueSecids(ps) && DistinctTickers(items) && i < |ps| && ps[i].secid != "" && ps[i].lots != 0
    ensures var price := PriceIn(StartOfPhase2(cash, ps, items, quotes, env.lotSizes, trades).prices, ps[i].secid);
      && (forall phase1: real :: Fresh(items, ps[i].secid, phase1) ==> price == Some(phase1))
      && ((forall phase1: real :: !Fresh(items, ps[i].secid, phase1)) ==> price == HeldPrice(ps[i], quotes))
  {
    hide LatestPrices, PricesFromResults, PortfolioNav, HeldPrice, UniqueSecids, DistinctTickers;
    var secid := ps[i].secid;
    var first, results := LatestPrices(ps, map[], quotes), PricesFromResults(items);
    ResultPrice(items, secid);
    LatestPrice(ps, map[], quotes, i);
    LatestPrice(ps, first + results, quotes, i);
    if PriceIn(results, secid).Some? {
      assert Fresh(items, secid, results[secid]);
    }
  }

  /** A ticker without an open row has its Phase 1 price or none. */
  lemma OpeningPriceElsewhere(env: Env, cash: real, ps: seq<Position>, items: seq<Item>, quotes: map<string, real>,
                              trades: int, secid: string)
    requires UniqueSecids(ps) && DistinctTickers(items) && PositionFor(ps, secid) == 0
    ensures forall price: real ::
      PriceIn(StartOfPhase2(cash, ps, items, quotes, env.lotSizes, trades).prices, secid) == Some(price)
      <==> Fresh(items, secid, price)
  {
    var first, results := LatestPrices(ps, map[], quotes), PricesFromResults(items);
    ResultPrice(items, secid);
    var i := IndexOf(ps, secid);
    if i >= 0 {
      LatestPrice(ps, map[], quotes, i);
      LatestPrice(ps, first + results, quotes, i);
    } else {
      LatestPriceElsewhere(ps, map[], quotes, secid);
      LatestPriceElsewhere(ps, first + results, quotes, secid);
    }
    hide LatestPrices, PricesFromResults, PortfolioNav, IndexOf, HeldPrice, UniqueSecids, DistinctTickers;
  }

  // ---- Opening NAV -------------------------------------------------------

  /** Price at which a row is valued: the opening price, else any other price the broker sent, else its average. */
  function OpeningMark(p: Position, opening: Option<real>): real {
    if opening.Some? then opening.value else if p.brokerPrice != 0.0 then p.brokerPrice else p.avgPrice
  }

  /** Shares of a row: lots times the broker's lot size when it sends one. */
  function Shares(p: Position, lotSizes: map<string, int>): int {
    p.lots * (if p.brokerLot != 0 then p.brokerLot else LotSizeFor(p.secid, lotSizes))
  }

  /** What a row adds to the cash: a long its market value, a short its
      collateral plus its profit, hence twice its entry less its market value. */
  function RowWorth(p: Position, prices: map<string, real>, lotSizes: map<string, int>): real {
    var mark := OpeningMark(p, PriceIn(prices, p.secid));
    if p.lots >= 0 then Shares(p, lotSizes) as real * mark
      else (-Shares(p, lotSizes)) as real * (2.0 * p.avgPrice - mark)
  }

  function RowsWorth(ps: seq<Position>, prices: map<string, real>, lotSizes: map<string, int>): real {
    if ps == [] then 0.0
    else RowsWorth(ps[..|ps| - 1], prices, lotSizes) + RowWorth(ps[|ps| - 1], prices, lotSizes)
  }

  lemma RowWorthIsTerm(p: Position, prices: map<string, real>, lotSizes: map<string, int>)
    requires p.secid in prices ==> prices[p.secid] != 0.0
    ensures ValueTerm(prices, lotSizes)(p) == RowWorth(p, prices, lotSizes)
  {
    var mark, lot := Mark(p, prices), EffectiveLot(p, lotSizes);
    assert mark == OpeningMark(p, PriceIn(prices, p.secid));
    Accounting.ValueOf(p.lots, p.avgPrice, lot, mark);
    WorthOf(p.lots, lot, p.avgPrice, mark);
    hide CollateralValue, Notional, LotSizeFor;
  }

  lemma WorthOf(q: int, lot: int, avg: real, mark: real)
    ensures Notional(q, lot, mark) == (q * lot) as real * mark
    ensures 2.0 * Notional(-q, lot, avg) - Notional(-q, lot, mark) == (-(q * lot)) as real * (2.0 * avg - mark)
  {
    SharesOf(q, lot, mark);
    SharesOf(-q, lot, avg);
    SharesOf(-q, lot, mark);
    hide Notional;
    var n := (-(q * lot)) as real;
    assert (-q) * lot == -(q * lot);
    assert n * (2.0 * avg - mark) == 2.0 * (n * avg) - n * mark;
  }

  lemma SharesOf(q: int, lot: int, price: real)
    ensures Notional(q, lot, price) == (q * lot) as real * price
  {
    assert (q as real) * (lot as real) == (q * lot) as real;
    assert (q as real) * ((lot as real) * price) == ((q as real) * (lot as real)) * price;
  }

  lemma {:induction false} WorthIsTotal(ps: seq<Position>, prices: map<string, real>, lotSizes: map<string, int>)
    requires forall secid :: secid in prices ==> prices[secid] != 0.0
    ensures Total(ps, ValueTerm(prices, lotSizes)) == RowsWorth(ps, prices, lotSizes)
  {
    hide ValueTerm, RowWorth;
    if ps != [] {
      WorthIsTotal(ps[..|ps| - 1], prices, lotSizes);
      RowWorthIsTerm(ps[|ps| - 1], prices, lotSizes);
    }
  }

  lemma {:induction false} ResultsPositive(items: seq<Item>, secid: string)
    requires secid in PricesFromResults(items)
    ensures PricesFromResults(items)[secid] > 0.0
  {
    if items != [] && secid in PricesFromResults(items[..|items| - 1]) {
      ResultsPositive(items[..|items| - 1], secid);
    }
  }

  lemma {:induction false} LatestPositive(ps: seq<Position>, known: map<string, real>, quotes: map<string, real>,
                                          secid: string)
    requires secid in LatestPrices(ps, known, quotes)
    ensures LatestPrices(ps, known, quotes)[secid] > 0.0
  {
    if ps != [] && secid in LatestPrices(ps[..|ps| - 1], known, quotes) {
      LatestPositive(ps[..|ps| - 1], known, quotes, secid);
    }
  }

  /** Phase 2 opens with the cash and what the rows are worth at the opening
      prices, nothing spent, and the day's trades so far. */
  lemma OpeningNav(env: Env, cash: real, ps: seq<Position>, items: seq<Item>, quotes: map<string, real>, trades: int)
    ensures var start := StartOfPhase2(cash, ps, items, quotes, env.lotSizes, trades);
      && start.nav == cash + RowsWorth(ps, start.prices, env.lotSizes)
      && (forall secid :: secid in start.prices ==> start.prices[secid] > 0.0)
      && start.cash == cash && start.positions == ps && start.spent == 0.0 && start.trades == trades
      && start.decisions == map[] && start.orders == [] && start.logged == []
  {
    hide LatestPrices, PricesFromResults, RowsWorth, Total, ValueTerm;
    var start := StartOfPhase2(cash, ps, items, quotes, env.lotSizes, trades);
    var first, results := LatestPrices(ps, map[], quotes), PricesFromResults(items);
    forall secid | secid in start.prices ensures start.prices[secid] > 0.0 {
      if secid in LatestPrices(ps, first + results, quotes) {
        LatestPositive(ps, first + results, quotes, secid);
      } else if secid in results {
        ResultsPositive(items, secid);
      } else {
        LatestPositive(ps, map[], quotes, secid);
      }
    }
    WorthIsTotal(ps, start.prices, env.lotSizes);
  }

  // ---- NAV during the tick -----------------------------------------------

  /** The live NAV is the live cash and what the live rows are worth at the live prices. */
  ghost predicate Marked(env: Env, st: Live) {
    && st.nav == st.cash + RowsWorth(st.positions, st.prices, env.lotSizes)
    && forall secid :: secid in st.prices ==> st.prices[secid] != 0.0
  }

  /** A decided ticker is repriced at its last price, unless that is zero, and
      the NAV that the next ticker sees is taken at the new prices. */
  lemma StepReprices(env: Env, st: Live, item: Item)
    requires Applies(env, st, item) && Marked(env, st)
    ensures var st', secid, price := TickStep(env, st, item), item.decision.symbol, item.lastPrice;
      && Marked(env, st')
      && PriceIn(st'.prices, secid) == (if price != 0.0 then Some(price) else PriceIn(st.prices, secid))
      && forall other :: other != secid ==> PriceIn(st'.prices, other) == PriceIn(st.prices, other)
  {
    hide Evaluate, ApplyGate, ContextFor, SummaryDelta, RowsWorth, Total, ValueTerm, LotSizeFor, SpendOf, GateLog,
         CommissionRate;
    var st' := TickStep(env, st, item);
    WorthIsTotal(st'.positions, st'.prices, env.lotSizes);
  }

  /** From the opening on, whatever the decisions and replies. */
  lemma {:induction false} NavThroughoutTick(env: Env, st: Live, items: seq<Item>)
    requires Marked(env, st)
    ensures Marked(env, RunItems(env, st, items))
    decreases |items|
  {
    hide TickStep, Applies, Marked;
    if items != [] {
      if Applies(env, st, items[0]) {
        StepReprices(env, st, items[0]);
      } else {
        IdleStep(env, st, items[0]);
      }
      NavThroughoutTick(env, TickStep(env, st, items[0]), items[1..]);
    }
  }

  lemma IdleStep(env: Env, st: Live, item: Item)
    requires !Applies(env, st, item)
    ensures TickStep(env, st, item) == st
  {
    hide Applies;
  }

  // ---- Idle ticks --------------------------------------------------------

  lemma NewDecision(decisions: map<string, Action>, secid: string, a: Action)
    requires secid !in decisions
    ensures AnyOrder(decisions[secid := a]) <==> AnyOrder(decisions) || IsOrderAction(a)
  {
    var all := decisions[secid := a];
    if AnyOrder(decisions) {
      var k :| k in decisions && IsOrderAction(decisions[k]);
      assert k in all && all[k] == decisions[k];
    }
    if IsOrderAction(a) {
      assert secid in all && all[secid] == a;
    }
  }

  lemma OrderActionCounts(a: Action)
    ensures IsOrderAction(a) <==> TradesOf(a) > 0
  {}

  /** Tickers still to come are not decided yet. */
  ghost predicate Undecided(decisions: map<string, Action>, items: seq<Item>) {
    forall i :: 0 <= i < |items| && items[i].Priced? ==> items[i].decision.symbol !in decisions
  }

  lemma StepOrders(env: Env, st: Live, items: seq<Item>)
    requires items != [] && DistinctTickers(items) && Undecided(st.decisions, items)
    requires AnyOrder(st.decisions) <==> AcceptedCount(st.orders) > 0
    ensures var st' := TickStep(env, st, items[0]);
      Undecided(st'.decisions, items[1..]) && (AnyOrder(st'.decisions) <==> AcceptedCount(st'.orders) > 0)
  {
    hide Evaluate, ApplyGate, SummaryDelta, PortfolioNav, LotSizeFor, AnyOrder, AcceptedCount, TradesOf,
         IsOrderAction, SpendOf, GateLog, ContextFor;
    var item := items[0];
    if Applies(env, st, item) {
      var out := OutcomeFor(env, st, item);
      NewDecision(st.decisions, item.decision.symbol, out.action);
      TradesAreAcceptedOrders(item.decision, GateFor(env, st, item), item.lastPrice, st.trades, env.tradeLimit,
                              CommissionRate(env.settings), item.replies);
      AcceptedCountAppend(st.orders, out.orders);
      OrderActionCounts(out.action);
      forall i | 0 <= i < |items[1..]|
        && items[1..][i].Priced? ensures items[1..][i].decision.symbol != item.decision.symbol {
        assert Tickers(items)[0] != Tickers(items)[i + 1];
      }
    }
  }

  lemma DistinctTail(items: seq<Item>)
    requires items != [] && DistinctTickers(items)
    ensures DistinctTickers(items[1..])
  {
    assert forall k :: 0 <= k < |items| - 1 ==> Tickers(items[1..])[k] == Tickers(items)[k + 1];
  }

  lemma {:induction false} OrdersOnRecord(env: Env, st: Live, items: seq<Item>)
    requires DistinctTickers(items) && Undecided(st.decisions, items)
    requires AnyOrder(st.decisions) <==> AcceptedCount(st.orders) > 0
    ensures var end := RunItems(env, st, items); AnyOrder(end.decisions) <==> AcceptedCount(end.orders) > 0
    decreases |items|
  {
    hide TickStep, AnyOrder, AcceptedCount, DistinctTickers, Undecided;
    if items != [] {
      StepOrders(env, st, items);
      DistinctTail(items);
      OrdersOnRecord(env, TickStep(env, st, items[0]), items[1..]);
    }
  }

  /** The tick counts as idle exactly when the broker accepted none of its orders. */
  lemma IdleExactly(env: Env, cash: real, ps: seq<Position>, items: seq<Item>, order: seq<Item>, quotes: map<string,
                    real>,
                    trades: int)
    requires DistinctTickers(order)
    ensures var end := RunItems(env, StartOfPhase2(cash, ps, items, quotes, env.lotSizes, trades), order);
      AnyOrder(end.decisions) <==> AcceptedCount(end.orders) > 0
  {
    hide RunItems, PortfolioNav, Scheduling.LivePrices;
    NoOrdersNoCount();
    OrdersOnRecord(env, StartOfPhase2(cash, ps, items, quotes, env.lotSizes, trades), order);
  }
}
