/** One bar of a backtest: what the strategy is shown, what its signals are
    sized and gated with, what the bar may spend, and the equity it records. */
module EngineBars {
  import opened Money
  import opened Portfolio
  import opened Sizing
  import opened Operations
  import opened Risk
  import opened RiskProperties
  import opened Openings
  import opened TickLimits
  import opened Orders
  import opened Simulation
  import opened Engine
  import opened EngineBooks
  import opened Agreement
  import EngineSignals
  import TickGates

  // ---- What a bar is decided on ------------------------------------------

  /** Bars 0 to t of every ticker that has had one by then, and no later bar. */
  ghost predicate IsHistory(h: Prices, prices: Prices, t: nat) {
    && (forall s :: s in h <==> s in prices && exists j :: 0 <= j <= t && j < |prices[s]| && prices[s][j].Some?)
    && (forall s :: s in h ==>
          |h[s]| == (if t + 1 < |prices[s]| then t + 1 else |prices[s]|)
          && forall j :: 0 <= j < |h[s]| ==> h[s][j] == prices[s][j])
  }

  lemma HistoryExactly(h: Prices, prices: Prices, t: nat)
    ensures IsHistory(h, prices, t) <==> h == HistoryAt(prices, t)
  {
    HistoryIs(prices, t);
    if IsHistory(h, prices, t) {
      var k := HistoryAt(prices, t);
      hide HistoryAt;
      forall s | s in h ensures h[s] == k[s] {}
    }
  }

  lemma HistoryIs(prices: Prices, t: nat)
    ensures IsHistory(HistoryAt(prices, t), prices, t)
  {}

  /** The cash, and the lots of every ticker that was ever traded. */
  ghost predicate IsView(v: View, b: Book) {
    && v.cash == b.cash
    && (forall s :: s in v.lots <==> exists i :: 0 <= i < |b.rows| && b.rows[i].secid == s)
    && (forall s :: s in v.lots ==> v.lots[s] == PositionFor(b.rows, s))
  }

  lemma ViewExactly(v: View, b: Book)
    ensures IsView(v, b) <==> v == View(b.cash, LotsView(b.rows))
  {
    hide PositionFor;
    var m := LotsView(b.rows);
    forall s ensures s in m <==> exists i :: 0 <= i < |b.rows| && b.rows[i].secid == s {
      if s in m {
        var p :| p in b.rows && p.secid == s;
      }
      if i :| 0 <= i < |b.rows| && b.rows[i].secid == s {
        assert b.rows[i] in b.rows;
      }
    }
    if IsView(v, b) {
      assert v.lots == m;
    }
  }

  /** Cash plus signed lots at the bar's positive close, else at their average price. */
  function Worth(prices: Prices, t: nat, lotSizes: map<string, int>, cash: real, rows: seq<Position>): real {
    if rows == [] then cash
    else
      var p := rows[|rows| - 1];
      var price := if p.secid in prices && t < |prices[p.secid]| && prices[p.secid][t].Some?
                      && prices[p.secid][t].value.close > 0.0 then prices[p.secid][t].value.close else p.avgPrice;
      Worth(prices, t, lotSizes, cash, rows[..|rows| - 1])
      + (p.lots as real) * ((LotSizeFor(p.secid, lotSizes) as real) * price)
  }

  lemma {:induction false} NavIsWorth(prices: Prices, t: nat, lotSizes: map<string, int>, cash: real,
                                      rows: seq<Position>)
    ensures Nav(prices, t, lotSizes, cash, rows) == Worth(prices, t, lotSizes, cash, rows)
  {
    hide LotSizeFor;
    if rows != [] {
      NavIsWorth(prices, t, lotSizes, cash, rows[..|rows| - 1]);
    }
  }

  /** The strategy decides on the history up to bar t and on the account before
      the bar's orders. Its signals are carried out in order against that history
      and the NAV of bar t, with a fresh tick budget. */
  lemma BarDecides(cfg: Config, prices: Prices, t: nat, b: Book, h: Prices, v: View)
    requires !b.raised && IsHistory(h, prices, t) && IsView(v, b)
    ensures var nav := Worth(prices, t, cfg.lotSizes, b.cash, b.rows);
      var after := RunSignals(cfg, prices, t, h, nav, b.(spent := 0.0), cfg.decide(h, v));
      BarStep(cfg, prices, t, b).(equity := []) == after.(equity := [])
  {
    hide RunSignals, HistoryAt, Nav, LotsView, Worth, IsHistory, IsView;
    HistoryExactly(h, prices, t);
    ViewExactly(v, b);
    NavIsWorth(prices, t, cfg.lotSizes, b.cash, b.rows);
  }

  // ---- The equity curve --------------------------------------------------

  lemma SignalKeepsEquity(cfg: Config, prices: Prices, t: nat, history: Prices, nav: real, b: Book, d: Decision)
    ensures var b' := SignalStep(cfg, prices, t, history, nav, b, d);
      b'.equity == b.equity && (b.raised ==> b'.raised)
  {
    hide Resolve, LotSizeFor, Notional, Slipped, ExecutionPrice, PositionFor, AvgPriceFor, StepsAt, FillRows,
         RecordHolding, Realized, TradeCommission, CashAfter, SignOf, Skips;
  }

  lemma {:induction false} SignalsKeepEquity(cfg: Config, prices: Prices, t: nat, history: Prices, nav: real, b: Book,
                                             ds: seq<Decision>)
    ensures RunSignals(cfg, prices, t, history, nav, b, ds).equity == b.equity
  {
    hide SignalStep;
    if ds != [] {
      SignalsKeepEquity(cfg, prices, t, history, nav, b, ds[..|ds| - 1]);
      SignalKeepsEquity(cfg, prices, t, history, nav, RunSignals(cfg, prices, t, history, nav, b, ds[..|ds| - 1]),
                        ds[|ds| - 1]);
    }
  }

  lemma BarRecordsEquity(cfg: Config, prices: Prices, t: nat, b: Book)
    requires !BarStep(cfg, prices, t, b).raised
    ensures var b' := BarStep(cfg, prices, t, b);
      && !b.raised
      && b'.equity == b.equity + [NavPoint(if t + 1 < |cfg.days| then cfg.days[t + 1] else 0,
                                           Worth(prices, t + 1, cfg.lotSizes, b'.cash, b'.rows))]
  {
    hide RunSignals, HistoryAt, Nav, Worth, SignalsAt;
    var nav, ds := Nav(prices, t, cfg.lotSizes, b.cash, b.rows), SignalsAt(cfg, prices, t, b);
    SignalsKeepEquity(cfg, prices, t, HistoryAt(prices, t), nav, b.(spent := 0.0), ds);
    var b' := BarStep(cfg, prices, t, b);
    NavIsWorth(prices, t + 1, cfg.lotSizes, b'.cash, b'.rows);
  }

  /** The value of a book at its own bar, dated by it. */
  function PointAt(cfg: Config, prices: Prices, k: nat): NavPoint
    requires k >= cfg.warmup
  {
    var b := BookAt(cfg, prices, k);
    NavPoint(if k < |cfg.days| then cfg.days[k] else 0, Worth(prices, k, cfg.lotSizes, b.cash, b.rows))
  }

  /** A run that did not raise has one equity point per bar after the warm-up,
      each the value of that bar's book at that bar's prices. */
  lemma {:induction false} EquityCurve(cfg: Config, prices: Prices, t: nat)
    requires t >= cfg.warmup && !BookAt(cfg, prices, t).raised
    ensures var curve := BookAt(cfg, prices, t).equity;
      && |curve| == t - cfg.warmup
      && forall i :: 0 <= i < |curve| ==> curve[i] == PointAt(cfg, prices, cfg.warmup + 1 + i)
  {
    hide BarStep, Worth;
    if t > cfg.warmup {
      BarRecordsEquity(cfg, prices, t - 1, BookAt(cfg, prices, t - 1));
      EquityCurve(cfg, prices, t - 1);
    }
  }

  // ---- Openings ----------------------------------------------------------

  /** Lots of an opening that the Risk Officer lets through at `price`. */
  ghost predicate Opens(cfg: Config, b: Book, history: Prices, nav: real, d: Decision, price: real) {
    cfg.applyRisk && UniqueSecids(b.rows)
    && var res := Resolve(cfg, b, history, nav, d, price); res.Resolved? && res.lots > 0 && res.opening
  }

  lemma OpensThroughGate(cfg: Config, b: Book, history: Prices, nav: real, d: Decision, price: real)
    requires Opens(cfg, b, history, nav, d, price)
    ensures var c := EngineContext(cfg, b, history, nav, d.symbol, price); var g := Evaluate(d, c);
      var res := Resolve(cfg, b, history, nav, d, price); var q := PositionFor(b.rows, d.symbol);
      && IsOpeningGate(g) && OpeningPassed(d, c, g.effectiveSize.value, OpenedQty(g))
      && res.lots == OpenedQty(g) + (if IsFlip(g.op.value) then Abs(q) else 0) && g.op.Some?
      && (IsFlip(g.op.value) ==> cfg.settings.allowFlip)
  {
    hide Evaluate, EngineContext, Resolve, PositionFor, FitsPosition, TakenFrom, IsOpening, IsFlip, OpenedQty,
         OpeningPassed;
    var c := EngineContext(cfg, b, history, nav, d.symbol, price);
    ResolutionOf(cfg, b, history, nav, d, price);
    EngineLots(cfg, b, history, nav, d.symbol, price);
    EvaluateFitsPosition(d, c);
    var g, res, q := Evaluate(d, c), Resolve(cfg, b, history, nav, d, price), PositionFor(b.rows, d.symbol);
    TakenLots(g, res, d.signal, q, cfg.settings.allowFlip);
    OpeningOpsPassedTheGates(d, c);
    OpeningHasPassed(d, c);
    FlipsNeedLeave(g, d.signal, q, cfg.settings.allowFlip);
    OpeningNames(g.op.value);
  }

  lemma FlipsNeedLeave(g: Gate, signal: Signal, q: int, allowFlip: bool)
    requires FitsPosition(g, signal, q, allowFlip) && g.Gate? && g.op.Some? && g.allowed
    ensures IsFlip(g.op.value) ==> allowFlip
  {}

  lemma {:induction false} OpenRowsStay(rows: seq<Position>)
    ensures forall p :: p in NonZeroRows(rows) <==> p in rows && p.lots != 0
  {
    if rows != [] {
      var n := |rows| - 1;
      OpenRowsStay(rows[..n]);
      assert rows == rows[..n] + [rows[n]];
    }
  }

  /** What the Risk Officer is shown in a backtest: the open rows, the account at
      the start of the bar, and the statistics of the ticker's own history. */
  lemma EngineMarket(cfg: Config, b: Book, history: Prices, nav: real, secid: string, price: real)
    ensures var c := EngineContext(cfg, b, history, nav, secid, price);
      var stats := cfg.volatility(if secid in history then Some(history[secid]) else None);
      && c.lastPrice == price && c.settings == cfg.settings && c.flow.None? && c.nav == nav && c.cash == b.cash
      && c.sigma == stats.0 && c.returnsCount == stats.1 && c.navHistory == b.equity && c.today == cfg.today
      && c.tickBuySpent == b.spent && c.tickOpenNav == nav && c.lotSizes == cfg.lotSizes
      && (forall p :: p in c.positions <==> p in b.rows && p.lots != 0)
      && (HasOpen(c.positions) <==> HasOpen(b.rows))
  {
    hide StepsAt, KeyOf, NonZeroRows;
    OpenRowsStay(b.rows);
  }

  /** Every opening of a backtest had a price and enough conviction, and was clear
      of the expected move of its own history, of the drawdown of the recorded
      equity against the bar's NAV, and of the loss since today's first record. */
  lemma OpeningMetItsMarket(cfg: Config, b: Book, history: Prices, nav: real, d: Decision, price: real)
    requires Opens(cfg, b, history, nav, d, price) && nav > 0.0 && 0.0 < cfg.settings.maxDrawdown <= 1.0
    ensures var s := cfg.settings;
      var stats := cfg.volatility(if d.symbol in history then Some(history[d.symbol]) else None);
      && price > 0.0 && d.confidence >= s.minConfidence
      && (s.minEdgePct > 0.0 && stats.1 >= 5 ==>
            d.confidence * stats.0 * s.edgeVolMult >= s.minEdgePct
            && d.confidence * stats.0 * s.edgeVolMult >= 2.0 * MaxReal(s.commissionRate, 0.0))
      && (HasOpen(b.rows) ==>
            forall i :: 0 <= i < |b.equity| ==> LowestAllowed(b.equity[i].nav, s.maxDrawdown) < nav)
      && (forall i :: OpensSession(b.equity, cfg.today, i) && b.equity[i].nav > 0.0 ==>
            LowestAllowed(b.equity[i].nav, s.maxDailyLoss) < nav)
  {
    hide Evaluate, Resolve, LowestAllowed, OpensSession, HasOpen, OpenedQty, EngineContext, OpeningPassed, PositionFor,
         IsFlip, CommissionRate;
    var c := EngineContext(cfg, b, history, nav, d.symbol, price);
    OpensThroughGate(cfg, b, history, nav, d, price);
    EngineMarket(cfg, b, history, nav, d.symbol, price);
    TickGates.OpeningMarketClear(d, c);
  }

  // ---- The bar's budget --------------------------------------------------

  /** What an opening adds to the bar's spend: the value of all lots it trades,
      those that a flip closes included, at the price before slippage. */
  lemma SignalSpends(cfg: Config, prices: Prices, t: nat, history: Prices, nav: real, b: Book, d: Decision)
    ensures var b' := SignalStep(cfg, prices, t, history, nav, b, d);
      var raw := ExecutionPrice(prices, d.symbol, t + 1);
      b'.spent == b.spent
      || (raw.Some? && EngineSignals.ActedOn(cfg, b, d) && !b.raised
          && var res := Resolve(cfg, b, history, nav, d, raw.value);
             res.Resolved? && res.lots > 0 && res.opening
             && b'.spent == b.spent + Notional(res.lots, LotSizeFor(d.symbol, cfg.lotSizes), raw.value))
  {
    hide Resolve, LotSizeFor, Notional, Slipped, ExecutionPrice, PositionFor, AvgPriceFor, StepsAt, FillRows,
         RecordHolding, Realized, TradeCommission, CashAfter, SignOf;
  }

  lemma OpeningSpends(cfg: Config, prices: Prices, t: nat, history: Prices, nav: real, b: Book, d: Decision,
                      price: real)
    requires !b.raised && EngineSignals.ActedOn(cfg, b, d) && d.symbol in prices
    requires ExecutionPrice(prices, d.symbol, t + 1) == Some(price)
    requires var res := Resolve(cfg, b, history, nav, d, price); res.Resolved? && res.lots > 0
    ensures var res := Resolve(cfg, b, history, nav, d, price);
      SignalStep(cfg, prices, t, history, nav, b, d).spent
      == b.spent + if res.opening then Notional(res.lots, LotSizeFor(d.symbol, cfg.lotSizes), price) else 0.0
  {
    hide Resolve, LotSizeFor, Notional, Slipped, ExecutionPrice, PositionFor, AvgPriceFor, StepsAt, FillRows,
         RecordHolding, Realized, TradeCommission, CashAfter, SignOf;
  }

  /** Spend of the bar so far and cost with commission fit the share of the bar's NAV. */
  lemma OpeningMetItsBudget(cfg: Config, b: Book, history: Prices, nav: real, d: Decision, price: real)
    requires Opens(cfg, b, history, nav, d, price) && cfg.settings.maxTickBuyPct > 0.0 && !cfg.settings.allowFlip
    ensures var n := Notional(Resolve(cfg, b, history, nav, d, price).lots, LotSizeFor(d.symbol, cfg.lotSizes), price);
      n >= 0.0 && b.spent + n + n * MaxReal(cfg.settings.commissionRate, 0.0) <= nav * cfg.settings.maxTickBuyPct
  {
    hide Evaluate, Resolve, OpenedQty, EngineContext, OpeningPassed, PositionFor, IsFlip, Notional, LotSizeFor;
    var c := EngineContext(cfg, b, history, nav, d.symbol, price);
    var g := Evaluate(d, c);
    OpensThroughGate(cfg, b, history, nav, d, price);
    EngineMarket(cfg, b, history, nav, d.symbol, price);
    OpeningFitsBudget(d, c, g.effectiveSize.value, OpenedQty(g));
    OpenedIsPositive(d, c, g.effectiveSize.value, OpenedQty(g));
    NotionalNonNegative(OpenedQty(g), LotSizeFor(d.symbol, cfg.lotSizes), price);
  }

  lemma OpenedIsPositive(d: Decision, c: Context, size: real, qty: int)
    requires OpeningPassed(d, c, size, qty)
    ensures qty > 0 && c.lastPrice > 0.0
  {
    hide PlanFor, OpenMetrics, BaseWeight, SectorCurrent, VarPct, OpenQty, TickBudget;
  }

  lemma SignalWithinBudget(cfg: Config, prices: Prices, t: nat, history: Prices, nav: real, b: Book, d: Decision)
    requires cfg.applyRisk && !cfg.settings.allowFlip && cfg.settings.maxTickBuyPct > 0.0 && UniqueSecids(b.rows)
    requires b.spent <= nav * cfg.settings.maxTickBuyPct
    ensures SignalStep(cfg, prices, t, history, nav, b, d).spent <= nav * cfg.settings.maxTickBuyPct
  {
    hide SignalStep, Resolve, Notional, LotSizeFor, ExecutionPrice, UniqueSecids, EngineSignals.ActedOn;
    SignalSpends(cfg, prices, t, history, nav, b, d);
    var raw := ExecutionPrice(prices, d.symbol, t + 1);
    if raw.Some? && Opens(cfg, b, history, nav, d, raw.value) {
      OpeningMetItsBudget(cfg, b, history, nav, d, raw.value);
      var n := Notional(Resolve(cfg, b, history, nav, d, raw.value).lots, LotSizeFor(d.symbol, cfg.lotSizes),
                        raw.value);
      ProductNonNegative(n, MaxReal(cfg.settings.commissionRate, 0.0));
    }
  }

  lemma {:induction false} SignalsWithinBudget(cfg: Config, prices: Prices, t: nat, history: Prices, nav: real,
                                               b: Book, ds: seq<Decision>)
    requires cfg.applyRisk && !cfg.settings.allowFlip && cfg.settings.maxTickBuyPct > 0.0 && UniqueSecids(b.rows)
    requires b.spent <= nav * cfg.settings.maxTickBuyPct
    ensures var b' := RunSignals(cfg, prices, t, history, nav, b, ds);
      UniqueSecids(b'.rows) && b'.spent <= nav * cfg.settings.maxTickBuyPct
  {
    hide SignalStep, UniqueSecids;
    if ds != [] {
      var n := |ds| - 1;
      SignalsWithinBudget(cfg, prices, t, history, nav, b, ds[..n]);
      var before := RunSignals(cfg, prices, t, history, nav, b, ds[..n]);
      SignalWithinBudget(cfg, prices, t, history, nav, before, ds[n]);
      SignalKeepsUnique(cfg, prices, t, history, nav, before, ds[n]);
    }
  }

  lemma SignalKeepsUnique(cfg: Config, prices: Prices, t: nat, history: Prices, nav: real, b: Book, d: Decision)
    requires UniqueSecids(b.rows)
    ensures UniqueSecids(SignalStep(cfg, prices, t, history, nav, b, d).rows)
  {
    hide Resolve, LotSizeFor, Notional, Slipped, ExecutionPrice, PositionFor, AvgPriceFor, StepsAt, FillRows,
         RecordHolding, Realized, TradeCommission, CashAfter, SignOf, Skips, UniqueSecids;
    if !b.raised && d.symbol in prices && ExecutionPrice(prices, d.symbol, t + 1).Some? {
      var raw := ExecutionPrice(prices, d.symbol, t + 1).value;
      var res := Resolve(cfg, b, history, nav, d, raw);
      if res.Resolved? {
        var sign := SignOf(d, res.op);
        FillRowsLookup(b.rows, d.symbol, sign * res.lots, Slipped(raw, sign, cfg.slippage));
      }
    }
  }

  /** With the Risk Officer on and flips off, what a bar opens is worth at most
      the configured share of the NAV that the bar began with. */
  lemma BarWithinBudget(cfg: Config, prices: Prices, t: nat, b: Book)
    requires cfg.applyRisk && !cfg.settings.allowFlip && cfg.settings.maxTickBuyPct > 0.0 && UniqueSecids(b.rows)
    requires !b.raised && Worth(prices, t, cfg.lotSizes, b.cash, b.rows) >= 0.0
    ensures BarStep(cfg, prices, t, b).spent
      <= Worth(prices, t, cfg.lotSizes, b.cash, b.rows) * cfg.settings.maxTickBuyPct
  {
    hide RunSignals, HistoryAt, Worth, IsHistory, IsView, BarStep, UniqueSecids;
    var h, v := HistoryAt(prices, t), View(b.cash, LotsView(b.rows));
    HistoryExactly(h, prices, t);
    ViewExactly(v, b);
    BarDecides(cfg, prices, t, b, h, v);
    var nav := Worth(prices, t, cfg.lotSizes, b.cash, b.rows);
    ProductNonNegative(nav, cfg.settings.maxTickBuyPct);
    SignalsWithinBudget(cfg, prices, t, h, nav, b.(spent := 0.0), cfg.decide(h, v));
  }

  // ---- Without the Risk Officer ------------------------------------------

  /** A signal trades the largest lot count that fits its share of the NAV, in its
      own direction; only what extends a position counts towards the budget. */
  lemma UnguardedSignal(cfg: Config, prices: Prices, t: nat, history: Prices, nav: real, b: Book, d: Decision,
                        price: real, n: nat)
    requires !cfg.applyRisk && !b.raised && UniqueSecids(b.rows) && !d.signal.Hold? && d.sizePct > 0.0
    requires d.symbol in prices && ExecutionPrice(prices, d.symbol, t + 1) == Some(price)
    requires price > 0.0 && nav > 0.0
    requires var lot := LotSizeFor(d.symbol, cfg.lotSizes);
      Notional(n, lot, price) <= nav * d.sizePct < Notional(n + 1, lot, price)
    ensures var b' := SignalStep(cfg, prices, t, history, nav, b, d); var q := PositionFor(b.rows, d.symbol);
      && PositionFor(b'.rows, d.symbol) == (if d.signal.Buy? then q + n else q - n)
      && b'.spent == b.spent + (if (d.signal.Buy? && q >= 0) || (d.signal.Sell? && q <= 0)
                                then Notional(n, LotSizeFor(d.symbol, cfg.lotSizes), price) else 0.0)
  {
    hide SignalStep, Resolve, LotSizeFor, Notional, ExecutionPrice, PositionFor, UniqueSecids, SignOf;
    var q, b' := PositionFor(b.rows, d.symbol), SignalStep(cfg, prices, t, history, nav, b, d);
    UnguardedLots(cfg, b, history, nav, d, price, n);
    if n > 0 {
      OpeningSpends(cfg, prices, t, history, nav, b, d, price);
      SignalMoves(cfg, prices, t, history, nav, b, d, price);
    } else {
      NoLotsNoMove(cfg, prices, t, history, nav, b, d, price);
    }
    NothingIsFree(LotSizeFor(d.symbol, cfg.lotSizes), price);
  }

  lemma SignalMoves(cfg: Config, prices: Prices, t: nat, history: Prices, nav: real, b: Book, d: Decision, price: real)
    requires !b.raised && EngineSignals.ActedOn(cfg, b, d) && d.symbol in prices && UniqueSecids(b.rows)
    requires ExecutionPrice(prices, d.symbol, t + 1) == Some(price)
    requires var res := Resolve(cfg, b, history, nav, d, price); res.Resolved? && res.lots > 0
    ensures var res := Resolve(cfg, b, history, nav, d, price);
      PositionFor(SignalStep(cfg, prices, t, history, nav, b, d).rows, d.symbol)
      == PositionFor(b.rows, d.symbol) + SignOf(d, res.op) * res.lots
  {
    hide Resolve, LotSizeFor, Notional, Slipped, ExecutionPrice, PositionFor, AvgPriceFor, StepsAt, FillRows,
         RecordHolding, Realized, TradeCommission, CashAfter, SignOf, UniqueSecids;
    var res := Resolve(cfg, b, history, nav, d, price);
    var sign := SignOf(d, res.op);
    FillRowsLookup(b.rows, d.symbol, sign * res.lots, Slipped(price, sign, cfg.slippage));
  }

  lemma NoLotsNoMove(cfg: Config, prices: Prices, t: nat, history: Prices, nav: real, b: Book, d: Decision, price: real)
    requires d.symbol in prices && ExecutionPrice(prices, d.symbol, t + 1) == Some(price)
    requires var res := Resolve(cfg, b, history, nav, d, price); res.Resolved? && res.lots <= 0
    ensures SignalStep(cfg, prices, t, history, nav, b, d) == b
  {
    hide Resolve, LotSizeFor, Notional, Slipped, ExecutionPrice, PositionFor, Execute, SignOf, Skips;
  }

  lemma UnguardedLots(cfg: Config, b: Book, history: Prices, nav: real, d: Decision, price: real, n: nat)
    requires !cfg.applyRisk && !d.signal.Hold? && d.sizePct > 0.0 && price > 0.0 && nav > 0.0
    requires var lot := LotSizeFor(d.symbol, cfg.lotSizes);
      Notional(n, lot, price) <= nav * d.sizePct < Notional(n + 1, lot, price)
    ensures var res := Resolve(cfg, b, history, nav, d, price); var q := PositionFor(b.rows, d.symbol);
      && res.Resolved? && res.lots == n && res.step.None?
      && (res.opening <==> (d.signal.Buy? && q >= 0) || (d.signal.Sell? && q <= 0))
      && SignOf(d, res.op) * res.lots == (if d.signal.Buy? then 1 else -1) * n
  {
    hide LotSizeFor, Notional, PositionFor, QuantityForBuy;
    var lot := LotSizeFor(d.symbol, cfg.lotSizes);
    QuantityIsLargestThatFits(nav, d.sizePct, price, lot);
    SameWhole(n, QuantityForBuy(nav, d.sizePct, price, lot), nav * d.sizePct, lot, price);
  }

  lemma NothingIsFree(lot: int, price: real)
    ensures Notional(0, lot, price) == 0.0
  {}

  /** Two lot counts with the same bracket are the same. */
  lemma SameWhole(m: nat, n: nat, amount: real, lot: int, price: real)
    requires lot > 0 && price > 0.0
    requires Notional(m, lot, price) <= amount < Notional(m + 1, lot, price)
    requires Notional(n, lot, price) <= amount < Notional(n + 1, lot, price)
    ensures m == n
  {
    LotValuePositive(lot, price);
    var unit := LotValue(lot, price);
    hide LotValue;
    if m < n {
      ScaleLess((m + 1) as real, n as real, unit);
    } else if n < m {
      ScaleLess((n + 1) as real, m as real, unit);
    }
  }

  /** A NAV that is used up trades nothing. */
  lemma UnguardedWithoutNav(cfg: Config, prices: Prices, t: nat, history: Prices, nav: real, b: Book, d: Decision)
    requires !cfg.applyRisk && nav <= 0.0 && d.symbol in prices
    ensures SignalStep(cfg, prices, t, history, nav, b, d) == b
  {
    hide LotSizeFor, Notional, Slipped, ExecutionPrice, PositionFor, Execute;
  }

  // ---- Ladder keys -------------------------------------------------------

  /** Rungs are counted per ticker, side and average price rounded to six decimals. */
  lemma SameKeyExactly(q: int, avg: real, r: int, other: real, secid: string, ticker: string)
    requires q != 0 && avg > 0.0
    ensures RoundKey(secid, q, avg) == RoundKey(ticker, r, other)
      <==> secid == ticker && ((q > 0 && r > 0) || (q < 0 && r < 0)) && other > 0.0
           && Round6(avg) == Round6(other)
    ensures RoundKey(ticker, r, other).None? <==> r == 0 || other <= 0.0
  {
    hide Round6;
  }
}
