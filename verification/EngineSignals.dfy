/** What a backtest does with a signal: which ones it acts on, which it passes
    over, and that a due stop is executed whatever the strategy says. */
module EngineSignals {
  import opened Money
  import opened Portfolio
  import opened Operations
  import opened Risk
  import opened RiskProperties
  import opened Orders
  import opened Simulation
  import opened Engine
  import opened EngineBooks
  import opened EngineRuns
  import opened Agreement
  import opened Exits

  // ---- Signals passed over -----------------------------------------------

  /** A HOLD on a flat ticker or without the Risk Officer, a BUY or SELL without
      size, and any signal without an execution price leave the book as it was. */
  lemma SignalPassedOver(cfg: Config, prices: Prices, t: nat, history: Prices, nav: real, b: Book, d: Decision)
    requires || (d.signal.Hold? && (PositionFor(b.rows, d.symbol) == 0 || !cfg.applyRisk))
             || (!d.signal.Hold? && d.sizePct <= 0.0)
             || (d.symbol in prices && ExecutionPrice(prices, d.symbol, t + 1).None?)
    ensures SignalStep(cfg, prices, t, history, nav, b, d) == b
  {
    hide Resolve, Execute, PositionFor, ExecutionPrice, Slipped, LotSizeFor, Notional;
  }

  /** Every other signal is put to the Risk Officer, or sized from the NAV, at the
      open of the next bar, else at its close. */
  ghost predicate ActedOn(cfg: Config, b: Book, d: Decision) {
    if d.signal.Hold? then cfg.applyRisk && PositionFor(b.rows, d.symbol) != 0 else d.sizePct > 0.0
  }

  lemma SignalActedOn(cfg: Config, prices: Prices, t: nat, history: Prices, nav: real, b: Book, d: Decision)
    requires !b.raised && ActedOn(cfg, b, d)
    ensures var b' := SignalStep(cfg, prices, t, history, nav, b, d);
      if d.symbol !in prices then b' == b.(raised := true)
      else forall price: real :: ExecutionPrice(prices, d.symbol, t + 1) == Some(price) ==>
        var res := Resolve(cfg, b, history, nav, d, price);
        if res.Raises? then b' == b.(raised := true)
        else if res.lots <= 0 then b' == b
        else
          var sign := SignOf(d, res.op);
          var fill := if sign > 0 then price * (1.0 + cfg.slippage) else price * (1.0 - cfg.slippage);
          b'.(spent := b.spent) == Execute(cfg, b, t + 1, d.symbol, sign * res.lots, fill, res.step).(spent := b.spent)
  {
    hide Resolve, Execute, PositionFor, ExecutionPrice, LotSizeFor, Notional, SignOf;
  }

  /** The price at which a bar is executed: its positive open, else its positive close, else none. */
  lemma ExecutionPriceOf(prices: Prices, secid: string, t: nat, bar: Bar)
    requires secid in prices && t < |prices[secid]| && prices[secid][t] == Some(bar)
    ensures ExecutionPrice(prices, secid, t)
         == if bar.open > 0.0 then Some(bar.open) else if bar.close > 0.0 then Some(bar.close) else None
    ensures CloseAt(prices, secid, t) == if bar.close > 0.0 then Some(bar.close) else None
  {}

  lemma NoBarNoPrice(prices: Prices, secid: string, t: nat)
    requires secid !in prices || t >= |prices[secid]| || prices[secid][t] == None
    ensures ExecutionPrice(prices, secid, t) == None && CloseAt(prices, secid, t) == None
  {}

  // ---- A due stop is executed --------------------------------------------

  lemma StopResolves(cfg: Config, b: Book, history: Prices, nav: real, d: Decision, price: real)
    requires cfg.applyRisk && cfg.settings.riskEnabled && cfg.settings.stopLossPct > 0.0 && UniqueSecids(b.rows)
      && price > 0.0
    requires PositionFor(b.rows, d.symbol) != 0 && AvgPriceFor(b.rows, d.symbol) > 0.0
    requires RiskTrim(d, EngineContext(cfg, b, history, nav, d.symbol, price)).None?
    requires var q, avg := PositionFor(b.rows, d.symbol), AvgPriceFor(b.rows, d.symbol);
      var lot := LotSizeFor(d.symbol, cfg.lotSizes);
      Unrealized(q, avg, lot, price) <= -cfg.settings.stopLossPct * Notional(Abs(q), lot, avg)
    ensures var res := Resolve(cfg, b, history, nav, d, price);
      && res.Resolved? && res.lots == Abs(PositionFor(b.rows, d.symbol))
      && SignOf(d, res.op) * res.lots == -PositionFor(b.rows, d.symbol)
  {
    hide Evaluate, EngineContext, Resolve, PositionFor, AvgPriceFor, RiskTrim, Unrealized, Notional, LotSizeFor,
         FitsPosition, TakenFrom, SignOf;
    var c := EngineContext(cfg, b, history, nav, d.symbol, price);
    EngineRow(cfg, b, history, nav, d.symbol, price);
    EngineLots(cfg, b, history, nav, d.symbol, price);
    StopLossExactly(d, c);
    EvaluateFitsPosition(d, c);
    ResolutionOf(cfg, b, history, nav, d, price);
    StopTaken(d, Evaluate(d, c), Resolve(cfg, b, history, nav, d, price), PositionFor(b.rows, d.symbol),
              cfg.settings.allowFlip);
  }

  lemma EngineRow(cfg: Config, b: Book, history: Prices, nav: real, secid: string, price: real)
    requires UniqueSecids(b.rows) && PositionFor(b.rows, secid) != 0
    ensures var c := EngineContext(cfg, b, history, nav, secid, price);
      AvgPriceFor(c.positions, secid) == AvgPriceFor(b.rows, secid) && c.cash == b.cash && c.nav == nav
  {
    hide PositionFor, AvgPriceFor, NonZeroRows, StepsAt, KeyOf;
    NonZeroLookup(b.rows, secid);
  }

  lemma StopTaken(d: Decision, g: Gate, res: Resolution, q: int, allowFlip: bool)
    requires FitsPosition(g, d.signal, q, allowFlip) && res.Resolved? && TakenFrom(res, g)
    requires g.allowed && g.qty == Some(Abs(q)) && g.op == Some(if q > 0 then StopLossSell else StopLossCover) && q != 0
    ensures res.lots == Abs(q) && SignOf(d, res.op) * res.lots == -q
  {}

  /** With the Risk Officer on and no trim due, a position whose loss at the next
      bar's price has reached the stop is closed to the last lot, for every
      signal on its ticker, HOLD included. */
  lemma DueStopCloses(cfg: Config, prices: Prices, t: nat, history: Prices, nav: real, b: Book, d: Decision,
                      price: real)
    requires cfg.applyRisk && cfg.settings.riskEnabled && cfg.settings.stopLossPct > 0.0 && UniqueSecids(b.rows)
      && !b.raised
    requires d.symbol in prices && ExecutionPrice(prices, d.symbol, t + 1) == Some(price) && price > 0.0
    requires d.signal.Hold? || d.sizePct > 0.0
    requires PositionFor(b.rows, d.symbol) != 0 && AvgPriceFor(b.rows, d.symbol) > 0.0
    requires RiskTrim(d, EngineContext(cfg, b, history, nav, d.symbol, price)).None?
    requires var q, avg := PositionFor(b.rows, d.symbol), AvgPriceFor(b.rows, d.symbol);
      var lot := LotSizeFor(d.symbol, cfg.lotSizes);
      Unrealized(q, avg, lot, price) <= -cfg.settings.stopLossPct * Notional(Abs(q), lot, avg)
    ensures var b' := SignalStep(cfg, prices, t, history, nav, b, d);
      !b'.raised && PositionFor(b'.rows, d.symbol) == 0 && |b'.trades| == |b.trades| + 1
  {
    hide SignalStep, Resolve, PositionFor, AvgPriceFor, RiskTrim, EngineContext, ExecutionPrice, Unrealized, Notional,
         LotSizeFor, FillRows, SignOf;
    SignalActedOn(cfg, prices, t, history, nav, b, d);
    StopResolves(cfg, b, history, nav, d, price);
    var res := Resolve(cfg, b, history, nav, d, price);
    var sign := SignOf(d, res.op);
    var fill := if sign > 0 then price * (1.0 + cfg.slippage) else price * (1.0 - cfg.slippage);
    ExecuteFields(cfg, b, t + 1, d.symbol, sign * res.lots, fill, res.step);
    FillRowsLookup(b.rows, d.symbol, sign * res.lots, fill);
  }
}
