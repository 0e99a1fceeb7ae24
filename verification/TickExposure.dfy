/** Exposure caps after every opening of a tick, measured on the simulated book
    against the NAV before the trade. */
module TickExposure {
  import opened Money
  import opened Portfolio
  import opened Operations
  import opened Risk
  import opened RiskProperties
  import opened Orders
  import opened Simulation
  import opened Fills
  import opened Accounting
  import opened TickSteps
  import opened TickNav
  import opened TickLimits
  import opened TickSafety

  // ---- The plan and the position it starts from --------------------------

  lemma PlanBase(d: Decision, c: Context)
    ensures var plan := PlanFor(d, c); var q := PositionFor(c.positions, d.symbol);
      if plan.flipClose.Some? then plan.baseAbsQty == 0 && plan.flipClose.value == Abs(q) else plan.baseAbsQty == Abs(q)
  {
    hide PositionFor, DesiredQty;
  }

  /** The opened lots come on top of the plan's base: the old position, or nothing after a flip. */
  lemma OpenedPosition(env: Env, st: Live, item: Item)
    requires Applies(env, st, item) && OpensPosition(OutcomeFor(env, st, item).action)
    ensures var d, c, g := item.decision, ContextFor(env, st, item), GateFor(env, st, item);
      var q := PositionFor(st.positions, d.symbol);
      && IsOpeningGate(g)
      && Abs(q + NetLots(env, st, item)) == PlanFor(d, c).baseAbsQty + OpenedQty(g)
  {
    hide Evaluate, ApplyGate, PositionFor, OpeningPassed, PlanFor, OpenMetrics, LotSizeFor, NetLots, SpendOf,
         Notional, IsOpening, OpenedQty;
    OpeningStep(env, st, item);
    StepShape(env, st, item);
    PlanBase(item.decision, ContextFor(env, st, item));
  }

  // ---- The three loads of the book after the fill ------------------------

  function Weight(q: int, lot: int, price: real, nav: real): real
    requires nav != 0.0
  {
    Share(Notional(Abs(q), lot, price), nav)
  }

  ghost function OwnWeight(lot: int, price: real, nav: real): (int, real) -> real
    requires nav != 0.0
  {
    (q: int, avg: real) => if q == 0 then 0.0 else Weight(q, lot, price, nav)
  }

  ghost function NoWeight(): (int, real) -> real { (q: int, avg: real) => 0.0 }

  lemma SectorTermPricesRow(c: Context, symbol: string)
    requires c.nav != 0.0 && c.lastPrice > 0.0
    ensures PricesRow(SectorTerm(c, symbol, SectorOf(symbol, c.sectors)),
                      OwnWeight(LotSizeFor(symbol, c.lotSizes), c.lastPrice, c.nav), symbol, c.lotSizes)
  {
    hide LotSizeFor, Notional;
  }

  lemma SigmaTermPricesRow(c: Context, symbol: string)
    requires c.nav != 0.0
    ensures PricesRow(SigmaTerm(c, symbol), NoWeight(), symbol, c.lotSizes)
  {
    hide LotSizeFor, Notional;
  }

  /** Sector load and other tickers' sigma after a fill of `delta` lots of `symbol`. */
  lemma LoadsAfterFill(c: Context, symbol: string, delta: int, ps': seq<Position>)
    requires WellFormed(c.positions, c.lotSizes) && c.nav > 0.0 && c.lastPrice > 0.0
    requires ps' == FillPositions(c.positions, symbol, delta, c.lastPrice)
    ensures var c' := c.(positions := ps'); var sector := SectorOf(symbol, c.sectors);
      var w := OwnWeight(LotSizeFor(symbol, c.lotSizes), c.lastPrice, c.nav); var q := PositionFor(c.positions, symbol);
      && SectorLoad(c', symbol, sector) == SectorLoad(c, symbol, sector) - w(q, 0.0) + w(q + delta, 0.0)
      && OthersSigma(c', symbol) == OthersSigma(c, symbol)
  {
    hide FillPositions, LotSizeFor, Notional, PositionFor, AvgPriceFor, AverageAfter, Total, Share;
    var c' := c.(positions := ps');
    var sector := SectorOf(symbol, c.sectors);
    SectorTermPricesRow(c, symbol);
    FillTotal(c.positions, symbol, delta, c.lastPrice, c.lotSizes, SectorTerm(c, symbol, sector),
              OwnWeight(LotSizeFor(symbol, c.lotSizes), c.lastPrice, c.nav));
    TotalSame(ps', SectorTerm(c', symbol, sector), SectorTerm(c, symbol, sector));
    SigmaTermPricesRow(c, symbol);
    FillTotal(c.positions, symbol, delta, c.lastPrice, c.lotSizes, SigmaTerm(c, symbol), NoWeight());
    TotalSame(ps', SigmaTerm(c', symbol), SigmaTerm(c, symbol));
  }

  // ---- The caps ----------------------------------------------------------

  /** Instrument, sector and VaR caps of the book `ps'` against the NAV of `c`. */
  ghost predicate WithinCaps(c: Context, symbol: string, ps': seq<Position>)
    requires c.nav != 0.0
  {
    var c' := c.(positions := ps');
    var weight := Weight(PositionFor(ps', symbol), LotSizeFor(symbol, c.lotSizes), c.lastPrice, c.nav);
    && weight <= c.settings.maxInstrumentWeight
    && SectorLoad(c', symbol, SectorOf(symbol, c.sectors)) <= c.settings.maxSectorWeight
    && VarPct(c', symbol, weight) <= c.settings.maxVarPct
  }

  lemma OpeningRoom(d: Decision, c: Context, size: real, qty: int)
    requires OpeningPassed(d, c, size, qty)
    ensures (PlanFor(d, c).flipClose.Some? ==> c.nav != 0.0)
    ensures c.lastPrice > 0.0
    ensures size <= c.settings.maxInstrumentWeight - BaseWeight(d, c, PlanFor(d, c))
    ensures size <= c.settings.maxSectorWeight - SectorCurrent(d, c, PlanFor(d, c))
    ensures VarPct(c, d.symbol, BaseWeight(d, c, PlanFor(d, c)) + size) <= c.settings.maxVarPct
  {
    hide BaseWeight, VarPct, SectorCurrent, PlanFor, OpenQty, OpenMetrics, TickBudget;
  }

  lemma VarGrowsWithWeight(c: Context, c': Context, symbol: string, weight: real, bound: real)
    requires 0.0 <= weight <= bound && TickerSigma(c) >= 0.0
    requires OthersSigma(c', symbol) == OthersSigma(c, symbol) && TickerSigma(c') == TickerSigma(c)
    ensures VarPct(c', symbol, weight) <= VarPct(c, symbol, bound)
  {
    hide OthersSigma, TickerSigma;
    ScaleLess(weight, bound, TickerSigma(c));
  }

  /** New weight of the ticker: its base plus no more than the effective size. */
  lemma WeightAfterOpening(d: Decision, c: Context, size: real, qty: int, after: int)
    requires OpeningPassed(d, c, size, qty) && c.cash <= c.nav && Abs(after) == PlanFor(d, c).baseAbsQty + qty
    ensures c.nav > 0.0 && size > 0.0
    ensures var lot := LotSizeFor(d.symbol, c.lotSizes);
      && 0.0 <= Weight(after, lot, c.lastPrice, c.nav) <= BaseWeight(d, c, PlanFor(d, c)) + size
      && (PlanFor(d, c).flipClose.Some? ==> Weight(after, lot, c.lastPrice, c.nav) <= size)
  {
    hide OpeningPassed, PlanFor, Notional, LotSizeFor, Share;
    OpenedShareWithinSize(d, c, size, qty);
    OpeningRoom(d, c, size, qty);
    PlanBase(d, c);
    var lot := LotSizeFor(d.symbol, c.lotSizes);
    var base := PlanFor(d, c).baseAbsQty;
    NotionalAdds(base, qty, lot, c.lastPrice);
    ShareAdds(Notional(base, lot, c.lastPrice), Notional(qty, lot, c.lastPrice), c.nav);
    NotionalNonNegative(Abs(after), lot, c.lastPrice);
    ShareNonNegative(Notional(Abs(after), lot, c.lastPrice), c.nav);
    ZeroLots(lot, c.lastPrice);
  }

  lemma OpenedBookWithinCaps(d: Decision, c: Context, size: real, qty: int, delta: int, ps': seq<Position>)
    requires OpeningPassed(d, c, size, qty) && c.cash <= c.nav && TickerSigma(c) >= 0.0
    requires WellFormed(c.positions, c.lotSizes)
    requires Abs(PositionFor(c.positions, d.symbol) + delta) == PlanFor(d, c).baseAbsQty + qty
    requires ps' == FillPositions(c.positions, d.symbol, delta, c.lastPrice)
    ensures c.nav > 0.0 && WithinCaps(c, d.symbol, ps')
  {
    hide OpeningPassed, PlanFor, Notional, LotSizeFor, Share, PositionFor, AvgPriceFor, FillPositions, SectorLoad,
         VarPct, OthersSigma, TickerSigma, AverageAfter;
    var q := PositionFor(c.positions, d.symbol);
    WeightAfterOpening(d, c, size, qty, q + delta);
    OpeningRoom(d, c, size, qty);
    FillLookup(c.positions, d.symbol, delta, c.lastPrice);
    LoadsAfterFill(c, d.symbol, delta, ps');
    PlanBase(d, c);
    SameTickerSigma(c, ps');
    var lot := LotSizeFor(d.symbol, c.lotSizes);
    VarGrowsWithWeight(c, c.(positions := ps'), d.symbol, Weight(q + delta, lot, c.lastPrice, c.nav),
                       BaseWeight(d, c, PlanFor(d, c)) + size);
    NotionalOfAbs(q, lot, c.lastPrice);
    ZeroLots(lot, c.lastPrice);
    ShareOfNothing(c.nav);
  }

  lemma SameTickerSigma(c: Context, ps': seq<Position>)
    ensures TickerSigma(c.(positions := ps')) == TickerSigma(c)
  {}

  lemma NotionalOfAbs(q: int, lot: int, price: real)
    ensures Notional(Abs(q), lot, price) == Notional(Abs(Abs(q)), lot, price)
  {}

  lemma ShareOfNothing(nav: real)
    requires nav != 0.0
    ensures Share(0.0, nav) == 0.0
  {}

  /** After any step that opens, adds or flips, the traded ticker, its sector and
      the portfolio VaR are within their caps. */
  lemma OpeningStepWithinCaps(env: Env, st: Live, item: Item)
    requires Ready(env, st, [item]) && SoundMarks(st.positions, st.prices)
    requires Applies(env, st, item) && OpensPosition(OutcomeFor(env, st, item).action) && item.sigma >= 0.0
    ensures st.nav > 0.0
    ensures WithinCaps(ContextFor(env, st, item), item.decision.symbol, TickStep(env, st, item).positions)
  {
    hide Evaluate, ApplyGate, PositionFor, OpeningPassed, PlanFor, OpenMetrics, LotSizeFor, NetAccepted, SummaryDelta,
         PortfolioNav, FillPositions, SoundMarks, CashDelta, WithinCaps, Charged, OpeningCost, OpenedQty;
    assert [item][0] == item;
    var d, c, g := item.decision, ContextFor(env, st, item), GateFor(env, st, item);
    OpeningStep(env, st, item);
    OpeningRoom(d, c, g.effectiveSize.value, OpenedQty(g));
    OpenedPosition(env, st, item);
    CashWithinNav(st.cash, st.positions, st.prices, env.lotSizes);
    StepIsFill(env, st, item);
    OpenedBookWithinCaps(d, c, g.effectiveSize.value, OpenedQty(g), NetLots(env, st, item),
                         TickStep(env, st, item).positions);
  }

  // ---- Over the whole tick -----------------------------------------------

  lemma StepKeepsSoundMarks(env: Env, st: Live, item: Item)
    requires Ready(env, st, [item]) && SoundMarks(st.positions, st.prices)
    ensures SoundMarks(TickStep(env, st, item).positions, TickStep(env, st, item).prices)
  {
    hide Evaluate, ApplyGate, PositionFor, LotSizeFor, NetAccepted, SummaryDelta, PortfolioNav, FillPositions,
         SoundMarks, CashDelta, Charged;
    assert [item][0] == item;
    assert MarkAgrees(st.prices, item);
    StepNav(env, st, item);
    if Applies(env, st, item) {
      if item.lastPrice > 0.0 {
        StepIsFill(env, st, item);
        FillKeepsSoundMarks(st.positions, st.prices, item.decision.symbol, NetLots(env, st, item));
      } else {
        NoPriceNoDelta(OutcomeFor(env, st, item).action, item.lastPrice, item.decision.symbol, st.cash, st.positions,
                       env.lotSizes);
      }
    }
  }

  /** The state before item k of a tick. */
  function StateBefore(env: Env, st: Live, items: seq<Item>, k: nat): Live
    requires k <= |items|
  {
    RunItems(env, st, items[..k])
  }

  lemma {:induction false} ReadyThroughout(env: Env, st: Live, items: seq<Item>, k: nat)
    requires k <= |items| && Ready(env, st, items) && SoundMarks(st.positions, st.prices)
    ensures var at := StateBefore(env, st, items, k);
      Ready(env, at, items[k..]) && SoundMarks(at.positions, at.prices)
    decreases k
  {
    hide TickStep, WellFormed, PortfolioNav, MarkAgrees, SoundMarks;
    if k == 0 {
      assert items[0..] == items;
    } else {
      ReadyStep(env, st, items);
      StepKeepsSoundMarks(env, st, items[0]);
      ReadyThroughout(env, TickStep(env, st, items[0]), items[1..], k - 1);
      assert items[..k][1..] == items[1..][..k - 1];
      assert items[1..][k - 1..] == items[k..];
    }
  }

  /** Exposure over a whole tick: whenever item k opens a position, the book
      right after it is within all three caps, provided that when the tick
      starts no short trades above twice its entry price. */
  lemma ExposureThroughoutTick(env: Env, st: Live, items: seq<Item>, k: nat)
    requires k < |items| && Ready(env, st, items) && SoundMarks(st.positions, st.prices)
    requires var at := StateBefore(env, st, items, k);
      Applies(env, at, items[k]) && OpensPosition(OutcomeFor(env, at, items[k]).action) && items[k].sigma >= 0.0
    ensures var at := StateBefore(env, st, items, k);
      at.nav > 0.0
        && WithinCaps(ContextFor(env, at, items[k]), items[k].decision.symbol, TickStep(env, at, items[k]).positions)
  {
    hide TickStep, WellFormed, PortfolioNav, MarkAgrees, SoundMarks, WithinCaps, OutcomeFor, Applies, OpensPosition,
         RunItems;
    ReadyThroughout(env, st, items, k);
    var at := StateBefore(env, st, items, k);
    assert items[k..][0] == items[k];
    assert Ready(env, at, [items[k]]);
    OpeningStepWithinCaps(env, at, items[k]);
  }
}
