/** The live simulation and the backtest keep different books of the same
    trades: collateral cash against standard cash. */
module Equivalence {
  import opened Money
  import opened Portfolio
  import opened Simulation
  import opened Fills
  import opened Accounting
  import opened Engine
  import opened EngineBooks
  import Risk

  datatype Fill = Fill(secid: string, delta: int, price: real, commission: real)

  /** Both books after the same fills, and the drift that covers left in the collateral one. */
  datatype Twin = Twin(liveCash: real, live: seq<Position>, cash: real, rows: seq<Position>, drift: real)

  function TwinStep(w: Twin, x: Fill, lotSizes: map<string, int>): Twin {
    var lot := LotSizeFor(x.secid, lotSizes);
    var (liveCash, live) := CollateralFill(w.liveCash, w.live, x.secid, x.delta, lot, x.price, x.commission);
    Twin(liveCash, live,
         CashAfter(w.cash, x.delta, lot, x.price, x.commission), FillRows(w.rows, x.secid, x.delta, x.price),
         w.drift + CoverDrift(PositionFor(w.live, x.secid), AvgPriceFor(w.live, x.secid), x.delta, lot, x.price))
  }

  function TwinRun(w: Twin, xs: seq<Fill>, lotSizes: map<string, int>): Twin {
    if xs == [] then w else TwinStep(TwinRun(w, xs[..|xs| - 1], lotSizes), xs[|xs| - 1], lotSizes)
  }

  function BothEmpty(cash: real): Twin { Twin(cash, [], cash, [], 0.0) }

  // ---- Terms of the relation ---------------------------------------------

  function ShortTerm(lotSizes: map<string, int>): Position -> real {
    (p: Position) => if p.lots < 0 then Notional(-p.lots, LotSizeFor(p.secid, lotSizes), p.avgPrice) else 0.0
  }

  ghost function ShortOf(lot: int): (int, real) -> real {
    (q: int, avg: real) => if q < 0 then Notional(-q, lot, avg) else 0.0
  }

  /** Collateral blocked by shorts, at entry prices. */
  function ShortBasis(ps: seq<Position>, lotSizes: map<string, int>): real { Total(ps, ShortTerm(lotSizes)) }

  function MarketTerm(mark: string -> real, lotSizes: map<string, int>): Position -> real {
    (p: Position) => Notional(p.lots, LotSizeFor(p.secid, lotSizes), mark(p.secid))
  }

  ghost function MarketOf(lot: int, price: real): (int, real) -> real { (q: int, avg: real) => Notional(q, lot, price) }

  function CollateralTerm(mark: string -> real, lotSizes: map<string, int>): Position -> real {
    (p: Position) => CollateralValue(p.lots, p.avgPrice, LotSizeFor(p.secid, lotSizes), mark(p.secid))
  }

  function StandardNav(cash: real, rows: seq<Position>, mark: string -> real, lotSizes: map<string, int>): real {
    cash + Total(rows, MarketTerm(mark, lotSizes))
  }

  function CollateralNav(cash: real, ps: seq<Position>, mark: string -> real, lotSizes: map<string, int>): real {
    cash + Total(ps, CollateralTerm(mark, lotSizes))
  }

  lemma TermsPriceRows(secid: string, mark: string -> real, lotSizes: map<string, int>)
    ensures PricesRow(ShortTerm(lotSizes), ShortOf(LotSizeFor(secid, lotSizes)), secid, lotSizes)
    ensures PricesRow(MarketTerm(mark, lotSizes), MarketOf(LotSizeFor(secid, lotSizes), mark(secid)), secid, lotSizes)
  {
    hide LotSizeFor;
  }

  /** A row at collateral value is a row at market value plus twice its short entry cost. */
  lemma CollateralIsMarketPlusShort(q: int, avg: real, lot: int, price: real)
    ensures CollateralValue(q, avg, lot, price) == Notional(q, lot, price) + 2.0 * ShortOf(lot)(q, avg)
  {
    ValueOf(q, avg, lot, price);
    NotionalNegates(q, lot, price);
    hide CollateralValue, Notional;
  }

  lemma CashRelation(q: int, avg: real, delta: int, lot: int, price: real)
    ensures var avg' := AverageAfter(q, avg, delta, price);
      CashDelta(q, delta, lot, price)
      == -Notional(delta, lot, price) - 2.0 * (ShortOf(lot)(q + delta, avg') - ShortOf(lot)(q, avg))
         + CoverDrift(q, avg, delta, lot, price)
  {
    hide CollateralValue, Notional, AverageAfter, CoverDrift, CashDelta, ShortOf;
    ValueChange(q, avg, delta, lot, price);
    CollateralIsMarketPlusShort(q, avg, lot, price);
    CollateralIsMarketPlusShort(q + delta, AverageAfter(q, avg, delta, price), lot, price);
    NotionalAdds(q, delta, lot, price);
  }

  // ---- The relation ------------------------------------------------------

  ghost predicate SameHoldings(w: Twin) {
    forall secid :: PositionFor(w.live, secid) == PositionFor(w.rows, secid)
      && (PositionFor(w.live, secid) != 0 ==> AvgPriceFor(w.live, secid) == AvgPriceFor(w.rows, secid))
  }

  ghost predicate Related(w: Twin, mark: string -> real, lotSizes: map<string, int>) {
    && WellFormed(w.live, lotSizes) && WellFormed(w.rows, lotSizes)
    && SameHoldings(w)
    && w.liveCash == w.cash - 2.0 * ShortBasis(w.live, lotSizes) + w.drift
    && Total(w.live, MarketTerm(mark, lotSizes)) == Total(w.rows, MarketTerm(mark, lotSizes))
  }

  lemma StepKeepsHoldings(w: Twin, x: Fill, lotSizes: map<string, int>)
    requires UniqueSecids(w.live) && UniqueSecids(w.rows) && SameHoldings(w) && x.delta != 0
    ensures SameHoldings(TwinStep(w, x, lotSizes))
  {
    hide LotSizeFor, FillPositions, FillRows, PositionFor, AvgPriceFor, EngineAverage, NewAverage, CashDelta,
         CashAfter, CoverDrift;
    var w' := TwinStep(w, x, lotSizes);
    FillLookup(w.live, x.secid, x.delta, x.price);
    FillRowsLookup(w.rows, x.secid, x.delta, x.price);
    var q := PositionFor(w.live, x.secid);
    SameAverage(q, AvgPriceFor(w.rows, x.secid), x.delta, x.price);
    if q == 0 {
      FirstAverage(AvgPriceFor(w.rows, x.secid), x.delta, x.price);
      FirstAverage(AvgPriceFor(w.live, x.secid), x.delta, x.price);
    }
    forall secid
      ensures PositionFor(w'.live, secid) == PositionFor(w'.rows, secid)
        && (PositionFor(w'.live, secid) != 0 ==> AvgPriceFor(w'.live, secid) == AvgPriceFor(w'.rows, secid))
    {
      if secid != x.secid {
        FillFrame(w.live, x.secid, x.delta, x.price, secid);
        FillRowsFrame(w.rows, x.secid, x.delta, x.price, secid);
      }
    }
  }

  lemma StepKeepsRelated(w: Twin, x: Fill, mark: string -> real, lotSizes: map<string, int>)
    requires Related(w, mark, lotSizes) && x.delta != 0
    ensures Related(TwinStep(w, x, lotSizes), mark, lotSizes)
  {
    hide LotSizeFor, FillPositions, FillRows, PositionFor, AvgPriceFor, EngineAverage, AverageAfter, CashDelta,
         CoverDrift, Total, SameHoldings, WellFormed, PricesRow, ShortOf, Notional;
    var lot := LotSizeFor(x.secid, lotSizes);
    var q, avg := PositionFor(w.live, x.secid), AvgPriceFor(w.live, x.secid);
    RelatedParts(w, mark, lotSizes);
    StepKeepsHoldings(w, x, lotSizes);
    TermsPriceRows(x.secid, mark, lotSizes);
    FillTotal(w.live, x.secid, x.delta, x.price, lotSizes, ShortTerm(lotSizes), ShortOf(lot));
    FillTotal(w.live, x.secid, x.delta, x.price, lotSizes, MarketTerm(mark, lotSizes), MarketOf(lot, mark(x.secid)));
    FillRowsTotal(w.rows, x.secid, x.delta, x.price, lotSizes, MarketTerm(mark, lotSizes),
                  MarketOf(lot, mark(x.secid)));
    CashRelation(q, avg, x.delta, lot, x.price);
  }

  lemma RelatedParts(w: Twin, mark: string -> real, lotSizes: map<string, int>)
    requires Related(w, mark, lotSizes)
    ensures UniqueSecids(w.live) && UniqueSecids(w.rows)
    ensures forall secid :: PositionFor(w.live, secid) == PositionFor(w.rows, secid)
  {}

  lemma {:induction false} TwinsStayRelated(cash: real, xs: seq<Fill>, mark: string -> real, lotSizes: map<string, int>)
    requires forall i :: 0 <= i < |xs| ==> xs[i].delta != 0
    ensures Related(TwinRun(BothEmpty(cash), xs, lotSizes), mark, lotSizes)
  {
    if xs != [] {
      hide Related, TwinStep;
      TwinsStayRelated(cash, xs[..|xs| - 1], mark, lotSizes);
      StepKeepsRelated(TwinRun(BothEmpty(cash), xs[..|xs| - 1], lotSizes), xs[|xs| - 1], mark, lotSizes);
    }
  }

  /** The two accounting models agree: after any fills at equal prices and
      commissions both hold the same signed lots and averages, collateral cash is
      standard cash less twice the short entry cost plus the cover drift, and at
      any marks the two NAVs differ by exactly that drift. */
  lemma AccountingModelsAgree(cash: real, xs: seq<Fill>, mark: string -> real, lotSizes: map<string, int>)
    requires forall i :: 0 <= i < |xs| ==> xs[i].delta != 0
    ensures var w := TwinRun(BothEmpty(cash), xs, lotSizes);
      && SameHoldings(w)
      && w.liveCash == w.cash - 2.0 * ShortBasis(w.live, lotSizes) + w.drift
      && CollateralNav(w.liveCash, w.live, mark, lotSizes) == StandardNav(w.cash, w.rows, mark, lotSizes) + w.drift
  {
    hide TwinRun, Total, LotSizeFor, Notional, CollateralValue, SameHoldings, WellFormed;
    TwinsStayRelated(cash, xs, mark, lotSizes);
    var w := TwinRun(BothEmpty(cash), xs, lotSizes);
    CollateralTotal(w.live, mark, lotSizes);
  }

  lemma CollateralTotal(ps: seq<Position>, mark: string -> real, lotSizes: map<string, int>)
    ensures Total(ps, CollateralTerm(mark, lotSizes))
       == Total(ps, MarketTerm(mark, lotSizes)) + 2.0 * ShortBasis(ps, lotSizes)
  {
    hide LotSizeFor, Notional, CollateralValue, Total;
    var f, g, h := CollateralTerm(mark, lotSizes), MarketTerm(mark, lotSizes), ShortTerm(lotSizes);
    forall p | p in ps ensures f(p) == g(p) + 2.0 * h(p) {
      CollateralIsMarketPlusShort(p.lots, p.avgPrice, LotSizeFor(p.secid, lotSizes), mark(p.secid));
    }
    TotalLinear(ps, f, g, h, 2.0);
  }

  /** The scheduler's NAV is the collateral NAV at its own marks. */
  lemma SchedulerNavIsCollateralNav(cash: real, ps: seq<Position>, prices: map<string, real>, mark: string -> real,
                                    lotSizes: map<string, int>)
    requires WellFormed(ps, lotSizes)
    requires forall p :: p in ps ==> mark(p.secid) == Mark(p, prices)
    ensures PortfolioNav(cash, ps, prices, lotSizes) == CollateralNav(cash, ps, mark, lotSizes)
  {
    hide LotSizeFor, Notional, CollateralValue;
    forall p | p in ps ensures ValueTerm(prices, lotSizes)(p) == CollateralTerm(mark, lotSizes)(p) {
      assert RowLotAgrees(p, lotSizes);
    }
    TotalSame(ps, ValueTerm(prices, lotSizes), CollateralTerm(mark, lotSizes));
  }

  /** The engine's NAV is the standard NAV at its own marks. */
  lemma EngineNavIsStandardNav(cash: real, rows: seq<Position>, prices: Prices, t: nat, mark: string -> real,
                               lotSizes: map<string, int>)
    requires forall p :: p in rows ==> mark(p.secid) == MarkAt(prices, t, p)
    ensures Nav(prices, t, lotSizes, cash, rows) == StandardNav(cash, rows, mark, lotSizes)
  {
    hide LotSizeFor, Notional, MarkAt;
    TotalSame(rows, StandardTerm(prices, t, lotSizes), MarketTerm(mark, lotSizes));
  }

  // ---- What one backtest fill costs --------------------------------------

  lemma SlippedNotional(sign: int, lots: nat, lot: int, raw: real, slippage: real)
    requires sign == 1 || sign == -1
    ensures Notional(sign * lots, lot, Slipped(raw, sign, slippage))
         == Notional(sign * lots, lot, raw) + slippage * Notional(lots, lot, raw)
  {
    var n, l := lots as real, lot as real;
    assert n * (l * (raw * (1.0 + slippage))) == n * (l * raw) + slippage * (n * (l * raw));
    assert -n * (l * (raw * (1.0 - slippage))) == -n * (l * raw) + slippage * (n * (l * raw));
    assert (sign * lots) as real == (sign as real) * n;
  }

  /** Marked at the price before slippage, a backtest fill of either direction
      costs exactly its commission plus the slippage on its value. */
  lemma FillCostsFrictions(cfg: Config, b: Book, t: int, secid: string, sign: int, lots: nat, raw: real,
                           step: Option<(StepKey, Risk.StepId)>, mark: string -> real)
    requires WellFormed(b.rows, cfg.lotSizes) && (sign == 1 || sign == -1) && mark(secid) == raw
    ensures var lot, price := LotSizeFor(secid, cfg.lotSizes), Slipped(raw, sign, cfg.slippage);
      var b' := Execute(cfg, b, t, secid, sign * lots, price, step);
      StandardNav(b'.cash, b'.rows, mark, cfg.lotSizes)
      == StandardNav(b.cash, b.rows, mark, cfg.lotSizes)
         - TradeCommission(sign * lots, lot, price, cfg.commissionRate) - cfg.slippage * Notional(lots, lot, raw)
  {
    hide Execute, FillRows, LotSizeFor, PositionFor, AvgPriceFor, EngineAverage, TradeCommission, Realized, Notional,
         Total, Slipped, MarketTerm, PricesRow, WellFormed;
    var lot, price := LotSizeFor(secid, cfg.lotSizes), Slipped(raw, sign, cfg.slippage);
    ExecuteFields(cfg, b, t, secid, sign * lots, price, step);
    TermsPriceRows(secid, mark, cfg.lotSizes);
    FillRowsTotal(b.rows, secid, sign * lots, price, cfg.lotSizes, MarketTerm(mark, cfg.lotSizes), MarketOf(lot, raw));
    NotionalAdds(PositionFor(b.rows, secid), sign * lots, lot, raw);
    SlippedNotional(sign, lots, lot, raw, cfg.slippage);
  }
}
