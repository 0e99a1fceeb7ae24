/** Book-keeping of the backtest: what was put in, what was realized and what
    was paid always add up to cash plus entry cost. */
module EngineBooks {
  import opened Money
  import opened Portfolio
  import opened Risk
  import opened Simulation
  import opened Fills
  import opened Accounting
  import opened Engine

  // ---- One fill on the rows ----------------------------------------------

  /** Engine and tick simulation average alike. */
  lemma SameAverage(q: int, avg: real, delta: int, price: real)
    requires delta != 0
    ensures EngineAverage(q, avg, delta, price) == AverageAfter(q, avg, delta, price)
  {
    hide MeanPrice;
    if q == 0 {
      MeanFromFlat(avg, Abs(delta), price);
    }
  }

  lemma MeanFromFlat(avg: real, n: int, price: real)
    requires n != 0
    ensures MeanPrice(0, avg, n, price, n) == price
  {
    QuotientTimes((n as real) * price, n as real);
    var mean := MeanPrice(0, avg, n, price, n);
    assert mean == ((n as real) * price) / (n as real);
  }

  lemma FillRowsLookup(rows: seq<Position>, secid: string, delta: int, price: real)
    requires UniqueSecids(rows)
    ensures var rows' := FillRows(rows, secid, delta, price);
      var q, avg := PositionFor(rows, secid), AvgPriceFor(rows, secid);
      && UniqueSecids(rows')
      && PositionFor(rows', secid) == q + delta
      && AvgPriceFor(rows', secid) == EngineAverage(q, avg, delta, price)
  {
    hide EngineAverage;
    var all := WithRow(rows, secid);
    WithRowLookup(rows, secid, secid);
    var i := IndexOf(all, secid);
    FirstIs(FillRows(rows, secid, delta, price), i, secid);
  }

  lemma WithRowLookup(rows: seq<Position>, secid: string, other: string)
    requires UniqueSecids(rows)
    ensures var all := WithRow(rows, secid);
      && UniqueSecids(all) && IndexOf(all, secid) >= 0
      && PositionFor(all, other) == PositionFor(rows, other) && AvgPriceFor(all, other) == AvgPriceFor(rows, other)
  {
    var all := WithRow(rows, secid);
    if IndexOf(rows, secid) < 0 {
      FirstIs(all, |rows|, secid);
      if IndexOf(rows, other) >= 0 {
        FirstIs(all, IndexOf(rows, other), other);
      } else if other != secid {
        NoMatch(all, other);
      }
    }
  }

  lemma FillRowsFrame(rows: seq<Position>, secid: string, delta: int, price: real, other: string)
    requires UniqueSecids(rows) && other != secid
    ensures var rows' := FillRows(rows, secid, delta, price);
      PositionFor(rows', other) == PositionFor(rows, other) && AvgPriceFor(rows', other) == AvgPriceFor(rows, other)
  {
    hide EngineAverage;
    WithRowLookup(rows, secid, secid);
    WithRowLookup(rows, secid, other);
    var all := WithRow(rows, secid);
    var rows' := FillRows(rows, secid, delta, price);
    var k := IndexOf(all, other);
    if k >= 0 {
      FirstIs(rows', k, other);
    } else {
      NoMatch(rows', other);
    }
  }

  /** A sum over the rows moves by the touched row alone. */
  lemma FillRowsTotal(rows: seq<Position>, secid: string, delta: int, price: real, lotSizes: map<string, int>,
                      f: Position -> real, v: (int, real) -> real)
    requires WellFormed(rows, lotSizes) && PricesRow(f, v, secid, lotSizes)
    ensures var q, avg := PositionFor(rows, secid), AvgPriceFor(rows, secid);
      var rows' := FillRows(rows, secid, delta, price);
      && WellFormed(rows', lotSizes)
      && Total(rows', f) == Total(rows, f) - v(q, avg) + v(q + delta, EngineAverage(q, avg, delta, price))
  {
    hide EngineAverage, LotSizeFor, WithRow, IndexOf;
    var all := WithRow(rows, secid);
    WithRowTotal(rows, secid, lotSizes, f, v);
    WithRowLookup(rows, secid, secid);
    var i := IndexOf(all, secid);
    assert all[i] in all && RowLotAgrees(all[i], lotSizes);
    var row := all[i].(lots := all[i].lots + delta,
                       avgPrice := EngineAverage(all[i].lots, all[i].avgPrice, delta, price));
    TotalUpdate(all, i, row, f);
    UpdateKeepsWellFormed(all, i, row, lotSizes);
  }

  lemma WithRowTotal(rows: seq<Position>, secid: string, lotSizes: map<string, int>, f: Position -> real,
                     v: (int, real) -> real)
    requires WellFormed(rows, lotSizes) && PricesRow(f, v, secid, lotSizes)
    ensures WellFormed(WithRow(rows, secid), lotSizes) && Total(WithRow(rows, secid), f) == Total(rows, f)
  {
    hide LotSizeFor;
    var all := WithRow(rows, secid);
    if IndexOf(rows, secid) < 0 {
      var row := NewRow(secid, 0, 0.0);
      TotalSnoc(rows, row, f);
      assert RowLotAgrees(row, lotSizes);
      assert f(row) == v(0, 0.0);
    }
  }

  lemma UpdateKeepsWellFormed(ps: seq<Position>, i: nat, row: Position, lotSizes: map<string, int>)
    requires WellFormed(ps, lotSizes) && i < |ps| && row.secid == ps[i].secid && row.brokerLot == ps[i].brokerLot
    ensures WellFormed(ps[i := row], lotSizes)
  {
    hide LotSizeFor;
    assert RowLotAgrees(ps[i], lotSizes);
    forall p | p in ps[i := row] ensures RowLotAgrees(p, lotSizes) {
      if p !in ps {
        assert p == row;
      }
    }
  }

  // ---- Entry cost --------------------------------------------------------

  function BasisTerm(lotSizes: map<string, int>): Position -> real {
    (p: Position) => Notional(p.lots, LotSizeFor(p.secid, lotSizes), p.avgPrice)
  }

  ghost function BasisOf(lot: int): (int, real) -> real { (q: int, avg: real) => Notional(q, lot, avg) }

  /** Signed entry cost of all positions. */
  function EntryCost(rows: seq<Position>, lotSizes: map<string, int>): real { Total(rows, BasisTerm(lotSizes)) }

  lemma BasisPricesRow(secid: string, lotSizes: map<string, int>)
    ensures PricesRow(BasisTerm(lotSizes), BasisOf(LotSizeFor(secid, lotSizes)), secid, lotSizes)
  {
    hide LotSizeFor;
  }

  lemma NotionalNegates(n: int, lot: int, price: real)
    ensures Notional(-n, lot, price) == -Notional(n, lot, price)
  {
    NotionalAdds(n, -n, lot, price);
    ZeroLots(lot, price);
  }

  /** Entry cost gained minus money spent is the realized gain, zero for extensions. */
  lemma EntryCostChange(q: int, avg: real, delta: int, lot: int, price: real, commission: real)
    requires delta != 0
    ensures var avg' := EngineAverage(q, avg, delta, price);
      var realized := Realized(q, avg, delta, lot, price, commission);
      Notional(q + delta, lot, avg') - Notional(q, lot, avg) - Notional(delta, lot, price)
      == if realized.Some? then realized.value + commission else 0.0
  {
    SameAverage(q, avg, delta, price);
    var avg' := EngineAverage(q, avg, delta, price);
    hide EngineAverage, NewAverage, Notional;
    NotionalNegates(q, lot, avg);
    NotionalNegates(delta, lot, price);
    NotionalNegates(q + delta, lot, avg');
    ZeroLots(lot, avg);
    ZeroLots(lot, avg');
    if q == 0 {
      FirstAverage(avg, delta, price);
    } else if (q > 0) == (delta > 0) {
      AverageBalances(q, avg, delta, price, lot);
    } else {
      var closed := MinInt(Abs(q), Abs(delta));
      NotionalDifference(closed, lot, price, avg);
      NotionalAdds(Abs(q) - closed, closed, lot, avg);
      NotionalAdds(Abs(delta) - closed, closed, lot, price);
      if q + delta != 0 {
        KeptAverage(q, avg, delta, price);
      }
    }
  }

  // ---- The identity ------------------------------------------------------

  function Sum(xs: seq<real>): real { if xs == [] then 0.0 else Sum(xs[..|xs| - 1]) + xs[|xs| - 1] }

  lemma SumSnoc(xs: seq<real>, x: real)
    ensures Sum(xs + [x]) == Sum(xs) + x
  {
    assert (xs + [x])[..|xs|] == xs;
  }

  /** Commissions of the fills that realized nothing. */
  function PlainFees(trades: seq<Trade>): real {
    if trades == [] then 0.0
    else
      var last := trades[|trades| - 1];
      PlainFees(trades[..|trades| - 1]) + if last.realized.Some? then 0.0 else last.commission
  }

  lemma PlainFeesSnoc(trades: seq<Trade>, trade: Trade)
    ensures PlainFees(trades + [trade]) == PlainFees(trades) + if trade.realized.Some? then 0.0 else trade.commission
  {
    assert (trades + [trade])[..|trades|] == trades;
  }

  ghost predicate BooksBalance(cfg: Config, b: Book) {
    && WellFormed(b.rows, cfg.lotSizes)
    && b.cash + EntryCost(b.rows, cfg.lotSizes) == cfg.initialCapital + Sum(b.tradePnls) - PlainFees(b.trades)
  }

  lemma EntryCostAfterFill(rows: seq<Position>, secid: string, delta: int, price: real, lotSizes: map<string, int>)
    requires WellFormed(rows, lotSizes)
    ensures var rows' := FillRows(rows, secid, delta, price); var lot := LotSizeFor(secid, lotSizes);
      var q, avg := PositionFor(rows, secid), AvgPriceFor(rows, secid);
      && WellFormed(rows', lotSizes)
      && EntryCost(rows', lotSizes) == EntryCost(rows, lotSizes) - Notional(q, lot, avg)
                                       + Notional(q + delta, lot, EngineAverage(q, avg, delta, price))
  {
    hide LotSizeFor, PositionFor, AvgPriceFor, EngineAverage, FillRows, Notional, Total, WellFormed, PricesRow;
    BasisPricesRow(secid, lotSizes);
    FillRowsTotal(rows, secid, delta, price, lotSizes, BasisTerm(lotSizes), BasisOf(LotSizeFor(secid, lotSizes)));
  }

  /** The fields of a book that a fill moves. */
  lemma ExecuteFields(cfg: Config, b: Book, t: int, secid: string, delta: int, price: real,
                      step: Option<(StepKey, Risk.StepId)>)
    ensures var b' := Execute(cfg, b, t, secid, delta, price, step); var lot := LotSizeFor(secid, cfg.lotSizes);
      var commission := TradeCommission(delta, lot, price, cfg.commissionRate);
      var realized := Realized(PositionFor(b.rows, secid), AvgPriceFor(b.rows, secid), delta, lot, price, commission);
      && b'.rows == FillRows(b.rows, secid, delta, price)
      && b'.cash == b.cash - Notional(delta, lot, price) - commission
      && b'.trades == b.trades + [Trade(secid, delta, price, commission, realized, step)]
      && b'.tradePnls == if realized.Some? then b.tradePnls + [realized.value] else b.tradePnls
  {
    hide LotSizeFor, PositionFor, AvgPriceFor, EngineAverage, FillRows, TradeCommission, Realized, Notional,
         RecordHolding, StepsAt;
  }

  lemma ExecuteBalances(cfg: Config, b: Book, t: int, secid: string, delta: int, price: real,
                        step: Option<(StepKey, Risk.StepId)>)
    requires BooksBalance(cfg, b) && delta != 0
    ensures BooksBalance(cfg, Execute(cfg, b, t, secid, delta, price, step))
  {
    hide LotSizeFor, PositionFor, AvgPriceFor, EngineAverage, FillRows, TradeCommission, Realized, Notional, Execute,
         EntryCost, WellFormed, Sum, PlainFees;
    var lot := LotSizeFor(secid, cfg.lotSizes);
    var q, avg := PositionFor(b.rows, secid), AvgPriceFor(b.rows, secid);
    var commission := TradeCommission(delta, lot, price, cfg.commissionRate);
    var realized := Realized(q, avg, delta, lot, price, commission);
    ExecuteFields(cfg, b, t, secid, delta, price, step);
    EntryCostAfterFill(b.rows, secid, delta, price, cfg.lotSizes);
    EntryCostChange(q, avg, delta, lot, price, commission);
    PlainFeesSnoc(b.trades, Trade(secid, delta, price, commission, realized, step));
    if realized.Some? {
      SumSnoc(b.tradePnls, realized.value);
    }
  }

  lemma SignalStepBalances(cfg: Config, prices: Prices, t: nat, history: Prices, nav: real, b: Book, d: Decision)
    requires BooksBalance(cfg, b)
    ensures BooksBalance(cfg, SignalStep(cfg, prices, t, history, nav, b, d))
  {
    hide Resolve, Execute, LotSizeFor, Notional, Slipped, ExecutionPrice, EntryCost, WellFormed;
    if !b.raised && !Skips(cfg, b, d) && d.symbol in prices && ExecutionPrice(prices, d.symbol, t + 1).Some? {
      var raw := ExecutionPrice(prices, d.symbol, t + 1).value;
      var r := Resolve(cfg, b, history, nav, d, raw);
      if r.Resolved? && r.lots > 0 {
        var sign := SignOf(d, r.op);
        ExecuteBalances(cfg, b, t + 1, d.symbol, sign * r.lots, Slipped(raw, sign, cfg.slippage), r.step);
      }
    }
  }

  lemma {:induction false} RunSignalsBalances(cfg: Config, prices: Prices, t: nat, history: Prices, nav: real, b: Book,
                                              ds: seq<Decision>)
    requires BooksBalance(cfg, b)
    ensures BooksBalance(cfg, RunSignals(cfg, prices, t, history, nav, b, ds))
  {
    if ds != [] {
      hide SignalStep, BooksBalance;
      RunSignalsBalances(cfg, prices, t, history, nav, b, ds[..|ds| - 1]);
      SignalStepBalances(cfg, prices, t, history, nav, RunSignals(cfg, prices, t, history, nav, b, ds[..|ds| - 1]),
                         ds[|ds| - 1]);
    }
  }

  /** Book identity at every bar, for every strategy, price history and risk
      setting, through extensions, partial and full closes and reversals. */
  lemma {:induction false} BookIdentity(cfg: Config, prices: Prices, t: nat)
    requires t >= cfg.warmup
    ensures var b := BookAt(cfg, prices, t);
      && WellFormed(b.rows, cfg.lotSizes)
      && b.cash + EntryCost(b.rows, cfg.lotSizes) == cfg.initialCapital + Sum(b.tradePnls) - PlainFees(b.trades)
  {
    hide BarStep, OpeningBook, EntryCost, Sum, PlainFees, WellFormed;
    if t == cfg.warmup {
      OpeningBalances(cfg);
    } else {
      BookIdentity(cfg, prices, t - 1);
      BarStepBalances(cfg, prices, t - 1, BookAt(cfg, prices, t - 1));
    }
  }

  lemma OpeningBalances(cfg: Config)
    ensures BooksBalance(cfg, OpeningBook(cfg))
  {}

  lemma BarStepBalances(cfg: Config, prices: Prices, t: nat, b: Book)
    requires BooksBalance(cfg, b)
    ensures BooksBalance(cfg, BarStep(cfg, prices, t, b))
  {
    hide RunSignals, SignalsAt, HistoryAt, Nav, EntryCost, Sum, PlainFees, WellFormed, DayOf;
    if !b.raised {
      assert BooksBalance(cfg, b.(spent := 0.0));
      RunSignalsBalances(cfg, prices, t, HistoryAt(prices, t), Nav(prices, t, cfg.lotSizes, b.cash, b.rows),
                         b.(spent := 0.0), SignalsAt(cfg, prices, t, b));
    }
  }

  function UnrealizedTerm(prices: Prices, t: nat, lotSizes: map<string, int>): Position -> real {
    (p: Position) => Notional(p.lots, LotSizeFor(p.secid, lotSizes), MarkAt(prices, t, p) - p.avgPrice)
  }

  /** Equity is the capital, plus what was realized, minus plain fees, plus what is unrealized. */
  lemma EquityIdentity(cfg: Config, prices: Prices, t: nat, mark: nat)
    requires t >= cfg.warmup
    ensures var b := BookAt(cfg, prices, t);
      Nav(prices, mark, cfg.lotSizes, b.cash, b.rows)
      == cfg.initialCapital + Sum(b.tradePnls) - PlainFees(b.trades)
         + Total(b.rows, UnrealizedTerm(prices, mark, cfg.lotSizes))
  {
    hide BookAt, LotSizeFor, MarkAt, Notional, Total, Sum, PlainFees;
    BookIdentity(cfg, prices, t);
    var b := BookAt(cfg, prices, t);
    var f, g := StandardTerm(prices, mark, cfg.lotSizes), UnrealizedTerm(prices, mark, cfg.lotSizes);
    var h := BasisTerm(cfg.lotSizes);
    forall p | p in b.rows ensures f(p) == g(p) + 1.0 * h(p) {
      NotionalDifference(p.lots, LotSizeFor(p.secid, cfg.lotSizes), MarkAt(prices, mark, p), p.avgPrice);
    }
    TotalLinear(b.rows, f, g, h, 1.0);
  }

  // ---- A reversal is a close followed by an open -------------------------

  /** Same rows, same cash; only the realized profit differs, by the commission
      of the opening part that a single reversal charges to it. */
  lemma ReversalIsCloseThenOpen(cfg: Config, b: Book, t: int, secid: string, delta: int, price: real)
    requires UniqueSecids(b.rows) && Crosses(PositionFor(b.rows, secid), delta)
    ensures var q := PositionFor(b.rows, secid);
      var once := Execute(cfg, b, t, secid, delta, price, None);
      var closed := Execute(cfg, b, t, secid, -q, price, None);
      var twice := Execute(cfg, closed, t, secid, q + delta, price, None);
      && PositionFor(once.rows, secid) == PositionFor(twice.rows, secid)
      && AvgPriceFor(once.rows, secid) == AvgPriceFor(twice.rows, secid) == price
      && once.cash == twice.cash
      && Sum(once.tradePnls) == Sum(twice.tradePnls)
         - TradeCommission(q + delta, LotSizeFor(secid, cfg.lotSizes), price, cfg.commissionRate)
  {
    hide FillRows, PositionFor, AvgPriceFor, LotSizeFor, Notional, EngineAverage, TradeCommission, Realized,
         NewAverage, Execute, Sum, Crosses;
    var q, avg := PositionFor(b.rows, secid), AvgPriceFor(b.rows, secid);
    var lot, rate := LotSizeFor(secid, cfg.lotSizes), cfg.commissionRate;
    var closed := Execute(cfg, b, t, secid, -q, price, None);
    ExecuteFields(cfg, b, t, secid, delta, price, None);
    ExecuteFields(cfg, b, t, secid, -q, price, None);
    ExecuteFields(cfg, closed, t, secid, q + delta, price, None);
    FillRowsLookup(b.rows, secid, delta, price);
    FillRowsLookup(b.rows, secid, -q, price);
    FillRowsLookup(closed.rows, secid, q + delta, price);
    CrossingParts(q, delta);
    CrossingAverage(q, avg, delta, price);
    SameAverage(q, avg, delta, price);
    SameAverage(q, avg, -q, price);
    SameAverage(0, 0.0, q + delta, price);
    SplitCommission(q, delta, lot, price, rate);
    NotionalAdds(-q, q + delta, lot, price);
    var c1, c2, c3 := TradeCommission(delta, lot, price, rate), TradeCommission(-q, lot, price, rate),
                      TradeCommission(q + delta, lot, price, rate);
    ReversalRealized(q, avg, delta, lot, price, c1, c2, c3);
    SumSnoc(b.tradePnls, Realized(q, avg, delta, lot, price, c1).value);
    SumSnoc(b.tradePnls, Realized(q, avg, -q, lot, price, c2).value);
  }

  lemma CrossingParts(q: int, delta: int)
    requires Crosses(q, delta)
    ensures q != 0 && delta != 0 && q + delta != 0
  {}

  lemma SplitCommission(q: int, delta: int, lot: int, price: real, rate: real)
    requires Crosses(q, delta)
    ensures TradeCommission(delta, lot, price, rate)
       == TradeCommission(-q, lot, price, rate) + TradeCommission(q + delta, lot, price, rate)
  {
    hide Notional;
    NotionalAdds(Abs(-q), Abs(q + delta), lot, price);
    assert Abs(delta) == Abs(-q) + Abs(q + delta);
    var x, y := Notional(Abs(-q), lot, price), Notional(Abs(q + delta), lot, price);
    assert (x + y) * rate == x * rate + y * rate;
  }

  lemma ReversalRealized(q: int, avg: real, delta: int, lot: int, price: real, whole: real, closing: real,
                         opening: real)
    requires Crosses(q, delta)
    ensures var once := Realized(q, avg, delta, lot, price, whole);
      var close := Realized(q, avg, -q, lot, price, closing);
      once.Some? && close.Some? && once.value + whole == close.value + closing
    ensures Realized(0, 0.0, q + delta, lot, price, opening).None?
  {}
}
