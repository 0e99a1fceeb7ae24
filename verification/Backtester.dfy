/** The backtest as an object: holdings are updated in place, bars and signals
    are loops, and every state is the one the engine's functions describe. */
module Backtesting {
  import opened Money
  import opened Portfolio
  import opened Risk
  import opened Simulation
  import opened Engine
  import Accounting

  class Holding {
    const secid: string
    var lots: int
    var avgPrice: real

    constructor (secid: string)
      ensures this.secid == secid && lots == 0 && avgPrice == 0.0
    {
      this.secid := secid;
      lots, avgPrice := 0, 0.0;
    }

    function Row(): Position
      reads this
    {
      NewRow(secid, lots, avgPrice)
    }
  }

  ghost function RowsOf(hs: seq<Holding>): (rows: seq<Position>)
    reads hs
    ensures |rows| == |hs| && forall i :: 0 <= i < |hs| ==> rows[i] == hs[i].Row()
  {
    if hs == [] then [] else RowsOf(hs[..|hs| - 1]) + [hs[|hs| - 1].Row()]
  }

  class Backtester {
    const cfg: Config
    var cash: real
    var holdings: seq<Holding>
    var stepsDone: map<StepKey, set<StepId>>
    var spent: real
    var tradePnls: seq<real>
    var equity: seq<NavPoint>
    var openedAt: map<string, int>
    var durations: seq<int>
    var trades: seq<Trade>
    var raised: bool

    /** One object per ticker. */
    ghost predicate Valid()
      reads this`holdings, holdings
    {
      forall i, j :: 0 <= i < j < |holdings| ==> holdings[i] != holdings[j] && holdings[i].secid != holdings[j].secid
    }

    ghost function Rows(): seq<Position>
      reads this`holdings, holdings
    {
      RowsOf(holdings)
    }

    ghost function Books(): Book
      reads this, holdings
    {
      Book(cash, Rows(), stepsDone, spent, tradePnls, equity, openedAt, durations, trades, raised)
    }

    constructor (cfg: Config)
      ensures this.cfg == cfg && holdings == [] && Valid() && Books() == OpeningBook(cfg)
    {
      this.cfg := cfg;
      cash, spent := cfg.initialCapital, 0.0;
      holdings := [];
      stepsDone, openedAt := map[], map[];
      tradePnls, equity, durations, trades := [], [], [], [];
      raised := false;
      new;
      assert Rows() == [];
    }

    method Snapshot() returns (book: Book)
      ensures book == Books()
    {
      var rows: seq<Position> := [];
      for i := 0 to |holdings|
        invariant rows == Rows()[..i]
      {
        rows := rows + [holdings[i].Row()];
      }
      book := Book(cash, rows, stepsDone, spent, tradePnls, equity, openedAt, durations, trades, raised);
    }

    method ComputeNav(prices: Prices, t: nat) returns (nav: real)
      ensures nav == Nav(prices, t, cfg.lotSizes, cash, Rows())
    {
      hide LotSizeFor, Notional, MarkAt, Total, RowsOf;
      nav := cash;
      TotalOfNone(StandardTerm(prices, t, cfg.lotSizes));
      assert Rows()[..0] == [];
      ghost var f := StandardTerm(prices, t, cfg.lotSizes);
      for i := 0 to |holdings|
        invariant nav == cash + Total(Rows()[..i], f)
      {
        var h := holdings[i];
        TotalSnoc(Rows()[..i], h.Row(), f);
        assert Rows()[..i + 1] == Rows()[..i] + [h.Row()];
        Accounting.ZeroLots(LotSizeFor(h.secid, cfg.lotSizes), MarkAt(prices, t, h.Row()));
        if h.lots != 0 {
          nav := nav + Notional(h.lots, LotSizeFor(h.secid, cfg.lotSizes), MarkAt(prices, t, h.Row()));
        }
      }
      assert Rows()[..|holdings|] == Rows();
    }

    method FindHolding(secid: string) returns (i: int)
      ensures i == IndexOf(Rows(), secid)
    {
      i := 0;
      while i < |holdings|
        invariant 0 <= i <= |holdings|
        invariant forall k :: 0 <= k < i ==> Rows()[k].secid != secid
      {
        if holdings[i].secid == secid {
          assert Rows()[i].secid == secid;
          return;
        }
        i := i + 1;
      }
      i := -1;
    }

    /** The ticker's holding, created empty on first use. */
    method EnsureHolding(secid: string) returns (i: nat)
      requires Valid()
      modifies this`holdings
      ensures Valid() && forall k :: 0 <= k < |holdings| ==> holdings[k] in old(holdings) || fresh(holdings[k])
      ensures Rows() == WithRow(old(Rows()), secid) && i == IndexOf(Rows(), secid)
    {
      hide IndexOf, RowsOf;
      var found := FindHolding(secid);
      if found >= 0 {
        return found;
      }
      i := |holdings|;
      NewRowIsFound(Rows(), secid);
      AppendHolding(secid);
    }

    /** A new empty holding at the end of the list. */
    method AppendHolding(secid: string)
      requires Valid() && IndexOf(Rows(), secid) < 0
      modifies this`holdings
      ensures Valid() && |holdings| == |old(holdings)| + 1 && holdings[..|old(holdings)|] == old(holdings)
        && fresh(holdings[|old(holdings)|])
      ensures Rows() == old(Rows()) + [NewRow(secid, 0, 0.0)]
    {
      hide IndexOf, RowsOf;
      assert forall k :: 0 <= k < |holdings| ==> holdings[k].secid == Rows()[k].secid;
      var h := new Holding(secid);
      RowsExtend(holdings, h);
      holdings := holdings + [h];
    }

    lemma RowsExtend(hs: seq<Holding>, h: Holding)
      ensures RowsOf(hs + [h]) == RowsOf(hs) + [h.Row()]
    {
      assert (hs + [h])[..|hs|] == hs;
    }

    /** Overwrite lots and average of one holding in place. */
    method SetHolding(i: nat, lots: int, avgPrice: real)
      requires Valid() && i < |holdings|
      modifies holdings[i]
      ensures Valid() && Rows() == old(Rows())[i := old(Rows())[i].(lots := lots, avgPrice := avgPrice)]
    {
      holdings[i].lots := lots;
      holdings[i].avgPrice := avgPrice;
    }

    /** Update the ticker's holding in place. */
    method ApplyFill(secid: string, delta: int, lot: int, price: real, rate: real) returns (realized: Option<real>)
      requires Valid()
      modifies this`cash, this`holdings, holdings
      ensures Valid() && forall k :: 0 <= k < |holdings| ==> holdings[k] in old(holdings) || fresh(holdings[k])
      ensures var q, avg := PositionFor(old(Rows()), secid), AvgPriceFor(old(Rows()), secid);
        var commission := TradeCommission(delta, lot, price, rate);
        && Rows() == FillRows(old(Rows()), secid, delta, price)
        && cash == CashAfter(old(cash), delta, lot, price, commission)
        && realized == Realized(q, avg, delta, lot, price, commission)
    {
      hide RowsOf, EngineAverage, TradeCommission, Realized, CashAfter, WithRow, IndexOf;
      RowOfTicker(Rows(), secid);
      var i := EnsureHolding(secid);
      var h := holdings[i];
      assert h.Row() == Rows()[i];
      var q, avg := h.lots, h.avgPrice;
      var commission := TradeCommission(delta, lot, price, rate);
      cash := CashAfter(cash, delta, lot, price, commission);
      realized := Realized(q, avg, delta, lot, price, commission);
      SetHolding(i, q + delta, EngineAverage(q, avg, delta, price));
    }

    /** The created or found row carries the ticker's lots and average. */
    lemma RowOfTicker(rows: seq<Position>, secid: string)
      ensures var all := WithRow(rows, secid); var i := IndexOf(all, secid);
        i >= 0 && all[i].lots == PositionFor(rows, secid) && all[i].avgPrice == AvgPriceFor(rows, secid)
    {
      if IndexOf(rows, secid) < 0 {
        NewRowIsFound(rows, secid);
      }
    }

    lemma NewRowIsFound(rows: seq<Position>, secid: string)
      requires IndexOf(rows, secid) < 0
      ensures IndexOf(rows + [NewRow(secid, 0, 0.0)], secid) == |rows|
    {
      var all := rows + [NewRow(secid, 0, 0.0)];
      assert all[|rows|].secid == secid;
      assert forall k :: 0 <= k < |rows| ==> all[k] == rows[k];
    }

    /** Holding record, realized profit, ladder step and trade log of a fill. */
    method RecordFill(t: int, q: int, trade: Trade)
      modifies this`openedAt, this`durations, this`tradePnls, this`stepsDone, this`trades
      ensures (openedAt, durations) == RecordHolding(old(openedAt), old(durations), trade.secid, q, q + trade.delta, t)
      ensures tradePnls == if trade.realized.Some? then old(tradePnls) + [trade.realized.value] else old(tradePnls)
      ensures stepsDone == if trade.step.None? then old(stepsDone)
        else
          var key, step := trade.step.value.0, trade.step.value.1;
          old(stepsDone)[key := StepsAt(old(stepsDone), Some(key)) + {step}]
      ensures trades == old(trades) + [trade]
    {
      hide RecordHolding;
      var record := RecordHolding(openedAt, durations, trade.secid, q, q + trade.delta, t);
      openedAt, durations := record.0, record.1;
      if trade.realized.Some? {
        tradePnls := tradePnls + [trade.realized.value];
      }
      if trade.step.Some? {
        var key, step := trade.step.value.0, trade.step.value.1;
        stepsDone := stepsDone[key := StepsAt(stepsDone, Some(key)) + {step}];
      }
      trades := trades + [trade];
    }

    /** One executed fill with its bookkeeping. */
    method ExecuteFill(t: int, secid: string, delta: int, price: real, step: Option<(StepKey, StepId)>)
      requires Valid()
      modifies this, holdings
      ensures Valid() && forall k :: 0 <= k < |holdings| ==> holdings[k] in old(holdings) || fresh(holdings[k])
      ensures Books() == Execute(cfg, old(Books()), t, secid, delta, price, step)
    {
      hide RowsOf, EngineAverage, TradeCommission, Notional, Realized, LotSizeFor, FillRows, RecordHolding, CashAfter,
           PositionFor, AvgPriceFor, IndexOf, StepsAt;
      var before := Snapshot();
      var lot := LotSizeFor(secid, cfg.lotSizes);
      var q := PositionFor(before.rows, secid);
      var realized := ApplyFill(secid, delta, lot, price, cfg.commissionRate);
      RecordFill(t, q, Trade(secid, delta, price, TradeCommission(delta, lot, price, cfg.commissionRate), realized,
                             step));
    }

    /** The outcomes of a signal, one by one. */
    lemma SignalCases(cfg: Config, prices: Prices, t: nat, history: Prices, nav: real, b: Book, d: Decision)
      ensures var b' := SignalStep(cfg, prices, t, history, nav, b, d);
        var raw := ExecutionPrice(prices, d.symbol, t + 1);
        if b.raised || Skips(cfg, b, d) then b' == b
        else if d.symbol !in prices then b' == b.(raised := true)
        else if raw.None? then b' == b
        else
          var r := Resolve(cfg, b, history, nav, d, raw.value);
          if r.Raises? then b' == b.(raised := true)
          else if r.lots <= 0 then b' == b
          else
            var sign := SignOf(d, r.op);
            var filled := Execute(cfg, b, t + 1, d.symbol, sign * r.lots, Slipped(raw.value, sign, cfg.slippage),
                                  r.step);
            b' == if r.opening
                 then filled.(spent := b.spent + Notional(r.lots, LotSizeFor(d.symbol, cfg.lotSizes), raw.value))
                 else filled
    {
      hide Resolve, Execute, LotSizeFor, Notional, Slipped, ExecutionPrice, Skips, SignOf;
    }

    method RunSignal(prices: Prices, t: nat, history: Prices, nav: real, d: Decision)
      requires Valid()
      modifies this, holdings
      ensures Valid() && forall k :: 0 <= k < |holdings| ==> holdings[k] in old(holdings) || fresh(holdings[k])
      ensures Books() == SignalStep(cfg, prices, t, history, nav, old(Books()), d)
    {
      hide RowsOf, Resolve, Execute, LotSizeFor, Notional, Slipped, ExecutionPrice, SignalStep, Skips, SignOf, Valid;
      var book := Snapshot();
      SignalCases(cfg, prices, t, history, nav, book, d);
      if raised || Skips(cfg, book, d) {
        return;
      }
      if d.symbol !in prices {
        raised := true;
        return;
      }
      var execution := ExecutionPrice(prices, d.symbol, t + 1);
      if execution.None? {
        return;
      }
      var raw := execution.value;
      var r := Resolve(cfg, book, history, nav, d, raw);
      if r.Raises? {
        raised := true;
        return;
      }
      if r.lots <= 0 {
        return;
      }
      var sign := SignOf(d, r.op);
      ExecuteFill(t + 1, d.symbol, sign * r.lots, Slipped(raw, sign, cfg.slippage), r.step);
      if r.opening {
        spent := book.spent + Notional(r.lots, LotSizeFor(d.symbol, cfg.lotSizes), raw);
      }
    }

    lemma RunSignalsNone(cfg: Config, prices: Prices, t: nat, history: Prices, nav: real, b: Book)
      ensures RunSignals(cfg, prices, t, history, nav, b, []) == b
    {}

    lemma RunSignalsSnoc(cfg: Config, prices: Prices, t: nat, history: Prices, nav: real, b: Book, ds: seq<Decision>,
                         d: Decision)
      ensures RunSignals(cfg, prices, t, history, nav, b, ds + [d])
           == SignalStep(cfg, prices, t, history, nav, RunSignals(cfg, prices, t, history, nav, b, ds), d)
    {
      hide SignalStep;
      assert (ds + [d])[..|ds|] == ds;
    }

    /** All signals of one bar, in the strategy's order. */
    method RunAll(prices: Prices, t: nat, history: Prices, nav: real, signals: seq<Decision>)
      requires Valid()
      modifies this, holdings
      ensures Valid() && forall k :: 0 <= k < |holdings| ==> holdings[k] in old(holdings) || fresh(holdings[k])
      ensures Books() == RunSignals(cfg, prices, t, history, nav, old(Books()), signals)
    {
      hide RowsOf, SignalStep, RunSignals, Valid;
      RunSignalsNone(cfg, prices, t, history, nav, Books());
      assert signals[..0] == [];
      for s := 0 to |signals|
        invariant Valid() && forall k :: 0 <= k < |holdings| ==> holdings[k] in old(holdings) || fresh(holdings[k])
        invariant Books() == RunSignals(cfg, prices, t, history, nav, old(Books()), signals[..s])
      {
        RunSignalsSnoc(cfg, prices, t, history, nav, old(Books()), signals[..s], signals[s]);
        assert signals[..s + 1] == signals[..s] + [signals[s]];
        RunSignal(prices, t, history, nav, signals[s]);
      }
      assert signals[..|signals|] == signals;
    }

    method RunBar(prices: Prices, t: nat)
      requires Valid()
      modifies this, holdings
      ensures Valid() && forall k :: 0 <= k < |holdings| ==> holdings[k] in old(holdings) || fresh(holdings[k])
      ensures Books() == BarStep(cfg, prices, t, old(Books()))
    {
      hide RowsOf, Nav, HistoryAt, SignalsAt, DayOf, RunSignals, Valid;
      if raised {
        return;
      }
      var book := Snapshot();
      var nav := ComputeNav(prices, t);
      spent := 0.0;
      RunAll(prices, t, HistoryAt(prices, t), nav, SignalsAt(cfg, prices, t, book));
      if !raised {
        var value := ComputeNav(prices, t + 1);
        equity := equity + [NavPoint(DayOf(cfg, t + 1), value)];
      }
    }

    /** The bar loop over `bars` aligned timestamps; too few bars is an error. */
    method RunBacktest(prices: Prices, bars: nat) returns (ok: bool)
      requires Valid() && holdings == [] && Books() == OpeningBook(cfg)
      modifies this
      ensures ok <==> bars > cfg.warmup + 1
      ensures Valid()
      ensures ok ==> Books() == BookAt(cfg, prices, bars - 1)
      ensures !ok ==> Books() == OpeningBook(cfg)
    {
      hide RowsOf, BarStep;
      ok := bars > cfg.warmup + 1;
      if !ok {
        return;
      }
      for t := cfg.warmup to bars - 1
        invariant Valid() && forall k :: 0 <= k < |holdings| ==> fresh(holdings[k])
        invariant Books() == BookAt(cfg, prices, t)
      {
        RunBar(prices, t);
      }
    }
  }
}
