/** Whole backtest runs: causality, the profit ladder and holding records. */
module EngineRuns {
  import opened Money
  import opened Portfolio
  import opened Risk
  import opened Orders
  import opened Simulation
  import opened Fills
  import opened Ladder
  import opened Engine
  import opened EngineBooks

  // ---- No lookahead ------------------------------------------------------

  /** Same tickers, and the same bars up to and including t. */
  ghost predicate SameUpTo(p: Prices, q: Prices, t: nat) {
    && p.Keys == q.Keys
    && forall secid :: secid in p ==> |p[secid]| > t && |q[secid]| > t && p[secid][..t + 1] == q[secid][..t + 1]
  }

  lemma SameBarAt(p: Prices, q: Prices, t: nat, secid: string, j: nat)
    requires SameUpTo(p, q, t) && j <= t
    ensures BarAt(p, secid, j) == BarAt(q, secid, j)
  {
    if secid in p {
      assert p[secid][..t + 1][j] == q[secid][..t + 1][j];
    }
  }

  lemma SameBefore(p: Prices, q: Prices, t: nat, j: nat)
    requires SameUpTo(p, q, t) && j <= t
    ensures SameUpTo(p, q, j)
  {
    forall secid | secid in p ensures p[secid][..j + 1] == q[secid][..j + 1] {
      assert p[secid][..t + 1][..j + 1] == p[secid][..j + 1];
      assert q[secid][..t + 1][..j + 1] == q[secid][..j + 1];
    }
  }

  lemma SameStarted(p: Prices, q: Prices, t: nat, secid: string)
    requires SameUpTo(p, q, t) && secid in p
    ensures Started(p[secid], t) <==> Started(q[secid], t)
  {
    forall j | 0 <= j <= t ensures p[secid][j] == q[secid][j] {
      assert p[secid][..t + 1][j] == q[secid][..t + 1][j];
    }
    if Started(p[secid], t) {
      var j :| 0 <= j <= t && j < |p[secid]| && p[secid][j].Some?;
      assert q[secid][j].Some?;
    }
    if Started(q[secid], t) {
      var j :| 0 <= j <= t && j < |q[secid]| && q[secid][j].Some?;
      assert p[secid][j].Some?;
    }
  }

  /** The strategy is shown the same history. */
  lemma SameHistory(p: Prices, q: Prices, t: nat)
    requires SameUpTo(p, q, t)
    ensures HistoryAt(p, t) == HistoryAt(q, t)
  {
    var h, k := HistoryAt(p, t), HistoryAt(q, t);
    forall secid ensures secid in h <==> secid in k {
      if secid in p {
        SameStarted(p, q, t, secid);
      }
    }
    assert h.Keys == k.Keys;
    forall secid | secid in h ensures h[secid] == k[secid] {}
  }

  lemma SameNav(p: Prices, q: Prices, t: nat, j: nat, lotSizes: map<string, int>, cash: real, rows: seq<Position>)
    requires SameUpTo(p, q, t) && j <= t
    ensures Nav(p, j, lotSizes, cash, rows) == Nav(q, j, lotSizes, cash, rows)
  {
    hide LotSizeFor, Notional, SameUpTo;
    forall r | r in rows ensures StandardTerm(p, j, lotSizes)(r) == StandardTerm(q, j, lotSizes)(r) {
      SameBarAt(p, q, t, r.secid, j);
    }
    TotalSame(rows, StandardTerm(p, j, lotSizes), StandardTerm(q, j, lotSizes));
  }

  lemma SameSignalStep(cfg: Config, p: Prices, q: Prices, t: nat, history: Prices, nav: real, b: Book, d: Decision)
    requires SameUpTo(p, q, t + 1)
    ensures SignalStep(cfg, p, t, history, nav, b, d) == SignalStep(cfg, q, t, history, nav, b, d)
  {
    hide Resolve, Execute, LotSizeFor, Notional, Slipped;
    SameBarAt(p, q, t + 1, d.symbol, t + 1);
  }

  lemma {:induction false} SameSignals(cfg: Config, p: Prices, q: Prices, t: nat, history: Prices, nav: real, b: Book,
                                       ds: seq<Decision>)
    requires SameUpTo(p, q, t + 1)
    ensures RunSignals(cfg, p, t, history, nav, b, ds) == RunSignals(cfg, q, t, history, nav, b, ds)
  {
    hide SignalStep, SameUpTo;
    if ds != [] {
      SameSignals(cfg, p, q, t, history, nav, b, ds[..|ds| - 1]);
      SameSignalStep(cfg, p, q, t, history, nav, RunSignals(cfg, p, t, history, nav, b, ds[..|ds| - 1]), ds[|ds| - 1]);
    }
  }

  lemma SameBarStep(cfg: Config, p: Prices, q: Prices, t: nat, b: Book)
    requires SameUpTo(p, q, t + 1)
    ensures BarStep(cfg, p, t, b) == BarStep(cfg, q, t, b)
  {
    hide RunSignals, Nav, HistoryAt, LotsView, SameUpTo;
    SameBefore(p, q, t + 1, t);
    SameHistory(p, q, t);
    var nav := Nav(p, t, cfg.lotSizes, b.cash, b.rows);
    SameNav(p, q, t + 1, t, cfg.lotSizes, b.cash, b.rows);
    SameSignals(cfg, p, q, t, HistoryAt(p, t), nav, b.(spent := 0.0), SignalsAt(cfg, p, t, b));
    var b' := RunSignals(cfg, p, t, HistoryAt(p, t), nav, b.(spent := 0.0), SignalsAt(cfg, p, t, b));
    SameNav(p, q, t + 1, t + 1, cfg.lotSizes, b'.cash, b'.rows);
  }

  /** No lookahead, over two runs: price histories that agree up to bar t give
      the same cash, rows, equity, trades and ladder steps after bar t's fills,
      and the same decisions at bar t, whatever comes later. */
  lemma {:induction false} NoLookahead(cfg: Config, p: Prices, q: Prices, t: nat)
    requires t >= cfg.warmup && SameUpTo(p, q, t)
    ensures BookAt(cfg, p, t) == BookAt(cfg, q, t)
    ensures SignalsAt(cfg, p, t, BookAt(cfg, p, t)) == SignalsAt(cfg, q, t, BookAt(cfg, q, t))
  {
    hide BarStep, SameUpTo, HistoryAt, LotsView;
    if t > cfg.warmup {
      SameBefore(p, q, t, t - 1);
      NoLookahead(cfg, p, q, t - 1);
      SameBarStep(cfg, p, q, t - 1, BookAt(cfg, p, t - 1));
    }
    SameHistory(p, q, t);
  }

  // ---- Invariants over a run ---------------------------------------------

  /** A property of books that every fill keeps holds at every bar. */
  ghost predicate RunInvariant(cfg: Config, b: Book) {
    && UniqueSecids(b.rows)
    && LadderRecorded(b)
    && HoldingsRecorded(b)
    && |b.holdings| == |b.tradePnls|
  }

  /** Every executed rung is in the done set of its key, and no rung occurs twice. */
  ghost predicate LadderRecorded(b: Book) {
    && (forall i :: 0 <= i < |b.trades| && b.trades[i].step.Some? ==>
          b.trades[i].step.value.1 in StepsAt(b.stepsDone, Some(b.trades[i].step.value.0)))
    && (forall i, j :: 0 <= i < j < |b.trades| && b.trades[i].step.Some? ==> b.trades[i].step != b.trades[j].step)
  }

  /** Exactly the open positions have an opening bar on record. */
  ghost predicate HoldingsRecorded(b: Book) {
    forall secid :: secid in b.openedAt <==> PositionFor(b.rows, secid) != 0
  }

  lemma {:induction false} NonZeroLookup(rows: seq<Position>, secid: string)
    requires UniqueSecids(rows)
    ensures var live := NonZeroRows(rows); var q := PositionFor(rows, secid);
      && UniqueSecids(live)
      && (forall p :: p in live ==> p in rows)
      && PositionFor(live, secid) == q
      && AvgPriceFor(live, secid) == if q != 0 then AvgPriceFor(rows, secid) else 0.0
  {
    if rows != [] {
      var n := |rows| - 1;
      var front, last := rows[..n], rows[n];
      NonZeroLookup(front, secid);
      var live := NonZeroRows(front);
      assert rows == front + [last];
      forall k | 0 <= k < |live| ensures live[k].secid != last.secid {
        assert live[k] in front;
      }
      hide IndexOf, PositionFor, AvgPriceFor;
      AppendLookup(front, last, secid);
      AppendLookup(live, last, secid);
      if secid == last.secid {
        AbsentLookup(front, secid);
        AbsentLookup(live, secid);
      }
      assert NonZeroRows(rows) == if last.lots != 0 then live + [last] else live;
    } else {
      AbsentLookup([], secid);
    }
  }

  lemma AbsentLookup(ps: seq<Position>, secid: string)
    requires forall k :: 0 <= k < |ps| ==> ps[k].secid != secid
    ensures PositionFor(ps, secid) == 0 && AvgPriceFor(ps, secid) == 0.0
  {
    NoMatch(ps, secid);
  }

  lemma AppendLookup(ps: seq<Position>, p: Position, secid: string)
    requires UniqueSecids(ps + [p])
    ensures PositionFor(ps + [p], secid) == if p.secid == secid then p.lots else PositionFor(ps, secid)
    ensures AvgPriceFor(ps + [p], secid) == if p.secid == secid then p.avgPrice else AvgPriceFor(ps, secid)
  {
    var all := ps + [p];
    var i := IndexOf(ps, secid);
    if p.secid == secid {
      assert all[|ps|] == p;
      FirstIs(all, |ps|, secid);
    } else if i >= 0 {
      assert all[i] == ps[i];
      FirstIs(all, i, secid);
    } else {
      NoMatch(all, secid);
    }
  }

  /** A rung resolved by the engine is new at its key. */
  lemma ResolvedStepIsNew(cfg: Config, b: Book, history: Prices, nav: real, d: Decision, price: real)
    requires LadderConfigured(cfg.settings) && UniqueSecids(b.rows)
    ensures var r := Resolve(cfg, b, history, nav, d, price);
      r.Resolved? && r.step.Some? ==>
        Some(r.step.value.0) == KeyOf(b.rows, d.symbol) && r.step.value.1 !in StepsAt(b.stepsDone, Some(r.step.value.0))
  {
    if cfg.applyRisk {
      hide Evaluate, StepOfGate, LotSizeFor, Notional, PositionFor, AvgPriceFor, NonZeroRows;
      var c := EngineContext(cfg, b, history, nav, d.symbol, price);
      if Evaluate(d, c).Gate? {
        FiringStepIsNew(d, c);
      }
    }
  }

  /** What the ladder would do with the ticker's position at this price. */
  function LadderExit(cfg: Config, b: Book, d: Decision, price: real): Option<Exit>
    requires AvgPriceFor(b.rows, d.symbol) > 0.0
  {
    var q, avg := PositionFor(b.rows, d.symbol), AvgPriceFor(b.rows, d.symbol);
    ProfitLadder(cfg.settings, PnlPct(q, avg, price), q, d.signal, StepsAt(b.stepsDone, KeyOf(b.rows, d.symbol)))
  }

  lemma RungId(s: Settings, step: StepId)
    requires LadderConfigured(s) && RungPct(s, step) > 0.0
    ensures ProfitStepId(RungPct(s, step), s) == Some(step)
  {}

  /** The gate of a rung that the ladder takes. */
  lemma RungIsGate(d: Decision, c: Context, step: StepId)
    requires c.settings.riskEnabled && c.settings.profitTakeEnabled && RiskTrim(d, c).None? && c.lastPrice > 0.0
    requires PositionFor(c.positions, d.symbol) != 0 && AvgPriceFor(c.positions, d.symbol) > 0.0
    requires var q, avg := PositionFor(c.positions, d.symbol), AvgPriceFor(c.positions, d.symbol);
      var exit := ProfitLadder(c.settings, PnlPct(q, avg, c.lastPrice), q, d.signal, c.stepsDone);
      exit.Some? && exit.value.stepPct == RungPct(c.settings, step)
    ensures var q, avg := PositionFor(c.positions, d.symbol), AvgPriceFor(c.positions, d.symbol);
      var e := ProfitLadder(c.settings, PnlPct(q, avg, c.lastPrice), q, d.signal, c.stepsDone).value;
      var g := Evaluate(d, c);
      && g.Gate? && g.allowed && g.qty == Some(e.qty) && g.op == Some(ExitOp(e.isStop, q)) && g.flipCloseQty.None?
      && g.metrics.profitStep == Some(RungPct(c.settings, step))
  {
    hide RiskTrim, ProfitLadder, PnlPct, PositionFor, AvgPriceFor, LotSizeFor, Notional, PlanFor, ClosesOnly, RungPct;
  }

  /** Every fill that a rung causes carries it: if the ladder exits at a rung's
      threshold, the resolved step is that rung at the position's key. */
  lemma RungIsRecorded(cfg: Config, b: Book, history: Prices, nav: real, d: Decision, price: real, step: StepId)
    requires cfg.applyRisk && cfg.settings.riskEnabled && cfg.settings.profitTakeEnabled && price > 0.0
    requires LadderConfigured(cfg.settings) && RungPct(cfg.settings, step) > 0.0 && UniqueSecids(b.rows)
    requires RiskTrim(d, EngineContext(cfg, b, history, nav, d.symbol, price)).None?
    requires PositionFor(b.rows, d.symbol) != 0 && AvgPriceFor(b.rows, d.symbol) > 0.0
    requires var exit := LadderExit(cfg, b, d, price); exit.Some? && exit.value.stepPct == RungPct(cfg.settings, step)
    ensures var res := Resolve(cfg, b, history, nav, d, price);
      && res.Resolved? && !res.opening && res.lots == LadderExit(cfg, b, d, price).value.qty
      && KeyOf(b.rows, d.symbol).Some? && res.step == Some((KeyOf(b.rows, d.symbol).value, step))
  {
    var c := EngineContext(cfg, b, history, nav, d.symbol, price);
    NonZeroLookup(b.rows, d.symbol);
    RungId(cfg.settings, step);
    hide Evaluate, ProfitLadder, PnlPct, PositionFor, AvgPriceFor, RiskTrim, NonZeroRows, StepsAt, RungPct,
         ProfitStepId, Round6;
    assert PositionFor(c.positions, d.symbol) == PositionFor(b.rows, d.symbol);
    RungIsGate(d, c, step);
  }

  lemma ExecuteKeepsLadder(cfg: Config, b: Book, t: int, secid: string, delta: int, price: real,
                           step: Option<(StepKey, StepId)>)
    requires LadderRecorded(b)
    requires step.Some? ==> step.value.1 !in StepsAt(b.stepsDone, Some(step.value.0))
    ensures LadderRecorded(Execute(cfg, b, t, secid, delta, price, step))
  {
    hide LotSizeFor, PositionFor, AvgPriceFor, FillRows, TradeCommission, Realized, CashAfter, RecordHolding;
    var b' := Execute(cfg, b, t, secid, delta, price, step);
    var n := |b.trades|;
    forall i | 0 <= i < |b'.trades| && b'.trades[i].step.Some?
      ensures b'.trades[i].step.value.1 in StepsAt(b'.stepsDone, Some(b'.trades[i].step.value.0))
    {
      if i < n {
        assert b'.trades[i] == b.trades[i];
      }
    }
    forall i, j | 0 <= i < j < |b'.trades| && b'.trades[i].step.Some?
      ensures b'.trades[i].step != b'.trades[j].step
    {
      assert b'.trades[i] == b.trades[i];
      if j < n {
        assert b'.trades[j] == b.trades[j];
      }
    }
  }

  lemma ExecuteKeepsHoldings(cfg: Config, b: Book, t: int, secid: string, delta: int, price: real,
                             step: Option<(StepKey, StepId)>)
    requires UniqueSecids(b.rows) && HoldingsRecorded(b) && delta != 0
    ensures UniqueSecids(Execute(cfg, b, t, secid, delta, price, step).rows)
    ensures HoldingsRecorded(Execute(cfg, b, t, secid, delta, price, step))
  {
    hide LotSizeFor, PositionFor, AvgPriceFor, FillRows, TradeCommission, Realized, CashAfter, EngineAverage, StepsAt;
    FillRowsLookup(b.rows, secid, delta, price);
    var b' := Execute(cfg, b, t, secid, delta, price, step);
    forall other ensures other in b'.openedAt <==> PositionFor(b'.rows, other) != 0 {
      if other != secid {
        FillRowsFrame(b.rows, secid, delta, price, other);
      }
    }
  }

  /** A holding duration is recorded exactly when a profit is realized. */
  lemma ExecuteKeepsDurations(cfg: Config, b: Book, t: int, secid: string, delta: int, price: real,
                              step: Option<(StepKey, StepId)>)
    requires |b.holdings| == |b.tradePnls| && delta != 0
    ensures var b' := Execute(cfg, b, t, secid, delta, price, step); |b'.holdings| == |b'.tradePnls|
  {
    hide LotSizeFor, PositionFor, AvgPriceFor, FillRows, TradeCommission, Notional, CashAfter, StepsAt;
  }

  lemma SignalStepKeepsInvariant(cfg: Config, prices: Prices, t: nat, history: Prices, nav: real, b: Book, d: Decision)
    requires RunInvariant(cfg, b) && LadderConfigured(cfg.settings)
    ensures RunInvariant(cfg, SignalStep(cfg, prices, t, history, nav, b, d))
  {
    hide Resolve, Execute, LotSizeFor, Notional, Slipped, ExecutionPrice, PositionFor, StepsAt, KeyOf,
         LadderConfigured;
    if !b.raised && !Skips(cfg, b, d) && d.symbol in prices && ExecutionPrice(prices, d.symbol, t + 1).Some? {
      var raw := ExecutionPrice(prices, d.symbol, t + 1).value;
      var r := Resolve(cfg, b, history, nav, d, raw);
      ResolvedStepIsNew(cfg, b, history, nav, d, raw);
      if r.Resolved? && r.lots > 0 {
        var sign := SignOf(d, r.op);
        ExecuteKeepsLadder(cfg, b, t + 1, d.symbol, sign * r.lots, Slipped(raw, sign, cfg.slippage), r.step);
        ExecuteKeepsHoldings(cfg, b, t + 1, d.symbol, sign * r.lots, Slipped(raw, sign, cfg.slippage), r.step);
        ExecuteKeepsDurations(cfg, b, t + 1, d.symbol, sign * r.lots, Slipped(raw, sign, cfg.slippage), r.step);
      }
    }
  }

  lemma {:induction false} RunSignalsKeepsInvariant(cfg: Config, prices: Prices, t: nat, history: Prices, nav: real,
                                                    b: Book, ds: seq<Decision>)
    requires RunInvariant(cfg, b) && LadderConfigured(cfg.settings)
    ensures RunInvariant(cfg, RunSignals(cfg, prices, t, history, nav, b, ds))
  {
    if ds != [] {
      hide SignalStep, RunInvariant, LadderConfigured;
      RunSignalsKeepsInvariant(cfg, prices, t, history, nav, b, ds[..|ds| - 1]);
      SignalStepKeepsInvariant(cfg, prices, t, history, nav,
                               RunSignals(cfg, prices, t, history, nav, b, ds[..|ds| - 1]), ds[|ds| - 1]);
    }
  }

  lemma InvariantIgnoresSpendAndEquity(cfg: Config, b: Book, spent: real, equity: seq<NavPoint>)
    requires RunInvariant(cfg, b)
    ensures RunInvariant(cfg, b.(spent := spent)) && RunInvariant(cfg, b.(equity := equity))
  {
    hide PositionFor, StepsAt;
  }

  lemma BarStepKeepsInvariant(cfg: Config, prices: Prices, t: nat, b: Book)
    requires RunInvariant(cfg, b) && LadderConfigured(cfg.settings)
    ensures RunInvariant(cfg, BarStep(cfg, prices, t, b))
  {
    hide LadderConfigured, RunSignals, SignalsAt, HistoryAt, Nav, RunInvariant, DayOf;
    if !b.raised {
      InvariantIgnoresSpendAndEquity(cfg, b, 0.0, []);
      var history, nav := HistoryAt(prices, t), Nav(prices, t, cfg.lotSizes, b.cash, b.rows);
      var ds := SignalsAt(cfg, prices, t, b);
      RunSignalsKeepsInvariant(cfg, prices, t, history, nav, b.(spent := 0.0), ds);
      var b' := RunSignals(cfg, prices, t, history, nav, b.(spent := 0.0), ds);
      InvariantIgnoresSpendAndEquity(cfg, b', 0.0,
        b'.equity + [NavPoint(DayOf(cfg, t + 1), Nav(prices, t + 1, cfg.lotSizes, b'.cash, b'.rows))]);
    }
  }

  lemma OpeningBookInvariant(cfg: Config)
    ensures RunInvariant(cfg, OpeningBook(cfg))
  {
    assert forall secid :: PositionFor([], secid) == 0;
  }

  lemma {:induction false} InvariantAtEveryBar(cfg: Config, prices: Prices, t: nat)
    requires t >= cfg.warmup && LadderConfigured(cfg.settings)
    ensures RunInvariant(cfg, BookAt(cfg, prices, t))
  {
    hide LadderConfigured, BarStep, RunInvariant, OpeningBook;
    if t == cfg.warmup {
      OpeningBookInvariant(cfg);
    } else {
      InvariantAtEveryBar(cfg, prices, t - 1);
      BarStepKeepsInvariant(cfg, prices, t - 1, BookAt(cfg, prices, t - 1));
    }
  }

  /** Along any run each rung executes at most once per ticker, side and rounded
      average price, given thresholds that can be told apart. */
  lemma LadderFiresOnce(cfg: Config, prices: Prices, t: nat, i: nat, j: nat)
    requires t >= cfg.warmup && LadderConfigured(cfg.settings)
    requires i < |BookAt(cfg, prices, t).trades| && j < |BookAt(cfg, prices, t).trades|
    requires BookAt(cfg, prices, t).trades[i].step.Some?
    requires BookAt(cfg, prices, t).trades[i].step == BookAt(cfg, prices, t).trades[j].step
    ensures i == j
  {
    InvariantAtEveryBar(cfg, prices, t);
    hide BookAt;
  }

  /** A ladder trade is keyed by the position it reduces, and a partial close
      keeps that key: neither side nor average changes. */
  lemma PartialCloseKeepsKey(rows: seq<Position>, secid: string, delta: int, price: real)
    requires UniqueSecids(rows)
    requires ClosedLots(PositionFor(rows, secid), delta) > 0 && Abs(delta) < Abs(PositionFor(rows, secid))
    ensures KeyOf(FillRows(rows, secid, delta, price), secid) == KeyOf(rows, secid)
  {
    FillRowsLookup(rows, secid, delta, price);
    hide FillRows, PositionFor, AvgPriceFor, Round6;
  }
}
