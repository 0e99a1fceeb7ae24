/** A backtest against its own trade log: positions, cash and profits are what
    the trades make them, and every holding has the bar it was opened on. */
module EngineLedger {
  import opened Money
  import opened Portfolio
  import opened Risk
  import opened Simulation
  import opened Engine
  import opened EngineBooks
  import opened EngineRuns

  // ---- Sums over the trade log -------------------------------------------

  function LotsTraded(trades: seq<Trade>, secid: string): int {
    if trades == [] then 0
    else
      var last := trades[|trades| - 1];
      LotsTraded(trades[..|trades| - 1], secid) + if last.secid == secid then last.delta else 0
  }

  /** Money paid for all trades: signed value plus commission. */
  function Paid(trades: seq<Trade>, lotSizes: map<string, int>): real {
    if trades == [] then 0.0
    else
      var last := trades[|trades| - 1];
      Paid(trades[..|trades| - 1], lotSizes)
      + (Notional(last.delta, LotSizeFor(last.secid, lotSizes), last.price) + last.commission)
  }

  function ProfitsOf(trades: seq<Trade>): seq<real> {
    if trades == [] then []
    else
      var last := trades[|trades| - 1];
      ProfitsOf(trades[..|trades| - 1]) + if last.realized.Some? then [last.realized.value] else []
  }

  lemma LogGrows(trades: seq<Trade>, trade: Trade, lotSizes: map<string, int>)
    ensures var all := trades + [trade];
      && (forall secid ::
            LotsTraded(all, secid) == LotsTraded(trades, secid) + if trade.secid == secid then trade.delta else 0)
      && Paid(all, lotSizes) == Paid(trades, lotSizes)
           + (Notional(trade.delta, LotSizeFor(trade.secid, lotSizes), trade.price) + trade.commission)
      && ProfitsOf(all) == ProfitsOf(trades) + if trade.realized.Some? then [trade.realized.value] else []
  {
    hide Notional, LotSizeFor;
    assert (trades + [trade])[..|trades|] == trades;
  }

  /** Positions, cash and realized profits follow from the log alone. */
  ghost predicate LedgerAgrees(cfg: Config, b: Book) {
    && UniqueSecids(b.rows)
    && (forall secid :: PositionFor(b.rows, secid) == LotsTraded(b.trades, secid))
    && b.cash == cfg.initialCapital - Paid(b.trades, cfg.lotSizes)
    && b.tradePnls == ProfitsOf(b.trades)
    && forall i :: 0 <= i < |b.trades| ==> Charged(cfg, b.trades[i])
  }

  /** A trade moves at least one lot and pays the configured share of its value. */
  ghost predicate Charged(cfg: Config, trade: Trade) {
    trade.delta != 0
    && trade.commission
       == Notional(if trade.delta > 0 then trade.delta else -trade.delta, LotSizeFor(trade.secid, cfg.lotSizes),
                   trade.price) * cfg.commissionRate
  }

  lemma CommissionIsCharged(cfg: Config, secid: string, delta: int, price: real, realized: Option<real>,
                            step: Option<(StepKey, StepId)>)
    requires delta != 0
    ensures Charged(cfg, Trade(secid, delta, price,
                               TradeCommission(delta, LotSizeFor(secid, cfg.lotSizes), price, cfg.commissionRate),
                               realized, step))
  {
    hide LotSizeFor, Notional;
  }

  lemma ExecuteKeepsLedger(cfg: Config, b: Book, t: int, secid: string, delta: int, price: real,
                           step: Option<(StepKey, StepId)>)
    requires LedgerAgrees(cfg, b) && delta != 0
    ensures LedgerAgrees(cfg, Execute(cfg, b, t, secid, delta, price, step))
  {
    hide LotSizeFor, PositionFor, AvgPriceFor, FillRows, TradeCommission, Realized, Notional, Execute, Paid, LotsTraded,
         ProfitsOf, Charged;
    var lot := LotSizeFor(secid, cfg.lotSizes);
    var commission := TradeCommission(delta, lot, price, cfg.commissionRate);
    var realized := Realized(PositionFor(b.rows, secid), AvgPriceFor(b.rows, secid), delta, lot, price, commission);
    ExecuteFields(cfg, b, t, secid, delta, price, step);
    FillRowsLookup(b.rows, secid, delta, price);
    LogGrows(b.trades, Trade(secid, delta, price, commission, realized, step), cfg.lotSizes);
    CommissionIsCharged(cfg, secid, delta, price, realized, step);
    var b' := Execute(cfg, b, t, secid, delta, price, step);
    forall other ensures PositionFor(b'.rows, other) == LotsTraded(b'.trades, other) {
      if other != secid {
        FillRowsFrame(b.rows, secid, delta, price, other);
      }
    }
  }

  lemma SignalKeepsLedger(cfg: Config, prices: Prices, t: nat, history: Prices, nav: real, b: Book, d: Decision)
    requires LedgerAgrees(cfg, b)
    ensures LedgerAgrees(cfg, SignalStep(cfg, prices, t, history, nav, b, d))
  {
    hide Resolve, Execute, LotSizeFor, Notional, Slipped, ExecutionPrice, PositionFor, Paid, LotsTraded, ProfitsOf,
         Charged;
    if !b.raised && !Skips(cfg, b, d) && d.symbol in prices && ExecutionPrice(prices, d.symbol, t + 1).Some? {
      var raw := ExecutionPrice(prices, d.symbol, t + 1).value;
      var r := Resolve(cfg, b, history, nav, d, raw);
      if r.Resolved? && r.lots > 0 {
        var sign := SignOf(d, r.op);
        ExecuteKeepsLedger(cfg, b, t + 1, d.symbol, sign * r.lots, Slipped(raw, sign, cfg.slippage), r.step);
      }
    }
  }

  lemma {:induction false} SignalsKeepLedger(cfg: Config, prices: Prices, t: nat, history: Prices, nav: real, b: Book,
                                             ds: seq<Decision>)
    requires LedgerAgrees(cfg, b)
    ensures LedgerAgrees(cfg, RunSignals(cfg, prices, t, history, nav, b, ds))
  {
    if ds != [] {
      hide SignalStep, LedgerAgrees;
      SignalsKeepLedger(cfg, prices, t, history, nav, b, ds[..|ds| - 1]);
      SignalKeepsLedger(cfg, prices, t, history, nav, RunSignals(cfg, prices, t, history, nav, b, ds[..|ds| - 1]),
                        ds[|ds| - 1]);
    }
  }

  lemma BarKeepsLedger(cfg: Config, prices: Prices, t: nat, b: Book)
    requires LedgerAgrees(cfg, b)
    ensures LedgerAgrees(cfg, BarStep(cfg, prices, t, b))
  {
    hide RunSignals, SignalsAt, HistoryAt, Nav, DayOf, PositionFor, Paid, LotsTraded, ProfitsOf, Charged;
    if !b.raised {
      assert LedgerAgrees(cfg, b.(spent := 0.0));
      SignalsKeepLedger(cfg, prices, t, HistoryAt(prices, t), Nav(prices, t, cfg.lotSizes, b.cash, b.rows),
                        b.(spent := 0.0), SignalsAt(cfg, prices, t, b));
    }
  }

  lemma OpeningLedger(cfg: Config)
    ensures LedgerAgrees(cfg, OpeningBook(cfg))
  {
    assert forall secid :: PositionFor([], secid) == 0;
  }

  /** At every bar of every run each position is the sum of its ticker's trades,
      the cash is the capital less what the trades cost, the recorded profits are
      those of the trades, and each trade paid the commission rate. */
  lemma {:induction false} LedgerAtEveryBar(cfg: Config, prices: Prices, t: nat)
    requires t >= cfg.warmup
    ensures var b := BookAt(cfg, prices, t);
      && UniqueSecids(b.rows)
      && (forall secid :: PositionFor(b.rows, secid) == LotsTraded(b.trades, secid))
      && b.cash == cfg.initialCapital - Paid(b.trades, cfg.lotSizes)
      && b.tradePnls == ProfitsOf(b.trades)
      && forall i :: 0 <= i < |b.trades| ==> Charged(cfg, b.trades[i])
  {
    hide BarStep, OpeningBook, PositionFor, Paid, LotsTraded, ProfitsOf, Charged;
    if t == cfg.warmup {
      OpeningLedger(cfg);
    } else {
      LedgerAtEveryBar(cfg, prices, t - 1);
      BarKeepsLedger(cfg, prices, t - 1, BookAt(cfg, prices, t - 1));
    }
  }

  // ---- Opening bars and holding times ------------------------------------

  predicate SameSign(q: int, r: int) { (q > 0 && r > 0) || (q < 0 && r < 0) }

  /** Open positions are recorded since a bar between the first one that can
      trade and the latest. */
  ghost predicate OpenedWithin(b: Book, from: int, to: int) {
    && UniqueSecids(b.rows)
    && HoldingsRecorded(b)
    && forall secid :: secid in b.openedAt ==> from <= b.openedAt[secid] <= to
  }

  /** How a fill on bar t from q to q' lots moves the record of the ticker. */
  ghost predicate HoldingMoves(b: Book, b': Book, secid: string, t: int) {
    var q, q' := PositionFor(b.rows, secid), PositionFor(b'.rows, secid);
    if q == 0 && q' != 0 then b'.openedAt == b.openedAt[secid := t] && b'.holdings == b.holdings
    else if q == 0 || q' == q then b'.openedAt == b.openedAt && b'.holdings == b.holdings
    else
      secid in b.openedAt
      && (if SameSign(q, q') then b'.openedAt == b.openedAt
          else if q' == 0 then b'.openedAt == b.openedAt - {secid}
          else b'.openedAt == b.openedAt[secid := t])
      && (if SameSign(q, q') && (q' > q) == (q > 0) then b'.holdings == b.holdings
          else b'.holdings == b.holdings + [t - b.openedAt[secid]])
  }

  lemma ExecuteMovesHolding(cfg: Config, b: Book, t: int, secid: string, delta: int, price: real,
                            step: Option<(StepKey, StepId)>, from: int)
    requires OpenedWithin(b, from, t) && delta != 0 && from <= t
    ensures var b' := Execute(cfg, b, t, secid, delta, price, step);
      && HoldingMoves(b, b', secid, t) && OpenedWithin(b', from, t)
      && forall other :: other != secid ==> PositionFor(b'.rows, other) == PositionFor(b.rows, other)
  {
    hide LotSizeFor, PositionFor, AvgPriceFor, FillRows, TradeCommission, Realized, CashAfter, EngineAverage, StepsAt;
    FillRowsLookup(b.rows, secid, delta, price);
    var b' := Execute(cfg, b, t, secid, delta, price, step);
    forall other ensures other != secid ==> PositionFor(b'.rows, other) == PositionFor(b.rows, other) {
      if other != secid {
        FillRowsFrame(b.rows, secid, delta, price, other);
      }
    }
  }

  /** Every fill records the time the closed lots were held, in bars since the
      position was opened, and nothing else moves the record. */
  lemma HoldingTimes(cfg: Config, prices: Prices, t: nat, history: Prices, nav: real, b: Book, d: Decision, from: int)
    requires OpenedWithin(b, from, t + 1) && from <= t + 1
    ensures var b' := SignalStep(cfg, prices, t, history, nav, b, d);
      && HoldingMoves(b, b', d.symbol, t + 1) && OpenedWithin(b', from, t + 1)
      && forall other :: other != d.symbol ==> PositionFor(b'.rows, other) == PositionFor(b.rows, other)
  {
    hide Resolve, Execute, LotSizeFor, Notional, Slipped, ExecutionPrice, PositionFor;
    if !b.raised && !Skips(cfg, b, d) && d.symbol in prices && ExecutionPrice(prices, d.symbol, t + 1).Some? {
      var raw := ExecutionPrice(prices, d.symbol, t + 1).value;
      var r := Resolve(cfg, b, history, nav, d, raw);
      if r.Resolved? && r.lots > 0 {
        var sign := SignOf(d, r.op);
        ExecuteMovesHolding(cfg, b, t + 1, d.symbol, sign * r.lots, Slipped(raw, sign, cfg.slippage), r.step, from);
      }
    }
  }

  /** A ticker is recorded since this bar, or as before and on the same side. */
  ghost predicate KeptOrNew(b: Book, b': Book, secid: string, t: int) {
    secid in b'.openedAt ==>
      b'.openedAt[secid] == t
      || (secid in b.openedAt && b'.openedAt[secid] == b.openedAt[secid]
          && SameSign(PositionFor(b.rows, secid), PositionFor(b'.rows, secid)))
  }

  lemma SignalKeptOrNew(cfg: Config, prices: Prices, t: nat, history: Prices, nav: real, b: Book, d: Decision,
                        from: int, secid: string)
    requires OpenedWithin(b, from, t + 1) && from <= t + 1
    ensures KeptOrNew(b, SignalStep(cfg, prices, t, history, nav, b, d), secid, t + 1)
  {
    hide SignalStep, PositionFor;
    HoldingTimes(cfg, prices, t, history, nav, b, d, from);
  }

  lemma {:induction false} SignalsKeptOrNew(cfg: Config, prices: Prices, t: nat, history: Prices, nav: real, b: Book,
                                            ds: seq<Decision>, from: int, secid: string)
    requires OpenedWithin(b, from, t + 1) && from <= t + 1
    ensures var b' := RunSignals(cfg, prices, t, history, nav, b, ds);
      OpenedWithin(b', from, t + 1) && KeptOrNew(b, b', secid, t + 1)
  {
    hide SignalStep, PositionFor;
    if ds != [] {
      var n := |ds| - 1;
      SignalsKeptOrNew(cfg, prices, t, history, nav, b, ds[..n], from, secid);
      var before := RunSignals(cfg, prices, t, history, nav, b, ds[..n]);
      HoldingTimes(cfg, prices, t, history, nav, before, ds[n], from);
      SignalKeptOrNew(cfg, prices, t, history, nav, before, ds[n], from, secid);
    }
  }

  lemma BarKeptOrNew(cfg: Config, prices: Prices, t: nat, b: Book, from: int, secid: string)
    requires OpenedWithin(b, from, t + 1) && from <= t + 1
    ensures var b' := BarStep(cfg, prices, t, b); OpenedWithin(b', from, t + 1) && KeptOrNew(b, b', secid, t + 1)
  {
    hide RunSignals, SignalsAt, HistoryAt, Nav, DayOf, PositionFor;
    if !b.raised {
      SignalsKeptOrNew(cfg, prices, t, HistoryAt(prices, t), Nav(prices, t, cfg.lotSizes, b.cash, b.rows),
                       b.(spent := 0.0), SignalsAt(cfg, prices, t, b), from, secid);
    }
  }

  lemma OpeningOpened(cfg: Config)
    ensures OpenedWithin(OpeningBook(cfg), cfg.warmup + 1, cfg.warmup)
  {
    assert forall secid :: PositionFor([], secid) == 0;
  }

  /** At every bar, each open position is on record since some bar after the
      warm-up, and at every bar since then it was held on the side of now. */
  lemma {:induction false} HeldSinceRecorded(cfg: Config, prices: Prices, t: nat, secid: string)
    requires t >= cfg.warmup
    ensures var b := BookAt(cfg, prices, t);
      && (secid in b.openedAt <==> PositionFor(b.rows, secid) != 0)
      && (secid in b.openedAt ==>
            cfg.warmup < b.openedAt[secid] <= t
            && forall k :: b.openedAt[secid] <= k <= t ==>
                 SameSign(PositionFor(BookAt(cfg, prices, k).rows, secid), PositionFor(b.rows, secid)))
    ensures OpenedWithin(BookAt(cfg, prices, t), cfg.warmup + 1, t)
  {
    hide BarStep, OpeningBook, PositionFor;
    if t == cfg.warmup {
      OpeningOpened(cfg);
    } else {
      HeldSinceRecorded(cfg, prices, t - 1, secid);
      BarKeptOrNew(cfg, prices, t - 1, BookAt(cfg, prices, t - 1), cfg.warmup + 1, secid);
    }
  }
}
