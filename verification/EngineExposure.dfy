/** Exposure in the backtest. In the standard cash model open shorts lift the
    cash above the NAV, so the Risk Officer's caps reach less far than live. */
module EngineExposure {
  import opened Money
  import opened Portfolio
  import opened Operations
  import opened Risk
  import opened RiskProperties
  import opened Openings
  import opened PlainOpenings
  import opened RiskLimits
  import opened TickLimits
  import opened Simulation
  import opened Engine
  import opened Agreement
  import opened EngineBooks
  import TickExposure
  import Accounting
  import Fills
  import Trim

  /** After any opening of a backtest the position, at the price it was decided
      on, is worth at most the cap's share of the larger of cash and NAV. */
  lemma BacktestOpeningBound(cfg: Config, b: Book, history: Prices, nav: real, d: Decision, price: real)
    requires cfg.applyRisk && UniqueSecids(b.rows) && nav > 0.0
    requires var res := Resolve(cfg, b, history, nav, d, price);
      res.Resolved? && res.lots > 0 && res.op.Some? && IsOpening(res.op.value)
    ensures var res := Resolve(cfg, b, history, nav, d, price);
      var after := PositionFor(b.rows, d.symbol) + SignOf(d, res.op) * res.lots;
      Notional(Abs(after), LotSizeFor(d.symbol, cfg.lotSizes), price)
         <= cfg.settings.maxInstrumentWeight * MaxReal(b.cash, nav)
  {
    hide Evaluate, EngineContext, Resolve, PositionFor, FitsPosition, SignOf, TakenFrom, IsOpening, IsOpeningGate,
         PlanFor, LotSizeFor, Notional, OpeningPassed, OpenMetrics, OpenedQty;
    var c := EngineContext(cfg, b, history, nav, d.symbol, price);
    var g, res, q := Evaluate(d, c), Resolve(cfg, b, history, nav, d, price), PositionFor(b.rows, d.symbol);
    ResolutionOf(cfg, b, history, nav, d, price);
    EngineLots(cfg, b, history, nav, d.symbol, price);
    EngineMoney(cfg, b, history, nav, d.symbol, price);
    EvaluateFitsPosition(d, c);
    TakenLots(g, res, d.signal, q, cfg.settings.allowFlip);
    OpeningOpsPassedTheGates(d, c);
    OpeningHasPassed(d, c);
    TickExposure.PlanBase(d, c);
    OpenedMove(d, g, res, q, cfg.settings.allowFlip);
    ScaledCapHolds(d, c);
  }

  lemma EngineMoney(cfg: Config, b: Book, history: Prices, nav: real, secid: string, price: real)
    ensures var c := EngineContext(cfg, b, history, nav, secid, price); c.cash == b.cash && c.nav == nav
  {
    hide PositionFor, NonZeroRows, StepsAt, KeyOf;
  }

  /** An opening extends the position by the opened lots, a flip leaves just those. */
  lemma OpenedMove(d: Decision, g: Gate, res: Resolution, q: int, allowFlip: bool)
    requires FitsPosition(g, d.signal, q, allowFlip) && res.Resolved? && TakenFrom(res, g)
    requires g.allowed && g.op.Some? && IsOpening(g.op.value) && res.op == g.op && res.lots > 0
    ensures Abs(q + SignOf(d, res.op) * res.lots) == (if g.flipCloseQty.Some? then 0 else Abs(q)) + OpenedQty(g)
  {}

  // ---- How far the caps reach --------------------------------------------

  /** The NAV that every signal of bar t is decided against, computed once per bar. */
  function BarNav(cfg: Config, prices: Prices, t: nat): real
    requires t >= cfg.warmup
  {
    var b := BookAt(cfg, prices, t);
    Nav(prices, t, cfg.lotSizes, b.cash, b.rows)
  }

  function BarSignals(cfg: Config, prices: Prices, t: nat): seq<Decision>
    requires t >= cfg.warmup
  {
    SignalsAt(cfg, prices, t, BookAt(cfg, prices, t))
  }

  /** The book when signal k of bar t is decided: the signals before it have filled. */
  function BookBefore(cfg: Config, prices: Prices, t: nat, k: nat): Book
    requires t >= cfg.warmup && k <= |BarSignals(cfg, prices, t)|
  {
    RunSignals(cfg, prices, t, HistoryAt(prices, t), BarNav(cfg, prices, t), BookAt(cfg, prices, t).(spent := 0.0),
               BarSignals(cfg, prices, t)[..k])
  }

  /** Signal k of bar t comes up in a run, valid and with an execution price. */
  ghost predicate Decides(cfg: Config, prices: Prices, t: nat, k: nat, price: real) {
    && cfg.applyRisk && t >= cfg.warmup && k < |BarSignals(cfg, prices, t)|
    && !BookBefore(cfg, prices, t, k).raised
    && var d := BarSignals(cfg, prices, t)[k];
       ValidDecision(d) && !Skips(cfg, BookBefore(cfg, prices, t, k), d)
         && ExecutionPrice(prices, d.symbol, t + 1) == Some(price)
  }

  /** The Risk Officer's context for signal k of bar t: fresh book, NAV of the bar's start. */
  function ContextOf(cfg: Config, prices: Prices, t: nat, k: nat, price: real): Context
    requires t >= cfg.warmup && k < |BarSignals(cfg, prices, t)|
  {
    EngineContext(cfg, BookBefore(cfg, prices, t, k), HistoryAt(prices, t), BarNav(cfg, prices, t),
                  BarSignals(cfg, prices, t)[k].symbol, price)
  }

  ghost predicate DecidedAt(cfg: Config, prices: Prices, t: nat, k: nat, s: Settings, cash: real, nav: real)
    requires t >= cfg.warmup && k < |BarSignals(cfg, prices, t)|
  {
    cfg.settings == s && BookBefore(cfg, prices, t, k).cash == cash && BarNav(cfg, prices, t) == nav
  }

  /** Both caps hold after every opening that any run decides with this cash and bar NAV. */
  ghost predicate BacktestCapsHold(s: Settings, cash: real, nav: real)
    requires nav > 0.0
  {
    forall cfg: Config, prices: Prices, t: nat, k: nat, price: real ::
      Decides(cfg, prices, t, k, price) && DecidedAt(cfg, prices, t, k, s, cash, nav) ==>
        OpensWithinCaps(BarSignals(cfg, prices, t)[k], ContextOf(cfg, prices, t, k, price))
  }

  ghost predicate OpensWithinCaps(d: Decision, c: Context) {
    c.nav > 0.0 && (IsOpeningGate(Evaluate(d, c)) ==>
      OpenedWeight(d, c) <= c.settings.maxInstrumentWeight && OpenedSector(d, c) <= c.settings.maxSectorWeight)
  }

  // ---- An opening as a fill ----------------------------------------------

  function SignedLots(d: Decision, qty: int): int { if d.signal.Buy? then qty else -qty }

  /** Book `b'` is `b` after `delta` lots traded at `price`, apart from records of the trade. */
  ghost predicate FilledBook(cfg: Config, b: Book, b': Book, secid: string, delta: int, price: real) {
    && !b'.raised && b'.equity == b.equity
    && b'.rows == FillRows(b.rows, secid, delta, price)
    && b'.cash == CashAfter(b.cash, delta, LotSizeFor(secid, cfg.lotSizes), price,
                            TradeCommission(delta, LotSizeFor(secid, cfg.lotSizes), price, cfg.commissionRate))
  }

  /** A decision whose lots fit is filled with exactly those lots. */
  lemma OpeningFills(cfg: Config, prices: Prices, t: nat, history: Prices, nav: real, b: Book, d: Decision, raw: real,
                     held: int, size: real, qty: int)
    requires cfg.applyRisk && UniqueSecids(b.rows) && !b.raised && d.sizePct > 0.0 && cfg.slippage == 0.0
    requires d.symbol in prices && ExecutionPrice(prices, d.symbol, t + 1) == Some(raw)
    requires LotsFit(d, EngineContext(cfg, b, history, nav, d.symbol, raw), held, size, qty)
    ensures FilledBook(cfg, b, SignalStep(cfg, prices, t, history, nav, b, d), d.symbol, SignedLots(d, qty), raw)
  {
    var c := EngineContext(cfg, b, history, nav, d.symbol, raw);
    assert !d.signal.Hold? && qty >= 1;
    hide Evaluate, EngineContext, Resolve, PositionFor, AvgPriceFor, FitsPosition, TakenFrom, IsOpening,
         IsOpeningGate, LotsFit, OpenedQty, OpenMetrics, PlanFor, IsFlip, SignalStep, ExecutionPrice, UniqueSecids,
         FilledBook, Notional, WithCommission, SignOf;
    FittingLotsOpen(d, c, held, size, qty);
    ResolutionOf(cfg, b, history, nav, d, raw);
    EngineLots(cfg, b, history, nav, d.symbol, raw);
    EvaluateFitsPosition(d, c);
    OpenedLotsTaken(d, Evaluate(d, c), Resolve(cfg, b, history, nav, d, raw), PositionFor(b.rows, d.symbol),
                    cfg.settings.allowFlip);
    SignalFills(cfg, prices, t, history, nav, b, d, raw, SignedLots(d, qty));
  }

  /** A resolved signal is filled at the execution price when there is no slippage. */
  lemma SignalFills(cfg: Config, prices: Prices, t: nat, history: Prices, nav: real, b: Book, d: Decision, raw: real,
                    delta: int)
    requires !b.raised && !d.signal.Hold? && d.sizePct > 0.0 && cfg.slippage == 0.0
    requires d.symbol in prices && ExecutionPrice(prices, d.symbol, t + 1) == Some(raw)
    requires var res := Resolve(cfg, b, history, nav, d, raw);
      res.Resolved? && res.lots > 0 && SignOf(d, res.op) * res.lots == delta
    ensures FilledBook(cfg, b, SignalStep(cfg, prices, t, history, nav, b, d), d.symbol, delta, raw)
  {
    hide Resolve, Execute, LotSizeFor, Notional, ExecutionPrice, PositionFor, SignOf, FillRows, TradeCommission,
         CashAfter;
    var res := Resolve(cfg, b, history, nav, d, raw);
    Unslipped(raw, SignOf(d, res.op));
    ExecuteBook(cfg, b, t + 1, d.symbol, delta, raw, res.step);
  }

  lemma Unslipped(raw: real, sign: int)
    ensures Slipped(raw, sign, 0.0) == raw
  {}

  lemma OpenedLotsTaken(d: Decision, g: Gate, res: Resolution, q: int, allowFlip: bool)
    requires FitsPosition(g, d.signal, q, allowFlip) && res.Resolved? && TakenFrom(res, g)
    requires g.allowed && g.op.Some? && IsOpening(g.op.value) && !IsFlip(g.op.value)
    ensures res.lots == OpenedQty(g) && SignOf(d, res.op) == (if d.signal.Buy? then 1 else -1)
  {}

  lemma ExecuteBook(cfg: Config, b: Book, t: int, secid: string, delta: int, price: real,
                    step: Option<(StepKey, StepId)>)
    requires !b.raised
    ensures FilledBook(cfg, b, Execute(cfg, b, t, secid, delta, price, step), secid, delta, price)
  {
    hide LotSizeFor, PositionFor, AvgPriceFor, FillRows, TradeCommission, Realized, RecordHolding, StepsAt, CashAfter;
  }

  // ---- The run -----------------------------------------------------------

  /** A run that ends with cash above NAV and a position just below the tighter
      cap: short the other ticker, let its price set the NAV, then buy one lot
      of the traded ticker per bar until one more is one too many. */
  datatype Course = Course(s: Settings, cash: real, nav: real, n: nat, p: real)

  /** Relative size of the first short: within the caps and the tick budget. */
  function FirstSize(s: Settings): real {
    MinReal(SizeLimit(s), if s.maxTickBuyPct > 0.0 then Share(s.maxTickBuyPct, 1.0 + CommissionRate(s)) else 1.0)
  }

  ghost predicate Planned(x: Course) {
    && Permissive(x.s) && x.s.cashBuffer < 1.0 && x.cash > x.nav > 0.0 && x.n >= 1 && x.p > 0.0
    && exists size :: OneTooMany(x.s, x.cash, x.nav, x.n, x.p, size)
  }

  /** Cash while `left` lots are still to be bought. */
  function CashWith(x: Course, left: int): real { x.cash + Notional(left, 1, x.p) }

  function Capital(x: Course): real
    requires 1.0 + FirstSize(x.s) != 0.0
  {
    Share(CashWith(x, x.n), 1.0 + FirstSize(x.s))
  }

  function FirstPrice(x: Course): real
    requires 1.0 + FirstSize(x.s) != 0.0
  {
    Allotment(Capital(x), FirstSize(x.s))
  }

  /** Close of the other ticker that makes the short cost all cash above the NAV. */
  function OtherClose(x: Course): real { CashWith(x, x.n) - x.nav }

  function FlatBar(price: real): Option<Bar> { Some(Bar(price, price, price, price, 0.0)) }

  function OtherBar(x: Course, i: nat): Option<Bar>
    requires 1.0 + FirstSize(x.s) != 0.0
  {
    if i == 0 then FlatBar(FirstPrice(x))
      else Some(Bar(FirstPrice(x), OtherClose(x), OtherClose(x), OtherClose(x), 0.0))
  }

  function CoursePrices(x: Course): Prices
    requires 1.0 + FirstSize(x.s) != 0.0
  {
    map[TICKER := seq(x.n + 3, i requires 0 <= i < x.n + 3 => FlatBar(x.p)),
        OTHER_TICKER := seq(x.n + 3, i requires 0 <= i < x.n + 3 => OtherBar(x, i))]
  }

  function LotsSeen(v: View): int { if TICKER in v.lots then v.lots[TICKER] else 0 }

  /** Size that buys one lot with the cash at hand. */
  function OneLotSize(price: real, cash: real): real { if cash > 0.0 then Share(price, cash) else 0.0 }

  function CourseSignal(x: Course, v: View): Decision {
    if OTHER_TICKER !in v.lots then Decision(OTHER_TICKER, Sell, FirstSize(x.s), 1.0)
    else if LotsSeen(v) < x.n then Decision(TICKER, Buy, OneLotSize(x.p, v.cash), 1.0)
    else Decision(TICKER, Buy, 1.0, 1.0)
  }

  /** No costs, flat volatility, two sectors; the calendar is never today's. */
  function CourseConfig(x: Course): Config
    requires 1.0 + FirstSize(x.s) != 0.0
  {
    Config(x.s, Capital(x), 0.0, 0.0, true, 0, map[], map[OTHER_TICKER := OTHER_TICKER], [], 1,
           (history, view) => [CourseSignal(x, view)], series => (0.0, 0))
  }

  // ---- Arithmetic of the course ------------------------------------------

  lemma FirstSizeFacts(s: Settings)
    requires Permissive(s)
    ensures 0.0 < FirstSize(s) <= 1.0 && FirstSize(s) <= TightCap(s)
    ensures s.maxTickBuyPct > 0.0 ==> FirstSize(s) * (1.0 + CommissionRate(s)) <= s.maxTickBuyPct
  {
    hide CommissionRate;
    var gross, pct := 1.0 + CommissionRate(s), s.maxTickBuyPct;
    if pct > 0.0 {
      var y := Share(pct, gross);
      QuotientTimes(pct, gross);
      if y <= 0.0 {
        ScaleLess(y, 0.0, gross);
      }
      ScaleLess(FirstSize(s), y, gross);
    }
  }

  /** A capital that grows by its share f to the given total. */
  lemma CapitalReals(total: real, f: real, capital: real)
    requires total > 0.0 && f > 0.0 && capital * (1.0 + f) == total
    ensures capital > 0.0 && capital * f > 0.0 && capital + capital * f == total
  {
    if capital <= 0.0 {
      ScaleLess(capital, 0.0, 1.0 + f);
    }
    ProductPositive(capital, f);
  }

  lemma BudgetReals(f: real, gross: real, pct: real, capital: real)
    requires f * gross <= pct && capital > 0.0
    ensures (capital * f) * gross <= capital * pct
  {
    ScaleLess(f * gross, pct, capital);
    assert (capital * f) * gross == (f * gross) * capital;
  }

  lemma CashPositive(x: Course, left: int)
    requires x.cash > x.nav > 0.0 && x.p > 0.0 && left >= 0
    ensures CashWith(x, left) > x.nav
  {
    NotionalNonNegative(left, 1, x.p);
    hide Notional;
  }

  lemma CapitalFacts(x: Course)
    requires Planned(x)
    ensures 0.0 < FirstSize(x.s) <= 1.0
    ensures Capital(x) > 0.0 && FirstPrice(x) > 0.0 && OtherClose(x) > 0.0
    ensures Capital(x) + FirstPrice(x) == CashWith(x, x.n)
    ensures InBudget(FirstPrice(x), Capital(x), x.s)
  {
    hide FirstSize, CommissionRate, Permissive, OneTooMany, CashWith;
    FirstSizeFacts(x.s);
    CashPositive(x, x.n);
    QuotientTimes(CashWith(x, x.n), 1.0 + FirstSize(x.s));
    CapitalReals(CashWith(x, x.n), FirstSize(x.s), Capital(x));
    if x.s.maxTickBuyPct > 0.0 {
      BudgetReals(FirstSize(x.s), 1.0 + CommissionRate(x.s), x.s.maxTickBuyPct, Capital(x));
    }
  }

  /** With `left` lots still to buy, one lot fits size, cash buffer and budget. */
  lemma SizeFacts(x: Course, left: int)
    requires Planned(x) && 1 <= left <= x.n
    ensures var cash := CashWith(x, left); var z := OneLotSize(x.p, cash);
      && cash > x.nav && Allotment(cash, z) == x.p
      && 0.0 < z <= 1.0 && z <= TightCap(x.s) - Share(Notional(x.n - left, 1, x.p), x.nav)
      && InCash(x.p, cash, x.s) && InBudget(x.p, x.nav, x.s)
  {
    var size :| OneTooMany(x.s, x.cash, x.nav, x.n, x.p, size);
    hide OneTooMany, Permissive, TightCap, WithCommission, CashWith, Share, Notional, Allotment, OneLotSize;
    var cash, z := CashWith(x, left), OneLotSize(x.p, CashWith(x, left));
    CashPositive(x, left);
    LotsAboveCash(x, size, left);
    SizeOfOneLot(x.p, cash);
    RoomForOne(x, size, left, z);
    BufferAndBudget(x, size, cash);
  }

  lemma SizeOfOneLot(p: real, cash: real)
    requires 0.0 < p < cash
    ensures var z := OneLotSize(p, cash); 0.0 < z <= 1.0 && Allotment(cash, z) == p && z * cash == p
  {
    UnitShare(p, cash);
    hide Share;
  }

  lemma BufferAndBudget(x: Course, size: real, cash: real)
    requires OneTooMany(x.s, x.cash, x.nav, x.n, x.p, size) && x.s.cashBuffer < 1.0 && cash > x.nav
    ensures InCash(x.p, cash, x.s) && InBudget(x.p, x.nav, x.s)
  {
    hide TightCap, WithCommission, Notional, Allotment;
    ScaleLess(x.nav, cash, 1.0 - x.s.cashBuffer);
  }

  lemma RoomForOne(x: Course, size: real, left: int, z: real)
    requires OneTooMany(x.s, x.cash, x.nav, x.n, x.p, size) && 1 <= left <= x.n
    requires CashWith(x, left) > x.nav > 0.0 && z * CashWith(x, left) == x.p && z > 0.0
    ensures z <= TightCap(x.s) - Share(Notional(x.n - left, 1, x.p), x.nav)
  {
    hide TightCap, WithCommission, CashWith, Share, Notional;
    LotNotional(x.n - left, x.p);
    LotNotional(x.n, x.p);
    RoomLeft(TightCap(x.s), size, x.nav, x.p, left as real, x.n as real, CashWith(x, left), z);
    WeightIs(Notional(x.n - left, 1, x.p), x.nav, TightCap(x.s), z);
  }

  lemma LotsAboveCash(x: Course, size: real, left: int)
    requires OneTooMany(x.s, x.cash, x.nav, x.n, x.p, size) && left >= 1 && x.cash > 0.0
    ensures x.p < CashWith(x, left)
  {
    hide TightCap, WithCommission;
    ScaleLess(size, 1.0, x.cash);
    LotNotional(left, x.p);
    ProductPositive(left as real, x.p);
    hide Notional;
  }

  lemma UnitShare(p: real, cash: real)
    requires 0.0 < p < cash
    ensures 0.0 < Share(p, cash) <= 1.0 && Share(p, cash) * cash == p
  {
    QuotientTimes(p, cash);
    var y := Share(p, cash);
    hide Share;
    if y <= 0.0 {
      ScaleLess(y, 0.0, cash);
    } else if y > 1.0 {
      ScaleMore(y, 1.0, cash);
    }
  }

  /** The lots not yet bought leave more room than one lot's share of the cash. */
  lemma RoomLeft(k: real, size: real, nav: real, p: real, left: real, n: real, cash: real, z: real)
    requires left >= 1.0 && p > 0.0 && size > 0.0 && 0.0 < nav < cash && z * cash == p && z > 0.0
    requires n * p == (k - size) * nav
    ensures (n - left) * p <= (k - z) * nav
  {
    ScaleLess(1.0, left, p);
    ScaleLess(nav, cash, z);
    ProductPositive(size, nav);
    assert (n - left) * p == n * p - left * p;
    assert (k - size) * nav == k * nav - size * nav;
    assert (k - z) * nav == k * nav - z * nav;
  }

  lemma WeightIs(held: real, nav: real, k: real, z: real)
    requires nav > 0.0 && held <= (k - z) * nav
    ensures z <= k - Share(held, nav)
  {
    QuotientTimes(held, nav);
    var w := Share(held, nav);
    hide Share;
    if w > k - z {
      ScaleMore(w, k - z, nav);
    }
  }

  // ---- The books of the course -------------------------------------------

  function BoughtRow(x: Course, i: int): seq<Position> { if i > 0 then [NewRow(TICKER, i, x.p)] else [] }

  function ShortRow(x: Course): Position
    requires 1.0 + FirstSize(x.s) != 0.0
  {
    NewRow(OTHER_TICKER, -1, FirstPrice(x))
  }

  function CourseRows(x: Course, i: int): seq<Position>
    requires 1.0 + FirstSize(x.s) != 0.0
  {
    [ShortRow(x)] + BoughtRow(x, i)
  }

  /** The book once i lots of the traded ticker are bought. */
  ghost predicate OnCourse(x: Course, b: Book, i: int)
    requires 1.0 + FirstSize(x.s) != 0.0
  {
    && !b.raised && b.cash == CashWith(x, x.n - i) && b.rows == CourseRows(x, i)
    && forall k :: 0 <= k < |b.equity| ==> b.equity[k] == NavPoint(0, x.nav)
  }

  lemma RowsLookup(x: Course, i: int)
    requires i >= 0 && 1.0 + FirstSize(x.s) != 0.0
    ensures var rows := CourseRows(x, i);
      && UniqueSecids(rows) && WellFormed(rows, map[])
      && IndexOf(rows, TICKER) == (if i > 0 then 1 else -1)
      && PositionFor(rows, TICKER) == i && (i > 0 ==> AvgPriceFor(rows, TICKER) == x.p)
      && PositionFor(rows, OTHER_TICKER) == -1
      && NonZeroRows(rows) == rows
      && forall p :: p in rows && p.secid != TICKER ==> p.secid == OTHER_TICKER
  {
    var rows := CourseRows(x, i);
    assert TICKER != OTHER_TICKER;
    FirstIs(rows, 0, OTHER_TICKER);
    if i > 0 {
      assert rows == [ShortRow(x), NewRow(TICKER, i, x.p)];
      FirstIs(rows, 1, TICKER);
      TwoRowsKept(ShortRow(x), NewRow(TICKER, i, x.p));
    } else {
      assert rows == [ShortRow(x)];
      Fills.NoMatch(rows, TICKER);
      OneRowKept(ShortRow(x));
    }
  }

  lemma OneRowKept(p: Position)
    requires NonZero(p)
    ensures NonZeroRows([p]) == [p]
  {
    assert [p][..0] == [];
  }

  lemma TwoRowsKept(p: Position, q: Position)
    requires NonZero(p) && NonZero(q)
    ensures NonZeroRows([p, q]) == [p, q]
  {
    OneRowKept(p);
    assert [p, q][..1] == [p];
  }

  lemma OtherCloseAt(x: Course, t: nat)
    requires OtherClose(x) > 0.0 && 1.0 + FirstSize(x.s) != 0.0 && 1 <= t < x.n + 3
    ensures CloseAt(CoursePrices(x), OTHER_TICKER, t) == Some(OtherClose(x))
  {
    hide FirstSize, FirstPrice, OtherClose;
    assert TICKER != OTHER_TICKER;
    assert CoursePrices(x)[OTHER_TICKER][t] == OtherBar(x, t);
  }

  lemma OwnPriceAt(x: Course, t: nat)
    requires x.p > 0.0 && 1.0 + FirstSize(x.s) != 0.0 && t < x.n + 3
    ensures TICKER in CoursePrices(x)
    ensures CloseAt(CoursePrices(x), TICKER, t) == Some(x.p) && ExecutionPrice(CoursePrices(x), TICKER, t) == Some(x.p)
  {
    hide FirstSize, FirstPrice, OtherClose, OtherBar;
    assert TICKER != OTHER_TICKER;
    assert CoursePrices(x)[TICKER][t] == FlatBar(x.p);
  }

  /** What the rows of the course are worth at the closes from bar 1 on. */
  lemma CourseTerms(x: Course, i: int, t: nat)
    requires Planned(x) && 1.0 + FirstSize(x.s) != 0.0 && 1 <= t < x.n + 3
    ensures var f := StandardTerm(CoursePrices(x), t, map[]);
      f(ShortRow(x)) == -OtherClose(x) && f(NewRow(TICKER, i, x.p)) == Notional(i, 1, x.p)
  {
    assert x.p > 0.0;
    hide Notional, FirstSize, FirstPrice, Planned, OtherClose, CoursePrices, CloseAt, Capital;
    CapitalFacts(x);
    OtherCloseAt(x, t);
    OwnPriceAt(x, t);
    LotNotional(-1, OtherClose(x));
  }

  lemma CourseTotal(x: Course, i: int, f: Position -> real)
    requires i >= 0 && 1.0 + FirstSize(x.s) != 0.0
    ensures Total(CourseRows(x, i), f) == f(ShortRow(x)) + if i > 0 then f(NewRow(TICKER, i, x.p)) else 0.0
  {
    hide FirstPrice, FirstSize, Total, ShortRow;
    TotalOfOne(ShortRow(x), f);
    if i > 0 {
      TotalSnoc([ShortRow(x)], NewRow(TICKER, i, x.p), f);
    } else {
      assert CourseRows(x, i) == [ShortRow(x)];
    }
  }

  lemma TotalOfOne(p: Position, f: Position -> real)
    ensures Total([p], f) == f(p)
  {
    assert [p] == [] + [p];
    TotalSnoc([], p, f);
  }

  /** From bar 1 on the course keeps its NAV, whatever has been bought. */
  lemma CourseNav(x: Course, i: int, t: nat)
    requires Planned(x) && 0 <= i <= x.n && 1 <= t < x.n + 3 && 1.0 + FirstSize(x.s) != 0.0
    ensures Nav(CoursePrices(x), t, map[], CashWith(x, x.n - i), CourseRows(x, i)) == x.nav
  {
    hide CoursePrices, StandardTerm, CourseRows, FirstSize, Planned, Notional, Total, ShortRow;
    CourseTerms(x, i, t);
    CourseTotal(x, i, StandardTerm(CoursePrices(x), t, map[]));
    NotionalAdds(x.n - i, i, 1, x.p);
    Accounting.ZeroLots(1, x.p);
  }

  // ---- Bar by bar --------------------------------------------------------

  /** One signal per bar. */
  lemma CourseBar(x: Course, t: nat, b: Book)
    requires Planned(x) && 1.0 + FirstSize(x.s) != 0.0 && !b.raised
    ensures var cfg, prices := CourseConfig(x), CoursePrices(x);
      var nav := Nav(prices, t, map[], b.cash, b.rows);
      var b' := SignalStep(cfg, prices, t, HistoryAt(prices, t), nav, b.(spent := 0.0),
                           CourseSignal(x, View(b.cash, LotsView(b.rows))));
      && SignalsAt(cfg, prices, t, b) == [CourseSignal(x, View(b.cash, LotsView(b.rows)))]
      && (!b'.raised ==> BarStep(cfg, prices, t, b)
                         == b'.(equity := b'.equity + [NavPoint(0, Nav(prices, t + 1, map[], b'.cash, b'.rows))]))
  {
    hide SignalStep, Nav, HistoryAt, CourseSignal, LotsView, CoursePrices;
    var cfg, prices := CourseConfig(x), CoursePrices(x);
    var nav := Nav(prices, t, map[], b.cash, b.rows);
    var d := CourseSignal(x, View(b.cash, LotsView(b.rows)));
    OneSignal(cfg, prices, t, HistoryAt(prices, t), nav, b.(spent := 0.0), d);
  }

  lemma OneSignal(cfg: Config, prices: Prices, t: nat, history: Prices, nav: real, b: Book, d: Decision)
    ensures RunSignals(cfg, prices, t, history, nav, b, [d]) == SignalStep(cfg, prices, t, history, nav, b, d)
  {
    hide SignalStep;
    assert [d][..0] == [];
  }

  lemma NothingSeen(rows: seq<Position>, secid: string)
    requires forall p :: p in rows ==> p.secid != secid
    ensures secid !in LotsView(rows)
  {}

  lemma SeenLots(rows: seq<Position>, p: Position)
    requires p in rows
    ensures p.secid in LotsView(rows) && LotsView(rows)[p.secid] == PositionFor(rows, p.secid)
  {
    hide PositionFor;
  }

  lemma FirstSignal(x: Course)
    requires 1.0 + FirstSize(x.s) != 0.0
    ensures CourseSignal(x, View(Capital(x), LotsView([]))) == Decision(OTHER_TICKER, Sell, FirstSize(x.s), 1.0)
  {
    hide FirstSize, Capital;
    NothingSeen([], OTHER_TICKER);
  }

  lemma FirstExecution(x: Course)
    requires Planned(x) && 1.0 + FirstSize(x.s) != 0.0
    ensures OTHER_TICKER in CoursePrices(x) && ExecutionPrice(CoursePrices(x), OTHER_TICKER, 1) == Some(FirstPrice(x))
    ensures Nav(CoursePrices(x), 0, map[], Capital(x), []) == Capital(x)
  {
    CapitalFacts(x);
    assert TICKER != OTHER_TICKER;
    hide FirstSize, Capital, FirstPrice, OtherClose;
  }

  /** The first bar shorts one lot of the other ticker. */
  lemma FirstShort(x: Course)
    requires Planned(x) && 1.0 + FirstSize(x.s) != 0.0
    ensures OnCourse(x, BarStep(CourseConfig(x), CoursePrices(x), 0, OpeningBook(CourseConfig(x))), 0)
  {
    hide SignalStep, BarStep, CoursePrices, Capital, FirstPrice, FirstSize, HistoryAt, Nav, FillRows, LotsFit,
         EngineContext, Planned, ExecutionPrice, LotsView, CourseSignal, CashAfter, TradeCommission, UniqueSecids,
         CashWith, CourseRows;
    var cfg, prices := CourseConfig(x), CoursePrices(x);
    var b, d := OpeningBook(cfg), Decision(OTHER_TICKER, Sell, FirstSize(x.s), 1.0);
    CapitalFacts(x);
    CourseBar(x, 0, b);
    FirstSignal(x);
    FirstExecution(x);
    FirstShortFits(x, HistoryAt(prices, 0));
    NoRows();
    OpeningFills(cfg, prices, 0, HistoryAt(prices, 0), Capital(x), b.(spent := 0.0), d, FirstPrice(x), 0,
                 FirstSize(x.s), 1);
    FirstShortRows(x);
    UnitLot(OTHER_TICKER);
    CourseNav(x, 0, 1);
  }

  lemma NoRows()
    ensures UniqueSecids([])
  {}

  lemma UnitLot(secid: string)
    ensures LotSizeFor(secid, map[]) == 1
  {}

  lemma FirstShortRows(x: Course)
    requires 1.0 + FirstSize(x.s) != 0.0
    ensures FillRows([], OTHER_TICKER, -1, FirstPrice(x)) == CourseRows(x, 0)
    ensures CashAfter(Capital(x), -1, 1, FirstPrice(x), TradeCommission(-1, 1, FirstPrice(x), 0.0))
       == Capital(x) + FirstPrice(x)
  {
    hide Capital, FirstPrice, FirstSize;
    var row := NewRow(OTHER_TICKER, 0, 0.0);
    assert WithRow([], OTHER_TICKER) == [row];
    FirstIs([row], 0, OTHER_TICKER);
    MeanFromFlat(0.0, 1, FirstPrice(x));
    LotNotional(-1, FirstPrice(x));
  }

  lemma FirstContext(x: Course, history: Prices)
    requires 1.0 + FirstSize(x.s) != 0.0
    ensures var b := OpeningBook(CourseConfig(x)).(spent := 0.0);
      var c := EngineContext(CourseConfig(x), b, history, Capital(x), OTHER_TICKER, FirstPrice(x));
      && c.cash == Capital(x) && c.nav == Capital(x) && c.lastPrice == FirstPrice(x) && c.settings == x.s
      && QuietMarket(c) && c.positions == [] && PositionFor(c.positions, OTHER_TICKER) == 0 && UniqueSecids(c.positions)
  {
    hide StepsAt, KeyOf, FirstSize, Capital, FirstPrice;
  }

  lemma FirstShortFits(x: Course, history: Prices)
    requires Planned(x) && 1.0 + FirstSize(x.s) != 0.0
    ensures var d := Decision(OTHER_TICKER, Sell, FirstSize(x.s), 1.0);
      LotsFit(d, EngineContext(CourseConfig(x), OpeningBook(CourseConfig(x)).(spent := 0.0), history, Capital(x),
                               OTHER_TICKER,
                               FirstPrice(x)), 0, FirstSize(x.s), 1)
  {
    assert Permissive(x.s);
    hide EngineContext, Notional, Share, InCash, InBudget, Permissive, TightCap, Planned, PositionFor, AvgPriceFor,
         UniqueSecids, LotsFit, CourseConfig, FirstSize, Capital, FirstPrice, OpeningBook;
    CapitalFacts(x);
    FirstSizeFacts(x.s);
    FirstContext(x, history);
    Accounting.ZeroLots(1, FirstPrice(x));
    TickExposure.ShareOfNothing(Capital(x));
    UnitLot(OTHER_TICKER);
    FirstAllotment(x);
    OneLotFits(Decision(OTHER_TICKER, Sell, FirstSize(x.s), 1.0),
               EngineContext(CourseConfig(x), OpeningBook(CourseConfig(x)).(spent := 0.0), history, Capital(x),
                             OTHER_TICKER,
                             FirstPrice(x)), 0, FirstSize(x.s));
  }

  lemma FirstAllotment(x: Course)
    requires 1.0 + FirstSize(x.s) != 0.0
    ensures Allotment(Capital(x), FirstSize(x.s)) == FirstPrice(x)
  {
    hide Capital, FirstSize;
  }

  /** On course, a buy whose allotment is one lot's price opens one lot. */
  lemma CourseFits(x: Course, b: Book, i: int, history: Prices, d: Decision, size: real)
    requires Planned(x) && 1.0 + FirstSize(x.s) != 0.0 && 0 <= i <= x.n && OnCourse(x, b, i) && b.spent == 0.0
    requires d.symbol == TICKER && d.signal.Buy? && d.confidence == 1.0 && b.cash > 0.0
    requires 0.0 < size == MinReal(d.sizePct, TightCap(x.s) - Share(Notional(i, 1, x.p), x.nav))
    requires Allotment(b.cash, size) == x.p && InCash(x.p, b.cash, x.s) && InBudget(x.p, x.nav, x.s)
    ensures LotsFit(d, EngineContext(CourseConfig(x), b, history, x.nav, TICKER, x.p), i, size, 1)
  {
    assert Permissive(x.s) && x.nav > 0.0 && x.p > 0.0;
    hide EngineContext, CalmMarket, Notional, Share, InCash, InBudget, Permissive, TightCap, Planned, CourseRows,
         PositionFor, AvgPriceFor, UniqueSecids, Allotment, CashWith, FirstSize, LotsFit, OnCourse, CourseConfig,
         QuietMarket, MinReal;
    var c := EngineContext(CourseConfig(x), b, history, x.nav, TICKER, x.p);
    CourseContext(x, b, i, history);
    CourseMarket(x, c, i, d);
    RowsLookup(x, i);
    OneLotFits(d, c, i, size);
  }

  lemma CourseContext(x: Course, b: Book, i: int, history: Prices)
    requires 1.0 + FirstSize(x.s) != 0.0 && 0 <= i <= x.n && OnCourse(x, b, i) && b.spent == 0.0
    ensures var c := EngineContext(CourseConfig(x), b, history, x.nav, TICKER, x.p);
      && c.cash == b.cash && c.nav == x.nav && c.lastPrice == x.p && c.settings == x.s
      && QuietMarket(c) && c.positions == CourseRows(x, i)
  {
    RowsLookup(x, i);
    hide NonZeroRows, StepsAt, KeyOf, CourseRows, FirstSize, CashWith, UniqueSecids, PositionFor, AvgPriceFor,
         Capital;
  }

  /** Context of the course apart from book and money. */
  predicate QuietMarket(c: Context) {
    && QuietHistory(c) && c.flow.None? && c.returnsCount == 0 && c.tickBuySpent == 0.0 && c.tickOpenNav == c.nav
    && c.sigmaBySymbol == map[] && c.lotSizes == map[] && c.sectors == map[OTHER_TICKER := OTHER_TICKER]
  }

  lemma CourseMarket(x: Course, c: Context, i: int, d: Decision)
    requires 1.0 + FirstSize(x.s) != 0.0 && i >= 0 && c.positions == CourseRows(x, i) && d.symbol == TICKER
    requires QuietMarket(c) && Permissive(c.settings) && c.cash > 0.0 && c.nav > 0.0 && c.lastPrice > 0.0
    ensures CalmMarket(d, c)
  {
    RowsLookup(x, i);
    UnitLot(TICKER);
    assert SectorOf(TICKER, c.sectors) == "OTHER" && SectorOf(OTHER_TICKER, c.sectors) == OTHER_TICKER;
    assert OTHER_TICKER != "OTHER";
    hide CourseRows, FirstSize, Permissive, LotSizeFor, PositionFor, AvgPriceFor, UniqueSecids, SectorOf,
         QuietHistory;
  }

  lemma BuySignal(x: Course, b: Book, i: int)
    requires Planned(x) && 1.0 + FirstSize(x.s) != 0.0 && 0 <= i <= x.n && OnCourse(x, b, i)
    ensures CourseSignal(x, View(b.cash, LotsView(b.rows)))
         == Decision(TICKER, Buy, if i < x.n then OneLotSize(x.p, b.cash) else 1.0, 1.0)
  {
    RowsLookup(x, i);
    assert ShortRow(x) in b.rows;
    SeenLots(b.rows, ShortRow(x));
    if i > 0 {
      assert NewRow(TICKER, i, x.p) in b.rows;
      SeenLots(b.rows, NewRow(TICKER, i, x.p));
    } else {
      assert TICKER != OTHER_TICKER;
      NothingSeen(b.rows, TICKER);
    }
    hide LotsView, FirstSize, FirstPrice, OneLotSize, CourseRows, PositionFor;
  }

  lemma MeanOfSame(i: int, p: real)
    requires i >= 1
    ensures MeanPrice(i, p, 1, p, i + 1) == p
  {
    var n := (i + 1) as real;
    assert (i as real) * p + (1 as real) * p == p * n;
    QuotientTimes(p * n, n);
    Trim.ShareTimes(p * n, n);
    SameFactor((p * n) / n, p, n);
  }

  lemma SameFactor(a: real, b: real, k: real)
    requires a * k == b * k && k > 0.0
    ensures a == b
  {
    if a > b {
      ScaleMore(a, b, k);
    } else if b > a {
      ScaleMore(b, a, k);
    }
  }

  lemma BoughtRows(x: Course, i: int)
    requires i >= 0 && 1.0 + FirstSize(x.s) != 0.0
    ensures FillRows(CourseRows(x, i), TICKER, 1, x.p) == CourseRows(x, i + 1)
  {
    RowsLookup(x, i);
    var rows := CourseRows(x, i);
    if i > 0 {
      MeanOfSame(i, x.p);
      assert rows == [ShortRow(x), NewRow(TICKER, i, x.p)];
      assert CourseRows(x, i + 1) == [ShortRow(x), NewRow(TICKER, i + 1, x.p)];
    } else {
      assert rows == [ShortRow(x)];
      assert TICKER != OTHER_TICKER;
      FirstIs(rows + [NewRow(TICKER, 0, 0.0)], 1, TICKER);
      MeanFromFlat(0.0, 1, x.p);
      assert CourseRows(x, 1) == [ShortRow(x), NewRow(TICKER, 1, x.p)];
    }
    hide IndexOf, MeanPrice, ShortRow, PositionFor, AvgPriceFor;
  }

  lemma BoughtCash(x: Course, left: int)
    ensures CashAfter(CashWith(x, left), 1, 1, x.p, TradeCommission(1, 1, x.p, 0.0)) == CashWith(x, left - 1)
  {
    NotionalAdds(left - 1, 1, 1, x.p);
    hide Notional;
  }

  lemma NextFill(x: Course, b: Book, i: int)
    requires Planned(x) && 1.0 + FirstSize(x.s) != 0.0 && 0 <= i < x.n && OnCourse(x, b, i)
    ensures var cfg, prices, t := CourseConfig(x), CoursePrices(x), i + 1;
      FilledBook(cfg, b.(spent := 0.0), SignalStep(cfg, prices, t, HistoryAt(prices, t), x.nav, b.(spent := 0.0),
                                                   Decision(TICKER, Buy, OneLotSize(x.p, b.cash), 1.0)), TICKER, 1, x.p)
  {
    assert x.p > 0.0 && x.nav > 0.0;
    hide SignalStep, CoursePrices, FirstSize, HistoryAt, LotsFit, EngineContext, ExecutionPrice, CloseAt,
         UniqueSecids, CashWith, CourseRows, OneLotSize, Allotment, InCash, InBudget, TightCap, Share, Notional,
         OneTooMany, Permissive, FilledBook, Planned, MinReal;
    var prices, t, z := CoursePrices(x), i + 1, OneLotSize(x.p, b.cash);
    SizeFacts(x, x.n - i);
    SmallerIs(z, TightCap(x.s) - Share(Notional(i, 1, x.p), x.nav));
    CourseFits(x, b.(spent := 0.0), i, HistoryAt(prices, t), Decision(TICKER, Buy, z, 1.0), z);
    OwnPriceAt(x, t + 1);
    RowsLookup(x, i);
    OpeningFills(CourseConfig(x), prices, t, HistoryAt(prices, t), x.nav, b.(spent := 0.0),
                 Decision(TICKER, Buy, z, 1.0), x.p, i, z, 1);
  }

  lemma SmallerIs(a: real, b: real)
    requires a <= b
    ensures MinReal(a, b) == a
  {}

  /** Every later bar buys one lot. */
  lemma NextBuy(x: Course, b: Book, i: int)
    requires Planned(x) && 1.0 + FirstSize(x.s) != 0.0 && 0 <= i < x.n && OnCourse(x, b, i)
    ensures OnCourse(x, BarStep(CourseConfig(x), CoursePrices(x), i + 1, b), i + 1)
  {
    hide SignalStep, BarStep, CoursePrices, Capital, FirstPrice, FirstSize, HistoryAt, Nav, FillRows, LotsView,
         CourseSignal, CashAfter, TradeCommission, CashWith, CourseRows, OneLotSize, Planned, LotSizeFor;
    CourseNav(x, i, i + 1);
    CourseBar(x, i + 1, b);
    BuySignal(x, b, i);
    NextFill(x, b, i);
    UnitLot(TICKER);
    BoughtRows(x, i);
    BoughtCash(x, x.n - i);
    CourseNav(x, i + 1, i + 2);
  }

  lemma {:induction false} CourseBooks(x: Course, i: int)
    requires Planned(x) && 1.0 + FirstSize(x.s) != 0.0 && 0 <= i <= x.n
    ensures OnCourse(x, BookAt(CourseConfig(x), CoursePrices(x), i + 1), i)
    decreases i
  {
    hide BarStep, OnCourse, CoursePrices, Planned, FirstSize, OpeningBook;
    var cfg, prices := CourseConfig(x), CoursePrices(x);
    if i == 0 {
      FirstShort(x);
      assert BookAt(cfg, prices, 0) == OpeningBook(cfg);
    } else {
      CourseBooks(x, i - 1);
      NextBuy(x, BookAt(cfg, prices, i), i - 1);
    }
  }

  // ---- One lot too many --------------------------------------------------

  /** The full-size buy that comes up once the course is complete. */
  lemma LastBuyFits(x: Course, b: Book, history: Prices, size: real)
    requires Planned(x) && 1.0 + FirstSize(x.s) != 0.0 && OnCourse(x, b, x.n) && b.spent == 0.0
    requires OneTooMany(x.s, x.cash, x.nav, x.n, x.p, size)
    ensures b.cash == x.cash
    ensures LotsFit(Decision(TICKER, Buy, 1.0, 1.0), EngineContext(CourseConfig(x), b, history, x.nav, TICKER, x.p),
                    x.n, size, 1)
    ensures Share(Notional(x.n, 1, x.p), x.nav) == TightCap(x.s) - size
  {
    assert x.cash > x.nav > 0.0 && x.s.cashBuffer < 1.0;
    hide FirstSize, Notional, Share, TightCap, WithCommission, Allotment, Permissive, LotsFit, EngineContext,
         OneTooMany, CourseRows, Planned;
    Accounting.ZeroLots(1, x.p);
    assert b.cash == x.cash;
    LastSize(x, size);
    BufferAndBudget(x, size, x.cash);
    hide OnCourse, CashWith;
    CourseFits(x, b, x.n, history, Decision(TICKER, Buy, 1.0, 1.0), size);
  }

  lemma LastSize(x: Course, size: real)
    requires OneTooMany(x.s, x.cash, x.nav, x.n, x.p, size) && x.nav > 0.0
    ensures Share(Notional(x.n, 1, x.p), x.nav) == TightCap(x.s) - size
    ensures 0.0 < size <= 1.0 && Allotment(x.cash, size) == x.p
  {
    ShareOfProduct(Notional(x.n, 1, x.p), TightCap(x.s) - size, x.nav);
    hide Notional, Share, TightCap, WithCommission, Allotment;
  }

  lemma LastSignal(x: Course)
    requires Planned(x) && 1.0 + FirstSize(x.s) != 0.0
    ensures var cfg, prices, t := CourseConfig(x), CoursePrices(x), x.n + 1;
      && BarSignals(cfg, prices, t) == [Decision(TICKER, Buy, 1.0, 1.0)]
      && BookBefore(cfg, prices, t, 0) == BookAt(cfg, prices, t).(spent := 0.0)
      && OnCourse(x, BookAt(cfg, prices, t), x.n)
      && BarNav(cfg, prices, t) == x.nav
  {
    hide BarStep, CoursePrices, Planned, FirstSize, Nav, SignalStep, HistoryAt, CourseSignal, LotsView, BookAt,
         CourseRows, CashWith;
    var cfg, prices, t := CourseConfig(x), CoursePrices(x), x.n + 1;
    CourseBooks(x, x.n);
    var b := BookAt(cfg, prices, t);
    CourseBar(x, t, b);
    BuySignal(x, b, x.n);
    CourseNav(x, x.n, t);
    assert BarSignals(cfg, prices, t)[..0] == [];
  }

  lemma LastBuyExceedsCaps(x: Course)
    requires Planned(x) && 1.0 + FirstSize(x.s) != 0.0
    ensures var cfg, prices, t := CourseConfig(x), CoursePrices(x), x.n + 1;
      && |BarSignals(cfg, prices, t)| == 1
      && Decides(cfg, prices, t, 0, x.p) && DecidedAt(cfg, prices, t, 0, x.s, x.cash, x.nav)
      && !OpensWithinCaps(BarSignals(cfg, prices, t)[0], ContextOf(cfg, prices, t, 0, x.p))
  {
    hide CoursePrices, Planned, FirstSize, HistoryAt, BookAt, BarSignals, BookBefore, BarNav, ContextOf, OnCourse,
         ExecutionPrice, OpensWithinCaps, ValidDecision, Skips, CourseConfig, EngineContext, Decides, DecidedAt;
    var cfg, prices, t := CourseConfig(x), CoursePrices(x), x.n + 1;
    CourseSettings(x);
    LastSignal(x);
    CourseSpent(x, BookAt(cfg, prices, t));
    LastContextExceeds(x, BookBefore(cfg, prices, t, 0), HistoryAt(prices, t));
    LastContextIs(x);
    LastDecides(x);
    LastDecidedAt(x);
  }

  /** The only signal of a bar comes up in the run. */
  lemma OnlySignalDecides(cfg: Config, prices: Prices, t: nat, d: Decision, price: real)
    requires cfg.applyRisk && t >= cfg.warmup && BarSignals(cfg, prices, t) == [d] && ValidDecision(d)
    requires !BookBefore(cfg, prices, t, 0).raised && !Skips(cfg, BookBefore(cfg, prices, t, 0), d)
    requires ExecutionPrice(prices, d.symbol, t + 1) == Some(price)
    ensures Decides(cfg, prices, t, 0, price)
  {
    hide BarSignals, BookBefore, ValidDecision, Skips, ExecutionPrice;
  }

  lemma LastRaised(x: Course)
    requires Planned(x) && 1.0 + FirstSize(x.s) != 0.0
    ensures CourseConfig(x).warmup == 0 && !BookAt(CourseConfig(x), CoursePrices(x), x.n + 1).raised
  {
    hide CoursePrices, Planned, FirstSize, BookAt, CourseConfig, CashWith, CourseRows;
    CourseSettings(x);
    CourseBooks(x, x.n);
  }

  /** What the last bar offers, apart from the book's contents. */
  lemma LastBar(x: Course)
    requires Planned(x) && 1.0 + FirstSize(x.s) != 0.0
    ensures CourseConfig(x).warmup == 0 && CourseConfig(x).applyRisk
    ensures BarSignals(CourseConfig(x), CoursePrices(x), x.n + 1) == [Decision(TICKER, Buy, 1.0, 1.0)]
    ensures !BookBefore(CourseConfig(x), CoursePrices(x), x.n + 1, 0).raised
  {
    hide CoursePrices, Planned, FirstSize, BookAt, BarSignals, BookBefore, BarNav, OnCourse, CourseConfig;
    CourseSettings(x);
    LastSignal(x);
    LastRaised(x);
  }

  lemma LastPrice(x: Course)
    requires Planned(x) && 1.0 + FirstSize(x.s) != 0.0
    ensures ExecutionPrice(CoursePrices(x), TICKER, x.n + 2) == Some(x.p)
  {
    assert x.p > 0.0;
    hide CoursePrices, Planned, FirstSize, ExecutionPrice, CloseAt;
    OwnPriceAt(x, x.n + 2);
  }

  lemma LastDecides(x: Course)
    requires Planned(x) && 1.0 + FirstSize(x.s) != 0.0
    ensures CourseConfig(x).warmup == 0 && Decides(CourseConfig(x), CoursePrices(x), x.n + 1, 0, x.p)
  {
    hide CoursePrices, Planned, FirstSize, BarSignals, BookBefore, ExecutionPrice, ValidDecision, Skips, CourseConfig,
         Decides;
    LastBar(x);
    LastPrice(x);
    LastIsValid(CourseConfig(x), BookBefore(CourseConfig(x), CoursePrices(x), x.n + 1, 0));
    OnlySignalDecides(CourseConfig(x), CoursePrices(x), x.n + 1, Decision(TICKER, Buy, 1.0, 1.0), x.p);
  }

  lemma LastDecidedAt(x: Course)
    requires Planned(x) && 1.0 + FirstSize(x.s) != 0.0
    ensures var cfg, prices, t := CourseConfig(x), CoursePrices(x), x.n + 1;
      && CourseConfig(x).warmup == 0 && |BarSignals(cfg, prices, t)| == 1
      && (BookBefore(cfg, prices, t, 0).cash == x.cash ==> DecidedAt(cfg, prices, t, 0, x.s, x.cash, x.nav))
  {
    hide CoursePrices, Planned, FirstSize, HistoryAt, BookAt, BarSignals, BookBefore, BarNav, OnCourse, CourseConfig;
    CourseSettings(x);
    LastSignal(x);
  }

  lemma CourseSettings(x: Course)
    requires 1.0 + FirstSize(x.s) != 0.0
    ensures var cfg := CourseConfig(x); cfg.settings == x.s && cfg.applyRisk && cfg.warmup == 0
  {
    hide FirstSize, Capital;
  }

  lemma LastContextIs(x: Course)
    requires Planned(x) && 1.0 + FirstSize(x.s) != 0.0
    ensures var cfg, prices, t := CourseConfig(x), CoursePrices(x), x.n + 1;
      && |BarSignals(cfg, prices, t)| == 1
      && ContextOf(cfg, prices, t, 0, x.p)
         == EngineContext(cfg, BookBefore(cfg, prices, t, 0), HistoryAt(prices, t), x.nav, TICKER, x.p)
  {
    hide CoursePrices, Planned, FirstSize, HistoryAt, BookAt, BarSignals, BookBefore, BarNav, OnCourse, EngineContext,
         Capital;
    LastSignal(x);
  }

  /** The last buy, decided on any history, exceeds a cap. */
  lemma LastContextExceeds(x: Course, b: Book, history: Prices)
    requires Planned(x) && 1.0 + FirstSize(x.s) != 0.0 && OnCourse(x, b, x.n) && b.spent == 0.0
    ensures b.cash == x.cash
    ensures !OpensWithinCaps(Decision(TICKER, Buy, 1.0, 1.0),
                             EngineContext(CourseConfig(x), b, history, x.nav, TICKER, x.p))
  {
    var size :| OneTooMany(x.s, x.cash, x.nav, x.n, x.p, size);
    assert x.nav > 0.0;
    hide Planned, FirstSize, LotsFit, EngineContext, OneTooMany, OnCourse, CourseConfig, OpensWithinCaps, Share,
         Notional, TightCap;
    LastBuyFits(x, b, history, size);
    LastContext(x, b, history);
    LastWeights(x, EngineContext(CourseConfig(x), b, history, x.nav, TICKER, x.p), size);
  }

  lemma LastIsValid(cfg: Config, b: Book)
    ensures var d := Decision(TICKER, Buy, 1.0, 1.0); ValidDecision(d) && !Skips(cfg, b, d)
  {}

  lemma LastWeights(x: Course, c: Context, size: real)
    requires LotsFit(Decision(TICKER, Buy, 1.0, 1.0), c, x.n, size, 1)
    requires c.settings == x.s && c.nav == x.nav > 0.0 && c.lastPrice == x.p
    requires OneTooMany(x.s, x.cash, x.nav, x.n, x.p, size)
    ensures !OpensWithinCaps(Decision(TICKER, Buy, 1.0, 1.0), c)
  {
    hide Evaluate, OpenedWeight, OpenedSector, LotsFit, IsOpeningGate, Notional, Share, HeldWeight, OneTooMany,
         TightCap;
    OpenedWeights(Decision(TICKER, Buy, 1.0, 1.0), c, x.n, size, 1);
    HeldWeightOf(c, x.n);
    WeightsAboveCap(x.s, x.cash, x.nav, x.n, x.p, size);
    TighterCap(x.s);
  }

  lemma TighterCap(s: Settings)
    ensures TightCap(s) == s.maxInstrumentWeight || TightCap(s) == s.maxSectorWeight
  {}

  lemma CourseSpent(x: Course, b: Book)
    requires 1.0 + FirstSize(x.s) != 0.0 && OnCourse(x, b, x.n)
    ensures OnCourse(x, b.(spent := 0.0), x.n) && !b.raised
  {}

  lemma LastContext(x: Course, b: Book, history: Prices)
    requires 1.0 + FirstSize(x.s) != 0.0
    ensures var c := EngineContext(CourseConfig(x), b, history, x.nav, TICKER, x.p);
      c.settings == x.s && c.nav == x.nav && c.lastPrice == x.p
  {
    hide NonZeroRows, StepsAt, KeyOf;
  }

  /** In a backtest, too, both caps hold after every opening of every run exactly
      when the cash at the decision does not exceed the bar's NAV. */
  lemma BacktestCapsHoldExactly(s: Settings, cash: real, nav: real)
    requires Permissive(s) && s.cashBuffer < 1.0 && nav > 0.0
    ensures BacktestCapsHold(s, cash, nav) <==> cash <= nav
  {
    hide Evaluate, OpenedWeight, OpenedSector, Nav, HistoryAt, HeldLots, IsOpeningGate, BookBefore, BarSignals,
         BarNav, Skips, EngineContext, ExecutionPrice, ValidDecision, TightPrice, TightUnit, OneTooMany,
         OpensWithinCaps;
    if cash <= nav {
      forall cfg: Config, prices: Prices, t: nat, k: nat, price: real
        | Decides(cfg, prices, t, k, price) && DecidedAt(cfg, prices, t, k, s, cash, nav)
        ensures OpensWithinCaps(BarSignals(cfg, prices, t)[k], ContextOf(cfg, prices, t, k, price))
      {
        CapsHeldInRun(cfg, prices, t, k, price);
      }
    } else {
      TightPriceFits(s, cash, nav);
      CourseIsPlanned(s, cash, nav, HeldLots(s), TightPrice(s, cash, nav), TightUnit(s, cash, nav) * nav);
      var x := Course(s, cash, nav, HeldLots(s), TightPrice(s, cash, nav));
      CapitalFacts(x);
      LastBuyExceedsCaps(x);
    }
  }

  lemma CourseIsPlanned(s: Settings, cash: real, nav: real, n: int, p: real, size: real)
    requires Permissive(s) && s.cashBuffer < 1.0 && cash > nav > 0.0 && OneTooMany(s, cash, nav, n, p, size)
    ensures n >= 1 && Planned(Course(s, cash, nav, n, p))
  {}

  lemma CapsHeldInRun(cfg: Config, prices: Prices, t: nat, k: nat, price: real)
    requires Decides(cfg, prices, t, k, price)
    requires BookBefore(cfg, prices, t, k).cash <= BarNav(cfg, prices, t) && BarNav(cfg, prices, t) > 0.0
    ensures OpensWithinCaps(BarSignals(cfg, prices, t)[k], ContextOf(cfg, prices, t, k, price))
  {
    hide Evaluate, OpenedWeight, OpenedSector, HistoryAt, BookBefore, BarNav, BarSignals, IsOpeningGate;
    var d, c := BarSignals(cfg, prices, t)[k], ContextOf(cfg, prices, t, k, price);
    EngineMoney(cfg, BookBefore(cfg, prices, t, k), HistoryAt(prices, t), BarNav(cfg, prices, t), d.symbol, price);
    hide EngineContext;
    if IsOpeningGate(Evaluate(d, c)) {
      CapsHeldByOpening(d, c);
    }
  }

  /** In the standard cash model the cash exceeds the NAV exactly when the shorts
      are worth more than the longs. */
  lemma CashAboveNavExactly(prices: Prices, t: nat, lotSizes: map<string, int>, cash: real, rows: seq<Position>)
    ensures cash > Nav(prices, t, lotSizes, cash, rows) <==> Total(rows, StandardTerm(prices, t, lotSizes)) < 0.0
  {
    hide Total;
  }
}
