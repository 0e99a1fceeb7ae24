/** The backtest engine as a function of its price history: decide on bars up to
    t, fill at the next bar, keep books in the standard cash model. */
module Engine {
  import opened Money
  import opened Portfolio
  import opened Sizing
  import opened Operations
  import opened Risk
  import opened Orders
  import opened Simulation
  import opened Ladder

  datatype Bar = Bar(open: real, high: real, low: real, close: real, volume: real)

  /** One entry per timestamp of the aligned index; None where the ticker has no bar. */
  type Series = seq<Option<Bar>>
  type Prices = map<string, Series>

  datatype View = View(cash: real, lots: map<string, int>)

  datatype StepKey = StepKey(secid: string, short: bool, avg: real)

  /** `decide` is the strategy and `volatility` the return statistics of a ticker's history. */
  datatype Config = Config(
    settings: Settings,
    initialCapital: real,
    commissionRate: real,
    slippage: real,
    applyRisk: bool,
    warmup: nat,
    lotSizes: map<string, int>,
    sectors: map<string, string>,
    days: seq<int>,
    today: int,
    decide: (Prices, View) -> seq<Decision>,
    volatility: Option<Series> -> (real, nat))

  /** One executed fill; `realized` is None when the fill only extends. */
  datatype Trade = Trade(secid: string, delta: int, price: real, commission: real,
                         realized: Option<real>, step: Option<(StepKey, StepId)>)

  datatype Book = Book(
    cash: real,
    rows: seq<Position>,
    stepsDone: map<StepKey, set<StepId>>,
    spent: real,
    tradePnls: seq<real>,
    equity: seq<NavPoint>,
    openedAt: map<string, int>,
    holdings: seq<int>,
    trades: seq<Trade>,
    raised: bool)

  // ---- Prices ------------------------------------------------------------

  function Positive(x: real): Option<real> { if x > 0.0 then Some(x) else None }

  function BarAt(prices: Prices, secid: string, t: nat): Option<Bar> {
    if secid in prices && t < |prices[secid]| then prices[secid][t] else None
  }

  function CloseAt(prices: Prices, secid: string, t: nat): Option<real> {
    match BarAt(prices, secid, t)
    case Some(bar) => Positive(bar.close)
    case None => None
  }

  /** Open of the bar, else its close. */
  function ExecutionPrice(prices: Prices, secid: string, t: nat): Option<real> {
    match BarAt(prices, secid, t)
    case Some(bar) => if bar.open > 0.0 then Some(bar.open) else Positive(bar.close)
    case None => None
  }

  predicate Started(series: Series, t: nat) { exists j :: 0 <= j <= t && j < |series| && series[j].Some? }

  function UpTo(series: Series, t: nat): Series { if t < |series| then series[..t + 1] else series }

  /** Bars up to and including t, for tickers that have one. */
  function HistoryAt(prices: Prices, t: nat): Prices {
    map secid | secid in prices && Started(prices[secid], t) :: UpTo(prices[secid], t)
  }

  // ---- Books -------------------------------------------------------------

  function MarkAt(prices: Prices, t: nat, p: Position): real {
    match CloseAt(prices, p.secid, t)
    case Some(price) => price
    case None => p.avgPrice
  }

  function StandardTerm(prices: Prices, t: nat, lotSizes: map<string, int>): Position -> real {
    (p: Position) => Notional(p.lots, LotSizeFor(p.secid, lotSizes), MarkAt(prices, t, p))
  }

  /** cash + sum of signed lots at market. */
  function Nav(prices: Prices, t: nat, lotSizes: map<string, int>, cash: real, rows: seq<Position>): real {
    cash + Total(rows, StandardTerm(prices, t, lotSizes))
  }

  /** Row for the ticker; an empty one is created on first use. */
  function WithRow(rows: seq<Position>, secid: string): seq<Position> {
    if IndexOf(rows, secid) < 0 then rows + [NewRow(secid, 0, 0.0)] else rows
  }

  /** Average price after a fill, in the engine's own case split. */
  function EngineAverage(q: int, avg: real, delta: int, price: real): real {
    var q' := q + delta;
    if q' == 0 then 0.0
    else if q == 0 || ((q > 0) == (q' > 0) && (q > 0) == (delta > 0)) then
      MeanPrice(Abs(q), avg, Abs(delta), price, Abs(q'))
    else if (q > 0) != (q' > 0) then price
    else avg
  }

  function FillRows(rows: seq<Position>, secid: string, delta: int, price: real): (rows': seq<Position>)
    ensures |rows'| >= |rows|
  {
    var all := WithRow(rows, secid);
    var i := IndexOf(all, secid);
    if i < 0 then all
    else all[i := all[i].(lots := all[i].lots + delta,
                          avgPrice := EngineAverage(all[i].lots, all[i].avgPrice, delta, price))]
  }

  function TradeCommission(delta: int, lot: int, price: real, rate: real): real {
    Fee(Notional(Abs(delta), lot, price), rate)
  }

  /** Profit of the closed part, minus the commission of the whole trade. */
  function Realized(q: int, avg: real, delta: int, lot: int, price: real, commission: real): Option<real> {
    if q != 0 && (q > 0) != (delta > 0) then
      var closed := MinInt(Abs(q), Abs(delta));
      var gain := Notional(closed, lot, price - avg);
      Some((if q > 0 then gain else -gain) - commission)
    else None
  }

  function CashAfter(cash: real, delta: int, lot: int, price: real, commission: real): real {
    cash - Notional(delta, lot, price) - commission
  }

  function RoundKey(secid: string, lots: int, avg: real): Option<StepKey> {
    if lots == 0 || avg <= 0.0 then None else Some(StepKey(secid, lots < 0, Round6(avg)))
  }

  // ---- One signal --------------------------------------------------------

  datatype Resolution = Raises | Resolved(lots: int, opening: bool, op: Option<OpType>, step: Option<(StepKey, StepId)>)

  predicate NonZero(p: Position) { p.lots != 0 }

  function NonZeroRows(rows: seq<Position>): seq<Position> {
    if rows == [] then []
    else NonZeroRows(rows[..|rows| - 1]) + (if NonZero(rows[|rows| - 1]) then [rows[|rows| - 1]] else [])
  }

  function StepsAt(steps: map<StepKey, set<StepId>>, key: Option<StepKey>): set<StepId> {
    if key.Some? && key.value in steps then steps[key.value] else {}
  }

  function KeyOf(rows: seq<Position>, secid: string): Option<StepKey> {
    RoundKey(secid, PositionFor(rows, secid), AvgPriceFor(rows, secid))
  }

  /** Context of the Risk Officer inside the engine. */
  function EngineContext(cfg: Config, b: Book, history: Prices, nav: real, secid: string, price: real): Context {
    var (sigma, count) := cfg.volatility(if secid in history then Some(history[secid]) else None);
    Context(b.cash, NonZeroRows(b.rows), nav, price, sigma, count, b.equity, cfg.today, cfg.settings, cfg.lotSizes,
            cfg.sectors,
            map[], b.spent, nav, None, StepsAt(b.stepsDone, KeyOf(b.rows, secid)))
  }

  predicate ClosesForBudget(op: OpType) { op.CloseLong? || op.CoverShort? || IsReduceOverride(op) }

  function Resolve(cfg: Config, b: Book, history: Prices, nav: real, d: Decision, price: real): Resolution {
    var q := PositionFor(b.rows, d.symbol);
    if !cfg.applyRisk then
      Resolved(QuantityForBuy(MaxReal(nav, 0.0), d.sizePct, price, LotSizeFor(d.symbol, cfg.lotSizes)),
               (d.signal.Buy? && q >= 0) || (d.signal.Sell? && q <= 0), None, None)
    else
      var g := Evaluate(d, EngineContext(cfg, b, history, nav, d.symbol, price));
      if g.Raised? then Raises
      else if !g.allowed then Resolved(0, true, None, None)
      else if g.flipCloseQty.Some? && g.flipOpenQty.Some? then
        Resolved(g.flipCloseQty.value + g.flipOpenQty.value, true, g.op, None)
      else
        var step := StepOfGate(g, cfg.settings);
        var key := KeyOf(b.rows, d.symbol);
        Resolved(if g.qty.Some? then g.qty.value else 0, !(g.op.Some? && ClosesForBudget(g.op.value)), g.op,
                 if step.Some? && key.Some? then Some((key.value, step.value)) else None)
  }

  function SignOf(d: Decision, op: Option<OpType>): int {
    if op.Some? && CoverSuffix(op.value) then 1
    else if op.Some? && SellSuffix(op.value) then -1
    else if d.signal.Buy? then 1 else -1
  }

  function RecordHolding(openedAt: map<string, int>, holdings: seq<int>, secid: string, q: int, q': int, t: int)
    : (map<string, int>, seq<int>)
  {
    var since := if secid in openedAt then openedAt[secid] else t;
    var held := holdings + [MaxInt(t - since, 0)];
    if q == 0 then (if q' != 0 then openedAt[secid := t] else openedAt, holdings)
    else if q' == 0 then (openedAt - {secid}, held)
    else if (q > 0) != (q' > 0) then (openedAt[secid := t], held)
    else if Abs(q') < Abs(q) then (openedAt, held)
    else (openedAt, holdings)
  }

  /** Book after `delta` lots of `secid` trade at `price` on bar t. */
  function Execute(cfg: Config, b: Book, t: int, secid: string, delta: int, price: real,
                   step: Option<(StepKey, StepId)>): Book {
    var lot := LotSizeFor(secid, cfg.lotSizes);
    var q, avg := PositionFor(b.rows, secid), AvgPriceFor(b.rows, secid);
    var commission := TradeCommission(delta, lot, price, cfg.commissionRate);
    var realized := Realized(q, avg, delta, lot, price, commission);
    var (openedAt, holdings) := RecordHolding(b.openedAt, b.holdings, secid, q, q + delta, t);
    b.(cash := CashAfter(b.cash, delta, lot, price, commission),
       rows := FillRows(b.rows, secid, delta, price),
       tradePnls := if realized.Some? then b.tradePnls + [realized.value] else b.tradePnls,
       openedAt := openedAt,
       holdings := holdings,
       stepsDone := if step.Some?
         then b.stepsDone[step.value.0 := StepsAt(b.stepsDone, Some(step.value.0)) + {step.value.1}]
                    else b.stepsDone,
       trades := b.trades + [Trade(secid, delta, price, commission, realized, step)])
  }

  /** Adverse slippage: buy dearer, sell cheaper. */
  function Slipped(price: real, sign: int, slippage: real): real {
    if sign > 0 then price * (1.0 + slippage) else price * (1.0 - slippage)
  }

  predicate Skips(cfg: Config, b: Book, d: Decision) {
    if d.signal.Hold? then !(cfg.applyRisk && PositionFor(b.rows, d.symbol) != 0) else d.sizePct <= 0.0
  }

  function SignalStep(cfg: Config, prices: Prices, t: nat, history: Prices, nav: real, b: Book, d: Decision): Book {
    if b.raised || Skips(cfg, b, d) then b
    else if d.symbol !in prices then b.(raised := true)
    else
      match ExecutionPrice(prices, d.symbol, t + 1)
      case None => b
      case Some(raw) =>
        match Resolve(cfg, b, history, nav, d, raw)
        case Raises => b.(raised := true)
        case Resolved(lots, opening, op, step) =>
          if lots <= 0 then b
          else
            var sign := SignOf(d, op);
            var b' := Execute(cfg, b, t + 1, d.symbol, sign * lots, Slipped(raw, sign, cfg.slippage), step);
            if opening then b'.(spent := b.spent + Notional(lots, LotSizeFor(d.symbol, cfg.lotSizes), raw)) else b'
  }

  function RunSignals(cfg: Config, prices: Prices, t: nat, history: Prices, nav: real, b: Book,
                      ds: seq<Decision>): Book {
    if ds == [] then b
    else SignalStep(cfg, prices, t, history, nav, RunSignals(cfg, prices, t, history, nav, b, ds[..|ds| - 1]),
                    ds[|ds| - 1])
  }

  // ---- The bar loop ------------------------------------------------------

  function LotsView(rows: seq<Position>): map<string, int> {
    map p | p in rows :: p.secid := PositionFor(rows, p.secid)
  }

  function SignalsAt(cfg: Config, prices: Prices, t: nat, b: Book): seq<Decision> {
    cfg.decide(HistoryAt(prices, t), View(b.cash, LotsView(b.rows)))
  }

  function DayOf(cfg: Config, t: nat): int { if t < |cfg.days| then cfg.days[t] else 0 }

  function BarStep(cfg: Config, prices: Prices, t: nat, b: Book): Book {
    if b.raised then b
    else
      var nav := Nav(prices, t, cfg.lotSizes, b.cash, b.rows);
      var b' := RunSignals(cfg, prices, t, HistoryAt(prices, t), nav, b.(spent := 0.0), SignalsAt(cfg, prices, t, b));
      if b'.raised then b'
      else b'.(equity := b'.equity + [NavPoint(DayOf(cfg, t + 1), Nav(prices, t + 1, cfg.lotSizes, b'.cash, b'.rows))])
  }

  function OpeningBook(cfg: Config): Book {
    Book(cfg.initialCapital, [], map[], 0.0, [], [], map[], [], [], false)
  }

  /** Books before the decision on bar t, that is after all fills up to bar t. */
  function BookAt(cfg: Config, prices: Prices, t: nat): Book
    requires t >= cfg.warmup
  {
    if t == cfg.warmup then OpeningBook(cfg) else BarStep(cfg, prices, t - 1, BookAt(cfg, prices, t - 1))
  }
}
