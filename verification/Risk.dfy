/** The Risk Officer: turns a trading decision into an allowed, clipped,
    rewritten or blocked operation on a signed position. */
module Risk {
  import opened Money
  import opened Portfolio
  import opened Sizing
  import opened Operations

  datatype Settings = Settings(
    riskEnabled: bool,
    commissionRate: real,
    allowFlip: bool,
    minConfidence: real,
    maxInstrumentWeight: real,
    maxSectorWeight: real,
    maxVarPct: real,
    maxDrawdown: real,
    maxDailyLoss: real,
    cashBuffer: real,
    maxTickBuyPct: real,
    spreadCapBps: real,
    minEdgePct: real,
    edgeVolMult: real,
    trimEnabled: bool,
    trimBand: real,
    trimLossTolerance: real,
    trimStopPct: real,
    trimMaxPctPerTick: real,
    takeProfitPct: real,
    stopLossPct: real,
    profitTakeEnabled: bool,
    profitLockPct: real,
    profitPartialPct: real,
    profitFullPct: real,
    profitLockFraction: real,
    profitPartialFraction: real)

  datatype Signal = Buy | Sell | Hold

  datatype Decision = Decision(symbol: string, signal: Signal, sizePct: real, confidence: real)

  datatype NavPoint = NavPoint(day: int, nav: real)

  datatype Flow = Flow(spreadOneMillionBps: real, spreadBestBps: real)

  datatype StepId = ProfitLock | ProfitPartial

  /** `sigma` is the standard deviation of `returnsCount` log returns of the traded ticker. */
  datatype Context = Context(
    cash: real,
    positions: seq<Position>,
    nav: real,
    lastPrice: real,
    sigma: real,
    returnsCount: nat,
    navHistory: seq<NavPoint>,
    today: int,
    settings: Settings,
    lotSizes: map<string, int>,
    sectors: map<string, string>,
    sigmaBySymbol: map<string, real>,
    tickBuySpent: real,
    tickOpenNav: real,
    flow: Option<Flow>,
    stepsDone: set<StepId>)

  datatype GateName =
    | Disabled | HoldPass | RiskTrimGate | TakeProfit | StopLoss | AllPassed
    | SanityPrice | SanityConfidence | IlliquidSpread | MinEdge | KillSwitchDrawdown | KillSwitchDailyLoss
    | InstrumentConcentration | SectorConcentration | VarGate | SanityQtyCash | TickAllocation

  /** The metrics that later steps read back; an absent number is 0. */
  datatype Metrics = Metrics(
    lotSize: int, notional: real, commission: real, totalCost: real,
    profitStep: Option<real>, avgPrice: Option<real>)

  /** `Raised` stands for the ZeroDivisionError of a zero NAV. */
  datatype Gate =
    | Gate(allowed: bool, name: GateName, effectiveSize: Option<real>, qty: Option<int>,
           flipCloseQty: Option<int>, flipOpenQty: Option<int>, op: Option<OpType>, metrics: Metrics)
    | Raised

  const NO_METRICS := Metrics(0, 0.0, 0.0, 0.0, None, None)

  // z-score of the one-sided 95% normal quantile
  const Z_95 := 1.645

  function Pass(name: GateName): Gate { Gate(true, name, None, None, None, None, None, NO_METRICS) }

  function Block(name: GateName, m: Metrics): Gate { Gate(false, name, None, None, None, None, None, m) }

  /** An allowed single order that reduces or closes a position. */
  function Reduce(name: GateName, qty: int, op: OpType, m: Metrics): Gate {
    Gate(true, name, None, Some(qty), None, None, Some(op), m)
  }

  function CommissionRate(s: Settings): (rate: real)
    ensures rate >= 0.0
  {
    MaxReal(s.commissionRate, 0.0)
  }

  // ---- NAV history -------------------------------------------------------

  function MaxNav(history: seq<NavPoint>): real
    requires history != []
  {
    if |history| == 1 then history[0].nav else MaxReal(history[0].nav, MaxNav(history[1..]))
  }

  predicate HasOpen(ps: seq<Position>) { exists p :: p in ps && p.lots != 0 }

  function PeakNav(history: seq<NavPoint>, nav: real, ps: seq<Position>): real {
    if !HasOpen(ps) || history == [] then nav else MaxReal(MaxNav(history), nav)
  }

  function SessionOpenNav(history: seq<NavPoint>, today: int): Option<real> {
    if history == [] then None
    else if history[0].day == today then Some(history[0].nav)
    else SessionOpenNav(history[1..], today)
  }

  function DrawdownPct(c: Context): real {
    var peak := PeakNav(c.navHistory, c.nav, c.positions);
    if peak > 0.0 then (peak - c.nav) / peak else 0.0
  }

  function DailyPnlPct(c: Context): Option<real> {
    match SessionOpenNav(c.navHistory, c.today)
    case Some(open) => if open > 0.0 then Some((c.nav - open) / open) else None
    case None => None
  }

  // ---- Exposure ----------------------------------------------------------

  function Share(x: real, nav: real): real
    requires nav != 0.0
  {
    x / nav
  }

  function SectorOf(secid: string, sectors: map<string, string>): string {
    if secid in sectors then sectors[secid] else "OTHER"
  }

  /** Absolute weight of one row; only `symbol` has a fresh price. */
  function RowWeight(p: Position, nav: real, symbol: string, price: real, lotSizes: map<string, int>): real
    requires nav != 0.0
  {
    var mark := if p.secid == symbol && price != 0.0 then price else p.avgPrice;
    Share(Notional(Abs(p.lots), LotSizeFor(p.secid, lotSizes), mark), nav)
  }

  function SectorTerm(c: Context, symbol: string, sector: string): Position -> real
    requires c.nav != 0.0
  {
    (p: Position) =>
      if p.lots != 0 && SectorOf(p.secid, c.sectors) == sector
      then RowWeight(p, c.nav, symbol, c.lastPrice, c.lotSizes) else 0.0
  }

  /** What sector_weights reports for one sector. */
  function SectorLoad(c: Context, symbol: string, sector: string): real {
    if c.nav <= 0.0 then 0.0 else Total(c.positions, SectorTerm(c, symbol, sector))
  }

  function SigmaOf(secid: string, sigmas: map<string, real>): real {
    if secid in sigmas then sigmas[secid] else 0.0
  }

  /** stddev(returns_window): 0 below two points. */
  function TickerSigma(c: Context): real { if c.returnsCount < 2 then 0.0 else c.sigma }

  /** Contribution of the other tickers to the portfolio sigma, marked at their average price. */
  function SigmaTerm(c: Context, symbol: string): Position -> real
    requires c.nav != 0.0
  {
    (p: Position) =>
      if p.lots == 0 || p.secid == symbol then 0.0
      else AbsReal(Share(Notional(Abs(p.lots), LotSizeFor(p.secid, c.lotSizes), p.avgPrice), c.nav))
           * SigmaOf(p.secid, c.sigmaBySymbol)
  }

  function OthersSigma(c: Context, symbol: string): real {
    if c.nav <= 0.0 then 0.0 else Total(c.positions, SigmaTerm(c, symbol))
  }

  /** Parametric 95% VaR, all correlations 1, with `weight` in the traded ticker. */
  function VarPct(c: Context, symbol: string, weight: real): real {
    Z_95 * (OthersSigma(c, symbol) + AbsReal(weight) * TickerSigma(c))
  }

  // ---- Risk-initiated reductions -----------------------------------------

  /** Unrealized profit as a share of the entry price; a short gains when the price falls. */
  function PnlPct(q: int, avg: real, price: real): real
    requires avg > 0.0
  {
    if q < 0 then (avg - price) / avg else (price - avg) / avg
  }

  function TrimPnl(q: int, avg: real, price: real): real {
    if avg > 0.0 then PnlPct(q, avg, price) else 0.0
  }

  /** Profit-gated with a stop: a shallow loss waits. */
  predicate TrimPnlAllows(s: Settings, pnl: real) {
    pnl >= -s.trimLossTolerance || pnl <= -s.trimStopPct
  }

  predicate OverCapBand(s: Settings, weight: real) {
    weight > s.maxInstrumentWeight * (1.0 + s.trimBand)
  }

  /** Rouble value of a share of the NAV. */
  function Slice(pct: real, nav: real): real { pct * nav }

  /** Lots to cut so that the cap is met, limited per tick. */
  function TrimLots(s: Settings, absQty: int, unit: real, nav: real): int
    requires unit != 0.0
  {
    var excess := absQty - WholeUnits(Slice(s.maxInstrumentWeight, nav), unit);
    if excess > 0 && s.trimMaxPctPerTick > 0.0 && WholeUnits(Slice(s.trimMaxPctPerTick, nav), unit) > 0
    then MinInt(excess, WholeUnits(Slice(s.trimMaxPctPerTick, nav), unit))
    else excess
  }

  function RiskTrim(d: Decision, c: Context): Option<Gate> {
    var s := c.settings;
    var q := PositionFor(c.positions, d.symbol);
    if !s.trimEnabled || c.lastPrice <= 0.0 || c.nav <= 0.0 || q == 0 then None
    else
      var lot := LotSizeFor(d.symbol, c.lotSizes);
      LotValuePositive(lot, c.lastPrice);
      var unit := LotValue(lot, c.lastPrice);
      if s.maxInstrumentWeight <= 0.0 || !OverCapBand(s, Share(Notional(Abs(q), lot, c.lastPrice), c.nav)) then None
      else if !TrimPnlAllows(s, TrimPnl(q, AvgPriceFor(c.positions, d.symbol), c.lastPrice)) then None
      else
        var lots := TrimLots(s, Abs(q), unit, c.nav);
        if lots <= 0 then None
        else
          Some(Reduce(RiskTrimGate, lots, if q < 0 then RiskTrimCover else RiskTrimSell,
                      NO_METRICS.(lotSize := lot, notional := Notional(lots, lot, c.lastPrice))))
  }

  function Portion(absQty: int, fraction: real): real { absQty as real * fraction }

  function PartialQty(absQty: int, fraction: real): int {
    var f := MinReal(MaxReal(fraction, 0.0), 1.0);
    if absQty <= 0 || f <= 0.0 then 0
    else if f >= 1.0 then absQty
    else MinInt(absQty, MaxInt(Ceil(Portion(absQty, f)), 1))
  }

  const STEP_TOLERANCE := 0.000000001

  predicate IsClose(x: real, y: real) { AbsReal(x - y) <= STEP_TOLERANCE }

  function ProfitStepId(stepPct: real, s: Settings): Option<StepId> {
    if s.profitLockPct > 0.0 && IsClose(stepPct, s.profitLockPct) then Some(ProfitLock)
    else if s.profitPartialPct > 0.0 && IsClose(stepPct, s.profitPartialPct) then Some(ProfitPartial)
    else None
  }

  predicate LockSignalAllowsExit(signal: Signal, q: int) {
    signal.Hold? || (q > 0 && signal.Sell?) || (q < 0 && signal.Buy?)
  }

  /** A profit or stop exit: `stepPct` names the rung of the ladder, 0 for a stop. */
  datatype Exit = Exit(isStop: bool, qty: int, stepPct: real)

  function PartialExit(absQty: int, fraction: real, stepPct: real): Option<Exit> {
    var qty := PartialQty(absQty, fraction);
    if qty > 0 then Some(Exit(false, qty, stepPct)) else None
  }

  function ProfitLadder(s: Settings, pnl: real, q: int, signal: Signal, done: set<StepId>): Option<Exit> {
    if s.stopLossPct > 0.0 && pnl <= -s.stopLossPct then Some(Exit(true, Abs(q), 0.0))
    else if pnl <= 0.0 then None
    else if s.profitFullPct > 0.0 && pnl >= s.profitFullPct then Some(Exit(false, Abs(q), s.profitFullPct))
    else if s.profitPartialPct > 0.0 && pnl >= s.profitPartialPct && ProfitPartial !in done then
      PartialExit(Abs(q), s.profitPartialFraction, s.profitPartialPct)
    else if s.profitLockPct > 0.0 && pnl >= s.profitLockPct && ProfitLock !in done
            && LockSignalAllowsExit(signal, q) then
      PartialExit(Abs(q), s.profitLockFraction, s.profitLockPct)
    else None
  }

  function Bracket(s: Settings, pnl: real, q: int): Option<Exit> {
    if s.takeProfitPct > 0.0 && pnl >= s.takeProfitPct then Some(Exit(false, Abs(q), 0.0))
    else if s.stopLossPct > 0.0 && pnl <= -s.stopLossPct then Some(Exit(true, Abs(q), 0.0))
    else None
  }

  function ExitOp(isStop: bool, q: int): OpType {
    if isStop then (if q < 0 then StopLossCover else StopLossSell)
    else (if q < 0 then TakeProfitCover else TakeProfitSell)
  }

  function RiskPnlExit(d: Decision, c: Context): Option<Gate> {
    var s := c.settings;
    var q := PositionFor(c.positions, d.symbol);
    var avg := AvgPriceFor(c.positions, d.symbol);
    if !s.profitTakeEnabled && s.takeProfitPct <= 0.0 && s.stopLossPct <= 0.0 then None
    else if c.lastPrice <= 0.0 || q == 0 || avg <= 0.0 then None
    else
      var pnl := PnlPct(q, avg, c.lastPrice);
      var lot := LotSizeFor(d.symbol, c.lotSizes);
      var exit := if s.profitTakeEnabled then ProfitLadder(s, pnl, q, d.signal, c.stepsDone) else Bracket(s, pnl, q);
      if exit.None? then None
      else
        var e := exit.value;
        var m := NO_METRICS.(lotSize := lot, notional := Notional(e.qty, lot, c.lastPrice));
        Some(Reduce(if e.isStop then StopLoss else TakeProfit, e.qty, ExitOp(e.isStop, q),
                    if s.profitTakeEnabled then m.(profitStep := Some(e.stepPct), avgPrice := Some(avg)) else m))
  }

  // ---- Closing against the position --------------------------------------

  function DesiredQty(d: Decision, c: Context): nat {
    QuantityForBuy(c.cash, d.sizePct, c.lastPrice, LotSizeFor(d.symbol, c.lotSizes))
  }

  /** The signal points against the held position. */
  predicate Opposes(signal: Signal, q: int) { (signal.Sell? && q > 0) || (signal.Buy? && q < 0) }

  predicate ClosesOnly(d: Decision, c: Context) {
    var q := PositionFor(c.positions, d.symbol);
    Opposes(d.signal, q) && (DesiredQty(d, c) <= Abs(q) || !c.settings.allowFlip)
  }

  function CloseGate(d: Decision, c: Context): Gate {
    var q := PositionFor(c.positions, d.symbol);
    var desired := DesiredQty(d, c);
    var lot := LotSizeFor(d.symbol, c.lotSizes);
    var qty := if desired > 0 then MinInt(desired, Abs(q)) else Abs(q);
    Reduce(AllPassed, qty, if q > 0 then CloseLong else CoverShort,
           NO_METRICS.(lotSize := lot, notional := Notional(qty, lot, c.lastPrice)))
  }

  // ---- Opening -----------------------------------------------------------

  /** What the opening part is about; `flipClose` holds the lots to close first. */
  datatype Plan = Plan(baseAbsQty: nat, long: bool, target: int, openOp: OpType,
                       flipClose: Option<int>, closeOnlyOp: Option<OpType>)

  function PlanFor(d: Decision, c: Context): Plan {
    var q := PositionFor(c.positions, d.symbol);
    var desired := DesiredQty(d, c);
    if d.signal.Sell? then
      if q > 0 then Plan(0, false, desired - q, FlipLongToShort, Some(q), Some(CloseLong))
      else Plan(Abs(q), false, desired, if q == 0 then OpenShort else AddShort, None, None)
    else
      if q < 0 then Plan(0, true, desired - Abs(q), FlipShortToLong, Some(Abs(q)), Some(CoverShort))
      else Plan(Abs(q), true, desired, if q == 0 then OpenLong else AddLong, None, None)
  }

  /** A blocked flip degrades to its closing half. The notional here has no lot size. */
  function FlipFallbackOrBlock(m: Metrics, plan: Plan, price: real, name: GateName): Gate {
    if plan.flipClose.Some? && plan.closeOnlyOp.Some? then
      Reduce(name, plan.flipClose.value, plan.closeOnlyOp.value,
             m.(notional := plan.flipClose.value as real * price))
    else Block(name, m)
  }

  function EffectiveSpread(f: Flow): real {
    if f.spreadOneMillionBps <= 0.0 then f.spreadBestBps else f.spreadOneMillionBps
  }

  /** The gates that look at the market and the account, not at the size. */
  function FirstRefusal(d: Decision, c: Context): Option<GateName> {
    var s := c.settings;
    var daily := DailyPnlPct(c);
    if c.lastPrice <= 0.0 then Some(SanityPrice)
    else if d.confidence < s.minConfidence then Some(SanityConfidence)
    else if s.spreadCapBps > 0.0 && c.flow.Some? && EffectiveSpread(c.flow.value) > s.spreadCapBps then
      Some(IlliquidSpread)
    else if s.minEdgePct > 0.0 && c.returnsCount >= 5
            && d.confidence * c.sigma * s.edgeVolMult < MaxReal(s.minEdgePct, 2.0 * CommissionRate(s)) then
      Some(MinEdge)
    else if DrawdownPct(c) >= s.maxDrawdown then Some(KillSwitchDrawdown)
    else if daily.Some? && daily.value <= -s.maxDailyLoss then Some(KillSwitchDailyLoss)
    else None
  }

  function BaseWeight(d: Decision, c: Context, plan: Plan): real {
    if c.nav > 0.0
    then Share(Notional(plan.baseAbsQty, LotSizeFor(d.symbol, c.lotSizes), c.lastPrice), c.nav) else 0.0
  }

  /** Sector weight without the part a flip closes first. */
  function SectorCurrent(d: Decision, c: Context, plan: Plan): real
    requires plan.flipClose.Some? ==> c.nav != 0.0
  {
    var load := SectorLoad(c, d.symbol, SectorOf(d.symbol, c.sectors));
    if plan.flipClose.Some? then
      MaxReal(load - Share(Notional(plan.flipClose.value, LotSizeFor(d.symbol, c.lotSizes), c.lastPrice), c.nav), 0.0)
    else load
  }

  datatype Clip = Refused(name: GateName) | DividesByZero | Clipped(size: real)

  /** Requested size clipped to the room under the instrument and sector caps. */
  function ClipSize(d: Decision, c: Context, plan: Plan): Clip {
    var s := c.settings;
    var base := BaseWeight(d, c, plan);
    if base >= s.maxInstrumentWeight then Refused(InstrumentConcentration)
    else if plan.flipClose.Some? && c.nav == 0.0 then DividesByZero
    else
      var sector := SectorCurrent(d, c, plan);
      if sector >= s.maxSectorWeight then Refused(SectorConcentration)
      else Clipped(MinReal(MinReal(d.sizePct, s.maxInstrumentWeight - base), s.maxSectorWeight - sector))
  }

  function OpenQty(d: Decision, c: Context, plan: Plan, size: real): nat {
    MinInt(QuantityForBuy(c.cash, size, c.lastPrice, LotSizeFor(d.symbol, c.lotSizes)), MaxInt(plan.target, 0))
  }

  function OpenMetrics(d: Decision, c: Context, qty: int): Metrics {
    var lot := LotSizeFor(d.symbol, c.lotSizes);
    var notional := Notional(qty, lot, c.lastPrice);
    var commission := Fee(notional, CommissionRate(c.settings));
    Metrics(lot, notional, commission, notional + commission, None, None)
  }

  function TickBudget(c: Context): real {
    (if c.tickOpenNav > 0.0 then c.tickOpenNav else c.nav) * c.settings.maxTickBuyPct
  }

  /** The gates that look at the sized order. */
  function SecondRefusal(c: Context, plan: Plan, qty: int, m: Metrics): Option<GateName> {
    var s := c.settings;
    if qty <= 0 then Some(SanityQtyCash)
    else if plan.long && m.totalCost > c.cash * (1.0 - s.cashBuffer) then Some(SanityQtyCash)
    else if s.maxTickBuyPct > 0.0 && c.tickBuySpent + m.totalCost > TickBudget(c) then Some(TickAllocation)
    else None
  }

  function EvaluateOpening(d: Decision, c: Context, plan: Plan): Gate {
    var m0 := NO_METRICS.(lotSize := LotSizeFor(d.symbol, c.lotSizes));
    var first := FirstRefusal(d, c);
    if first.Some? then FlipFallbackOrBlock(m0, plan, c.lastPrice, first.value)
    else
      match ClipSize(d, c, plan)
      case Refused(name) => FlipFallbackOrBlock(m0, plan, c.lastPrice, name)
      case DividesByZero => Raised
      case Clipped(size) =>
        if VarPct(c, d.symbol, BaseWeight(d, c, plan) + size) > c.settings.maxVarPct then
          FlipFallbackOrBlock(m0, plan, c.lastPrice, VarGate)
        else
          var qty := OpenQty(d, c, plan, size);
          var m := OpenMetrics(d, c, qty);
          var second := SecondRefusal(c, plan, qty, m);
          if second.Some? then FlipFallbackOrBlock(m, plan, c.lastPrice, second.value)
          else if plan.flipClose.Some? then
            Gate(true, AllPassed, Some(size), None, plan.flipClose, Some(qty), Some(plan.openOp), m)
          else
            Gate(true, AllPassed, Some(size), Some(qty), None, None, Some(plan.openOp), m)
  }

  function Evaluate(d: Decision, c: Context): Gate {
    var trim := RiskTrim(d, c);
    var exit := RiskPnlExit(d, c);
    if !c.settings.riskEnabled then Pass(Disabled)
    else if trim.Some? then trim.value
    else if exit.Some? then exit.value
    else if d.signal.Hold? then Pass(HoldPass)
    else if ClosesOnly(d, c) then CloseGate(d, c)
    else EvaluateOpening(d, c, PlanFor(d, c))
  }
}
