/** Phase 2 of a tick: apply each decision through the Risk Officer and simulate
    cash and positions under the broker's collateral model. */
module Simulation {
  import opened Money
  import opened Portfolio
  import opened Operations
  import opened Risk
  import opened Orders
  import opened Journal

  // ---- Net asset value ---------------------------------------------------

  function EffectiveLot(p: Position, lotSizes: map<string, int>): int {
    if p.brokerLot != 0 then p.brokerLot else LotSizeFor(p.secid, lotSizes)
  }

  function Mark(p: Position, prices: map<string, real>): real {
    if p.secid in prices && prices[p.secid] != 0.0 then prices[p.secid]
    else OrElse(p.brokerPrice, p.avgPrice)
  }

  /** Blocked collateral plus unrealized profit. */
  function CollateralValue(lots: int, avg: real, lot: int, mark: real): real {
    if lots == 0 then 0.0
    else
      var costBasis := Notional(Abs(lots), lot, avg);
      var pnl := if lots > 0 then Notional(lots, lot, mark - avg) else Notional(Abs(lots), lot, avg - mark);
      costBasis + pnl
  }

  function ValueTerm(prices: map<string, real>, lotSizes: map<string, int>): Position -> real {
    (p: Position) => CollateralValue(p.lots, p.avgPrice, EffectiveLot(p, lotSizes), Mark(p, prices))
  }

  function PortfolioNav(cash: real, ps: seq<Position>, prices: map<string, real>, lotSizes: map<string, int>): real {
    cash + Total(ps, ValueTerm(prices, lotSizes))
  }

  /** The NAV loop of the scheduler. */
  method ComputePortfolioNav(cash: real, ps: seq<Position>, prices: map<string, real>, lotSizes: map<string, int>)
    returns (nav: real)
    ensures nav == PortfolioNav(cash, ps, prices, lotSizes)
  {
    hide LotSizeFor, Notional, EffectiveLot, Mark, Total;
    nav := cash;
    TotalOfNone(ValueTerm(prices, lotSizes));
    assert ps[..0] == [];
    for i := 0 to |ps|
      invariant nav == cash + Total(ps[..i], ValueTerm(prices, lotSizes))
    {
      TotalSnoc(ps[..i], ps[i], ValueTerm(prices, lotSizes));
      assert ps[..i + 1] == ps[..i] + [ps[i]];
      var p := ps[i];
      if p.lots != 0 {
        var lot := EffectiveLot(p, lotSizes);
        var last := Mark(p, prices);
        var costBasis := Notional(Abs(p.lots), lot, p.avgPrice);
        var pnl;
        if p.lots > 0 {
          pnl := Notional(p.lots, lot, last - p.avgPrice);
        } else {
          pnl := Notional(Abs(p.lots), lot, p.avgPrice - last);
        }
        nav := nav + (costBasis + pnl);
      }
    }
    assert ps[..|ps|] == ps;
  }

  lemma TotalOfNone(f: Position -> real)
    ensures Total([], f) == 0.0
  {}

  // ---- Cash and position deltas ------------------------------------------

  /** Mean price of `n` lots, `a` of them at `avg` and `b` at `price`. */
  function MeanPrice(a: int, avg: real, b: int, price: real, n: int): real
    requires n != 0
  {
    ((a as real) * avg + (b as real) * price) / (n as real)
  }

  /** Average price after `delta` lots trade at `price` on top of `q` lots at `avg`. */
  function NewAverage(q: int, avg: real, delta: int, price: real): real {
    if q == 0 then price
    else if (q > 0) == (delta > 0) then
      if q + delta != 0 then MeanPrice(Abs(q), avg, Abs(delta), price, Abs(q + delta)) else price
    else if (q > 0) == (q + delta > 0) && q + delta != 0 then avg
    else price
  }

  function StepPositions(ps: seq<Position>, secid: string, delta: int, price: real): seq<Position> {
    var i := IndexOf(ps, secid);
    if i < 0 then ps + [NewRow(secid, delta, price)]
    else
      var q := ps[i].lots + delta;
      if q == 0 then ps[..i] + ps[i + 1..]
      else ps[i := ps[i].(lots := q, avgPrice := NewAverage(ps[i].lots, ps[i].avgPrice, delta, price))]
  }

  /** A position change and the cash it moves: collateral out (negative) or back (positive). */
  datatype Step = Step(delta: int, cash: real)

  /** A single order whose collateral comes back, as the simulation reads it off the operation. */
  predicate ReturnsCollateral(side: Side, op: OpType) {
    if side.BuySide? then op.CoverShort? || CoverSuffix(op) else op.CloseLong? || SellSuffix(op)
  }

  function StepsOf(a: Action, lot: int, price: real): seq<Step> {
    match a
    case FlipExecuted(op, closeQty, openQty, _, _, _) =>
      var sign := if op.FlipLongToShort? then -1 else 1;
      (if closeQty > 0 then [Step(sign * closeQty, Notional(closeQty, lot, price))] else [])
      + (if openQty > 0 then [Step(sign * openQty, -Notional(openQty, lot, price))] else [])
    case Submitted(side, op, qty, _, _, _, _, _, _) =>
      var notional := Notional(qty, lot, price);
      [Step(if side.BuySide? then qty else -qty, if ReturnsCollateral(side, op) then notional else -notional)]
    case _ => []
  }

  function ApplySteps(cash: real, ps: seq<Position>, secid: string, price: real, steps: seq<Step>)
    : (real, seq<Position>)
    decreases |steps|
  {
    if steps == [] then (cash, ps)
    else ApplySteps(cash + steps[0].cash, StepPositions(ps, secid, steps[0].delta, price), secid, price, steps[1..])
  }

  /** The simulation leaves cash and positions alone. */
  predicate NoDelta(a: Action, price: real) {
    !(a.Submitted? || a.FlipExecuted?) || price <= 0.0 || (a.Submitted? && a.qty <= 0)
  }

  function CommissionOf(a: Action): real {
    if a.Submitted? || a.FlipExecuted? then OrElse(a.reply.commission, a.estimatedCommission) else 0.0
  }

  function SummaryDelta(a: Action, price: real, secid: string, cash: real, ps: seq<Position>,
                        lotSizes: map<string, int>)
    : (real, seq<Position>)
  {
    if NoDelta(a, price) then (cash, ps)
    else
      var (cash', ps') := ApplySteps(cash, ps, secid, price, StepsOf(a, LotSizeFor(secid, lotSizes), price));
      (if a.reply.remainingCash.Some? then a.reply.remainingCash.value else cash' - CommissionOf(a), ps')
  }

  /** The same as a loop over the steps on a copied list. */
  method ApplySummaryDelta(a: Action, price: real, secid: string, cash: real, ps: seq<Position>,
                           lotSizes: map<string, int>)
    returns (newCash: real, newPositions: seq<Position>)
    ensures (newCash, newPositions) == SummaryDelta(a, price, secid, cash, ps, lotSizes)
  {
    hide NewAverage, StepsOf, LotSizeFor, IndexOf, CommissionOf;
    newCash, newPositions := cash, ps;
    if NoDelta(a, price) {
      return;
    }
    var steps := StepsOf(a, LotSizeFor(secid, lotSizes), price);
    for i := 0 to |steps|
      invariant ApplySteps(newCash, newPositions, secid, price, steps[i..]) == ApplySteps(cash, ps, secid, price, steps)
    {
      var step := steps[i];
      assert steps[i..][1..] == steps[i + 1..];
      newCash := newCash + step.cash;
      var k := IndexOf(newPositions, secid);
      if k >= 0 {
        var row := newPositions[k];
        var q := row.lots + step.delta;
        if q == 0 {
          newPositions := newPositions[..k] + newPositions[k + 1..];
        } else {
          newPositions := newPositions[k := row.(lots := q,
                                                 avgPrice := NewAverage(row.lots, row.avgPrice, step.delta, price))];
        }
      } else {
        newPositions := newPositions + [NewRow(secid, step.delta, price)];
      }
    }
    newCash := newCash - CommissionOf(a);
    if a.reply.remainingCash.Some? {
      newCash := a.reply.remainingCash.value;
    }
  }

  // ---- One tick ----------------------------------------------------------

  /** What stays fixed during Phase 2. */
  datatype Env = Env(
    settings: Settings,
    lotSizes: map<string, int>,
    sectors: map<string, string>,
    navHistory: seq<NavPoint>,
    today: int,
    journal: seq<Record>,
    tradeLimit: int,
    tickOpenNav: real)

  /** One ticker's Phase 1 result together with the broker's replies. */
  datatype Item =
    | Failed(secid: string)
    | Priced(decision: Decision, lastPrice: real, sigma: real, returnsCount: nat, flow: Option<Flow>, replies: Replies)

  datatype Live = Live(
    cash: real,
    positions: seq<Position>,
    prices: map<string, real>,
    nav: real,
    spent: real,
    trades: int,
    decisions: map<string, Action>,
    orders: seq<Order>,
    logged: seq<Record>)

  function ContextFor(env: Env, st: Live, item: Item): Context
    requires item.Priced?
  {
    Context(st.cash, st.positions, st.nav, item.lastPrice, item.sigma, item.returnsCount,
            env.navHistory, env.today, env.settings, env.lotSizes, env.sectors, map[],
            st.spent, env.tickOpenNav, item.flow,
            ProfitStepsDone(env.journal + st.logged, item.decision.symbol, st.positions, env.settings))
  }

  function GateFor(env: Env, st: Live, item: Item): Gate
    requires item.Priced?
  {
    Evaluate(item.decision, ContextFor(env, st, item))
  }

  /** No outcome when the ticker failed in Phase 1 or its evaluation raised. */
  predicate Applies(env: Env, st: Live, item: Item) { item.Priced? && GateFor(env, st, item).Gate? }

  function OutcomeFor(env: Env, st: Live, item: Item): Outcome
    requires Applies(env, st, item)
  {
    ApplyGate(item.decision, GateFor(env, st, item), item.lastPrice, st.trades, env.tradeLimit,
              CommissionRate(env.settings), item.replies)
  }

  /** Blocks and clipped sizes leave a journal record of their own. */
  function GateLog(d: Decision, g: Gate, a: Action): seq<Record>
    requires g.Gate?
  {
    if a.RiskBlocked? then [Other]
    else if a.Held? || a.DailyTradeLimit? then []
    else if g.effectiveSize.Some? && g.effectiveSize.value != 0.0
            && g.effectiveSize.value < d.sizePct - 0.000000001 then [Other]
    else []
  }

  function TradesOf(a: Action): int {
    if a.Submitted? then 1 else if a.FlipExecuted? then 2 else 0
  }

  /** Gross spend that counts against the tick budget. */
  function SpendOf(a: Action, lot: int, price: real, rate: real): real {
    if a.FlipExecuted? && IsOpening(a.op) then Notional(a.openQty, lot, price) * (1.0 + rate)
    else if a.Submitted? && IsOpening(a.op) then OrElse(a.totalCost, a.notional)
    else 0.0
  }

  function TickStep(env: Env, st: Live, item: Item): Live {
    if !Applies(env, st, item) then st
    else
      var out := OutcomeFor(env, st, item);
      var secid := item.decision.symbol;
      var (cash, ps) := SummaryDelta(out.action, item.lastPrice, secid, st.cash, st.positions, env.lotSizes);
      var prices := if item.lastPrice != 0.0 then st.prices[secid := item.lastPrice] else st.prices;
      Live(cash, ps, prices, PortfolioNav(cash, ps, prices, env.lotSizes),
           st.spent + SpendOf(out.action, LotSizeFor(secid, env.lotSizes), item.lastPrice,
                              CommissionRate(env.settings)),
           st.trades + TradesOf(out.action),
           st.decisions[secid := out.action],
           st.orders + out.orders,
           st.logged + GateLog(item.decision, GateFor(env, st, item), out.action))
  }

  function RunItems(env: Env, st: Live, items: seq<Item>): Live
    decreases |items|
  {
    if items == [] then st else RunItems(env, TickStep(env, st, items[0]), items[1..])
  }
}
