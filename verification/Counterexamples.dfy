/** Inputs on which a promise fails, one for each promise that holds only under
    a condition, with the settings as shipped. */
module Counterexamples {
  import opened Money
  import opened Portfolio
  import opened Sizing
  import opened Operations
  import opened Risk
  import opened RiskProperties
  import opened Orders
  import opened Simulation
  import opened Accounting
  import opened TickSteps
  import opened Charges
  import opened PlainOpenings
  import opened RiskLimits
  import Journal
  import Failsafe
  import Ladder
  import ShortCheck
  import opened Engine
  import opened EngineExposure
  import TickExposure
  import EngineBooks
  import Agreement
  import Fills
  import TickNav
  import TickSafety

  /** The shipped settings. */
  const SHIPPED := Settings(
    riskEnabled := true, commissionRate := 0.0005, allowFlip := false, minConfidence := 0.35,
    maxInstrumentWeight := 0.15, maxSectorWeight := 0.35, maxVarPct := 0.04, maxDrawdown := 0.18, maxDailyLoss := 0.08,
    cashBuffer := 0.02, maxTickBuyPct := 0.30, spreadCapBps := 80.0, minEdgePct := 0.0015, edgeVolMult := 3.0,
    trimEnabled := false, trimBand := 0.10, trimLossTolerance := 0.0, trimStopPct := 0.03, trimMaxPctPerTick := 0.0,
    takeProfitPct := 0.02, stopLossPct := 0.02,
    profitTakeEnabled := false, profitLockPct := 0.007, profitPartialPct := 0.012, profitFullPct := 0.020,
    profitLockFraction := 0.50, profitPartialFraction := 0.50)

  /** Flips switched on. */
  const FLIPPING := SHIPPED.(allowFlip := true)

  // ---- What the shipped settings meet ------------------------------------

  /** As shipped, openings are always paid, rungs are told apart and survive the
      journal; the caps, too, depend on the cash not exceeding the NAV. */
  lemma ShippedSettings(nav: real, cash: real)
    requires nav > 0.0
    ensures OpeningsArePaid(SHIPPED)
    ensures CapsHold(SHIPPED, cash, nav) <==> cash <= nav
    ensures Ladder.LadderConfigured(SHIPPED) && Ladder.NeverRefires(SHIPPED)
  {
    hide OpeningsArePaid, CapsHold, Ladder.NeverRefires;
    ShippedBounds();
    hide SizeLimit, CommissionRate, Permissive, Ladder.LadderConfigured;
    OpeningsPaidExactly(SHIPPED);
    CapsHoldExactly(SHIPPED, cash, nav);
    Ladder.RungsFireOnceExactly(SHIPPED);
  }

  lemma ShippedBounds()
    ensures Permissive(SHIPPED) && Ladder.LadderConfigured(SHIPPED)
    ensures SizeLimit(SHIPPED) * (1.0 + CommissionRate(SHIPPED)) <= 1.0
  {}

  // ---- An exit lost to a zero NAV ----------------------------------------

  const ZERO_NAV_BOOK := [NewRow("A", -1, 10.0), NewRow("B", -10, 1.0)]
  const ZERO_NAV_PRICES := map["A" := 10.0, "B" := 13.0]

  function ZeroNavContext(): Context {
    Context(100.0, ZERO_NAV_BOOK, 0.0, 10.0, 0.0, 0, [], 0, FLIPPING, map[], map[], map[], 0.0, 0.0, None, {})
  }

  lemma LookupIn(x: Position, y: Position)
    requires x.secid != y.secid
    ensures PositionFor([x, y], x.secid) == x.lots && AvgPriceFor([x, y], x.secid) == x.avgPrice
  {
    FirstIs([x, y], 0, x.secid);
  }

  lemma TotalOfTwo(x: Position, y: Position, f: Position -> real)
    ensures Total([x, y], f) == f(x) + f(y)
  {
    assert [x, y] == ([] + [x]) + [y];
    TotalSnoc([] + [x], y, f);
    TotalSnoc([], x, f);
  }

  /** Cash 100, one lot of A short at its price, ten lots of B short at 1 and
      marked at 13: the NAV is zero, and buying A back raises instead. */
  lemma CoverLostAtZeroNav()
    ensures PortfolioNav(100.0, ZERO_NAV_BOOK, ZERO_NAV_PRICES, map[]) == 0.0
    ensures var d := Decision("A", Buy, 1.0, 1.0);
      Opposes(d.signal, PositionFor(ZERO_NAV_BOOK, "A")) && Evaluate(d, ZeroNavContext()).Raised?
  {
    var d, c := Decision("A", Buy, 1.0, 1.0), ZeroNavContext();
    LookupIn(NewRow("A", -1, 10.0), NewRow("B", -10, 1.0));
    ZeroNavBook();
    QuantityIsLargestThatFits(100.0, 1.0, 10.0, 1);
    TenLots();
    ZeroNavPasses(d, c);
    EvaluateRaisesExactly(d, c);
  }

  lemma TenLots()
    ensures QuantityForBuy(100.0, 1.0, 10.0, 1) == 10
  {
    assert LotValue(1, 10.0) == 10.0 && WholeUnits(100.0 * 1.0, 10.0) == 10;
  }

  lemma ZeroNavBook()
    ensures PortfolioNav(100.0, ZERO_NAV_BOOK, ZERO_NAV_PRICES, map[]) == 0.0
  {
    var a, b := NewRow("A", -1, 10.0), NewRow("B", -10, 1.0);
    TotalOfTwo(a, b, ValueTerm(ZERO_NAV_PRICES, map[]));
    ValueOf(-1, 10.0, 1, 10.0);
    ValueOf(-10, 1.0, 1, 13.0);
    assert "A" != "B";
  }

  lemma ZeroNavPasses(d: Decision, c: Context)
    requires d == Decision("A", Buy, 1.0, 1.0) && c == ZeroNavContext()
    requires PositionFor(c.positions, "A") == -1 && AvgPriceFor(c.positions, "A") == 10.0
    requires QuantityForBuy(100.0, 1.0, 10.0, 1) == 10
    ensures RaisesAtZeroNav(d, c)
  {
    assert PnlPct(-1, 10.0, 10.0) == 0.0;
    assert LotSizeFor("A", c.lotSizes) == 1;
    hide PositionFor, AvgPriceFor, QuantityForBuy, PnlPct, LotSizeFor;
    assert DrawdownPct(c) == 0.0;
  }

  // ---- A close without a price -------------------------------------------

  function OneLong(lot: int, price: real): Live {
    Live(10000.0, [NewRow("A", 1, 100.0)], map["A" := price], 10000.0, 0.0, 0, map[], [], [])
  }

  function PlainEnv(s: Settings, lot: int): Env { Env(s, map["A" := lot], map[], [], 0, [], 1000, 10000.0) }

  const ACCEPTED := Reply(true, 0.0, None)

  function SellAt(price: real, confidence: real): Item {
    Priced(Decision("A", Sell, 1.0, confidence), price, 0.0, 0, None, Replies(ACCEPTED, ACCEPTED))
  }

  lemma OneRowLookup(x: Position)
    ensures PositionFor([x], x.secid) == x.lots && AvgPriceFor([x], x.secid) == x.avgPrice
  {
    FirstIs([x], 0, x.secid);
  }

  /** A long of one lot whose last candle closed at 0: the SELL reaches the
      broker and is filled, and the simulated lot stays. */
  lemma CloseWithoutPrice()
    ensures var env, st, item := PlainEnv(SHIPPED, 10), OneLong(10, 100.0), SellAt(0.0, 1.0);
      && Applies(env, st, item) && NetLots(env, st, item) == -1
      && PositionFor(st.positions, "A") == 1 && PositionFor(TickStep(env, st, item).positions, "A") == 1
  {
    var env, st, item := PlainEnv(SHIPPED, 10), OneLong(10, 100.0), SellAt(0.0, 1.0);
    OneRowLookup(NewRow("A", 1, 100.0));
    TickNav.NoPriceGate(item.decision, ContextFor(env, st, item));
    hide Evaluate, ApplyGate, PositionFor, AvgPriceFor, ContextFor, NetAccepted, SummaryDelta, PortfolioNav;
    TickNav.NoPriceNetLots(env, st, item);
    NoPriceNoDelta(OutcomeFor(env, st, item).action, 0.0, "A", st.cash, st.positions, env.lotSizes);
  }

  // ---- A refused flip ----------------------------------------------------

  lemma FlipRefused()
    ensures var c := ContextFor(PlainEnv(FLIPPING, 10), OneLong(10, 100.0), SellAt(100.0, 0.0));
      Evaluate(SellAt(100.0, 0.0).decision, c)
      == Reduce(SanityConfidence, 1, CloseLong, NO_METRICS.(lotSize := 10, notional := 100.0))
  {
    var item := SellAt(100.0, 0.0);
    var d, c := item.decision, ContextFor(PlainEnv(FLIPPING, 10), OneLong(10, 100.0), item);
    OneRowLookup(NewRow("A", 1, 100.0));
    assert PnlPct(1, 100.0, 100.0) == 0.0;
    assert LotSizeFor("A", c.lotSizes) == 10;
    assert DesiredQty(d, c) == 10 by {
      assert LotValue(10, 100.0) == 1000.0 && WholeUnits(10000.0 * 1.0, 1000.0) == 10;
    }
    hide PositionFor, AvgPriceFor, DesiredQty, PnlPct, LotSizeFor, Journal.ProfitStepsDone;
  }

  /** One lot of ten shares at 100, a flip refused for want of conviction: the
      close is charged 0.05 where the commission on its value is 0.5. */
  lemma RefusedFlipUndercharged()
    ensures var env, st, item := PlainEnv(FLIPPING, 10), OneLong(10, 100.0), SellAt(100.0, 0.0);
      && Applies(env, st, item) && NetLots(env, st, item) == -1
      && StepCharge(env, st, item) == 0.05 && TradeFee(-1, 10, 100.0, 0.0005) == 0.5
  {
    var env, st, item := PlainEnv(FLIPPING, 10), OneLong(10, 100.0), SellAt(100.0, 0.0);
    FlipRefused();
    hide Evaluate, ContextFor, NetAccepted;
    var g := GateFor(env, st, item);
    ActionStatesOrders(item.decision, g, 100.0, 0, 1000, CommissionRate(FLIPPING), item.replies);
    TickSafety.ChargedEstimate(item.decision, g, item.lastPrice, 0, 1000, CommissionRate(FLIPPING), item.replies);
  }

  // ---- A forgotten latch, a forgotten rung, an unequal short check --------

  function LongJournal(): seq<Journal.Record> {
    [Journal.BalanceDepleted(0)] + seq(Journal.TAIL_WINDOW, i => Journal.Other)
  }

  /** A depletion followed by 2000 other records: the journal still says
      depleted, a restart reads nothing. */
  lemma LatchLostInTail()
    ensures Failsafe.Replay(LongJournal()) == Some(0)
    ensures Failsafe.Replay(Journal.Tail(LongJournal(), Journal.TAIL_WINDOW)) == None
  {
    var journal := LongJournal();
    var tail := Journal.Tail(journal, Journal.TAIL_WINDOW);
    assert tail == seq(Journal.TAIL_WINDOW, i => Journal.Other);
    Failsafe.ReplayWithoutLatch(tail);
    OthersReplay(Journal.BalanceDepleted(0), Journal.TAIL_WINDOW);
  }

  lemma {:induction false} OthersReplay(r: Journal.Record, n: nat)
    ensures Failsafe.Replay([r] + seq(n, i => Journal.Other)) == Failsafe.Replay([r])
  {
    var all := [r] + seq(n, i => Journal.Other);
    if n == 0 {
      assert all == [r];
    } else {
      assert all[..|all| - 1] == [r] + seq(n - 1, i => Journal.Other);
      OthersReplay(r, n - 1);
    }
  }

  /** A lock threshold of 0.0000004 rounds to zero and is not recognised again. */
  lemma LockForgotten()
    ensures Round6(0.0000004) == 0.0 && !IsClose(Round6(0.0000004), 0.0000004)
  {}

  // ---- The short check ---------------------------------------------------

  function ShortConfig(quantity: int): ShortCheck.Config { ShortCheck.Config(Some("A"), [], quantity, 300) }

  /** A readable file and a broker that fills everything, until the process dies. */
  function World(diesAt: nat, torn: bool): ShortCheck.World {
    ShortCheck.World(false, diesAt, torn, ShortCheck.Success, ShortCheck.Success, k => 1, false, {})
  }

  function TwoLives(first: (ShortCheck.Config, ShortCheck.World),
                    second: (ShortCheck.Config, ShortCheck.World)): ShortCheck.Runner {
    ShortCheck.RunLives(ShortCheck.FRESH, [first, second])
  }

  lemma LivesInTurn(first: (ShortCheck.Config, ShortCheck.World), second: (ShortCheck.Config, ShortCheck.World))
    ensures TwoLives(first, second)
         == ShortCheck.Life(ShortCheck.Life(ShortCheck.FRESH, first.0, first.1), second.0, second.1)
  {
    hide ShortCheck.Life;
    assert [first, second][..1] == [first] && [first][..0] == [];
    assert ShortCheck.RunLives(ShortCheck.FRESH, [first]) == ShortCheck.Life(ShortCheck.FRESH, first.0, first.1);
  }

  /** Sold two, restarted before the buy with a quantity of one: done, and one lot short. */
  lemma DoneButShort()
    ensures var r := TwoLives((ShortConfig(2), World(3, false)), (ShortConfig(1), World(9, false)));
      !r.lost && r.file.Some? && r.file.value.status.Done? && ShortCheck.NetLots(r.calls) == -1
  {
    LivesInTurn((ShortConfig(2), World(3, false)), (ShortConfig(1), World(9, false)));
    var first := ShortCheck.Life(ShortCheck.FRESH, ShortConfig(2), World(3, false));
    SoldAndDied();
    var second := ShortCheck.Life(first, ShortConfig(1), World(9, false));
    assert |second.calls| == 2 && second.calls[1].quantity == 1 && !second.calls[1].sell;
    TwoCalls(second.calls);
  }

  lemma SoldAndDied()
    ensures var r := ShortCheck.Life(ShortCheck.FRESH, ShortConfig(2), World(3, false));
      && !r.lost && |r.calls| == 1 && r.calls[0].sell && r.calls[0].quantity == 2 && r.calls[0].reply.Success?
      && r.file.Some? && r.file.value.status.SellSubmitted? && r.file.value.secid == "A"
      && r.file.value.quantity == 2 && r.file.value.soldAt.Some?
  {}

  lemma TwoCalls(calls: seq<ShortCheck.Call>)
    requires |calls| == 2 && calls[0].sell && !calls[1].sell && calls[0].reply.Success? && calls[1].reply.Success?
    ensures ShortCheck.NetLots(calls) == calls[1].quantity - calls[0].quantity
  {
    var rest := calls[1..];
    assert rest == [calls[1]] && rest[1..] == [];
    assert ShortCheck.NetLots(rest) == calls[1].quantity;
  }

  /** The write after the sale is cut short: the second life finds no readable state and sells again. */
  lemma SoldTwice()
    ensures var r := TwoLives((ShortConfig(1), World(2, true)), (ShortConfig(1), World(2, false)));
      |r.calls| == 2 && r.calls[0].sell && r.calls[1].sell && !ShortCheck.Safe(r.calls)
  {
    LivesInTurn((ShortConfig(1), World(2, true)), (ShortConfig(1), World(2, false)));
    var first := ShortCheck.Life(ShortCheck.FRESH, ShortConfig(1), World(2, true));
    assert first.file == None && |first.calls| == 1 && first.calls[0].sell;
    ShortCheck.ForgottenSellsAgain(first, ShortConfig(1), World(2, false));
  }

  // ---- A backtest over its cap -------------------------------------------

  const TEN := FlatBar(10.0)
  const FLAT: Prices := map["A" := [TEN, TEN, TEN, TEN], "B" := [TEN, TEN, TEN, TEN]]

  /** Short B, then A, at full size. */
  function ShortBoth(v: View): Decision { Decision(if "B" in v.lots then "A" else "B", Sell, 1.0, 1.0) }

  function ShippedRun(): Config {
    Config(SHIPPED, 1000.0, 0.0005, 0.0, true, 0, map[], map["B" := "B"], [], 1, (history, view) => [ShortBoth(view)],
           series => (0.0, 0))
  }

  lemma Lots(cash: real, qty: nat)
    requires 10.0 * (qty as real) <= cash * 0.15 < 10.0 * (qty as real) + 10.0 && qty >= 1
    ensures QuantityForBuy(cash, 0.15, 10.0, 1) == qty
  {
    QuantityIsLargestThatFits(cash, 0.15, 10.0, 1);
    assert LotValue(1, 10.0) == 10.0;
    hide QuantityForBuy;
    var n := QuantityForBuy(cash, 0.15, 10.0, 1);
    assert Notional(n, 1, 10.0) == 10.0 * (n as real) && Notional(n + 1, 1, 10.0) == 10.0 * (n as real) + 10.0;
  }

  /** Any full-size opening of the first bar is clipped to fifteen lots. */
  lemma FirstOpeningFits(d: Decision, history: Prices)
    requires d.sizePct == 1.0 && d.confidence == 1.0 && !d.signal.Hold?
    ensures LotsFit(d, EngineContext(ShippedRun(), OpeningBook(ShippedRun()), history, 1000.0, d.symbol, 10.0), 0,
                    0.15, 15)
  {
    Lots(1000.0, 15);
    FlatWeights(1000.0);
    ShippedCosts();
    NoRows();
    UnitLot(d.symbol);
    FirstContext(d.symbol, history);
    hide QuantityForBuy, Notional, Share, InBudget, InCash, Permissive, TightCap, UniqueSecids, EngineContext,
         LotSizeFor;
  }

  lemma FirstContext(secid: string, history: Prices)
    ensures var c := EngineContext(ShippedRun(), OpeningBook(ShippedRun()), history, 1000.0, secid, 10.0);
      && c.settings == SHIPPED && c.cash == 1000.0 && c.nav == 1000.0 && c.lastPrice == 10.0 && c.positions == []
      && c.navHistory == [] && c.flow.None? && c.returnsCount == 0 && c.tickBuySpent == 0.0 && c.tickOpenNav == c.nav
      && c.sigmaBySymbol == map[] && c.lotSizes == map[]
      && PositionFor(c.positions, secid) == 0
  {
    hide StepsAt, KeyOf;
  }

  lemma ShippedCosts()
    ensures Permissive(SHIPPED) && TightCap(SHIPPED) == 0.15
    ensures InBudget(150.0, 1000.0, SHIPPED) && InCash(150.0, 1000.0, SHIPPED) && InBudget(170.0, 999.925, SHIPPED)
  {}

  lemma FlatWeights(nav: real)
    requires nav > 0.0
    ensures Share(Notional(0, 1, 10.0), nav) == 0.0
    ensures Notional(15, 1, 10.0) == 150.0 && Notional(17, 1, 10.0) == 170.0
  {
    TickExposure.ShareOfNothing(nav);
    assert LotValue(1, 10.0) == 10.0;
  }

  lemma FirstBar()
    ensures var b := BookAt(ShippedRun(), FLAT, 1);
      && b.cash == 1149.925 && b.rows == [NewRow("B", -15, 10.0)] && !b.raised
      && b.equity == [NavPoint(0, 999.925)]
  {
    hide SignalStep, HistoryAt, LotsFit, EngineContext, ExecutionPrice, FillRows, Nav, LotsView;
    var cfg := ShippedRun();
    var b := OpeningBook(cfg);
    FlatNav();
    NothingSeen([], "B");
    FirstOpeningFits(Decision("B", Sell, 1.0, 1.0), HistoryAt(FLAT, 0));
    FlatExecution();
    NoRows();
    OneSignal(cfg, FLAT, 0, HistoryAt(FLAT, 0), 1000.0, b, Decision("B", Sell, 1.0, 1.0));
    OpeningFills(cfg, FLAT, 0, HistoryAt(FLAT, 0), 1000.0, b, Decision("B", Sell, 1.0, 1.0), 10.0, 0, 0.15, 15);
    FlatFill();
    assert BookAt(cfg, FLAT, 0) == b;
  }

  lemma FlatExecution()
    ensures forall t: nat :: t < 4 ==>
      ExecutionPrice(FLAT, "A", t) == Some(10.0) && ExecutionPrice(FLAT, "B", t) == Some(10.0)
  {}

  lemma FlatFill()
    ensures FillRows([], "B", -15, 10.0) == [NewRow("B", -15, 10.0)]
    ensures CashAfter(1000.0, -15, 1, 10.0, TradeCommission(-15, 1, 10.0, 0.0005)) == 1149.925
  {
    var row := NewRow("B", 0, 0.0);
    assert WithRow([], "B") == [row];
    FirstIs([row], 0, "B");
    assert LotValue(1, 10.0) == 10.0;
  }

  lemma FlatNav()
    ensures Nav(FLAT, 0, map[], 1000.0, []) == 1000.0
    ensures Nav(FLAT, 1, map[], 1149.925, [NewRow("B", -15, 10.0)]) == 999.925
  {
    TotalOfOne(NewRow("B", -15, 10.0), StandardTerm(FLAT, 1, map[]));
    assert LotValue(1, 10.0) == 10.0;
  }

  lemma SecondShortFits(b: Book, history: Prices)
    requires b.cash == 1149.925 && b.rows == [NewRow("B", -15, 10.0)] && b.equity == [NavPoint(0, 999.925)]
      && b.spent == 0.0
    ensures LotsFit(Decision("A", Sell, 1.0, 1.0), EngineContext(ShippedRun(), b, history, 999.925, "A", 10.0), 0,
                    0.15, 17)
  {
    hide QuantityForBuy, Notional, Share, InBudget, InCash, Permissive, TightCap, EngineContext, SectorAlone,
         PositionFor, LotSizeFor;
    Lots(1149.925, 17);
    FlatWeights(999.925);
    ShippedCosts();
    UnitLot("A");
    SecondContext(b, history);
    SecondAlone(EngineContext(ShippedRun(), b, history, 999.925, "A", 10.0));
  }

  lemma SecondContext(b: Book, history: Prices)
    requires b.cash == 1149.925 && b.rows == [NewRow("B", -15, 10.0)] && b.equity == [NavPoint(0, 999.925)]
      && b.spent == 0.0
    ensures var c := EngineContext(ShippedRun(), b, history, 999.925, "A", 10.0);
      && c.settings == SHIPPED && c.cash == 1149.925 && c.nav == 999.925 && c.lastPrice == 10.0
      && c.navHistory == [NavPoint(0, 999.925)] && c.today == 1 && c.flow.None? && c.returnsCount == 0
      && c.tickBuySpent == 0.0 && c.tickOpenNav == c.nav && c.sigmaBySymbol == map[] && c.lotSizes == map[]
      && c.positions == [NewRow("B", -15, 10.0)] && c.sectors == map["B" := "B"]
  {
    OneRowKept(NewRow("B", -15, 10.0));
    hide NonZeroRows, StepsAt, KeyOf;
  }

  lemma SecondAlone(c: Context)
    requires c.positions == [NewRow("B", -15, 10.0)] && c.sectors == map["B" := "B"]
    ensures SectorAlone(c, "A") && PositionFor(c.positions, "A") == 0
  {
    assert "A" != "B" && "B" != "OTHER";
    assert SectorOf("A", c.sectors) == "OTHER" && SectorOf("B", c.sectors) == "B";
    Fills.NoMatch(c.positions, "A");
    OneRowUnique(NewRow("B", -15, 10.0));
    hide UniqueSecids;
  }

  /** A whole run under the shipped settings, flat prices at 10 and a capital of
      1000: after a short of B the cash is 1149.925 and the NAV 999.925, and the
      short of A that follows weighs 17 per cent, over the cap of 15. */
  lemma BacktestOverCap()
    ensures var cfg := ShippedRun();
      && BookAt(cfg, FLAT, 1).cash == 1149.925 && BarNav(cfg, FLAT, 1) == 999.925
      && BarSignals(cfg, FLAT, 1) == [Decision("A", Sell, 1.0, 1.0)]
      && var d, c := BarSignals(cfg, FLAT, 1)[0], ContextOf(cfg, FLAT, 1, 0, 10.0);
         IsOpeningGate(Evaluate(d, c)) && OpenedQty(Evaluate(d, c)) == 17 && c.nav == 999.925
         && OpenedWeight(d, c) > SHIPPED.maxInstrumentWeight
  {
    hide Evaluate, HistoryAt, LotsFit, EngineContext, Nav, BookAt, OpenedWeight, OpenedQty, IsOpeningGate, BarSignals,
         BarNav, ContextOf;
    FirstBar();
    SecondSignal();
    OverCap(BookAt(ShippedRun(), FLAT, 1).(spent := 0.0), HistoryAt(FLAT, 1));
  }

  lemma SecondSignal()
    ensures var cfg := ShippedRun();
      && BarNav(cfg, FLAT, 1) == 999.925 && BarSignals(cfg, FLAT, 1) == [Decision("A", Sell, 1.0, 1.0)]
      && ContextOf(cfg, FLAT, 1, 0, 10.0)
         == EngineContext(cfg, BookAt(cfg, FLAT, 1).(spent := 0.0), HistoryAt(FLAT, 1), 999.925, "A", 10.0)
  {
    hide HistoryAt, EngineContext, Nav, BookAt, LotsView;
    var cfg := ShippedRun();
    FirstBar();
    FlatNav();
    SeenLots(BookAt(cfg, FLAT, 1).rows, NewRow("B", -15, 10.0));
    assert BarSignals(cfg, FLAT, 1)[..0] == [];
  }

  lemma OverCap(b: Book, history: Prices)
    requires b.cash == 1149.925 && b.rows == [NewRow("B", -15, 10.0)] && b.equity == [NavPoint(0, 999.925)]
      && b.spent == 0.0
    ensures var d, c := Decision("A", Sell, 1.0, 1.0), EngineContext(ShippedRun(), b, history, 999.925, "A", 10.0);
      && IsOpeningGate(Evaluate(d, c)) && OpenedQty(Evaluate(d, c)) == 17 && c.nav == 999.925
      && OpenedWeight(d, c) > SHIPPED.maxInstrumentWeight
  {
    hide Evaluate, LotsFit, EngineContext, OpenedWeight, OpenedQty, IsOpeningGate, Notional, Share;
    var c := EngineContext(ShippedRun(), b, history, 999.925, "A", 10.0);
    SecondShortFits(b, history);
    FittingLotsOpen(Decision("A", Sell, 1.0, 1.0), c, 0, 0.15, 17);
    OpenedWeights(Decision("A", Sell, 1.0, 1.0), c, 0, 0.15, 17);
    FlatContext(b, history);
    SeventeenLots();
  }

  lemma FlatContext(b: Book, history: Prices)
    ensures var c := EngineContext(ShippedRun(), b, history, 999.925, "A", 10.0);
      c.nav == 999.925 && c.lastPrice == 10.0
  {
    hide NonZeroRows, StepsAt, KeyOf;
  }

  lemma SeventeenLots()
    ensures Share(Notional(17, 1, 10.0), 999.925) > 0.15
  {
    FlatWeights(999.925);
    hide Notional;
  }

  // ---- A reversal without the Risk Officer -------------------------------

  /** Buy one lot, then sell at full size. */
  function BuyThenSell(v: View): Decision {
    if "A" in v.lots then Decision("A", Sell, 1.0, 1.0) else Decision("A", Buy, 0.01, 1.0)
  }

  function UnguardedRun(): Config {
    ShippedRun().(applyRisk := false, decide := (history, view) => [BuyThenSell(view)])
  }

  lemma UnguardedLots()
    ensures QuantityForBuy(1000.0, 0.01, 10.0, 1) == 1 && QuantityForBuy(999.995, 1.0, 10.0, 1) == 99
  {
    assert LotValue(1, 10.0) == 10.0;
    assert WholeUnits(1000.0 * 0.01, 10.0) == 1 && WholeUnits(999.995 * 1.0, 10.0) == 99;
  }

  /** Without the Risk Officer an executed signal is filled in full. */
  lemma UnguardedFill(t: nat, history: Prices, nav: real, b: Book, d: Decision, qty: int)
    requires !b.raised && d.symbol == "A" && !d.signal.Hold? && d.sizePct > 0.0 && nav >= 0.0 && t < 3
    requires QuantityForBuy(nav, d.sizePct, 10.0, 1) == qty && qty > 0
    ensures FilledBook(UnguardedRun(), b, SignalStep(UnguardedRun(), FLAT, t, history, nav, b, d), "A",
                       SignedLots(d, qty), 10.0)
  {
    hide Execute, QuantityForBuy, PositionFor, ExecutionPrice, FillRows, CashAfter, TradeCommission, Notional;
    FlatExecution();
    UnitLot("A");
    Unslipped(10.0, 1);
    Unslipped(10.0, -1);
    ExecuteBook(UnguardedRun(), b, t + 1, "A", SignedLots(d, qty), 10.0, None);
  }

  lemma UnguardedFirstBar()
    ensures var b := BookAt(UnguardedRun(), FLAT, 1); b.cash == 989.995 && b.rows == [NewRow("A", 1, 10.0)] && !b.raised
  {
    hide SignalStep, HistoryAt, FillRows, Nav, LotsView;
    var cfg := UnguardedRun();
    var b, d := OpeningBook(cfg), Decision("A", Buy, 0.01, 1.0);
    FlatNav();
    NothingSeen([], "A");
    UnguardedLots();
    OneSignal(cfg, FLAT, 0, HistoryAt(FLAT, 0), 1000.0, b, d);
    UnguardedFill(0, HistoryAt(FLAT, 0), 1000.0, b, d, 1);
    BoughtOne();
    assert BookAt(cfg, FLAT, 0) == b;
  }

  lemma BoughtOne()
    ensures FillRows([], "A", 1, 10.0) == [NewRow("A", 1, 10.0)]
    ensures CashAfter(1000.0, 1, 1, 10.0, TradeCommission(1, 1, 10.0, 0.0005)) == 989.995
    ensures Nav(FLAT, 1, map[], 989.995, [NewRow("A", 1, 10.0)]) == 999.995
  {
    var row := NewRow("A", 0, 0.0);
    assert WithRow([], "A") == [row];
    FirstIs([row], 0, "A");
    TotalOfOne(NewRow("A", 1, 10.0), StandardTerm(FLAT, 1, map[]));
    assert LotValue(1, 10.0) == 10.0;
  }

  /** Flips off, Risk Officer off: one lot long becomes 98 lots short in one bar. */
  lemma ReversedUnguarded()
    ensures !UnguardedRun().settings.allowFlip
    ensures PositionFor(BookAt(UnguardedRun(), FLAT, 1).rows, "A") == 1
    ensures PositionFor(BookAt(UnguardedRun(), FLAT, 2).rows, "A") == -98
  {
    hide SignalStep, HistoryAt, FillRows, Nav, LotsView, BookAt, UniqueSecids, PositionFor;
    var cfg := UnguardedRun();
    var b, d := BookAt(cfg, FLAT, 1), Decision("A", Sell, 1.0, 1.0);
    UnguardedFirstBar();
    OneRowLookup(NewRow("A", 1, 10.0));
    OneRowUnique(NewRow("A", 1, 10.0));
    BoughtOne();
    SeenLots(b.rows, NewRow("A", 1, 10.0));
    UnguardedLots();
    OneSignal(cfg, FLAT, 1, HistoryAt(FLAT, 1), 999.995, b.(spent := 0.0), d);
    UnguardedFill(1, HistoryAt(FLAT, 1), 999.995, b.(spent := 0.0), d, 99);
    EngineBooks.FillRowsLookup(b.rows, "A", -99, 10.0);
    NextBook(cfg, 2);
  }

  lemma OneRowUnique(p: Position)
    ensures UniqueSecids([p])
  {}

  lemma NextBook(cfg: Config, t: nat)
    requires t > cfg.warmup
    ensures BookAt(cfg, FLAT, t) == BarStep(cfg, FLAT, t - 1, BookAt(cfg, FLAT, t - 1))
  {
    hide BarStep;
  }

  // ---- Two budgets -------------------------------------------------------

  /** Fifteen lots at 10: the backtest counts 150 against the tick budget, the live gateway 150.075. */
  lemma BudgetsApart()
    ensures var cfg, d := ShippedRun(), Decision("A", Buy, 1.0, 1.0);
      var res := Resolve(cfg, OpeningBook(cfg), map[], 1000.0, d, 10.0);
      var g := Evaluate(d, EngineContext(cfg, OpeningBook(cfg), map[], 1000.0, "A", 10.0));
      && res.Resolved? && res.lots == 15 && Agreement.EngineSpend(res, 1, 10.0) == 150.0
      && g.Gate?
      && SpendOf(ApplyGate(d, g, 10.0, 0, 0, 0.0005, Replies(ACCEPTED, ACCEPTED)).action, 1, 10.0, 0.0005) == 150.075
  {
    hide Evaluate, Resolve, ApplyGate, EngineContext, LotsFit, OpenedQty, FitsPosition, Agreement.TakenFrom,
         PositionFor, SpendOf, OpenMetrics, PlanFor, UniqueSecids;
    var cfg, d := ShippedRun(), Decision("A", Buy, 1.0, 1.0);
    var b := OpeningBook(cfg);
    var c := EngineContext(cfg, b, map[], 1000.0, "A", 10.0);
    FirstOpeningFits(d, map[]);
    NoRows();
    FittingLotsOpen(d, c, 0, 0.15, 15);
    Agreement.ResolutionOf(cfg, b, map[], 1000.0, d, 10.0);
    Agreement.EngineLots(cfg, b, map[], 1000.0, "A", 10.0);
    EvaluateFitsPosition(d, c);
    OpenedLotsTaken(d, Evaluate(d, c), Resolve(cfg, b, map[], 1000.0, d, 10.0), PositionFor(b.rows, "A"), false);
    FlatPosition();
    LongFromFlat(d, Evaluate(d, c), Resolve(cfg, b, map[], 1000.0, d, 10.0), PositionFor(b.rows, "A"));
    Agreement.BudgetsDiffer(cfg, b, map[], 1000.0, d, 10.0, 0, 0, Replies(ACCEPTED, ACCEPTED));
    FlatWeights(1000.0);
    UnitLot("A");
    ShippedRate();
  }

  lemma FlatPosition()
    ensures PositionFor([], "A") == 0
  {}

  lemma ShippedRate()
    ensures CommissionRate(SHIPPED) == 0.0005 && Agreement.OrderFee(15, 1, 10.0, 0.0005) == 0.075
  {
    FlatWeights(1000.0);
  }

  lemma LongFromFlat(d: Decision, g: Gate, res: Resolution, q: int)
    requires FitsPosition(g, d.signal, q, false) && g.allowed && g.op.Some? && IsOpening(g.op.value)
      && !IsFlip(g.op.value)
    requires d.signal.Buy? && q == 0 && res.Resolved? && Agreement.TakenFrom(res, g) && res.lots > 0
    ensures g.op == Some(OpenLong) && res.opening
  {}
}
