/** How far the opening guarantees reach: the exact conditions under which
    clipping pays for a short and keeps ticker and sector within their caps. */
module RiskLimits {
  import opened Money
  import opened Portfolio
  import opened Sizing
  import opened Risk
  import opened RiskProperties
  import opened Openings
  import opened PlainOpenings
  import opened Simulation
  import opened Accounting
  import Fills
  import Trim
  import opened TickSafety
  import opened TickExposure

  // ---- Accounts ----------------------------------------------------------

  /** Positive prices and entries, and a NAV that is the value of the book. */
  ghost predicate RealAccount(d: Decision, c: Context, prices: map<string, real>) {
    && ValidDecision(d)
    && WellFormed(c.positions, c.lotSizes)
    && (forall p :: p in c.positions ==> p.avgPrice > 0.0 && Mark(p, prices) > 0.0)
    && c.nav == PortfolioNav(c.cash, c.positions, prices, c.lotSizes)
    && d.symbol in prices && prices[d.symbol] == c.lastPrice > 0.0
  }

  /** Largest share of the cash that clipping can leave. */
  function SizeLimit(s: Settings): real { MinReal(1.0, TightCap(s)) }

  const TICKER := "A"
  const OTHER_TICKER := "B"

  /** A confident full-size short. */
  function FullShort(): Decision { Decision(TICKER, Sell, 1.0, 1.0) }

  // ---- A live account ----------------------------------------------------

  /** Position in another sector that is worth `value` roubles to the NAV: a long,
      or a short that trades above twice its entry. */
  function Balancing(value: real): Position {
    if value > 0.0 then NewRow(OTHER_TICKER, 1, value) else NewRow(OTHER_TICKER, -1, 1.0)
  }

  function BalancingMark(value: real): real { if value > 0.0 then value else 2.0 - value }

  function HeldShort(held: int, price: real): seq<Position> { if held > 0 then [NewRow(TICKER, -held, price)] else [] }

  function BalanceOf(cash: real, nav: real, held: int, price: real): real { nav - cash - Notional(held, 1, price) }

  /** First decision of a tick on an account of the given cash and NAV. */
  function LiveAccount(s: Settings, cash: real, nav: real, held: int, price: real): Context {
    Context(cash, HeldShort(held, price) + [Balancing(BalanceOf(cash, nav, held, price))], nav, price, 0.0, 0, [], 0,
            s, map[],
            map[OTHER_TICKER := OTHER_TICKER], map[], 0.0, nav, None, {})
  }

  function AccountPrices(cash: real, nav: real, held: int, price: real): map<string, real> {
    map[TICKER := price, OTHER_TICKER := BalancingMark(BalanceOf(cash, nav, held, price))]
  }

  lemma TotalOfHeld(held: int, price: real, other: Position, f: Position -> real)
    requires held >= 0
    ensures Total(HeldShort(held, price) + [other], f)
       == (if held > 0 then f(NewRow(TICKER, -held, price)) else 0.0) + f(other)
  {
    TotalSnoc(HeldShort(held, price), other, f);
    if held > 0 {
      assert HeldShort(held, price) == [] + [NewRow(TICKER, -held, price)];
      TotalSnoc([], NewRow(TICKER, -held, price), f);
    }
  }

  lemma HeldLookup(held: int, price: real, other: Position)
    requires held >= 0 && other.secid == OTHER_TICKER
    ensures var ps := HeldShort(held, price) + [other];
      && UniqueSecids(ps) && PositionFor(ps, TICKER) == -held && (held > 0 ==> AvgPriceFor(ps, TICKER) == price)
      && forall p :: p in ps <==> (held > 0 && p == NewRow(TICKER, -held, price)) || p == other
  {
    var ps := HeldShort(held, price) + [other];
    assert TICKER != OTHER_TICKER;
    if held > 0 {
      assert ps == [NewRow(TICKER, -held, price), other];
      FirstIs(ps, 0, TICKER);
    } else {
      assert ps == [other];
      Fills.NoMatch(ps, TICKER);
    }
  }

  lemma BalancingValue(value: real)
    ensures var p := Balancing(value); CollateralValue(p.lots, p.avgPrice, 1, BalancingMark(value)) == value
  {
    ValueOf(Balancing(value).lots, Balancing(value).avgPrice, 1, BalancingMark(value));
    assert forall x: real :: Notional(1, 1, x) == x;
  }

  lemma HeldValue(held: int, price: real)
    requires held > 0
    ensures CollateralValue(-held, price, 1, price) == Notional(held, 1, price)
  {
    ValueOf(-held, price, 1, price);
  }

  lemma LiveNav(s: Settings, cash: real, nav: real, held: int, price: real)
    requires held >= 0 && price > 0.0
    ensures PortfolioNav(cash, LiveAccount(s, cash, nav, held, price).positions, AccountPrices(cash, nav, held, price),
                         map[]) == nav
  {
    hide CollateralValue, Notional, Balancing;
    var v := BalanceOf(cash, nav, held, price);
    var other, prices := Balancing(v), AccountPrices(cash, nav, held, price);
    BalancingRow(v);
    TotalOfHeld(held, price, other, ValueTerm(prices, map[]));
    BalancingValue(v);
    assert ValueTerm(prices, map[])(other) == v;
    if held > 0 {
      HeldValue(held, price);
    } else {
      ZeroLots(1, price);
    }
  }

  lemma BalancingRow(value: real)
    ensures var p := Balancing(value);
      p.secid == OTHER_TICKER && p.brokerLot == 0 && p.brokerPrice == 0.0 && p.avgPrice > 0.0
        && BalancingMark(value) > 0.0
  {}

  lemma LiveAccountIsReal(s: Settings, cash: real, nav: real, held: int, price: real)
    requires held >= 0 && price > 0.0
    ensures RealAccount(FullShort(), LiveAccount(s, cash, nav, held, price), AccountPrices(cash, nav, held, price))
  {
    hide Balancing, BalancingMark, PortfolioNav, PositionFor, AvgPriceFor, HeldShort;
    var v := BalanceOf(cash, nav, held, price);
    BalancingRow(v);
    HeldLookup(held, price, Balancing(v));
    LiveNav(s, cash, nav, held, price);
  }

  lemma LiveShortFits(s: Settings, cash: real, nav: real, held: int, price: real, size: real)
    requires Permissive(s) && held >= 0 && price > 0.0 && cash > 0.0 && nav > 0.0
    requires 0.0 < size == MinReal(1.0, TightCap(s) - Share(Notional(held, 1, price), nav))
    requires Allotment(cash, size) == price
    requires InBudget(price, nav, s)
    ensures LotsFit(FullShort(), LiveAccount(s, cash, nav, held, price), held, size, 1)
  {
    hide Balancing, BalanceOf, HeldShort, Share, Notional, CommissionRate, TightCap, Permissive, Allotment,
         QuantityForBuy, PositionFor, AvgPriceFor, UniqueSecids, InBudget, InCash, LotsFit;
    var other := Balancing(BalanceOf(cash, nav, held, price));
    BalancingRow(BalanceOf(cash, nav, held, price));
    HeldLookup(held, price, other);
    assert SectorOf(TICKER, map[OTHER_TICKER := OTHER_TICKER]) == "OTHER";
    assert TICKER != OTHER_TICKER && OTHER_TICKER != "OTHER";
    OneLotFits(FullShort(), LiveAccount(s, cash, nav, held, price), held, size);
  }

  // ---- Openings are paid -------------------------------------------------

  /** Every opening of a real account costs no more than its cash. */
  ghost predicate OpeningsArePaid(s: Settings) {
    forall d: Decision, c: Context, prices: map<string, real> ::
      RealAccount(d, c, prices) && c.settings == s && IsOpeningGate(Evaluate(d, c)) ==>
        OpenMetrics(d, c, OpenedQty(Evaluate(d, c))).totalCost <= c.cash
  }

  lemma SectorNonNegative(d: Decision, c: Context, prices: map<string, real>)
    requires RealAccount(d, c, prices) && (PlanFor(d, c).flipClose.Some? ==> c.nav != 0.0)
    ensures SectorCurrent(d, c, PlanFor(d, c)) >= 0.0
  {
    hide PlanFor, LotSizeFor, Notional, Share, PortfolioNav;
    if c.nav > 0.0 {
      var f := SectorTerm(c, d.symbol, SectorOf(d.symbol, c.sectors));
      forall p | p in c.positions ensures f(p) >= 0.0 {
        var lot := LotSizeFor(p.secid, c.lotSizes);
        NotionalNonNegative(Abs(p.lots), lot, p.avgPrice);
        NotionalNonNegative(Abs(p.lots), lot, c.lastPrice);
        ShareNonNegative(Notional(Abs(p.lots), lot, p.avgPrice), c.nav);
        ShareNonNegative(Notional(Abs(p.lots), lot, c.lastPrice), c.nav);
      }
      TotalNonNegative(c.positions, f);
    }
  }

  lemma SizeWithinLimit(d: Decision, c: Context, prices: map<string, real>, size: real, qty: int)
    requires RealAccount(d, c, prices) && OpeningPassed(d, c, size, qty)
    ensures size <= SizeLimit(c.settings)
  {
    OpeningRoom(d, c, size, qty);
    PassedSize(d, c, size, qty);
    hide PlanFor, OpeningPassed, SectorCurrent, BaseWeight, PortfolioNav;
    SectorNonNegative(d, c, prices);
    BaseWeightNonNegative(d, c);
  }

  lemma PaidWithinLimit(d: Decision, c: Context, prices: map<string, real>)
    requires RealAccount(d, c, prices) && IsOpeningGate(Evaluate(d, c))
    requires SizeLimit(c.settings) * (1.0 + CommissionRate(c.settings)) <= 1.0
    ensures OpenMetrics(d, c, OpenedQty(Evaluate(d, c))).totalCost <= c.cash
  {
    hide Evaluate, OpeningPassed, Notional, LotSizeFor, PlanFor, OpenedQty, CommissionRate, SizeLimit, RealAccount,
         Fee;
    OpeningHasPassed(d, c);
    var size, qty := Evaluate(d, c).effectiveSize.value, OpenedQty(Evaluate(d, c));
    SizeWithinLimit(d, c, prices, size, qty);
    OpenedFitsCash(d, c, size, qty);
    var rate := CommissionRate(c.settings);
    var n := Notional(qty, LotSizeFor(d.symbol, c.lotSizes), c.lastPrice);
    ShareWithFee(n, c.cash, size, SizeLimit(c.settings), rate);
  }

  /** NAV of an account whose tick budget affords the full short. */
  function RoomyNav(s: Settings): real {
    2.0 + if s.maxTickBuyPct > 0.0 then Share(WithCommission(SizeLimit(s), s), s.maxTickBuyPct) else 0.0
  }

  lemma RoomyBudget(s: Settings)
    requires SizeLimit(s) > 0.0
    ensures RoomyNav(s) >= 2.0
    ensures InBudget(SizeLimit(s), RoomyNav(s), s)
  {
    hide SizeLimit, CommissionRate, Share;
    var cost, pct := WithCommission(SizeLimit(s), s), s.maxTickBuyPct;
    ProductNonNegative(SizeLimit(s), 1.0 + CommissionRate(s));
    if pct > 0.0 {
      ShareNonNegative(cost, pct);
      Trim.ShareTimes(cost, pct);
      assert (2.0 + Share(cost, pct)) * pct == 2.0 * pct + Share(cost, pct) * pct;
    }
  }

  lemma RoomySize(s: Settings)
    requires Permissive(s)
    ensures var p := SizeLimit(s);
      && RoomyNav(s) >= 2.0 && p > 0.0
      && LotsFit(FullShort(), LiveAccount(s, 1.0, RoomyNav(s), 0, p), 0, p, 1)
  {
    var p, nav := SizeLimit(s), RoomyNav(s);
    assert p > 0.0;
    RoomyBudget(s);
    hide RoomyNav, LiveAccount, LotsFit, CommissionRate;
    ZeroLots(1, p);
    ShareOfNothing(nav);
    assert Share(Notional(0, 1, p), nav) == 0.0;
    assert Allotment(1.0, p) == p;
    hide Notional, Share, Allotment, Permissive;
    LiveShortFits(s, 1.0, nav, 0, p, p);
  }

  lemma UnpaidShort(s: Settings)
    requires Permissive(s) && SizeLimit(s) * (1.0 + CommissionRate(s)) > 1.0
    ensures var p := SizeLimit(s); var d, c := FullShort(), LiveAccount(s, 1.0, RoomyNav(s), 0, p);
      && RealAccount(d, c, AccountPrices(1.0, RoomyNav(s), 0, p)) && c.settings == s && IsOpeningGate(Evaluate(d, c))
      && OpenMetrics(d, c, OpenedQty(Evaluate(d, c))).totalCost > c.cash
  {
    hide Evaluate, FullShort, OpenedQty, CommissionRate, Permissive, LotsFit, OpenMetrics, RealAccount, SizeLimit,
         RoomyNav, PlanFor, IsOpeningGate, HeldShort, Balancing, AccountPrices;
    var p, nav := SizeLimit(s), RoomyNav(s);
    RoomySize(s);
    LiveAccountIsReal(s, 1.0, nav, 0, p);
    FittingLotsOpen(FullShort(), LiveAccount(s, 1.0, nav, 0, p), 0, p, 1);
    LotNotional(1, p);
  }

  /** There is no cash check on the short side: every opening of a real account
      is covered by its cash exactly when the largest share that clipping leaves,
      with commission, is at most the whole cash. */
  lemma OpeningsPaidExactly(s: Settings)
    requires Permissive(s)
    ensures OpeningsArePaid(s) <==> SizeLimit(s) * (1.0 + CommissionRate(s)) <= 1.0
  {
    hide Evaluate, OpenMetrics, OpenedQty, RealAccount, FullShort, LiveAccount, Permissive, SizeLimit, CommissionRate;
    if SizeLimit(s) * (1.0 + CommissionRate(s)) <= 1.0 {
      forall d: Decision, c: Context, prices: map<string, real>
        | RealAccount(d, c, prices) && c.settings == s && IsOpeningGate(Evaluate(d, c))
        ensures OpenMetrics(d, c, OpenedQty(Evaluate(d, c))).totalCost <= c.cash
      {
        PaidWithinLimit(d, c, prices);
      }
    } else {
      UnpaidShort(s);
    }
  }

  // ---- Caps after an opening ---------------------------------------------

  /** Both caps hold after every opening of a real account with this cash and NAV. */
  ghost predicate CapsHold(s: Settings, cash: real, nav: real)
    requires nav > 0.0
  {
    forall d: Decision, c: Context, prices: map<string, real> ::
      RealAccount(d, c, prices) && c.settings == s && c.cash == cash && c.nav == nav
        && IsOpeningGate(Evaluate(d, c)) ==>
        OpenedWeight(d, c) <= s.maxInstrumentWeight && OpenedSector(d, c) <= s.maxSectorWeight
  }

  // ---- One lot too many --------------------------------------------------

  /** Lots held before the opening, enough for one more to fit the size, the tick budget and the cash buffer. */
  function HeldLots(s: Settings): int { HeldBound(s).Floor + 1 }

  /** How many prices of one lot a share of the NAV must cover. */
  function LotsFor(s: Settings, pct: real): real {
    if pct > 0.0 then Share(WithCommission(TightCap(s), s), pct) else 0.0
  }

  function HeldBound(s: Settings): real {
    1.0 + TightCap(s) + LotsFor(s, s.maxTickBuyPct) + LotsFor(s, 1.0 - s.cashBuffer)
  }

  lemma HeldLotsSuffice(s: Settings)
    requires TightCap(s) > 0.0
    ensures HeldLots(s) >= 1 && HeldLots(s) as real >= TightCap(s)
    ensures s.maxTickBuyPct > 0.0 ==> WithCommission(TightCap(s), s) <= HeldLots(s) as real * s.maxTickBuyPct
    ensures s.cashBuffer < 1.0 ==> WithCommission(TightCap(s), s) <= HeldLots(s) as real * (1.0 - s.cashBuffer)
  {
    LotsForEnough(s, s.maxTickBuyPct, HeldLots(s) as real);
    LotsForEnough(s, 1.0 - s.cashBuffer, HeldLots(s) as real);
    hide TightCap, WithCommission, LotsFor;
    assert HeldLots(s) as real > HeldBound(s);
  }

  lemma LotsForEnough(s: Settings, pct: real, n: real)
    requires TightCap(s) > 0.0
    ensures LotsFor(s, pct) >= 0.0
    ensures pct > 0.0 && n >= LotsFor(s, pct) ==> WithCommission(TightCap(s), s) <= n * pct
  {
    var cost := WithCommission(TightCap(s), s);
    ProductNonNegative(TightCap(s), 1.0 + CommissionRate(s));
    hide TightCap, WithCommission, Share;
    if pct > 0.0 {
      ShareNonNegative(cost, pct);
      Trim.ShareTimes(cost, pct);
      if n >= LotsFor(s, pct) {
        ScaleLess(Share(cost, pct), n, pct);
      }
    }
  }

  /** The arithmetic of the tight price, with x the cap's share of held * cash + nav. */
  lemma TightPriceFacts(k: real, cash: real, nav: real, n: real, x: real, p: real)
    requires cash > nav > 0.0 && k > 0.0 && n >= 1.0 && n >= k
    requires x * (n * cash + nav) == k && p == x * nav * cash
    ensures x > 0.0 && p > 0.0
    ensures n * p == (k - x * nav) * nav
    ensures 0.0 < x * nav <= 1.0
    ensures cash * (x * nav) == p
    ensures n * p + p > k * nav
    ensures n * p <= k * nav
  {
    ProductPositive(n, cash);
    if x <= 0.0 {
      ProductNonNegative(-x, n * cash + nav);
    }
    ProductPositive(x, nav);
    ProductPositive(x * nav, cash);
    assert x * (n * cash + nav) == x * (n * cash) + x * nav;
    assert n * p == (x * (n * cash)) * nav;
    ProductPositive(x * nav, cash - nav);
    assert (x * nav) * (cash - nav) == p - (x * nav) * nav;
    assert (k - x * nav) * nav == k * nav - (x * nav) * nav;
    ProductPositive(x * nav, nav);
    if x * nav > 1.0 {
      TooLarge(k, cash, nav, n, x);
    }
  }

  lemma TooLarge(k: real, cash: real, nav: real, n: real, x: real)
    requires cash > nav > 0.0 && n >= k > 0.0 && x > 0.0
    requires x * (n * cash + nav) == k
    ensures x * nav <= 1.0
  {
    var y := x * nav;
    ProductPositive(n, x);
    ScaleMore(cash, nav, n * x);
    assert x * (n * cash + nav) == (n * x) * cash + y;
    assert (n * x) * nav == n * y;
    AtMostOne(n, y);
  }

  lemma AtMostOne(n: real, y: real)
    requires n > 0.0 && n * y + y < n
    ensures y <= 1.0
  {
    if y > 1.0 {
      ProductPositive(n, y - 1.0);
    }
  }

  lemma ScaleMore(x: real, y: real, k: real)
    requires x > y && k > 0.0
    ensures k * x > k * y
  {
    ProductPositive(x - y, k);
  }

  // ---- The caps fail exactly beyond the NAV ------------------------------

  /** Share of the tight cap that one rouble of `held * cash + nav` stands for. */
  function TightUnit(s: Settings, cash: real, nav: real): real
    requires cash > 0.0 && nav > 0.0 && TightCap(s) > 0.0
  {
    HeldLotsSuffice(s);
    ProductPositive(HeldLots(s) as real, cash);
    Share(TightCap(s), HeldLots(s) as real * cash + nav)
  }

  function TightPrice(s: Settings, cash: real, nav: real): real
    requires cash > 0.0 && nav > 0.0 && TightCap(s) > 0.0
  {
    TightUnit(s, cash, nav) * nav * cash
  }

  /** What the price is chosen for: the held lots stay below the cap, the next one fits, and goes above it. */
  ghost predicate OneTooMany(s: Settings, cash: real, nav: real, n: int, p: real, size: real) {
    var k := TightCap(s);
    && n >= 1 && p > 0.0 && 0.0 < size <= 1.0
    && Notional(n, 1, p) == (k - size) * nav
    && Allotment(cash, size) == p
    && Notional(n, 1, p) + Notional(1, 1, p) > k * nav
    && InBudget(p, nav, s) && (s.cashBuffer < 1.0 ==> InCash(p, nav, s))
  }

  lemma TightPriceFits(s: Settings, cash: real, nav: real)
    requires cash > nav > 0.0 && TightCap(s) > 0.0
    ensures OneTooMany(s, cash, nav, HeldLots(s), TightPrice(s, cash, nav), TightUnit(s, cash, nav) * nav)
  {
    hide HeldLots, TightCap, TightUnit, TightPrice, CommissionRate, Notional, InBudget, InCash;
    HeldLotsSuffice(s);
    TightUnitTimes(s, cash, nav);
    var n, k, x, p := HeldLots(s), TightCap(s), TightUnit(s, cash, nav), TightPrice(s, cash, nav);
    TightPriceFacts(k, cash, nav, n as real, x, p);
    LotNotional(n, p);
    OneLotNotional(p);
    TightMoney(s, n as real, p, nav);
  }

  /** The held lots keep one more within the tick budget and the cash buffer. */
  lemma TightMoney(s: Settings, n: real, p: real, nav: real)
    requires n >= 1.0 && p > 0.0 && nav > 0.0 && n * p <= TightCap(s) * nav
    requires s.maxTickBuyPct > 0.0 ==> WithCommission(TightCap(s), s) <= n * s.maxTickBuyPct
    requires s.cashBuffer < 1.0 ==> WithCommission(TightCap(s), s) <= n * (1.0 - s.cashBuffer)
    ensures InBudget(p, nav, s) && (s.cashBuffer < 1.0 ==> InCash(p, nav, s))
  {
    hide TightCap, CommissionRate;
    if s.maxTickBuyPct > 0.0 {
      BudgetScales(n, p, TightCap(s), nav, 1.0 + CommissionRate(s), s.maxTickBuyPct);
    }
    if s.cashBuffer < 1.0 {
      BudgetScales(n, p, TightCap(s), nav, 1.0 + CommissionRate(s), 1.0 - s.cashBuffer);
    }
  }

  lemma TightUnitTimes(s: Settings, cash: real, nav: real)
    requires cash > 0.0 && nav > 0.0 && TightCap(s) > 0.0
    ensures TightUnit(s, cash, nav) * (HeldLots(s) as real * cash + nav) == TightCap(s)
    ensures TightPrice(s, cash, nav) == TightUnit(s, cash, nav) * nav * cash
  {
    hide HeldLots, TightCap, Share;
    HeldLotsSuffice(s);
    ProductPositive(HeldLots(s) as real, cash);
    Trim.ShareTimes(TightCap(s), HeldLots(s) as real * cash + nav);
  }

  lemma BudgetScales(n: real, p: real, k: real, nav: real, gross: real, pct: real)
    requires n >= 1.0 && p > 0.0 && nav > 0.0 && gross >= 1.0 && n * p <= k * nav && k * gross <= n * pct
    ensures p * gross <= nav * pct
  {
    ScaleLess(n * p, k * nav, gross);
    ScaleLess(k * gross, n * pct, nav);
    assert n * (p * gross) == (n * p) * gross;
    assert (k * nav) * gross == (k * gross) * nav;
    assert n * (nav * pct) == (n * pct) * nav;
    if p * gross > nav * pct {
      ScaleMore(p * gross, nav * pct, n);
    }
  }

  /** With more cash than NAV, one lot on top of a position just below the cap
      breaks the tighter of the two caps. */
  lemma OneTooManyFits(s: Settings, cash: real, nav: real, n: int, p: real, size: real)
    requires Permissive(s) && cash > nav > 0.0 && OneTooMany(s, cash, nav, n, p, size)
    ensures LotsFit(FullShort(), LiveAccount(s, cash, nav, n, p), n, size, 1)
    ensures Share(Notional(n, 1, p), nav) == TightCap(s) - size
  {
    hide LiveAccount, LotsFit, Permissive, TightCap, CommissionRate, Allotment;
    ShareOfProduct(Notional(n, 1, p), TightCap(s) - size, nav);
    hide Share, Notional;
    LiveShortFits(s, cash, nav, n, p, size);
  }

  lemma ShareOfProduct(x: real, w: real, nav: real)
    requires nav > 0.0 && x == w * nav
    ensures Share(x, nav) == w
  {
    QuotientTimes(x, nav);
    var y := Share(x, nav);
    hide Share;
    if y < w {
      ProductPositive(w - y, nav);
    } else if y > w {
      ProductPositive(y - w, nav);
    }
  }

  lemma OverweightShort(s: Settings, cash: real, nav: real, n: int, p: real, size: real)
    requires Permissive(s) && cash > nav > 0.0 && OneTooMany(s, cash, nav, n, p, size) && n >= 1 && p > 0.0
    ensures var d, c := FullShort(), LiveAccount(s, cash, nav, n, p);
      && RealAccount(d, c, AccountPrices(cash, nav, n, p)) && c.settings == s && c.cash == cash && c.nav == nav
      && IsOpeningGate(Evaluate(d, c))
      && (OpenedWeight(d, c) > s.maxInstrumentWeight || OpenedSector(d, c) > s.maxSectorWeight)
  {
    hide Evaluate, FullShort, OpenedQty, CommissionRate, LotsFit, RealAccount, PlanFor, IsOpeningGate, HeldShort,
         Balancing, AccountPrices, OpenedWeight, OpenedSector, Notional, Share, OneTooMany, Permissive, HeldWeight,
         BalanceOf;
    var c := LiveAccount(s, cash, nav, n, p);
    OneTooManyFits(s, cash, nav, n, p, size);
    OpenedWeights(FullShort(), c, n, size, 1);
    WeightsAboveCap(s, cash, nav, n, p, size);
    HeldWeightOf(c, n);
    LiveAccountIsReal(s, cash, nav, n, p);
  }

  lemma HeldWeightOf(c: Context, n: int)
    requires c.nav > 0.0
    ensures HeldWeight(c, n) == Share(Notional(n, 1, c.lastPrice), c.nav)
  {}

  lemma WeightsAboveCap(s: Settings, cash: real, nav: real, n: int, p: real, size: real)
    requires nav > 0.0 && OneTooMany(s, cash, nav, n, p, size)
    ensures Share(Notional(n + 1, 1, p), nav) > TightCap(s)
    ensures Share(Notional(n, 1, p), nav) + Share(Notional(1, 1, p), nav) > TightCap(s)
  {
    hide TightCap, Notional, Allotment;
    NotionalAdds(n, 1, 1, p);
    ShareAbove(Notional(n, 1, p) + Notional(1, 1, p), TightCap(s), nav);
    ShareAdds(Notional(n, 1, p), Notional(1, 1, p), nav);
  }

  lemma ShareAbove(x: real, cap: real, nav: real)
    requires nav > 0.0 && x > cap * nav
    ensures Share(x, nav) > cap
  {
    QuotientTimes(x, nav);
    if Share(x, nav) <= cap {
      ScaleLess(Share(x, nav), cap, nav);
    }
  }

  /** Orders are sized from the cash but capped against the NAV: on real accounts
      both caps hold after every opening exactly when cash does not exceed NAV. */
  lemma CapsHoldExactly(s: Settings, cash: real, nav: real)
    requires Permissive(s) && nav > 0.0
    ensures CapsHold(s, cash, nav) <==> cash <= nav
  {
    hide Evaluate, OpenedWeight, OpenedSector, FullShort, LiveAccount, AccountPrices, RealAccount, HeldLots;
    if cash <= nav {
      forall d: Decision, c: Context, prices: map<string, real>
        | RealAccount(d, c, prices) && c.settings == s && c.cash == cash && c.nav == nav
          && IsOpeningGate(Evaluate(d, c))
        ensures OpenedWeight(d, c) <= s.maxInstrumentWeight && OpenedSector(d, c) <= s.maxSectorWeight
      {
        CapsHeldByOpening(d, c);
      }
    } else {
      TightPriceFits(s, cash, nav);
      hide TightPrice, TightUnit, Permissive, OneTooMany;
      OverweightShort(s, cash, nav, HeldLots(s), TightPrice(s, cash, nav), TightUnit(s, cash, nav) * nav);
    }
  }
}
