/** When exactly an opening goes through, in terms a trader would check. */
module Openings {
  import opened Money
  import opened Portfolio
  import opened Sizing
  import opened Risk
  import opened RiskProperties

  // ---- Kill switches -----------------------------------------------------

  lemma {:induction false} MaxNavIsMaximum(history: seq<NavPoint>)
    requires history != []
    ensures forall i :: 0 <= i < |history| ==> history[i].nav <= MaxNav(history)
    ensures exists i :: 0 <= i < |history| && history[i].nav == MaxNav(history)
  {
    if |history| > 1 {
      var rest := history[1..];
      MaxNavIsMaximum(rest);
      forall i | 0 <= i < |history| ensures history[i].nav <= MaxNav(history) {
        if i > 0 {
          assert rest[i - 1] == history[i];
        }
      }
      var k :| 0 <= k < |rest| && rest[k].nav == MaxNav(rest);
      assert history[k + 1].nav == MaxNav(rest);
      assert history[0].nav == MaxNav(history) || history[k + 1].nav == MaxNav(history);
    } else {
      assert history[0].nav == MaxNav(history);
    }
  }

  lemma QuotientBelow(x: real, y: real, bound: real)
    requires y > 0.0
    ensures Share(x, y) < bound <==> x < bound * y
  {
    QuotientTimes(x, y);
    var r := Share(x, y);
    if r < bound {
      ProductPositive(bound - r, y);
      assert (bound - r) * y == bound * y - r * y;
    } else {
      ScaleLess(bound, r, y);
    }
  }

  /** Lowest NAV that a loss limit tolerates below a reference NAV. */
  function LowestAllowed(reference: real, limit: real): real { (1.0 - limit) * reference }

  /** No recorded NAV puts an account with open positions that far down. */
  ghost predicate DrawdownClear(c: Context) {
    HasOpen(c.positions) ==>
      forall i :: 0 <= i < |c.navHistory| ==> LowestAllowed(c.navHistory[i].nav, c.settings.maxDrawdown) < c.nav
  }

  lemma DrawdownAgainst(peak: real, nav: real, limit: real)
    requires peak > 0.0
    ensures Share(peak - nav, peak) < limit <==> LowestAllowed(peak, limit) < nav
  {
    QuotientBelow(peak - nav, peak, limit);
    assert LowestAllowed(peak, limit) == peak - limit * peak;
  }

  lemma LowestAllowedGrows(a: real, b: real, limit: real)
    requires a <= b && limit <= 1.0
    ensures LowestAllowed(a, limit) <= LowestAllowed(b, limit)
  {
    ScaleLess(a, b, 1.0 - limit);
  }

  lemma OwnNavAllowed(nav: real, limit: real)
    requires nav > 0.0 && limit > 0.0
    ensures LowestAllowed(nav, limit) < nav
  {
    ProductPositive(limit, nav);
    assert LowestAllowed(nav, limit) == nav - limit * nav;
  }

  lemma DrawdownOf(c: Context)
    requires c.nav > 0.0
    ensures var peak := PeakNav(c.navHistory, c.nav, c.positions);
      peak > 0.0 && DrawdownPct(c) == Share(peak - c.nav, peak)
  {
    hide MaxNav, HasOpen;
  }

  lemma DrawdownClearExactly(c: Context)
    requires c.nav > 0.0 && 0.0 < c.settings.maxDrawdown <= 1.0
    ensures DrawdownPct(c) < c.settings.maxDrawdown <==> DrawdownClear(c)
  {
    hide DrawdownPct, Share, MaxNav, HasOpen, LowestAllowed;
    var limit := c.settings.maxDrawdown;
    var peak := PeakNav(c.navHistory, c.nav, c.positions);
    DrawdownOf(c);
    DrawdownAgainst(peak, c.nav, limit);
    OwnNavAllowed(c.nav, limit);
    if HasOpen(c.positions) && c.navHistory != [] {
      PeakClear(c.navHistory, c.nav, limit);
    }
  }

  /** The running peak clears a bound exactly when every record does. */
  lemma PeakClear(history: seq<NavPoint>, nav: real, limit: real)
    requires history != [] && nav > 0.0 && 0.0 < limit <= 1.0
    ensures LowestAllowed(MaxReal(MaxNav(history), nav), limit) < nav
      <==> forall i :: 0 <= i < |history| ==> LowestAllowed(history[i].nav, limit) < nav
  {
    hide MaxNav, LowestAllowed;
    MaxNavIsMaximum(history);
    OwnNavAllowed(nav, limit);
    forall i | 0 <= i < |history|
      ensures LowestAllowed(history[i].nav, limit) <= LowestAllowed(MaxNav(history), limit)
    {
      LowestAllowedGrows(history[i].nav, MaxNav(history), limit);
    }
    LowestAllowedGrows(MaxNav(history), MaxReal(MaxNav(history), nav), limit);
  }

  /** The session opens with the first record of today. */
  lemma {:induction false} SessionOpenIsFirst(history: seq<NavPoint>, today: int)
    ensures SessionOpenNav(history, today).None? ==> forall i :: 0 <= i < |history| ==> history[i].day != today
    ensures SessionOpenNav(history, today).Some? ==>
      exists i :: 0 <= i < |history| && OpensSession(history, today, i)
        && history[i].nav == SessionOpenNav(history, today).value
  {
    if history != [] && history[0].day != today {
      var rest := history[1..];
      SessionOpenIsFirst(rest, today);
      assert forall i :: 0 < i < |history| ==> history[i] == rest[i - 1];
      if SessionOpenNav(rest, today).Some? {
        var k :| 0 <= k < |rest| && OpensSession(rest, today, k) && rest[k].nav == SessionOpenNav(rest, today).value;
        assert OpensSession(history, today, k + 1);
      }
    } else if history != [] {
      assert OpensSession(history, today, 0);
    }
  }

  ghost predicate OpensSession(history: seq<NavPoint>, today: int, i: int) {
    0 <= i < |history| && history[i].day == today && forall j :: 0 <= j < i ==> history[j].day != today
  }

  /** Today's loss against the first NAV of the session stays below the limit. */
  ghost predicate DailyLossClear(c: Context) {
    forall i :: OpensSession(c.navHistory, c.today, i) && c.navHistory[i].nav > 0.0 ==>
      LowestAllowed(c.navHistory[i].nav, c.settings.maxDailyLoss) < c.nav
  }

  lemma DailyLossClearExactly(c: Context)
    ensures (DailyPnlPct(c).None? || DailyPnlPct(c).value > -c.settings.maxDailyLoss) <==> DailyLossClear(c)
  {
    SessionOpenIsFirst(c.navHistory, c.today);
    var session := SessionOpenNav(c.navHistory, c.today);
    if session.Some? {
      var k :| 0 <= k < |c.navHistory| && OpensSession(c.navHistory, c.today, k)
        && c.navHistory[k].nav == session.value;
      forall i | OpensSession(c.navHistory, c.today, i) ensures i == k {}
      var open, limit := session.value, c.settings.maxDailyLoss;
      if open > 0.0 {
        DrawdownAgainst(open, c.nav, limit);
        NegatedQuotient(c.nav - open, open);
      }
      hide SessionOpenNav, Share;
    }
  }

  lemma NegatedQuotient(x: real, y: real)
    requires y > 0.0
    ensures x / y == -Share(-x, y)
  {
    QuotientTimes(x, y);
    QuotientTimes(-x, y);
    var a, b := x / y, Share(-x, y);
    if a + b > 0.0 {
      ProductPositive(a + b, y);
    } else if a + b < 0.0 {
      ProductPositive(-(a + b), y);
    }
    assert (a + b) * y == a * y + b * y;
  }

  // ---- The gates before sizing -------------------------------------------

  /** Price, conviction, liquidity, edge over costs, drawdown and daily loss. */
  ghost predicate MarketClear(d: Decision, c: Context) {
    var s := c.settings;
    && c.lastPrice > 0.0
    && d.confidence >= s.minConfidence
    && (s.spreadCapBps > 0.0 && c.flow.Some? ==>
          (var f := c.flow.value; if f.spreadOneMillionBps > 0.0 then f.spreadOneMillionBps else f.spreadBestBps)
          <= s.spreadCapBps)
    && (s.minEdgePct > 0.0 && c.returnsCount >= 5 ==>
          d.confidence * c.sigma * s.edgeVolMult >= s.minEdgePct
          && d.confidence * c.sigma * s.edgeVolMult >= 2.0 * MaxReal(s.commissionRate, 0.0))
    && DrawdownClear(c)
    && DailyLossClear(c)
  }

  lemma FirstRefusalExactly(d: Decision, c: Context)
    requires c.nav > 0.0 && 0.0 < c.settings.maxDrawdown <= 1.0
    ensures FirstRefusal(d, c).None? <==> MarketClear(d, c)
  {
    DrawdownClearExactly(c);
    DailyLossClearExactly(c);
    hide DrawdownPct, DailyPnlPct, DrawdownClear, DailyLossClear;
  }

  /** There is room under the instrument cap and under the sector cap. */
  ghost predicate HasRoom(d: Decision, c: Context, plan: Plan)
    requires c.nav > 0.0
  {
    BaseWeight(d, c, plan) < c.settings.maxInstrumentWeight && SectorCurrent(d, c, plan) < c.settings.maxSectorWeight
  }

  /** At least one lot, a long within the cash less its buffer, and within the tick budget, all with commission. */
  ghost predicate Affordable(d: Decision, c: Context, plan: Plan, qty: nat) {
    var n := Notional(qty, LotSizeFor(d.symbol, c.lotSizes), c.lastPrice);
    var cost := n + n * MaxReal(c.settings.commissionRate, 0.0);
    && qty > 0
    && (plan.long ==> cost <= c.cash * (1.0 - c.settings.cashBuffer))
    && (c.settings.maxTickBuyPct > 0.0 ==>
          c.tickBuySpent + cost <= (if c.tickOpenNav > 0.0 then c.tickOpenNav else c.nav) * c.settings.maxTickBuyPct)
  }

  lemma RoomClips(d: Decision, c: Context, plan: Plan)
    requires c.nav > 0.0
    ensures ClipSize(d, c, plan).Clipped? <==> HasRoom(d, c, plan)
    ensures !ClipSize(d, c, plan).DividesByZero?
  {
    hide BaseWeight, SectorCurrent;
  }

  lemma AffordableExactly(d: Decision, c: Context, plan: Plan, qty: nat)
    ensures SecondRefusal(c, plan, qty, OpenMetrics(d, c, qty)).None? <==> Affordable(d, c, plan, qty)
  {
    hide Notional, LotSizeFor;
  }

  /** An opening goes through exactly when every gate is clear. */
  lemma OpensExactly(d: Decision, c: Context)
    requires c.nav > 0.0 && 0.0 < c.settings.maxDrawdown <= 1.0 && c.settings.riskEnabled
    requires RiskTrim(d, c).None? && RiskPnlExit(d, c).None? && !d.signal.Hold? && !ClosesOnly(d, c)
    ensures var plan := PlanFor(d, c); var clip := ClipSize(d, c, plan);
      IsOpeningGate(Evaluate(d, c))
      <==> (&& MarketClear(d, c)
            && HasRoom(d, c, plan)
            && clip.Clipped?
            && VarPct(c, d.symbol, BaseWeight(d, c, plan) + clip.size) <= c.settings.maxVarPct
            && Affordable(d, c, plan, OpenQty(d, c, plan, clip.size)))
  {
    FirstRefusalExactly(d, c);
    hide RiskTrim, RiskPnlExit, PlanFor, MarketClear, FirstRefusal, ClipSize, VarPct, BaseWeight, SecondRefusal,
         OpenQty, OpenMetrics, LotSizeFor, ClosesOnly, HasRoom, Affordable;
    var plan := PlanFor(d, c);
    RoomClips(d, c, plan);
    if ClipSize(d, c, plan).Clipped? {
      AffordableExactly(d, c, plan, OpenQty(d, c, plan, ClipSize(d, c, plan).size));
    }
  }

  /** Clipping takes the largest size that the request, the ticker's room and
      the sector's room allow. */
  lemma ClipIsLargest(d: Decision, c: Context, plan: Plan, x: real)
    requires ClipSize(d, c, plan).Clipped?
    ensures plan.flipClose.Some? ==> c.nav != 0.0
    ensures x <= ClipSize(d, c, plan).size <==>
      && x <= d.sizePct
      && BaseWeight(d, c, plan) + x <= c.settings.maxInstrumentWeight
      && SectorCurrent(d, c, plan) + x <= c.settings.maxSectorWeight
  {
    hide BaseWeight, SectorCurrent;
  }

  // ---- Size of an opening ------------------------------------------------

  /** Share of the cash that an opening of relative size `size` may use. */
  function Allotment(cash: real, size: real): real { cash * size }

  lemma AllotmentGrows(cash: real, a: real, b: real)
    requires cash > 0.0 && a <= b
    ensures Allotment(cash, a) <= Allotment(cash, b)
  {
    ScaleLess(a, b, cash);
  }

  lemma NotionalGrows(a: int, b: int, lot: int, price: real)
    requires a <= b && lot > 0 && price > 0.0
    ensures Notional(a, lot, price) <= Notional(b, lot, price)
  {
    LotValuePositive(lot, price);
    ScaleLess(a as real, b as real, LotValue(lot, price));
  }

  /** The lot count is determined by the bracket of notionals around the allotment. */
  lemma LargestFitIsUnique(cash: real, size: real, price: real, lot: int, n: int)
    requires cash > 0.0 && size > 0.0 && price > 0.0 && lot > 0
    requires Allotment(cash, size) < Notional(n + 1, lot, price)
    ensures QuantityForBuy(cash, size, price, lot) <= n
  {
    QuantityIsLargestThatFits(cash, size, price, lot);
    var m := QuantityForBuy(cash, size, price, lot);
    if m > n {
      NotionalGrows(n + 1, m, lot, price);
    }
  }

  lemma QuantityGrowsWithSize(cash: real, a: real, b: real, price: real, lot: int)
    requires a <= b
    ensures QuantityForBuy(cash, a, price, lot) <= QuantityForBuy(cash, b, price, lot)
  {
    if cash > 0.0 && price > 0.0 && lot > 0 && a > 0.0 {
      QuantityIsLargestThatFits(cash, b, price, lot);
      AllotmentGrows(cash, a, b);
      LargestFitIsUnique(cash, a, price, lot, QuantityForBuy(cash, b, price, lot));
    }
  }

  lemma PassedSize(d: Decision, c: Context, size: real, qty: int)
    requires OpeningPassed(d, c, size, qty)
    ensures size <= d.sizePct && c.lastPrice > 0.0
  {
    hide PlanFor, BaseWeight, SectorCurrent, VarPct, OpenQty, OpenMetrics, TickBudget;
  }

  lemma PlainTarget(d: Decision, c: Context)
    requires PlanFor(d, c).flipClose.None?
    ensures PlanFor(d, c).target == DesiredQty(d, c)
  {
    hide PositionFor, DesiredQty;
  }

  lemma OpeningQtyIsOpenQty(d: Decision, c: Context)
    requires IsOpeningGate(Evaluate(d, c))
    ensures OpenedQty(Evaluate(d, c)) == OpenQty(d, c, PlanFor(d, c), Evaluate(d, c).effectiveSize.value)
  {
    OpeningEvaluated(d, c);
    hide Evaluate, PlanFor, FirstRefusal, ClipSize, VarPct, BaseWeight, SecondRefusal, OpenQty, OpenMetrics,
         LotSizeFor;
  }

  /** The clipped size and the requested one differ, yet the request never binds a plain opening. */
  lemma PlainOpenQty(d: Decision, c: Context, size: real)
    requires PlanFor(d, c).flipClose.None? && size <= d.sizePct
    ensures OpenQty(d, c, PlanFor(d, c), size)
       == QuantityForBuy(c.cash, size, c.lastPrice, LotSizeFor(d.symbol, c.lotSizes))
  {
    hide PlanFor, QuantityForBuy, LotSizeFor;
    PlainTarget(d, c);
    QuantityGrowsWithSize(c.cash, size, d.sizePct, c.lastPrice, LotSizeFor(d.symbol, c.lotSizes));
  }

  /** A plain opening buys or sells the largest lot count whose value fits in
      the clipped share of the cash. */
  lemma OpenedQtyIsLargest(d: Decision, c: Context)
    requires IsOpeningGate(Evaluate(d, c)) && PlanFor(d, c).flipClose.None?
    ensures var g := Evaluate(d, c); var lot := LotSizeFor(d.symbol, c.lotSizes);
      Notional(OpenedQty(g), lot, c.lastPrice)
         <= Allotment(c.cash, g.effectiveSize.value) < Notional(OpenedQty(g) + 1, lot, c.lastPrice)
  {
    hide Evaluate, PlanFor, OpeningPassed, QuantityForBuy, LotSizeFor, Notional, OpenedQty, OpenMetrics, OpenQty;
    OpeningHasPassed(d, c);
    OpeningQtyIsOpenQty(d, c);
    var size := Evaluate(d, c).effectiveSize.value;
    var lot := LotSizeFor(d.symbol, c.lotSizes);
    PassedSize(d, c, size, OpenedQty(Evaluate(d, c)));
    OpenedFitsCash(d, c, size, OpenedQty(Evaluate(d, c)));
    PlainOpenQty(d, c, size);
    QuantityIsLargestThatFits(c.cash, size, c.lastPrice, lot);
  }

  /** A flip opens what the request leaves over after the close, if the clipped
      share of the cash affords it. */
  lemma FlipOpensRemainder(d: Decision, c: Context)
    requires IsOpeningGate(Evaluate(d, c)) && PlanFor(d, c).flipClose.Some?
    ensures var g := Evaluate(d, c); var q := PositionFor(c.positions, d.symbol);
      && g.flipCloseQty == Some(Abs(q))
      && Abs(q) + OpenedQty(g)
         == MinInt(DesiredQty(d, c),
                   Abs(q) + QuantityForBuy(c.cash, g.effectiveSize.value, c.lastPrice,
                                           LotSizeFor(d.symbol, c.lotSizes)))
  {
    hide Evaluate, PlanFor, OpeningPassed, QuantityForBuy, LotSizeFor, OpenedQty, OpenMetrics, OpenQty, DesiredQty,
         PositionFor;
    OpeningHasPassed(d, c);
    OpeningQtyIsOpenQty(d, c);
    PositiveOpenQty(d, c, Evaluate(d, c).effectiveSize.value, OpenedQty(Evaluate(d, c)));
    FlipTarget(d, c);
    SplitOpenQty(d, c, PlanFor(d, c), Evaluate(d, c).effectiveSize.value);
  }

  lemma PositiveOpenQty(d: Decision, c: Context, size: real, qty: int)
    requires OpeningPassed(d, c, size, qty)
    ensures qty > 0
  {
    hide PlanFor, BaseWeight, SectorCurrent, VarPct, OpenQty, OpenMetrics, TickBudget;
  }

  lemma SplitOpenQty(d: Decision, c: Context, plan: Plan, size: real)
    ensures OpenQty(d, c, plan, size)
         == MinInt(QuantityForBuy(c.cash, size, c.lastPrice, LotSizeFor(d.symbol, c.lotSizes)), MaxInt(plan.target, 0))
  {
    hide QuantityForBuy, LotSizeFor;
  }

  lemma FlipTarget(d: Decision, c: Context)
    requires PlanFor(d, c).flipClose.Some?
    ensures PlanFor(d, c).flipClose == Some(Abs(PositionFor(c.positions, d.symbol)))
    ensures PlanFor(d, c).target == DesiredQty(d, c) - Abs(PositionFor(c.positions, d.symbol))
  {
    hide PositionFor, DesiredQty;
  }
}
