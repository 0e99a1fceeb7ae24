/** The profit ladder over any number of ticks. Only the journal carries its
    memory from one tick to the next, so that ticks may belong to different
    lives of the process. */
module LadderRuns {
  import opened Money
  import opened Portfolio
  import opened Risk
  import opened Orders
  import opened Journal
  import opened Simulation
  import opened TickLimits
  import opened TickExposure
  import opened Ladder

  /** Phase 2 of one tick: what is fixed, where it starts, in which order it goes. */
  datatype TickRun = TickRun(env: Env, start: Live, order: seq<Item>)

  function EndOf(t: TickRun): Live { RunItems(t.env, t.start, t.order) }

  /** The journal when the tick is over. */
  function JournalAfter(t: TickRun): seq<Record> { t.env.journal + EndOf(t).logged + [Tick(EndOf(t).decisions)] }

  function Before(t: TickRun, i: nat): Live
    requires i <= |t.order|
  {
    StateBefore(t.env, t.start, t.order, i)
  }

  /** The journal when item i is evaluated. */
  function JournalAt(t: TickRun, i: nat): seq<Record>
    requires i <= |t.order|
  {
    t.env.journal + Before(t, i).logged
  }

  /** Ticks under the same settings, each starting with a journal that extends
      what the one before left behind. */
  ghost predicate Chained(ticks: seq<TickRun>, s: Settings) {
    && (forall k :: 0 <= k < |ticks| ==> ticks[k].env.settings == s && DistinctTickers(ticks[k].order))
    && (forall k :: 0 < k < |ticks| ==> JournalAfter(ticks[k - 1]) <= ticks[k].env.journal)
  }

  /** Item i of the tick closes part of its position as the given rung, and the broker accepts. */
  ghost predicate Executes(t: TickRun, i: nat, step: StepId)
    requires i < |t.order|
  {
    && Applies(t.env, Before(t, i), t.order[i])
    && StepOfGate(GateFor(t.env, Before(t, i), t.order[i]), t.env.settings) == Some(step)
    && OutcomeFor(t.env, Before(t, i), t.order[i]).action.Submitted?
  }

  /** Both items see the same ticker on the same side at the same average price. */
  ghost predicate SamePosition(t: TickRun, i: nat, t': TickRun, j: nat)
    requires i < |t.order| && t.order[i].Priced? && j < |t'.order| && t'.order[j].Priced?
  {
    var secid, ps, ps' := t.order[i].decision.symbol, Before(t, i).positions, Before(t', j).positions;
    && t'.order[j].decision.symbol == secid
    && (PositionFor(ps, secid) < 0 <==> PositionFor(ps', secid) < 0)
    && AvgPriceFor(ps, secid) == AvgPriceFor(ps', secid)
  }

  /** Both thresholds are still recognised after the journal rounded them. */
  predicate SurvivesRounding(s: Settings) {
    && (s.profitLockPct > 0.0 ==> ProfitStepId(Round6(s.profitLockPct), s) == Some(ProfitLock))
    && (s.profitPartialPct > 0.0 ==> ProfitStepId(Round6(s.profitPartialPct), s) == Some(ProfitPartial))
  }

  // ---- A rung's gate -----------------------------------------------------

  lemma RungExit(s: Settings, pnl: real, q: int, signal: Signal, done: set<StepId>, step: StepId)
    requires LadderConfigured(s) && ProfitLadder(s, pnl, q, signal, done).Some?
    requires ProfitStepId(ProfitLadder(s, pnl, q, signal, done).value.stepPct, s) == Some(step)
    ensures var e := ProfitLadder(s, pnl, q, signal, done).value;
      !e.isStop && e.stepPct == RungPct(s, step) > 0.0
  {
    hide PartialQty;
  }

  /** A gate recorded as a rung is that rung's take-profit on the held position. */
  lemma RungGate(d: Decision, c: Context, step: StepId)
    requires LadderConfigured(c.settings) && Evaluate(d, c).Gate?
      && StepOfGate(Evaluate(d, c), c.settings) == Some(step)
    ensures var q, avg := PositionFor(c.positions, d.symbol), AvgPriceFor(c.positions, d.symbol);
      && q != 0 && avg > 0.0 && RungPct(c.settings, step) > 0.0
      && TakesProfit(Evaluate(d, c), q < 0, RungPct(c.settings, step), avg)
  {
    hide EvaluateOpening, CloseGate, ClosesOnly, RiskTrim, RiskPnlExit, LotSizeFor, Notional, PositionFor,
         AvgPriceFor, TakesProfit, RungPct;
    TrimHasNoStep(d, c);
    OtherGatesHaveNoStep(d, c);
    NoStepAtZero(c.settings);
    if RiskPnlExit(d, c).Some? && StepOfGate(RiskPnlExit(d, c).value, c.settings) == Some(step) {
      RungExitGate(d, c, step);
    }
  }

  lemma NoStepAtZero(s: Settings)
    requires LadderConfigured(s)
    ensures ProfitStepId(0.0, s) == None
  {}

  lemma RungExitGate(d: Decision, c: Context, step: StepId)
    requires LadderConfigured(c.settings) && RiskPnlExit(d, c).Some? && RiskPnlExit(d, c).value.Gate?
    requires StepOfGate(RiskPnlExit(d, c).value, c.settings) == Some(step)
    ensures var q, avg := PositionFor(c.positions, d.symbol), AvgPriceFor(c.positions, d.symbol);
      && q != 0 && avg > 0.0 && RungPct(c.settings, step) > 0.0
      && TakesProfit(RiskPnlExit(d, c).value, q < 0, RungPct(c.settings, step), avg)
  {
    var s := c.settings;
    var q, avg := PositionFor(c.positions, d.symbol), AvgPriceFor(c.positions, d.symbol);
    assert avg > 0.0;
    NoStepAtZero(s);
    var pnl := PnlPct(q, avg, c.lastPrice);
    if s.profitTakeEnabled {
      RungExit(s, pnl, q, d.signal, c.stepsDone, step);
    }
    hide ProfitLadder, Bracket, PnlPct, PositionFor, AvgPriceFor, LotSizeFor, Notional, ProfitStepId, RungPct;
  }

  // ---- A decision stays on record ----------------------------------------

  lemma {:induction false} RunItemsSplit(env: Env, st: Live, items: seq<Item>, k: nat)
    requires k <= |items|
    ensures RunItems(env, st, items) == RunItems(env, RunItems(env, st, items[..k]), items[k..])
    decreases k
  {
    hide TickStep;
    if k == 0 {
      assert items[0..] == items;
    } else {
      RunItemsSplit(env, TickStep(env, st, items[0]), items[1..], k - 1);
      assert items[..k][1..] == items[1..][..k - 1];
      assert items[1..][k - 1..] == items[k..];
    }
  }

  lemma {:induction false} OthersKeepDecision(env: Env, st: Live, items: seq<Item>, secid: string)
    requires secid in st.decisions
    requires forall k :: 0 <= k < |items| && items[k].Priced? ==> items[k].decision.symbol != secid
    ensures var end := RunItems(env, st, items); secid in end.decisions && end.decisions[secid] == st.decisions[secid]
    decreases |items|
  {
    if items != [] {
      hide Evaluate, ApplyGate, SummaryDelta, PortfolioNav, LotSizeFor, SpendOf, GateLog;
      var st' := TickStep(env, st, items[0]);
      assert secid in st'.decisions && st'.decisions[secid] == st.decisions[secid];
      hide TickStep;
      OthersKeepDecision(env, st', items[1..], secid);
    }
  }

  lemma LaterItemsDiffer(items: seq<Item>, i: nat, k: nat)
    requires DistinctTickers(items) && i < k < |items| && items[i].Priced? && items[k].Priced?
    ensures items[i].decision.symbol != items[k].decision.symbol
  {
    assert Tickers(items)[i] != Tickers(items)[k];
  }

  /** What the tick's record holds for an item is the action taken on it. */
  lemma DecisionOnRecord(t: TickRun, i: nat)
    requires i < |t.order| && DistinctTickers(t.order) && Applies(t.env, Before(t, i), t.order[i])
    ensures var secid := t.order[i].decision.symbol;
      && secid in EndOf(t).decisions
      && EndOf(t).decisions[secid] == OutcomeFor(t.env, Before(t, i), t.order[i]).action
  {
    var secid, rest := t.order[i].decision.symbol, t.order[i..];
    RunItemsSplit(t.env, t.start, t.order, i);
    assert rest[0] == t.order[i] && rest[1..] == t.order[i + 1..];
    forall k | 0 <= k < |rest[1..]| && rest[1..][k].Priced? ensures rest[1..][k].decision.symbol != secid {
      LaterItemsDiffer(t.order, i, i + 1 + k);
    }
    hide Evaluate, ApplyGate, SummaryDelta, PortfolioNav, LotSizeFor, SpendOf, GateLog, Applies, DistinctTickers;
    OthersKeepDecision(t.env, TickStep(t.env, Before(t, i), t.order[i]), rest[1..], secid);
  }

  lemma {:induction false} JournalOnlyGrows(ticks: seq<TickRun>, s: Settings, m: nat, n: nat)
    requires Chained(ticks, s) && m < n < |ticks|
    ensures JournalAfter(ticks[m]) <= ticks[n].env.journal
    decreases n
  {
    hide EndOf;
    if m < n - 1 {
      JournalOnlyGrows(ticks, s, m, n - 1);
      assert ticks[n - 1].env.journal <= JournalAfter(ticks[n - 1]);
    }
  }

  // ---- Once per side and average within the window -----------------------

  /** Over any run of ticks and restarts, a rung that executes twice on the same
      ticker, side and average price does so only after a whole tail window of
      other records has gone by. */
  lemma RungFiresOncePerWindow(ticks: seq<TickRun>, s: Settings, m: nat, i: nat, n: nat, j: nat, step: StepId)
    requires Chained(ticks, s) && LadderConfigured(s) && SurvivesRounding(s)
    requires m <= n < |ticks| && i < |ticks[m].order| && j < |ticks[n].order|
    requires Executes(ticks[m], i, step) && Executes(ticks[n], j, step) && SamePosition(ticks[m], i, ticks[n], j)
    requires Round6(AvgPriceFor(Before(ticks[m], i).positions, ticks[m].order[i].decision.symbol)) > 0.0
    ensures if m == n then i == j else |JournalAt(ticks[n], j)| - |JournalAfter(ticks[m])| >= TAIL_WINDOW
  {
    if m == n {
      if i < j {
        LaterItemsDiffer(ticks[m].order, i, j);
      } else if j < i {
        LaterItemsDiffer(ticks[m].order, j, i);
      }
    } else {
      JournalOnlyGrows(ticks, s, m, n);
      if |JournalAt(ticks[n], j)| - |JournalAfter(ticks[m])| < TAIL_WINDOW {
        RungHeldBack(ticks[m], i, ticks[n], j, step);
      }
    }
  }

  /** Within the window the second execution does not come about. */
  lemma RungHeldBack(t: TickRun, i: nat, t': TickRun, j: nat, step: StepId)
    requires i < |t.order| && j < |t'.order| && t.env.settings == t'.env.settings && DistinctTickers(t.order)
    requires LadderConfigured(t.env.settings) && SurvivesRounding(t.env.settings)
    requires Executes(t, i, step) && t'.order[j].Priced? && SamePosition(t, i, t', j)
    requires Round6(AvgPriceFor(Before(t, i).positions, t.order[i].decision.symbol)) > 0.0
    requires JournalAfter(t) <= t'.env.journal && |JournalAt(t', j)| - |JournalAfter(t)| < TAIL_WINDOW
    ensures !Executes(t', j, step)
  {
    var s := t.env.settings;
    var st, item, st', item' := Before(t, i), t.order[i], Before(t', j), t'.order[j];
    var c, c' := ContextFor(t.env, st, item), ContextFor(t'.env, st', item');
    var g := GateFor(t.env, st, item);
    var end := EndOf(t);
    var later := JournalAt(t', j)[|JournalAfter(t)|..];
    assert JournalAt(t', j) == (t.env.journal + end.logged) + [Tick(end.decisions)] + later;
    DecisionOnRecord(t, i);
    RungGate(item.decision, c, step);
    RoundedRung(s, step);
    hide Evaluate, ApplyGate, ProfitStepsDone, StepOfGate, LadderConfigured, SurvivesRounding, Round6, TakesProfit,
         RungPct, DistinctTickers, EndOf, Before;
    if PositionFor(st'.positions, item'.decision.symbol) != 0 {
      RungNotRefired(item.decision, g, item.lastPrice, st.trades, t.env.tradeLimit, CommissionRate(s), item.replies,
                     t.env.journal + end.logged, end.decisions, later, item'.decision, c', RungPct(s, step), step);
    } else if Evaluate(item'.decision, c').Gate? {
      FiringStepIsNew(item'.decision, c');
    }
  }

  lemma RoundedRung(s: Settings, step: StepId)
    requires SurvivesRounding(s) && RungPct(s, step) > 0.0
    ensures ProfitStepId(Round6(RungPct(s, step)), s) == Some(step)
  {}
}
