/** The profit ladder: each rung fires once at a given side and average price. */
module Ladder {
  import opened Money
  import opened Portfolio
  import opened Operations
  import opened Risk
  import opened RiskProperties
  import opened Orders
  import opened Journal

  // ---- Identifying a rung by its threshold -------------------------------

  predicate Apart(x: real, y: real) { !IsClose(x, y) }

  /** All thresholds are on, and pairwise distinct from each other and from 0. */
  predicate LadderConfigured(s: Settings) {
    && (s.profitLockPct > 0.0 ==> Apart(s.profitLockPct, 0.0))
    && (s.profitPartialPct > 0.0 ==> Apart(s.profitPartialPct, 0.0))
    && (s.profitLockPct > 0.0 && s.profitPartialPct > 0.0 ==> Apart(s.profitLockPct, s.profitPartialPct))
    && (s.profitLockPct > 0.0 && s.profitFullPct > 0.0 ==> Apart(s.profitLockPct, s.profitFullPct))
    && (s.profitPartialPct > 0.0 && s.profitFullPct > 0.0 ==> Apart(s.profitPartialPct, s.profitFullPct))
  }

  /** No exit of the ladder is recorded as a rung that was already done. */
  ghost predicate NeverRefires(s: Settings) {
    forall pnl: real, q: int, signal: Signal, done: set<StepId> ::
      q != 0 && ProfitLadder(s, pnl, q, signal, done).Some? ==>
        IsNewStep(ProfitStepId(ProfitLadder(s, pnl, q, signal, done).value.stepPct, s), done)
  }

  predicate IsNewStep(step: Option<StepId>, done: set<StepId>) { step.Some? ==> step.value !in done }

  /** With rising thresholds and a stop, the ladder never repeats a rung exactly
      when the thresholds are apart from each other and from zero. */
  lemma RungsFireOnceExactly(s: Settings)
    requires 0.0 < s.profitLockPct < s.profitPartialPct < s.profitFullPct && s.stopLossPct > 0.0
    requires s.profitLockFraction > 0.0 && s.profitPartialFraction > 0.0
    ensures NeverRefires(s) <==> LadderConfigured(s)
  {
    if LadderConfigured(s) {
      forall pnl: real, q: int, signal: Signal, done: set<StepId>
        | q != 0 && ProfitLadder(s, pnl, q, signal, done).Some?
        ensures IsNewStep(ProfitStepId(ProfitLadder(s, pnl, q, signal, done).value.stepPct, s), done)
      {
        LadderStepIsNew(s, pnl, q, signal, done);
      }
    } else {
      RepeatedRung(s);
    }
  }

  /** Stop, partial and full exits that are recorded as a rung below them. */
  lemma RepeatedRung(s: Settings)
    requires 0.0 < s.profitLockPct < s.profitPartialPct < s.profitFullPct && s.stopLossPct > 0.0
    requires s.profitLockFraction > 0.0 && s.profitPartialFraction > 0.0
    requires !LadderConfigured(s)
    ensures !NeverRefires(s)
  {
    var both := {ProfitLock, ProfitPartial};
    var stop := ProfitLadder(s, -s.stopLossPct, 1, Hold, both);
    var partial := ProfitLadder(s, s.profitPartialPct, 1, Hold, {ProfitLock});
    var full := ProfitLadder(s, s.profitFullPct, 1, Hold, both);
    PartialQtyInRange(1, s.profitPartialFraction);
    hide PartialQty;
    assert stop == Some(Exit(true, 1, 0.0));
    assert partial.Some? && partial.value.stepPct == s.profitPartialPct;
    assert full == Some(Exit(false, 1, s.profitFullPct));
    assert || !IsNewStep(ProfitStepId(stop.value.stepPct, s), both)
           || !IsNewStep(ProfitStepId(partial.value.stepPct, s), {ProfitLock})
           || !IsNewStep(ProfitStepId(full.value.stepPct, s), both);
  }

  /** The step recorded for a gate result, as the engine and the journal derive it. */
  function StepOfGate(g: Gate, s: Settings): Option<StepId>
    requires g.Gate?
  {
    ProfitStepId(if g.metrics.profitStep.Some? then g.metrics.profitStep.value else 0.0, s)
  }

  /** A rung that is already done does not come back. */
  lemma FiringStepIsNew(d: Decision, c: Context)
    requires LadderConfigured(c.settings) && Evaluate(d, c).Gate?
    ensures var step := StepOfGate(Evaluate(d, c), c.settings);
      step.Some? ==>
        && step.value !in c.stepsDone
        && var q, avg := PositionFor(c.positions, d.symbol), AvgPriceFor(c.positions, d.symbol);
           q != 0 && avg > 0.0
  {
    hide EvaluateOpening, CloseGate, ClosesOnly, RiskTrim, PositionFor, AvgPriceFor, LotSizeFor, Notional, PnlPct,
         PartialQty;
    TrimHasNoStep(d, c);
    OtherGatesHaveNoStep(d, c);
    if RiskPnlExit(d, c).Some? {
      PnlExitStep(d, c);
    }
    hide RiskPnlExit;
  }

  lemma TrimHasNoStep(d: Decision, c: Context)
    ensures RiskTrim(d, c).Some? ==> RiskTrim(d, c).value.Gate? && RiskTrim(d, c).value.metrics.profitStep == None
  {
    hide PositionFor, AvgPriceFor, LotSizeFor, Notional, TrimLots, TrimPnl, TrimPnlAllows, Share;
  }

  lemma OtherGatesHaveNoStep(d: Decision, c: Context)
    ensures CloseGate(d, c).metrics.profitStep == None
    ensures var g := EvaluateOpening(d, c, PlanFor(d, c)); g.Gate? ==> g.metrics.profitStep == None
  {
    hide PositionFor, LotSizeFor, Notional, DesiredQty, PlanFor, FirstRefusal, ClipSize, VarPct, OpenQty, BaseWeight,
         SecondRefusal;
  }

  lemma LadderStepIsNew(s: Settings, pnl: real, q: int, signal: Signal, done: set<StepId>)
    requires LadderConfigured(s) && ProfitLadder(s, pnl, q, signal, done).Some?
    ensures var step := ProfitStepId(ProfitLadder(s, pnl, q, signal, done).value.stepPct, s);
      step.Some? ==> step.value !in done
  {
    hide PartialQty;
  }

  lemma PnlExitStep(d: Decision, c: Context)
    requires LadderConfigured(c.settings) && RiskPnlExit(d, c).Some?
    ensures var g := RiskPnlExit(d, c).value;
      && g.Gate?
      && (var step := StepOfGate(g, c.settings); step.Some? ==> step.value !in c.stepsDone)
      && PositionFor(c.positions, d.symbol) != 0 && AvgPriceFor(c.positions, d.symbol) > 0.0
  {
    var s := c.settings;
    var q, avg := PositionFor(c.positions, d.symbol), AvgPriceFor(c.positions, d.symbol);
    assert avg > 0.0;
    var pnl := PnlPct(q, avg, c.lastPrice);
    if s.profitTakeEnabled && ProfitLadder(s, pnl, q, d.signal, c.stepsDone).Some? {
      LadderStepIsNew(s, pnl, q, d.signal, c.stepsDone);
    }
    hide ProfitLadder, Bracket, PnlPct, PositionFor, AvgPriceFor, LotSizeFor, Notional;
  }

  /** Thresholds too close together: once the partial rung has fired it is
      recorded as the lock rung, and fires again on every tick. */
  lemma CloseThresholdsRepeat(s: Settings, pnl: real, q: int, signal: Signal)
    requires s.profitLockPct > 0.0 && s.profitPartialPct > 0.0 && IsClose(s.profitPartialPct, s.profitLockPct)
    ensures ProfitStepId(s.profitPartialPct, s) == Some(ProfitLock)
    ensures pnl >= s.profitPartialPct && (s.profitFullPct <= 0.0 || pnl < s.profitFullPct) ==>
      ProfitLadder(s, pnl, q, signal, {ProfitLock}) == PartialExit(Abs(q), s.profitPartialFraction, s.profitPartialPct)
  {
    hide PartialExit;
  }

  /** Threshold of a rung. */
  function RungPct(s: Settings, step: StepId): real { if step.ProfitLock? then s.profitLockPct else s.profitPartialPct }

  // ---- The scheduler's memory: rounded records in the journal ------------

  lemma Round6Near(x: real)
    ensures AbsReal(Round6(x) - x) <= 0.0000005
  {
    var y := x * 1000000.0 + 0.5;
    assert y.Floor as real <= y < y.Floor as real + 1.0;
  }

  /** Gate of a take-profit rung at threshold `pct` and average `avg`. */
  ghost predicate TakesProfit(g: Gate, short: bool, pct: real, avg: real) {
    && g.Gate? && g.allowed && g.op == Some(if short then TakeProfitCover else TakeProfitSell)
    && g.flipCloseQty.None? && g.metrics.profitStep == Some(pct) && g.metrics.avgPrice == Some(avg)
  }

  /** What the journal later reads from the action of a take-profit rung: the
      rung whose threshold matches after rounding, and nothing if the broker
      rejected the order or the order was never sent. */
  lemma RecordedStep(d: Decision, g: Gate, price: real, trades: int, limit: int, rate: real, r: Replies,
                     short: bool, pct: real, avg: real, s: Settings)
    requires TakesProfit(g, short, pct, avg) && Round6(avg) > 0.0
    ensures var a := ApplyGate(d, g, price, trades, limit, rate, r).action;
      && StepOfAction(a, short, avg, s) == (if a.Submitted? then ProfitStepId(Round6(pct), s) else None)
      && StepOfAction(a, !short, avg, s) == None
      && (a.Submitted? ==> r.first.success)
  {
    Round6Near(avg);
    hide Notional, Round6, ProfitStepId;
  }

  /** While the record is within the tail and the position keeps its side and
      average, the rung counts as done. */
  lemma StepRemembered(before: seq<Record>, decisions: map<string, Action>, later: seq<Record>, ps: seq<Position>,
                       secid: string, s: Settings)
    requires |later| < TAIL_WINDOW && secid in decisions
    requires PositionFor(ps, secid) != 0 && AvgPriceFor(ps, secid) > 0.0
    ensures var step := StepOfAction(decisions[secid], PositionFor(ps, secid) < 0, AvgPriceFor(ps, secid), s);
      step.Some? ==> step.value in ProfitStepsDone(before + [Tick(decisions)] + later, secid, ps, s)
  {
    var journal := before + [Tick(decisions)] + later;
    var tail := Tail(journal, TAIL_WINDOW);
    var i := |tail| - |later| - 1;
    assert tail[i] == Tick(decisions);
    var short, avg := PositionFor(ps, secid) < 0, AvgPriceFor(ps, secid);
    assert StepOfRecord(tail[i], secid, short, avg, s) == StepOfAction(decisions[secid], short, avg, s);
  }

  /** The lock rung is rebuilt from the journal exactly when its threshold
      survives rounding to six digits within the step tolerance. */
  lemma LockRememberedExactly(d: Decision, g: Gate, price: real, trades: int, limit: int, rate: real, r: Replies,
                              short: bool, avg: real, s: Settings)
    requires s.profitLockPct > 0.0 && TakesProfit(g, short, s.profitLockPct, avg) && Round6(avg) > 0.0
    requires ApplyGate(d, g, price, trades, limit, rate, r).action.Submitted?
    ensures StepOfAction(ApplyGate(d, g, price, trades, limit, rate, r).action, short, avg, s) == Some(ProfitLock)
      <==> IsClose(Round6(s.profitLockPct), s.profitLockPct)
  {
    RecordedStep(d, g, price, trades, limit, rate, r, short, s.profitLockPct, avg, s);
    hide ApplyGate, StepOfAction, Round6;
  }

  /** Across ticks and restarts: once a rung has executed, and while the journal
      tail holds that tick and the position keeps its side and average, the rung
      does not fire again, whatever the new decision. */
  lemma RungNotRefired(first: Decision, g: Gate, price: real, trades: int, limit: int, rate: real, r: Replies,
                       before: seq<Record>, decisions: map<string, Action>, later: seq<Record>,
                       d: Decision, c: Context, pct: real, step: StepId)
    requires LadderConfigured(c.settings)
    requires var q, avg := PositionFor(c.positions, d.symbol), AvgPriceFor(c.positions, d.symbol);
      q != 0 && avg > 0.0 && Round6(avg) > 0.0 && TakesProfit(g, q < 0, pct, avg)
    requires d.symbol in decisions && decisions[d.symbol] == ApplyGate(first, g, price, trades, limit, rate, r).action
    requires decisions[d.symbol].Submitted? && ProfitStepId(Round6(pct), c.settings) == Some(step)
    requires |later| < TAIL_WINDOW
    requires c.stepsDone == ProfitStepsDone(before + [Tick(decisions)] + later, d.symbol, c.positions, c.settings)
    ensures Evaluate(d, c).Gate? ==> StepOfGate(Evaluate(d, c), c.settings) != Some(step)
  {
    hide Evaluate, ApplyGate, StepOfAction, ProfitStepsDone, PositionFor, AvgPriceFor, Round6, ProfitStepId,
         TakesProfit, StepOfGate, LadderConfigured;
    var q, avg := PositionFor(c.positions, d.symbol), AvgPriceFor(c.positions, d.symbol);
    RecordedStep(first, g, price, trades, limit, rate, r, q < 0, pct, avg, c.settings);
    StepRemembered(before, decisions, later, c.positions, d.symbol, c.settings);
    if Evaluate(d, c).Gate? {
      FiringStepIsNew(d, c);
    }
  }
}
