/** The decision journal, and what the scheduler reads back from its tail. */
module Journal {
  import opened Money
  import opened Portfolio
  import opened Operations
  import opened Risk
  import opened Orders

  datatype Record =
    | Tick(decisions: map<string, Action>)
    | BalanceDepleted(at: int)
    | BalanceRecovered
    | Other

  const TAIL_WINDOW := 2000

  function Tail(journal: seq<Record>, n: nat): seq<Record> {
    if |journal| <= n then journal else journal[|journal| - n..]
  }

  const AVG_TOLERANCE := 0.000001

  /** The ladder step an action record stands for, at the given side and average. */
  function StepOfAction(a: Action, short: bool, avg: real, s: Settings): Option<StepId> {
    if !a.Submitted? || !(a.op.TakeProfitSell? || a.op.TakeProfitCover?) then None
    else if a.op.TakeProfitCover? != short then None
    else
      var actionAvg := if a.avgPrice.Some? then a.avgPrice.value else 0.0;
      var stepPct := if a.profitStep.Some? then a.profitStep.value else 0.0;
      if actionAvg <= 0.0 || AbsReal(actionAvg - avg) > AVG_TOLERANCE then None
      else ProfitStepId(stepPct, s)
  }

  function StepOfRecord(r: Record, secid: string, short: bool, avg: real, s: Settings): Option<StepId> {
    if r.Tick? && secid in r.decisions then StepOfAction(r.decisions[secid], short, avg, s) else None
  }

  function StepsIn(records: seq<Record>, secid: string, short: bool, avg: real, s: Settings): set<StepId> {
    set i | 0 <= i < |records| && StepOfRecord(records[i], secid, short, avg, s).Some?
      :: StepOfRecord(records[i], secid, short, avg, s).value
  }

  function ProfitStepsDone(journal: seq<Record>, secid: string, ps: seq<Position>, s: Settings): set<StepId> {
    var q := PositionFor(ps, secid);
    var avg := AvgPriceFor(ps, secid);
    if q == 0 || avg <= 0.0 then {} else StepsIn(Tail(journal, TAIL_WINDOW), secid, q < 0, avg, s)
  }

  /** The scan as the scheduler runs it. */
  method ScanProfitSteps(journal: seq<Record>, secid: string, ps: seq<Position>, s: Settings)
    returns (steps: set<StepId>)
    ensures steps == ProfitStepsDone(journal, secid, ps, s)
  {
    steps := {};
    var q := PositionFor(ps, secid);
    var avg := AvgPriceFor(ps, secid);
    if q == 0 || avg <= 0.0 {
      return;
    }
    var records := Tail(journal, TAIL_WINDOW);
    for i := 0 to |records|
      invariant steps == StepsIn(records[..i], secid, q < 0, avg, s)
    {
      var step := StepOfRecord(records[i], secid, q < 0, avg, s);
      StepsInSnoc(records[..i], records[i], secid, q < 0, avg, s);
      assert records[..i + 1] == records[..i] + [records[i]];
      if step.Some? {
        steps := steps + {step.value};
      }
    }
    assert records[..|records|] == records;
  }

  lemma StepsInSnoc(records: seq<Record>, r: Record, secid: string, short: bool, avg: real, s: Settings)
    ensures StepsIn(records + [r], secid, short, avg, s)
         == StepsIn(records, secid, short, avg, s)
            + (var step := StepOfRecord(r, secid, short, avg, s); if step.Some? then {step.value} else {})
  {
    var all := records + [r];
    var left := StepsIn(all, secid, short, avg, s);
    var last := StepOfRecord(r, secid, short, avg, s);
    var right := StepsIn(records, secid, short, avg, s) + if last.Some? then {last.value} else {};
    forall x | x in left ensures x in right {
      var i :| 0 <= i < |all| && StepOfRecord(all[i], secid, short, avg, s) == Some(x);
      if i < |records| {
        assert records[i] == all[i];
      }
    }
    forall x | x in right ensures x in left {
      if x in StepsIn(records, secid, short, avg, s) {
        var i :| 0 <= i < |records| && StepOfRecord(records[i], secid, short, avg, s) == Some(x);
        assert all[i] == records[i];
      } else {
        assert all[|records|] == r;
      }
    }
  }

  /** A record of an executed take-profit of this rung, on this side, at an average
      price within a millionth of this one. */
  ghost predicate Witnesses(r: Record, secid: string, short: bool, avg: real, step: StepId, s: Settings) {
    && r.Tick? && secid in r.decisions
    && var a := r.decisions[secid];
       && a.Submitted? && (if short then a.op.TakeProfitCover? else a.op.TakeProfitSell?)
       && a.avgPrice.Some? && a.avgPrice.value > 0.0 && -0.000001 <= a.avgPrice.value - avg <= 0.000001
       && ProfitStepId(if a.profitStep.Some? then a.profitStep.value else 0.0, s) == Some(step)
  }

  lemma WitnessIsStep(r: Record, secid: string, short: bool, avg: real, step: StepId, s: Settings)
    ensures StepOfRecord(r, secid, short, avg, s) == Some(step) <==> Witnesses(r, secid, short, avg, step, s)
  {
    hide ProfitStepId;
  }

  /** A rung counts as done exactly when a position is open at a known price and
      one of the last 2000 records witnesses it. */
  lemma StepsDoneExactly(journal: seq<Record>, secid: string, ps: seq<Position>, s: Settings, step: StepId)
    ensures var q, avg := PositionFor(ps, secid), AvgPriceFor(ps, secid);
      step in ProfitStepsDone(journal, secid, ps, s)
      <==> q != 0 && avg > 0.0
           && exists i ::
             0 <= i < |journal| && |journal| - 2000 <= i && Witnesses(journal[i], secid, q < 0, avg, step, s)
  {
    var q, avg := PositionFor(ps, secid), AvgPriceFor(ps, secid);
    var tail := Tail(journal, TAIL_WINDOW);
    var skip := |journal| - |tail|;
    hide Witnesses, StepOfRecord, PositionFor, AvgPriceFor;
    assert forall k :: 0 <= k < |tail| ==> tail[k] == journal[skip + k];
    forall k | 0 <= k < |tail|
      ensures StepOfRecord(tail[k], secid, q < 0, avg, s) == Some(step)
        <==> Witnesses(tail[k], secid, q < 0, avg, step, s)
    {
      WitnessIsStep(tail[k], secid, q < 0, avg, step, s);
    }
    if q != 0 && avg > 0.0 {
      if step in ProfitStepsDone(journal, secid, ps, s) {
        var k :| 0 <= k < |tail| && StepOfRecord(tail[k], secid, q < 0, avg, s) == Some(step);
        assert Witnesses(journal[skip + k], secid, q < 0, avg, step, s);
      }
      if i :| 0 <= i < |journal| && |journal| - 2000 <= i && Witnesses(journal[i], secid, q < 0, avg, step, s) {
        assert tail[i - skip] == journal[i];
      }
    }
  }

  /** A rung is identified by its threshold to within a billionth, the lock first. */
  lemma StepIdExactly(pct: real, s: Settings)
    ensures ProfitStepId(pct, s) == Some(ProfitLock)
      <==> s.profitLockPct > 0.0 && -0.000000001 <= pct - s.profitLockPct <= 0.000000001
    ensures ProfitStepId(pct, s) == Some(ProfitPartial)
      <==> && s.profitPartialPct > 0.0 && -0.000000001 <= pct - s.profitPartialPct <= 0.000000001
           && !(s.profitLockPct > 0.0 && -0.000000001 <= pct - s.profitLockPct <= 0.000000001)
  {}
}
