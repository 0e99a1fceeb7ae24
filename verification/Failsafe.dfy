/** The balance failsafe: an in-memory latch that must agree with the journal
    after any restart, a grace period, and a close-all. */
module Failsafe {
  import opened Money
  import opened Portfolio
  import opened Orders
  import opened Journal

  datatype FailsafeSettings = FailsafeSettings(enabled: bool, hasBilling: bool, minBalance: real, graceMinutes: int)

  function MinBalance(s: FailsafeSettings): real { OrElse(s.minBalance, 0.01) }

  /** In seconds; a configured 0 falls back to 30 minutes. */
  function Grace(s: FailsafeSettings): nat { 60 * MaxInt(if s.graceMinutes != 0 then s.graceMinutes else 30, 0) }

  // ---- Reading the latch back from the journal ---------------------------

  predicate IsLatchRecord(r: Record) { r.BalanceDepleted? || r.BalanceRecovered? }

  /** Newest latch record decides. */
  function Replay(records: seq<Record>): Option<int> {
    if records == [] then None
    else
      match records[|records| - 1]
      case BalanceRecovered => None
      case BalanceDepleted(at) => Some(at)
      case _ => Replay(records[..|records| - 1])
  }

  lemma {:induction false} ReplaySuffix(records: seq<Record>, from: nat)
    requires from <= |records|
    ensures (exists r :: r in records[from..] && IsLatchRecord(r)) ==> Replay(records[from..]) == Replay(records)
    ensures !(exists r :: r in records[from..] && IsLatchRecord(r)) ==> Replay(records[from..]) == None
    decreases |records|
  {
    if from < |records| {
      var n := |records| - 1;
      assert records[from..][..n - from] == records[..n][from..];
      assert records[from..][n - from] == records[n];
      assert forall r :: r in records[from..] <==> r in records[..n][from..] || r == records[n] by {
        assert records[from..] == records[..n][from..] + [records[n]];
      }
      if !IsLatchRecord(records[n]) {
        ReplaySuffix(records[..n], from);
      }
    } else {
      assert records[from..] == [];
    }
  }

  /** A restart reads only the tail: it restores the latch exactly when the
      journal says "recovered" anyway or the tail still holds a latch record. */
  lemma TailReplayExactly(journal: seq<Record>, n: nat)
    ensures Replay(Tail(journal, n)) == Replay(journal)
      <==> (Replay(journal).None? || exists r :: r in Tail(journal, n) && IsLatchRecord(r))
  {
    if |journal| > n {
      ReplaySuffix(journal, |journal| - n);
    } else {
      ReplaySuffix(journal, 0);
      assert journal[0..] == journal;
    }
  }

  // ---- The latch over its whole life -------------------------------------

  datatype Event =
    | Checked(balance: real, now: int)
    | CheckFailed
    | Restarted
    | Logged

  datatype Latch = Latch(depletedAt: Option<int>, journal: seq<Record>)

  datatype Reaction = Proceed | SkipInGrace | CloseAll

  /** Decision of one balance check, given the latch after it. */
  function ReactionTo(s: FailsafeSettings, balance: real, now: int, depletedAt: Option<int>): Reaction {
    if balance > MinBalance(s) || depletedAt.None? then Proceed
    else if now - depletedAt.value < Grace(s) then SkipInGrace
    else CloseAll
  }

  function LatchAfterCheck(s: FailsafeSettings, l: Latch, balance: real, now: int): Latch {
    if balance > MinBalance(s) then
      Latch(None, if l.depletedAt.Some? then l.journal + [BalanceRecovered] else l.journal)
    else if l.depletedAt.None? then Latch(Some(now), l.journal + [BalanceDepleted(now)])
    else l
  }

  /** A check that skips the tick also logs that it did. */
  function LatchStep(s: FailsafeSettings, l: Latch, e: Event): Latch {
    match e
    case Checked(balance, now) =>
      var l' := LatchAfterCheck(s, l, balance, now);
      if ReactionTo(s, balance, now, l'.depletedAt).Proceed? then l' else l'.(journal := l'.journal + [Other])
    case CheckFailed => l
    case Restarted => l.(depletedAt := Replay(Tail(l.journal, TAIL_WINDOW)))
    case Logged => l.(journal := l.journal + [Other])
  }

  function RunLatch(s: FailsafeSettings, l: Latch, events: seq<Event>): Latch {
    if events == [] then l else LatchStep(s, RunLatch(s, l, events[..|events| - 1]), events[|events| - 1])
  }

  /** First low reading since the last recovery, read off the events alone. */
  function FirstLow(s: FailsafeSettings, events: seq<Event>): Option<int> {
    if events == [] then None
    else
      var before := FirstLow(s, events[..|events| - 1]);
      match events[|events| - 1]
      case Checked(balance, now) =>
        if balance > MinBalance(s) then None else if before.None? then Some(now) else before
      case _ => before
  }

  ghost predicate LatchInTail(l: Latch) {
    Replay(l.journal).None? || exists r :: r in Tail(l.journal, TAIL_WINDOW) && IsLatchRecord(r)
  }

  /** Every restart still sees the latch record that matters. */
  ghost predicate RestartsInWindow(s: FailsafeSettings, events: seq<Event>) {
    forall k :: 0 <= k < |events| && events[k].Restarted? ==> LatchInTail(RunLatch(s, Latch(None, []), events[..k]))
  }

  lemma ReplaySnoc(journal: seq<Record>, r: Record)
    ensures Replay(journal + [r]) ==
      match r
      case BalanceRecovered => None
      case BalanceDepleted(at) => Some(at)
      case _ => Replay(journal)
  {
    assert (journal + [r])[..|journal|] == journal;
  }

  lemma StepKeepsAgreement(s: FailsafeSettings, l: Latch, e: Event)
    requires l.depletedAt == Replay(l.journal) && (e.Restarted? ==> LatchInTail(l))
    ensures var l' := LatchStep(s, l, e); l'.depletedAt == Replay(l'.journal)
  {
    match e
    case Checked(balance, now) =>
      ReplaySnoc(l.journal, BalanceRecovered);
      ReplaySnoc(l.journal, BalanceDepleted(now));
      var l' := LatchAfterCheck(s, l, balance, now);
      ReplaySnoc(l'.journal, Other);
    case CheckFailed =>
    case Restarted => TailReplayExactly(l.journal, TAIL_WINDOW);
    case Logged => ReplaySnoc(l.journal, Other);
  }

  /** For every sequence of readings, failed checks, other log entries and
      restarts, the latch in memory is the journal's replay and the first low
      reading since the last recovery. */
  lemma {:induction false} LatchAgrees(s: FailsafeSettings, events: seq<Event>)
    requires RestartsInWindow(s, events)
    ensures var l := RunLatch(s, Latch(None, []), events);
      l.depletedAt == Replay(l.journal) && l.depletedAt == FirstLow(s, events)
  {
    if events != [] {
      var n := |events| - 1;
      forall k | 0 <= k < n && events[..n][k].Restarted?
        ensures LatchInTail(RunLatch(s, Latch(None, []), events[..n][..k]))
      {
        assert events[..n][..k] == events[..k];
      }
      LatchAgrees(s, events[..n]);
      var l := RunLatch(s, Latch(None, []), events[..n]);
      StepKeepsAgreement(s, l, events[n]);
      if events[n].Restarted? {
        TailReplayExactly(l.journal, TAIL_WINDOW);
      }
    }
  }

  /** Positions are closed by a check only when the balance is low and the first
      low reading since the last recovery is at least the grace period old. */
  lemma CloseAllNeedsGrace(s: FailsafeSettings, events: seq<Event>, balance: real, now: int)
    requires RestartsInWindow(s, events)
    ensures var l := LatchAfterCheck(s, RunLatch(s, Latch(None, []), events), balance, now);
      var low := FirstLow(s, events + [Checked(balance, now)]);
      ReactionTo(s, balance, now, l.depletedAt).CloseAll?
      <==> (balance <= MinBalance(s) && low.Some? && now - low.value >= Grace(s))
  {
    LatchAgrees(s, events);
    var all := events + [Checked(balance, now)];
    assert all[..|all| - 1] == events;
  }

  /** In numbers: a balance of at most the configured minimum (0.01 roubles when
      that is 0) closes everything exactly when the first low reading is 60
      seconds per configured minute old, 1800 seconds when no minutes are set,
      and at once when they are negative. */
  lemma CloseAllTimes(s: FailsafeSettings, events: seq<Event>, balance: real, now: int)
    requires RestartsInWindow(s, events)
    ensures var l := LatchAfterCheck(s, RunLatch(s, Latch(None, []), events), balance, now);
      var low := FirstLow(s, events + [Checked(balance, now)]);
      ReactionTo(s, balance, now, l.depletedAt).CloseAll?
      <==> (&& (if s.minBalance != 0.0 then balance <= s.minBalance else balance <= 0.01)
            && low.Some?
            && (if s.graceMinutes > 0 then now - low.value >= 60 * s.graceMinutes
                else if s.graceMinutes == 0 then now - low.value >= 1800
                else now >= low.value))
  {
    CloseAllNeedsGrace(s, events, balance, now);
    hide RunLatch, FirstLow, LatchAfterCheck, ReactionTo, RestartsInWindow;
  }

  /** Above the minimum the tick goes on and the latch is off; at or below it the tick is skipped. */
  lemma BalanceDecides(s: FailsafeSettings, l: Latch, balance: real, now: int)
    ensures var l' := LatchStep(s, l, Checked(balance, now));
      var minimum := if s.minBalance != 0.0 then s.minBalance else 0.01;
      && (ReactionTo(s, balance, now, LatchAfterCheck(s, l, balance, now).depletedAt).Proceed? <==> balance > minimum)
      && (l'.depletedAt.None? <==> balance > minimum)
  {}

  /** A restart after the record slid out of the window forgets the depletion
      and starts a new grace period. */
  lemma LostLatchRestartsGrace(s: FailsafeSettings, l: Latch, balance: real, now: int)
    requires l.depletedAt == Replay(l.journal) && l.depletedAt.Some? && !LatchInTail(l) && balance <= MinBalance(s)
    ensures LatchAfterCheck(s, LatchStep(s, l, Restarted), balance, now).depletedAt == Some(now)
  {
    ReplayWithoutLatch(Tail(l.journal, TAIL_WINDOW));
  }

  lemma {:induction false} ReplayWithoutLatch(records: seq<Record>)
    requires !(exists r :: r in records && IsLatchRecord(r))
    ensures Replay(records) == None
  {
    if records != [] {
      assert records[|records| - 1] in records;
      ReplayWithoutLatch(records[..|records| - 1]);
    }
  }

  // ---- Close-all ---------------------------------------------------------

  /** The order that flattens a row. */
  function FlattenOrder(p: Position, accepted: bool): Order {
    Order(p.secid, if p.lots > 0 then SellSide else BuySide, Abs(p.lots), accepted)
  }

  /** Orders for every non-empty row with a ticker; `accepted[i]` is the broker's answer for row i. */
  function FlattenOrders(ps: seq<Position>, accepted: seq<bool>): seq<Order>
    requires |accepted| == |ps|
  {
    if ps == [] then []
    else
      var n := |ps| - 1;
      FlattenOrders(ps[..n], accepted[..n])
      + (if ps[n].secid == "" || ps[n].lots == 0 then [] else [FlattenOrder(ps[n], accepted[n])])
  }

  method ClosePositions(ps: seq<Position>, accepted: seq<bool>) returns (orders: seq<Order>)
    requires |accepted| == |ps|
    ensures orders == FlattenOrders(ps, accepted)
  {
    orders := [];
    for i := 0 to |ps|
      invariant orders == FlattenOrders(ps[..i], accepted[..i])
    {
      assert ps[..i + 1][..i] == ps[..i] && accepted[..i + 1][..i] == accepted[..i];
      var signedQty := ps[i].lots;
      var qty := Abs(signedQty);
      if ps[i].secid != "" && qty > 0 {
        var side := if signedQty > 0 then SellSide else BuySide;
        orders := orders + [Order(ps[i].secid, side, qty, accepted[i])];
      }
    }
    assert ps[..|ps|] == ps && accepted[..|ps|] == accepted;
  }

  function OpenRows(ps: seq<Position>): nat {
    if ps == [] then 0
    else
      var p := ps[|ps| - 1];
      OpenRows(ps[..|ps| - 1]) + if p.secid != "" && p.lots != 0 then 1 else 0
  }

  /** Close-all sends one order per open row, of all its lots against its side,
      whatever the broker answers, and no other order. */
  lemma {:induction false} EveryPositionIsOrdered(ps: seq<Position>, accepted: seq<bool>)
    requires |accepted| == |ps|
    ensures |FlattenOrders(ps, accepted)| == OpenRows(ps)
    ensures forall i :: 0 <= i < |ps| && ps[i].secid != "" && ps[i].lots != 0 ==>
      Order(ps[i].secid, if ps[i].lots > 0 then SellSide else BuySide,
            if ps[i].lots > 0 then ps[i].lots else -ps[i].lots, accepted[i])
      in FlattenOrders(ps, accepted)
  {
    if ps != [] {
      var n := |ps| - 1;
      EveryPositionIsOrdered(ps[..n], accepted[..n]);
      forall i | 0 <= i < |ps| && ps[i].secid != "" && ps[i].lots != 0
        ensures FlattenOrder(ps[i], accepted[i]) in FlattenOrders(ps, accepted)
      {
        if i < n {
          assert ps[..n][i] == ps[i] && accepted[..n][i] == accepted[i];
        }
      }
    }
  }

  lemma {:induction false} FlattenForeign(ps: seq<Position>, accepted: seq<bool>, secid: string)
    requires |accepted| == |ps| && forall k :: 0 <= k < |ps| ==> ps[k].secid != secid
    ensures NetAccepted(FlattenOrders(ps, accepted), secid) == 0
  {
    if ps != [] {
      var n := |ps| - 1;
      FlattenForeign(ps[..n], accepted[..n], secid);
      NetAcceptedAppend(FlattenOrders(ps[..n], accepted[..n]),
                        if ps[n].secid == "" || ps[n].lots == 0 then [] else [FlattenOrder(ps[n], accepted[n])], secid);
    }
  }

  /** Row by row: an accepted close-all order leaves exactly zero lots, a
      rejected one leaves the position as it was. */
  lemma {:induction false} ClosePositionsFlattens(ps: seq<Position>, accepted: seq<bool>, i: nat)
    requires |accepted| == |ps| && UniqueSecids(ps) && i < |ps| && ps[i].secid != ""
    ensures ps[i].lots + NetAccepted(FlattenOrders(ps, accepted), ps[i].secid) == if accepted[i] then 0 else ps[i].lots
  {
    var n := |ps| - 1;
    var last := if ps[n].secid == "" || ps[n].lots == 0 then [] else [FlattenOrder(ps[n], accepted[n])];
    NetAcceptedAppend(FlattenOrders(ps[..n], accepted[..n]), last, ps[i].secid);
    if i == n {
      FlattenForeign(ps[..n], accepted[..n], ps[n].secid);
    } else {
      ClosePositionsFlattens(ps[..n], accepted[..n], i);
      assert ps[..n][i] == ps[i];
    }
    if last != [] {
      assert last[1..] == [];
    }
  }
}
