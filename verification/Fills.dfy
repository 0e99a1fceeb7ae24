/** Fills under the collateral model: a trade that crosses zero is a close
    followed by an open. The tick simulation and the engine both reduce to this. */
module Fills {
  import opened Money
  import opened Portfolio
  import opened Simulation

  /** Lots of the old position that `delta` closes, and the lots it opens. */
  function ClosedLots(q: int, delta: int): nat {
    if (q > 0 && delta < 0) || (q < 0 && delta > 0) then MinInt(Abs(q), Abs(delta)) else 0
  }

  function OpenedLots(q: int, delta: int): nat { Abs(delta) - ClosedLots(q, delta) }

  predicate Crosses(q: int, delta: int) { ClosedLots(q, delta) > 0 && OpenedLots(q, delta) > 0 }

  /** Closing returns the current notional; opening blocks it, long or short. */
  function CashDelta(q: int, delta: int, lot: int, price: real): real {
    Notional(ClosedLots(q, delta), lot, price) - Notional(OpenedLots(q, delta), lot, price)
  }

  function FillPositions(ps: seq<Position>, secid: string, delta: int, price: real): seq<Position> {
    var q := PositionFor(ps, secid);
    if delta == 0 then ps
    else if Crosses(q, delta) then StepPositions(StepPositions(ps, secid, -q, price), secid, q + delta, price)
    else StepPositions(ps, secid, delta, price)
  }

  function AverageAfter(q: int, avg: real, delta: int, price: real): real {
    if delta == 0 then avg else if q + delta == 0 then 0.0 else NewAverage(q, avg, delta, price)
  }

  function CollateralFill(cash: real, ps: seq<Position>, secid: string, delta: int, lot: int, price: real,
                          commission: real)
    : (real, seq<Position>)
  {
    (cash + CashDelta(PositionFor(ps, secid), delta, lot, price) - commission, FillPositions(ps, secid, delta, price))
  }

  // ---- What one step does to the list ------------------------------------

  lemma NoMatch(ps: seq<Position>, secid: string)
    requires forall k :: 0 <= k < |ps| ==> ps[k].secid != secid
    ensures IndexOf(ps, secid) == -1
  {}

  lemma StepKeepsUnique(ps: seq<Position>, secid: string, delta: int, price: real)
    requires UniqueSecids(ps)
    ensures UniqueSecids(StepPositions(ps, secid, delta, price))
  {}

  lemma StepLookup(ps: seq<Position>, secid: string, delta: int, price: real)
    requires UniqueSecids(ps) && delta != 0
    ensures var ps' := StepPositions(ps, secid, delta, price); var q := PositionFor(ps, secid);
      && PositionFor(ps', secid) == q + delta
      && AvgPriceFor(ps', secid) == AverageAfter(q, AvgPriceFor(ps, secid), delta, price)
  {
    StepKeepsUnique(ps, secid, delta, price);
    var ps' := StepPositions(ps, secid, delta, price);
    var i := IndexOf(ps, secid);
    if i < 0 {
      FirstIs(ps', |ps|, secid);
    } else if ps[i].lots + delta == 0 {
      NoMatch(ps', secid);
    } else {
      FirstIs(ps', i, secid);
    }
  }

  lemma AppendedElsewhere(ps: seq<Position>, p: Position, other: string)
    requires p.secid != other
    ensures PositionFor(ps + [p], other) == PositionFor(ps, other)
      && AvgPriceFor(ps + [p], other) == AvgPriceFor(ps, other)
  {
    var k, all := IndexOf(ps, other), ps + [p];
    hide IndexOf;
    assert forall m :: 0 <= m < |ps| ==> all[m] == ps[m];
    if k < 0 {
      NoMatch(all, other);
    } else {
      FirstIs(all, k, other);
    }
  }

  lemma RemovedElsewhere(ps: seq<Position>, i: nat, other: string)
    requires i < |ps| && ps[i].secid != other
    ensures var left := ps[..i] + ps[i + 1..];
      PositionFor(left, other) == PositionFor(ps, other) && AvgPriceFor(left, other) == AvgPriceFor(ps, other)
  {
    var k, left := IndexOf(ps, other), ps[..i] + ps[i + 1..];
    hide IndexOf;
    assert forall m :: 0 <= m < i ==> left[m] == ps[m];
    assert forall m :: i <= m < |left| ==> left[m] == ps[m + 1];
    if k < 0 {
      NoMatch(left, other);
    } else if k < i {
      FirstIs(left, k, other);
    } else {
      FirstIs(left, k - 1, other);
    }
  }

  lemma UpdatedElsewhere(ps: seq<Position>, i: nat, p: Position, other: string)
    requires i < |ps| && ps[i].secid != other && p.secid != other
    ensures PositionFor(ps[i := p], other) == PositionFor(ps, other)
      && AvgPriceFor(ps[i := p], other) == AvgPriceFor(ps, other)
  {
    var k := IndexOf(ps, other);
    hide IndexOf;
    if k < 0 {
      NoMatch(ps[i := p], other);
    } else {
      FirstIs(ps[i := p], k, other);
    }
  }

  lemma StepFrame(ps: seq<Position>, secid: string, delta: int, price: real, other: string)
    requires other != secid
    ensures var ps' := StepPositions(ps, secid, delta, price);
      PositionFor(ps', other) == PositionFor(ps, other) && AvgPriceFor(ps', other) == AvgPriceFor(ps, other)
  {
    hide NewAverage, PositionFor, AvgPriceFor, IndexOf;
    var i := IndexOf(ps, secid);
    if i < 0 {
      AppendedElsewhere(ps, NewRow(secid, delta, price), other);
    } else if ps[i].lots + delta == 0 {
      RemovedElsewhere(ps, i, other);
    } else {
      var lots, avg := ps[i].lots + delta, NewAverage(ps[i].lots, ps[i].avgPrice, delta, price);
      UpdatedElsewhere(ps, i, ps[i].(lots := lots, avgPrice := avg), other);
    }
  }

  /** `f` prices every row of `secid` by lots and average alone. */
  ghost predicate PricesRow(f: Position -> real, v: (int, real) -> real, secid: string, lotSizes: map<string, int>) {
    && (forall x: real :: v(0, x) == 0.0)
    && forall p: Position :: p.secid == secid && RowLotAgrees(p, lotSizes) ==> f(p) == v(p.lots, p.avgPrice)
  }

  lemma StepKeepsWellFormed(ps: seq<Position>, secid: string, delta: int, price: real, lotSizes: map<string, int>)
    requires WellFormed(ps, lotSizes)
    ensures WellFormed(StepPositions(ps, secid, delta, price), lotSizes)
  {
    StepKeepsUnique(ps, secid, delta, price);
    var ps' := StepPositions(ps, secid, delta, price);
    forall p | p in ps' ensures RowLotAgrees(p, lotSizes) {
      var i := IndexOf(ps, secid);
      if p !in ps && i >= 0 {
        assert RowLotAgrees(ps[i], lotSizes);
      }
    }
  }

  lemma StepTotal(ps: seq<Position>, secid: string, delta: int, price: real, lotSizes: map<string, int>,
                  f: Position -> real, v: (int, real) -> real)
    requires WellFormed(ps, lotSizes) && delta != 0 && PricesRow(f, v, secid, lotSizes)
    ensures var q, avg := PositionFor(ps, secid), AvgPriceFor(ps, secid);
      Total(StepPositions(ps, secid, delta, price), f)
      == Total(ps, f) - v(q, avg) + v(q + delta, AverageAfter(q, avg, delta, price))
  {
    hide NewAverage, LotSizeFor, Total, UniqueSecids;
    var i := IndexOf(ps, secid);
    if i < 0 {
      FlatAverage(delta, price);
      TotalSnoc(ps, NewRow(secid, delta, price), f);
      assert RowLotAgrees(NewRow(secid, delta, price), lotSizes);
    } else {
      assert RowLotAgrees(ps[i], lotSizes);
      if ps[i].lots + delta == 0 {
        TotalRemove(ps, i, f);
      } else {
        var row := ps[i].(lots := ps[i].lots + delta, avgPrice := NewAverage(ps[i].lots, ps[i].avgPrice, delta, price));
        assert RowLotAgrees(row, lotSizes);
        TotalUpdate(ps, i, row, f);
      }
    }
  }

  lemma FlatAverage(delta: int, price: real)
    ensures NewAverage(0, 0.0, delta, price) == price
  {}

  // ---- What a whole fill does --------------------------------------------

  /** Past zero the average is the fill price. */
  lemma CrossingAverage(q: int, avg: real, delta: int, price: real)
    requires Crosses(q, delta)
    ensures AverageAfter(q, avg, delta, price) == price
    ensures AverageAfter(0, 0.0, q + delta, price) == price
    ensures AverageAfter(q, avg, -q, price) == 0.0
  {}

  lemma FillLookup(ps: seq<Position>, secid: string, delta: int, price: real)
    requires UniqueSecids(ps)
    ensures var ps' := FillPositions(ps, secid, delta, price); var q := PositionFor(ps, secid);
      && UniqueSecids(ps')
      && PositionFor(ps', secid) == q + delta
      && AvgPriceFor(ps', secid) == AverageAfter(q, AvgPriceFor(ps, secid), delta, price)
  {
    hide StepPositions, UniqueSecids, PositionFor, AvgPriceFor, NewAverage, AverageAfter;
    var q := PositionFor(ps, secid);
    if delta == 0 {
      KeptOnNoTrade(q, AvgPriceFor(ps, secid), price);
    } else if Crosses(q, delta) {
      CrossingAverage(q, AvgPriceFor(ps, secid), delta, price);
      StepKeepsUnique(ps, secid, -q, price);
      StepLookup(ps, secid, -q, price);
      var mid := StepPositions(ps, secid, -q, price);
      StepKeepsUnique(mid, secid, q + delta, price);
      StepLookup(mid, secid, q + delta, price);
    } else {
      StepKeepsUnique(ps, secid, delta, price);
      StepLookup(ps, secid, delta, price);
    }
  }

  lemma KeptOnNoTrade(q: int, avg: real, price: real)
    ensures AverageAfter(q, avg, 0, price) == avg
  {}

  lemma FillFrame(ps: seq<Position>, secid: string, delta: int, price: real, other: string)
    requires UniqueSecids(ps) && other != secid
    ensures var ps' := FillPositions(ps, secid, delta, price);
      PositionFor(ps', other) == PositionFor(ps, other) && AvgPriceFor(ps', other) == AvgPriceFor(ps, other)
  {
    hide StepPositions, IndexOf;
    var q := PositionFor(ps, secid);
    if Crosses(q, delta) {
      StepKeepsUnique(ps, secid, -q, price);
      StepFrame(ps, secid, -q, price, other);
      StepFrame(StepPositions(ps, secid, -q, price), secid, q + delta, price, other);
    } else if delta != 0 {
      StepFrame(ps, secid, delta, price, other);
    }
  }

  lemma FillTotal(ps: seq<Position>, secid: string, delta: int, price: real, lotSizes: map<string, int>,
                  f: Position -> real, v: (int, real) -> real)
    requires WellFormed(ps, lotSizes) && PricesRow(f, v, secid, lotSizes)
    ensures var q, avg := PositionFor(ps, secid), AvgPriceFor(ps, secid);
      var ps' := FillPositions(ps, secid, delta, price);
      && WellFormed(ps', lotSizes)
      && Total(ps', f) == Total(ps, f) - v(q, avg) + v(q + delta, AverageAfter(q, avg, delta, price))
  {
    hide StepPositions, PositionFor, AvgPriceFor, NewAverage, LotSizeFor, Total, UniqueSecids, RowLotAgrees;
    var q := PositionFor(ps, secid);
    if Crosses(q, delta) {
      CrossingAverage(q, AvgPriceFor(ps, secid), delta, price);
      StepKeepsWellFormed(ps, secid, -q, price, lotSizes);
      StepLookup(ps, secid, -q, price);
      StepTotal(ps, secid, -q, price, lotSizes, f, v);
      var mid := StepPositions(ps, secid, -q, price);
      StepKeepsWellFormed(mid, secid, q + delta, price, lotSizes);
      StepTotal(mid, secid, q + delta, price, lotSizes, f, v);
    } else if delta != 0 {
      StepKeepsWellFormed(ps, secid, delta, price, lotSizes);
      StepTotal(ps, secid, delta, price, lotSizes, f, v);
    }
  }
}
