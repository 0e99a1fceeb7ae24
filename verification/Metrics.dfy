/** Performance metrics: the linear-time drawdown against its definition over
    all pairs, and returns against their product. */
module Metrics {
  import opened Money

  /** np.maximum.accumulate */
  function RunningPeak(e: seq<real>): (p: seq<real>)
    ensures |p| == |e|
  {
    if e == [] then []
    else
      var n := |e| - 1;
      var front := RunningPeak(e[..n]);
      front + [if n == 0 then e[n] else MaxReal(front[n - 1], e[n])]
  }

  /** Each entry is the maximum of the values so far. */
  lemma {:induction false} PeakIsMaximum(e: seq<real>, j: nat)
    requires j < |e|
    ensures forall i :: 0 <= i <= j ==> e[i] <= RunningPeak(e)[j]
    ensures exists i :: 0 <= i <= j && e[i] == RunningPeak(e)[j]
    decreases |e|
  {
    var n := |e| - 1;
    var front := e[..n];
    assert forall i :: 0 <= i < n ==> front[i] == e[i];
    if j < n {
      PeakIsMaximum(front, j);
      assert RunningPeak(e)[j] == RunningPeak(front)[j];
      var i :| 0 <= i <= j && front[i] == RunningPeak(front)[j];
      assert e[i] == RunningPeak(e)[j];
    } else if n > 0 {
      PeakIsMaximum(front, n - 1);
      var i :| 0 <= i <= n - 1 && front[i] == RunningPeak(front)[n - 1];
      assert e[i] == front[i];
      assert RunningPeak(e)[n] == MaxReal(RunningPeak(front)[n - 1], e[n]);
      assert e[i] == RunningPeak(e)[n] || e[n] == RunningPeak(e)[n];
    } else {
      assert e[0] == RunningPeak(e)[0];
    }
  }

  function Ratio(x: real, y: real): real
    requires y != 0.0
  {
    x / y
  }

  lemma RatioTimes(x: real, y: real)
    requires y != 0.0
    ensures Ratio(x, y) * y == x
  {
    QuotientTimes(x, y);
  }

  lemma Cancel(x: real, y: real, k: real)
    requires x * k == y * k && k != 0.0
    ensures x == y
  {
    assert (x - y) * k == 0.0;
  }

  function Fall(peak: real, value: real): real { if peak > 0.0 then Ratio(peak - value, peak) else 0.0 }

  function MaxOf(xs: seq<real>): (m: real)
    requires xs != []
    ensures m in xs && forall x :: x in xs ==> x <= m
  {
    var n := |xs| - 1;
    if n == 0 then xs[0]
    else
      var m := MaxOf(xs[..n]);
      assert forall x :: x in xs <==> x in xs[..n] || x == xs[n] by {
        assert xs == xs[..n] + [xs[n]];
      }
      MaxReal(m, xs[n])
  }

  function Drawdowns(e: seq<real>): seq<real> {
    var peak := RunningPeak(e);
    seq(|e|, i requires 0 <= i < |e| => Fall(peak[i], e[i]))
  }

  function MaxDrawdown(e: seq<real>): real { if |e| < 2 then 0.0 else MaxOf(Drawdowns(e)) }

  lemma FallOf(peak: real, value: real)
    requires peak > 0.0
    ensures Fall(peak, value) == 1.0 - Ratio(value, peak)
  {
    hide Ratio;
    RatioTimes(peak - value, peak);
    RatioTimes(value, peak);
    var x := Ratio(value, peak);
    assert (1.0 - x) * peak == peak - x * peak;
    Cancel(Ratio(peak - value, peak), 1.0 - x, peak);
  }

  lemma RatioBounds(value: real, peak: real)
    requires peak >= value >= 0.0 && peak > 0.0
    ensures 0.0 <= Ratio(value, peak) <= 1.0
    ensures value > 0.0 ==> Ratio(value, peak) > 0.0
  {
    RatioTimes(value, peak);
    hide Ratio;
    var x := Ratio(value, peak);
    if x > 1.0 {
      ProductPositive(x - 1.0, peak);
    }
    if x < 0.0 {
      ProductPositive(-x, peak);
    }
  }

  /** Falling from a higher peak to the same non-negative value is a larger fall. */
  lemma FallGrowsWithPeak(a: real, b: real, value: real)
    requires 0.0 < a <= b && 0.0 <= value
    ensures Fall(a, value) <= Fall(b, value)
  {
    FallOf(a, value);
    FallOf(b, value);
    RatioTimes(value, a);
    RatioTimes(value, b);
    hide Ratio, Fall;
    var x, y := Ratio(value, a), Ratio(value, b);
    if x < 0.0 {
      ProductPositive(-x, a);
    }
    if y > x >= 0.0 {
      LargerProduct(x, a, y, b);
    }
  }

  lemma LargerProduct(x: real, a: real, y: real, b: real)
    requires 0.0 <= x < y && 0.0 < a <= b
    ensures x * a < y * b
  {
    ProductPositive(y - x, b);
    ProductNonNegative(x, b - a);
    assert (y - x) * b == y * b - x * b;
    assert x * (b - a) == x * b - x * a;
  }

  lemma FallRange(peak: real, value: real)
    requires peak >= value >= 0.0
    ensures 0.0 <= Fall(peak, value) <= 1.0
    ensures value > 0.0 ==> Fall(peak, value) < 1.0
  {
    if peak > 0.0 {
      FallOf(peak, value);
      RatioBounds(value, peak);
      hide Fall, Ratio;
    }
  }

  /** The one-pass drawdown is the largest fall over all pairs i <= j, is
      attained by one of them, and lies in [0, 1], below 1 on positive equity. */
  lemma DrawdownIsLargestFall(e: seq<real>)
    requires |e| >= 2 && forall i :: 0 <= i < |e| ==> e[i] >= 0.0
    ensures forall i, j :: 0 <= i <= j < |e| ==> Fall(e[i], e[j]) <= MaxDrawdown(e)
    ensures exists i, j :: 0 <= i <= j < |e| && Fall(e[i], e[j]) == MaxDrawdown(e)
    ensures 0.0 <= MaxDrawdown(e) <= 1.0
    ensures (forall i :: 0 <= i < |e| ==> e[i] > 0.0) ==> MaxDrawdown(e) < 1.0
  {
    var peak, dd, m := RunningPeak(e), Drawdowns(e), MaxDrawdown(e);
    hide RunningPeak, MaxOf;
    assert m in dd && forall x :: x in dd ==> x <= m;
    forall i, j | 0 <= i <= j < |e| ensures Fall(e[i], e[j]) <= m {
      assert dd[j] in dd;
      PeakIsMaximum(e, j);
      FallRange(peak[j], e[j]);
      if e[i] > 0.0 {
        FallGrowsWithPeak(e[i], peak[j], e[j]);
      }
    }
    var j :| 0 <= j < |e| && dd[j] == m;
    PeakIsMaximum(e, j);
    var i :| 0 <= i <= j && e[i] == peak[j];
    assert Fall(e[i], e[j]) == m;
    FallRange(peak[j], e[j]);
  }

  /** A fall is the lost share of a positive peak. */
  lemma FallIsShare(peak: real, value: real)
    ensures peak > 0.0 ==> Fall(peak, value) * peak == peak - value
    ensures peak <= 0.0 ==> Fall(peak, value) == 0.0
  {
    if peak > 0.0 {
      RatioTimes(peak - value, peak);
    }
  }

  ghost predicate NeverFalls(e: seq<real>) { forall i, j :: 0 <= i <= j < |e| ==> e[i] <= e[j] }

  /** There is no drawdown exactly when equity never falls. */
  lemma NoDrawdownExactly(e: seq<real>)
    requires forall i :: 0 <= i < |e| ==> e[i] >= 0.0
    ensures MaxDrawdown(e) == 0.0 <==> NeverFalls(e)
  {
    if |e| >= 2 {
      hide MaxDrawdown, Fall;
      DrawdownIsLargestFall(e);
      if NeverFalls(e) {
        var i, j :| 0 <= i <= j < |e| && Fall(e[i], e[j]) == MaxDrawdown(e);
        NoLossNoFall(e[i], e[j]);
      } else {
        var i, j :| 0 <= i <= j < |e| && e[i] > e[j];
        assert Fall(e[i], e[j]) <= MaxDrawdown(e);
        LossIsFall(e[i], e[j]);
      }
    }
  }

  lemma NoLossNoFall(peak: real, value: real)
    requires 0.0 <= peak <= value
    ensures Fall(peak, value) <= 0.0
  {
    hide Fall;
    FallIsShare(peak, value);
    if peak > 0.0 && Fall(peak, value) > 0.0 {
      ProductPositive(Fall(peak, value), peak);
    }
  }

  lemma LossIsFall(peak: real, value: real)
    requires peak > value >= 0.0
    ensures Fall(peak, value) > 0.0
  {
    hide Fall;
    FallIsShare(peak, value);
    if Fall(peak, value) <= 0.0 {
      ProductNonNegative(-Fall(peak, value), peak);
    }
  }

  lemma PeakIs(e: seq<real>, i: nat, j: nat)
    requires i <= j < |e| && forall k :: 0 <= k <= j ==> e[k] <= e[i]
    ensures RunningPeak(e)[j] == e[i]
  {
    hide RunningPeak;
    PeakIsMaximum(e, j);
    var peak := RunningPeak(e);
    var k :| 0 <= k <= j && e[k] == peak[j];
    assert e[i] <= peak[j];
  }

  /** A fall from positive to negative equity. */
  ghost predicate DebtPair(e: seq<real>, i: int, j: int) { 0 <= i < j < |e| && e[i] > 0.0 > e[j] }

  /** No fall into debt is larger. */
  ghost predicate WorstDebtPair(e: seq<real>, i: int, j: int) {
    DebtPair(e, i, j) && forall a, b :: DebtPair(e, a, b) ==> Fall(e[a], e[b]) <= Fall(e[i], e[j])
  }

  /** All positive values before k are the same. */
  ghost predicate LevelBefore(e: seq<real>, k: int) {
    forall i, j :: 0 <= i < k <= |e| && 0 <= j < k && e[i] > 0.0 && e[j] > 0.0 ==> e[i] == e[j]
  }

  ghost predicate BoundsAllFalls(e: seq<real>) {
    forall i, j :: 0 <= i <= j < |e| ==> Fall(e[i], e[j]) <= MaxDrawdown(e)
  }

  /** The one-pass drawdown is attained and bounds the running falls. */
  lemma DrawdownAttained(e: seq<real>) returns (k: nat)
    requires |e| >= 2
    ensures k < |e| && MaxDrawdown(e) == Fall(RunningPeak(e)[k], e[k])
    ensures forall j :: 0 <= j < |e| ==> Fall(RunningPeak(e)[j], e[j]) <= MaxDrawdown(e)
  {
    hide RunningPeak, MaxOf, Fall;
    var dd := Drawdowns(e);
    assert MaxOf(dd) in dd && forall x :: x in dd ==> x <= MaxOf(dd);
    forall j | 0 <= j < |e| ensures Fall(RunningPeak(e)[j], e[j]) <= MaxDrawdown(e) {
      DrawdownAt(e, j);
      assert dd[j] in dd;
    }
    k :| 0 <= k < |e| && dd[k] == MaxOf(dd);
    DrawdownAt(e, k);
  }

  /** A fall that is no debt pair is at most the running fall at its end. */
  lemma OrdinaryFall(e: seq<real>, i: nat, j: nat)
    requires i <= j < |e| && !DebtPair(e, i, j)
    ensures Fall(e[i], e[j]) <= Fall(RunningPeak(e)[j], e[j])
  {
    hide RunningPeak;
    PeakIsMaximum(e, j);
    var peak := RunningPeak(e)[j];
    if e[i] > 0.0 {
      FallGrowsWithPeak(e[i], peak, e[j]);
    } else if peak > 0.0 {
      FallOf(peak, e[j]);
      RatioTimes(e[j], peak);
      hide Ratio;
      var x := Ratio(e[j], peak);
      if x > 1.0 {
        ProductPositive(x - 1.0, peak);
      }
    }
  }

  /** Into debt, a fall from lower is the larger one. */
  lemma DebtFallShrinks(a: real, b: real, value: real)
    requires 0.0 < a < b && value < 0.0
    ensures 1.0 < Fall(b, value) < Fall(a, value)
  {
    FallOf(a, value);
    FallOf(b, value);
    DebtRatio(a, b, value);
    hide Fall, Ratio;
  }

  lemma DebtFallAboveOne(a: real, value: real)
    requires a > 0.0 && value < 0.0
    ensures Fall(a, value) > 1.0
  {
    DebtFallShrinks(a, 2.0 * a, value);
  }

  /** A worst debt pair before whose end equity is level is what the one pass reports. */
  lemma LevelWorstPairBounds(e: seq<real>, i: int, k: int)
    requires |e| >= 2 && WorstDebtPair(e, i, k) && LevelBefore(e, k)
    ensures BoundsAllFalls(e)
  {
    hide RunningPeak, MaxDrawdown, Fall;
    var at := DrawdownAttained(e);
    PeakIsMaximum(e, k);
    var p :| 0 <= p <= k && e[p] == RunningPeak(e)[k];
    assert p != k && e[p] == e[i];
    forall a, b | 0 <= a <= b < |e| ensures Fall(e[a], e[b]) <= MaxDrawdown(e) {
      if !DebtPair(e, a, b) {
        OrdinaryFall(e, a, b);
      }
    }
  }

  lemma NoDebtBounds(e: seq<real>)
    requires |e| >= 2 && forall i, j :: !DebtPair(e, i, j)
    ensures BoundsAllFalls(e)
  {
    hide RunningPeak, MaxDrawdown, Fall;
    var at := DrawdownAttained(e);
    forall a, b | 0 <= a <= b < |e| ensures Fall(e[a], e[b]) <= MaxDrawdown(e) {
      OrdinaryFall(e, a, b);
    }
  }

  /** If the one pass bounds every fall, it reports a worst debt pair with level equity before. */
  lemma BoundedDebtIsLevel(e: seq<real>, a: nat, b: nat) returns (i: nat, k: nat)
    requires |e| >= 2 && DebtPair(e, a, b) && BoundsAllFalls(e)
    ensures WorstDebtPair(e, i, k) && LevelBefore(e, k)
  {
    hide RunningPeak, MaxDrawdown, Fall;
    k := DrawdownAttained(e);
    DebtFallAboveOne(e[a], e[b]);
    assert Fall(e[a], e[b]) <= MaxDrawdown(e);
    PeakIsMaximum(e, k);
    var peak := RunningPeak(e)[k];
    FallOfRise(peak, e[k]);
    var p :| 0 <= p <= k && e[p] == peak;
    i := p;
    forall m | 0 <= m < k && e[m] > 0.0 ensures e[m] == peak {
      assert Fall(e[m], e[k]) <= MaxDrawdown(e);
      if e[m] < peak {
        DebtFallShrinks(e[m], peak, e[k]);
      }
    }
  }

  /** A fall above the whole peak ends in debt. */
  lemma FallOfRise(peak: real, value: real)
    ensures Fall(peak, value) > 1.0 ==> peak > 0.0 > value
  {
    if peak > 0.0 && value >= 0.0 {
      FallOf(peak, value);
      RatioTimes(value, peak);
      hide Fall, Ratio;
      var x := Ratio(value, peak);
      if x < 0.0 {
        ProductPositive(-x, peak);
      }
    }
  }

  /** On any equity curve the one-pass form bounds every fall exactly when the
      curve never falls from positive into negative equity, or some worst such
      fall starts from the only positive level seen before it. */
  lemma DrawdownBoundsFallsExactly(e: seq<real>)
    requires |e| >= 2
    ensures BoundsAllFalls(e) <==>
      || (forall i, j :: !DebtPair(e, i, j))
      || exists i, k :: WorstDebtPair(e, i, k) && LevelBefore(e, k)
  {
    hide MaxDrawdown, Fall, WorstDebtPair, LevelBefore;
    if forall i, j :: !DebtPair(e, i, j) {
      NoDebtBounds(e);
    } else if BoundsAllFalls(e) {
      var a, b :| DebtPair(e, a, b);
      var i, k := BoundedDebtIsLevel(e, a, b);
    }
    if i, k :| WorstDebtPair(e, i, k) && LevelBefore(e, k) {
      LevelWorstPairBounds(e, i, k);
    }
  }

  /** The shortest such curves: a rise, then debt. The fall from the first
      value is larger than anything the one pass reports. */
  lemma DrawdownDiffersOnDebt(e: seq<real>)
    requires |e| == 3 && 0.0 < e[0] < e[1] && e[2] < 0.0
    ensures MaxDrawdown(e) < Fall(e[0], e[2])
  {
    hide RunningPeak, MaxOf, Ratio, Fall, Drawdowns;
    DrawdownAt(e, 0);
    DrawdownAt(e, 1);
    DrawdownAt(e, 2);
    PeakIs(e, 0, 0);
    PeakIs(e, 1, 1);
    PeakIs(e, 1, 2);
    FallOf(e[0], e[0]);
    FallOf(e[1], e[1]);
    FallOf(e[0], e[2]);
    FallOf(e[1], e[2]);
    WholeRatio(e[0]);
    WholeRatio(e[1]);
    DebtRatio(e[0], e[1], e[2]);
    MaxAtMost(Drawdowns(e), Fall(e[1], e[2]));
  }

  lemma DrawdownAt(e: seq<real>, i: nat)
    requires i < |e|
    ensures |Drawdowns(e)| == |e| && Drawdowns(e)[i] == Fall(RunningPeak(e)[i], e[i])
  {
    hide RunningPeak, Fall;
  }

  lemma MaxAtMost(xs: seq<real>, bound: real)
    requires xs != [] && forall i :: 0 <= i < |xs| ==> xs[i] <= bound
    ensures MaxOf(xs) <= bound
  {
    hide MaxOf;
    assert MaxOf(xs) in xs;
  }

  lemma WholeRatio(x: real)
    requires x > 0.0
    ensures Ratio(x, x) == 1.0
  {}

  lemma DebtRatio(a: real, b: real, value: real)
    requires 0.0 < a < b && value < 0.0
    ensures Ratio(value, a) < Ratio(value, b) < 0.0
  {
    RatioTimes(value, a);
    RatioTimes(value, b);
    hide Ratio;
    var x, y := Ratio(value, a), Ratio(value, b);
    if y >= 0.0 {
      ProductNonNegative(y, b);
    }
    if x >= y && y < 0.0 {
      ProductNonNegative(x - y, a);
      ProductPositive(-y, b - a);
    }
  }

  // ---- Returns -----------------------------------------------------------

  function ReturnOf(prev: real, next: real): real { if prev != 0.0 then Ratio(next - prev, prev) else 0.0 }

  function ToReturns(e: seq<real>): (r: seq<real>)
    ensures |r| == if |e| < 2 then 0 else |e| - 1
  {
    if |e| < 2 then [] else seq(|e| - 1, i requires 0 <= i < |e| - 1 => ReturnOf(e[i], e[i + 1]))
  }

  function TotalReturn(e: seq<real>): real {
    if |e| < 2 || e[0] == 0.0 then 0.0 else Ratio(e[|e| - 1], e[0]) - 1.0
  }

  /** Product of 1 + r. */
  function Growth(r: seq<real>): real { if r == [] then 1.0 else Growth(r[..|r| - 1]) * (1.0 + r[|r| - 1]) }

  lemma GrowthSnoc(r: seq<real>, x: real)
    ensures Growth(r + [x]) == Growth(r) * (1.0 + x)
  {
    assert (r + [x])[..|r|] == r;
  }

  lemma ReturnsSnoc(e: seq<real>, x: real)
    requires |e| >= 2
    ensures ToReturns(e + [x]) == ToReturns(e) + [ReturnOf(e[|e| - 1], x)]
  {
    hide ReturnOf;
    var all, r := ToReturns(e + [x]), ToReturns(e) + [ReturnOf(e[|e| - 1], x)];
    assert |all| == |e| == |r|;
    forall i | 0 <= i < |e| ensures all[i] == r[i] {
      assert (e + [x])[i] == e[i];
    }
  }

  lemma ReturnOne(prev: real, next: real)
    requires prev != 0.0
    ensures (1.0 + ReturnOf(prev, next)) * prev == next
  {
    assert ReturnOf(prev, next) == Ratio(next - prev, prev);
    RatioTimes(next - prev, prev);
    hide Ratio;
    var x := Ratio(next - prev, prev);
    assert (1.0 + x) * prev == prev + x * prev;
  }

  ghost predicate NonZeroBeforeLast(e: seq<real>) { forall k :: 0 <= k < |e| - 1 ==> e[k] != 0.0 }

  lemma GrowthOfTwo(a: real, b: real)
    requires a != 0.0
    ensures Growth(ToReturns([a, b])) * a == b
  {
    assert ToReturns([a, b]) == [] + [ReturnOf(a, b)];
    GrowthSnoc([], ReturnOf(a, b));
    ReturnOne(a, b);
  }

  lemma ZeroFactor(x: real, y: real)
    requires x * y == 0.0 && y != 0.0
    ensures x == 0.0
  {}

  /** Compounding reaches the last value, unless it met a zero on the way: then it stays at zero. */
  lemma {:induction false} GrowthToLast(e: seq<real>)
    requires |e| >= 2 && e[0] != 0.0
    ensures if NonZeroBeforeLast(e) then Growth(ToReturns(e)) * e[0] == e[|e| - 1] else Growth(ToReturns(e)) == 0.0
  {
    hide Growth, ToReturns, Ratio, NonZeroBeforeLast;
    var n := |e| - 1;
    var front := e[..n];
    assert e == front + [e[n]];
    if n == 1 {
      assert e == [e[0], e[1]];
      GrowthOfTwo(e[0], e[1]);
      NonZeroSnoc(front, e[n]);
      SingleNonZero(front);
    } else {
      GrowthToLast(front);
      NonZeroSnoc(front, e[n]);
      GrowthStep(front, e[n]);
    }
  }

  lemma SingleNonZero(e: seq<real>)
    requires |e| == 1
    ensures NonZeroBeforeLast(e)
  {}

  lemma NonZeroSnoc(e: seq<real>, x: real)
    requires e != []
    ensures NonZeroBeforeLast(e + [x]) <==> (NonZeroBeforeLast(e) && e[|e| - 1] != 0.0)
  {
    var all := e + [x];
    assert forall k :: 0 <= k < |e| ==> all[k] == e[k];
    if NonZeroBeforeLast(all) {
      assert all[|e| - 1] != 0.0;
    }
  }

  lemma GrowthStep(front: seq<real>, x: real)
    requires |front| >= 2 && front[0] != 0.0
    ensures var g, prev := Growth(ToReturns(front)), front[|front| - 1]; var g' := Growth(ToReturns(front + [x]));
      && (prev != 0.0 && g * front[0] == prev ==> g' * front[0] == x)
      && (g == 0.0 || (prev == 0.0 && g * front[0] == prev) ==> g' == 0.0)
  {
    hide Growth, ToReturns, Ratio;
    var g, prev := Growth(ToReturns(front)), front[|front| - 1];
    var last := ReturnOf(prev, x);
    ReturnsSnoc(front, x);
    GrowthSnoc(ToReturns(front), last);
    if prev != 0.0 {
      ReturnOne(prev, x);
      assert (g * (1.0 + last)) * front[0] == (g * front[0]) * (1.0 + last);
    } else if g * front[0] == prev {
      ZeroFactor(g, front[0]);
    }
  }

  /** Equity from its first non-zero point on. */
  function FromFirstNonZero(e: seq<real>): (s: seq<real>)
    ensures s == [] || s[0] != 0.0
  {
    if e == [] || e[0] != 0.0 then e else FromFirstNonZero(e[1..])
  }

  /** The curves on which compounded returns and total return agree. A curve
      that starts at zero has total return zero, so it must come back to its
      first non-zero value. */
  ghost predicate Compounds(e: seq<real>) {
    if |e| < 2 then true
    else if e[0] != 0.0 then NonZeroBeforeLast(e) || e[|e| - 1] == 0.0
    else
      var s := FromFirstNonZero(e);
      s == [] || (NonZeroBeforeLast(s) && s[|s| - 1] == s[0])
  }

  /** Compounding the returns gives the total return exactly when the equity
      never passed through zero before its last point, or ended at zero; from a
      start at zero, exactly when it did not move or returned to where it rose. */
  lemma ReturnsCompound(e: seq<real>)
    ensures 1.0 + TotalReturn(e) == Growth(ToReturns(e)) <==> Compounds(e)
  {
    hide Growth, ToReturns, NonZeroBeforeLast, TotalReturn, Ratio, FromFirstNonZero;
    if |e| < 2 {
      NoReturns(e);
    } else if e[0] != 0.0 {
      NonZeroStart(e);
    } else {
      GrowthFromFirstNonZero(e);
      var s := FromFirstNonZero(e);
      ZeroStart(e);
      if |s| < 2 {
        NoReturns(s);
        NonZeroIfShort(s);
      } else {
        GrowthToLast(s);
        if NonZeroBeforeLast(s) {
          UnitFactor(Growth(ToReturns(s)), s[0], s[|s| - 1]);
        }
      }
    }
  }

  lemma NonZeroIfShort(e: seq<real>)
    requires |e| < 2
    ensures NonZeroBeforeLast(e)
  {}

  lemma UnitFactor(g: real, x: real, y: real)
    requires x != 0.0 && g * x == y
    ensures g == 1.0 <==> x == y
  {
    if x == y {
      Cancel(g, 1.0, x);
    }
  }

  lemma NoReturns(e: seq<real>)
    requires |e| < 2
    ensures Growth(ToReturns(e)) == 1.0 && TotalReturn(e) == 0.0
  {}

  lemma ZeroStart(e: seq<real>)
    requires |e| >= 2 && e[0] == 0.0
    ensures TotalReturn(e) == 0.0
  {}

  /** A leading zero contributes no return. */
  lemma {:induction false} GrowthFromFirstNonZero(e: seq<real>)
    ensures Growth(ToReturns(e)) == Growth(ToReturns(FromFirstNonZero(e)))
  {
    if e != [] && e[0] == 0.0 {
      hide Growth, ToReturns, ReturnOf;
      if |e| < 2 {
        NoReturns(e);
        NoReturns(e[1..]);
      } else {
        ReturnsCons(e);
        FlatFirst(e);
        GrowthCons(ReturnOf(e[0], e[1]), ToReturns(e[1..]));
      }
      GrowthFromFirstNonZero(e[1..]);
    }
  }

  lemma FlatFirst(e: seq<real>)
    requires |e| >= 2 && e[0] == 0.0
    ensures ReturnOf(e[0], e[1]) == 0.0
  {}

  lemma ReturnsCons(e: seq<real>)
    requires |e| >= 2
    ensures ToReturns(e) == [ReturnOf(e[0], e[1])] + ToReturns(e[1..])
  {
    hide ReturnOf;
    var all, r := ToReturns(e), [ReturnOf(e[0], e[1])] + ToReturns(e[1..]);
    assert |all| == |e| - 1 == |r|;
    forall i | 0 <= i < |e| - 1 ensures all[i] == r[i] {
      if i > 0 {
        assert e[1..][i - 1] == e[i] && e[1..][i] == e[i + 1];
      }
    }
  }

  lemma {:induction false} GrowthCons(x: real, r: seq<real>)
    ensures Growth([x] + r) == (1.0 + x) * Growth(r)
  {
    if r == [] {
      assert [x] + r == [] + [x];
      GrowthSnoc([], x);
    } else {
      var front, last := r[..|r| - 1], r[|r| - 1];
      assert [x] + r == ([x] + front) + [last];
      GrowthSnoc([x] + front, last);
      GrowthCons(x, front);
      assert ((1.0 + x) * Growth(front)) * (1.0 + last) == (1.0 + x) * (Growth(front) * (1.0 + last));
    }
  }

  lemma NonZeroStart(e: seq<real>)
    requires |e| >= 2 && e[0] != 0.0
    ensures 1.0 + TotalReturn(e) == Growth(ToReturns(e)) <==> (NonZeroBeforeLast(e) || e[|e| - 1] == 0.0)
  {
    hide Growth, ToReturns, NonZeroBeforeLast, TotalReturn, Ratio;
    GrowthToLast(e);
    TotalOf(e);
    var x, g, last := Ratio(e[|e| - 1], e[0]), Growth(ToReturns(e)), e[|e| - 1];
    RatioTimes(last, e[0]);
    if NonZeroBeforeLast(e) {
      Cancel(x, g, e[0]);
    } else if last == 0.0 {
      ZeroFactor(x, e[0]);
    }
  }

  lemma TotalOf(e: seq<real>)
    requires |e| >= 2 && e[0] != 0.0
    ensures 1.0 + TotalReturn(e) == Ratio(e[|e| - 1], e[0])
  {
    hide Ratio;
  }
}
