/** Broker positions as the runtime sees them: a list of rows, one per ticker. */
module Portfolio {
  import opened Money

  /** One row of /api/positions. `lots` is signed. `brokerLot` and `brokerPrice`
      are the optional lot_size and last_price fields; 0 means absent. */
  datatype Position = Position(secid: string, lots: int, avgPrice: real, brokerLot: nat, brokerPrice: real)

  function NewRow(secid: string, lots: int, avgPrice: real): Position {
    Position(secid, lots, avgPrice, 0, 0.0)
  }

  function LotSizeFor(secid: string, lotSizes: map<string, int>): (lot: int)
    ensures lot >= 1
  {
    MaxInt(if secid in lotSizes then lotSizes[secid] else 1, 1)
  }

  /** Index of the first row of `secid`, or -1. */
  function IndexOf(ps: seq<Position>, secid: string): (i: int)
    ensures -1 <= i < |ps|
    ensures i >= 0 ==> ps[i].secid == secid
    ensures forall k :: 0 <= k < |ps| && (i < 0 || k < i) ==> ps[k].secid != secid
  {
    if ps == [] then -1
    else if ps[0].secid == secid then 0
    else
      var i := IndexOf(ps[1..], secid);
      assert forall k :: 1 <= k < |ps| ==> ps[k] == ps[1..][k - 1];
      if i < 0 then -1 else i + 1
  }

  function PositionFor(ps: seq<Position>, secid: string): int {
    var i := IndexOf(ps, secid);
    if i < 0 then 0 else ps[i].lots
  }

  function AvgPriceFor(ps: seq<Position>, secid: string): real {
    var i := IndexOf(ps, secid);
    if i < 0 then 0.0 else ps[i].avgPrice
  }

  ghost predicate UniqueSecids(ps: seq<Position>) {
    forall i, j :: 0 <= i < j < |ps| ==> ps[i].secid != ps[j].secid
  }

  /** Rows are unique and a lot size sent by the broker is the one in the table. */
  ghost predicate WellFormed(ps: seq<Position>, lotSizes: map<string, int>) {
    && UniqueSecids(ps)
    && forall p :: p in ps ==> RowLotAgrees(p, lotSizes)
  }

  ghost predicate RowLotAgrees(p: Position, lotSizes: map<string, int>) {
    p.brokerLot == 0 || p.brokerLot == LotSizeFor(p.secid, lotSizes)
  }

  /** The first row of a ticker decides its lookup. */
  lemma FirstIs(ps: seq<Position>, k: int, secid: string)
    requires 0 <= k < |ps| && ps[k].secid == secid && forall m :: 0 <= m < k ==> ps[m].secid != secid
    ensures IndexOf(ps, secid) == k
  {}

  /** The lookup is determined by any row that carries the ticker. */
  lemma LookupRow(ps: seq<Position>, i: int)
    requires UniqueSecids(ps) && 0 <= i < |ps|
    ensures PositionFor(ps, ps[i].secid) == ps[i].lots
    ensures AvgPriceFor(ps, ps[i].secid) == ps[i].avgPrice
  {
    FirstIs(ps, i, ps[i].secid);
  }

  // ---- Sums over rows ----------------------------------------------------

  function Total(ps: seq<Position>, f: Position -> real): real {
    if ps == [] then 0.0 else Total(ps[..|ps| - 1], f) + f(ps[|ps| - 1])
  }

  lemma TotalSnoc(ps: seq<Position>, p: Position, f: Position -> real)
    ensures Total(ps + [p], f) == Total(ps, f) + f(p)
  {
    assert (ps + [p])[..|ps + [p]| - 1] == ps;
  }

  lemma {:induction false} TotalAppend(a: seq<Position>, b: seq<Position>, f: Position -> real)
    ensures Total(a + b, f) == Total(a, f) + Total(b, f)
  {
    if b == [] {
      assert a + b == a;
    } else {
      var b' := b[..|b| - 1];
      assert a + b == (a + b') + [b[|b| - 1]];
      TotalAppend(a, b', f);
      TotalSnoc(a + b', b[|b| - 1], f);
    }
  }

  lemma TotalSplit(ps: seq<Position>, i: int, f: Position -> real)
    requires 0 <= i < |ps|
    ensures Total(ps, f) == Total(ps[..i], f) + f(ps[i]) + Total(ps[i + 1..], f)
  {
    assert ps == (ps[..i] + [ps[i]]) + ps[i + 1..];
    TotalAppend(ps[..i] + [ps[i]], ps[i + 1..], f);
    TotalSnoc(ps[..i], ps[i], f);
  }

  lemma TotalUpdate(ps: seq<Position>, i: int, p: Position, f: Position -> real)
    requires 0 <= i < |ps|
    ensures Total(ps[i := p], f) == Total(ps, f) - f(ps[i]) + f(p)
  {
    TotalSplit(ps, i, f);
    TotalSplit(ps[i := p], i, f);
    assert ps[i := p][..i] == ps[..i] && ps[i := p][i + 1..] == ps[i + 1..];
  }

  lemma TotalRemove(ps: seq<Position>, i: int, f: Position -> real)
    requires 0 <= i < |ps|
    ensures Total(ps[..i] + ps[i + 1..], f) == Total(ps, f) - f(ps[i])
  {
    TotalSplit(ps, i, f);
    TotalAppend(ps[..i], ps[i + 1..], f);
  }

  lemma {:induction false} TotalSame(ps: seq<Position>, f: Position -> real, g: Position -> real)
    requires forall p :: p in ps ==> f(p) == g(p)
    ensures Total(ps, f) == Total(ps, g)
  {
    if ps != [] {
      TotalSame(ps[..|ps| - 1], f, g);
    }
  }

  lemma {:induction false} TotalNonNegative(ps: seq<Position>, f: Position -> real)
    requires forall p :: p in ps ==> f(p) >= 0.0
    ensures Total(ps, f) >= 0.0
  {
    if ps != [] {
      TotalNonNegative(ps[..|ps| - 1], f);
    }
  }

  /** f = g + k*h row by row, hence in total. */
  lemma {:induction false} TotalLinear(ps: seq<Position>, f: Position -> real, g: Position -> real,
                                       h: Position -> real, k: real)
    requires forall p :: p in ps ==> f(p) == g(p) + k * h(p)
    ensures Total(ps, f) == Total(ps, g) + k * Total(ps, h)
  {
    if ps != [] {
      var ps' := ps[..|ps| - 1];
      TotalLinear(ps', f, g, h, k);
      var p := ps[|ps| - 1];
      assert k * (Total(ps', h) + h(p)) == k * Total(ps', h) + k * h(p);
    }
  }
}
