/** Which tickers get an LLM call in a tick: held ones first, then the most liquid. */
module UniverseSelect {
  import opened Money
  import opened Portfolio

  // ---- secid.strip().upper(), ASCII --------------------------------------

  /** Space, tab to carriage return, and the ASCII separators. */
  predicate IsSpace(c: char) { c == ' ' || 9 <= c as int <= 13 || 28 <= c as int <= 31 }

  function StripLeft(s: string): string { if s != "" && IsSpace(s[0]) then StripLeft(s[1..]) else s }

  function StripRight(s: string): string { if s != "" && IsSpace(s[|s| - 1]) then StripRight(s[..|s| - 1]) else s }

  function Upper(s: string): string {
    seq(|s|, i requires 0 <= i < |s| => if 'a' <= s[i] <= 'z' then (s[i] as int - 32) as char else s[i])
  }

  function Normalized(s: string): string { Upper(StripRight(StripLeft(s))) }

  predicate Blank(s: string) {
    forall i :: 0 <= i < |s| ==> s[i] as int == 32 || 9 <= s[i] as int <= 13 || 28 <= s[i] as int <= 31
  }

  predicate Trimmed(s: string) { s == "" || (!Blank(s[..1]) && !Blank(s[|s| - 1..])) }

  /** Surrounding blanks are dropped and small letters become capitals, so that
      a row counts for its ticker however it is written. */
  lemma NormalizedExactly(left: string, core: string, right: string)
    requires Blank(left) && Trimmed(core) && Blank(right)
    ensures var u := Normalized(left + core + right);
      && |u| == |core|
      && forall i :: 0 <= i < |core| ==>
           u[i] == if 'a' <= core[i] <= 'z' then (core[i] as int - 'a' as int + 'A' as int) as char else core[i]
  {
    StripDrops(left, core, right);
    hide StripLeft, StripRight;
  }

  lemma StripDrops(left: string, core: string, right: string)
    requires Blank(left) && Trimmed(core) && Blank(right)
    ensures StripRight(StripLeft(left + core + right)) == core
  {
    hide IsSpace;
    StripLeftDrops(left, core + right);
    assert left + core + right == left + (core + right);
    if core == "" {
      StripLeftDrops(right, "");
      assert core + right == right == right + "";
    } else {
      NoSpaceAtEnds(core);
      assert (core + right)[0] == core[0];
      StripRightDrops(core, right);
    }
  }

  lemma NoSpaceAtEnds(core: string)
    requires core != "" && Trimmed(core)
    ensures !IsSpace(core[0]) && !IsSpace(core[|core| - 1])
  {
    assert core[..1] == [core[0]] && core[|core| - 1..] == [core[|core| - 1]];
  }

  lemma {:induction false} StripLeftDrops(left: string, rest: string)
    requires Blank(left)
    ensures StripLeft(left + rest) == StripLeft(rest)
  {
    if left == "" {
      assert left + rest == rest;
    } else {
      assert (left + rest)[1..] == left[1..] + rest;
      assert IsSpace(left[0]);
      StripLeftDrops(left[1..], rest);
    }
  }

  lemma {:induction false} StripRightDrops(rest: string, right: string)
    requires Blank(right)
    ensures StripRight(rest + right) == StripRight(rest)
  {
    if right == "" {
      assert rest + right == rest;
    } else {
      var n := |right| - 1;
      assert (rest + right)[..|rest| + n] == rest + right[..n];
      assert IsSpace(right[n]);
      StripRightDrops(rest, right[..n]);
    }
  }

  // ---- Selection as a function -------------------------------------------

  /** Universe tickers with an open position, in order of first appearance. */
  function Held(universe: seq<string>, ps: seq<Position>): seq<string> {
    if ps == [] then []
    else
      var before := Held(universe, ps[..|ps| - 1]);
      var p := ps[|ps| - 1];
      var secid := Normalized(p.secid);
      if secid != "" && secid !in before && p.lots != 0 && secid in universe then before + [secid] else before
  }

  function Without<T(==)>(xs: seq<T>, excluded: set<T>): seq<T> {
    if xs == [] then []
    else Without(xs[..|xs| - 1], excluded) + (if xs[|xs| - 1] in excluded then [] else [xs[|xs| - 1]])
  }

  function Elements<T(==)>(xs: seq<T>): set<T> { set x | x in xs }

  function Score<T(==)>(scores: map<T, real>, t: T): real { if t in scores then scores[t] else 0.0 }

  /** Insert behind everything that scores at least as high. */
  function Insert<T(==)>(sorted: seq<T>, t: T, scores: map<T, real>): seq<T> {
    if sorted == [] then [t]
    else
      var n := |sorted| - 1;
      if Score(scores, sorted[n]) >= Score(scores, t) then sorted + [t]
      else Insert(sorted[..n], t, scores) + [sorted[n]]
  }

  /** Stable sort, highest score first. */
  function ByLiquidity<T(==)>(xs: seq<T>, scores: map<T, real>): seq<T> {
    if xs == [] then [] else Insert(ByLiquidity(xs[..|xs| - 1], scores), xs[|xs| - 1], scores)
  }

  function Eligible(universe: seq<string>, held: seq<string>, alerts: set<string>): seq<string> {
    Without(Without(universe, Elements(held)), alerts)
  }

  function Ordered(rest: seq<string>, scores: map<string, real>, shuffle: seq<string> -> seq<string>): seq<string> {
    if scores != map[] then ByLiquidity(rest, scores) else shuffle(rest)
  }

  function FirstFew<T>(xs: seq<T>, n: nat): seq<T> { if n >= |xs| then xs else xs[..n] }

  function Selection(universe: seq<string>, ps: seq<Position>, cap: int, scores: map<string, real>, alerts: set<string>,
                     shuffle: seq<string> -> seq<string>): seq<string>
  {
    if cap <= 0 || cap >= |universe| then universe
    else
      var held := Held(universe, ps);
      held + FirstFew(Ordered(Eligible(universe, held, alerts), scores, shuffle), MaxInt(cap - |held|, 0))
  }

  /** The loops of the source: grow held and seen, filter twice, sort or shuffle. */
  method SelectLlmTickers(universe: seq<string>, ps: seq<Position>, cap: int, scores: map<string, real>,
                          alerts: set<string>,
                          shuffle: seq<string> -> seq<string>)
    returns (selected: seq<string>)
    ensures selected == Selection(universe, ps, cap, scores, alerts, shuffle)
  {
    if cap <= 0 || cap >= |universe| {
      return universe;
    }
    var held: seq<string> := [];
    var seen: set<string> := {};
    for i := 0 to |ps|
      invariant held == Held(universe, ps[..i]) && seen == Elements(held)
    {
      assert ps[..i + 1][..i] == ps[..i];
      var secid := Normalized(ps[i].secid);
      if secid != "" && secid !in seen && ps[i].lots != 0 && secid in universe {
        held := held + [secid];
        seen := seen + {secid};
      }
    }
    assert ps[..|ps|] == ps;
    var rest := Filter(universe, seen);
    rest := Filter(rest, alerts);
    if scores != map[] {
      rest := Sort(rest, scores);
    } else {
      rest := shuffle(rest);
    }
    return held + FirstFew(rest, MaxInt(cap - |held|, 0));
  }

  method Filter<T(==)>(xs: seq<T>, excluded: set<T>) returns (kept: seq<T>)
    ensures kept == Without(xs, excluded)
  {
    kept := [];
    for i := 0 to |xs|
      invariant kept == Without(xs[..i], excluded)
    {
      assert xs[..i + 1][..i] == xs[..i];
      if xs[i] !in excluded {
        kept := kept + [xs[i]];
      }
    }
    assert xs[..|xs|] == xs;
  }

  method Sort<T(==)>(xs: seq<T>, scores: map<T, real>) returns (sorted: seq<T>)
    ensures sorted == ByLiquidity(xs, scores)
  {
    sorted := [];
    for i := 0 to |xs|
      invariant sorted == ByLiquidity(xs[..i], scores)
    {
      assert xs[..i + 1][..i] == xs[..i];
      sorted := Insert(sorted, xs[i], scores);
    }
    assert xs[..|xs|] == xs;
  }

  // ---- What the selection guarantees -------------------------------------

  ghost predicate Distinct<T>(xs: seq<T>) { forall i, j :: 0 <= i < j < |xs| ==> xs[i] != xs[j] }

  ghost predicate Descending<T>(xs: seq<T>, scores: map<T, real>) {
    forall i, j :: 0 <= i < j < |xs| ==> Score(scores, xs[i]) >= Score(scores, xs[j])
  }

  lemma {:induction false} HeldFacts(universe: seq<string>, ps: seq<Position>)
    ensures Distinct(Held(universe, ps))
    ensures forall t :: t in Held(universe, ps) <==>
      (t != "" && t in universe && exists i :: 0 <= i < |ps| && ps[i].lots != 0 && Normalized(ps[i].secid) == t)
  {
    if ps != [] {
      var n := |ps| - 1;
      var front := ps[..n];
      HeldFacts(universe, front);
      hide Normalized;
      forall t
        ensures t in Held(universe, ps) <==>
          (t != "" && t in universe && exists i :: 0 <= i < |ps| && ps[i].lots != 0 && Normalized(ps[i].secid) == t)
      {
        if t in Held(universe, front) {
          var i :| 0 <= i < |front| && front[i].lots != 0 && Normalized(front[i].secid) == t;
          assert ps[i] == front[i];
        }
        if t != "" && t in universe && exists i :: 0 <= i < |ps| && ps[i].lots != 0 && Normalized(ps[i].secid) == t {
          var i :| 0 <= i < |ps| && ps[i].lots != 0 && Normalized(ps[i].secid) == t;
          if i < n {
            assert front[i] == ps[i];
          }
        }
      }
    }
  }

  lemma {:induction false} WithoutFacts<T>(xs: seq<T>, excluded: set<T>)
    ensures forall t :: t in Without(xs, excluded) <==> t in xs && t !in excluded
    ensures Distinct(xs) ==> Distinct(Without(xs, excluded))
  {
    if xs != [] {
      var n := |xs| - 1;
      WithoutFacts(xs[..n], excluded);
      assert xs == xs[..n] + [xs[n]];
      if Distinct(xs) {
        assert Distinct(xs[..n]);
        forall t | t in xs[..n] ensures t != xs[n] {
          var i :| 0 <= i < n && xs[..n][i] == t;
          assert xs[i] == t;
        }
      }
    }
  }

  lemma {:induction false} InsertAddsOne<T>(sorted: seq<T>, t: T, scores: map<T, real>)
    ensures multiset(Insert(sorted, t, scores)) == multiset(sorted) + multiset{t}
  {
    if sorted != [] {
      var n := |sorted| - 1;
      InsertAddsOne(sorted[..n], t, scores);
      assert sorted == sorted[..n] + [sorted[n]];
    }
  }

  lemma InsertedElements<T>(sorted: seq<T>, t: T, scores: map<T, real>, i: nat)
    requires i < |Insert(sorted, t, scores)|
    ensures Insert(sorted, t, scores)[i] == t
      || exists k :: 0 <= k < |sorted| && sorted[k] == Insert(sorted, t, scores)[i]
  {
    InsertAddsOne(sorted, t, scores);
    var x := Insert(sorted, t, scores)[i];
    assert x in multiset(Insert(sorted, t, scores));
    if x != t {
      assert x in multiset(sorted);
    }
  }

  lemma {:induction false} InsertKeepsOrder<T>(sorted: seq<T>, t: T, scores: map<T, real>)
    requires Descending(sorted, scores)
    ensures Descending(Insert(sorted, t, scores), scores)
  {
    if sorted != [] {
      var n := |sorted| - 1;
      var front, last := sorted[..n], sorted[n];
      if Score(scores, last) < Score(scores, t) {
        InsertKeepsOrder(front, t, scores);
        var rest := Insert(front, t, scores);
        forall i | 0 <= i < |rest| ensures Score(scores, rest[i]) >= Score(scores, last) {
          InsertedElements(front, t, scores, i);
          if rest[i] != t {
            var k :| 0 <= k < n && front[k] == rest[i];
            assert Score(scores, sorted[k]) >= Score(scores, sorted[n]);
          }
        }
      } else {
        forall i | 0 <= i < |sorted| ensures Score(scores, sorted[i]) >= Score(scores, t) {
          assert i == n || Score(scores, sorted[i]) >= Score(scores, sorted[n]);
        }
      }
    }
  }

  lemma {:induction false} SortFacts<T>(xs: seq<T>, scores: map<T, real>)
    ensures Descending(ByLiquidity(xs, scores), scores)
    ensures multiset(ByLiquidity(xs, scores)) == multiset(xs)
  {
    if xs != [] {
      var n := |xs| - 1;
      SortFacts(xs[..n], scores);
      InsertAddsOne(ByLiquidity(xs[..n], scores), xs[n], scores);
      InsertKeepsOrder(ByLiquidity(xs[..n], scores), xs[n], scores);
      assert xs == xs[..n] + [xs[n]];
    }
  }

  lemma PermutationFacts<T>(xs: seq<T>, ys: seq<T>)
    requires multiset(xs) == multiset(ys)
    ensures |xs| == |ys|
    ensures forall t :: t in xs <==> t in ys
    ensures Distinct(xs) ==> Distinct(ys)
  {
    assert |multiset(xs)| == |xs| && |multiset(ys)| == |ys|;
    forall t ensures t in xs <==> t in ys {
      assert t in xs <==> t in multiset(xs);
      assert t in ys <==> t in multiset(ys);
    }
    if Distinct(xs) {
      forall i, j | 0 <= i < j < |ys| ensures ys[i] != ys[j] {
        if ys[i] == ys[j] {
          CountTwice(ys, i, j);
          CountOnce(xs, ys[i]);
        }
      }
    }
  }

  lemma CountTwice<T>(ys: seq<T>, i: nat, j: nat)
    requires i < j < |ys| && ys[i] == ys[j]
    ensures multiset(ys)[ys[i]] >= 2
  {
    assert ys == ys[..j] + [ys[j]] + ys[j + 1..];
    assert ys[..j][i] == ys[i];
    assert ys[i] in multiset(ys[..j]);
  }

  lemma {:induction false} CountOnce<T>(xs: seq<T>, t: T)
    requires Distinct(xs)
    ensures multiset(xs)[t] <= 1
  {
    if xs != [] {
      var n := |xs| - 1;
      CountOnce(xs[..n], t);
      assert xs == xs[..n] + [xs[n]];
      if xs[n] == t {
        assert t !in xs[..n] by {
          forall i | 0 <= i < n ensures xs[..n][i] != t {}
        }
        assert t !in multiset(xs[..n]);
      }
    }
  }

  /** No cap, or one that the universe fits, selects the universe as it is. */
  lemma NoCapSelectsAll(universe: seq<string>, ps: seq<Position>, cap: int, scores: map<string, real>,
                        alerts: set<string>, shuffle: seq<string> -> seq<string>)
    requires cap <= 0 || cap >= |universe|
    ensures Selection(universe, ps, cap, scores, alerts, shuffle) == universe
  {}

  /** Under the cap: no duplicates, only universe tickers, all held ones first,
      no unheld alerted ones, exactly as many as fit, and nothing eligible left
      out that outranks an unheld ticker taken in. */
  lemma SelectionGuarantees(universe: seq<string>, ps: seq<Position>, cap: int, scores: map<string, real>,
                            alerts: set<string>,
                            shuffle: seq<string> -> seq<string>)
    requires Distinct(universe) && 0 < cap < |universe|
    requires forall xs: seq<string> :: multiset(shuffle(xs)) == multiset(xs)
    ensures var selected := Selection(universe, ps, cap, scores, alerts, shuffle); var held := Held(universe, ps);
      var rest := Eligible(universe, held, alerts);
      && Distinct(selected)
      && held <= selected
      && (forall t :: t in selected ==> t in universe && (t in held || t !in alerts))
      && |selected| == |held| + MinInt(MaxInt(cap - |held|, 0), |rest|)
      && (scores != map[] ==> forall t, u :: t in rest && t !in selected && u in selected && u !in held ==>
            Score(scores, u) >= Score(scores, t))
  {
    var held := Held(universe, ps);
    var rest := Eligible(universe, held, alerts);
    var ordered := Ordered(rest, scores, shuffle);
    var slots := MaxInt(cap - |held|, 0);
    hide Held, Without, ByLiquidity, FirstFew, Distinct;
    HeldFacts(universe, ps);
    EligibleFacts(universe, held, alerts);
    SortFacts(rest, scores);
    PermutationFacts(rest, ordered);
    FirstFewFacts(ordered, slots);
    var few := FirstFew(ordered, slots);
    AppendDistinct(held, few);
    if scores != map[] {
      forall t, u | t in rest && t !in few && u in few ensures Score(scores, u) >= Score(scores, t) {
        FirstFewRank(ordered, slots, scores, t, u);
      }
    }
  }

  /** With liquidity scores nothing eligible is left out that scores higher than
      an unheld ticker taken in; a ticker without a score counts as zero. */
  lemma MostLiquidFirst(universe: seq<string>, ps: seq<Position>, cap: int, scores: map<string, real>,
                        alerts: set<string>, shuffle: seq<string> -> seq<string>, t: string, u: string)
    requires Distinct(universe) && 0 < cap < |universe| && scores != map[]
    requires forall xs: seq<string> :: multiset(shuffle(xs)) == multiset(xs)
    requires t in universe && t !in alerts && u !in Held(universe, ps)
    requires var selected := Selection(universe, ps, cap, scores, alerts, shuffle); t !in selected && u in selected
    ensures (if u in scores then scores[u] else 0.0) >= (if t in scores then scores[t] else 0.0)
  {
    hide Selection, Held, Eligible;
    SelectionGuarantees(universe, ps, cap, scores, alerts, shuffle);
    EligibleFacts(universe, Held(universe, ps), alerts);
  }

  lemma EligibleFacts(universe: seq<string>, held: seq<string>, alerts: set<string>)
    ensures forall t :: t in Eligible(universe, held, alerts) <==> t in universe && t !in held && t !in alerts
    ensures Distinct(universe) ==> Distinct(Eligible(universe, held, alerts))
  {
    hide Without, Distinct;
    WithoutFacts(universe, Elements(held));
    WithoutFacts(Without(universe, Elements(held)), alerts);
  }

  lemma AppendDistinct<T>(xs: seq<T>, ys: seq<T>)
    requires Distinct(xs) && Distinct(ys) && forall t :: t in xs ==> t !in ys
    ensures Distinct(xs + ys)
  {
    var all := xs + ys;
    forall i, j | 0 <= i < j < |all| ensures all[i] != all[j] {
      if i < |xs| <= j {
        assert all[i] in xs && all[j] in ys;
      }
    }
  }

  lemma FirstFewRank<T>(xs: seq<T>, n: nat, scores: map<T, real>, t: T, u: T)
    requires Descending(xs, scores) && t in xs && t !in FirstFew(xs, n) && u in FirstFew(xs, n)
    ensures Score(scores, u) >= Score(scores, t)
  {
    var few := FirstFew(xs, n);
    var i :| 0 <= i < |few| && few[i] == u;
    var j :| 0 <= j < |xs| && xs[j] == t;
    FrontIsTaken(xs, n);
  }

  lemma FrontIsTaken<T>(xs: seq<T>, n: nat)
    ensures forall j :: 0 <= j < |FirstFew(xs, n)| ==> xs[j] in FirstFew(xs, n)
  {
    assert forall j :: 0 <= j < |FirstFew(xs, n)| ==> FirstFew(xs, n)[j] == xs[j];
  }

  lemma FirstFewFacts<T>(xs: seq<T>, n: nat)
    ensures FirstFew(xs, n) <= xs && |FirstFew(xs, n)| == MinInt(n, |xs|)
    ensures Distinct(xs) ==> Distinct(FirstFew(xs, n))
    ensures forall t :: t in FirstFew(xs, n) ==> t in xs
  {}

  // ---- Stability ---------------------------------------------------------

  /** The elements with one given score, in order. */
  function WithScore<T(==)>(xs: seq<T>, scores: map<T, real>, v: real): seq<T> {
    if xs == [] then []
    else WithScore(xs[..|xs| - 1], scores, v) + (if Score(scores, xs[|xs| - 1]) == v then [xs[|xs| - 1]] else [])
  }

  lemma {:induction false} InsertIsStable<T>(sorted: seq<T>, t: T, scores: map<T, real>, v: real)
    requires Descending(sorted, scores)
    ensures WithScore(Insert(sorted, t, scores), scores, v)
         == WithScore(sorted, scores, v) + (if Score(scores, t) == v then [t] else [])
  {
    if sorted == [] {
      assert [t][..0] == [];
    } else {
      var n := |sorted| - 1;
      if Score(scores, sorted[n]) >= Score(scores, t) {
        assert (sorted + [t])[..n + 1] == sorted;
      } else {
        InsertIsStable(sorted[..n], t, scores, v);
        var rest := Insert(sorted[..n], t, scores);
        assert (rest + [sorted[n]])[..|rest|] == rest;
      }
    }
  }

  /** Tickers of equal liquidity keep their universe order. */
  lemma {:induction false} SortIsStable<T>(xs: seq<T>, scores: map<T, real>, v: real)
    ensures WithScore(ByLiquidity(xs, scores), scores, v) == WithScore(xs, scores, v)
  {
    if xs != [] {
      var n := |xs| - 1;
      SortFacts(xs[..n], scores);
      SortIsStable(xs[..n], scores, v);
      InsertIsStable(ByLiquidity(xs[..n], scores), xs[n], scores, v);
    }
  }
}
