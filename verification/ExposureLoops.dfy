/** The accumulating loops of the Risk Officer, against the sums the gates use. */
module ExposureLoops {
  import opened Money
  import opened Portfolio
  import opened Risk
  import Accounting

  function Entry(sums: map<string, real>, sector: string): real { if sector in sums then sums[sector] else 0.0 }

  /** sector_weights: one pass over the positions, a running sum per sector. */
  method SectorWeights(c: Context, symbol: string) returns (sums: map<string, real>)
    ensures forall sector :: Entry(sums, sector) == SectorLoad(c, symbol, sector)
  {
    sums := map[];
    if c.nav <= 0.0 {
      return;
    }
    var ps := c.positions;
    for i := 0 to |ps|
      invariant forall sector :: Entry(sums, sector) == Total(ps[..i], SectorTerm(c, symbol, sector))
    {
      hide LotSizeFor, Notional, Share;
      ghost var before := sums;
      var p := ps[i];
      if p.lots != 0 {
        var sector := SectorOf(p.secid, c.sectors);
        sums := sums[sector := Entry(sums, sector) + RowWeight(p, c.nav, symbol, c.lastPrice, c.lotSizes)];
      }
      forall sector ensures Entry(sums, sector) == Total(ps[..i + 1], SectorTerm(c, symbol, sector)) {
        assert ps[..i + 1] == ps[..i] + [p];
        TotalSnoc(ps[..i], p, SectorTerm(c, symbol, sector));
        assert Entry(before, sector) == Total(ps[..i], SectorTerm(c, symbol, sector));
      }
    }
    assert ps[..|ps|] == ps;
  }

  // ---- The loads in roubles ----------------------------------------------

  /** What the open rows of a sector are worth, the traded ticker at its last
      price when there is one, every other at its average entry. */
  function SectorValue(ps: seq<Position>, c: Context, symbol: string, sector: string): real {
    if ps == [] then 0.0
    else
      var p := ps[|ps| - 1];
      var price := if p.secid == symbol && c.lastPrice != 0.0 then c.lastPrice else p.avgPrice;
      SectorValue(ps[..|ps| - 1], c, symbol, sector)
      + if (if p.secid in c.sectors then c.sectors[p.secid] else "OTHER") == sector
        then Notional(Abs(p.lots), LotSizeFor(p.secid, c.lotSizes), price) else 0.0
  }

  function Scaled(share: real, nav: real): real { share * nav }

  lemma ScaledAdds(x: real, y: real, nav: real)
    ensures Scaled(x + y, nav) == Scaled(x, nav) + Scaled(y, nav)
  {}

  lemma {:induction false} TermsTimesNav(ps: seq<Position>, c: Context, symbol: string, sector: string)
    requires c.nav > 0.0
    ensures Scaled(Total(ps, SectorTerm(c, symbol, sector)), c.nav) == SectorValue(ps, c, symbol, sector)
  {
    if ps != [] {
      var front, p := ps[..|ps| - 1], ps[|ps| - 1];
      TermsTimesNav(front, c, symbol, sector);
      TermTimesNav(p, c, symbol, sector);
      hide SectorTerm, Notional, LotSizeFor, Scaled;
      ScaledAdds(Total(front, SectorTerm(c, symbol, sector)), SectorTerm(c, symbol, sector)(p), c.nav);
    }
  }

  lemma TermTimesNav(p: Position, c: Context, symbol: string, sector: string)
    requires c.nav > 0.0
    ensures var price := if p.secid == symbol && c.lastPrice != 0.0 then c.lastPrice else p.avgPrice;
      Scaled(SectorTerm(c, symbol, sector)(p), c.nav)
      == if (if p.secid in c.sectors then c.sectors[p.secid] else "OTHER") == sector
         then Notional(Abs(p.lots), LotSizeFor(p.secid, c.lotSizes), price) else 0.0
  {
    var price := if p.secid == symbol && c.lastPrice != 0.0 then c.lastPrice else p.avgPrice;
    var n := Notional(Abs(p.lots), LotSizeFor(p.secid, c.lotSizes), price);
    QuotientTimes(n, c.nav);
    Accounting.ZeroLots(LotSizeFor(p.secid, c.lotSizes), price);
    hide Notional, LotSizeFor;
  }

  /** A sector's load is the value of its rows as a share of the NAV, and nothing without one. */
  lemma SectorLoadIsValue(c: Context, symbol: string, sector: string)
    ensures c.nav > 0.0 ==> SectorLoad(c, symbol, sector) * c.nav == SectorValue(c.positions, c, symbol, sector)
    ensures c.nav <= 0.0 ==> SectorLoad(c, symbol, sector) == 0.0
  {
    if c.nav > 0.0 {
      TermsTimesNav(c.positions, c, symbol, sector);
    }
    hide SectorTerm, Total, SectorValue;
  }

  /** Value of every other open row at its entry, times its volatility. */
  function RiskValue(ps: seq<Position>, c: Context, symbol: string): real {
    if ps == [] then 0.0
    else
      var p := ps[|ps| - 1];
      RiskValue(ps[..|ps| - 1], c, symbol)
      + if p.secid == symbol then 0.0
        else AbsReal(Notional(Abs(p.lots), LotSizeFor(p.secid, c.lotSizes), p.avgPrice))
             * (if p.secid in c.sigmaBySymbol then c.sigmaBySymbol[p.secid] else 0.0)
  }

  lemma SigmaTermTimesNav(p: Position, c: Context, symbol: string)
    requires c.nav > 0.0
    ensures Scaled(SigmaTerm(c, symbol)(p), c.nav)
         == if p.secid == symbol then 0.0
            else AbsReal(Notional(Abs(p.lots), LotSizeFor(p.secid, c.lotSizes), p.avgPrice))
                 * (if p.secid in c.sigmaBySymbol then c.sigmaBySymbol[p.secid] else 0.0)
  {
    var n := Notional(Abs(p.lots), LotSizeFor(p.secid, c.lotSizes), p.avgPrice);
    Accounting.ZeroLots(LotSizeFor(p.secid, c.lotSizes), p.avgPrice);
    AbsShareTimes(n, c.nav);
    hide Notional, LotSizeFor, Share, AbsReal;
    var w, sigma := AbsReal(Share(n, c.nav)), SigmaOf(p.secid, c.sigmaBySymbol);
    assert (w * sigma) * c.nav == (w * c.nav) * sigma;
  }

  lemma AbsShareTimes(n: real, nav: real)
    requires nav > 0.0
    ensures AbsReal(Share(n, nav)) * nav == AbsReal(n) && AbsReal(0.0) == 0.0
  {
    QuotientTimes(n, nav);
    var w := Share(n, nav);
    hide Share;
    if w < 0.0 {
      ProductPositive(-w, nav);
    } else {
      ProductNonNegative(w, nav);
    }
  }

  lemma {:induction false} RiskTimesNav(ps: seq<Position>, c: Context, symbol: string)
    requires c.nav > 0.0
    ensures Scaled(Total(ps, SigmaTerm(c, symbol)), c.nav) == RiskValue(ps, c, symbol)
  {
    if ps != [] {
      var front, p := ps[..|ps| - 1], ps[|ps| - 1];
      RiskTimesNav(front, c, symbol);
      SigmaTermTimesNav(p, c, symbol);
      hide SigmaTerm, Notional, LotSizeFor, AbsReal, Scaled;
      ScaledAdds(Total(front, SigmaTerm(c, symbol)), SigmaTerm(c, symbol)(p), c.nav);
    }
  }

  /** The VaR that is compared: 1.645 times the risk value of the other rows and
      of the projected weight, whose volatility counts from two returns on. */
  lemma VarInRoubles(c: Context, symbol: string, weight: real)
    ensures var own := weight * (if c.returnsCount >= 2 then c.sigma else 0.0);
      && (c.nav > 0.0 && weight >= 0.0 ==>
            VarPct(c, symbol, weight) * c.nav == 1.645 * (RiskValue(c.positions, c, symbol) + own * c.nav))
      && (c.nav <= 0.0 && weight >= 0.0 ==> VarPct(c, symbol, weight) == 1.645 * own)
  {
    hide SigmaTerm, Total, RiskValue;
    if c.nav > 0.0 {
      RiskTimesNav(c.positions, c, symbol);
    }
    VarOf(OthersSigma(c, symbol), weight, TickerSigma(c), c.nav);
  }

  lemma VarOf(others: real, weight: real, sigma: real, nav: real)
    ensures weight >= 0.0 ==> AbsReal(weight) * sigma == weight * sigma
    ensures (1.645 * (others + weight * sigma)) * nav == 1.645 * (Scaled(others, nav) + (weight * sigma) * nav)
  {
    var own := weight * sigma;
    assert (others + own) * nav == others * nav + own * nav;
  }

  /** portfolio_sigma over an insertion-ordered weight table. */
  function PortfolioSigma(weights: seq<(string, real)>, sigmas: map<string, real>): real {
    if weights == [] then 0.0
    else
      var last := weights[|weights| - 1];
      PortfolioSigma(weights[..|weights| - 1], sigmas) + Contribution(last, sigmas)
  }

  function Contribution(w: (string, real), sigmas: map<string, real>): real { AbsReal(w.1) * SigmaOf(w.0, sigmas) }

  lemma PortfolioSigmaSnoc(weights: seq<(string, real)>, w: (string, real), sigmas: map<string, real>)
    ensures PortfolioSigma(weights + [w], sigmas)
       == PortfolioSigma(weights, sigmas) + Contribution(w, sigmas)
  {
    assert (weights + [w])[..|weights|] == weights;
  }

  function OtherWeights(ps: seq<Position>, c: Context, symbol: string): seq<(string, real)>
    requires c.nav > 0.0
  {
    if ps == [] then []
    else
      var p := ps[|ps| - 1];
      OtherWeights(ps[..|ps| - 1], c, symbol)
      + if p.lots == 0 || p.secid == symbol then []
        else [(p.secid, Share(Notional(Abs(p.lots), LotSizeFor(p.secid, c.lotSizes), p.avgPrice), c.nav))]
  }

  ghost predicate Names(ps: seq<Position>, secid: string) { exists m :: 0 <= m < |ps| && ps[m].secid == secid }

  lemma {:induction false} OtherWeightsAreATable(ps: seq<Position>, c: Context, symbol: string)
    requires c.nav > 0.0 && UniqueSecids(ps)
    ensures forall k :: 0 <= k < |OtherWeights(ps, c, symbol)| ==>
      OtherWeights(ps, c, symbol)[k].0 != symbol && Names(ps, OtherWeights(ps, c, symbol)[k].0)
    ensures forall k, m :: 0 <= k < m < |OtherWeights(ps, c, symbol)| ==>
      OtherWeights(ps, c, symbol)[k].0 != OtherWeights(ps, c, symbol)[m].0
  {
    if ps != [] {
      hide LotSizeFor, Notional, Share;
      var n := |ps| - 1;
      var front, p := ps[..n], ps[n];
      OtherWeightsAreATable(front, c, symbol);
      var ws, all := OtherWeights(front, c, symbol), OtherWeights(ps, c, symbol);
      assert all == ws || (p.secid != symbol && |all| == |ws| + 1 && all[..|ws|] == ws && all[|ws|].0 == p.secid);
      assert Names(ps, p.secid);
      forall k | 0 <= k < |ws| ensures ws[k].0 != p.secid && Names(ps, ws[k].0) && all[k] == ws[k] {
        assert Names(front, ws[k].0);
        var m :| 0 <= m < |front| && front[m].secid == ws[k].0;
        assert ps[m] == front[m];
      }
    }
  }

  lemma OtherContribution(p: Position, c: Context, symbol: string, sigma: real)
    requires c.nav > 0.0
    ensures SigmaTerm(c, symbol)(p)
         == if p.lots == 0 || p.secid == symbol then 0.0
            else
              var weight := Share(Notional(Abs(p.lots), LotSizeFor(p.secid, c.lotSizes), p.avgPrice), c.nav);
              Contribution((p.secid, weight), c.sigmaBySymbol[symbol := sigma])
  {
    hide LotSizeFor, Notional, Share, AbsReal;
  }

  lemma {:induction false} OtherWeightsSigma(ps: seq<Position>, c: Context, symbol: string, sigma: real)
    requires c.nav > 0.0 && UniqueSecids(ps)
    ensures PortfolioSigma(OtherWeights(ps, c, symbol), c.sigmaBySymbol[symbol := sigma])
       == Total(ps, SigmaTerm(c, symbol))
  {
    if ps != [] {
      hide LotSizeFor, Notional, Share, PortfolioSigma, SigmaTerm, Contribution;
      var n := |ps| - 1;
      var p := ps[n];
      OtherWeightsSigma(ps[..n], c, symbol, sigma);
      OtherContribution(p, c, symbol, sigma);
      if p.lots == 0 || p.secid == symbol {
        assert OtherWeights(ps, c, symbol) == OtherWeights(ps[..n], c, symbol);
      } else {
        PortfolioSigmaSnoc(OtherWeights(ps[..n], c, symbol),
                           (p.secid, Share(Notional(Abs(p.lots), LotSizeFor(p.secid, c.lotSizes), p.avgPrice), c.nav)),
                           c.sigmaBySymbol[symbol := sigma]);
      }
    }
  }

  /** Projected weights: every other position at its average price, then the
      traded ticker. Unique tickers make the list a table; its sigma, scaled to
      the 95% quantile, is the VaR that the gate compares. */
  method ProjectedVar(c: Context, symbol: string, weight: real) returns (weights: seq<(string, real)>, varPct: real)
    requires UniqueSecids(c.positions)
    ensures weights == (if c.nav > 0.0 then OtherWeights(c.positions, c, symbol) else []) + [(symbol, weight)]
    ensures varPct == VarPct(c, symbol, weight)
  {
    hide LotSizeFor, Notional, Share, VarPct, PortfolioSigma;
    weights := [];
    var ps := c.positions;
    for i := 0 to |ps|
      invariant weights == if c.nav > 0.0 then OtherWeights(ps[..i], c, symbol) else []
    {
      var p := ps[i];
      assert ps[..i + 1][..i] == ps[..i];
      if !(p.lots == 0 || c.nav <= 0.0 || p.secid == symbol) {
        weights := weights + [(p.secid,
                               Share(Notional(Abs(p.lots), LotSizeFor(p.secid, c.lotSizes), p.avgPrice), c.nav))];
      }
    }
    assert ps[..|ps|] == ps;
    SigmaOfProjection(c, symbol, weight, weights);
    weights := weights + [(symbol, weight)];
    varPct := Z_95 * PortfolioSigma(weights, c.sigmaBySymbol[symbol := TickerSigma(c)]);
  }

  lemma SigmaOfProjection(c: Context, symbol: string, weight: real, others: seq<(string, real)>)
    requires UniqueSecids(c.positions)
    requires others == if c.nav > 0.0 then OtherWeights(c.positions, c, symbol) else []
    ensures Z_95 * PortfolioSigma(others + [(symbol, weight)], c.sigmaBySymbol[symbol := TickerSigma(c)])
       == VarPct(c, symbol, weight)
  {
    hide OtherWeights, Total, TickerSigma;
    PortfolioSigmaSnoc(others, (symbol, weight), c.sigmaBySymbol[symbol := TickerSigma(c)]);
    if c.nav > 0.0 {
      OtherWeightsSigma(c.positions, c, symbol, TickerSigma(c));
    }
  }
}
