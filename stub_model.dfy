/** The deterministic stub engine (src/model_impl/stub_model.py): band midpoint,
    a capped sentiment tilt, clamping, a 70/30 residual split and linear KPIs. */
module StubModel {
  import opened Wrappers
  import opened Types
  import opened Rounding

  /** The market keys the stub reads; both are required (a missing one is a KeyError). */
  datatype Market = Market(sentimentLabel: string, sentimentConfidence: real)

  /** What `StubModel.recommend` returns; the seed is only echoed. */
  datatype Output = Output(allocation: Allocation, kpis: Kpis, seed: Option<int>, notes: string)

  /** The band midpoint the stub starts from. */
  function BaseEquity(band: Band): (b: real)
    ensures band.minEq <= band.maxEq ==> band.minEq <= b <= band.maxEq
    ensures b - band.minEq == band.maxEq - b
  {
    (band.minEq + band.maxEq) / 2.0
  }

  /** +1 for bullish, -1 for bearish, 0 for any other label. */
  function TiltSign(sentiment: string): (s: int)
    ensures -1 <= s <= 1
    ensures s == 1 <==> sentiment == "bullish"
    ensures s == -1 <==> sentiment == "bearish"
  {
    if sentiment == "bullish" then 1 else if sentiment == "bearish" then -1 else 0
  }

  /** sign * min(0.05, 0.05 * confidence): proportional to the confidence below 1,
      capped at 0.05 in magnitude from 1 on. */
  function Tilt(m: Market): (t: real)
    ensures m.sentimentConfidence < 1.0 ==> t == TiltSign(m.sentimentLabel) as real * 0.05 * m.sentimentConfidence
    ensures m.sentimentConfidence >= 1.0 ==> t == TiltSign(m.sentimentLabel) as real * 0.05
  {
    var mag := if 0.05 * m.sentimentConfidence < 0.05 then 0.05 * m.sentimentConfidence else 0.05;
    TiltSign(m.sentimentLabel) as real * mag
  }

  /** The allocation the stub hands to round_allocation: max(lo, min(hi, base + tilt))
      equities (with lo > hi the lower limit wins), then 70% / 30% of the rest. */
  function RawAllocation(band: Band, m: Market): (a: Allocation)
    ensures band.minEq <= band.maxEq ==> band.minEq <= a.equities <= band.maxEq
    ensures band.maxEq < band.minEq ==> a.equities == band.minEq
    ensures band.minEq <= band.maxEq ==>
              var t := BaseEquity(band) + Tilt(m);
              a.equities == (if t < band.minEq then band.minEq else if band.maxEq < t then band.maxEq else t)
    ensures a.bonds == 0.7 * (1.0 - a.equities) && a.cash == 0.3 * (1.0 - a.equities)
    ensures a.bonds + a.cash == 1.0 - a.equities
  {
    var target := BaseEquity(band) + Tilt(m);
    var upper := if band.maxEq < target then band.maxEq else target;
    var eq := if band.minEq < upper then upper else band.minEq;
    var rem := 1.0 - eq;
    Allocation(eq, 0.7 * rem, 0.3 * rem)
  }

  /** The linear KPI blend of an allocation. */
  function LinearKpis(a: Allocation): (k: Kpis)
    ensures k.expReturn1y == 0.06 * a.equities + 0.03 * a.bonds + 0.02 * a.cash
    ensures k.expVol1y == 0.18 * a.equities + 0.06 * a.bonds
    ensures k.maxDrawdown == -0.8 * k.expVol1y
    ensures 0.0 <= a.equities && 0.0 <= a.bonds ==> 0.0 <= k.expVol1y && k.maxDrawdown <= 0.0
  {
    var vol := 0.18 * a.equities + 0.06 * a.bonds;
    Kpis(0.06 * a.equities + 0.03 * a.bonds + 0.02 * a.cash, vol, -0.8 * vol)
  }

  /** StubModel.recommend; the profile is not read. */
  function Recommend<P>(profile: P, band: Band, m: Market, seed: Option<int>): (o: Output)
    ensures o.allocation.Total() == 1.0
    ensures o.allocation == RoundAllocation(RawAllocation(band, m), DefaultPlaces)
    ensures o.kpis == LinearKpis(o.allocation)
    ensures o.seed == seed
  {
    var alloc := RoundAllocation(RawAllocation(band, m), DefaultPlaces);
    Output(alloc, LinearKpis(alloc), seed, "stub deterministic model")
  }

  /** The tilt has the label's sign and, for a confidence in [0, 1] or above, a
      magnitude of at most 0.05. */
  lemma TiltBounded(m: Market)
    requires 0.0 <= m.sentimentConfidence
    ensures -0.05 <= Tilt(m) <= 0.05
    ensures m.sentimentLabel == "bullish" ==> Tilt(m) >= 0.0
    ensures m.sentimentLabel == "bearish" ==> Tilt(m) <= 0.0
    ensures m.sentimentLabel != "bullish" && m.sentimentLabel != "bearish" ==> Tilt(m) == 0.0
    ensures m.sentimentConfidence < 1.0 ==> Tilt(m) == TiltSign(m.sentimentLabel) as real * 0.05 * m.sentimentConfidence
    ensures m.sentimentConfidence >= 1.0 ==> Tilt(m) == TiltSign(m.sentimentLabel) as real * 0.05
  {
  }

  /** After rounding, equities stay inside a band whose limits are on the grid. */
  lemma RecommendWithinBand<P>(profile: P, band: Band, m: Market, seed: Option<int>)
    requires band.minEq <= band.maxEq
    requires OnGrid(band.minEq, DefaultPlaces) && OnGrid(band.maxEq, DefaultPlaces)
    ensures band.minEq <= Recommend(profile, band, m, seed).allocation.equities <= band.maxEq
  {
    QuantizeStaysInGridInterval(RawAllocation(band, m).equities, band.minEq, band.maxEq, DefaultPlaces);
  }

  /** For a band inside [0, 1] the rounded equities and bonds are non-negative, so
      volatility is non-negative and the drawdown proxy non-positive. */
  lemma RecommendKpiSigns<P>(profile: P, band: Band, m: Market, seed: Option<int>)
    requires ValidBand(band)
    ensures 0.0 <= Recommend(profile, band, m, seed).kpis.expVol1y
    ensures Recommend(profile, band, m, seed).kpis.maxDrawdown <= 0.0
  {
    var raw := RawAllocation(band, m);
    QuantizeMonotone(0.0, raw.equities, DefaultPlaces);
    QuantizeMonotone(0.0, raw.bonds, DefaultPlaces);
    assert OnGrid(0.0, DefaultPlaces);
    QuantizeOnGridFixed(0.0, DefaultPlaces);
  }

  /** Neither the profile nor the seed changes the allocation or the KPIs. */
  lemma RecommendIgnoresProfileAndSeed<P>(p1: P, p2: P, band: Band, m: Market, s1: Option<int>, s2: Option<int>)
    ensures Recommend(p1, band, m, s1).allocation == Recommend(p2, band, m, s2).allocation
    ensures Recommend(p1, band, m, s1).kpis == Recommend(p2, band, m, s2).kpis
  {
  }

  /** Moderate band, bearish at 0.9: 0.55 - 0.045 = 0.505 equities; the bond
      weight 0.3465 is a tie and goes up to 0.347; cash is the residual 0.148. */
  lemma RecommendBearishExample<P>(profile: P, seed: Option<int>)
    ensures Recommend(profile, Band(0.45, 0.65), Market("bearish", 0.9), seed).allocation
            == Allocation(0.505, 0.347, 0.148)
  {
    var raw := RawAllocation(Band(0.45, 0.65), Market("bearish", 0.9));
    assert raw.equities == 0.505;
    assert raw.bonds == 0.3465;
    assert Pow10(DefaultPlaces) == 1000;
    assert Steps(0.505, DefaultPlaces) == 505;
    QuantizeTieGoesUp(0.3465, 346, DefaultPlaces);
  }
}
