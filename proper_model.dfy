/** The lifecycle allocation engine (src/model_impl/proper_model.py), up to and
    including rounding, plus the analytic mean and variance of the mix.
    The Monte Carlo KPI draw is not part of this model. */
module ProperModel {
  import opened Wrappers
  import opened Types
  import opened Rounding

  // Capital-market assumptions (annualised).
  const AnnualReturnEq: real := 0.0889
  const AnnualVolEq: real := 0.1526
  const AnnualReturnBond: real := 0.0292
  const AnnualVolBond: real := 0.0738
  const EqBondRho: real := -0.0322

  /** The profile keys the engine reads; `None` is a missing key. */
  datatype ProfileInput = ProfileInput(age: Option<int>, horizonYears: Option<int>)

  /** The market keys the engine reads; `None` is a missing key. */
  datatype Market = Market(sentimentLabel: Option<string>, sentimentConfidence: Option<real>)

  /** What `recommend` returns, without the Monte Carlo KPIs and the clock. */
  datatype Output = Output(
    allocation: Allocation,
    muPort: real,
    varPort: real,
    age: int,
    horizonYears: int,
    sentiment: string,
    sentConf: real)

  /** _lifecycle_mix: a three-step rule of thumb on age; each pair sums to one. */
  function LifecycleMix(age: int): (r: (real, real))
    ensures r.0 + r.1 == 1.0
    ensures 0.0 <= r.0 <= 1.0 && 0.0 <= r.1 <= 1.0
    ensures age < 45 ==> r == (1.0, 0.0)
    ensures 45 <= age < 55 ==> r == (0.459, 0.541)
    ensures 55 <= age ==> r == (0.4202, 0.5798)
  {
    if age < 45 then (1.0, 0.0)
    else if age < 55 then (0.459, 0.541)
    else (0.4202, 0.5798)
  }

  /** The lifecycle equity weight never rises with age. */
  lemma LifecycleEquityNonIncreasing(a1: int, a2: int)
    requires a1 <= a2
    ensures LifecycleMix(a2).0 <= LifecycleMix(a1).0
  {
  }

  /** _clamp: min(hi, max(lo, x)); with lo > hi the upper limit wins. */
  function Clamp(x: real, lo: real, hi: real): (r: real)
    ensures lo <= hi ==> lo <= r <= hi
    ensures lo <= x <= hi ==> r == x
    ensures x < lo && lo <= hi ==> r == lo
    ensures hi < x ==> r == hi
    ensures hi < lo ==> r == hi
  {
    if hi < (if lo < x then x else lo) then hi else (if lo < x then x else lo)
  }

  /** The three-level tilt table; every other label tilts by zero. */
  function TiltRate(sentiment: string): (t: real)
    ensures sentiment == "bullish" ==> t == 0.03
    ensures sentiment == "bearish" ==> t == -0.03
    ensures sentiment != "bullish" && sentiment != "bearish" ==> t == 0.0
  {
    if sentiment == "bullish" then 0.03
    else if sentiment == "bearish" then -0.03
    else 0.0
  }

  /** `int(profile.get("age") or 35)`: a missing or zero age becomes 35. */
  function EffectiveAge(p: ProfileInput): (a: int)
    ensures p.age.None? || p.age.value == 0 ==> a == 35
    ensures p.age.Some? && p.age.value != 0 ==> a == p.age.value
  {
    if p.age.None? || p.age.value == 0 then 35 else p.age.value
  }

  /** `int(profile.get("horizon_years") or 5)`: a missing or zero horizon becomes 5. */
  function EffectiveHorizon(p: ProfileInput): (h: int)
    ensures p.horizonYears.Some? && p.horizonYears.value != 0 ==> h == p.horizonYears.value
    ensures p.horizonYears.None? || p.horizonYears.value == 0 ==> h == 5
  {
    if p.horizonYears.None? || p.horizonYears.value == 0 then 5 else p.horizonYears.value
  }

  /** The sentiment label read from the market; a missing market or label is "neutral". */
  function SentimentLabel(m: Option<Market>): (s: string)
    ensures m.None? ==> s == "neutral"
    ensures m.Some? && m.value.sentimentLabel.None? ==> s == "neutral"
    ensures m.Some? && m.value.sentimentLabel.Some? ==> s == m.value.sentimentLabel.value
  {
    match m
    case None => "neutral"
    case Some(mk) => mk.sentimentLabel.GetOr("neutral")
  }

  /** `float(get("sentiment_confidence", 0.5) or 0.5)`: a missing or zero confidence is 0.5. */
  function SentimentConfidence(m: Option<Market>): (c: real)
    ensures c != 0.0
    ensures m.Some? && m.value.sentimentConfidence.Some? && m.value.sentimentConfidence.value != 0.0
            ==> c == m.value.sentimentConfidence.value
    ensures m.None? || m.value.sentimentConfidence.None? || m.value.sentimentConfidence.value == 0.0
            ==> c == 0.5
  {
    match m
    case None => 0.5
    case Some(mk) =>
      if mk.sentimentConfidence.None? || mk.sentimentConfidence.value == 0.0 then 0.5
      else mk.sentimentConfidence.value
  }

  /** The tilted equity target before clamping: the lifecycle equity weight moved
      by 0.03 per unit of confidence towards the sentiment, or left alone. */
  function EquityTarget(p: ProfileInput, m: Option<Market>): (t: real)
    ensures var lc := LifecycleMix(EffectiveAge(p)).0;
            var c := SentimentConfidence(m);
            && (SentimentLabel(m) == "bullish" ==> t == lc + 0.03 * c)
            && (SentimentLabel(m) == "bearish" ==> t == lc - 0.03 * c)
            && (SentimentLabel(m) != "bullish" && SentimentLabel(m) != "bearish" ==> t == lc)
  {
    LifecycleMix(EffectiveAge(p)).0 + TiltRate(SentimentLabel(m)) * SentimentConfidence(m)
  }

  /** The share of the non-equity residual that goes to bonds, by horizon bucket. */
  function BondShare(horizon: int): (s: real)
    ensures 0.0 < s < 1.0
    ensures horizon <= 3 ==> s == 0.65
    ensures 4 <= horizon <= 7 ==> s == 0.80
    ensures 7 < horizon ==> s == 0.85
  {
    if horizon <= 3 then 0.65 else if horizon <= 7 then 0.80 else 0.85
  }

  /** The allocation `recommend` hands to round_allocation. */
  function RawAllocation(p: ProfileInput, band: Band, m: Option<Market>): (a: Allocation)
    ensures a.equities == Clamp(EquityTarget(p, m), band.minEq, band.maxEq)
    ensures a.Total() == 1.0
    ensures band.minEq <= band.maxEq ==> band.minEq <= a.equities <= band.maxEq
    ensures a.bonds + a.cash == 1.0 - a.equities
    ensures a.bonds == BondShare(EffectiveHorizon(p)) * (1.0 - a.equities)
    ensures a.equities <= 1.0 ==> 0.0 <= a.bonds && 0.0 <= a.cash
  {
    var eq := Clamp(EquityTarget(p, m), band.minEq, band.maxEq);
    var residual := 1.0 - eq;
    var bd := residual * BondShare(EffectiveHorizon(p));
    Allocation(eq, bd, residual - bd)
  }

  /** The un-floored variance of a two-asset mix; with one weight zero it is the
      square of the other asset's scaled volatility. */
  function MixVariance(eqW: real, bdW: real): (v: real)
    ensures bdW == 0.0 ==> v == (eqW * AnnualVolEq) * (eqW * AnnualVolEq)
    ensures eqW == 0.0 ==> v == (bdW * AnnualVolBond) * (bdW * AnnualVolBond)
  {
    (eqW * AnnualVolEq) * (eqW * AnnualVolEq) + (bdW * AnnualVolBond) * (bdW * AnnualVolBond)
      + 2.0 * EqBondRho * eqW * bdW * AnnualVolEq * AnnualVolBond
  }

  /** _mix_mu_sigma without the square root: the mean and the variance floored at zero. */
  function MixMoments(eqW: real, bdW: real): (r: (real, real))
    ensures r.0 == eqW * AnnualReturnEq + bdW * AnnualReturnBond
    ensures r.1 >= 0.0
    ensures MixVariance(eqW, bdW) >= 0.0 ==> r.1 == MixVariance(eqW, bdW)
  {
    var v := MixVariance(eqW, bdW);
    (eqW * AnnualReturnEq + bdW * AnnualReturnBond, if v > 0.0 then v else 0.0)
  }

  /** ProperModel.recommend, up to rounding and the analytic moments. */
  function Recommend(p: ProfileInput, band: Band, m: Option<Market>): (o: Output)
    ensures o.allocation.Total() == 1.0
    ensures o.allocation == RoundAllocation(RawAllocation(p, band, m), DefaultPlaces)
    ensures o.age == EffectiveAge(p) && o.horizonYears == EffectiveHorizon(p)
    ensures o.varPort >= 0.0
    ensures (o.muPort, o.varPort) == MixMoments(o.allocation.equities, o.allocation.bonds)
    ensures o.sentiment == SentimentLabel(m) && o.sentConf == SentimentConfidence(m)
  {
    var alloc := RoundAllocation(RawAllocation(p, band, m), DefaultPlaces);
    var moments := MixMoments(alloc.equities, alloc.bonds);
    Output(alloc, moments.0, moments.1, EffectiveAge(p), EffectiveHorizon(p),
           SentimentLabel(m), SentimentConfidence(m))
  }

  /** The two-asset variance is never negative (the correlation lies in (-1, 1)),
      so the floor at zero never changes it. */
  lemma MixVarianceNonNegative(eqW: real, bdW: real)
    ensures MixVariance(eqW, bdW) >= 0.0
    ensures MixMoments(eqW, bdW).1 == MixVariance(eqW, bdW)
  {
    var x := eqW * AnnualVolEq;
    var y := bdW * AnnualVolBond;
    var rho := EqBondRho;
    assert 2.0 * rho * eqW * bdW * AnnualVolEq * AnnualVolBond == 2.0 * rho * x * y;
    assert x * x + y * y + 2.0 * rho * x * y == (x + rho * y) * (x + rho * y) + (1.0 - rho * rho) * (y * y);
    assert (x + rho * y) * (x + rho * y) >= 0.0;
    assert y * y >= 0.0;
    assert 1.0 - rho * rho > 0.0;
  }

  /** For non-negative weights that sum to at most one (the rest being cash, which
      earns nothing), the mean lies between zero and the equity return. */
  lemma MixMeanBounds(eqW: real, bdW: real)
    requires 0.0 <= eqW && 0.0 <= bdW && eqW + bdW <= 1.0
    ensures 0.0 <= MixMoments(eqW, bdW).0 <= AnnualReturnEq
    ensures eqW + bdW == 1.0 ==> AnnualReturnBond <= MixMoments(eqW, bdW).0
  {
  }

  /** Age 30, the moderate band, neutral sentiment and a five-year horizon give
      0.65 / 0.28 / 0.07: the all-equity lifecycle weight is clamped to the band's top,
      and its bond weight plays no part. */
  lemma RecommendScenario()
    ensures Recommend(ProfileInput(Some(30), Some(5)), Band(0.45, 0.65),
                      Some(Market(Some("neutral"), Some(0.5)))).allocation
            == Allocation(0.65, 0.28, 0.07)
  {
    var raw := RawAllocation(ProfileInput(Some(30), Some(5)), Band(0.45, 0.65),
                             Some(Market(Some("neutral"), Some(0.5))));
    assert raw.equities == 0.65;
    assert raw.bonds == 0.28;
    assert Pow10(DefaultPlaces) == 1000;
    assert OnGrid(0.65, DefaultPlaces) && OnGrid(0.28, DefaultPlaces);
    QuantizeOnGridFixed(0.65, DefaultPlaces);
    QuantizeOnGridFixed(0.28, DefaultPlaces);
  }

  /** The profile reaches recommend only through its effective age and horizon. */
  lemma RecommendThroughEffective(p1: ProfileInput, p2: ProfileInput, band: Band, m: Option<Market>)
    requires EffectiveAge(p1) == EffectiveAge(p2) && EffectiveHorizon(p1) == EffectiveHorizon(p2)
    ensures Recommend(p1, band, m) == Recommend(p2, band, m)
  {
    assert EquityTarget(p1, m) == EquityTarget(p2, m);
    assert RawAllocation(p1, band, m) == RawAllocation(p2, band, m);
  }

  /** A missing age and an age of 0 both mean 35; a missing horizon and 0 both mean 5. */
  lemma RecommendAgeHorizonDefaults(band: Band, m: Option<Market>)
    ensures Recommend(ProfileInput(None, None), band, m) == Recommend(ProfileInput(Some(0), Some(0)), band, m)
    ensures Recommend(ProfileInput(None, None), band, m) == Recommend(ProfileInput(Some(35), Some(5)), band, m)
  {
    RecommendThroughEffective(ProfileInput(None, None), ProfileInput(Some(0), Some(0)), band, m);
    RecommendThroughEffective(ProfileInput(None, None), ProfileInput(Some(35), Some(5)), band, m);
  }

  /** A missing market, a missing confidence and a confidence of 0 all mean 0.5. */
  lemma RecommendConfidenceDefaults(p: ProfileInput, band: Band, s: Option<string>)
    ensures Recommend(p, band, Some(Market(s, None))) == Recommend(p, band, Some(Market(s, Some(0.0))))
    ensures Recommend(p, band, Some(Market(s, None))) == Recommend(p, band, Some(Market(s, Some(0.5))))
    ensures Recommend(p, band, None) == Recommend(p, band, Some(Market(None, Some(0.5))))
  {
    var m0, m1, m2 := Some(Market(s, None)), Some(Market(s, Some(0.0))), Some(Market(s, Some(0.5)));
    assert SentimentConfidence(m0) == SentimentConfidence(m1) == SentimentConfidence(m2) == 0.5;
    assert SentimentLabel(m0) == SentimentLabel(m1) == SentimentLabel(m2);
    assert EquityTarget(p, m0) == EquityTarget(p, m1) == EquityTarget(p, m2);
    assert SentimentLabel(None) == SentimentLabel(Some(Market(None, Some(0.5))));
    assert EquityTarget(p, None) == EquityTarget(p, Some(Market(None, Some(0.5))));
  }

  /** Labels outside the three-level table (such as "slightly_bullish") allocate
      exactly like "neutral". */
  lemma RecommendUnknownLabelIsNeutral(p: ProfileInput, band: Band, s: string, c: Option<real>)
    requires s != "bullish" && s != "bearish"
    ensures Recommend(p, band, Some(Market(Some(s), c))).allocation
            == Recommend(p, band, Some(Market(Some("neutral"), c))).allocation
  {
    var m1, m2 := Some(Market(Some(s), c)), Some(Market(Some("neutral"), c));
    assert TiltRate(SentimentLabel(m1)) == TiltRate(SentimentLabel(m2)) == 0.0;
    assert EquityTarget(p, m1) == EquityTarget(p, m2);
    assert RawAllocation(p, band, m1) == RawAllocation(p, band, m2);
  }

  /** Under a bullish label the pre-clamp target does not fall as a non-zero
      confidence rises. */
  lemma BullishTargetMonotone(p: ProfileInput, c1: real, c2: real)
    requires c1 != 0.0 && c2 != 0.0 && c1 <= c2
    ensures EquityTarget(p, Some(Market(Some("bullish"), Some(c1))))
            <= EquityTarget(p, Some(Market(Some("bullish"), Some(c2))))
  {
  }

  /** Because a zero confidence is read as 0.5, a bullish confidence of 0 tilts
      more than one of 0.1: monotonicity holds only among non-zero confidences. */
  lemma BullishZeroConfidenceTiltsMore(p: ProfileInput)
    ensures EquityTarget(p, Some(Market(Some("bullish"), Some(0.1))))
            < EquityTarget(p, Some(Market(Some("bullish"), Some(0.0))))
  {
  }

  /** After rounding, equities still lie in a band whose limits are on the grid. */
  lemma RecommendWithinBand(p: ProfileInput, band: Band, m: Option<Market>)
    requires band.minEq <= band.maxEq
    requires OnGrid(band.minEq, DefaultPlaces) && OnGrid(band.maxEq, DefaultPlaces)
    ensures band.minEq <= Recommend(p, band, m).allocation.equities <= band.maxEq
  {
    var raw := RawAllocation(p, band, m);
    QuantizeStaysInGridInterval(raw.equities, band.minEq, band.maxEq, DefaultPlaces);
  }
}
