/** The static risk-band table (src/constants/risk_bands.py). */
module RiskBands {
  import opened Types
  import Rounding

  /** RISK_BANDS: the permitted equity range of each risk level. */
  function RiskBandTable(): (m: map<string, Band>)
    ensures m.Keys == {"conservative", "moderate", "aggressive"}
    ensures forall k :: k in m ==> ValidBand(m[k])
  {
    map[
      "conservative" := Band(0.20, 0.45),
      "moderate" := Band(0.45, 0.65),
      "aggressive" := Band(0.65, 0.85)
    ]
  }

  /** Adjacent bands meet: each band starts where the previous one ends. */
  lemma BandsContiguous()
    ensures RiskBandTable()["conservative"].maxEq == RiskBandTable()["moderate"].minEq == 0.45
    ensures RiskBandTable()["moderate"].maxEq == RiskBandTable()["aggressive"].minEq == 0.65
  {
  }

  /** Both limits rise strictly from conservative to moderate to aggressive. */
  lemma BandsStrictlyIncreasing()
    ensures var t := RiskBandTable();
            t["conservative"].minEq < t["moderate"].minEq < t["aggressive"].minEq
            && t["conservative"].maxEq < t["moderate"].maxEq < t["aggressive"].maxEq
  {
  }

  /** Every band limit is a multiple of 0.001, so rounding at the default
      three places never pushes a weight across one. */
  lemma BandsOnDefaultGrid(k: string)
    requires k in RiskBandTable()
    ensures Rounding.OnGrid(RiskBandTable()[k].minEq, Rounding.DefaultPlaces)
    ensures Rounding.OnGrid(RiskBandTable()[k].maxEq, Rounding.DefaultPlaces)
  {
    assert Rounding.Pow10(Rounding.DefaultPlaces) == 1000;
  }
}
