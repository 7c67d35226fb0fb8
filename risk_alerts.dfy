/** The KPI alert rules (src/tools/risk_alerts.py): a volatility rule, then an
    equity-concentration rule, each appending to a local list. */
module RiskAlerts {
  import opened Types

  const VolatilityAction: string := "Reduce equity or add bonds/cash."
  const ModerateVolAction: string := "Review risk tolerance; consider small rebalance."
  const ConcentrationAction: string := "Trim equities towards target band."

  /** risk_alerts_from_kpis. Missing keys read as 0. */
  method RiskAlertsFromKpis(allocation: map<string, real>, kpis: map<string, real>)
    returns (alerts: seq<Alert>)
    ensures var vol, eq := GetOrZero(kpis, "exp_vol_1y"), GetOrZero(allocation, "equities");
      && |alerts| == (if vol >= 0.12 then 1 else 0) + (if eq > 0.70 then 1 else 0)
      && (forall i :: 0 <= i < |alerts| ==>
            alerts[i].kind == "volatility" || alerts[i].kind == "equity_concentration")
      // at most one volatility alert, always first, graded by the 0.18 threshold
      && ((exists i :: 0 <= i < |alerts| && alerts[i].kind == "volatility") <==> vol >= 0.12)
      && (forall i :: 0 <= i < |alerts| && alerts[i].kind == "volatility" ==>
            i == 0 && alerts[i].severity == (if vol >= 0.18 then High else Medium)
            && alerts[i].evidence == VolAbove(vol, if vol >= 0.18 then 0.18 else 0.12)
            && alerts[i].suggestedAction == (if vol >= 0.18 then VolatilityAction else ModerateVolAction))
      // the concentration alert fires on strictly more than 70% equities, always last
      && ((exists i :: 0 <= i < |alerts| && alerts[i].kind == "equity_concentration") <==> eq > 0.70)
      && (forall i :: 0 <= i < |alerts| && alerts[i].kind == "equity_concentration" ==>
            i == |alerts| - 1 && alerts[i].severity == Medium
            && alerts[i].evidence == EquityShare(eq) && alerts[i].suggestedAction == ConcentrationAction)
  {
    alerts := [];
    var vol := GetOrZero(kpis, "exp_vol_1y");
    var eq := GetOrZero(allocation, "equities");
    if vol >= 0.18 {
      alerts := alerts + [Alert("volatility", High, VolAbove(vol, 0.18), VolatilityAction)];
    } else if vol >= 0.12 {
      alerts := alerts + [Alert("volatility", Medium, VolAbove(vol, 0.12), ModerateVolAction)];
    }
    if eq > 0.70 {
      alerts := alerts + [Alert("equity_concentration", Medium, EquityShare(eq), ConcentrationAction)];
    }
    if vol >= 0.12 { assert alerts[0].kind == "volatility"; }
    if eq > 0.70 { assert alerts[|alerts| - 1].kind == "equity_concentration"; }
  }

  /** The threshold boundaries: 0.18 is high (inclusive), 0.1799 medium, 0.11999
      nothing; 0.70 equities do not fire the concentration rule, 0.701 do; empty
      inputs give no alerts. */
  method ThresholdBoundaries()
    returns (atHigh: seq<Alert>, belowHigh: seq<Alert>, belowMedium: seq<Alert>,
             atConcentration: seq<Alert>, aboveConcentration: seq<Alert>, empty: seq<Alert>)
    ensures |atHigh| == 1 && atHigh[0].severity == High
    ensures |belowHigh| == 1 && belowHigh[0].severity == Medium
    ensures belowMedium == [] && atConcentration == [] && empty == []
    ensures |aboveConcentration| == 1 && aboveConcentration[0].kind == "equity_concentration"
  {
    atHigh := RiskAlertsFromKpis(map[], map["exp_vol_1y" := 0.18]);
    belowHigh := RiskAlertsFromKpis(map[], map["exp_vol_1y" := 0.1799]);
    belowMedium := RiskAlertsFromKpis(map[], map["exp_vol_1y" := 0.11999]);
    atConcentration := RiskAlertsFromKpis(map["equities" := 0.70], map[]);
    aboveConcentration := RiskAlertsFromKpis(map["equities" := 0.701], map[]);
    empty := RiskAlertsFromKpis(map[], map[]);
  }
}
