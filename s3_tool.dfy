/** The alert rules of the S3 tool (src/tools/s3_tool.py): a volatility rule and a
    day-over-day sentiment-flip rule. Reading yesterday's sentiment file is replaced
    by a parameter. */
module S3Tool {
  import opened Wrappers
  import opened Types

  const HighVolAction: string := "Consider raising bonds/cash and shortening duration"
  const MediumVolAction: string := "Trim equities within your band"
  const FlipAction: string := "Rebalance to target and review stops"

  /** A sentiment record's label when it is present and non-empty (Python-truthy). */
  function TruthyLabel(s: map<string, string>): (r: Option<string>)
    ensures r.Some? <==> "label" in s && s["label"] != ""
    ensures r.Some? ==> r.value == s["label"]
  {
    if "label" in s && s["label"] != "" then Some(s["label"]) else None
  }

  /** What calc_alerts returns, stated outright: a volatility alert exactly when the
      volatility reaches 0.12, first; a flip alert exactly when both labels are
      present, non-empty and different, last; nothing else. */
  ghost predicate AlertsFor(kpis: map<string, real>, today: map<string, string>,
                            yesterday: Option<map<string, string>>, alerts: seq<Alert>)
  {
    var vol := GetOrZero(kpis, "exp_vol_1y");
    var flip := yesterday.Some? && TruthyLabel(yesterday.value).Some? && TruthyLabel(today).Some?
                && TruthyLabel(yesterday.value) != TruthyLabel(today);
    && |alerts| == (if vol >= 0.12 then 1 else 0) + (if flip then 1 else 0)
    && (forall i :: 0 <= i < |alerts| ==>
          alerts[i].kind == "vol_spike" || alerts[i].kind == "sentiment_flip")
    // at most one volatility alert, always first
    && ((exists i :: 0 <= i < |alerts| && alerts[i].kind == "vol_spike") <==> vol >= 0.12)
    && (forall i :: 0 <= i < |alerts| && alerts[i].kind == "vol_spike" ==>
          i == 0 && alerts[i].severity == (if vol >= 0.18 then High else Medium)
          && alerts[i].evidence == VolAbove(vol, if vol >= 0.18 then 0.18 else 0.12)
          && alerts[i].suggestedAction == (if vol >= 0.18 then HighVolAction else MediumVolAction))
    // a flip needs both labels present, non-empty and different; it comes last
    && ((exists i :: 0 <= i < |alerts| && alerts[i].kind == "sentiment_flip") <==> flip)
    && (forall i :: 0 <= i < |alerts| && alerts[i].kind == "sentiment_flip" ==>
          i == |alerts| - 1 && alerts[i].severity == Medium
          && alerts[i].evidence == SentimentChange(yesterday.value["label"], today["label"])
          && alerts[i].suggestedAction == FlipAction)
  }

  /** calc_alerts, with yesterday's record (`None` when there is no file) as a parameter. */
  method CalcAlerts(kpis: map<string, real>, today: map<string, string>, yesterday: Option<map<string, string>>)
    returns (alerts: seq<Alert>)
    ensures AlertsFor(kpis, today, yesterday, alerts)
  {
    alerts := [];
    var vol := GetOrZero(kpis, "exp_vol_1y");
    if vol >= 0.18 {
      alerts := alerts + [Alert("vol_spike", High, VolAbove(vol, 0.18), HighVolAction)];
    } else if vol >= 0.12 {
      alerts := alerts + [Alert("vol_spike", Medium, VolAbove(vol, 0.12), MediumVolAction)];
    }
    if yesterday.Some? && TruthyLabel(yesterday.value).Some? && TruthyLabel(today).Some?
       && yesterday.value["label"] != today["label"]
    {
      alerts := alerts + [Alert("sentiment_flip", Medium,
                                SentimentChange(yesterday.value["label"], today["label"]), FlipAction)];
      assert alerts[|alerts| - 1].kind == "sentiment_flip";
    }
    if vol >= 0.12 { assert alerts[0].kind == "vol_spike"; }
  }

  /** The characterisation leaves no freedom: two alert lists that both meet it are equal. */
  lemma AlertsForUnique(kpis: map<string, real>, today: map<string, string>,
                        yesterday: Option<map<string, string>>, a1: seq<Alert>, a2: seq<Alert>)
    requires AlertsFor(kpis, today, yesterday, a1) && AlertsFor(kpis, today, yesterday, a2)
    ensures a1 == a2
  {
    forall i | 0 <= i < |a1|
      ensures a1[i] == a2[i]
    {
      assert a1[i].kind == "vol_spike" || a1[i].kind == "sentiment_flip";
      assert a2[i].kind == "vol_spike" || a2[i].kind == "sentiment_flip";
      // a kind's position is fixed: the volatility alert first, the flip alert last
      assert a1[i].kind == a2[i].kind;
    }
  }

  /** No yesterday, equal labels or an empty label give no flip; different labels
      give one, after a volatility alert; a missing volatility gives no volatility alert. */
  method FlipCases()
    returns (noYesterday: seq<Alert>, same: seq<Alert>, emptyLabel: seq<Alert>, changed: seq<Alert>)
    ensures noYesterday == [] && same == [] && emptyLabel == []
    ensures |changed| == 2 && changed[0].kind == "vol_spike" && changed[1].kind == "sentiment_flip"
    ensures changed[1].evidence == SentimentChange("bullish", "bearish")
  {
    var bullish, bearish := map["label" := "bullish"], map["label" := "bearish"];
    noYesterday := CalcAlerts(map[], bearish, None);
    same := CalcAlerts(map[], bearish, Some(bearish));
    emptyLabel := CalcAlerts(map["exp_vol_1y" := 0.05], map["label" := ""], Some(bullish));
    changed := CalcAlerts(map["exp_vol_1y" := 0.2], bearish, Some(bullish));
    assert |changed| == 2;
    assert changed[0].kind != "sentiment_flip";
  }
}
