/** The record shapes the allocation engines and alert rules exchange
    (src/model_interface/types.py, src/tools/s3_tool.py). */
module Types {

  /** A portfolio split across the three asset classes. */
  datatype Allocation = Allocation(equities: real, bonds: real, cash: real)
  {
    function Total(): real { equities + bonds + cash }
  }

  /** Permitted equity range of one risk level. */
  datatype Band = Band(minEq: real, maxEq: real)

  /** A band that is a sub-interval of [0, 1]. */
  predicate ValidBand(b: Band) {
    0.0 <= b.minEq <= b.maxEq <= 1.0
  }

  /** One-year expected return, volatility and drawdown proxy. */
  datatype Kpis = Kpis(expReturn1y: real, expVol1y: real, maxDrawdown: real)

  datatype Severity = Low | Medium | High

  /** What an alert's evidence text interpolates (its exact wording and
      number formatting are not modelled). */
  datatype Evidence =
    | VolAbove(vol: real, threshold: real)
    | EquityShare(equities: real)
    | SentimentChange(from: string, to: string)

  /** An alert record: type, severity, evidence and suggested action. */
  datatype Alert = Alert(kind: string, severity: Severity, evidence: Evidence, suggestedAction: string)

  /** `d.get(k, 0)` on a dictionary of numbers. */
  function GetOrZero(d: map<string, real>, k: string): (r: real)
    ensures k !in d ==> r == 0.0
    ensures k in d ==> r == d[k]
  {
    if k in d then d[k] else 0.0
  }
}
