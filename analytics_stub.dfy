/** The preset simulator the live pipeline calls (src/tools/analytics_stub.py). */
module AnalyticsStub {
  import opened Wrappers
  import opened Types
  import Text

  /** A simulation request; `None` is a missing key. */
  datatype SimRequest = SimRequest(riskProfile: Option<string>, horizonYears: Option<int>, demoSeed: Option<int>)

  /** A simulator result: either allocation key may be absent. */
  datatype SimResult = SimResult(
    proposedAllocation: Option<Allocation>,
    allocation: Option<Allocation>,
    kpis: Kpis,
    source: string)

  /** The three presets. */
  function Presets(): (m: map<string, Allocation>)
    ensures m.Keys == {"conservative", "balanced", "aggressive"}
    ensures forall k :: k in m ==> m[k].Total() == 1.0
  {
    map[
      "conservative" := Allocation(0.35, 0.55, 0.10),
      "balanced" := Allocation(0.55, 0.40, 0.05),
      "aggressive" := Allocation(0.75, 0.20, 0.05)
    ]
  }

  /** The placeholder KPIs every run returns. */
  const StubKpis: Kpis := Kpis(0.06, 0.11, 0.17)

  /** The lower-cased risk label, "balanced" when missing or empty. */
  function RiskKey(req: SimRequest): (k: string)
    ensures req.riskProfile.None? || req.riskProfile.value == "" ==> k == "balanced"
    ensures req.riskProfile.Some? && req.riskProfile.value != "" ==> k == Text.Lower(req.riskProfile.value)
  {
    if req.riskProfile.None? || req.riskProfile.value == "" then "balanced"
    else Text.Lower(req.riskProfile.value)
  }

  /** run_simulation: preset lookup with the balanced preset as fallback. */
  function RunSimulation(req: SimRequest): (r: SimResult)
    ensures r.proposedAllocation.Some? && r.allocation.None?
    ensures r.proposedAllocation.value.Total() == 1.0
    ensures RiskKey(req) in Presets() ==> r.proposedAllocation.value == Presets()[RiskKey(req)]
    ensures RiskKey(req) !in Presets() ==> r.proposedAllocation.value == Presets()["balanced"]
    ensures r.kpis == StubKpis && r.source == "stub"
  {
    var key := RiskKey(req);
    var alloc := if key in Presets() then Presets()[key] else Presets()["balanced"];
    SimResult(Some(alloc), None, StubKpis, "stub")
  }

  /** Equity rises strictly from conservative to balanced to aggressive. */
  lemma PresetEquityIncreasing()
    ensures Presets()["conservative"].equities < Presets()["balanced"].equities
            < Presets()["aggressive"].equities
  {
  }

  /** "moderate" is not a preset: it gets the balanced mix, with 0.55 equities. */
  lemma RunSimulationModerateIsBalanced(h: Option<int>, s: Option<int>)
    ensures RunSimulation(SimRequest(Some("moderate"), h, s)).proposedAllocation.value.equities == 0.55
  {
    assert Text.Lower("moderate") == "moderate";
  }

  /** A missing label means "balanced", and labels are read case-insensitively. */
  lemma RunSimulationMissingIsBalanced(h: Option<int>, s: Option<int>)
    ensures RunSimulation(SimRequest(None, h, s)) == RunSimulation(SimRequest(Some("Balanced"), h, s))
  {
    assert Text.Lower("Balanced") == "balanced";
  }

  /** Upper-case labels find their preset. */
  lemma RunSimulationUpperCase(h: Option<int>, s: Option<int>)
    ensures RunSimulation(SimRequest(Some("AGGRESSIVE"), h, s)).proposedAllocation.value
            == Allocation(0.75, 0.20, 0.05)
  {
    assert Text.Lower("AGGRESSIVE") == "aggressive";
  }

  /** The result does not depend on the request beyond its risk label. */
  lemma RunSimulationOnlyReadsRisk(r1: SimRequest, r2: SimRequest)
    requires r1.riskProfile == r2.riskProfile
    ensures RunSimulation(r1) == RunSimulation(r2)
  {
  }
}
