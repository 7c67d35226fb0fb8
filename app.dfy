/** The profile handling of the local chat API (src/api/app.bak.py): free-text
    overrides, their merge over form fields, profile normalisation, the check on
    the model's allocation keys, and the chat flow that strings them together. */
module App {
  import opened Wrappers
  import opened Types
  import opened Text
  import RiskBands
  import Rounding
  import StubModel
  import S3Tool

  /** Text the age pattern's group `1[6-9]|[2-9]\d|100` can capture. */
  predicate IsAgeGroup(s: string) {
    || (|s| == 2 && s[0] == '1' && '6' <= s[1] <= '9')
    || (|s| == 2 && '2' <= s[0] <= '9' && IsDigit(s[1]))
    || s == "100"
  }

  /** Text the horizon pattern's group `1|[2-3]?\d` can capture. */
  predicate IsHorizonGroup(s: string) {
    || (|s| == 1 && IsDigit(s[0]))
    || (|s| == 2 && '2' <= s[0] <= '3' && IsDigit(s[1]))
  }

  type AgeDigits = s: string | IsAgeGroup(s) witness "16"

  type HorizonDigits = s: string | IsHorizonGroup(s) witness "1"

  /** The regular-expression searches parse_overrides runs on the lower-cased text,
      taken as given: the first capture of the age and horizon patterns, and whether
      each risk pattern matches anywhere. */
  datatype Matchers = Matchers(
    age: string -> Option<AgeDigits>,
    aggressive: string -> bool,
    moderate: string -> bool,
    conservative: string -> bool,
    horizon: string -> Option<HorizonDigits>)

  /** Profile keys as the form, the overrides or the merged dict give them;
      `None` is an absent key (or None). */
  datatype ProfileFields = ProfileFields(age: Option<int>, risk: Option<string>, horizonYears: Option<int>)

  /** The normalised profile used downstream. */
  datatype SafeProfile = SafeProfile(age: int, risk: string, horizonYears: int)

  const AllowedRisks: set<string> := {"conservative", "moderate", "aggressive"}

  /** The value of a two-digit string. */
  lemma TwoDigitsValue(s: string)
    requires |s| == 2 && AllDigits(s)
    ensures DigitsValue(s) == (s[0] as int - '0' as int) * 10 + (s[1] as int - '0' as int)
  {
    var h := s[..1];
    assert h[..0] == "";
    assert DigitsValue(h) == s[0] as int - '0' as int;
  }

  /** Each age capture reads as 16 to 100. */
  lemma AgeDigitsRange(s: AgeDigits)
    ensures AllDigits(s) && 16 <= DigitsValue(s) <= 100
  {
    if |s| == 3 {
      assert s[..2] == "10";
      TwoDigitsValue(s[..2]);
    } else {
      TwoDigitsValue(s);
    }
  }

  /** A horizon capture is 0-9 or 20-39; "14 years" cannot be captured. */
  lemma HorizonDigitsRange(s: HorizonDigits)
    ensures AllDigits(s)
    ensures var v := DigitsValue(s); 0 <= v <= 39 && !(10 <= v <= 19)
  {
    if |s| == 2 {
      TwoDigitsValue(s);
    } else {
      assert s[..0] == "";
    }
  }

  /** `int(m.group(1))` of an age capture. */
  function CapturedAge(g: Option<AgeDigits>): (r: Option<int>)
    ensures r.Some? <==> g.Some?
    ensures r.Some? ==> 16 <= r.value <= 100
    ensures g.Some? ==> r.value == DigitsValue(g.value)
  {
    if g.None? then None
    else
      AgeDigitsRange(g.value);
      Some(DigitsValue(g.value))
  }

  /** `int(m.group(1))` of a horizon capture. */
  function CapturedHorizon(g: Option<HorizonDigits>): (r: Option<int>)
    ensures r.Some? <==> g.Some?
    ensures r.Some? ==> 0 <= r.value <= 39 && !(10 <= r.value <= 19)
    ensures g.Some? ==> r.value == DigitsValue(g.value)
  {
    if g.None? then None
    else
      HorizonDigitsRange(g.value);
      Some(DigitsValue(g.value))
  }

  /** parse_overrides: the captured age, the first risk pattern that matches in the
      order aggressive, moderate, conservative, and the captured horizon. */
  function ParseOverrides(text: string, m: Matchers): (r: ProfileFields)
    ensures var t := Lower(text);
      && r.age == CapturedAge(m.age(t))
      && (r.age.Some? <==> m.age(t).Some?)
      && (r.age.Some? ==> 16 <= r.age.value <= 100)
      && (m.aggressive(t) ==> r.risk == Some("aggressive"))
      && (!m.aggressive(t) && m.moderate(t) ==> r.risk == Some("moderate"))
      && (!m.aggressive(t) && !m.moderate(t) && m.conservative(t) ==> r.risk == Some("conservative"))
      && (!m.aggressive(t) && !m.moderate(t) && !m.conservative(t) ==> r.risk.None?)
      && r.horizonYears == CapturedHorizon(m.horizon(t))
      && (r.horizonYears.Some? <==> m.horizon(t).Some?)
      && (r.horizonYears.Some? ==> 0 <= r.horizonYears.value <= 39 && !(10 <= r.horizonYears.value <= 19))
  {
    var t := Lower(text);
    var age := CapturedAge(m.age(t));
    var risk :=
      if m.aggressive(t) then Some("aggressive")
      else if m.moderate(t) then Some("moderate")
      else if m.conservative(t) then Some("conservative")
      else None;
    var horizon := CapturedHorizon(m.horizon(t));
    ProfileFields(age, risk, horizon)
  }

  /** The parse only sees the lower-cased message. */
  lemma ParseOverridesIgnoresCase(text: string, m: Matchers)
    ensures ParseOverrides(Lower(text), m) == ParseOverrides(text, m)
  {
    LowerIdempotent(text);
  }

  /** `max(lo, min(hi, x))`: with lo > hi the lower limit wins. */
  function ClampInt(x: int, lo: int, hi: int): (r: int)
    ensures lo <= hi ==> lo <= r <= hi
    ensures lo <= x <= hi ==> r == x
    ensures x < lo ==> r == lo
    ensures lo <= hi < x ==> r == hi
    ensures hi < lo ==> r == lo
  {
    var upper := if hi < x then hi else x;
    if upper < lo then lo else upper
  }

  /** safe_defaults. */
  function SafeDefaults(p: ProfileFields): (r: SafeProfile)
    ensures r.risk in AllowedRisks
    ensures 16 <= r.age <= 100 && 1 <= r.horizonYears <= 40
    ensures p.age.None? ==> r.age == 30
    ensures p.horizonYears.None? ==> r.horizonYears == 5
    ensures p.age.Some? && 16 <= p.age.value <= 100 ==> r.age == p.age.value
    ensures p.horizonYears.Some? && 1 <= p.horizonYears.value <= 40 ==> r.horizonYears == p.horizonYears.value
    ensures p.age.Some? && p.age.value < 16 ==> r.age == 16
    ensures p.age.Some? && 100 < p.age.value ==> r.age == 100
    ensures p.horizonYears.Some? && p.horizonYears.value < 1 ==> r.horizonYears == 1
    ensures p.horizonYears.Some? && 40 < p.horizonYears.value ==> r.horizonYears == 40
    ensures p.risk.Some? && Lower(p.risk.value) in AllowedRisks ==> r.risk == Lower(p.risk.value)
    ensures p.risk.None? || Lower(p.risk.value) !in AllowedRisks ==> r.risk == "moderate"
  {
    var age := p.age.GetOr(30);
    var horizon := p.horizonYears.GetOr(5);
    var risk0 := if p.risk.None? || p.risk.value == "balanced" then "moderate" else p.risk.value;
    var risk1 := Lower(risk0);
    var risk := if risk1 in AllowedRisks then risk1 else "moderate";
    assert Lower("moderate") == "moderate";
    SafeProfile(ClampInt(age, 16, 100), risk, ClampInt(horizon, 1, 40))
  }

  /** A normalised profile, read back as fields. */
  function Fields(s: SafeProfile): ProfileFields {
    ProfileFields(Some(s.age), Some(s.risk), Some(s.horizonYears))
  }

  /** Normalising an already-normalised profile changes nothing. */
  lemma SafeDefaultsIdempotent(p: ProfileFields)
    ensures SafeDefaults(Fields(SafeDefaults(p))) == SafeDefaults(p)
  {
    var r := SafeDefaults(p);
    assert Lower("conservative") == "conservative";
    assert Lower("moderate") == "moderate";
    assert Lower("aggressive") == "aggressive";
  }

  /** "balanced", an unknown label and upper case. */
  lemma SafeDefaultsRiskExamples(age: Option<int>, h: Option<int>)
    ensures SafeDefaults(ProfileFields(age, Some("balanced"), h)).risk == "moderate"
    ensures SafeDefaults(ProfileFields(age, Some("yolo"), h)).risk == "moderate"
    ensures SafeDefaults(ProfileFields(age, Some("Aggressive"), h)).risk == "aggressive"
  {
    assert Lower("balanced") == "balanced";
    assert Lower("yolo") == "yolo";
    assert Lower("Aggressive") == "aggressive";
  }

  /** The merge of chat: override keys win over form fields, key by key. */
  function Merge(form: Option<ProfileFields>, overrides: ProfileFields): (r: ProfileFields)
    ensures overrides.age.Some? ==> r.age == overrides.age
    ensures overrides.risk.Some? ==> r.risk == overrides.risk
    ensures overrides.horizonYears.Some? ==> r.horizonYears == overrides.horizonYears
    ensures overrides.age.None? ==> r.age == (if form.Some? then form.value.age else None)
    ensures overrides.risk.None? ==> r.risk == (if form.Some? then form.value.risk else None)
    ensures overrides.horizonYears.None? ==> r.horizonYears == (if form.Some? then form.value.horizonYears else None)
  {
    var f := form.GetOr(ProfileFields(None, None, None));
    ProfileFields(
      if overrides.age.Some? then overrides.age else f.age,
      if overrides.risk.Some? then overrides.risk else f.risk,
      if overrides.horizonYears.Some? then overrides.horizonYears else f.horizonYears)
  }

  /** When the message sets every key, the form has no effect on the profile. */
  lemma MergeFullOverridesIgnoreForm(f1: Option<ProfileFields>, f2: Option<ProfileFields>, o: ProfileFields)
    requires o.age.Some? && o.risk.Some? && o.horizonYears.Some?
    ensures SafeDefaults(Merge(f1, o)) == SafeDefaults(Merge(f2, o))
  {
  }

  /** With no overrides the form decides, and no form means all defaults. */
  lemma MergeNoOverrides(f: ProfileFields)
    ensures Merge(Some(f), ProfileFields(None, None, None)) == f
    ensures SafeDefaults(Merge(None, ProfileFields(None, None, None))) == SafeProfile(30, "moderate", 5)
  {
  }

  /** An HTTP error raised by the handler. */
  datatype HttpError = HttpError(status: int, detail: string)

  const AllocationKeys: seq<string> := ["equities", "bonds", "cash"]

  /** The allocation dict from the model, `{}` when absent. */
  function AllocationDict(a: Option<map<string, real>>): map<string, real> {
    a.GetOr(map[])
  }

  /** The check on the model's allocation: the first missing key, in the order
      equities, bonds, cash, is a 400 error; otherwise the three weights. */
  method CheckAllocationKeys(alloc: Option<map<string, real>>) returns (r: Result<Allocation, HttpError>)
    ensures var m := AllocationDict(alloc);
            r.Success? <==> (forall i :: 0 <= i < |AllocationKeys| ==> AllocationKeys[i] in m)
    ensures var m := AllocationDict(alloc);
            r.Success? ==> "equities" in m && "bonds" in m && "cash" in m
                           && r.value == Allocation(m["equities"], m["bonds"], m["cash"])
    ensures var m := AllocationDict(alloc);
            r.Failure? ==> exists i :: (0 <= i < |AllocationKeys| && AllocationKeys[i] !in m
              && (forall j :: 0 <= j < i ==> AllocationKeys[j] in m)
              && r.error == HttpError(400, "model allocation missing key: " + AllocationKeys[i]))
  {
    var m := AllocationDict(alloc);
    var i := 0;
    while i < |AllocationKeys|
      invariant 0 <= i <= |AllocationKeys|
      invariant forall j :: 0 <= j < i ==> AllocationKeys[j] in m
    {
      if AllocationKeys[i] !in m {
        return Failure(HttpError(400, "model allocation missing key: " + AllocationKeys[i]));
      }
      i := i + 1;
    }
    assert AllocationKeys[0] in m && AllocationKeys[1] in m && AllocationKeys[2] in m;
    return Success(Allocation(m["equities"], m["bonds"], m["cash"]));
  }

  /** Today's cached sentiment (its time stamp is not modelled). */
  datatype Sentiment = Sentiment(sentimentLabel: string, confidence: real)


  /** The kpis dict chat builds from the model's KPIs and passes to the alert rules. */
  function KpisMap(k: Kpis): (r: map<string, real>)
    ensures r.Keys == {"exp_return_1y", "exp_vol_1y", "max_drawdown"}
    ensures r["exp_return_1y"] == k.expReturn1y && r["exp_vol_1y"] == k.expVol1y
            && r["max_drawdown"] == k.maxDrawdown
  {
    map["exp_return_1y" := k.expReturn1y, "exp_vol_1y" := k.expVol1y, "max_drawdown" := k.maxDrawdown]
  }

  /** What chat answers, without run id, latency, advice text and persistence. */
  datatype ChatOut = ChatOut(
    profile: SafeProfile,
    band: Band,
    allocation: Allocation,
    kpis: Kpis,
    sentiment: Sentiment,
    riskAlerts: seq<Alert>,
    seed: Option<int>,
    defaultsUsed: bool)

  /** The chat handler: overrides over form fields, normalisation, band lookup, the
      stub model, the allocation key check, then the alert rules. */
  method Chat(message: string, form: Option<ProfileFields>, matchers: Matchers,
              sentiment: Sentiment, yesterday: Option<map<string, string>>, seed: Option<int>)
    returns (r: Result<ChatOut, HttpError>)
    ensures r.Success?
    ensures r.value.profile == SafeDefaults(Merge(form, ParseOverrides(message, matchers)))
    ensures r.value.profile.risk in RiskBands.RiskBandTable()
            && r.value.band == RiskBands.RiskBandTable()[r.value.profile.risk]
    ensures var out := StubModel.Recommend(r.value.profile, r.value.band,
                                           StubModel.Market(sentiment.sentimentLabel, sentiment.confidence), seed);
            r.value.allocation == out.allocation && r.value.kpis == out.kpis
    ensures S3Tool.AlertsFor(KpisMap(r.value.kpis), map["label" := sentiment.sentimentLabel], yesterday,
                             r.value.riskAlerts)
    ensures r.value.kpis.expVol1y < 0.12 ==> forall i :: 0 <= i < |r.value.riskAlerts| ==>
              r.value.riskAlerts[i].kind == "sentiment_flip"
    ensures r.value.allocation.Total() == 1.0
    ensures r.value.band.minEq <= r.value.allocation.equities <= r.value.band.maxEq
    ensures r.value.kpis.expVol1y >= 0.0 && r.value.kpis.maxDrawdown <= 0.0
    ensures |r.value.riskAlerts| <= 2
    ensures r.value.sentiment == sentiment
    ensures r.value.seed == seed && r.value.defaultsUsed == form.None?
  {
    var overrides := ParseOverrides(message, matchers);
    var profile := SafeDefaults(Merge(form, overrides));
    var band := RiskBands.RiskBandTable()[profile.risk];
    var market := StubModel.Market(sentiment.sentimentLabel, sentiment.confidence);
    var out := StubModel.Recommend(profile, band, market, seed);
    RiskBands.BandsOnDefaultGrid(profile.risk);
    StubModel.RecommendWithinBand(profile, band, market, seed);
    StubModel.RecommendKpiSigns(profile, band, market, seed);
    var a := out.allocation;
    var checked := CheckAllocationKeys(Some(map["equities" := a.equities, "bonds" := a.bonds, "cash" := a.cash]));
    // The stub always fills the three keys, so the 400 branch is never taken.
    assert forall i :: 0 <= i < |AllocationKeys| ==> AllocationKeys[i] in ["equities", "bonds", "cash"];
    assert checked.Success?;
    var kpis := KpisMap(out.kpis);
    var alerts := S3Tool.CalcAlerts(kpis, map["label" := sentiment.sentimentLabel], yesterday);
    return Success(ChatOut(profile, band, checked.value, out.kpis, sentiment, alerts, seed, form.None?));
  }
}
