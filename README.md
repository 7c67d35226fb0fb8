# Portfolio allocation rules, modelled and proved in Dafny

This project models the deterministic core of a small portfolio-advice service. It covers:

- the exact-sum rounding of an allocation;
- the two allocation engines: the lifecycle "proper" model and the deterministic stub;
- the preset simulator behind the live pipeline;
- the static risk-band table;
- the two alert rule sets;
- profile handling in the local chat API: message overrides, merging over form fields, normalisation, and the check on the model's allocation keys;
- the small text and routing helpers around these: word capping, the keyword router and planner, and error rendering.

Weights are exact `real` numbers. Decimal `ROUND_HALF_UP` quantisation becomes "nearest multiple of 10^-places, ties away from zero" (`Rounding.Steps`). A missing dictionary key is `None` or a zero default, and Python's falsiness (`x or default`) is written out wherever the code uses it. The alert rules build their lists by appending, as the code does, so they are methods with loop-free bodies. They are specified by count, kinds, severities, evidence, order, and the if-and-only-if conditions for each rule. The allocation key check is a loop over the three keys, and its invariant carries the proof.

Modules follow the source files:

| module | file |
|---|---|
| `Rounding` | `utils/rounding.py` |
| `RiskBands` | `constants/risk_bands.py` |
| `ProperModel` | `model_impl/proper_model.py` |
| `StubModel` | `model_impl/stub_model.py` |
| `RiskAlerts` | `tools/risk_alerts.py` |
| `S3Tool` | `tools/s3_tool.py` |
| `AnalyticsStub` | `tools/analytics_stub.py` |
| `Pipeline` | `pipeline.py` |
| `AgentCore` | `agent_core.py` |
| `AgentIo` | `agent_io.py` |
| `App` | `api/app.bak.py` |

Two modules serve the others:

- `Types` and `Wrappers` hold the shared records (allocation, band, KPIs, alert) and `Option`/`Result`.
- `Text` gives Python's `split`, `strip`, `" ".join`, `lower`, `in`, `int()` of digits and `repr` of a natural number their meaning.

### Where the variants differ, and what the code does

- **Default age.** The proper model's default age is 35 (`int(profile.get("age") or 35)`), so an age of 0 also becomes 35. The chat API's default is 30, and it applies only to a missing age.
- **Sentiment tilt.** The proper model's tilt table has three levels. Any other label, such as "slightly_bullish", tilts by zero.
- **Zero confidence.** A confidence of 0 is falsy and is read as 0.5. So a bullish confidence of 0 tilts more than one of 0.1 (`ProperModel.BullishZeroConfidenceTiltsMore`).
- **Cash is never rounded.** It is the exact residual 1 − eq − bo, so it can be negative (`Rounding.RoundAllocationNegativeCashExample`).
- **Clamp order.** The two engines clamp in opposite orders. `_clamp` is min(hi, max(lo, x)), so the upper limit wins when lo > hi. The stub's clamp is max(lo, min(hi, x)), so the lower limit wins.
- **A missing `calc_alerts`.** The chat API imports `calc_alerts` from `tools/risk_alerts.py` (`src/api/app.bak.py:26`), which defines only `risk_alerts_from_kpis`. As written, that import raises `ImportError` when the module loads, so `chat` cannot be reached at all. An earlier `risk_alerts.py` in the build output (`.aws-sam/build/FinSenseFunction/src/tools/risk_alerts.py:26-41`) does define a `calc_alerts(kpis, today_sentiment)` with the same volatility rule, so the call site was written against a `calc_alerts` of this shape. `App.Chat` calls the `calc_alerts` of `tools/s3_tool.py`, whose signature the call site matches. It uses the two-argument fallback of the `force_high_vol` retry, since that function has no such parameter.
- **Horizon overrides of 10–19.** The horizon pattern of `parse_overrides` captures `1|[2-3]?\d`. That is 0–9 or 20–39, never 10–19 (`App.HorizonDigitsRange`). So the docstring's example "14 years" sets no horizon.

## Model

| member | source | states |
|---|---|---|
| Rounding.Steps | src/utils/rounding.py:27-28 | the step count is the nearest integer to x·10^places; an exact half goes away from zero |
| Rounding.Quantize | src/utils/rounding.py:27-28 | the quantised weight is on the 10^-places grid, at the half-up step count |
| Rounding.RoundAllocation | src/utils/rounding.py:11-34 | equities and bonds are the half-up quantisations of the input weights (so on the grid), cash is 1 − eq − bo, and the three sum to exactly 1 |
| Rounding.QuantizeNear | src/utils/rounding.py:27-28 | a quantised weight is within half a grid step of its input |
| Rounding.QuantizeTieGoesUp | src/utils/rounding.py:25-28 | an exact tie k + ½ steps rounds to the upper step k + 1 |
| Rounding.QuantizeOnGridFixed | src/utils/rounding.py:27-28 | a weight already on the grid is unchanged |
| Rounding.StepsMonotone | src/utils/rounding.py:27-28 | ordered weights give ordered step counts |
| Rounding.QuantizeMonotone | src/utils/rounding.py:27-28 | quantisation preserves order |
| Rounding.QuantizeStaysInGridInterval | src/utils/rounding.py:27-28 | a weight between two grid points stays between them after quantisation |
| Rounding.RoundAllocationIgnoresCash | src/utils/rounding.py:27-31 | the result does not depend on the input cash |
| Rounding.RoundAllocationCashWithinOneStep | src/utils/rounding.py:27-31 | for an input summing to 1, output cash is within one grid step of input cash |
| Rounding.RoundAllocationIdempotent | src/utils/rounding.py:27-31 | rounding twice equals rounding once |
| Rounding.RoundAllocationFixesGridInput | src/utils/rounding.py:27-31 | an on-grid allocation summing to 1 is returned unchanged |
| Rounding.RoundAllocationTieExample | src/utils/rounding.py:25-31 | 0.1235/0.4995/0.3770 rounds to 0.124/0.5/0.376 |
| Rounding.RoundAllocationNegativeCashExample | src/utils/rounding.py:30-31 | 0.6495/0.3505 gives cash −0.001 |
| RiskBands.RiskBandTable | src/constants/risk_bands.py:1-5 | exactly the three keys, each with 0 ≤ min_eq ≤ max_eq ≤ 1 |
| RiskBands.BandsContiguous | src/constants/risk_bands.py:2-4 | conservative.max = moderate.min = 0.45 and moderate.max = aggressive.min = 0.65 |
| RiskBands.BandsStrictlyIncreasing | src/constants/risk_bands.py:2-4 | both limits rise strictly from conservative to moderate to aggressive |
| RiskBands.BandsOnDefaultGrid | src/constants/risk_bands.py:2-4 | every limit is a multiple of 0.001 |
| ProperModel.LifecycleMix | src/model_impl/proper_model.py:32-34 | the three age steps (< 45, < 55, otherwise) with their pairs; each pair sums to 1 and lies in [0, 1] |
| ProperModel.LifecycleEquityNonIncreasing | src/model_impl/proper_model.py:52-63 | the lifecycle equity weight never rises with age |
| ProperModel.Clamp | src/model_impl/proper_model.py:65-67 | the result is in [lo, hi] when lo ≤ hi and equals x for x in range; hi wins when lo > hi |
| ProperModel.TiltRate | src/model_impl/proper_model.py:118-119 | +0.03 for bullish, −0.03 for bearish, 0 for every other label |
| ProperModel.EffectiveAge | src/model_impl/proper_model.py:108 | a missing or zero age is 35; any other age is kept |
| ProperModel.EffectiveHorizon | src/model_impl/proper_model.py:109 | a missing or zero horizon is 5; any other horizon is kept |
| ProperModel.SentimentLabel | src/model_impl/proper_model.py:116 | a missing market, or a market without a label, is "neutral"; a present label is kept |
| ProperModel.SentimentConfidence | src/model_impl/proper_model.py:117 | a missing or zero confidence is 0.5; any other confidence is kept; the result is never 0 |
| ProperModel.EquityTarget | src/model_impl/proper_model.py:112-119 | the lifecycle equity weight plus 0.03·conf for bullish, minus 0.03·conf for bearish, unchanged for any other label |
| ProperModel.BondShare | src/model_impl/proper_model.py:124-129 | 0.65 for horizon ≤ 3, 0.80 for 4–7, 0.85 above 7 |
| ProperModel.RawAllocation | src/model_impl/proper_model.py:108-131 | equities are the tilted target clamped to the band by `_clamp`; sums to 1, equities in the band, bonds + cash = 1 − eq, bonds = share·residual, both non-negative when eq ≤ 1 |
| ProperModel.MixVariance | src/model_impl/proper_model.py:48-49 | with no bonds it is (w_eq·0.1526)², with no equities (w_bd·0.0738)² |
| ProperModel.MixMoments | src/model_impl/proper_model.py:47-50 | mean = w_eq·0.0889 + w_bd·0.0292; the variance is the mix variance floored at 0 |
| ProperModel.MixVarianceNonNegative | src/model_impl/proper_model.py:48-50 | the two-asset variance is never negative, so the floor never applies |
| ProperModel.MixMeanBounds | src/model_impl/proper_model.py:47 | for non-negative weights summing to at most 1, the mean lies between 0 and the equity return, and above the bond return when the weights sum to 1 |
| ProperModel.Recommend | src/model_impl/proper_model.py:108-160 | the allocation is the rounded raw allocation and sums to 1; mean and variance are the mix moments of the rounded equity and bond weights, the variance non-negative; the effective age and horizon and the sentiment label and confidence read are echoed |
| ProperModel.RecommendThroughEffective | src/model_impl/proper_model.py:108-113 | two profiles with the same effective age and horizon get the same output |
| ProperModel.RecommendAgeHorizonDefaults | src/model_impl/proper_model.py:108-109 | a missing age and horizon act like 0 and 0, and like 35 and 5 |
| ProperModel.RecommendConfidenceDefaults | src/model_impl/proper_model.py:116-117 | a missing confidence acts like 0 and like 0.5; no market acts like a market with confidence 0.5 and no label |
| ProperModel.RecommendUnknownLabelIsNeutral | src/model_impl/proper_model.py:118-119 | any label other than bullish or bearish allocates like "neutral" |
| ProperModel.BullishTargetMonotone | src/model_impl/proper_model.py:117-119 | under bullish, the pre-clamp target does not fall as a non-zero confidence rises |
| ProperModel.BullishZeroConfidenceTiltsMore | src/model_impl/proper_model.py:117-119 | a bullish confidence of 0 gives a higher target than one of 0.1 |
| ProperModel.RecommendWithinBand | src/model_impl/proper_model.py:120-134 | after rounding, equities stay in a band whose limits are on the grid |
| ProperModel.RecommendScenario | src/model_impl/proper_model.py:112-134 | age 30, moderate band, neutral, horizon 5 gives 0.65/0.28/0.07 |
| StubModel.BaseEquity | src/model_impl/stub_model.py:9 | the base is the band midpoint, inside the band |
| StubModel.TiltSign | src/model_impl/stub_model.py:10 | 1 exactly for bullish, −1 exactly for bearish, 0 otherwise |
| StubModel.Tilt | src/model_impl/stub_model.py:10-11 | sign·0.05·conf below confidence 1, sign·0.05 from 1 on |
| StubModel.TiltBounded | src/model_impl/stub_model.py:10-11 | for conf ≥ 0 the tilt has the label's sign, is 0 for other labels, sign·0.05·conf below 1 and sign·0.05 from 1 on, so at most 0.05 in magnitude |
| StubModel.RawAllocation | src/model_impl/stub_model.py:9-15 | equities are max(lo, min(hi, base + tilt)): the target when in the band, the nearer limit otherwise, lo when lo > hi; bonds 70% and cash 30% of the rest |
| StubModel.LinearKpis | src/model_impl/stub_model.py:17-19 | return = 0.06e + 0.03b + 0.02c, vol = 0.18e + 0.06b and drawdown = −0.8·vol; vol ≥ 0 and drawdown ≤ 0 for non-negative weights |
| StubModel.Recommend | src/model_impl/stub_model.py:8-28 | the allocation is the rounded raw allocation and sums to 1; the KPIs come from the rounded allocation; the seed is echoed |
| StubModel.RecommendWithinBand | src/model_impl/stub_model.py:12-16 | after rounding, equities stay in a band whose limits are on the grid |
| StubModel.RecommendKpiSigns | src/model_impl/stub_model.py:16-19 | for a valid band, vol ≥ 0 and drawdown ≤ 0 |
| StubModel.RecommendIgnoresProfileAndSeed | src/model_impl/stub_model.py:8-27 | the allocation and KPIs do not depend on the profile or the seed |
| StubModel.RecommendBearishExample | src/model_impl/stub_model.py:9-16 | moderate band, bearish at 0.9, gives 0.505/0.347/0.148 |
| RiskAlerts.RiskAlertsFromKpis | src/tools/risk_alerts.py:1-17 | count = [vol ≥ 0.12] + [eq > 0.70]; the volatility alert exists iff vol ≥ 0.12, comes first and is high iff vol ≥ 0.18; concentration exists iff eq > 0.70, comes last and is medium; missing keys read as 0 |
| RiskAlerts.ThresholdBoundaries | src/tools/risk_alerts.py:3-16 | vol 0.18 is high, 0.1799 is medium, 0.11999 gives nothing; eq 0.70 gives nothing, 0.701 fires; empty inputs give no alerts |
| S3Tool.TruthyLabel | src/tools/s3_tool.py:86-88 | a label counts only when the key is present and its value is non-empty |
| S3Tool.CalcAlerts | src/tools/s3_tool.py:47-101 | `AlertsFor` holds: the vol_spike alert exists iff vol ≥ 0.12, comes first and is high iff vol ≥ 0.18; sentiment_flip exists iff yesterday exists and both labels are present, non-empty and different; it comes last and is medium; at most 2 alerts |
| S3Tool.AlertsForUnique | src/tools/s3_tool.py:47-101 | the characterisation fixes the alert list: two lists meeting it are equal |
| S3Tool.FlipCases | src/tools/s3_tool.py:84-98 | no yesterday, equal labels or an empty label give no flip; changed labels give a flip after the volatility alert |
| AnalyticsStub.Presets | src/tools/analytics_stub.py:9-13 | exactly three presets, each summing to 1 |
| AnalyticsStub.RiskKey | src/tools/analytics_stub.py:8 | a missing or empty label is "balanced"; others are lower-cased |
| AnalyticsStub.RunSimulation | src/tools/analytics_stub.py:7-17 | the preset for the key, the balanced preset for unknown keys; constant KPIs; source "stub" |
| AnalyticsStub.PresetEquityIncreasing | src/tools/analytics_stub.py:9-13 | equity rises strictly from conservative to balanced to aggressive |
| AnalyticsStub.RunSimulationModerateIsBalanced | src/tools/analytics_stub.py:11-14 | "moderate" gets the balanced preset, 0.55 equities |
| AnalyticsStub.RunSimulationMissingIsBalanced | src/tools/analytics_stub.py:8 | a missing label acts like "Balanced" |
| AnalyticsStub.RunSimulationUpperCase | src/tools/analytics_stub.py:8-14 | "AGGRESSIVE" finds the aggressive preset |
| AnalyticsStub.RunSimulationOnlyReadsRisk | src/tools/analytics_stub.py:7-17 | requests with the same risk label get the same result |
| Pipeline.PyPrefix | src/pipeline.py:127 | `words[:k]` is a prefix of length min(k, n) for k ≥ 0 and max(0, n + k) for negative k |
| Pipeline.CapWords | src/pipeline.py:111-127 | a non-string gives ""; a text that fits is stripped; otherwise the first max_words words joined by spaces, then "…" |
| Pipeline.CapWordsWords | src/pipeline.py:124-127 | for max_words ≥ 1 the result has at most max_words words: all words when they fit, otherwise the first max_words with "…" on the last |
| Pipeline.CapWordsZero | src/pipeline.py:124-127 | a cap of 0 gives "…" for a text with a word and "" for one without |
| Pipeline.CapWordsIdempotent | src/pipeline.py:124-127 | capping twice equals capping once |
| Pipeline.MakeSimRequest | src/pipeline.py:166-183 | risk and horizon are echoed; the seed, 42 by default, goes under demo_seed |
| Pipeline.ResultAllocation | src/pipeline.py:76 | proposed_allocation when present, otherwise allocation |
| Pipeline.PipelineAllocationIsPreset | src/pipeline.py:57 | through the preset simulator the allocation is the preset and sums to 1; balanced gives 0.55/0.40/0.05 |
| Text.Words | src/pipeline.py:124 | the split gives non-empty words without whitespace |
| Text.WordsStrip | src/pipeline.py:124-126 | stripping keeps the words |
| Text.LStrip | src/pipeline.py:126 | a suffix of the text that does not start with whitespace |
| Text.RStrip | src/pipeline.py:127 | a prefix of the text that does not end with whitespace, everything after it being whitespace |
| Text.Strip | src/pipeline.py:126 | the result has no whitespace at either end and is the slice of the text that starts where the leading whitespace ends |
| Text.LStripRemovesSpace | src/pipeline.py:126 | what the left strip removes is all whitespace |
| Text.Join | src/pipeline.py:127 | "" for no words; the first word leads and the last word ends the joined text |
| Text.WordsJoinSuffix | src/pipeline.py:127 | splitting joined words with a suffix glued on gives the words back, the suffix on the last one |
| Text.Lower | src/agent_core.py:48 | same length, each ASCII capital lowered and every other character kept |
| Text.LowerIdempotent | src/agent_core.py:48 | lower-casing twice is lower-casing once |
| Text.Contains | src/agent_core.py:51 | a prefix is contained; a string longer than s is not |
| Text.ContainsSpec | src/agent_core.py:51 | `k in s` holds iff k occurs at some position of s |
| Text.NatToStringRoundTrip | src/agent_io.py:144 | reading back a rendered index gives the index |
| AgentCore.MessageText | src/agent_core.py:48 | a missing message or text gives ""; a present text is lower-cased |
| AgentCore.AnyIn | src/agent_core.py:51 | true iff some keyword occurs in the text |
| AgentCore.PlanFor | src/agent_core.py:79-84 | a tool call iff the lower-cased text contains http, fetch, latest, price, news or market; then the tool is http_fetch, otherwise there is none |
| AgentCore.Handle | src/agent_core.py:48-66 | pipeline iff a portfolio keyword occurs; a tool-call envelope (status "tool_call", http_fetch, the plan's trace) iff none does and the planner asks for a tool; the model otherwise |
| AgentCore.MissingMessageNoTool | src/agent_core.py:79 | a missing message or text plans no tool and goes to the model |
| AgentCore.RoutingIgnoresCase | src/agent_core.py:48 | routing is the same for a text and its lower-cased form |
| AgentCore.PortfolioBeatsMarketData | src/agent_core.py:50-52 | "Market PORTFOLIO" goes to the pipeline |
| AgentCore.PlanExampleWithTool | src/agent_core.py:80-83 | "latest market news please" plans the fetch |
| AgentCore.PlanExampleWithoutTool | src/agent_core.py:84 | "hello there" plans no tool |
| AgentIo.MakeOkMessage | src/agent_io.py:113-118 | role "assistant", content unchanged |
| AgentIo.MakeUserMessage | src/agent_io.py:121-126 | role "user", content unchanged |
| AgentIo.SegmentText | src/agent_io.py:144 | "[i]" for an index, ".name" for a key |
| AgentIo.SegmentsText | src/agent_io.py:144 | "" for no segments; otherwise it starts with the first segment's text, so with '.' or '[' |
| AgentIo.RenderPath | src/agent_io.py:144 | starts with "$"; an empty path is "$" |
| AgentIo.RenderPathAppend | src/agent_io.py:144 | appending a segment extends the rendering by exactly that segment's text |
| AgentIo.ErrorToString | src/agent_io.py:142-146 | "<message> at $…" for a validation error; "<TypeName>: <text>" otherwise |
| AgentIo.RenderPathExample | src/agent_io.py:144 | key user then index 3 renders as "$.user[3]" |
| App.AgeDigitsRange | src/api/app.bak.py:102-104 | every capture of the age group reads as 16 to 100 |
| App.HorizonDigitsRange | src/api/app.bak.py:113-115 | every capture of the horizon group reads as 0–9 or 20–39 |
| App.CapturedAge | src/api/app.bak.py:103-104 | present iff captured; the decimal value of the digits, in [16, 100] |
| App.CapturedHorizon | src/api/app.bak.py:114-115 | present iff captured; the decimal value of the digits, 0–9 or 20–39 |
| App.ParseOverrides | src/api/app.bak.py:99-117 | age and horizon are set iff their pattern captures, to the decimal value of the capture (`int(m.group(1))`), an age in [16, 100] and a horizon in 0–9 or 20–39; risk precedence is aggressive, then moderate, then conservative, and no match leaves risk unset |
| App.ParseOverridesIgnoresCase | src/api/app.bak.py:99 | the parse depends only on the lower-cased message |
| App.ClampInt | src/api/app.bak.py:155-156 | max(lo, min(hi, x)): in [lo, hi], x when in range, the nearer limit otherwise, lo when lo > hi |
| App.SafeDefaults | src/api/app.bak.py:124-158 | risk is one of the three labels (an allowed label once lower-cased is kept; anything else is moderate); age in [16, 100] and horizon in [1, 40]; missing means 30 and 5; in-range values are kept; an age below 16 is 16 and above 100 is 100, a horizon below 1 is 1 and above 40 is 40 |
| App.SafeDefaultsIdempotent | src/api/app.bak.py:124-158 | normalising a normalised profile changes nothing |
| App.SafeDefaultsRiskExamples | src/api/app.bak.py:149-152 | "balanced" and "yolo" become moderate; "Aggressive" becomes aggressive |
| App.Merge | src/api/app.bak.py:227-234 | each override key wins over the form field, and an absent key keeps the form's value (none without a form) |
| App.MergeFullOverridesIgnoreForm | src/api/app.bak.py:227-235 | when the message sets all three keys, the form has no effect |
| App.MergeNoOverrides | src/api/app.bak.py:227-235 | with no overrides the form decides; with no form either, the profile is 30/moderate/5 |
| App.CheckAllocationKeys | src/api/app.bak.py:261-265 | success iff all three keys are present, with the three weights; otherwise a 400 naming the first missing key |
| App.KpisMap | src/api/app.bak.py:268-273 | exactly the three KPI keys, each holding the model's value |
| App.Chat | src/api/app.bak.py:226-309 | never fails; the profile is the normalised merge; the band is the profile's; allocation and KPIs are the stub model's for that profile, band, sentiment and seed, so the allocation sums to 1 with equities in the band, vol ≥ 0 and drawdown ≤ 0; the alerts are exactly those `AlertsFor` gives for those KPIs and labels (no volatility alert below 0.12, at most 2); today's sentiment, the seed and defaults_used are echoed |

## Left out

- Monte Carlo KPIs (`_mc_kpis`) and the `math.sqrt` in `_mix_mu_sigma`: these need random draws and floating-point transcendental functions. `ProperModel.Recommend` gives the mean and the floored variance instead of the sampled KPIs.
- Binary floats: weights are exact reals, so `Decimal(float)` conversion, the 10-digit Decimal context, the `float()` conversion back, and Python's `round(x, 4)` / `round(x, 5)` on KPIs and diagnostics are not modelled.
- Evidence text: the `f"{vol:.1%}"` / `f"{vol:.2f}"` and `f"Sentiment {a} → {b}"` strings are modelled structurally (`Evidence` values), not as formatted text.
- Dict key sets: "exactly the keys equities, bonds and cash" holds by construction, because outputs are datatypes, not dictionaries.
- Regular expressions of `parse_overrides`: the searches are abstract `Matchers` fields. The shapes of the captures are fixed by subset types.
- App.ParseOverrides: does not model the regex engine, so the exact patterns (word boundaries, `\s*`, the "years old" suffix) are assumptions on the matcher, not proved.
- Lower-casing: `Text.Lower` maps ASCII letters only. Non-ASCII case mapping is not modelled.
- Digits: digit classes are ASCII `0`–`9`.
- The LLM calls: `_reason`, `_converse` and `_explain_result`.
- JSON-schema validation and `load_schema`: library code.
- Lambda, HTTP, UI and CLI entry points; AWS I/O; logging and tracing: outside the allocation rules.
- Run ids, latency, `hash_prompt`, the advice summary text and writing run files to disk.
- Reading sentiment files (`load_sentiment_today`, `_yesterday_sentiment`): today's sentiment is a parameter of `App.Chat`, and yesterday's record is an `Option` parameter of `S3Tool.CalcAlerts`.
- The `force_high_vol` retry: the function called has no such parameter, so `App.Chat` takes the two-argument fallback and the flag has no effect.
- ProperModel.SentimentLabel: a label key present with value None is read as "neutral". It allocates the same as the code, but its diagnostics echo "neutral" rather than None.
- ProperModel.BullishTargetMonotone: proved only for non-zero confidences, because a confidence of 0 is read as 0.5 (see `ProperModel.BullishZeroConfidenceTiltsMore`).
- ProperModel.RawAllocation: bonds and cash are non-negative only when equities ≤ 1, which every band of the table ensures.
- StubModel.TiltBounded: assumes a non-negative confidence. A negative confidence would give a tilt against the label's direction.
- StubModel.Market: both market keys are required. A missing key, which raises `KeyError` in the code, is not modelled.
- AgentCore.MessageText: a `text` key present with value None (an `AttributeError` on `.lower()`) is not modelled; `None` stands for a missing key.
- AgentIo.ErrorToString: path indices are natural numbers, and `str(err)` of other exceptions is given as text.
- Pipeline.CapWordsWords: stated for max_words ≥ 1 (the caller uses 180). A cap of 0 is covered by `Pipeline.CapWordsZero`: "…" when the text has a word, "" otherwise.
- The `dict` input forms: `safe_defaults` accepts an object or a dict. The model takes the merged fields record the chat handler passes.
