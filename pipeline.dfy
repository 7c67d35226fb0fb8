/** The deterministic parts of src/pipeline.py: the word cap applied to advice
    text, the request builder and the choice of allocation key. */
module Pipeline {
  import opened Wrappers
  import opened Types
  import opened Text
  import AnalyticsStub

  const Ellipsis: string := "\U{2026}"

  /** Python's `ws[:k]`: a prefix of ws, of length min(k, |ws|) for k >= 0 and
      max(0, |ws| + k) for negative k, which counts from the end. */
  function PyPrefix<T>(ws: seq<T>, k: int): (r: seq<T>)
    ensures r <= ws
    ensures 0 <= k ==> |r| == (if k < |ws| then k else |ws|)
    ensures k < 0 ==> |r| == (if |ws| + k < 0 then 0 else |ws| + k)
  {
    if 0 <= k then ws[..if k < |ws| then k else |ws|]
    else ws[..if |ws| + k < 0 then 0 else |ws| + k]
  }

  /** _cap_words; `None` stands for a value that is not a string. */
  function CapWords(text: Option<string>, maxWords: int): (r: string)
    ensures text.None? ==> r == ""
    ensures text.Some? && |Words(text.value)| <= maxWords ==> r == Strip(text.value)
    ensures text.Some? && |Words(text.value)| > maxWords >= 0
            ==> r == Join(Words(text.value)[..maxWords]) + Ellipsis
  {
    match text
    case None => ""
    case Some(t) =>
      var ws := Words(t);
      if |ws| <= maxWords then Strip(t)
      else
        var kept := PyPrefix(ws, maxWords);
        assert 0 <= maxWords ==> kept == ws[..maxWords];
        // the joined words end in a non-space, so rstrip leaves them alone
        assert ValidWords(kept);
        JoinEnds(kept);
        RStrip(Join(kept)) + Ellipsis
  }

  /** The words of a capped text: all of them when they fit; otherwise the first
      maxWords, the last carrying the ellipsis. */
  lemma CapWordsWords(t: string, maxWords: int)
    requires maxWords >= 1
    ensures |Words(t)| <= maxWords ==> Words(CapWords(Some(t), maxWords)) == Words(t)
    ensures |Words(t)| > maxWords ==>
      Words(CapWords(Some(t), maxWords))
        == Words(t)[..maxWords - 1] + [Words(t)[maxWords - 1] + Ellipsis]
    ensures |Words(CapWords(Some(t), maxWords))| <= maxWords
  {
    if |Words(t)| <= maxWords {
      WordsStrip(t);
    } else {
      CapWordsOverflow(Words(t), maxWords);
    }
  }

  /** The truncating branch of `CapWordsWords`, on the split words. */
  lemma CapWordsOverflow(ws: seq<string>, maxWords: int)
    requires ValidWords(ws) && 1 <= maxWords < |ws|
    ensures Words(Join(ws[..maxWords]) + Ellipsis)
              == ws[..maxWords - 1] + [ws[maxWords - 1] + Ellipsis]
  {
    var kept := ws[..maxWords];
    assert ValidWords(kept);
    WordsJoinSuffix(kept, Ellipsis);
    assert kept[..maxWords - 1] == ws[..maxWords - 1];
  }

  /** With a cap of zero, a text with any word becomes the bare ellipsis, and a text
      without words becomes empty. */
  lemma CapWordsZero(t: string)
    ensures |Words(t)| > 0 ==> CapWords(Some(t), 0) == Ellipsis
    ensures |Words(t)| == 0 ==> CapWords(Some(t), 0) == ""
  {
    WordsStrip(t);
  }

  /** Capping twice equals capping once. */
  lemma CapWordsIdempotent(t: string, maxWords: int)
    requires maxWords >= 0
    ensures CapWords(Some(CapWords(Some(t), maxWords)), maxWords) == CapWords(Some(t), maxWords)
  {
    var ws := Words(t);
    var r := CapWords(Some(t), maxWords);
    if |ws| <= maxWords {
      WordsStrip(t);
      StripOfTrimmed(r);
    } else if maxWords == 0 {
      assert r == Ellipsis;
      WordsOfToken(Ellipsis);
    } else {
      CapWordsWords(t, maxWords);
      TruncatedTrimmed(ws, maxWords);
      StripOfTrimmed(r);
    }
  }

  /** A truncated text has nothing to strip: it starts with the first word and ends
      with the ellipsis. */
  lemma TruncatedTrimmed(ws: seq<string>, maxWords: int)
    requires ValidWords(ws) && 1 <= maxWords < |ws|
    ensures Trimmed(Join(ws[..maxWords]) + Ellipsis)
  {
    var kept := ws[..maxWords];
    assert ValidWords(kept);
    JoinEnds(kept);
    var r := Join(kept) + Ellipsis;
    assert r[0] == kept[0][0];
    assert r[|r| - 1] == '\U{2026}';
  }

  /** _make_sim_request; the seed defaults to 42. */
  function MakeSimRequest(riskProfile: string, horizonYears: int, seed: Option<int>): (r: AnalyticsStub.SimRequest)
    ensures r.riskProfile == Some(riskProfile) && r.horizonYears == Some(horizonYears)
    ensures r.demoSeed == Some(seed.GetOr(42))
  {
    AnalyticsStub.SimRequest(Some(riskProfile), Some(horizonYears), Some(seed.GetOr(42)))
  }

  /** `proposed_allocation`, falling back to `allocation` when it is absent. */
  function ResultAllocation(r: AnalyticsStub.SimResult): (a: Option<Allocation>)
    ensures r.proposedAllocation.Some? ==> a == r.proposedAllocation
    ensures r.proposedAllocation.None? ==> a == r.allocation
  {
    if r.proposedAllocation.Some? then r.proposedAllocation else r.allocation
  }

  /** Through the preset simulator, the pipeline's allocation is the preset, and a
      balanced request gets 0.55 equities. */
  lemma PipelineAllocationIsPreset(riskProfile: string, horizonYears: int, seed: Option<int>)
    ensures var r := AnalyticsStub.RunSimulation(MakeSimRequest(riskProfile, horizonYears, seed));
            ResultAllocation(r) == r.proposedAllocation && ResultAllocation(r).value.Total() == 1.0
    ensures ResultAllocation(AnalyticsStub.RunSimulation(MakeSimRequest("balanced", horizonYears, seed)))
            == Some(Allocation(0.55, 0.40, 0.05))
  {
    assert Lower("balanced") == "balanced";
  }
}
