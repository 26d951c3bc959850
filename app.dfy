/** The interactive layer's result cache: a single-slot, process-wide map
    written by the analysis and read by the two toggle buttons, and the
    view tag ("none", "bull" or "bear") that the buttons flip. */
module App {
  import opened Wrappers
  import opened Text
  import opened Models
  import opened Formatting

  datatype View = NoCase | BullShown | BearShown

  /** The tag the interface stores for each view. */
  function ViewTag(v: View): string
  {
    match v
    case NoCase => "none"
    case BullShown => "bull"
    case BearShown => "bear"
  }

  /** The three tags are distinct, so the source's string test
      `current_view == "bull"` (or `"bear"`) is exactly a test of the view. */
  lemma ViewTagsDistinguishViews(v: View, w: View)
    ensures ViewTag(v) == ViewTag(w) <==> v == w
    ensures ViewTag(v) == "bull" <==> v == BullShown
    ensures ViewTag(v) == "bear" <==> v == BearShown
    ensures ViewTag(v) == "none" <==> v == NoCase
  {
    assert "bull"[1] != "bear"[1] && "bull"[0] != "none"[0] && "bear"[0] != "none"[0];
  }

  /** The values the cache holds, one kind per key. */
  datatype CacheEntry =
    | CachedBull(bull: BullCase)
    | CachedBear(bear: BearCase)
    | CachedDecision(decision: FinalDecision)
    | CachedVerdict(text: string)

  const BullKey: string := "bull_case"
  const BearKey: string := "bear_case"
  const DecisionKey: string := "final_decision"
  const VerdictKey: string := "verdict"

  const BlankNamePrompt: string := "Please enter a startup name."
  const NoAnalysisMessage: string := "Run an analysis first!"
  const CompleteStatus: string := "\U{2705} Analysis Complete!"

  lemma KeysDistinct()
    ensures BullKey != BearKey && BullKey != DecisionKey && BullKey != VerdictKey
    ensures BearKey != DecisionKey && BearKey != VerdictKey && DecisionKey != VerdictKey
  {
    assert BullKey[0] == 'b' && BearKey[0] == 'b' && BullKey[1] == 'u' && BearKey[1] == 'e';
    assert |DecisionKey| == 14 && |VerdictKey| == 7 && |BullKey| == 9 && |BearKey| == 9;
  }

  /** The last update the analysis streams: status, verdict, case details, view. */
  datatype Update = Update(status: string, verdict: string, caseDetails: string, view: View)

  /** What a toggle button returns: verdict, case details, new view. */
  datatype Panels = Panels(verdict: string, caseDetails: string, view: View)

  /** Which producer's output failed validation; the run then stops. */
  datatype AnalysisFailure =
    | BullFailed(error: ValidationError)
    | BearFailed(error: ValidationError)
    | CommitteeFailed(error: ValidationError)

  /** The cache is empty or holds all four entries of one completed run:
      valid records, and the verdict rendered from the cached decision. */
  ghost predicate ValidCache(m: map<string, CacheEntry>)
  {
    || m == map[]
    || (&& m.Keys == {BullKey, BearKey, DecisionKey, VerdictKey}
        && m[BullKey].CachedBull? && ValidBullCase(m[BullKey].bull)
        && m[BearKey].CachedBear? && ValidBearCase(m[BearKey].bear)
        && m[DecisionKey].CachedDecision? && ValidFinalDecision(m[DecisionKey].decision)
        && m[VerdictKey] == CachedVerdict(VerdictText(m[DecisionKey].decision)))
  }

  /** The four writes that end a completed analysis. */
  function CompletedCache(m: map<string, CacheEntry>, bull: BullCase, bear: BearCase,
                          decision: FinalDecision): map<string, CacheEntry>
  {
    m[BullKey := CachedBull(bull)][BearKey := CachedBear(bear)]
     [DecisionKey := CachedDecision(decision)][VerdictKey := CachedVerdict(VerdictText(decision))]
  }

  /** A completed run leaves a valid cache, whatever the cache held before. */
  lemma CompletedCacheValid(m: map<string, CacheEntry>, bull: BullCase, bear: BearCase,
                            decision: FinalDecision)
    requires ValidCache(m)
    requires ValidBullCase(bull) && ValidBearCase(bear) && ValidFinalDecision(decision)
    ensures ValidCache(CompletedCache(m, bull, bear, decision))
  {
    KeysDistinct();
    var c := CompletedCache(m, bull, bear, decision);
    assert c.Keys == m.Keys + {BullKey, BearKey, DecisionKey, VerdictKey};
  }

  class Analyzer {
    var analysisResults: map<string, CacheEntry>

    ghost predicate Valid()
      reads this
    {
      ValidCache(analysisResults)
    }

    constructor ()
      ensures Valid() && analysisResults == map[]
    {
      analysisResults := map[];
    }

    /** The end of analyze_startup, given what the three producers returned:
        a blank name only prompts; otherwise each output is validated in
        turn (bull, bear, then the committee, which runs only after both
        cases exist), and a completed run overwrites all four cache entries. */
    method AnalyzeStartup(startupName: string, bullOutput: BullCase, bearOutput: BearCase,
                          committeeOutput: FinalDecision)
      returns (r: Result<Update, AnalysisFailure>)
      requires Valid()
      modifies this
      ensures Valid()
      ensures AllSpace(startupName) ==>
        r == Ok(Update(BlankNamePrompt, "", "", NoCase)) && analysisResults == old(analysisResults)
      ensures !AllSpace(startupName) && !ValidBullCase(bullOutput) ==>
        r == Err(BullFailed(ValidateBullCase(bullOutput).error))
      ensures !AllSpace(startupName) && ValidBullCase(bullOutput) && !ValidBearCase(bearOutput) ==>
        r == Err(BearFailed(ValidateBearCase(bearOutput).error))
      ensures !AllSpace(startupName) && ValidBullCase(bullOutput) && ValidBearCase(bearOutput)
              && !ValidFinalDecision(committeeOutput) ==>
        r == Err(CommitteeFailed(ValidateFinalDecision(committeeOutput).error))
      ensures r.Err? ==> analysisResults == old(analysisResults)
      ensures !AllSpace(startupName) && ValidBullCase(bullOutput) && ValidBearCase(bearOutput)
              && ValidFinalDecision(committeeOutput) ==>
        && r == Ok(Update(CompleteStatus, VerdictText(committeeOutput), "", NoCase))
        && analysisResults == CompletedCache(old(analysisResults), bullOutput, bearOutput, committeeOutput)
    {
      StripEmptyIffBlank(startupName);
      if Strip(startupName) == [] {
        return Ok(Update(BlankNamePrompt, "", "", NoCase));
      }
      var bull := ValidateBullCase(bullOutput);
      if bull.Err? {
        return Err(BullFailed(bull.error));
      }
      var bear := ValidateBearCase(bearOutput);
      if bear.Err? {
        return Err(BearFailed(bear.error));
      }
      var decision := ValidateFinalDecision(committeeOutput);
      if decision.Err? {
        return Err(CommitteeFailed(decision.error));
      }
      var verdict := FormatVerdict(decision.value);
      analysisResults := analysisResults[BullKey := CachedBull(bull.value)];
      analysisResults := analysisResults[BearKey := CachedBear(bear.value)];
      analysisResults := analysisResults[DecisionKey := CachedDecision(decision.value)];
      analysisResults := analysisResults[VerdictKey := CachedVerdict(verdict)];
      CompletedCacheValid(old(analysisResults), bullOutput, bearOutput, committeeOutput);
      return Ok(Update(CompleteStatus, verdict, "", NoCase));
    }

    /** `analysis_results.get("verdict", "")`. */
    function CachedVerdictText(): string
      reads this
      requires Valid()
    {
      if VerdictKey in analysisResults then analysisResults[VerdictKey].text else ""
    }

    /** toggle_bull_case: without a cached bull case, a reminder; otherwise
        the cached verdict, with the bull case shown unless it already was. */
    function ToggleBullCase(currentView: View): (p: Panels)
      reads this
      requires Valid()
      ensures BullKey !in analysisResults ==> p == Panels("", NoAnalysisMessage, NoCase)
      ensures BullKey in analysisResults ==>
        p.verdict == VerdictText(analysisResults[DecisionKey].decision)
      ensures BullKey in analysisResults && currentView == BullShown ==>
        p.caseDetails == "" && p.view == NoCase
      ensures BullKey in analysisResults && currentView != BullShown ==>
        p.caseDetails == FormatBullCase(analysisResults[BullKey].bull) && p.view == BullShown
    {
      if BullKey !in analysisResults then Panels("", NoAnalysisMessage, NoCase)
      else if currentView == BullShown then Panels(CachedVerdictText(), "", NoCase)
      else Panels(CachedVerdictText(), FormatBullCase(analysisResults[BullKey].bull), BullShown)
    }

    /** toggle_bear_case, the mirror image of toggle_bull_case. */
    function ToggleBearCase(currentView: View): (p: Panels)
      reads this
      requires Valid()
      ensures BearKey !in analysisResults ==> p == Panels("", NoAnalysisMessage, NoCase)
      ensures BearKey in analysisResults ==>
        p.verdict == VerdictText(analysisResults[DecisionKey].decision)
      ensures BearKey in analysisResults && currentView == BearShown ==>
        p.caseDetails == "" && p.view == NoCase
      ensures BearKey in analysisResults && currentView != BearShown ==>
        p.caseDetails == FormatBearCase(analysisResults[BearKey].bear) && p.view == BearShown
    {
      if BearKey !in analysisResults then Panels("", NoAnalysisMessage, NoCase)
      else if currentView == BearShown then Panels(CachedVerdictText(), "", NoCase)
      else Panels(CachedVerdictText(), FormatBearCase(analysisResults[BearKey].bear), BearShown)
    }

    /** Pressing the same button twice from any view other than its own
        ends with no case shown. */
    lemma ToggleTwiceHides(v: View)
      requires Valid()
      ensures v != BullShown ==> ToggleBullCase(ToggleBullCase(v).view).view == NoCase
      ensures v != BearShown ==> ToggleBearCase(ToggleBearCase(v).view).view == NoCase
    {
    }

    /** After an analysis, pressing bull then bear shows the bear case, and
        the other order shows the bull case. */
    lemma ToggleOtherShows(v: View)
      requires Valid() && analysisResults != map[]
      ensures ToggleBearCase(ToggleBullCase(v).view).view == BearShown
      ensures ToggleBullCase(ToggleBearCase(v).view).view == BullShown
    {
    }

    /** Both buttons always show the same verdict panel: the cached verdict,
        or nothing before the first analysis. */
    lemma TogglesShowCachedVerdict(v: View)
      requires Valid()
      ensures ToggleBullCase(v).verdict == ToggleBearCase(v).verdict == CachedVerdictText()
    {
    }
  }
}
