/** The evidence panel (`EvidenceCheck`): a length gate on the trimmed
    evidence, the submit button's disabled rule, and the choice between the
    loading view and the form. */
module EvidenceForm {
  import opened Util
  import opened Text

  /** What `handleSubmit` hands to the submit callback: the text exactly as
      typed, and only when its trimmed length exceeds 20. */
  function SubmitCallback(evidence: string): (r: Option<string>)
    ensures r.Some? <==> |Trim(evidence)| > 20
    ensures r.Some? ==> r.value == evidence
  {
    if |Trim(evidence)| > 20 then Some(evidence) else None
  }

  /** The submit button is greyed out below 20 trimmed characters. */
  predicate ButtonDisabled(evidence: string)
  {
    |Trim(evidence)| < 20
  }

  /** The two rules disagree at exactly 20 trimmed characters: the button is
      live but pressing it does nothing. Everywhere else an enabled button
      submits. */
  lemma EnabledButtonSubmitsUnlessTwenty(evidence: string)
    ensures !ButtonDisabled(evidence) && SubmitCallback(evidence).None? <==> |Trim(evidence)| == 20
    ensures ButtonDisabled(evidence) ==> SubmitCallback(evidence).None?
  {
  }

  /** A concrete instance: twenty letters with a leading space. */
  lemma TwentyCharactersEnableButNeverSubmit()
    ensures !ButtonDisabled(" abcdefghijklmnopqrst")
    ensures SubmitCallback(" abcdefghijklmnopqrst").None?
  {
    var s := " abcdefghijklmnopqrst";
    var t := s[1..];
    assert |t| == 20 && !IsSpace(t[0]) && !IsSpace(t[19]);
    TrimUnchanged(t);
    assert Trim(s) == t by {
      assert TrimStart(s) == t by {
        assert IsSpace(s[0]);
        assert s[1..] == t;
      }
      assert TrimEnd(t) == t by {
        assert !IsSpace(t[|t| - 1]);
      }
    }
  }

  /** What the panel renders. */
  datatype Panel = Analyzing | Form(successBanner: bool, button: bool)

  /** While the analysis runs only the loading view shows; otherwise the
      form, with the success banner exactly when evidence exists and the
      button enabled regardless of it. */
  function PanelFor(isLoading: bool, hasEvidence: bool, evidence: string): (p: Panel)
    ensures isLoading <==> p == Analyzing
    ensures p.Form? ==> (p.successBanner <==> hasEvidence)
    ensures p.Form? ==> (p.button <==> !ButtonDisabled(evidence))
  {
    if isLoading then Analyzing else Form(hasEvidence, !ButtonDisabled(evidence))
  }

  /** Evidence existing never closes the form: the same text is as
      submittable after a first batch as before it. */
  lemma FormStaysOpenAfterEvidence(evidence: string)
    ensures PanelFor(false, true, evidence).button == PanelFor(false, false, evidence).button
  {
  }
}
