/** `SessionWizard`: the three-step intake form (name, description,
    audience), its per-step validity, the example filler and the submit
    guard. */
module Wizard {
  import opened Util
  import opened Text
  import opened Scoring
  import opened Store

  /** The wizard's state: the step shown (1 to 3), the form, and whether a
      submission is in flight. */
  datatype Wizard = Wizard(step: int, form: Idea, submitting: bool)

  const Blank: Idea := Idea("", "", "")

  function Start(): (w: Wizard)
    ensures w.step == 1 && w.form == Blank && !w.submitting
  {
    Wizard(1, Blank, false)
  }

  /** `handleNext`. */
  function Next(w: Wizard): (r: Wizard)
    ensures w.step < 3 ==> r.step == w.step + 1
    ensures w.step >= 3 ==> r.step == w.step
    ensures r.form == w.form && r.submitting == w.submitting
  {
    if w.step < 3 then w.(step := w.step + 1) else w
  }

  /** `handleBack`. */
  function Back(w: Wizard): (r: Wizard)
    ensures w.step > 1 ==> r.step == w.step - 1
    ensures w.step <= 1 ==> r.step == w.step
    ensures r.form == w.form && r.submitting == w.submitting
  {
    if w.step > 1 then w.(step := w.step - 1) else w
  }

  /** Next and Back keep the step within 1..3. */
  lemma StepStaysInRange(w: Wizard)
    requires 1 <= w.step <= 3
    ensures 1 <= Next(w).step <= 3 && 1 <= Back(w).step <= 3
  {
  }

  /** Below the last step, Next then Back returns to the same step; above
      the first, Back then Next does. */
  lemma NextBackRoundTrip(w: Wizard)
    ensures 1 <= w.step < 3 ==> Back(Next(w)) == w
    ensures 1 < w.step <= 3 ==> Next(Back(w)) == w
  {
  }

  /** What the user can do to the wizard between mount and submission:
      the two navigation buttons, the example filler, and typing into the
      form (`handleChange`). */
  datatype WizardEvent = NextClicked | BackClicked | ExampleFilled | Edited(form: Idea)

  function WizardStep(w: Wizard, e: WizardEvent): Wizard
  {
    match e
    case NextClicked => Next(w)
    case BackClicked => Back(w)
    case ExampleFilled => FillExample(w)
    case Edited(form) => w.(form := form)
  }

  function RunWizard(w: Wizard, events: seq<WizardEvent>): Wizard
    decreases |events|
  {
    if |events| == 0 then w else RunWizard(WizardStep(w, events[0]), events[1..])
  }

  /** No sequence of clicks and edits moves the step out of 1..3 or sets
      the in-flight flag. */
  lemma {:induction false} RunStaysInRange(w: Wizard, events: seq<WizardEvent>)
    requires 1 <= w.step <= 3
    ensures 1 <= RunWizard(w, events).step <= 3
    ensures RunWizard(w, events).submitting == w.submitting
    decreases |events|
  {
    if |events| > 0 {
      var w' := WizardStep(w, events[0]);
      assert 1 <= w'.step <= 3 && w'.submitting == w.submitting;
      RunStaysInRange(w', events[1..]);
    }
  }

  /** A freshly mounted wizard shows a disabled Previous button and a
      disabled Next button. */
  lemma StartButtons()
    ensures ButtonsFor(Start()) == Buttons(true, NextStep(true))
  {
    TrimEmptyIffBlank(Blank.name);
  }

  /** Whatever the user does on a freshly mounted wizard before submitting
      keeps it on one of the three steps and idle. */
  lemma StartedWizardStaysInRange(events: seq<WizardEvent>)
    ensures 1 <= RunWizard(Start(), events).step <= 3
    ensures !RunWizard(Start(), events).submitting
  {
    RunStaysInRange(Start(), events);
  }

  /** `isStepValid`: a name, a description of more than 20 characters, an
      audience of more than 10, all counted after trimming. */
  predicate StepValid(w: Wizard)
  {
    if w.step == 1 then |Trim(w.form.name)| > 0
    else if w.step == 2 then |Trim(w.form.description)| > 20
    else if w.step == 3 then |Trim(w.form.audience)| > 10
    else false
  }

  /** Validity looks only at the field of the current step. */
  lemma ValidityReadsOneField(w: Wizard, name: string, description: string, audience: string)
    ensures w.step == 1 ==> (StepValid(w) <==> StepValid(w.(form := w.form.(description := description, audience := audience))))
    ensures w.step == 2 ==> (StepValid(w) <==> StepValid(w.(form := w.form.(name := name, audience := audience))))
    ensures w.step == 3 ==> (StepValid(w) <==> StepValid(w.(form := w.form.(name := name, description := description))))
    ensures !(1 <= w.step <= 3) ==> !StepValid(w)
  {
  }

  /** The buttons under the form. */
  datatype Buttons = Buttons(previousDisabled: bool, primary: Primary)
  datatype Primary = NextStep(disabled: bool) | StartAnalysis(disabled: bool)

  function ButtonsFor(w: Wizard): (b: Buttons)
    ensures b.previousDisabled <==> w.step == 1
    ensures w.step < 3 <==> b.primary.NextStep?
    ensures b.primary.NextStep? ==> (b.primary.disabled <==> !StepValid(w))
    ensures b.primary.StartAnalysis? ==> (b.primary.disabled <==> !StepValid(w) || w.submitting)
  {
    Buttons(w.step == 1, if w.step < 3 then NextStep(!StepValid(w)) else StartAnalysis(!StepValid(w) || w.submitting))
  }

  /** An enabled Start Analysis button means the audience step is valid. */
  lemma EnabledSubmitMeansValidAudience(w: Wizard)
    requires 1 <= w.step <= 3
    requires ButtonsFor(w).primary.StartAnalysis? && !ButtonsFor(w).primary.disabled
    ensures w.step == 3 && |Trim(w.form.audience)| > 10 && !w.submitting
  {
  }

  /** `EXAMPLE_DATA`; the literals are split at a few word boundaries so
      that the first and last characters are easy to read off. */
  const ExampleData: Idea := Idea(
    "TaskFlow Pro",
    "A smart " + "task management app that automatically prioritizes your to-do list based on deadlines, "
    + "energy levels, and meeting schedules. It integrates with your calendar and uses AI to suggest optimal work "
    + "blocks.",
    "Remote " + "workers and freelancers who juggle multiple projects and struggle with "
    + "prioritization")

  /** `fillExample`: all three fields replaced; step and flag kept. */
  function FillExample(w: Wizard): (r: Wizard)
    ensures r.form == ExampleData && r.step == w.step && r.submitting == w.submitting
  {
    w.(form := ExampleData)
  }

  /** A string with a visible character at each end is its own trim, so its
      trimmed length is its length. */
  lemma TrimmedLength(s: string, first: char, last: char)
    requires |s| > 0 && s[0] == first && s[|s| - 1] == last
    requires !IsSpace(first) && !IsSpace(last)
    ensures |Trim(s)| == |s|
  {
    TrimUnchanged(s);
  }

  /** Each example field has a visible character at both ends, so trimming
      keeps all of it. */
  lemma ExampleNameTrimmed()
    ensures |Trim(ExampleData.name)| == 12
  {
    TrimmedLength(ExampleData.name, 'T', 'o');
  }

  lemma ExampleDescriptionTrimmed()
    ensures |Trim(ExampleData.description)| > 20
  {
    var d := ExampleData.description;
    assert |d| == 209;
    assert d[0] == "A smart "[0] == 'A';
    assert d[208] == "blocks."[6] == '.';
    TrimmedLength(d, 'A', '.');
  }

  lemma ExampleAudienceTrimmed()
    ensures |Trim(ExampleData.audience)| > 10
  {
    var a := ExampleData.audience;
    assert |a| == 92;
    assert a[0] == "Remote "[0] == 'R';
    assert a[91] == "prioritization"[13] == 'n';
    TrimmedLength(a, 'R', 'n');
  }

  /** The example passes every step's check. */
  lemma ExamplePassesEveryStep(w: Wizard)
    requires 1 <= w.step <= 3
    ensures StepValid(FillExample(w))
  {
    ExampleNameTrimmed();
    ExampleDescriptionTrimmed();
    ExampleAudienceTrimmed();
  }

  /** `handleSubmit`: creates the session from the form exactly as typed
      and clears the in-flight flag whether creation succeeds or fails; on
      success the new session is handed to `onComplete`. */
  function Submit(w: Wizard, user: Option<string>, id: nat, now: int, rejected: bool): (r: (Wizard, Option<SessionRow>))
    ensures !r.0.submitting && r.0.step == w.step && r.0.form == w.form
    ensures r.1.Some? <==> user.Some? && !rejected
    ensures r.1.Some? ==> r.1.value.idea == w.form && r.1.value.userId == user.value
  {
    match CreateSession(user, w.form, id, now, rejected)
    case Ok(row) => (w.(submitting := false), Some(row))
    case Err(_) => (w.(submitting := false), None)
  }
}
