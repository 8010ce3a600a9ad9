/** `BoardView`: which view the board card shows, the previous score looked
    up for each advisor, the score badge colour and the radar chart label. */
module BoardView {
  import opened Util
  import opened Text
  import opened Scoring
  import opened Store

  /** The advisor a stored `advisor_type` names, if any. */
  function AdvisorOf(advisorType: string): (r: Option<Advisor>)
    ensures r.Some? ==> AdvisorName(r.value) == advisorType
    ensures r.None? ==> forall a: Advisor :: AdvisorName(a) != advisorType
  {
    if advisorType == "operator" then Some(Operator)
    else if advisorType == "growth" then Some(Growth)
    else if advisorType == "finance" then Some(Finance)
    else if advisorType == "product" then Some(Product)
    else if advisorType == "skeptic" then Some(Skeptic)
    else None
  }

  lemma AdvisorOfName(a: Advisor)
    ensures AdvisorOf(AdvisorName(a)) == Some(a)
  {
  }

  /** The role part of each card title. */
  function Role(a: Advisor): string
  {
    match a
    case Operator => "Operator"
    case Growth => "Growth Lead"
    case Finance => "Finance Expert"
    case Product => "Product Guru"
    case Skeptic => "Skeptic"
  }

  /** The card title of each known `advisor_type`: "The Operator" and so
      on. */
  function AdvisorTitle(advisorType: string): (r: Option<string>)
    ensures r.Some? <==> exists a: Advisor :: AdvisorName(a) == advisorType
  {
    match AdvisorOf(advisorType)
    case None => None
    case Some(a) => Some("The " + Role(a))
  }

  /** The radar label: the title with its first "The " removed, or the raw
      type when the type is unknown (or the label would be empty). */
  function RadarLabel(advisorType: string): string
  {
    match AdvisorTitle(advisorType)
    case None => advisorType
    case Some(title) =>
      var shortTitle := Replace(title, "The ", "");
      if |shortTitle| == 0 then advisorType else shortTitle
  }

  /** Removing a leading "The " from a title. */
  lemma DropLeadingThe(rest: string)
    ensures Replace("The " + rest, "The ", "") == rest
  {
    var s := "The " + rest;
    assert s[0..4] == "The ";
    assert OccursAt(s, "The ", 0);
    ReplaceFirst(s, "The ", "", 0);
    assert s[4..] == rest;
  }

  /** Every advisor's label is its title without the article; an unknown
      type is labelled by itself. */
  lemma RadarLabels(a: Advisor, advisorType: string)
    ensures RadarLabel(AdvisorName(a)) == Role(a)
    ensures AdvisorTitle(advisorType).None? ==> RadarLabel(advisorType) == advisorType
  {
    AdvisorOfName(a);
    DropLeadingThe(Role(a));
  }

  /** What the board card renders. */
  datatype Mode = Loading | EmptyPrompt | Board

  /** Loading first; then the call-to-action when there is no feedback and
      a handler was supplied; else the board. */
  function ModeFor(isLoading: bool, feedbackCount: nat, hasHandler: bool): (m: Mode)
    ensures isLoading ==> m == Loading
    ensures m == EmptyPrompt <==> !isLoading && feedbackCount == 0 && hasHandler
    ensures m == Board <==> !isLoading && (feedbackCount > 0 || !hasHandler)
  {
    if isLoading then Loading
    else if feedbackCount == 0 && hasHandler then EmptyPrompt
    else Board
  }

  /** The result of `getOldScore`: `null` when old scores are off or there
      are none, `undefined` when no row matches. */
  datatype OldScore = NullScore | Undefined | Score(value: int)

  /** Position of the first row of the given type. */
  function FindType(rows: seq<FeedbackRow>, advisorType: string): (r: Option<nat>)
    ensures r.Some? ==> r.value < |rows| && rows[r.value].advisorType == advisorType
    ensures r.Some? ==> forall j :: 0 <= j < r.value ==> rows[j].advisorType != advisorType
    ensures r.None? <==> forall j :: 0 <= j < |rows| ==> rows[j].advisorType != advisorType
    decreases |rows|
  {
    if |rows| == 0 then None
    else if rows[0].advisorType == advisorType then Some(0)
    else
      match FindType(rows[1..], advisorType)
      case None => None
      case Some(k) => Some(k + 1)
  }

  function GetOldScore(showOldScores: bool, oldFeedback: seq<FeedbackRow>, advisorType: string): (r: OldScore)
    ensures !showOldScores || |oldFeedback| == 0 <==> r == NullScore
    ensures r == Undefined <==>
              showOldScores && |oldFeedback| > 0 && forall j :: 0 <= j < |oldFeedback| ==> oldFeedback[j].advisorType != advisorType
    ensures r.Score? ==> exists i :: 0 <= i < |oldFeedback| && oldFeedback[i].advisorType == advisorType
                                    && r.value == oldFeedback[i].score
                                    && forall j :: 0 <= j < i ==> oldFeedback[j].advisorType != advisorType
  {
    if !showOldScores || |oldFeedback| == 0 then NullScore
    else
      match FindType(oldFeedback, advisorType)
      case None => Undefined
      case Some(i) => Score(oldFeedback[i].score)
  }

  /** The old score is printed only when it is a number and old scores are
      on. */
  predicate ShowsOldScore(showOldScores: bool, previous: OldScore)
  {
    previous != NullScore && previous != Undefined && showOldScores
  }

  /** A printed old score is always the first matching row's score. */
  lemma PrintedOldScoreIsFirstMatch(showOldScores: bool, oldFeedback: seq<FeedbackRow>, i: nat)
    requires i < |oldFeedback|
    requires forall j :: 0 <= j < i ==> oldFeedback[j].advisorType != oldFeedback[i].advisorType
    ensures var o := GetOldScore(showOldScores, oldFeedback, oldFeedback[i].advisorType);
            ShowsOldScore(showOldScores, o) <==> showOldScores
    ensures showOldScores ==> GetOldScore(showOldScores, oldFeedback, oldFeedback[i].advisorType) == Score(oldFeedback[i].score)
  {
    if showOldScores {
      var r := FindType(oldFeedback, oldFeedback[i].advisorType);
      assert r.Some?;
      if r.value < i {
        assert false;
      } else if r.value > i {
        assert false;
      }
    }
  }

  datatype Band = Green | Amber | Red

  /** The badge colour: 8.0 and up green, 6.0 and up amber, else red. */
  function BandOf(score: int): (b: Band)
    ensures b == Green <==> score >= 80
    ensures b == Amber <==> 60 <= score < 80
    ensures b == Red <==> score < 60
  {
    if score >= 80 then Green else if score >= 60 then Amber else Red
  }

  /** The badge uses the board verdict's thresholds: an average shown in
      green is exactly one the verdict calls strong. */
  lemma BandMatchesVerdict(score: int)
    ensures BandOf(score) == Green <==> BoardVerdictFor(score) == StrongPotential
    ensures BandOf(score) == Amber <==> BoardVerdictFor(score) == Promising
    ensures BandOf(score) == Red <==> BoardVerdictFor(score) == NeedsRefinement
  {
  }

  /** The advisor cards: rows of an unknown type are skipped. */
  function Cards(feedback: seq<FeedbackRow>): (r: seq<FeedbackRow>)
    ensures |r| <= |feedback|
    ensures forall i :: 0 <= i < |r| ==> AdvisorTitle(r[i].advisorType).Some? && r[i] in feedback
    ensures forall i :: 0 <= i < |feedback| && AdvisorTitle(feedback[i].advisorType).Some? ==> feedback[i] in r
    decreases |feedback|
  {
    if |feedback| == 0 then []
    else
      var rest := Cards(feedback[1..]);
      assert forall i :: 1 <= i < |feedback| ==> feedback[i] == feedback[1..][i - 1];
      if AdvisorTitle(feedback[0].advisorType).Some? then [feedback[0]] + rest else rest
  }

  /** The cards of two lists shown one after the other are the cards of
      each in turn: skipping keeps the order of the rows. */
  lemma {:induction false} CardsAppend(a: seq<FeedbackRow>, b: seq<FeedbackRow>)
    ensures Cards(a + b) == Cards(a) + Cards(b)
    decreases |a|
  {
    if |a| > 0 {
      assert (a + b)[1..] == a[1..] + b;
      CardsAppend(a[1..], b);
    } else {
      assert a + b == b;
    }
  }

  /** A single row gives its own card when its type is known and none
      otherwise; with CardsAppend this pins down every list's cards. */
  lemma CardsOfOne(f: FeedbackRow)
    ensures Cards([f]) == if AdvisorTitle(f.advisorType).Some? then [f] else []
  {
    assert [f][1..] == [];
  }
}
