/** Shared vocabulary of the advisor engine: the five advisors, the idea
    being judged, hash-seeded scores and the verdict thresholds.

    Every score is kept in integer TENTHS (7.3 is 73): the source only ever
    adds multiples of 0.1 and rounds to one decimal, so tenths are exact. */
module Scoring {
  import opened Util
  import opened Hash

  /** `AnalysisInput`: the three attributes captured at intake. */
  datatype Idea = Idea(name: string, description: string, audience: string)

  datatype Advisor = Operator | Growth | Finance | Product | Skeptic

  /** The advisors in the key order of the source's template record, which
      is the order in which the board's feedback is produced. */
  const AdvisorOrder: seq<Advisor> := [Operator, Growth, Finance, Product, Skeptic]

  /** The `advisor_type` string stored for each advisor. */
  function AdvisorName(a: Advisor): string
  {
    match a
    case Operator => "operator"
    case Growth => "growth"
    case Finance => "finance"
    case Product => "product"
    case Skeptic => "skeptic"
  }

  /** Distinct advisors are stored under distinct names. */
  lemma AdvisorNameInjective(a: Advisor, b: Advisor)
    requires a != b
    ensures AdvisorName(a) != AdvisorName(b)
  {
    assert AdvisorName(a)[0] != AdvisorName(b)[0];
  }

  lemma AdvisorOrderIsComplete(a: Advisor)
    ensures exists i :: 0 <= i < |AdvisorOrder| && AdvisorOrder[i] == a
  {
    match a
    case Operator => assert AdvisorOrder[0] == a;
    case Growth => assert AdvisorOrder[1] == a;
    case Finance => assert AdvisorOrder[2] == a;
    case Product => assert AdvisorOrder[3] == a;
    case Skeptic => assert AdvisorOrder[4] == a;
  }

  /** The phase argument of `getSeededScore`, whose name is hashed too. */
  datatype SeedPhase = Initial | Evidence

  function PhaseTag(p: SeedPhase): string
  {
    match p
    case Initial => "initial"
    case Evidence => "evidence"
  }

  /** Pattern-check score for a hash value: 4.0 plus (h mod 50) tenths. */
  function InitialScore(h: nat): (r: int)
    ensures 40 <= r <= 89
    ensures (r - 40) % 50 == h % 50
  {
    40 + h % 50
  }

  /** Evidence-phase seed: the initial score, plus (h mod 20) tenths, plus
      1.0, capped at 10.0. */
  function EvidenceSeedScore(h: nat): (r: int)
    ensures 50 <= r <= 100
    ensures r <= InitialScore(h) + h % 20 + 10
    ensures r == 100 || r == InitialScore(h) + h % 20 + 10
    ensures r < 100 ==> r == InitialScore(h) + h % 20 + 10
  {
    Min(100, InitialScore(h) + h % 20 + 10)
  }

  /** The cap is reached: for h = 99 the uncapped seed would be 11.8. */
  lemma EvidenceSeedCapReached()
    ensures EvidenceSeedScore(99) == 100
    ensures InitialScore(99) + 99 % 20 + 10 == 118
  {
  }

  /** `getSeededScore(input, advisorType, phase)`, in tenths. */
  function SeededScore(input: Idea, advisorType: string, phase: SeedPhase): (r: int)
    ensures phase == Initial ==> 40 <= r <= 89
    ensures phase == Evidence ==> 50 <= r <= 100
  {
    var h := Hash.Hash(input.name + input.description + advisorType + PhaseTag(phase));
    match phase
    case Initial => InitialScore(h)
    case Evidence => EvidenceSeedScore(h)
  }

  /** The qualitative word spliced into a diagnosis. */
  datatype Quality = Solid | Decent | Weak

  function QualityLabel(q: Quality): string
  {
    match q
    case Solid => "solid"
    case Decent => "decent"
    case Weak => "weak"
  }

  /** `score > 7 ? 'solid' : score > 5 ? 'decent' : 'weak'`. */
  function QualityOf(score: int): (q: Quality)
    ensures q == Solid <==> score > 70
    ensures q == Decent <==> 50 < score <= 70
    ensures q == Weak <==> score <= 50
  {
    if score > 70 then Solid else if score > 50 then Decent else Weak
  }

  /** The mean of tenths-valued scores, rounded to one decimal. */
  function MeanTenths(scores: seq<int>): (r: int)
    requires |scores| > 0
    ensures 2 * |scores| * r <= 2 * Sum(scores) + |scores| < 2 * |scores| * r + 2 * |scores|
  {
    RoundHalfUp(Sum(scores), |scores|)
  }

  /** Five tenths never average to a half-tenth, so rounding a board of five
      is never a tie: the rounded mean is within 0.04 of the true mean. */
  lemma BoardMeanNeverTies(scores: seq<int>)
    requires |scores| == 5
    ensures 5 * MeanTenths(scores) - 2 <= Sum(scores) <= 5 * MeanTenths(scores) + 2
  {
  }

  /** Verdict of the pattern-check board. */
  datatype BoardVerdict = StrongPotential | Promising | NeedsRefinement

  function BoardVerdictFor(average: int): (v: BoardVerdict)
    ensures v == StrongPotential <==> average >= 80
    ensures v == Promising <==> 60 <= average < 80
    ensures v == NeedsRefinement <==> average < 60
  {
    if average >= 80 then StrongPotential
    else if average >= 60 then Promising
    else NeedsRefinement
  }

  /** Verdict after evidence; an undefined average (no prior feedback, a NaN
      in the source) fails every comparison and lands in the last branch. */
  datatype EvidenceVerdict = ReadyToScale | SolidImprovement | RightDirection | SomeProgress

  function EvidenceVerdictFor(average: Option<int>): (v: EvidenceVerdict)
    ensures v == ReadyToScale <==> average.Some? && average.value >= 80
    ensures v == SolidImprovement <==> average.Some? && 70 <= average.value < 80
    ensures v == RightDirection <==> average.Some? && 60 <= average.value < 70
    ensures v == SomeProgress <==> average.None? || average.value < 60
  {
    match average
    case None => SomeProgress
    case Some(a) =>
      if a >= 80 then ReadyToScale
      else if a >= 70 then SolidImprovement
      else if a >= 60 then RightDirection
      else SomeProgress
  }
}
