/** `generateBoardFeedback`: five advisors each score the idea, pick a
    diagnosis and a prescription from their own template pool, and the
    board's average and verdict are derived from the five scores. */
module Board {
  import opened Util
  import opened Text
  import opened Hash
  import opened Scoring

  /** One advisor's template pool; the source holds three of each. */
  datatype AdvisorPool = AdvisorPool(diagnoses: seq<string>, prescriptions: seq<string>)

  const PoolSize: nat := 3

  /** The pools, indexed like AdvisorOrder, with the source's shape. */
  predicate PoolsWellFormed(pools: seq<AdvisorPool>)
  {
    |pools| == |AdvisorOrder|
    && forall i :: 0 <= i < |pools| ==>
         |pools[i].diagnoses| == PoolSize && |pools[i].prescriptions| == PoolSize
  }

  /** `FeedbackResult`. */
  datatype Feedback = Feedback(advisorType: string, score: int, diagnosis: string, prescription: string)

  datatype BoardResult = BoardResult(feedback: seq<Feedback>, averageScore: int, verdict: BoardVerdict)

  /** The three placeholder substitutions, each on its first occurrence and
      in the source's order: quality, then idea, then audience. */
  function FillDiagnosis(template: string, q: Quality, input: Idea): string
  {
    Replace(Replace(Replace(template, "{quality}", QualityLabel(q)), "{idea}", input.name),
            "{audience}", input.audience)
  }

  function FillPrescription(template: string, input: Idea): string
  {
    Replace(Replace(template, "{idea}", input.name), "{audience}", input.audience)
  }

  function DiagnosisIndex(input: Idea, a: Advisor): (i: nat)
    ensures i < PoolSize
  {
    Hash.Hash(input.name + AdvisorName(a) + "diag") % PoolSize
  }

  function PrescriptionIndex(input: Idea, a: Advisor): (i: nat)
    ensures i < PoolSize
  {
    Hash.Hash(input.name + AdvisorName(a) + "presc") % PoolSize
  }

  /** One advisor's entry. The quality word is read off the score. */
  function AdvisorEntry(input: Idea, a: Advisor, pool: AdvisorPool): (f: Feedback)
    requires |pool.diagnoses| == PoolSize && |pool.prescriptions| == PoolSize
    ensures f.advisorType == AdvisorName(a)
    ensures 40 <= f.score <= 89
    ensures f.score > 70 ==> f.diagnosis == FillDiagnosis(pool.diagnoses[DiagnosisIndex(input, a)], Solid, input)
    ensures 50 < f.score <= 70 ==> f.diagnosis == FillDiagnosis(pool.diagnoses[DiagnosisIndex(input, a)], Decent, input)
    ensures f.score <= 50 ==> f.diagnosis == FillDiagnosis(pool.diagnoses[DiagnosisIndex(input, a)], Weak, input)
    ensures f.prescription == FillPrescription(pool.prescriptions[PrescriptionIndex(input, a)], input)
  {
    var score := SeededScore(input, AdvisorName(a), Initial);
    Feedback(AdvisorName(a), score,
             FillDiagnosis(pool.diagnoses[DiagnosisIndex(input, a)], QualityOf(score), input),
             FillPrescription(pool.prescriptions[PrescriptionIndex(input, a)], input))
  }

  function Scores(fs: seq<Feedback>): (r: seq<int>)
    ensures |r| == |fs| && forall i :: 0 <= i < |fs| ==> r[i] == fs[i].score
  {
    seq(|fs|, i requires 0 <= i < |fs| => fs[i].score)
  }

  /** `generateBoardFeedback(input)`. */
  function GenerateBoardFeedback(input: Idea, pools: seq<AdvisorPool>): (r: BoardResult)
    requires PoolsWellFormed(pools)
    ensures |r.feedback| == 5
    ensures forall i :: 0 <= i < 5 ==> r.feedback[i] == AdvisorEntry(input, AdvisorOrder[i], pools[i])
    ensures forall i :: 0 <= i < 5 ==> r.feedback[i].advisorType == AdvisorName(AdvisorOrder[i])
    ensures forall i :: 0 <= i < 5 ==> 40 <= r.feedback[i].score <= 89
    ensures r.averageScore == MeanTenths(Scores(r.feedback))
    ensures 40 <= r.averageScore <= 89
    ensures r.verdict == StrongPotential <==> r.averageScore >= 80
    ensures r.verdict == Promising <==> 60 <= r.averageScore < 80
    ensures r.verdict == NeedsRefinement <==> r.averageScore < 60
  {
    var feedback := seq(5, i requires 0 <= i < 5 => AdvisorEntry(input, AdvisorOrder[i], pools[i]));
    var scores := Scores(feedback);
    assert AllWithin(scores, 40, 89);
    RoundedMeanWithin(scores, 40, 89);
    var average := MeanTenths(scores);
    BoardResult(feedback, average, BoardVerdictFor(average))
  }

  /** The five advisor types of a board are pairwise distinct. */
  lemma BoardAdvisorsDistinct(input: Idea, pools: seq<AdvisorPool>, i: int, j: int)
    requires PoolsWellFormed(pools)
    requires 0 <= i < j < 5
    ensures GenerateBoardFeedback(input, pools).feedback[i].advisorType
         != GenerateBoardFeedback(input, pools).feedback[j].advisorType
  {
    AdvisorNameInjective(AdvisorOrder[i], AdvisorOrder[j]);
  }

  /** Substitution order matters: a name that itself contains the audience
      placeholder has the audience spliced into it when the template names
      the idea. */
  lemma PlaceholderInName()
    ensures FillPrescription("{idea}", Idea("{audience}", "", "A")) == "A"
  {
    WholeTemplateReplaced("{idea}", "{audience}");
    WholeTemplateReplaced("{audience}", "A");
  }

  /** A template that is exactly the placeholder becomes the replacement. */
  lemma WholeTemplateReplaced(pat: string, rep: string)
    ensures Replace(pat, pat, rep) == rep
  {
    assert OccursAt(pat, pat, 0) by { assert pat[0..|pat|] == pat; }
    ReplaceFirst(pat, pat, rep, 0);
    assert pat[..0] + rep + pat[|pat|..] == rep;
  }
}
