/** `analyzeEvidence`: three signals read from the founder's evidence text
    give a bonus; each advisor's score is re-drawn from an evidence-phase
    seed plus that bonus, but never falls below the prior score plus 0.5
    (unless that would pass the cap of 10.0); each diagnosis is rewritten
    around the first sentence of the prior one. */
module Evidence {
  import opened Util
  import opened Text
  import opened Hash
  import opened Scoring
  import opened Board

  /** The four improvement sentences and four concern clauses. */
  datatype PhrasePools = PhrasePools(improvements: seq<string>, concerns: seq<string>)

  const PhrasePoolSize: nat := 4

  predicate PhrasesWellFormed(p: PhrasePools)
  {
    |p.improvements| == PhrasePoolSize && |p.concerns| == PhrasePoolSize
  }

  /** The words of the source's case-insensitive user-mention pattern. */
  const UserWords: seq<string> := ["user", "customer", "person", "people", "interview"]

  datatype Signals = Signals(substantial: bool, numbers: bool, users: bool)

  predicate MentionsUsers(evidence: string)
  {
    exists i :: 0 <= i < |UserWords| && Contains(ToLower(evidence), UserWords[i])
  }

  function SignalsOf(evidence: string): (s: Signals)
    ensures s.substantial <==> |evidence| > 100
    ensures s.numbers <==> exists i :: 0 <= i < |evidence| && '0' <= evidence[i] <= '9'
    ensures s.users <==> exists i :: 0 <= i < |UserWords| && Contains(ToLower(evidence), UserWords[i])
  {
    Signals(|evidence| > 100, HasDigit(evidence), MentionsUsers(evidence))
  }

  /** The improvement bonus in tenths: 0.3, 0.4 and 0.3 for the signals. */
  function Bonus(s: Signals): (b: int)
    ensures 0 <= b <= 10
    ensures b == 0 <==> !s.substantial && !s.numbers && !s.users
    ensures b == 10 <==> s.substantial && s.numbers && s.users
  {
    (if s.substantial then 3 else 0) + (if s.numbers then 4 else 0) + (if s.users then 3 else 0)
  }

  /** Signal sets ordered pointwise. */
  predicate SignalsAtMost(a: Signals, b: Signals)
  {
    (a.substantial ==> b.substantial) && (a.numbers ==> b.numbers) && (a.users ==> b.users)
  }

  lemma BonusMonotone(a: Signals, b: Signals)
    requires SignalsAtMost(a, b)
    ensures Bonus(a) <= Bonus(b)
  {
  }

  /** `Math.min(10, Math.max(prev.score + 0.5, baseNewScore + bonus))`. */
  function Rescore(prior: int, seed: int, bonus: int): (r: int)
    ensures r <= 100
    ensures r >= Min(100, prior + 5)
    ensures r >= Min(100, seed + bonus)
    ensures r <= prior + 5 || r <= seed + bonus
    ensures r == 100 || r == prior + 5 || r == seed + bonus
  {
    Min(100, Max(prior + 5, seed + bonus))
  }

  /** A larger bonus never lowers the new score. */
  lemma RescoreMonotone(prior: int, seed: int, b1: int, b2: int)
    requires b1 <= b2
    ensures Rescore(prior, seed, b1) <= Rescore(prior, seed, b2)
  {
  }

  /** The floor is the prior plus 0.5 only below 9.5: at 9.8 the floor is
      the cap itself, 10.0, a rise of only 0.2. */
  lemma FloorIsCapped()
    ensures Rescore(98, 50, 0) == 100
    ensures Rescore(40, 50, 0) == 50
  {
  }

  function ImprovementIndex(input: Idea, advisorType: string): (i: nat)
    ensures i < PhrasePoolSize
  {
    Hash.Hash(input.name + advisorType + "evidence") % PhrasePoolSize
  }

  function ConcernIndex(input: Idea, advisorType: string): (i: nat)
    ensures i < PhrasePoolSize
  {
    (Hash.Hash(input.name + advisorType + "evidence") + 1) % PhrasePoolSize
  }

  /** The improvement sentence and the concern clause always come from
      different positions of their pools. */
  lemma PhrasePositionsDiffer(input: Idea, advisorType: string)
    ensures ImprovementIndex(input, advisorType) != ConcernIndex(input, advisorType)
  {
  }

  /** One re-scored entry. */
  function RescoredEntry(input: Idea, bonus: int, prev: Feedback, phrases: PhrasePools): (f: Feedback)
    requires PhrasesWellFormed(phrases)
    ensures f.advisorType == prev.advisorType && f.prescription == prev.prescription
    ensures f.score == Rescore(prev.score, SeededScore(input, prev.advisorType, Evidence), bonus)
    ensures f.diagnosis == phrases.improvements[ImprovementIndex(input, prev.advisorType)] + " "
                           + FirstClause(prev.diagnosis) + ", "
                           + phrases.concerns[ConcernIndex(input, prev.advisorType)]
  {
    var seed := SeededScore(input, prev.advisorType, Evidence);
    prev.(score := Rescore(prev.score, seed, bonus),
          diagnosis := phrases.improvements[ImprovementIndex(input, prev.advisorType)] + " "
                       + FirstClause(prev.diagnosis) + ", "
                       + phrases.concerns[ConcernIndex(input, prev.advisorType)])
  }

  datatype EvidenceResult = EvidenceResult(updated: seq<Feedback>, averageScore: Option<int>, verdict: EvidenceVerdict)

  /** `analyzeEvidence(input, evidence, previousFeedback)`. */
  function AnalyzeEvidence(input: Idea, evidence: string, prev: seq<Feedback>, phrases: PhrasePools): (r: EvidenceResult)
    requires PhrasesWellFormed(phrases)
    ensures |r.updated| == |prev|
    ensures forall i :: 0 <= i < |prev| ==>
              r.updated[i] == RescoredEntry(input, Bonus(SignalsOf(evidence)), prev[i], phrases)
    ensures forall i :: 0 <= i < |prev| ==>
              r.updated[i].advisorType == prev[i].advisorType && r.updated[i].prescription == prev[i].prescription
    ensures forall i :: 0 <= i < |prev| ==>
              Min(100, prev[i].score + 5) <= r.updated[i].score <= 100
    ensures |prev| == 0 <==> r.averageScore.None?
    ensures r.averageScore.Some? ==> r.averageScore.value == MeanTenths(Scores(r.updated))
    ensures r.averageScore.Some? ==> r.averageScore.value <= 100
    ensures r.verdict == EvidenceVerdictFor(r.averageScore)
  {
    var bonus := Bonus(SignalsOf(evidence));
    var updated := seq(|prev|, i requires 0 <= i < |prev| => RescoredEntry(input, bonus, prev[i], phrases));
    var scores := Scores(updated);
    assert AllAtMost(scores, 100);
    var average: Option<int> :=
      if |updated| == 0 then None
      else (RoundedMeanAtMost(scores, 100); Some(MeanTenths(scores)));
    EvidenceResult(updated, average, EvidenceVerdictFor(average))
  }

  /** If every prior score is at least lo, the re-scored board averages at
      least min(10.0, lo + 0.5). */
  lemma EvidenceAverageFloor(input: Idea, evidence: string, prev: seq<Feedback>, phrases: PhrasePools, lo: int)
    requires PhrasesWellFormed(phrases)
    requires |prev| > 0
    requires forall i :: 0 <= i < |prev| ==> prev[i].score >= lo
    ensures AnalyzeEvidence(input, evidence, prev, phrases).averageScore.value >= Min(100, lo + 5)
  {
    var r := AnalyzeEvidence(input, evidence, prev, phrases);
    var scores := Scores(r.updated);
    assert AllAtLeast(scores, Min(100, lo + 5));
    RoundedMeanAtLeast(scores, Min(100, lo + 5));
  }

  /** Containment survives appending text. */
  lemma {:induction false} ContainsExtends(s: string, t: string, pat: string)
    requires Contains(s, pat)
    ensures Contains(s + t, pat)
  {
    var i := IndexOf(s, pat).value;
    assert (s + t)[i..i + |pat|] == s[i..i + |pat|];
    assert OccursAt(s + t, pat, i);
  }

  /** Appending more text to the evidence never removes a signal. */
  lemma SignalsGrowOnAppend(evidence: string, more: string)
    ensures SignalsAtMost(SignalsOf(evidence), SignalsOf(evidence + more))
  {
    var e2 := evidence + more;
    if HasDigit(evidence) {
      var i :| 0 <= i < |evidence| && IsDigit(evidence[i]);
      assert e2[i] == evidence[i];
    }
    if MentionsUsers(evidence) {
      var k :| 0 <= k < |UserWords| && Contains(ToLower(evidence), UserWords[k]);
      ToLowerAppend(evidence, more);
      ContainsExtends(ToLower(evidence), ToLower(more), UserWords[k]);
      assert Contains(ToLower(e2), UserWords[k]);
    }
  }

  /** So appending evidence never lowers any advisor's new score. */
  lemma AppendingEvidenceNeverLowers(input: Idea, evidence: string, more: string, prev: Feedback, phrases: PhrasePools)
    requires PhrasesWellFormed(phrases)
    ensures RescoredEntry(input, Bonus(SignalsOf(evidence)), prev, phrases).score
         <= RescoredEntry(input, Bonus(SignalsOf(evidence + more)), prev, phrases).score
  {
    SignalsGrowOnAppend(evidence, more);
    BonusMonotone(SignalsOf(evidence), SignalsOf(evidence + more));
    RescoreMonotone(prev.score, SeededScore(input, prev.advisorType, Evidence),
                    Bonus(SignalsOf(evidence)), Bonus(SignalsOf(evidence + more)));
  }

  /** Adding a digit to digit-free evidence raises the bonus by exactly 0.4
      when nothing else changes. */
  lemma DigitAddsFourTenths(a: Signals)
    requires !a.numbers
    ensures Bonus(a.(numbers := true)) == Bonus(a) + 4
  {
  }

  /** Each signal carries its own weight whatever the others are: 0.3 for
      substance, 0.4 for a digit, 0.3 for a mention of users. */
  lemma SignalWeights(s: Signals)
    ensures Bonus(s.(substantial := true)) == Bonus(s.(substantial := false)) + 3
    ensures Bonus(s.(numbers := true)) == Bonus(s.(numbers := false)) + 4
    ensures Bonus(s.(users := true)) == Bonus(s.(users := false)) + 3
  {
  }
}
