/** `ProgressTimeline`: the status of each of the four fixed stages,
    computed from the three phase flags alone. */
module Timeline {
  import opened Store
  import opened SessionView

  datatype Status = Pending | Current | Done

  /** The stage identifiers, in display order. */
  const StageIds: seq<string> := ["pattern_check", "market_sim", "evidence_check", "completed"]

  /** `getStageStatus(stageId)`. The `currentStage` prop is accepted and
      never consulted. */
  function StageStatus(stageId: string, currentStage: string, hasPattern: bool, hasMarket: bool, hasEvidence: bool): (r: Status)
    ensures r == Current ==> stageId == StageIds[1] || stageId == StageIds[2]
    ensures stageId !in StageIds ==> r == Pending
    ensures stageId == StageIds[0] ==> (r == Done <==> hasPattern) && r != Current
    ensures stageId == StageIds[1] ==> (r == Done <==> hasMarket) && (r == Current <==> !hasMarket && hasPattern)
    ensures stageId == StageIds[2] ==> (r == Done <==> hasEvidence) && (r == Current <==> !hasEvidence && hasMarket)
    ensures stageId == StageIds[3] ==> (r == Done <==> hasEvidence) && r != Current
  {
    if stageId == "pattern_check" then (if hasPattern then Done else Pending)
    else if stageId == "market_sim" then (if hasMarket then Done else if hasPattern then Current else Pending)
    else if stageId == "evidence_check" then (if hasEvidence then Done else if hasMarket then Current else Pending)
    else if stageId == "completed" then (if hasEvidence then Done else Pending)
    else Pending
  }

  /** The statuses of the four stages, in order. */
  function Statuses(currentStage: string, hasPattern: bool, hasMarket: bool, hasEvidence: bool): (r: seq<Status>)
    ensures |r| == |StageIds|
    ensures forall i :: 0 <= i < |StageIds| ==> r[i] == StageStatus(StageIds[i], currentStage, hasPattern, hasMarket, hasEvidence)
  {
    seq(|StageIds|, i requires 0 <= i < |StageIds| => StageStatus(StageIds[i], currentStage, hasPattern, hasMarket, hasEvidence))
  }

  /** The status does not depend on the `currentStage` prop. */
  lemma IgnoresCurrentStage(stageId: string, a: string, b: string, hasPattern: bool, hasMarket: bool, hasEvidence: bool)
    ensures StageStatus(stageId, a, hasPattern, hasMarket, hasEvidence) == StageStatus(stageId, b, hasPattern, hasMarket, hasEvidence)
  {
  }

  /** Whatever the flags, at most one stage is current. */
  lemma AtMostOneCurrent(currentStage: string, hasPattern: bool, hasMarket: bool, hasEvidence: bool, i: nat, j: nat)
    requires i < j < |StageIds|
    ensures var r := Statuses(currentStage, hasPattern, hasMarket, hasEvidence);
            !(r[i] == Current && r[j] == Current)
  {
    var r := Statuses(currentStage, hasPattern, hasMarket, hasEvidence);
    assert r[i] == StageStatus(StageIds[i], currentStage, hasPattern, hasMarket, hasEvidence);
    assert r[j] == StageStatus(StageIds[j], currentStage, hasPattern, hasMarket, hasEvidence);
  }

  function StatusRank(s: Status): nat
  {
    match s
    case Done => 2
    case Current => 1
    case Pending => 0
  }

  /** Flags that respect the stage order. */
  predicate FlagsConsistent(hasPattern: bool, hasMarket: bool, hasEvidence: bool)
  {
    (hasEvidence ==> hasMarket) && (hasMarket ==> hasPattern)
  }

  /** With consistent flags the timeline reads: completed stages, then at
      most one current stage, then pending ones. */
  lemma ConsistentFlagsGiveOrderedTimeline(currentStage: string, hasPattern: bool, hasMarket: bool, hasEvidence: bool)
    requires FlagsConsistent(hasPattern, hasMarket, hasEvidence)
    ensures var r := Statuses(currentStage, hasPattern, hasMarket, hasEvidence);
            forall i, j :: 0 <= i < j < |r| ==> StatusRank(r[i]) >= StatusRank(r[j]) && !(r[i] == Current && r[j] == Current)
  {
    var r := Statuses(currentStage, hasPattern, hasMarket, hasEvidence);
    assert r[0] == StageStatus(StageIds[0], currentStage, hasPattern, hasMarket, hasEvidence);
    assert r[1] == StageStatus(StageIds[1], currentStage, hasPattern, hasMarket, hasEvidence);
    assert r[2] == StageStatus(StageIds[2], currentStage, hasPattern, hasMarket, hasEvidence);
    assert r[3] == StageStatus(StageIds[3], currentStage, hasPattern, hasMarket, hasEvidence);
  }

  /** Without consistency the order can break: personas without pattern
      rows show a completed stage after a pending one. */
  lemma InconsistentFlagsBreakOrder()
    ensures var r := Statuses("", false, true, false);
            r[0] == Pending && r[1] == Done
  {
    var r := Statuses("", false, true, false);
    assert r[0] == StageStatus(StageIds[0], "", false, true, false);
    assert r[1] == StageStatus(StageIds[1], "", false, true, false);
  }

  /** Every store the session workflow can reach shows an ordered
      timeline. */
  lemma ReachableStoreGivesOrderedTimeline(s: Store)
    requires Inv(s)
    ensures FlagsConsistent(HasPatternCheck(s), HasMarketSim(s), HasEvidenceCheck(s))
  {
  }
}
