/** The session workflow of `SessionView`: the phase filters and flags over
    the loaded rows, the guards that offer each step, and the three handlers
    (pattern check, market simulation, evidence), each a sequence of gateway
    calls of which any one may be rejected. A handler runs as one atomic
    step here; a rejected call ends it, skipping every later call, and the
    busy flag is cleared either way. */
module SessionView {
  import opened Util
  import opened Scoring
  import opened Board
  import opened Market
  import opened Evidence
  import opened Actions
  import opened Store
  import opened EvidenceForm

  /** The fixed template content the engine draws from. */
  datatype Content = Content(pools: seq<AdvisorPool>, segments: seq<SegmentPool>,
                             phrases: PhrasePools, actionPool: seq<string>)

  predicate ContentWellFormed(c: Content)
  {
    PoolsWellFormed(c.pools) && SegmentsWellFormed(c.segments)
    && PhrasesWellFormed(c.phrases) && |c.actionPool| == ActionPoolSize
  }

  /** The component's state: the loaded session with its rows (`None` when
      no session is loaded) and the three busy flags. */
  datatype View = View(store: Option<Store>, generatingBoard: bool, generatingMarket: bool, analyzingEvidence: bool)

  /** Which gateway call of a handler is rejected, counting from 0. */
  datatype Fault = NoFault | FailAt(call: nat)

  /** Call k of a handler goes through: no earlier call, and not this one,
      was rejected. */
  predicate Succeeds(fault: Fault, k: nat)
  {
    fault.NoFault? || k < fault.call
  }

  function PatternRows(s: Store): seq<FeedbackRow>
  {
    RowsInPhase(s.feedback, PatternPhase)
  }

  function EvidenceRows(s: Store): seq<FeedbackRow>
  {
    RowsInPhase(s.feedback, EvidencePhase)
  }

  /** The board shows the evidence rows once any exist, else the pattern
      rows. */
  function CurrentFeedback(s: Store): (r: seq<FeedbackRow>)
    ensures HasEvidenceCheck(s) ==> r == EvidenceRows(s) && forall i :: 0 <= i < |r| ==> r[i].phase == EvidencePhase
    ensures !HasEvidenceCheck(s) ==> r == PatternRows(s) && forall i :: 0 <= i < |r| ==> r[i].phase == PatternPhase
  {
    if HasEvidenceCheck(s) then EvidenceRows(s) else PatternRows(s)
  }

  /** The engine's view of stored rows. */
  function AsFeedback(rows: seq<FeedbackRow>): (fs: seq<Feedback>)
    ensures |fs| == |rows|
    ensures forall i :: 0 <= i < |rows| ==>
              fs[i].advisorType == rows[i].advisorType && fs[i].score == rows[i].score
              && fs[i].diagnosis == rows[i].diagnosis && fs[i].prescription == rows[i].prescription
  {
    seq(|rows|, i requires 0 <= i < |rows| =>
      Feedback(rows[i].advisorType, rows[i].score, rows[i].diagnosis, rows[i].prescription))
  }

  /** Saving feedback and reading it back yields the same entries. */
  lemma FeedbackRoundTrip(fs: seq<Feedback>, phase: Phase, firstId: nat)
    ensures AsFeedback(FeedbackRows(fs, phase, firstId)) == fs
  {
    var back := AsFeedback(FeedbackRows(fs, phase, firstId));
    assert forall i :: 0 <= i < |fs| ==> back[i] == fs[i];
  }

  /** `useEffect` on the session: generate the board when a session is
      loaded, it has no pattern-check row, and generation is not running. */
  predicate ShouldAutoGenerate(v: View)
  {
    v.store.Some? && !HasPatternCheck(v.store.value) && !v.generatingBoard
  }

  /** The run-simulation prompt: the market panel is mounted once pattern
      rows exist, receives a handler only while there are no personas, and
      shows the prompt when not loading. */
  predicate MarketOffered(v: View)
  {
    v.store.Some? && HasPatternCheck(v.store.value) && !HasMarketSim(v.store.value) && !v.generatingMarket
  }

  /** The evidence panel is mounted once personas exist, and its form is
      shown when not loading; nothing ever unmounts it again. */
  predicate EvidenceOffered(v: View)
  {
    v.store.Some? && HasMarketSim(v.store.value) && !v.analyzingEvidence
  }

  /** The writes of the pattern-check handler for a board result and its
      action texts: call 0 saves the five feedback rows, call 1 the five
      next actions, and only then call 2 writes score, verdict and stage. */
  function PatternCheckWrites(s: Store, b: BoardResult, texts: seq<string>, fault: Fault, now: int): (t: Store)
    requires |b.feedback| == 5 && |texts| == ActionCount
    ensures t.personas == s.personas
    ensures t.feedback == (if Succeeds(fault, 0) then s.feedback + FeedbackRows(b.feedback, PatternPhase, s.nextId) else s.feedback)
    ensures Succeeds(fault, 0) ==> PatternRows(t) == PatternRows(s) + FeedbackRows(b.feedback, PatternPhase, s.nextId)
    ensures EvidenceRows(t) == EvidenceRows(s)
    ensures Succeeds(fault, 1) <==> |t.actions| == |s.actions| + ActionCount
    ensures !Succeeds(fault, 1) ==> t.actions == s.actions
    ensures Succeeds(fault, 1) ==>
              t.actions[..|s.actions|] == s.actions
              && forall k :: 0 <= k < ActionCount ==>
                   t.actions[|s.actions| + k].text == texts[k] && t.actions[|s.actions| + k].orderIndex == k
                   && !t.actions[|s.actions| + k].isCompleted
    ensures Succeeds(fault, 2) ==>
              t.session == s.session.(stage := PatternCheck, boardScore := Some(b.averageScore),
                                      lastVerdict := BoardSaid(b.verdict), updatedAt := now)
    ensures !Succeeds(fault, 2) ==> t.session == s.session
    ensures t.session != s.session ==> |PatternRows(t)| == |PatternRows(s)| + 5 && |t.actions| == |s.actions| + ActionCount
  {
    var batch := FeedbackRows(b.feedback, PatternPhase, s.nextId);
    PatternRowsAfterBatch(s.feedback, batch, PatternPhase);
    if !Succeeds(fault, 0) then s
    else
      var s1 := InsertFeedback(s, b.feedback, PatternPhase);
      if !Succeeds(fault, 1) then s1
      else
        var s2 := InsertActions(s1, texts);
        if !Succeeds(fault, 2) then s2
        else
          var patch := SessionPatch(Some(PatternCheck), Some(Some(b.averageScore)), Some(BoardSaid(b.verdict)));
          UpdateSession(s2, patch, now)
  }

  /** `handleGenerateBoardFeedback`: nothing without a session; otherwise
      the writes above for this idea's board and actions, with the busy flag
      cleared however far the calls got. */
  function HandleGenerateBoard(v: View, c: Content, fault: Fault, now: int): (r: View)
    requires ContentWellFormed(c)
    ensures v.store.None? ==> r == v
    ensures v.store.Some? ==> !r.generatingBoard && r.store.Some?
    ensures v.store.Some? ==>
              var s := v.store.value;
              r.store.value == PatternCheckWrites(s, GenerateBoardFeedback(s.session.idea, c.pools),
                                                  NextActionTexts(s.session.idea, c.actionPool), fault, now)
    ensures r.generatingMarket == v.generatingMarket && r.analyzingEvidence == v.analyzingEvidence
  {
    match v.store
    case None => v
    case Some(s) =>
      var b := GenerateBoardFeedback(s.session.idea, c.pools);
      var texts := NextActionTexts(s.session.idea, c.actionPool);
      View(Some(PatternCheckWrites(s, b, texts, fault, now)), false, v.generatingMarket, v.analyzingEvidence)
  }

  /** Appending a batch of one phase grows that phase's rows by the batch. */
  lemma PatternRowsAfterBatch(rows: seq<FeedbackRow>, batch: seq<FeedbackRow>, phase: Phase)
    requires forall i :: 0 <= i < |batch| ==> batch[i].phase == phase
    ensures RowsInPhase(rows + batch, phase) == RowsInPhase(rows, phase) + batch
    ensures forall other: Phase :: other != phase ==> RowsInPhase(rows + batch, other) == RowsInPhase(rows, other)
  {
    RowsInPhaseAppend(rows, batch, phase);
    forall other: Phase | other != phase
      ensures RowsInPhase(rows + batch, other) == RowsInPhase(rows, other)
    {
      RowsInPhaseAppend(rows, batch, other);
      RowsInPhaseOfBatch(batch, phase, other);
    }
    var other := if phase == PatternPhase then EvidencePhase else PatternPhase;
    RowsInPhaseOfBatch(batch, phase, other);
  }

  function PersonaRowsMatch(rows: seq<PersonaRow>, ps: seq<Persona>): bool
    requires |rows| == |ps|
  {
    forall i :: 0 <= i < |ps| ==>
      rows[i].name == ps[i].name && rows[i].description == ps[i].description
      && rows[i].quote == ps[i].quote && rows[i].willingness == ps[i].willingness
  }

  /** The writes of the market handler for a list of personas: call 0
      saves the personas, and only then call 1 moves the stage to market
      simulation; score and verdict are never written. */
  function MarketSimWrites(s: Store, ps: seq<Persona>, fault: Fault, now: int): (t: Store)
    ensures t.feedback == s.feedback && t.actions == s.actions
    ensures t.session.boardScore == s.session.boardScore && t.session.lastVerdict == s.session.lastVerdict
    ensures Succeeds(fault, 0) ==>
              |t.personas| == |s.personas| + |ps| && t.personas[..|s.personas|] == s.personas
              && PersonaRowsMatch(t.personas[|s.personas|..], ps)
    ensures !Succeeds(fault, 0) ==> t.personas == s.personas
    ensures Succeeds(fault, 1) ==> t.session == s.session.(stage := MarketSim, updatedAt := now)
    ensures !Succeeds(fault, 1) ==> t.session == s.session
    ensures t.session != s.session ==> |t.personas| == |s.personas| + |ps|
  {
    if !Succeeds(fault, 0) then s
    else
      var s1 := InsertPersonas(s, ps);
      assert PersonaRowsMatch(s1.personas[|s.personas|..], ps) by {
        forall i | 0 <= i < |ps|
          ensures s1.personas[|s.personas|..][i] == s1.personas[|s.personas| + i]
        {
        }
      }
      if !Succeeds(fault, 1) then s1
      else UpdateSession(s1, SessionPatch(Some(MarketSim), None, None), now)
  }

  /** `handleRunMarketSim`: the writes above for this idea's three
      personas. */
  function HandleRunMarketSim(v: View, c: Content, fault: Fault, now: int): (r: View)
    requires ContentWellFormed(c)
    ensures v.store.None? ==> r == v
    ensures v.store.Some? ==> !r.generatingMarket && r.store.Some?
    ensures v.store.Some? ==>
              var s := v.store.value;
              r.store.value == MarketSimWrites(s, SimulateMarket(s.session.idea, c.segments), fault, now)
              && |SimulateMarket(s.session.idea, c.segments)| == 3
    ensures r.generatingBoard == v.generatingBoard && r.analyzingEvidence == v.analyzingEvidence
  {
    match v.store
    case None => v
    case Some(s) =>
      View(Some(MarketSimWrites(s, SimulateMarket(s.session.idea, c.segments), fault, now)),
           v.generatingBoard, false, v.analyzingEvidence)
  }

  /** The re-scoring prior: the pattern-check rows, whatever evidence rows
      exist. */
  function Prior(s: Store): (fs: seq<Feedback>)
    ensures |fs| == |PatternRows(s)|
    ensures forall i :: 0 <= i < |fs| ==>
              var row := PatternRows(s)[i];
              row.phase == PatternPhase && row in s.feedback
              && fs[i].advisorType == row.advisorType && fs[i].score == row.score
              && fs[i].diagnosis == row.diagnosis && fs[i].prescription == row.prescription
  {
    RowsInPhaseSubset(s.feedback, PatternPhase);
    AsFeedback(PatternRows(s))
  }

  /** The writes of the evidence handler for a re-scored board: call 0
      saves the entries under the evidence phase, and only then call 1
      writes score, verdict and stage. */
  function EvidenceCheckWrites(s: Store, e: EvidenceResult, fault: Fault, now: int): (t: Store)
    ensures t.personas == s.personas && t.actions == s.actions
    ensures t.feedback == (if Succeeds(fault, 0) then s.feedback + FeedbackRows(e.updated, EvidencePhase, s.nextId) else s.feedback)
    ensures PatternRows(t) == PatternRows(s)
    ensures Succeeds(fault, 0) ==> EvidenceRows(t) == EvidenceRows(s) + FeedbackRows(e.updated, EvidencePhase, s.nextId)
    ensures Succeeds(fault, 1) ==>
              t.session == s.session.(stage := EvidenceCheck, boardScore := e.averageScore,
                                      lastVerdict := EvidenceSaid(e.verdict), updatedAt := now)
    ensures !Succeeds(fault, 1) ==> t.session == s.session
    ensures t.session != s.session ==> |EvidenceRows(t)| == |EvidenceRows(s)| + |e.updated|
  {
    var batch := FeedbackRows(e.updated, EvidencePhase, s.nextId);
    PatternRowsAfterBatch(s.feedback, batch, EvidencePhase);
    if !Succeeds(fault, 0) then s
    else
      var s1 := InsertFeedback(s, e.updated, EvidencePhase);
      if !Succeeds(fault, 1) then s1
      else
        var patch := SessionPatch(Some(EvidenceCheck), Some(e.averageScore), Some(EvidenceSaid(e.verdict)));
        UpdateSession(s1, patch, now)
  }

  /** `handleSubmitEvidence(evidence)`: the writes above for the pattern
      rows re-scored against this evidence; the closing refetch reports its
      own failures and never rejects. */
  function HandleSubmitEvidence(v: View, c: Content, evidence: string, fault: Fault, now: int): (r: View)
    requires ContentWellFormed(c)
    ensures v.store.None? ==> r == v
    ensures v.store.Some? ==> !r.analyzingEvidence && r.store.Some?
    ensures v.store.Some? ==>
              var s := v.store.value;
              var e := AnalyzeEvidence(s.session.idea, evidence, Prior(s), c.phrases);
              r.store.value == EvidenceCheckWrites(s, e, fault, now) && |e.updated| == |PatternRows(s)|
    ensures r.generatingBoard == v.generatingBoard && r.generatingMarket == v.generatingMarket
  {
    match v.store
    case None => v
    case Some(s) =>
      var e := AnalyzeEvidence(s.session.idea, evidence, Prior(s), c.phrases);
      View(Some(EvidenceCheckWrites(s, e, fault, now)), v.generatingBoard, v.generatingMarket, false)
  }

  /** A user or effect action, with the outcome of its gateway calls and
      the clock reading. */
  datatype Event = BoardAutoTrigger | RunSimulationClicked | EvidenceSubmitted(evidence: string)

  datatype Tick = Tick(event: Event, fault: Fault, now: int)

  /** One event, under the guard that lets it reach its handler. */
  function Step(v: View, c: Content, t: Tick): View
    requires ContentWellFormed(c)
  {
    match t.event
    case BoardAutoTrigger =>
      if ShouldAutoGenerate(v) then HandleGenerateBoard(v, c, t.fault, t.now) else v
    case RunSimulationClicked =>
      if MarketOffered(v) then HandleRunMarketSim(v, c, t.fault, t.now) else v
    case EvidenceSubmitted(text) =>
      if EvidenceOffered(v) && SubmitCallback(text).Some?
      then HandleSubmitEvidence(v, c, SubmitCallback(text).value, t.fault, t.now) else v
  }

  function Run(v: View, c: Content, ticks: seq<Tick>): View
    requires ContentWellFormed(c)
    decreases |ticks|
  {
    if |ticks| == 0 then v else Run(Step(v, c, ticks[0]), c, ticks[1..])
  }

  /** What every reachable store satisfies: each stage's rows exist only
      after the previous stage's, the board and the market each wrote one
      batch, evidence comes in whole batches, and the recorded stage never
      runs ahead of the rows nor reaches `completed`. */
  predicate Inv(s: Store)
  {
    && (HasMarketSim(s) ==> HasPatternCheck(s))
    && (HasEvidenceCheck(s) ==> HasMarketSim(s))
    && (|PatternRows(s)| == 0 || |PatternRows(s)| == 5)
    && (|s.personas| == 0 || |s.personas| == 3)
    && (|s.actions| == 0 || (|s.actions| == ActionCount && HasPatternCheck(s)))
    && |EvidenceRows(s)| % 5 == 0
    && (StageRank(s.session.stage) >= 1 ==> HasPatternCheck(s))
    && (StageRank(s.session.stage) >= 2 ==> HasMarketSim(s))
    && (StageRank(s.session.stage) >= 3 ==> HasEvidenceCheck(s))
    && s.session.stage != Completed
  }

  predicate ViewInv(v: View)
  {
    (v.store.Some? ==> Inv(v.store.value))
    && !v.generatingBoard && !v.generatingMarket && !v.analyzingEvidence
  }

  /** A freshly created session satisfies the invariant. */
  lemma NewSessionInv(row: SessionRow)
    requires row.stage == Intake
    ensures ViewInv(View(Some(NewStore(row)), false, false, false))
  {
    assert RowsInPhase([], PatternPhase) == [];
    assert RowsInPhase([], EvidencePhase) == [];
  }

  /** The pattern-check writes keep the invariant from a store without
      pattern rows, however far the calls get. */
  lemma PatternCheckKeepsInv(s: Store, b: BoardResult, texts: seq<string>, fault: Fault, now: int)
    requires |b.feedback| == 5 && |texts| == ActionCount
    requires Inv(s) && !HasPatternCheck(s)
    ensures Inv(PatternCheckWrites(s, b, texts, fault, now))
    ensures StageRank(PatternCheckWrites(s, b, texts, fault, now).session.stage) >= StageRank(s.session.stage)
  {
    var t := PatternCheckWrites(s, b, texts, fault, now);
    assert |PatternRows(s)| == 0 && |s.actions| == 0 && StageRank(s.session.stage) == 0;
    if Succeeds(fault, 0) {
      assert |PatternRows(t)| == 5;
    } else {
      assert t == s;
    }
  }

  /** The market writes keep the invariant from a store with pattern rows
      and no personas. */
  lemma MarketSimKeepsInv(s: Store, ps: seq<Persona>, fault: Fault, now: int)
    requires |ps| == 3
    requires Inv(s) && HasPatternCheck(s) && !HasMarketSim(s)
    ensures Inv(MarketSimWrites(s, ps, fault, now))
    ensures StageRank(MarketSimWrites(s, ps, fault, now).session.stage) >= StageRank(s.session.stage)
  {
    var t := MarketSimWrites(s, ps, fault, now);
    assert StageRank(s.session.stage) <= 1 && !HasEvidenceCheck(s);
    assert PatternRows(t) == PatternRows(s) && EvidenceRows(t) == EvidenceRows(s);
  }

  /** The evidence writes of a batch as long as the pattern rows keep the
      invariant from a store with personas. */
  lemma EvidenceCheckKeepsInv(s: Store, e: EvidenceResult, fault: Fault, now: int)
    requires |e.updated| == |PatternRows(s)|
    requires Inv(s) && HasMarketSim(s)
    ensures Inv(EvidenceCheckWrites(s, e, fault, now))
    ensures StageRank(EvidenceCheckWrites(s, e, fault, now).session.stage) >= StageRank(s.session.stage)
  {
    var t := EvidenceCheckWrites(s, e, fault, now);
    assert |PatternRows(s)| == 5;
    if Succeeds(fault, 0) {
      assert |EvidenceRows(t)| == |EvidenceRows(s)| + 5;
    } else {
      assert t == s;
    }
  }

  lemma BoardStepInv(v: View, c: Content, fault: Fault, now: int)
    requires ContentWellFormed(c) && ViewInv(v) && ShouldAutoGenerate(v)
    ensures var r := HandleGenerateBoard(v, c, fault, now);
            ViewInv(r) && StageRank(r.store.value.session.stage) >= StageRank(v.store.value.session.stage)
  {
    var s := v.store.value;
    PatternCheckKeepsInv(s, GenerateBoardFeedback(s.session.idea, c.pools),
                         NextActionTexts(s.session.idea, c.actionPool), fault, now);
  }

  lemma MarketStepInv(v: View, c: Content, fault: Fault, now: int)
    requires ContentWellFormed(c) && ViewInv(v) && MarketOffered(v)
    ensures var r := HandleRunMarketSim(v, c, fault, now);
            ViewInv(r) && StageRank(r.store.value.session.stage) >= StageRank(v.store.value.session.stage)
  {
    var s := v.store.value;
    MarketSimKeepsInv(s, SimulateMarket(s.session.idea, c.segments), fault, now);
  }

  lemma EvidenceStepInv(v: View, c: Content, evidence: string, fault: Fault, now: int)
    requires ContentWellFormed(c) && ViewInv(v) && EvidenceOffered(v)
    ensures var r := HandleSubmitEvidence(v, c, evidence, fault, now);
            ViewInv(r) && StageRank(r.store.value.session.stage) >= StageRank(v.store.value.session.stage)
  {
    var s := v.store.value;
    EvidenceCheckKeepsInv(s, AnalyzeEvidence(s.session.idea, evidence, Prior(s), c.phrases), fault, now);
  }

  /** Every guarded step keeps the invariant and never moves the stage
      backwards. */
  lemma StepPreservesInv(v: View, c: Content, t: Tick)
    requires ContentWellFormed(c) && ViewInv(v)
    ensures ViewInv(Step(v, c, t))
    ensures v.store.Some? ==>
              Step(v, c, t).store.Some?
              && StageRank(Step(v, c, t).store.value.session.stage) >= StageRank(v.store.value.session.stage)
  {
    match t.event
    case BoardAutoTrigger =>
      if ShouldAutoGenerate(v) { BoardStepInv(v, c, t.fault, t.now); }
    case RunSimulationClicked =>
      if MarketOffered(v) { MarketStepInv(v, c, t.fault, t.now); }
    case EvidenceSubmitted(text) =>
      if EvidenceOffered(v) && SubmitCallback(text).Some? {
        EvidenceStepInv(v, c, SubmitCallback(text).value, t.fault, t.now);
      }
  }

  /** So over any run: the invariant holds throughout, the recorded stage
      only moves forward, and `completed` is never written. */
  lemma {:induction false} RunPreservesInv(v: View, c: Content, ticks: seq<Tick>)
    requires ContentWellFormed(c) && ViewInv(v)
    ensures ViewInv(Run(v, c, ticks))
    ensures v.store.Some? ==>
              Run(v, c, ticks).store.Some?
              && StageRank(Run(v, c, ticks).store.value.session.stage) >= StageRank(v.store.value.session.stage)
              && Run(v, c, ticks).store.value.session.stage != Completed
    decreases |ticks|
  {
    if |ticks| > 0 {
      StepPreservesInv(v, c, ticks[0]);
      RunPreservesInv(Step(v, c, ticks[0]), c, ticks[1..]);
    }
  }

  /** The auto-trigger's guard holds again after a board run exactly when
      the run's first save was rejected: once pattern rows exist it stays
      quiet. */
  lemma AutoTriggerSettles(v: View, c: Content, fault: Fault, now: int)
    requires ContentWellFormed(c) && ShouldAutoGenerate(v)
    ensures ShouldAutoGenerate(HandleGenerateBoard(v, c, fault, now)) <==> !Succeeds(fault, 0)
  {
    var s := v.store.value;
    var b := GenerateBoardFeedback(s.session.idea, c.pools);
    PatternRowsAfterBatch(s.feedback, FeedbackRows(b.feedback, PatternPhase, s.nextId), PatternPhase);
  }

  /** Evidence can be submitted again and again: each accepted submission
      appends a further batch of five evidence rows, the board then shows
      all of them, and the panel stays offered. */
  lemma ResubmissionAppendsBatch(v: View, c: Content, evidence: string, now: int)
    requires ContentWellFormed(c) && ViewInv(v) && EvidenceOffered(v)
    ensures var t := HandleSubmitEvidence(v, c, evidence, NoFault, now).store.value;
            |EvidenceRows(t)| == |EvidenceRows(v.store.value)| + 5
            && CurrentFeedback(t) == EvidenceRows(t)
            && EvidenceOffered(HandleSubmitEvidence(v, c, evidence, NoFault, now))
  {
    assert |PatternRows(v.store.value)| == 5;
  }

  /** Re-scoring never compounds: a second submission is scored against
      the same pattern rows as the first, so the same evidence yields the
      same re-scored board again. */
  lemma ResubmissionUsesSamePrior(v: View, c: Content, evidence: string, now: int)
    requires ContentWellFormed(c) && EvidenceOffered(v)
    ensures var w := HandleSubmitEvidence(v, c, evidence, NoFault, now);
            Prior(w.store.value) == Prior(v.store.value)
            && AnalyzeEvidence(w.store.value.session.idea, evidence, Prior(w.store.value), c.phrases)
               == AnalyzeEvidence(v.store.value.session.idea, evidence, Prior(v.store.value), c.phrases)
  {
  }
}
