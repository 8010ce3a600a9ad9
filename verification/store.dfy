/** The rows the workflow reads and writes (field names follow the
    `sessions`, `advisor_feedback`, `market_personas` and `next_actions`
    tables), held in an in-memory store for one session, with the narrow
    gateway operations the session view performs on it. */
module Store {
  import opened Util
  import opened Scoring
  import opened Board
  import opened Market

  /** `advisor_feedback.phase`. */
  datatype Phase = PatternPhase | EvidencePhase

  /** `sessions.current_stage`. `Intake` stands for the column's value before
      any handler has written it (the session insert does not set it). */
  datatype Stage = Intake | PatternCheck | MarketSim | EvidenceCheck | Completed

  function StageRank(s: Stage): nat
  {
    match s
    case Intake => 0
    case PatternCheck => 1
    case MarketSim => 2
    case EvidenceCheck => 3
    case Completed => 4
  }

  /** `sessions.last_verdict`: empty, or the verdict of the last board. */
  datatype Verdict = NoVerdict | BoardSaid(board: BoardVerdict) | EvidenceSaid(evidence: EvidenceVerdict)

  /** `sessions.board_score` in tenths; `None` is the non-number written
      when an evidence batch has no prior entries to average. */
  datatype SessionRow = SessionRow(id: nat, userId: string, idea: Idea, stage: Stage,
                                   boardScore: Option<int>, lastVerdict: Verdict,
                                   createdAt: int, updatedAt: int)

  datatype FeedbackRow = FeedbackRow(id: nat, advisorType: string, phase: Phase, score: int,
                                     diagnosis: string, prescription: string)

  datatype PersonaRow = PersonaRow(id: nat, name: string, description: string, quote: string, willingness: int)

  datatype ActionRow = ActionRow(id: nat, text: string, isCompleted: bool, orderIndex: int)

  /** One session and the rows that belong to it, in insertion order;
      `nextId` is the next identifier the store hands out. */
  datatype Store = Store(session: SessionRow, feedback: seq<FeedbackRow>, personas: seq<PersonaRow>,
                         actions: seq<ActionRow>, nextId: nat)

  datatype GatewayError = NotAuthenticated | Rejected

  /** `createSession`: fails without a signed-in user, or when the insert
      is rejected; otherwise a fresh row owned by that user, with score 0,
      no verdict and the stage left at its default. */
  function CreateSession(user: Option<string>, idea: Idea, id: nat, now: int, rejected: bool): (r: Result<SessionRow, GatewayError>)
    ensures user.None? <==> r == Err(NotAuthenticated)
    ensures r.Ok? <==> user.Some? && !rejected
    ensures r.Ok? ==> r.value.idea == idea && r.value.userId == user.value && r.value.id == id
    ensures r.Ok? ==> r.value.stage == Intake && r.value.boardScore == Some(0) && r.value.lastVerdict == NoVerdict
    ensures r.Ok? ==> r.value.createdAt == now && r.value.updatedAt == now
  {
    match user
    case None => Err(NotAuthenticated)
    case Some(u) => if rejected then Err(Rejected) else Ok(SessionRow(id, u, idea, Intake, Some(0), NoVerdict, now, now))
  }

  /** A store for a freshly created session: no rows yet. */
  function NewStore(session: SessionRow): (s: Store)
    ensures s.session == session && s.feedback == [] && s.personas == [] && s.actions == []
  {
    Store(session, [], [], [], 0)
  }

  function FeedbackRows(fs: seq<Feedback>, phase: Phase, firstId: nat): (rows: seq<FeedbackRow>)
    ensures |rows| == |fs|
    ensures forall i :: 0 <= i < |fs| ==>
              rows[i] == FeedbackRow(firstId + i, fs[i].advisorType, phase, fs[i].score,
                                     fs[i].diagnosis, fs[i].prescription)
  {
    seq(|fs|, i requires 0 <= i < |fs| =>
      FeedbackRow(firstId + i, fs[i].advisorType, phase, fs[i].score, fs[i].diagnosis, fs[i].prescription))
  }

  /** `saveAdvisorFeedback`: appends one row per entry, tagged with phase. */
  function InsertFeedback(s: Store, fs: seq<Feedback>, phase: Phase): (r: Store)
    ensures r.feedback == s.feedback + FeedbackRows(fs, phase, s.nextId)
    ensures r.session == s.session && r.personas == s.personas && r.actions == s.actions
  {
    s.(feedback := s.feedback + FeedbackRows(fs, phase, s.nextId), nextId := s.nextId + |fs|)
  }

  /** `saveMarketPersonas`. */
  function InsertPersonas(s: Store, ps: seq<Persona>): (r: Store)
    ensures |r.personas| == |s.personas| + |ps| && r.personas[..|s.personas|] == s.personas
    ensures forall i :: 0 <= i < |ps| ==>
              var row := r.personas[|s.personas| + i];
              row.name == ps[i].name && row.description == ps[i].description
              && row.quote == ps[i].quote && row.willingness == ps[i].willingness
    ensures r.session == s.session && r.feedback == s.feedback && r.actions == s.actions
  {
    var rows := seq(|ps|, i requires 0 <= i < |ps| =>
      PersonaRow(s.nextId + i, ps[i].name, ps[i].description, ps[i].quote, ps[i].willingness));
    s.(personas := s.personas + rows, nextId := s.nextId + |ps|)
  }

  /** `saveNextActions` for the texts in display order: `order_index` is
      the position and no action starts completed. */
  function InsertActions(s: Store, texts: seq<string>): (r: Store)
    ensures |r.actions| == |s.actions| + |texts| && r.actions[..|s.actions|] == s.actions
    ensures forall i :: 0 <= i < |texts| ==>
              var row := r.actions[|s.actions| + i];
              row.text == texts[i] && row.orderIndex == i && !row.isCompleted
    ensures r.session == s.session && r.feedback == s.feedback && r.personas == s.personas
  {
    var rows := seq(|texts|, i requires 0 <= i < |texts| => ActionRow(s.nextId + i, texts[i], false, i));
    s.(actions := s.actions + rows, nextId := s.nextId + |texts|)
  }

  /** The fields a handler may write to the session row. */
  datatype SessionPatch = SessionPatch(stage: Option<Stage>, boardScore: Option<Option<int>>, lastVerdict: Option<Verdict>)

  /** `updateSession`: writes the given fields and stamps `updated_at`. */
  function UpdateSession(s: Store, patch: SessionPatch, now: int): (r: Store)
    ensures r.session.updatedAt == now
    ensures r.session.stage == (if patch.stage.Some? then patch.stage.value else s.session.stage)
    ensures r.session.boardScore == (if patch.boardScore.Some? then patch.boardScore.value else s.session.boardScore)
    ensures r.session.lastVerdict == (if patch.lastVerdict.Some? then patch.lastVerdict.value else s.session.lastVerdict)
    ensures r.session.id == s.session.id && r.session.idea == s.session.idea
    ensures r.session.userId == s.session.userId && r.session.createdAt == s.session.createdAt
    ensures r.feedback == s.feedback && r.personas == s.personas && r.actions == s.actions
  {
    var row := s.session;
    var row1 := match patch.stage case Some(st) => row.(stage := st) case None => row;
    var row2 := match patch.boardScore case Some(b) => row1.(boardScore := b) case None => row1;
    var row3 := match patch.lastVerdict case Some(v) => row2.(lastVerdict := v) case None => row2;
    s.(session := row3.(updatedAt := now))
  }

  /** `toggleActionComplete`: sets `is_completed` on the action with that id. */
  function UpdateAction(s: Store, id: nat, completed: bool): (r: Store)
    ensures |r.actions| == |s.actions|
    ensures forall i :: 0 <= i < |s.actions| ==>
              r.actions[i] == (if s.actions[i].id == id then s.actions[i].(isCompleted := completed) else s.actions[i])
    ensures r.session == s.session && r.feedback == s.feedback && r.personas == s.personas
  {
    var acts := seq(|s.actions|, i requires 0 <= i < |s.actions| =>
      if s.actions[i].id == id then s.actions[i].(isCompleted := completed) else s.actions[i]);
    s.(actions := acts)
  }

  /** Toggling the same action on and then off restores every action. */
  lemma ToggleTwiceRestores(s: Store, id: nat)
    requires forall i :: 0 <= i < |s.actions| && s.actions[i].id == id ==> !s.actions[i].isCompleted
    ensures UpdateAction(UpdateAction(s, id, true), id, false) == s
  {
    var r := UpdateAction(UpdateAction(s, id, true), id, false);
    assert r.actions == s.actions;
  }

  /** `advisorFeedback.filter(f => f.phase === phase)`. */
  function RowsInPhase(rows: seq<FeedbackRow>, phase: Phase): (r: seq<FeedbackRow>)
    ensures |r| <= |rows|
    ensures forall i :: 0 <= i < |r| ==> r[i].phase == phase
    ensures forall i :: 0 <= i < |rows| && rows[i].phase == phase ==> rows[i] in r
  {
    if |rows| == 0 then []
    else
      var init := RowsInPhase(rows[..|rows| - 1], phase);
      assert forall i :: 0 <= i < |rows| - 1 ==> rows[i] == rows[..|rows| - 1][i];
      if rows[|rows| - 1].phase == phase then init + [rows[|rows| - 1]] else init
  }

  /** Filtering distributes over appending a batch. */
  lemma {:induction false} RowsInPhaseAppend(a: seq<FeedbackRow>, b: seq<FeedbackRow>, phase: Phase)
    ensures RowsInPhase(a + b, phase) == RowsInPhase(a, phase) + RowsInPhase(b, phase)
    decreases |b|
  {
    if |b| == 0 {
      assert a + b == a;
    } else {
      var b' := b[..|b| - 1];
      assert (a + b)[..|a + b| - 1] == a + b';
      RowsInPhaseAppend(a, b', phase);
    }
  }

  /** A batch all in one phase survives its own filter whole, and vanishes
      from the other phase's. */
  lemma {:induction false} RowsInPhaseOfBatch(b: seq<FeedbackRow>, phase: Phase, other: Phase)
    requires forall i :: 0 <= i < |b| ==> b[i].phase == phase
    requires other != phase
    ensures RowsInPhase(b, phase) == b
    ensures RowsInPhase(b, other) == []
  {
    if |b| > 0 {
      RowsInPhaseOfBatch(b[..|b| - 1], phase, other);
      assert b[..|b| - 1] + [b[|b| - 1]] == b;
    }
  }

  predicate HasPatternCheck(s: Store) { |RowsInPhase(s.feedback, PatternPhase)| > 0 }
  predicate HasMarketSim(s: Store) { |s.personas| > 0 }
  predicate HasEvidenceCheck(s: Store) { |RowsInPhase(s.feedback, EvidencePhase)| > 0 }

  /** The flag is set exactly when some row of the phase exists. */
  lemma HasPhaseIffRow(s: Store, phase: Phase)
    ensures |RowsInPhase(s.feedback, phase)| > 0 <==>
            exists i :: 0 <= i < |s.feedback| && s.feedback[i].phase == phase
  {
    if |RowsInPhase(s.feedback, phase)| > 0 {
      RowsInPhaseSubset(s.feedback, phase);
      var r := RowsInPhase(s.feedback, phase);
      assert r[0] in s.feedback;
    }
  }

  lemma {:induction false} RowsInPhaseSubset(rows: seq<FeedbackRow>, phase: Phase)
    ensures forall x :: x in RowsInPhase(rows, phase) ==> x in rows
  {
    if |rows| > 0 {
      RowsInPhaseSubset(rows[..|rows| - 1], phase);
    }
  }
}
