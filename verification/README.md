# BoardRoom advisor engine and session workflow, in Dafny

This project models the core of an AI startup-idea simulator. A founder
describes an idea, through a three-step wizard or a chat intake. A "board"
of five advisors (operator, growth lead, finance expert, product guru,
skeptic) then scores it. A market simulation presents three synthetic
customers. After that, the founder submits real-world evidence and the board
re-scores the idea. Every score and every piece of text comes from a
deterministic engine: a 32-bit string hash seeds the scores and picks
entries from fixed template pools. No model is ever called.

The Dafny modules follow the source's structure:

- `Util`, `Text` and `Hash` hold shared helpers. They cover options and
  results, half-up rounding to one decimal, sums and bounds of averages, and
  the JavaScript string operations the engine uses (`trim`, first-occurrence
  `replace`, `split('.')[0]`, a case-insensitive keyword test, a digit test).
  `Hash` models `generateHash` with explicit 32-bit signed wrap-around.
- `Scoring`, `Board`, `Market`, `Evidence` and `Actions` model the engine in
  `lib/ai-service.ts`. Scores are integer tenths, which is exact here
  because the source only ever adds multiples of 0.1 and rounds to one
  decimal.
- `Store` is an in-memory store of the rows of one session (`sessions`,
  `advisor_feedback`, `market_personas`, `next_actions`). It offers the
  gateway operations the views perform: create, insert, update, toggle.
- `SessionView` models the session page. It covers the phase filters and
  flags, the auto-trigger and panel guards, and the three handlers. Each
  handler is a sequence of gateway calls, and any one call may be rejected;
  the `Fault` parameter says which. The module also states and proves the
  invariant that every reachable store satisfies.
- `Timeline`, `EvidenceForm`, `Wizard`, `Chat`, `NextActionsView`,
  `BoardView` and `MarketView` model the decision logic of the remaining
  components: statuses, guards, validity rules, step machines, bands and
  averages.

The template prose (diagnoses, prescriptions, personas, phrases, actions) is
a parameter of the model. Well-formedness predicates fix only its shape:
three entries per advisor pool and per segment list, four phrases of each
kind, and ten actions.

## Model

| member | source | states |
|---|---|---|
| Util.RoundHalfUp | lib/ai-service.ts:146 | The result is the nearest integer to num/den, with ties rounded up. This is one-decimal rounding of a tenths-valued mean. |
| Util.RoundedMeanWithin | lib/ai-service.ts:146 | If every element lies in [lo, hi], the rounded mean also lies in [lo, hi]. |
| Hash.ToInt32 | lib/ai-service.ts:29-30 | The result is the signed 32-bit value congruent to x modulo 2^32. |
| Hash.ShiftFormAgrees | lib/ai-service.ts:29-30 | The shift-subtract-add-mask statement pair equals the wrapped value of 31·h + c, for every 32-bit h. |
| Hash.Hash | lib/ai-service.ts:25-33 | The hash is the absolute value of the wrapped accumulator. It lies in [0, 2^31], and the empty string hashes to 0. |
| Hash.GenerateHash | lib/ai-service.ts:25-33 | The source's loop, with shift and mask, computes exactly `Hash`. |
| Scoring.AdvisorNameInjective | lib/ai-service.ts:54-118 | The five advisors are stored under five distinct type names. |
| Scoring.AdvisorOrderIsComplete | lib/ai-service.ts:122 | Every advisor appears in the iteration order of the template record. |
| Scoring.InitialScore | lib/ai-service.ts:37 | The initial score is 4.0 + (h mod 50) tenths, in [4.0, 8.9]. |
| Scoring.EvidenceSeedScore | lib/ai-service.ts:39-42 | The evidence seed is the initial score plus (h mod 20) tenths plus 1.0, capped at 10.0: never above the uncapped sum, equal to it whenever it is below 10.0, and in [5.0, 10.0]. |
| Scoring.EvidenceSeedCapReached | lib/ai-service.ts:41 | The cap is reached: h = 99 gives an uncapped 11.8 and a seed of 10.0. |
| Scoring.SeededScore | lib/ai-service.ts:35-45 | Initial-phase scores lie in [4.0, 8.9] and evidence-phase seeds in [5.0, 10.0]. |
| Scoring.QualityOf | lib/ai-service.ts:124 | The label is solid above 7.0, decent above 5.0 up to 7.0, and weak otherwise. |
| Scoring.MeanTenths | lib/ai-service.ts:146 | The result is the mean of the scores, rounded half-up to one decimal. |
| Scoring.BoardMeanNeverTies | lib/ai-service.ts:146 | A mean of five tenths is never a rounding tie; the rounded mean is within 0.04 of the exact one. |
| Scoring.BoardVerdictFor | lib/ai-service.ts:148-155 | Each board verdict corresponds exactly to its average band: at least 8.0, at least 6.0, or below 6.0. |
| Scoring.EvidenceVerdictFor | lib/ai-service.ts:285-294 | Each evidence verdict corresponds exactly to its band: 8.0, 7.0, 6.0, or below. An undefined average falls into the last branch. |
| Board.DiagnosisIndex | lib/ai-service.ts:126 | The diagnosis index is always inside the advisor's pool of three. |
| Board.PrescriptionIndex | lib/ai-service.ts:127 | The prescription index is always inside the advisor's pool of three. |
| Board.AdvisorEntry | lib/ai-service.ts:122-144 | The entry carries the advisor's name and a score in [4.0, 8.9]. Its diagnosis is filled with the quality word that matches the score, and its prescription comes from the hashed template. |
| Board.GenerateBoardFeedback | lib/ai-service.ts:120-157 | There are exactly five entries, in the order operator, growth, finance, product, skeptic. The average is their rounded mean and lies in [4.0, 8.9]. The verdict matches the average's band in both directions. |
| Board.BoardAdvisorsDistinct | lib/ai-service.ts:122-144 | No two board entries share an advisor type. |
| Board.PlaceholderInName | lib/ai-service.ts:134-136 | Substitution order matters: an idea name that contains `{audience}` has the audience spliced into it. |
| Text.Trim | components/evidence-check.tsx:25 | The trimmed string is a contiguous slice of the input. Everything before and after it is white space, and when non-empty it starts and ends with a visible character. |
| Text.TrimEmptyIffBlank | components/chat-interface.tsx:100 | Trimming gives the empty string exactly when the input is all white space. |
| Text.Replace | lib/ai-service.ts:129-136 | Only the first occurrence of the pattern is replaced. A string without the pattern is returned unchanged. |
| Text.FirstClause | lib/ai-service.ts:274 | The result is the longest prefix that contains no full stop. When the string has a full stop, it is the prefix before the first one. |
| Market.Willingness | lib/ai-service.ts:217-218 | The willingness of slot i is min_i plus (h + 10i) mod (max_i - min_i), stated as a congruence, so it lies in [min_i, max_i): [45,75), [30,60) or [60,85). |
| Market.WillingnessCoversRange | lib/ai-service.ts:217-218 | Every value of the half-open range is reached by some hash, so the bound is tight. |
| Market.PersonaAt | lib/ai-service.ts:211-225 | Name, description and quote are picked at offsets h+i, h+2i and h+3i. The quote has the idea name substituted. The willingness is the slot's hashed value `Willingness(h, i)`. |
| Market.SimulateMarket | lib/ai-service.ts:160-229 | There are exactly three personas, persona i drawn from segment i, with willingness inside segment i's range. |
| Market.MarketIgnoresAudience | lib/ai-service.ts:209 | Two ideas with the same name and description meet the same personas, whatever their audience. |
| Evidence.SignalsOf | lib/ai-service.ts:242-244 | The three signals are: more than 100 characters, a digit somewhere, and one of the five user words after lower-casing. |
| Evidence.Bonus | lib/ai-service.ts:248-252 | The bonus lies in [0, 1.0]. It is zero exactly when no signal fires, and 1.0 exactly when all three do. |
| Evidence.SignalWeights | lib/ai-service.ts:250-252 | Whatever the other signals are, substance adds exactly 0.3, a digit exactly 0.4 and a mention of users exactly 0.3. |
| Evidence.BonusMonotone | lib/ai-service.ts:248-252 | More signals never give a smaller bonus. |
| Evidence.DigitAddsFourTenths | lib/ai-service.ts:251 | Adding the digit signal alone raises the bonus by exactly 0.4. |
| Evidence.Rescore | lib/ai-service.ts:254 | The new score is min(10.0, max(prior + 0.5, seed + bonus)): at most 10.0 and at most the larger candidate, at least min(10.0, prior + 0.5) and min(10.0, seed + bonus), and equal to one of the three. |
| Evidence.RescoreMonotone | lib/ai-service.ts:254 | A larger bonus never lowers the new score. |
| Evidence.FloorIsCapped | lib/ai-service.ts:254 | The +0.5 floor is itself capped: a prior of 9.8 rises only to 10.0. |
| Evidence.PhrasePositionsDiffer | lib/ai-service.ts:270-272 | The improvement sentence and the concern clause never come from the same pool position. |
| Evidence.RescoredEntry | lib/ai-service.ts:246-281 | Type and prescription are kept. The score is re-scored. The diagnosis is the improvement sentence, the first clause of the old diagnosis, and the concern clause. |
| Evidence.AnalyzeEvidence | lib/ai-service.ts:231-297 | There is one entry per prior entry, in order, each between min(10.0, prior + 0.5) and 10.0. The average is undefined exactly for an empty prior; otherwise it is the rounded mean, at most 10.0. The verdict follows the average. |
| Evidence.EvidenceAverageFloor | lib/ai-service.ts:254-283 | If every prior score is at least lo, the new average is at least min(10.0, lo + 0.5). |
| Evidence.SignalsGrowOnAppend | lib/ai-service.ts:242-244 | Appending text to the evidence never turns a signal off. |
| Evidence.AppendingEvidenceNeverLowers | lib/ai-service.ts:242-254 | Appending text to the evidence never lowers any advisor's new score. |
| Actions.ActionIndex | lib/ai-service.ts:317 | Every pick is a position of the ten-entry pool. |
| Actions.StrideNeverRepeats | lib/ai-service.ts:316-319 | Stride 7 modulo 10 gives no repeated position within ten picks. |
| Actions.GenerateNextActions | lib/ai-service.ts:299-322 | The set-growing loop stops after five picks. It returns the pool entries at (h + 7k) mod 10 for k = 0..4, all at distinct positions, whatever the average score. |
| Store.CreateSession | lib/hooks/use-sessions.ts:31-55 | Creation fails without a user or when the insert is rejected. Otherwise the row holds the form exactly and is owned by the user. |
| Store.FeedbackRows | components/session-view.tsx:71-78 | There is one row per entry with the same type, score and texts, tagged with the phase. |
| Store.InsertFeedback | lib/hooks/use-session-data.ts:47-55 | The rows are appended after the existing ones and nothing else changes. |
| Store.InsertPersonas | lib/hooks/use-session-data.ts:57-65 | The personas are appended field for field and nothing else changes. |
| Store.InsertActions | components/session-view.tsx:91-98 | The actions are appended with `order_index` equal to their position, none completed, and nothing else changes. |
| Store.UpdateSession | lib/hooks/use-sessions.ts:57-69 | Exactly the patched fields are written, `updated_at` is stamped, and the other tables are untouched. |
| Store.UpdateAction | lib/hooks/use-session-data.ts:77-89 | Only actions with that id change, and only their completion flag. |
| Store.ToggleTwiceRestores | lib/hooks/use-session-data.ts:77-89 | Checking an open action and unchecking it again restores the store. |
| Store.RowsInPhase | components/session-view.tsx:47-48 | Every kept row has the phase, and every row of the phase is kept. |
| Store.RowsInPhaseAppend | components/session-view.tsx:47-48 | Filtering distributes over appending rows. |
| Store.HasPhaseIffRow | components/session-view.tsx:50-52 | A phase flag is set exactly when a row of that phase exists. |
| EvidenceForm.SubmitCallback | components/evidence-check.tsx:24-28 | The callback fires exactly when the trimmed length exceeds 20, and it receives the untrimmed text. |
| EvidenceForm.EnabledButtonSubmitsUnlessTwenty | components/evidence-check.tsx:118-120 | An enabled button does nothing exactly when the trimmed length is 20. A disabled button never submits. |
| EvidenceForm.TwentyCharactersEnableButNeverSubmit | components/evidence-check.tsx:118-120 | A concrete text of twenty visible characters enables the button and is not submitted. |
| EvidenceForm.PanelFor | components/evidence-check.tsx:30-72 | The loading view is shown exactly while loading. Otherwise the banner is shown iff evidence exists, and the button is enabled iff the gate allows it. |
| EvidenceForm.FormStaysOpenAfterEvidence | components/evidence-check.tsx:118-120 | Existing evidence never disables the button. |
| SessionView.CurrentFeedback | components/session-view.tsx:222 | The board shows the evidence rows once any exist, otherwise the pattern rows. |
| SessionView.AsFeedback | components/session-view.tsx:155-160 | Stored rows map to engine entries field for field. |
| SessionView.FeedbackRoundTrip | components/session-view.tsx:155-160 | Saving entries and reading them back yields the same entries. |
| SessionView.PatternRowsAfterBatch | components/session-view.tsx:47-48 | A single-phase batch extends that phase's rows by itself and leaves the other phase's rows alone. |
| SessionView.PatternCheckWrites | components/session-view.tsx:60-110 | Call 0 saves five pattern rows. Call 1 saves five actions with `order_index` 0..4, not completed. Call 2 writes score, verdict and stage. A rejected call skips all later ones, so the session changes only after both inserts. |
| SessionView.HandleGenerateBoard | components/session-view.tsx:60-110 | With a session, the writes use this idea's board and actions, and the busy flag is cleared either way. Without one, nothing happens. |
| SessionView.MarketSimWrites | components/session-view.tsx:112-141 | The personas are saved, then the stage becomes market simulation. Score and verdict are never touched, and the session changes only after the personas are saved. |
| SessionView.HandleRunMarketSim | components/session-view.tsx:112-141 | With a session, the writes use this idea's three personas, and the busy flag is cleared either way. |
| SessionView.Prior | components/session-view.tsx:155-160 | The re-scoring prior has one entry per pattern row, in order. Each entry carries that stored pattern row's type, score, diagnosis and prescription. |
| SessionView.EvidenceCheckWrites | components/session-view.tsx:163-178 | The evidence rows are appended, then score, verdict and stage are written. Pattern rows are never touched. |
| SessionView.HandleSubmitEvidence | components/session-view.tsx:143-186 | With a session, the pattern rows are re-scored against the evidence, and the busy flag is cleared either way. |
| SessionView.NewSessionInv | components/session-view.tsx:47-52 | A freshly created session satisfies the workflow invariant. |
| SessionView.PatternCheckKeepsInv | components/session-view.tsx:60-110 | The pattern writes keep the invariant, however far the calls get, and never lower the stage. |
| SessionView.MarketSimKeepsInv | components/session-view.tsx:112-141 | The market writes keep the invariant and never lower the stage. |
| SessionView.EvidenceCheckKeepsInv | components/session-view.tsx:143-186 | The evidence writes keep the invariant and never lower the stage. |
| SessionView.BoardStepInv | components/session-view.tsx:54-58 | An auto-triggered board run keeps the invariant. |
| SessionView.MarketStepInv | components/session-view.tsx:267-273 | An offered market run keeps the invariant. |
| SessionView.EvidenceStepInv | components/session-view.tsx:275-281 | An offered evidence submission keeps the invariant. |
| SessionView.StepPreservesInv | components/session-view.tsx:54-58 | Every guarded event keeps the invariant and never moves the stage backwards. |
| SessionView.RunPreservesInv | components/session-view.tsx:100-178 | Over any run of events, the invariant holds, the stage only moves forward, and `completed` is never written. |
| SessionView.AutoTriggerSettles | components/session-view.tsx:54-58 | After a board run, the auto-trigger's guard holds again exactly when the run's first save was rejected. |
| SessionView.ResubmissionAppendsBatch | components/session-view.tsx:163-172 | Each accepted resubmission appends another five evidence rows; the board shows all evidence rows and the panel stays offered. |
| SessionView.ResubmissionUsesSamePrior | components/session-view.tsx:155-160 | A resubmission is scored against the same pattern rows, never against earlier evidence rows. |
| Timeline.StageStatus | components/progress-timeline.tsx:43-49 | Pattern check is done or pending, never current. Market and evidence are done, else current after their predecessor, else pending. The completed stage follows the evidence flag. Unknown ids are pending. |
| Timeline.Statuses | components/progress-timeline.tsx:14-35 | There is one status per fixed stage, in display order. |
| Timeline.IgnoresCurrentStage | components/progress-timeline.tsx:37-49 | The status does not depend on the `currentStage` prop. |
| Timeline.AtMostOneCurrent | components/progress-timeline.tsx:45-46 | For any flags, at most one stage is current. |
| Timeline.ConsistentFlagsGiveOrderedTimeline | components/progress-timeline.tsx:43-49 | With ordered flags, statuses run from completed to current to pending. |
| Timeline.InconsistentFlagsBreakOrder | components/progress-timeline.tsx:44-45 | With disordered flags, a completed stage can follow a pending one. |
| Timeline.ReachableStoreGivesOrderedTimeline | components/session-view.tsx:285-290 | Every reachable store passes ordered flags to the timeline. |
| Wizard.StartButtons | components/session-wizard.tsx:26-32 | A fresh wizard shows Previous disabled and Next Step disabled, since the empty name is invalid. |
| Wizard.Next | components/session-wizard.tsx:39-41 | Next advances only below step 3 and touches nothing else. |
| Wizard.Back | components/session-wizard.tsx:43-45 | Back retreats only above step 1 and touches nothing else. |
| Wizard.StepStaysInRange | components/session-wizard.tsx:39-45 | Next and Back keep the step within 1..3. |
| Wizard.RunStaysInRange | components/session-wizard.tsx:35-45 | Any sequence of Next, Back, example fills and edits keeps the step within 1..3 and leaves the submitting flag as it was. |
| Wizard.StartedWizardStaysInRange | components/session-wizard.tsx:26-45 | From a fresh wizard, whatever the user does before submitting leaves it on one of the three steps and idle. |
| Wizard.NextBackRoundTrip | components/session-wizard.tsx:39-45 | Next then Back, below step 3, returns to the same wizard, and Back then Next does so above step 1. |
| Wizard.ValidityReadsOneField | components/session-wizard.tsx:60-65 | Validity depends only on the current step's field. Any other step is invalid. |
| Wizard.ButtonsFor | components/session-wizard.tsx:247-276 | Previous is disabled exactly at step 1. Next Step is disabled unless the step is valid. Start Analysis is disabled when the step is invalid or a submission is running. |
| Wizard.EnabledSubmitMeansValidAudience | components/session-wizard.tsx:268-270 | An enabled Start Analysis button implies step 3, an audience of more than 10 trimmed characters, and no submission running. |
| Wizard.FillExample | components/session-wizard.tsx:35-37 | The example replaces the whole form and keeps step and flag. |
| Wizard.ExamplePassesEveryStep | components/session-wizard.tsx:14-18 | The example data passes the validity check of every step. |
| Wizard.Submit | components/session-wizard.tsx:47-58 | The submitting flag is cleared whether creation succeeds or fails. A created session carries the form unchanged. |
| Chat.Send | components/chat-interface.tsx:99-142 | Blank input or a busy chat is ignored. Otherwise the trimmed message fills the current step's field and the step advances: initial to name, name to audience. The audience step emits a request from the stored name and description and the message. |
| Chat.Upload | components/chat-interface.tsx:69-97 | Without a file, nothing happens. A read file sets the description to its full text, moves to the name step and clears the busy flag. A failed read only raises the busy flag, because the reader has no error handler. |
| Chat.FailedReadStallsChat | components/chat-interface.tsx:75-97 | Once busy with no read to finish, the chat ignores every later event, because the text box, the send button and the upload button are all disabled. |
| Chat.FailedUploadStallsFreshChat | components/chat-interface.tsx:69-97 | A failed upload at the start leaves the chat busy in the initial step for good, with no field gathered. |
| Chat.UploadThenTwoMessagesMakeRequest | components/chat-interface.tsx:69-127 | Upload then two messages give a request whose description is the document's untrimmed text, with name = first message and audience = second, both trimmed. |
| Chat.SendDisabledIffIgnored | components/chat-interface.tsx:302-304 | A disabled send button coincides exactly with a send that does nothing. |
| Chat.ChatNeverCompletes | components/chat-interface.tsx:43 | Under the guards, the step only moves forward and never becomes `complete`. |
| Chat.RequestOnlyFromAudience | components/chat-interface.tsx:117-127 | A session request comes only from a send in the audience step, and its audience is the trimmed message. |
| Chat.ThreeMessagesMakeRequest | components/chat-interface.tsx:109-127 | Three messages from the start give a request of name = second, description = first and audience = third, each trimmed. |
| NextActionsView.CompletedCount | components/next-actions.tsx:17-18 | The completed count never exceeds the number of actions. |
| NextActionsView.CountExtremes | components/next-actions.tsx:17-18 | The count is 0 exactly when no action is ticked, and the full length exactly when all are. |
| NextActionsView.Percent | components/next-actions.tsx:19 | The percent is the integer nearest to 100 * completed / total, a half rounding up. It lies in [0, 100], and is 0 for none and 100 for all. |
| NextActionsView.PercentMonotone | components/next-actions.tsx:17-19 | More completed actions never show a lower percent. |
| NextActionsView.ProgressOf | components/next-actions.tsx:14-38 | Nothing is shown for an empty list. Otherwise it shows the completed count, the total and the rounded share `Percent(completed, total)`, which lies in [0, 100]. |
| NextActionsView.CountDiffersAtOne | components/next-actions.tsx:17 | Ticking one open action raises the count by exactly one. |
| NextActionsView.TickingRaisesCount | components/next-actions.tsx:65-68 | Ticking an open action through the store raises the completed count by one. |
| BoardView.AdvisorOf | components/board-view.tsx:27-68 | A type is known exactly when it names one of the five advisors. |
| BoardView.AdvisorTitle | components/board-view.tsx:27-68 | A title exists exactly for the five advisor types. |
| BoardView.RadarLabels | components/board-view.tsx:87-90 | Each advisor's radar label is its title without "The ". An unknown type labels itself. |
| BoardView.DropLeadingThe | components/board-view.tsx:88 | Removing the first "The " from "The " + r gives r. |
| BoardView.ModeFor | components/board-view.tsx:98-145 | Loading takes precedence. The empty prompt is shown exactly when there is no feedback and a handler exists. |
| BoardView.FindType | components/board-view.tsx:94 | The result is the first row of the type, or none when no row has it. |
| BoardView.GetOldScore | components/board-view.tsx:92-96 | The result is null when old scores are off or there are none; undefined when no row matches; otherwise the first matching row's score. |
| BoardView.PrintedOldScoreIsFirstMatch | components/board-view.tsx:206-210 | An old score is printed exactly when old scores are on, and it is the first matching row's score. |
| BoardView.BandOf | components/board-view.tsx:215-221 | The badge is green from 8.0, amber from 6.0, and red below 6.0. |
| BoardView.BandMatchesVerdict | components/board-view.tsx:215-221 | The badge bands coincide with the board verdict's bands. |
| BoardView.Cards | components/board-view.tsx:176-177 | Every card is a feedback row of a known type, and every row of a known type gets a card. |
| BoardView.CardsAppend | components/board-view.tsx:176-177 | The cards of two lists in a row are the cards of each in turn, so the cards keep the rows' order. |
| BoardView.CardsOfOne | components/board-view.tsx:176-177 | One row gives its own card when its type is known and none otherwise. |
| MarketView.ModeFor | components/market-simulation.tsx:21-74 | Loading takes precedence. The run prompt is shown exactly when there are no personas and a handler exists. |
| MarketView.WillingnessBand | components/market-simulation.tsx:96-102 | The band is high from 70, medium from 50, and low below 50. |
| MarketView.CardFor | components/market-simulation.tsx:127-133 | The badge and the icon of a card always share one band. |
| MarketView.AverageInterest | components/market-simulation.tsx:160-162 | The average is undefined exactly for no personas. Otherwise it is the integer nearest the mean willingness, a half rounding up, and lies between the least and greatest willingness. |
| MarketView.ThreePersonasAverage | components/market-simulation.tsx:160-162 | Three personas, each inside its own segment's range, average between 45 and 72 percent. |
| MarketView.SimulatedPersonasAverage | lib/ai-service.ts:217-218 | The three personas a simulation stores average between 45 and 72 percent, whatever the idea and the segment texts. |

## Left out

- Persistence plumbing: the database client and the hooks' queries and refetches are replaced by the in-memory `Store`. A refetch that fails only logs, so it is not modelled as a rejection.
- Authentication and identity: the signed-in user is an `Option<string>` parameter of `Store.CreateSession`.
- Store.CreateSession: the stage, score and verdict of a new row come from column defaults that are not part of this model. `Intake`, a score of 0 and no verdict stand for them.
- Timers, promises, React effects, re-entrancy and stale closures: each handler runs as one atomic step, and a rejected gateway call is the `Fault` parameter. The `delay(2000)` in the engine and the chat's `setTimeout` chains are left out. So is the staleness of the page's copy of the session between refetches.
- SessionView.Step: the `BoardAutoTrigger` event may fire whenever the effect's guard holds. In the source the effect at components/session-view.tsx:54-58 runs again only when `session` or `hasPatternCheck` changes. After a rejected first save neither changes, so the page does not retry until it is mounted again. The model admits every retry order the source can take, and also retries the source never makes.
- Floating point: scores are exact integer tenths. `toFixed(1)` and `Math.round` are modelled as half-up rounding of the exact rational. The source rounds a binary double, which can differ at exact ties. A board of five never ties.
- Text.Trim and Evidence.SignalsOf: strings are sequences of Dafny characters rather than UTF-16 code units, so lengths can differ for characters outside the basic plane. Lower-casing covers ASCII only. The regular expressions are modelled as substring and digit tests.
- Text.Replace: the special `$` patterns of JavaScript's `replace` are not interpreted.
- The template prose is a parameter whose shape is fixed; the exact sentences are not modelled.
- The chat's message transcript (`addMessage`), the scroll effect, the file preview slice and the hand-off to `onSessionCreated` after creation are not modelled. The chat's `Send` returns the request it would pass to `createSession`.
- BoardView.AdvisorOf: a lookup in a JavaScript object also finds inherited keys such as `constructor`. The model treats those as unknown types.
- The animation, icons and copy of every component, and the dashboard, landing, pricing, about and account pages: they hold no decision logic of the core.
