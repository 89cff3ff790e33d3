# A verified model of the TAO Core Go exam engine

TAO Core Go delivers tests: a learner starts a session of a delivery, saves answers, and submits; the
answers are marked, the completion is announced by webhook, and for LTI launches the grade goes back to
the learning platform. This project models the services that make those promises and proves them for
every input, every run and every interleaving.

`dafny verify dfyconfig.toml` checks the whole project.

## What is modelled

- **Sessions** (`SessionSpec`, `SessionLaws`, `SessionProtocol`, `SessionRefinement`,
  `SessionInvariant`, `SessionTheorems`, `SessionLinearization`, `SessionHistory`, `SessionNotices`,
  `SessionAnswers`, `SessionOutcomes`, `SessionService`). `SessionSpec` gives the three calls as
  atomic steps on the tables. `SessionProtocol` gives them as PostgreSQL transactions at READ
  COMMITTED, one statement a step: a statement sees the committed tables and its own writes,
  StartSession locks the delivery row, the other two lock the session row, all other reads take no
  lock, and any statement or commit may fail. The step machine keeps an inductive invariant, refines
  the atomic steps, is linearizable and never deadlocks. `SessionAnswers` says when a call gives
  which answer in terms of the stored rows, and `SessionOutcomes` what that means for the calls of
  every interleaving. `SessionService` is the code's own form, a class whose methods update tables
  and mark rows in a loop; each method is proved against the same atomic step, or fails with a
  failing statement and leaves the tables alone. On SQLite the pool holds one connection, so calls
  run one after the other there.
- **Marking and shuffling** (`Text`, `Scoring`, `Shuffle`, `QtiItem`). ScoreItem as the code runs it,
  against what a right answer is; the in-place Fisher-Yates pass and relabelling; what they keep.
- **QTI import** (`QtiParse`, `Keyed`, `QtiImport`). From a document to an item row, and the import of a
  package over the disk and one transaction, on every exit.
- **LTI** (`LtiLaunch`, `LtiTheorems`, `LtiSafety`, `LtiStatements`, `LtiService`, `JwksCache`). Logins,
  purges, registrations, launches and session calls interleave; the state of section 3.2.2.11 of OpenID
  Connect Core 1.0 is looked up early and consumed late. `LtiStatements` runs launches and session
  transactions as one machine, in which a launch opens a StartSession transaction and waits for it; every
  run of it is a run with atomic session calls, so owners and grades are right statement by statement. `LtiService` is the code's own form, a class whose
  methods update the tables; every call is proved to be a run of those steps and to answer, refuse and
  write as the code does. The cache of signing keys is shared by callers that interleave, and a caller
  that nobody interrupts does what the class's one method does.
- **Rate limiter** (`RateLimiter`) and **webhooks** (`WebhookQueue`, `CompletionDelivery`).

Calls into libraries are parameters: case folding, the digest of user names (taken to be injective, with
a base64url form that has no blanks), origin comparison, the outbound policy, token verification (a
verified token is its claims), key decoding, media sniffing, the replacement of media paths in prompts.
Clock samples, random draws, fresh identifiers and the results of fetches, sends, reads and database
failures come from outside. The clock never goes backwards. Scores are reals. The configuration of items,
tests and deliveries does not change during a run. Strings are sequences of code points; byte limits
count UTF-8 bytes.

## What the code does and its documentation does not say

- The project's documentation and `cmd/server/main.go:172` give the rate limit as 10 requests per
  second. The counter is per fixed window that starts with a client's first request, so a closed span of
  one second can admit 19. `SpanBound` says which bounds hold, exactly those from twice the limit less
  one on, and `LimitHoldsOnlyForOne` that the limit itself holds only when it is 1.
- The comment at `internal/service/scoring_service.go:29` promises an exact comparison for single
  choice; the code ignores letter case, so the response "A" is right for the key "a"
  (`OtherCaseIsNotExact`). `ExactExactlyWhenCaseless` says for which items the promise holds: those
  that can be scored and whose trimmed key is not empty and has no character with another letter case.
  This is also why relabelling keeps single-choice marking exactly when no other identifier that a
  response can name equals the key up to letter case (`SingleChoiceMarkingKept`, `CaseOnlyDocument`).
- A key that is blank but not empty, for a package with an option whose identifier is empty, marks every
  response wrong before relabelling and some right after it (`BlankKeyDocument`).
  `MultipleChoiceMarkingKept` shows that this is the only way in which relabelling can change
  multiple-choice marking.
- After its upsert, SaveResponse reads the row back into a value whose identifier is already set
  (`internal/service/session_service.go:176`), and the database layer may add that identifier to the
  condition, so that saving an item again could fail. The step machine and the class let that read, like
  every statement, fail and roll back, so what is proved holds either way. Row identifiers of responses
  are not modelled.

## Model

| member | source | states |
|---|---|---|
| SessionTheorems.AttemptsStayNumbered | internal/service/session_service.go:51-131 | after any interleaving a user's attempts at a delivery are exactly 1..n, n is within the limit, at most one is not completed |
| SessionTheorems.CompletedSessionsAreFinal | internal/service/session_service.go:184-247 | a completed session's total is the sum of its rows' scores, each row bears weight times its mark, and neither session nor rows change in the rest of any run |
| SessionTheorems.SubmissionHappensOnce | internal/service/session_service.go:184-267 | of any number of concurrent submissions at most one completes the session, it is announced at most once, and every successful one returns the stored result |
| SessionNotices.CompletionsAreAnnounced | internal/service/session_service.go:228-265 | the sessions that a run completed are those announced and those whose completing call has yet to announce them; once none has, exactly those announced |
| SessionNotices.StatementCompletes | internal/service/session_service.go:228-243 | a statement completes a session exactly when it is the end of the submission that says so |
| SessionHistory.RowsAreLastAcceptedAnswers | internal/service/session_service.go:133-182 | the rows are the replay of the accepted SaveResponse calls of the run, in the order of their effects, unmarked until completion, and all items belong to the delivery's test |
| SessionHistory.HistoryIsAcceptedSaves | internal/service/session_service.go:133-182 | what a session's log gains in any run is exactly the accepted saves of the run, in order |
| SessionHistory.ReplayIsLast | internal/service/session_service.go:165-175 | a replay leaves for an item the data of the last answer to it |
| SessionTheorems.StartNeverMoves | internal/service/session_service.go:90-126 | the start of a session that has started never changes |
| SessionTheorems.RefusalClosesAnswers | internal/service/session_service.go:137-152 | when a save is refused as expired, no other save of the session has got past the time check |
| SessionTheorems.ExpiryIsForever | internal/service/session_service.go:285-302 | from then on every open or later save of the session is refused and its answers stay as they are, for the rest of any run |
| SessionTheorems.OneRefusalIsForever | internal/service/session_service.go:133-182 | one save refused as expired: every save of the session not closed by then is refused and the answers stay, whatever the interleaving |
| SessionTheorems.ActionKeepsInv | internal/service/session_service.go:51-267 | every statement, commit, failure and notification keeps the invariant of tables, locks, transactions and notices |
| SessionTheorems.RunKeepsInv | internal/service/session_service.go:51-267 | whole runs keep it, and sessions lose no owner, number, start or accepted answer |
| SessionRefinement.StatementRefines | internal/service/session_service.go:59-126 | a statement either takes its call's one atomic effect or leaves the tables alone |
| SessionInvariant.LocksKept | internal/service/session_service.go:59-66 | row locks belong to the one transaction whose phase holds them, from the locking read to the end |
| SessionLinearization.RunIsAtomicRun | internal/service/session_service.go:51-267 | the tables of every interleaving are those of its atomic calls made one after the other, and each call uses clock samples taken between its opening and its effect |
| SessionLinearization.ActionKeepsClocked | internal/service/session_service.go:68-157 | what a transaction has sampled of the clock stays between its opening and now |
| SessionLinearization.OutcomesAreAtomicOutcomes | internal/service/session_service.go:51-267 | a call takes effect at most once, within its run, and returns the outcome of that atomic call or a database failure |
| SessionLinearization.NeverDeadlocked | internal/service/session_service.go:59-66 | while a transaction is open, some transaction can do its next statement |
| SessionLaws.StepKeepsTables | internal/service/session_service.go:51-247 | each atomic call keeps numbering, answer log and marking of all sessions |
| SessionLaws.StepEvolves | internal/service/session_service.go:51-247 | each atomic call keeps what a session may not lose, and a completed session whole |
| SessionLaws.AttemptsAreOneToN | internal/service/session_service.go:105-125 | consistent tables number a user's attempts 1..n within the limit |
| SessionLaws.TotalWithinReportedMaximum | internal/service/lti_service.go:539-554 | when no row of the test has negative points, a submitted total lies between 0 and the sum of all points, which is the maximum reported to the LMS, also when an item occurs in several sections |
| SessionLaws.TotalDependsOnSavesOnly | internal/service/session_service.go:202-224 | two completed sessions of a delivery whose accepted saves leave the same answers have the same total |
| SessionLaws.SubmissionIsNeverLate | internal/service/session_service.go:184-246 | a submission that can be marked succeeds at any time, with a total that does not depend on the time |
| SessionLaws.MarksAreWeighted | internal/service/session_service.go:202-224 | a row of a completed session is marked by the first row of the test with its item: a right answer earns the item's maximum times the weight, another nothing |
| SessionLaws.AllRightGetsAllPoints | internal/service/session_service.go:202-232 | when every item occurs once and is answered right, the total is the sum of all points |
| SessionAnswers.StartAnswers | internal/service/session_service.go:51-116 | each refusal of StartSession occurs exactly when the delivery, its window, its groups or the attempts say so, and a session is given otherwise |
| SessionAnswers.StartGives | internal/service/session_service.go:90-126 | the latest open session, begun when it was not, or a new one with the next number |
| SessionAnswers.SaveAnswers | internal/service/session_service.go:133-179 | each refusal of SaveResponse occurs exactly when the owner, the state, the limit in seconds or the test says so; otherwise the answer is written, unmarked |
| SessionAnswers.SubmitAnswers | internal/service/session_service.go:184-247 | each refusal of SubmitSession, and what a completing one writes: marks, total, finish and whole seconds since the start |
| SessionOutcomes.StartsAreAnsweredByTheDelivery | internal/service/session_service.go:59-88 | in every interleaving a returned StartSession call was answered by the window and the groups at a time between its opening and its return |
| SessionOutcomes.AdmittedIsNotTurnedAway | internal/service/session_service.go:64-88 | who is admitted from the call to its return gets a session, or has used up all attempts, unless the database fails |
| SessionOutcomes.SessionsAreRecorded | internal/service/session_service.go:68-126 | sessions inserted or begun in a run started in the window and for a user whom the delivery is for; completed ones record the finish and the whole seconds since the start |
| SessionOutcomes.SavesExpireByTheLimit | internal/service/session_service.go:285-302 | a save is refused as expired exactly when its check, at a time within the call, came later than the positive limit in seconds after the session's start |
| SessionOutcomes.OnlyOwnersSucceed | internal/service/session_service.go:133-196 | a save or submission that succeeds was made by the owner of the session |
| SessionOutcomes.StartedIsOwn | internal/service/session_service.go:51-131 | the session that a start returns is the user's, at that delivery |
| SessionOutcomes.AttemptsAreConsecutive | internal/service/session_service.go:105-125 | numbers are 1..n without repetition, n is at most what the delivery allows, one attempt when it says nothing, and all but one are completed |
| SessionOutcomes.CompletedSessionsBearTheirMarks | internal/service/session_service.go:202-232 | after any interleaving the rows of a completed session bear their weighted marks and the total is their sum |
| SessionService.Service.StartSession | internal/service/session_service.go:51-131 | one transaction takes exactly the atomic start step, or fails with the database and changes nothing; it fails only when a statement does or the drawn identifier is taken |
| SessionService.Service.Resume | internal/service/session_service.go:90-100 | the latest open session is returned, and started when it was not |
| SessionService.Service.SaveResponse | internal/service/session_service.go:133-182 | one transaction, its read-back included, takes exactly the atomic save step, or fails with a failing statement and changes nothing |
| SessionService.Service.SubmitSession | internal/service/session_service.go:184-267 | one transaction takes exactly the atomic submit step, or fails with a failing statement and changes nothing; it announces exactly when it completed the session |
| SessionService.Service.MarkRow | internal/service/session_service.go:205-222 | one row gets weight times its mark, or the error that its item or a failing statement calls for |
| SessionService.Service.MarkRows | internal/service/session_service.go:202-227 | the loop marks every row and adds up their scores, or fails on a row that cannot be marked or on a failing statement |
| Assessment.ReportedMaximumIsSum | internal/service/lti_service.go:539-554 | the reported maximum is the sum over the rows of the test of the item's maximum times the row's weight, and an error when that is not positive |
| Assessment.SumTakesAnyRow | internal/service/session_service.go:223-226 | a total does not depend on the order in which rows are added |
| Assessment.SumWithinMaximum | internal/service/session_service.go:304-318 | scores of distinct items, each within its first row's worth, sum to at most all rows' worth |
| Scoring.ScoreItem | internal/service/scoring_service.go:32-71 | the code's trimming, splitting, sorting and joining decides what a right answer is: equality of multisets of parts, or equality up to letter case |
| Scoring.OwnKeyIsRight | internal/service/scoring_service.go:32-68 | the key is a right answer exactly when the maximum is positive and at most a million, the key is not blank and the type is known |
| Scoring.BlanksChangeNothing | internal/service/scoring_service.go:36-56 | blanks around response and key change no mark |
| Scoring.ListsAreComparedAsMultisets | internal/service/scoring_service.go:30-64 | the documented kind of key, two parts and a comma, is met in any order and with blanks, and by no part alone |
| Scoring.ExactExactlyWhenCaseless | internal/service/scoring_service.go:29-46 | single-choice and short-answer marking is an exact comparison exactly when the item can be scored and its trimmed key is not empty and equals no other string up to letter case |
| Scoring.OtherCaseIsNotExact | internal/service/scoring_service.go:29-46 | a response for which the promise fails: "A" is marked right for the key "a" |
| Scoring.TrimmedParts | internal/service/scoring_service.go:48-56 | the trimming loops yield the trimmed parts |
| Scoring.JoinedSortedPartsDecide | internal/service/scoring_service.go:47-63 | joined sorted lists are equal exactly when the lists are equal as multisets |
| Text.SplitJoin | internal/service/scoring_service.go:48-61 | splitting at commas undoes joining of comma-free parts |
| Text.JoinSplit | internal/service/scoring_service.go:48-61 | joining undoes splitting |
| Text.PartsIgnoreOuterBlanks | internal/service/scoring_service.go:36-56 | trimming the whole list first changes none of the trimmed parts |
| Text.TrimSpaceTakesBlanks | internal/service/scoring_service.go:36-37 | trimming takes the blanks at both ends and nothing else |
| Text.SortedUnique | internal/service/scoring_service.go:58-61 | a multiset of strings has one sorted arrangement |
| Text.LexLeqIsByFirstDifference | internal/service/scoring_service.go:58-59 | the order of sorting is that of the first difference |
| Text.SortInPlace | internal/service/scoring_service.go:58-59 | sorting leaves a sorted permutation in the slice, the one that SortStrings gives |
| Shuffle.BalanceOptionsKey | internal/service/scoring_service.go:75-102 | relabelled Fisher-Yates order and identifier map, or the error |
| Shuffle.ShuffleInPlace | internal/service/scoring_service.go:83-92 | the loop of swaps yields the order of its draws, and fails when the source of randomness does |
| Shuffle.RelabelInPlace | internal/service/scoring_service.go:94-99 | labels A, B, C in place, and the map from old identifiers |
| Shuffle.FisherYatesPermutes | internal/service/scoring_service.go:85-92 | every sequence of draws permutes the options |
| Shuffle.DrawsDeterminedByOrder | internal/service/scoring_service.go:85-92 | different draws lead to different orders of distinct options |
| Shuffle.ShuffleIsBijective | internal/service/scoring_service.go:85-92 | every order of distinct options is reached by exactly one sequence of draws |
| Shuffle.LabelsAreLettersInOrder | internal/service/scoring_service.go:94-99 | up to 26 options are labelled A, B, C and so on in their order and keep their texts |
| Shuffle.IdentifierMap | internal/service/scoring_service.go:94-99 | the map knows exactly the identifiers of the options, each under the label of an option that bears it |
| Shuffle.LastBearerIsNamed | internal/service/scoring_service.go:94-99 | an identifier that several options bear gets the label of the last |
| QtiItem.RemapKeyInPlace | internal/service/qti_service.go:314-327 | the key's parts become the labels of their options, or the key is refused |
| QtiItem.MultipleChoiceMarkingKept | internal/service/qti_service.go:309-327 | relabelling keeps the marking of every response that names options, exactly when the key is empty or not blank |
| QtiItem.SingleChoiceMarkingKept | internal/service/qti_service.go:309-327 | with one correct value it does exactly when no other nameable identifier of the options equals the key up to letter case |
| QtiItem.ShuffledMapKnows | internal/service/scoring_service.go:85-99 | whatever the draws, the map knows exactly the identifiers of the options |
| QtiItem.BlankKeyChangesMarking | internal/service/qti_service.go:314-327 | a map and a key for which multiple-choice marking changes: a blank key and an option without an identifier |
| QtiItem.CaseOnlyIdentifiersChangeMarking | internal/service/scoring_service.go:42-46 | a map and a key for which single-choice marking changes: identifiers that differ in letter case only |
| QtiItem.ImagesReflectMultisets | internal/service/scoring_service.go:94-99 | relabelled lists are equal as multisets exactly when the lists were |
| QtiItem.LabelNamesOriginalText | internal/service/scoring_service.go:94-99 | the label of an identifier names one option, with the text that the identifier had |
| QtiParse.ParseItem | internal/service/qti_service.go:273-359 | a document becomes a row exactly when it keeps all limits and its key names options, and then this row |
| QtiParse.AcceptedWithinLimits | internal/service/qti_service.go:273-359 | the documents that become rows: within the limits of texts, options and score, with a key that is empty or names at most 128 options |
| QtiParse.RowsKeepTheirDocuments | internal/service/qti_service.go:280-357 | title, prompt, type by the number of choices, and score of a row, 1 when the document gives none |
| QtiParse.ReadOptions | internal/service/qti_service.go:297-307 | the options with trimmed texts, unless one is too long |
| QtiParse.ImportKeepsTheTexts | internal/service/qti_service.go:297-357 | an imported item can be scored and carries the authored texts, each as often |
| QtiParse.ImportKeepsMultipleChoice | internal/service/qti_service.go:291-357 | an imported multiple-choice item marks as authored exactly when its key is empty or not blank |
| QtiParse.ImportKeepsSingleChoice | internal/service/qti_service.go:291-357 | an imported single-choice item with one correct value marks as authored exactly when the value is unique up to letter case among the document's nameable identifiers |
| QtiParse.BlankKeyDocument | internal/service/qti_service.go:273-359 | a document that the import accepts and whose multiple-choice marking it changes |
| QtiParse.CaseOnlyDocument | internal/service/qti_service.go:273-359 | a document that the import accepts and whose single-choice marking it changes |
| QtiImport.CheckSizes | internal/service/qti_service.go:113-122 | the 64-bit running total lets exactly the packages within the limits pass |
| QtiImport.ExtractsWithinLimits | internal/service/qti_service.go:141-160 | an entry extracts exactly when it is no SVG, XML of at most 5 MiB, or media of at most 20 MiB that are what they claim |
| QtiImport.Importer.SaveMediaFile | internal/service/qti_service.go:197-249 | a media entry is stored whole under a free name, or nothing of it stays |
| QtiImport.Importer.RemoveAll | internal/service/qti_service.go:132-138 | the deferred removal takes away exactly the files of this call |
| QtiImport.Importer.ExtractEntry | internal/service/qti_service.go:141-160 | one entry of the first pass: stored, kept for later, ignored or refused |
| QtiImport.Importer.Extract | internal/service/qti_service.go:140-160 | the first pass stores the media of the entries it passed and stops at the first that does not extract |
| QtiImport.Importer.Insert | internal/service/qti_service.go:162-193 | one transaction inserts all acceptable items or none |
| QtiImport.Importer.ImportQTIPackage | internal/service/qti_service.go:96-194 | success exactly when everything is in order, leaving the returned items and the created files and nothing else; any failure leaves table and disk as they were |
| QtiImport.RowsAreThoseOfDocuments | internal/service/qti_service.go:162-193 | the rows of a package are those of its XML entries with acceptable documents, and no others |
| QtiImport.ImportLeavesExactly | internal/service/qti_service.go:128-193 | after success every returned row and every media entry's bytes are there, nothing older changed, and the counts add up |
| Keyed.OneMore | internal/service/qti_service.go:178-181 | a row goes in under its identifier exactly when no earlier row of the call or of the table has it |
| Keyed.Undo | internal/service/qti_service.go:132-138 | removing what was added under free names restores what was there |
| LtiTheorems.UserIDInjective | internal/service/lti_service.go:596-599 | the user name of a launch determines issuer and subject |
| LtiTheorems.ActionKeepsInv | internal/service/lti_service.go:95-286 | every login, purge, registration, launch statement and session call keeps the invariant of states, launches and links |
| LtiTheorems.UseIsFirst | internal/service/lti_service.go:265-270 | the conditional update meets only states that nobody consumed and no call was made for |
| LtiSafety.RunKeepsInv | internal/service/lti_service.go:167-286 | whole runs keep it; registrations, issued states, consumptions and links only grow |
| LtiSafety.StatesAreConsumedOnce | internal/service/lti_service.go:212-270 | two consumptions in one run are of different states |
| LtiSafety.SessionCallsAnswerTheirLogin | internal/service/lti_service.go:182-276 | each StartSession call of a launch was made by the launch that consumed its state, with a clock sample before expiry, for a token with subject, issue time, deployment, resource, a role, message type, version, nonce and target of that login, from that login's platform, with a mapping, and with a line item only where scope and policy allow it |
| LtiSafety.LoginsLastFiveMinutes | internal/service/lti_service.go:178-270 | a state starts sessions only for launches that began within five minutes of its login |
| LtiSafety.OneSessionCallPerLogin | internal/service/lti_service.go:212-276 | no two StartSession calls of launches are for one state |
| LtiSafety.LinkRowsNameTheirOwners | internal/service/lti_service.go:246-286 | the user name of a link's issuer and subject is the session's owner, and a mapping for its platform, deployment and resource leads to the session's delivery |
| LtiSafety.RelaunchKeepsTheSubject | internal/service/lti_service.go:277-284 | a link row, once there, names the same issuer and subject for the rest of any run |
| LtiSafety.GradesBelongToTheirSubject | internal/service/lti_service.go:288-322 | a returned grade names the subject who took the test, gives the sum of the marked rows, and lies between 0 and its maximum, the sum of all points |
| LtiSafety.GradeIsTotalOutOfPoints | internal/service/lti_service.go:288-322 | a grade is sent exactly when there is a link row with a line item and the test has points; it is the total out of the sum of all points |
| LtiSafety.AllRightIsFullGrade | internal/service/lti_service.go:288-322 | right answers to all items of a test, each in it once, give the maximum |
| LtiSafety.GradesAgree | internal/service/lti_service.go:288-322 | grades sent for one completed session at different times are equal |
| LtiStatements.ActionFollows | internal/service/lti_service.go:272-276 | a statement of a launch or of any session transaction is one step of the machine with atomic session calls, or leaves its state alone |
| LtiStatements.ActionKeepsInv | internal/service/lti_service.go:265-286 | every statement keeps launches and their transactions in step, over the same tables and clock |
| LtiStatements.StatementsAreAtomicCalls | internal/service/lti_service.go:212-286 | every interleaving of launches and session statements leads the launches where a run with atomic session calls leads them |
| LtiStatements.OneTransactionPerLogin | internal/service/lti_service.go:265-276 | each transaction of a launch was opened by the consumer of a state that had not expired, different transactions for different states, failed ones included |
| LtiStatements.LaunchedIsReturned | internal/service/lti_service.go:272-286 | a launch that is done opened exactly one transaction, which is committed and returned the session that the launch gives out |
| LtiStatements.LinkRowsNameTheirOwners | internal/service/lti_service.go:246-286 | after any interleaving of statements a link row names the owner and a mapping that leads to the delivery of the committed session |
| LtiStatements.GradesBelongToTheirSubject | internal/service/lti_service.go:288-322 | after any interleaving of statements a returned grade names the subject who took the test and gives the sum of the committed rows, between 0 and the sum of all points |
| LtiStatements.AllRightIsFullGrade | internal/service/lti_service.go:288-322 | after any interleaving of statements right answers to all items of a test, each in it once, give the maximum |
| LtiStatements.GradesAgree | internal/service/lti_service.go:288-322 | grades sent for one completed session at different times are equal, whatever statements lie between |
| LtiService.Lti.RegisterPlatform | internal/service/lti_service.go:95-144 | a platform is registered exactly when its trimmed names are not empty, it is acceptable and new, and its row is inserted |
| LtiService.Lti.RegisterResourceLink | internal/service/lti_service.go:146-165 | a mapping is registered exactly when nothing is blank or too long, platform and delivery are found, it is new, and its row is inserted |
| LtiService.Lti.FindPlatform | internal/service/lti_service.go:218-221 | finds a platform of this issuer and client when there is one |
| LtiService.Lti.InitiateLogin | internal/service/lti_service.go:167-190 | accepted exactly when the request is within the limits, names somebody and a target of a registered platform and no statement fails; then a state that lives five minutes is issued and the expired ones purged unless that fails; a run of the machine's steps |
| LtiService.Lti.CheckToken | internal/service/lti_service.go:213-244 | the first check that fails, in order, or the platform; a token passes exactly when state, platform and claims are as the launch demands |
| LtiService.Lti.FindDelivery | internal/service/lti_service.go:246-250 | the delivery of the launch's mapping, when there is one |
| LtiService.Lti.UseState | internal/service/lti_service.go:251-270 | refused for its line item or its state, or the state is used up |
| LtiService.Lti.StartFor | internal/service/lti_service.go:272-276 | one StartSession call for the derived user and the mapped delivery |
| LtiService.Lti.WriteLink | internal/service/lti_service.go:277-284 | the session's link row names platform, deployment, resource, subject and line item of the launch |
| LtiService.Lti.HandleLaunch | internal/service/lti_service.go:212-286 | a launch is accepted exactly when state, platform, claims, mapping and line item are as demanded and no statement fails; a refused one changes nothing that lasts, another one uses its state up, makes one StartSession call and on success writes the link row; a run of the machine's steps |
| LtiService.Lti.GoodLaunchStarts | internal/service/lti_service.go:212-286 | an accepted launch without failing statements uses its state up, makes the StartSession call for the derived user, and writes the whole link row for the session it gets |
| LtiService.RefusalsAreExact | internal/service/lti_service.go:214-264 | the checks in their order refuse exactly the launches that miss a demand |
| LtiService.TrimSlashesTakesSlashes | internal/service/lti_service.go:96 | trimming takes all slashes at the end and nothing else |
| LtiService.CallsKeepInv | internal/service/lti_service.go:95-286 | what every run keeps, every call of the class keeps |
| JwksCache.AloneAsOneCall | internal/service/lti_service.go:412-483 | the steps of a caller that nobody interrupts do what SigningKey does |
| JwksCache.Cache.SigningKey | internal/service/lti_service.go:412-483 | a live set answers alone; otherwise an acceptable fetched set is stored and answers, and a failed fetch changes nothing |
| JwksCache.Cache.ReadKeys | internal/service/lti_service.go:466-475 | the loop over the fetched keys yields the usable ones by name |
| JwksCache.UsableNamesAreKnown | internal/service/lti_service.go:466-475 | a name is known exactly when a usable key bears it |
| JwksCache.LastUsableKeyWins | internal/service/lti_service.go:466-475 | a name stands for the last usable key that bears it |
| JwksCache.FetchDecides | internal/service/lti_service.go:440-483 | without a live set, a fetched set of at most 100 keys is stored for fifteen minutes and answers, and otherwise the call fails and stores nothing |
| JwksCache.KeysComeFromTheirUrl | internal/service/lti_service.go:412-483 | after any interleaving a cached answer is that of a set fetched from the URL and stored less than 15 minutes before, known name or not; every other key is from the caller's own fetch |
| JwksCache.CacheHoldsTheLatestSet | internal/service/lti_service.go:476-478 | what is cached for a URL is the set that was stored for it last, and nothing else is cached |
| RateLimiter.Limiter.constructor | internal/middleware/rate_limit.go:26-31 | a new limiter tracks nobody |
| RateLimiter.Limiter.Request | internal/middleware/rate_limit.go:50-91 | the new map and the decision of one request, with the evicted client when the map is full |
| RateLimiter.Limiter.Cleanup | internal/middleware/rate_limit.go:38-43 | a sweep drops exactly the clients whose window had passed when they were looked at |
| RateLimiter.TrackedClientsBounded | internal/middleware/rate_limit.go:58-72 | the map never exceeds 10000 clients |
| RateLimiter.WindowAnswers | internal/middleware/rate_limit.go:76-89 | within its window a client is let through exactly while its count is within the limit |
| RateLimiter.FirstRequestsGoThrough | internal/middleware/rate_limit.go:57-91 | of the k requests in a window exactly the first min(k, limit) go through |
| RateLimiter.AdmittedWithinAllowance | internal/middleware/rate_limit.go:50-91 | what a client may still get through in a window length, by the state of its counter |
| RateLimiter.SpanAdmitsBelowTwiceLimit | internal/middleware/rate_limit.go:50-91 | a closed span of one window length admits at most 2 * limit - 1 requests of a client that is not evicted |
| RateLimiter.SpanBoundIsTight | internal/middleware/rate_limit.go:50-91 | a run from a new limiter that meets that bound, for every limit and window |
| RateLimiter.SpanBound | internal/middleware/rate_limit.go:26-91 | after any history of a new limiter, a bound holds of all spans exactly when it is at least 2 * limit - 1 |
| RateLimiter.LimitHoldsOnlyForOne | internal/middleware/rate_limit.go:26-91 | the limit itself holds of all spans exactly when it is 1 |
| RateLimiter.CountingKept | internal/middleware/rate_limit.go:72-78 | counters stay positive over any run |
| RateLimiter.CleanupIsUnobservable | internal/middleware/rate_limit.go:33-45 | without eviction, whatever the sweeps, the answers are those of a limiter that keeps every client forever |
| WebhookQueue.ActionKeepsConserved | internal/service/webhook_service.go:64-128 | every event is dropped, queued, held by a worker or finished as often as it was dispatched, and the queue stays within 100 |
| WebhookQueue.ActionKeepsPlaces | internal/service/webhook_service.go:64-128 | the queue is in the order of dispatch and no event is held twice |
| WebhookQueue.ActionKeepsSends | internal/service/webhook_service.go:114-128 | what a worker may still send was not sent before |
| WebhookQueue.ActionKeepsLogs | internal/service/webhook_service.go:130-181 | one log entry for each request that has ended, none for one under way |
| WebhookQueue.EventsAreConserved | internal/service/webhook_service.go:54-70 | after any interleaving every dispatched event is in exactly one place, once, no other event is anywhere, and the queue is in order and within 100 |
| WebhookQueue.DispatchQueuesOrDrops | internal/service/webhook_service.go:64-70 | an event is queued while fewer than 100 are, and dropped otherwise |
| WebhookQueue.RequestsGoToSubscribers | internal/service/webhook_service.go:114-181 | every request goes to an active subscription to its event, and the log says success exactly for status 2xx |
| WebhookQueue.EverySubscriberIsServed | internal/service/webhook_service.go:114-128 | when a worker is done with an event, every subscription that was active when it read them was sent a request |
| WebhookQueue.OneRequestPerSessionAndSubscription | internal/service/webhook_service.go:114-170 | for events about different sessions, one request per session and subscription at most, one log entry per ended request |
| WebhookQueue.Worker.Deliver | internal/service/webhook_service.go:124-126 | the loop makes one entry per subscription, in their order |
| WebhookQueue.AloneAsDeliver | internal/service/webhook_service.go:124-170 | the steps of a worker that nobody interrupts send one request per subscription left and log what Deliver logs |
| WebhookQueue.Worker.SendWebhook | internal/service/webhook_service.go:130-170 | every way out of a request logs exactly once |
| CompletionDelivery.CompletionsAreDeliveredAtMostOnce | internal/service/session_service.go:249-261 | in the machine where only a completing submission dispatches: only completed sessions are sent, none twice to a subscription, and once all is announced exactly the sessions completed in the run were dispatched |
| CompletionDelivery.RunKeepsInv | internal/service/session_service.go:249-261 | the events dispatched are the announcements, in their order, in every run |

## Left out

- LtiLaunch: in the machine a login's length limits and the validation of URLs and keys at registration only shrink what can happen, and are left out; an issuer is taken to be free of NUL, which URL parsing ensures.
- LtiService.Lti.RegisterPlatform: the validation of URLs and keys is a parameter; key material is not stored.
- SessionProtocol: SQLite's locking is not modelled beyond one call at a time; isolation levels other than READ COMMITTED, lock timeouts and lost connections appear only as failing statements.
- SessionService.Service.SaveResponse: whether the read-back of an answered item fails depends on how the database layer treats an identifier that is already set (session_service.go:176); the class takes the failing statements from outside and does not decide this one.
- SessionTheorems.SubmissionHappensOnce: one announcement stands for the event bus, the webhook dispatch and the grade, which one branch sends together; whether each arrives is not modelled.
- QtiImport.Importer.ImportQTIPackage: removing a file is taken to succeed, and no other transaction touches the items during the call.
- QtiParse.ParseItem: the replacement of media paths in a prompt is a parameter, since it iterates over a map in no fixed order; decoding ZIP and XML and encoding the options are library calls.
- JwksCache: decoding of moduli and exponents is a parameter; HTTP status, size limit and JSON decoding of a fetch are one failure.
- Rounding, overflow, NaN and infinities of floating-point scores.
- GetSession, the CSV report, proctoring, metrics, the event bus and the HTTP layer: single reads or plumbing.
- Pausing a session: the status exists and nothing sets it.
- The HTTP exchanges of grade return and token fetch, signing, encryption, the outbound URL policy and token parsing: library behaviour; a grade is modelled as the data that is sent.
- Registration of webhooks beyond the accepted event name, and the text of log entries.
