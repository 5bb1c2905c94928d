# Visa interview practice backend, modelled in Dafny

This project models the interview engine of a Go web service for practising
student-visa interviews. It covers four parts:

- **The question graph chat flow.** A stored session moves along a graph of
  questions one chat turn at a time until it finishes (`internal/handlers/chat_handler.go`).
- **The list flow.** Questions are drawn per category from a bank, and answers
  are submitted against the selected list (`interview/questions.go`,
  `interview/handlers.go`).
- **Grading and summaries.**
  - The rubric verdict of an LLM is received and converted into score deltas
    and follow-up decisions (`interview/llm.go`, `interview/followups.go`).
  - The request to the LLM and its reply are built and stripped (`interview/analyzer.go`).
  - The verdicts of a session are summarised (`interview/analyzer.go`,
    `interview/evaluation.go`).
- **Supporting parts.**
  - The in-memory session store and user repository
    (`interview/session_store.go`, `internal/repository/user_repo.go`).
  - A small command-line prototype scorer that matches keywords
    (`ai_tests/main.go`).

Modules follow the Go files:

| module | file | what it holds |
|---|---|---|
| `Wrappers` | `wrappers.dfy` | `Option` and `Result` |
| `GoStrings` | `gostrings.dfy` | the `strings`/`fmt` functions the code relies on |
| `Models` | `models.dfy` | `interview/models.go` |
| `Analyzer` | `analyzer.dfy` | `interview/analyzer.go` |
| `Llm` | `llm.dfy` | `interview/llm.go` |
| `Evaluation` | `evaluation.dfy` | `interview/evaluation.go` |
| `Followups` | `followups.dfy` | `interview/followups.go` |
| `Questions` | `questions.dfy` | `interview/questions.go` |
| `SessionStore` | `session_store.dfy` | `interview/session_store.go` |
| `ListHandlers` | `list_handlers.dfy` | `interview/handlers.go` |
| `ChatHandler` | `chat_handler.dfy` | `internal/handlers/chat_handler.go` |
| `UserRepo` | `user_repo.dfy` | `internal/repository/user_repo.go` |
| `PracticeApp` | `practice_app.dfy` | `ai_tests/main.go` |

What the source changes in place is a class in the model:

- `*Session` is `Models.Session`.
- The package-level session map is `SessionStore.SessionStore`.
- The question bank is `Questions.QuestionBank`.
- The user repository is `UserRepo.UserMemoryRepo`.
- The prototype's `InterviewSession` is a class of its own.

The handlers are methods that change those objects field by field. Each method
is proved against a specification. That specification is a function of the old
state, or a two-state predicate such as `ChatHandler.ChatTurn`, and lemmas state
what the source promises about it.

Everything outside the program is a parameter:

- The clock is a `Time` argument (`now`).
- Fresh UUIDs are a `freshId` argument.
- The LLM grader is a function from the prompt to its reply, or to a parsed analysis.
- `json.Marshal` is a function argument.
- `fmt.Sprintf("%.1f", …)` is the `format` argument.
- Go's unspecified map iteration order and `rand.Shuffle` are nondeterministic choices (`:|`).

## Model

Definitional functions that only compute a value (GenerateRecommendation,
ConvertAnalysisToEval, StripFences, Sanitize, Submit, ChatTurn, Selection,
AnswerVerdict and the like) have no rows of their own. Each is pinned down by
the rows of the lemmas and methods about it, which cite the same source lines.

| member | source | states |
|---|---|---|
| Models.ValidAnalysisScores | interview/models.go:61-66 | a valid rubric score keeps each criterion in 1..5 with the total their sum, so the total lies in 3..15 |
| Models.Session.NewSession | interview/session_store.go:17-29 | a new session has the given IDs, current question "q1_purpose", no selected questions, index 0, no answers, zero scores, status active, no summary, and created == updated == now |
| SessionStore.SessionStore.constructor | interview/session_store.go:12-15 | the store starts as the empty map |
| SessionStore.SessionStore.SaveSession | interview/session_store.go:31-36 | saving stamps UpdatedAt with the clock and stores the session under its ID, overwriting that entry only |
| SessionStore.SessionStore.GetSession | interview/session_store.go:38-43 | found exactly when a session was saved under the ID, and then it is that same object |
| SessionStore.SaveGetRoundTrip | tests/interview_session_test.go:66-86 | a session saved, given one more answer and saved again is the object stored under its ID, its answers are the old ones followed by exactly that answer, and it carries the later time |
| Evaluation.AddEval | interview/evaluation.go:25-33 | nil changes no bucket; otherwise each of the four buckets moves by exactly its delta component |
| Evaluation.ApplyEval | interview/evaluation.go:25-33 | ApplyEval changes only the session's scores, to AddEval of the old scores |
| Evaluation.AddAllIsSum | interview/evaluation.go:25-33 | applying a run of evaluations one at a time equals adding their summed delta once |
| Evaluation.AddEvalCommutes | interview/evaluation.go:25-33 | the order in which two evaluations are applied does not matter |
| Evaluation.ApplyAnalysis | interview/evaluation.go:37-43 | nil is a no-op; otherwise the scores move by the converted evaluation of the analysis |
| Evaluation.AnalysisEffect | interview/evaluation.go:37-43 | an analysis with clamped total ≤ 10 adds 5, and one ≥ 13 subtracts 3, to overall risk and the category's bucket; 11-12 changes nothing |
| Evaluation.Analysed | interview/evaluation.go:53-54 | the answers that carry an analysis, one element per analysed answer |
| Evaluation.AnalysedMembers | interview/evaluation.go:53-54 | an answer is kept exactly when it is in the session and carries an analysis |
| Evaluation.AnalysisRecordsOf | interview/evaluation.go:52-64 | one record per analysed answer |
| Evaluation.RecordsMatchAnalysed | interview/evaluation.go:52-64 | the k-th record is built, in answer order, from the k-th analysed answer: ID "analysis_<session>_<k>", the session ID, question, answer, analysis and time |
| Evaluation.RecordIdInjective | interview/evaluation.go:56 | two record numbers give the same record ID only if they are equal |
| Evaluation.RecordIdsDistinct | interview/evaluation.go:56 | the records of one session have pairwise distinct IDs |
| Evaluation.GenerateSessionSummary | interview/evaluation.go:46-82 | no answers gives "no answers in session"; no analysed answer gives "no analyses found in session"; otherwise the summary of the analysed answers' records, tagged with the session ID |
| Analyzer.Clamp | interview/analyzer.go:434-439 | the score is clamped into 3..15, left unchanged inside it |
| Analyzer.ScoreToPercentage | interview/analyzer.go:433-442 | the percentage lies in 0..100 |
| Analyzer.ScoreToPercentageFixedPoints | interview/analyzer.go:433-442 | anything ≤ 3 maps to 0, 9 to 50, anything ≥ 15 to 100 |
| Analyzer.ScoreToPercentageMonotone | interview/analyzer.go:433-442 | a larger score never gives a smaller percentage |
| Analyzer.GetGradeFromScore | interview/analyzer.go:408-419 | the grade is one of A, B, C, D; "A" exactly at 15; "B" exactly from 13 up except 15, so a score above 15 gets "B"; "C" exactly from 11 to 12; "D" exactly below 11 |
| Analyzer.RecommendationBands | interview/analyzer.go:421-430 | the recommendation is one of the four fixed texts; the excellent text exactly from 15, the good text exactly from 13 up to 15, the practice text exactly from 11 up to 13, the improvement text exactly below 11; a higher average never gets a text of lower RecommendationRank |
| Analyzer.TruncateBounds | interview/analyzer.go:309 | int() truncates toward zero: the integer lies within 1 of the value, on the zero side |
| Analyzer.GradeMatchesRecommendation | interview/analyzer.go:408-430 | for averages in 3..15 the letter grade of int(avg) is A, B, C or D exactly when the recommendation is the excellent, good, practice or improvement text |
| Analyzer.FormatCriterionName | interview/analyzer.go:527-538 | an unknown criterion key passes through unchanged |
| Analyzer.FormatCriterionNameInjective | interview/analyzer.go:527-538 | the three criterion keys get three distinct labels from the fixed label set |
| Analyzer.CountInBand | interview/analyzer.go:448-463 | a per-criterion count never exceeds the number of records |
| Analyzer.Bump | interview/analyzer.go:453 | Go's m[k]++: k gains an entry one above its old value (0 when missing); other entries stay |
| Analyzer.CountRecordStep | interview/analyzer.go:448-463 | counting one more record keeps the counting map exact: an entry exactly for the criteria some record counts, holding that count |
| Analyzer.CountOne | interview/analyzer.go:449-462 | one record's three conditional increments, criterion by criterion |
| Analyzer.CountCriteria | interview/analyzer.go:445-463 | the counting map has an entry exactly for each criterion some record scores in the band, holding how many do |
| Analyzer.CommonAreas | interview/analyzer.go:465-472 | the labels, each once and in any order, are exactly those of criteria counted at least once and at least n/2 times (integer division) |
| Analyzer.ExtractCommonStrengths | interview/analyzer.go:444-473 | the strong areas are the criteria scored ≥ 4 by at least one record and by at least n/2 of them |
| Analyzer.ExtractCommonWeaknesses | interview/analyzer.go:475-500 | the weak areas are the criteria scored ≤ 3 by at least one record and by at least n/2 of them |
| Analyzer.ExtractCommonRedFlags | interview/analyzer.go:502-525 | the red flags, each once in any order, are the fixed labels of the criteria some record scores ≤ 2 |
| Analyzer.GenerateSessionSummary | interview/analyzer.go:294-316 | zero records is an error; otherwise the count, average sum/n, grade of int(avg), strong, weak and red-flag areas, recommendation and completion time of the records |
| Analyzer.SummaryOfFourteenAndThirteen | tests/interview_evaluation_test.go:8-59 | totals 14 and 13 give two questions, average 13.5 and grade "B" |
| Analyzer.CountAnalysed | interview/analyzer.go:249 | the number of analysed answers never exceeds the number of answers |
| Analyzer.HistoryLength | interview/analyzer.go:242-258 | the history holds one user message per answer plus one assistant message per analysed answer |
| Analyzer.HistoryLayout | interview/analyzer.go:242-258 | answer k's user message "Question: …\nStudent's Answer: …" sits at k plus the earlier analysed answers, followed by its marshalled analysis exactly when it has one |
| Analyzer.HistoryHasNoSystemMessage | interview/analyzer.go:242-258 | no history message has the system role |
| Analyzer.GetSessionMessages | interview/analyzer.go:265-291 | the system prompt followed by the session's history |
| Analyzer.RequestLayout | interview/analyzer.go:342-345 | the request has 2 + answers + analysed answers messages: the system prompt first, the new question and answer last, and no other system message |
| Analyzer.StripFencesUnfenced | interview/analyzer.go:391-396 | a reply with no outer white space and no fences is left unchanged |
| Analyzer.StripFencesOfFenced | interview/analyzer.go:391-396 | a reply wrapped in ```json … ``` gives its trimmed body |
| Analyzer.GradeSucceeds | interview/analyzer.go:324-404 | a successful grading had an API key, a non-empty list of choices, and the first choice, stripped of fences, parsed to the result |
| Analyzer.AnalyzeAnswer | interview/analyzer.go:209-223 | grading without history: the grading of an empty session |
| Analyzer.AnalyzeAnswerWithSession | interview/analyzer.go:227-261 | an empty API key errors before anything is built; otherwise the grading of the session's history plus the new question and answer |
| Llm.ContainsAnyOf | interview/llm.go:161-169 | the loop finds a match exactly when some keyword occurs, case-insensitively, in the text |
| Llm.MentionsAnyIgnoresCase | interview/llm.go:161-169 | lower-casing the text first does not change whether any keyword occurs |
| Llm.PercentageMatchesFloat | interview/llm.go:72 | the integer percentage formula equals int(ScoreToPercentage(total)) and lies in 0..100 |
| Llm.PercentageBands | interview/llm.go:75-137 | percentage < 70 iff clamped total ≤ 11, < 60 iff ≤ 10, ≥ 80 iff ≥ 13, and percentage/10 ≤ 10 |
| Llm.PercentageMonotone | interview/llm.go:72 | a larger total never gives a smaller percentage |
| Llm.Scale10 | interview/llm.go:81-89 | the scaled value is min(2 × criterion, 10): twice the criterion for criteria up to 5, and 10 from 5 up |
| Llm.SuggestFollowupChoice | interview/llm.go:101-111 | the type is the first keyword group mentioned, in the order purpose, university, financial, home ties, and "" when none is |
| Llm.DeltaFor | interview/llm.go:116-137 | the step goes to overall risk and to the category's bucket only: academic, financial, or intent-to-return for immigration intent and post-graduation plans |
| Llm.RiskStep | interview/llm.go:116-137 | the step is +5, 0 or −3 |
| Llm.FlagsShape | interview/llm.go:139-146 | "classification:…" is flagged iff the classification is not blank, "feedback:…" iff the feedback is not blank, and nothing else |
| Llm.ConvertFields | interview/llm.go:62-158 | quality = percentage/10 in 0..10 with quality + intent risk = 10; clarity and confidence scaled ×2 capped at 10; follow-up needed iff clamped total ≤ 11, typed only then; delta by band and category; flags |
| Llm.ConvertMonotone | interview/llm.go:62-158 | a higher total never lowers quality, never raises intent risk, and never needs a follow-up where a lower one does not |
| Llm.ConvertExtremes | interview/llm.go:62-158 | total 15 gives quality 10, risk 0, no follow-up, overall −3; total 3 gives quality 0, risk 10, a follow-up, overall +5 |
| Llm.AnalyzeAnswer | interview/llm.go:29-38 | an empty API key is an error; otherwise the grading of the session's history and the question's text |
| Llm.CallLLM | interview/llm.go:42-49 | succeeds exactly when grading does, converting its verdict; otherwise passes the grading error on |
| Followups.HasAskedQuestion | interview/followups.go:22-29 | true exactly when some answer has that question ID |
| Followups.FirstEligibleChoice | interview/followups.go:57-67 | the result is the first candidate that is allowed and not yet asked, or "" when none is |
| Followups.PickFollowupChoice | interview/followups.go:41-68 | an empty or unknown type gives ""; a pick is in the type's list, among the question's candidates and not yet asked; "" for a known type means no candidate qualifies |
| Followups.PickFollowupQuestion | interview/followups.go:41-68 | the pick depends only on the question, the type and the session's answers, and changes nothing |
| Followups.NextQuestionChoice | interview/followups.go:32-39 | without an eval or without a follow-up need the next ID is current.NextID; any other result is an unasked candidate of the suggested type |
| Followups.DecideNextQuestion | interview/followups.go:32-39 | the decision is NextQuestion of the current question, the answers and the eval, with the session unchanged |
| Questions.TablesAgree | interview/questions.go:59-79 | CategoryOrder lists each category of QuestionSelectionRules exactly once |
| Questions.SanitizedChar | interview/questions.go:155-161 | an ASCII letter or digit is kept, ' ' and '/' become '_', and any other character contributes nothing |
| Questions.SanitizeShape | interview/questions.go:152-163 | the result is no longer than the input and holds only ASCII letters, digits and '_' |
| Questions.SanitizeAppend | interview/questions.go:152-163 | sanitizing works character by character: the suffix of a + b is the suffix of a followed by the suffix of b |
| Questions.SanitizeAlnum | interview/questions.go:152-163 | an all-alphanumeric category is its own ID suffix |
| Questions.SanitizeHead | interview/questions.go:152-163 | an alphanumeric first character is kept as the first character |
| Questions.SanitizeCategory | interview/questions.go:152-163 | the loop computes Sanitize |
| Questions.Contribution | interview/questions.go:113-136 | a category with a rule and a list never contributes more questions than its list holds |
| Questions.FullyStockedGivesTwelve | interview/questions.go:60-68 | a bank with every category stocked to its rule yields 12 slots |
| Questions.QuestionIdInjective | interview/questions.go:139 | "q<k>_<suffix>" IDs with different numbers differ |
| Questions.SlotIdsDistinct | interview/questions.go:139 | numbering slots by position makes all IDs of a selection distinct |
| Questions.SlotCategoriesInOrder | interview/questions.go:112 | every slot's category comes from CategoryOrder |
| Questions.CategoriesCapitalised | interview/questions.go:71-79 | every category name starts with a capital letter |
| Questions.CapitalSuffixNotFirst | interview/session_store.go:10 | a selector ID with a capitalised suffix is never "q1_purpose" |
| Questions.SelectionNeverHasFirstQuestionId | interview/questions.go:139 | no selected question has ID "q1_purpose", the cursor NewSession starts on |
| Questions.SelectionIdsDistinct | interview/questions.go:139 | the IDs of one selection are pairwise distinct |
| Questions.Shuffle | interview/questions.go:128-130 | the shuffle permutes the copy |
| Questions.QuestionBank.constructor | interview/questions.go:13 | the bank starts as the nil (empty) map |
| Questions.QuestionBank.LoadQuestions | interview/questions.go:92-104 | the bank becomes the parsed map before validation; the result is an error iff some required category is missing, naming one such category |
| Questions.QuestionBank.SelectQuestionsForSession | interview/questions.go:108-149 | the selection follows CategoryOrder, one numbered question per slot, min(rule, list) slots per category, texts drawn from distinct positions of its list |
| Questions.DrawCategory | interview/questions.go:123-145 | drawing one stocked category extends a selection of the first i categories to one of the first i + 1 |
| Questions.DrawTexts | interview/questions.go:124-136 | the copy is shuffled and min(count, length) texts are taken, a sub-multiset of the list |
| Questions.AppendSlots | interview/questions.go:138-145 | one question per taken text, numbered by its position in the selection, with the category and that text |
| Questions.SkipCategory | interview/questions.go:113-121 | a category with no rule, no list or an empty list adds nothing and raises no error |
| Questions.TakeCategory | interview/questions.go:123-145 | taking min(rule, list) texts of one category keeps the selection invariant |
| ListHandlers.ProgressOf | interview/models.go:45-59 | the list-flow view of a session holds its answers, index and status |
| ListHandlers.FindQuestion | interview/handlers.go:78-85 | absent exactly when no selected question has the ID; otherwise a selected question with that ID |
| ListHandlers.FindQuestionFirst | interview/handlers.go:78-85 | a question found is the earliest selected question with the ID: every selected question before it has another ID |
| ListHandlers.FindCurrentQuestion | interview/handlers.go:78-85 | the scan returns what FindQuestion returns: nothing exactly when no selected question has the current ID, otherwise the selected question at some position k whose ID is the current one, with every position before k holding another ID |
| ListHandlers.GradedEval | interview/handlers.go:104-108 | an evaluation exactly when grading succeeds, and then its converted verdict |
| ListHandlers.AcceptEffect | interview/handlers.go:95-130 | exactly one answer is appended with the request's ID and answer and the question's text; it has an eval iff grading succeeds; the scores move by it; the index rises by 1; finished iff the index reaches the selection's end |
| ListHandlers.SubmitKeepsInStep | interview/handlers.go:95-135 | from a consistent cursor (answers == index, and while active, current == selected[index].id) a submission keeps it consistent and never hits "current question not found" |
| ListHandlers.SubmitToUnselectedCursor | interview/handlers.go:78-92 | an active session whose current question is not among the selected ones is finished with "current question not found", with no answer recorded and scores and index unchanged |
| ListHandlers.SubmitToInactive | interview/handlers.go:68-76 | a session that is not active is left unchanged and reported finished |
| ListHandlers.FinishedAfterLastQuestion | interview/handlers.go:118-130 | a submission appends one answer and finishes the session exactly when all selected questions are answered, replying finished with no question |
| ListHandlers.StartResponse | interview/handlers.go:21-31 | an error exactly when nothing is selected; otherwise the session ID and the first selected question |
| ListHandlers.CreateSessionHandler | interview/handlers.go:16-34 | as written: the fresh session, active and with no answers, is saved first and no other stored session changes; then the handler always reports "no questions selected", and the saved session's cursor is not on a selected question |
| ListHandlers.NewSessionCursorNeverMatches | interview/handlers.go:79-92 | no selection the bank can make contains "q1_purpose", so the list flow could not find the current question of a NewSession even if one were selected |
| ListHandlers.CreateSessionWithSelection | interview/handlers.go:16-34 | corrected: a session with a selection from the bank is saved; the reply is its first question, or the error when nothing is selected, and then the cursor is consistent |
| ListHandlers.RecordGradedAnswer | interview/handlers.go:95-112 | the answer is appended, graded with the history that already holds it, and its eval attached |
| ListHandlers.AcceptAnswer | interview/handlers.go:95-135 | the session's list-flow state becomes Accept of the old one |
| ListHandlers.SubmitAnswerHandler | interview/handlers.go:49-146 | empty ID, bad body and unknown ID are rejected in that order with nothing changed; otherwise the session's list-flow fields become exactly Submit of their old state, its summary is kept, it is stamped unless it was inactive, and the reply is Submit's; its ID, owner and creation time are constants; other sessions are untouched |
| ChatHandler.NoUserMessageIsEmpty | internal/handlers/chat_handler.go:121-127 | with no user message at all the answer text is "" |
| ChatHandler.LastUserMessageIsLast | internal/handlers/chat_handler.go:121-127 | when some message is from the user, the answer is the content of the user message after which no other user message comes |
| ChatHandler.FindLastUserMessage | internal/handlers/chat_handler.go:121-127 | the backward scan computes LastUserMessage |
| ChatHandler.Lookup | internal/handlers/chat_handler.go:181 | a present ID gives its question, a missing ID gives the zero question |
| ChatHandler.AssessmentBands | internal/handlers/chat_handler.go:308-321 | the integer bands equal the float average bands: total < 100 excellent, < 200 good, < 300 moderate, else needs improvement |
| ChatHandler.AssessmentMonotone | internal/handlers/chat_handler.go:308-321 | more total risk never improves the assessment |
| ChatHandler.CompletionMessageShape | internal/handlers/chat_handler.go:297-327 | the message opens with the thanks and closes with the good luck wish; with a summary it gives the grade and ends on the recommendation; without one it gives the bucket assessment |
| ChatHandler.GradeFromClassification | internal/handlers/chat_handler.go:330-349 | nil gives ""; otherwise excellent/good/average/weak/poor, in any case, give A/B/C/D/F exactly, and anything else gives "" |
| ChatHandler.SuggestionsShape | internal/handlers/chat_handler.go:351-360 | at most one suggestion, present exactly when an analysis has non-blank feedback, and then that feedback |
| ChatHandler.AppendFreshAnswer | internal/handlers/chat_handler.go:144-150 | appending an answer to a question not yet answered keeps answer IDs distinct |
| ChatHandler.FinishSession | internal/handlers/chat_handler.go:226-234 | the session is finished and saved; with some analysed answer its summary is the summary of those answers' records, otherwise the summary is left as it was |
| ChatHandler.RecordAnswer | internal/handlers/chat_handler.go:193-222 | fail-open: the answer is appended whether or not grading works, carrying the analysis and its eval; the scores move only by that eval |
| ChatHandler.EndTurn | internal/handlers/chat_handler.go:226-245 | ending the interview: finished, summarised, saved, cursor kept, and the completion reply with the analysis and its grade |
| ChatHandler.FinishOrAdvance | internal/handlers/chat_handler.go:254-293 | an empty or "end" next ID ends the interview; any other becomes the current question, which is shown |
| ChatHandler.MoveOn | internal/handlers/chat_handler.go:224-293 | twelve answers end the interview; otherwise the next question is decided, with the eval when the answer was analysed, and the turn ends or moves on |
| ChatHandler.ContinueSession | internal/handlers/chat_handler.go:72-293 | one chat turn on a stored session is ChatTurn: finished sessions only report, no messages re-shows the question, no user message is rejected, a missing current question finishes, a duplicate records nothing, and a new answer is recorded and moves on; in every case the list flow's selection and index are kept, and the ID, owner and creation time are constants |
| ChatHandler.AnswerCurrent | internal/handlers/chat_handler.go:143-293 | a message to a current question already answered records nothing and moves to its successor or ends the interview; otherwise it is a new answer; the chat invariant is kept, and only the answers, scores, status, summary, time stamp and cursor may change |
| ChatHandler.AnswerQuestion | internal/handlers/chat_handler.go:192-293 | a new answer is recorded, scored by its analysis if any, and the twelve-answer cap or the graph's end finishes the interview; answer IDs stay distinct and the session stays finished at twelve; only the answers, scores, status, summary, time stamp and cursor may change |
| ChatHandler.Chat | internal/handlers/chat_handler.go:42-294 | a bad body changes nothing; an empty or unknown ID saves a fresh active session on the first question, leaves the stored ones untouched and shows that question, or reports it missing; a known ID takes one ChatTurn, leaving every other session untouched; every stored session keeps the chat invariant |
| PracticeApp.InitialQuestions | ai_tests/main.go:52-83 | the bank has four questions: purpose, ties, financial, ties |
| PracticeApp.SelectionMembers | ai_tests/main.go:139-155 | a question is selected exactly when it is in the bank and is a purpose or ties question, or a financial one for a visa type containing "b" in any case |
| PracticeApp.SelectionKeepsOrder | ai_tests/main.go:139-155 | selection distributes over concatenation, so the bank's order is kept |
| PracticeApp.SelectionNoLonger | ai_tests/main.go:139-155 | the selection is never longer than the bank |
| PracticeApp.BankSelection | ai_tests/main.go:139-155 | for "B1/B2" all four questions are asked; for "F1" the financial one is dropped |
| PracticeApp.FirstHit | ai_tests/main.go:161-166 | a found red flag is an index of the list |
| PracticeApp.FirstHitIsFirst | ai_tests/main.go:161-166 | none is found exactly when no flag occurs; a found one occurs and none before it does |
| PracticeApp.HitCountBounds | ai_tests/main.go:169-174 | the good-flag count is at most the number of flags, and 0 exactly when none occurs |
| PracticeApp.RedFlagShortCircuits | ai_tests/main.go:161-166 | the first occurring red flag costs 10 and names that flag, whatever else the answer holds |
| PracticeApp.BriefAnswerScoresNothing | ai_tests/main.go:177-179 | without red flags an answer under 10 characters scores 0 with the "Too brief" message |
| PracticeApp.GoodFlagBands | ai_tests/main.go:169-190 | without red flags a long enough answer scores +20 for ≥ 2 good-flag hits, +10 for exactly 1 and +5 for none |
| PracticeApp.AnswerVerdictIgnoresCase | ai_tests/main.go:158-162 | lower-casing the answer first does not change its verdict |
| PracticeApp.FirstMentioning | ai_tests/main.go:203-214 | a found follow-up is an index of the list |
| PracticeApp.FirstMentioningIsFirst | ai_tests/main.go:203-214 | none is found exactly when no follow-up mentions a cue; a found one does and none before it does |
| PracticeApp.SelectFollowUpRules | ai_tests/main.go:193-220 | no follow-ups gives ""; family/friend picks the first mentioning "status" or "see them"; else stay/visit picks the first mentioning "long"; else the first follow-up |
| PracticeApp.FollowUpBands | ai_tests/main.go:222-240 | under 5 characters scores 0; otherwise a digit or a mention of "years"/"months"/"citizen" in any case scores +15, and neither scores +5 |
| PracticeApp.FollowUpVerdictIgnoresCase | ai_tests/main.go:222-240 | lower-casing the follow-up answer does not change its verdict |
| PracticeApp.BandMonotone | ai_tests/main.go:249-255 | a higher score never falls into a lower result band (≥ 70, ≥ 40, else) |
| PracticeApp.VerdictRanges | ai_tests/main.go:157-240 | an answer moves the score by −10, 0, 5, 10 or 20, and a follow-up by 0, 5 or 15 |
| PracticeApp.InterviewSession.constructor | ai_tests/main.go:44-50 | an empty profile, the four-question bank, score 0 and no feedback |
| PracticeApp.InterviewSession.CollectProfile | ai_tests/main.go:85-101 | the trimmed visa type and purpose are stored, and family is "yes" after lower-casing and trimming |
| PracticeApp.InterviewSession.SelectQuestions | ai_tests/main.go:139-155 | the loop's selection is Selection of the bank for the profile's visa type |
| PracticeApp.InterviewSession.EvaluateAnswer | ai_tests/main.go:157-191 | the score moves by the answer's verdict and its message is returned |
| PracticeApp.InterviewSession.EvaluateFollowUp | ai_tests/main.go:222-240 | the score moves by the follow-up verdict and its message is returned |
| UserRepo.NewUser | internal/repository/user_repo.go:70-85 | a created user has the given fields, is not verified, has no codes, and created == updated == now |
| UserRepo.UpdateUser | internal/repository/user_repo.go:87-103 | nil fields keep their values; only email, name and UpdatedAt can change |
| UserRepo.VerifyUser | internal/repository/user_repo.go:130-150 | a wrong code is "invalid" before expiry is looked at; an expired code is "expired"; success verifies the email and clears the code and its expiry, keeping the password |
| UserRepo.ResetUser | internal/repository/user_repo.go:181-201 | a wrong code is "invalid" before expiry; an expired code is "expired"; success replaces the password and clears the reset code and its expiry |
| UserRepo.IssuedCodeVerifies | internal/repository/user_repo.go:115-150 | a code just issued verifies before it expires |
| UserRepo.VerificationCodeSingleUse | internal/repository/user_repo.go:130-150 | a used verification code is invalid the next time |
| UserRepo.IssuedResetCodeWorksOnce | internal/repository/user_repo.go:166-201 | an issued reset code sets the password once and is invalid afterwards |
| UserRepo.ReissuedCodeRevokesOld | internal/repository/user_repo.go:115-150 | issuing a new verification code invalidates the old one |
| UserRepo.UserMemoryRepo.constructor | internal/repository/user_repo.go:35-37 | the repository starts empty |
| UserRepo.UserMemoryRepo.List | internal/repository/user_repo.go:39-47 | on a store whose users sit under their own IDs, the list has one entry per stored user, holds exactly the stored users and has no duplicates, so each user appears exactly once |
| UserRepo.UserMemoryRepo.Get | internal/repository/user_repo.go:49-57 | the stored user for a present ID, else not found |
| UserRepo.UserMemoryRepo.FindByEmail | internal/repository/user_repo.go:61-66 | the scan finds a user with that email exactly when there is one |
| UserRepo.UserMemoryRepo.GetByEmail | internal/repository/user_repo.go:59-68 | a stored user with that email, else not found |
| UserRepo.UserMemoryRepo.Create | internal/repository/user_repo.go:70-85 | a fresh ID is inserted and other entries stay |
| UserRepo.UserMemoryRepo.Update | internal/repository/user_repo.go:87-103 | a missing ID is not found with nothing changed; otherwise only that entry is replaced by the update |
| UserRepo.UserMemoryRepo.Delete | internal/repository/user_repo.go:105-113 | a missing ID is not found; otherwise exactly that key is removed |
| UserRepo.UserMemoryRepo.SetVerificationCode | internal/repository/user_repo.go:115-128 | an unknown email is not found; otherwise only that user's code, expiry and UpdatedAt change |
| UserRepo.UserMemoryRepo.VerifyEmail | internal/repository/user_repo.go:130-150 | an unknown email is not found; otherwise that user's verification outcome: an error with nothing changed, or the verified user |
| UserRepo.UserMemoryRepo.MarkEmailVerified | internal/repository/user_repo.go:152-164 | an unknown email is not found; otherwise only that user is marked verified |
| UserRepo.UserMemoryRepo.SetResetCode | internal/repository/user_repo.go:166-179 | an unknown email is not found; otherwise only that user's reset code, expiry and UpdatedAt change |
| UserRepo.UserMemoryRepo.ResetPassword | internal/repository/user_repo.go:181-201 | an unknown email is not found; otherwise that user's reset outcome: an error with nothing changed, or the new password |
| GoStrings.TrimSpaceShape | internal/handlers/chat_handler.go:355 | strings.TrimSpace cuts only white space, from both ends, leaving a piece that neither starts nor ends with it |
| GoStrings.TrimSpaceIdempotent | interview/analyzer.go:392-396 | trimming twice is trimming once |
| GoStrings.TrimLeftSpaceShape | interview/analyzer.go:392 | the left trim keeps the longest suffix not starting with white space |
| GoStrings.TrimRightSpaceShape | interview/analyzer.go:392 | the right trim keeps the longest prefix not ending with white space |
| GoStrings.TrimPrefix | interview/analyzer.go:393-394 | one leading occurrence is removed if present, else the text is unchanged |
| GoStrings.TrimSuffix | interview/analyzer.go:395 | one trailing occurrence is removed if present, else the text is unchanged |
| GoStrings.ContainsAt | interview/llm.go:164 | strings.Contains holds exactly when the substring occurs at some offset |
| GoStrings.ToLower | internal/handlers/chat_handler.go:335 | lower-casing keeps the length and maps each character |
| GoStrings.ToLowerIdempotent | internal/handlers/chat_handler.go:335 | lower-casing twice is lower-casing once |
| GoStrings.NatToString | interview/evaluation.go:56 | %d prints at least one digit, and only digits |
| GoStrings.NatToStringInjective | interview/evaluation.go:56 | distinct numbers print differently |

## Left out

- **HTTP and JSON are not modelled.** Gin binding, status codes and response
  serialisation are outside the model. An unreadable body is `None`, and each
  error response is a constructor of `ChatHandler.ChatError` or
  `ListHandlers.HandlerError`.
- **Mutexes are not modelled.** The session store's `sync.RWMutex` and the
  analyzer singleton's `sync.Once` have nothing to model in a sequential model.
- **The network round trip is an oracle.** The model does not cover the
  marshalled request, the POST, the timeout, the status check or the body read
  in `callGPTAPI`. It numbers the error kinds `Analyzer.GradeError` only by
  their cause.
- **The configuration is not modelled.** This covers `GetAnalyzer`'s
  environment lookup and the model name, temperature and token limit of the
  request. The analyzer is a parameter that holds its API key and system prompt.
- **The Feedback type mismatch is resolved to its text.** `AnalysisResponse.Feedback`
  is a struct, but the keyword classifier, the flags and the chat suggestions
  treat it as a string. The model uses `feedback.overall` there.
- **Evaluation.GenerateSessionSummary: the "analyzer not initialized"
  error is not modelled.** `GetAnalyzer` always builds the analyzer before
  returning it (interview/llm.go:16-25), so that branch cannot be taken.
- **Marshalling cannot fail.** `json.Marshal` of a stored analysis is a
  total function in `Analyzer.HistoryMessages`. The source skips the assistant
  message when marshalling fails, which the model never does.
- **The chat flow's grader is a parameter.** The chat handler calls
  `AnalyzeAnswer` with the question and the message only. The model passes
  this one-shot grading as the `grader` argument of type `ChatHandler.Grader`,
  separate from the session-aware `Analyzer.Grade` that the list flow uses.
- **Float formatting is a parameter.** `fmt.Sprintf("%.1f", …)` in the
  completion message is the `format` argument.
- **Time is an integer clock.** There are no time zones and no monotonic clock.
  Go's zero time is 0.
- **UUIDs are a parameter.** `uuid.NewString()` is the `freshId` argument.
- **Session identity is assumed.** The chat handler receives the stored session
  object itself. The model does not cover what happens when two sessions share an ID.
- **ASCII only.** Lower-casing (`strings.ToLower`) is modelled for ASCII
  letters only. Other characters are left unchanged.
- **Characters, not bytes.** Lengths count characters, but Go's `len` counts
  UTF-8 bytes. The prototype's "under 10" and "under 5" tests read them as
  character counts, which differs only for non-ASCII answers.
- **File loading is not modelled.** `InitQuestions`, with its list of paths,
  and the file read and JSON parse of `LoadQuestions` are left out.
  `Questions.QuestionBank.LoadQuestions` starts from the parsed map.
- **Random draws are nondeterministic.** The model does not fix which
  permutation `rand.Shuffle` produces. It proves only that the result is a
  permutation and draws from distinct positions.
- **The prototype's console I/O is not modelled.** This covers `main`,
  `ConductInterview`, `ShowResults`' printing, and the prompts of
  `CollectProfile`. Only the scoring, selection, follow-up choice and result
  bands are modelled. `CollectProfile` takes the three lines it reads as arguments.
- **Test expectations without code are not modelled.** The tests call a
  level-taking `SelectQuestionsForSession` with mandatory opening questions
  (tests/interview_questions_test.go:48-68). No source file implements this,
  so the selector is modelled as written.
- **Entry points are not part of this model.** These are `cmd/api/main.go`
  and `cmd/test_gpt/main.go`.
- **Repository plumbing is not modelled.** `UserRepo.Close` and the
  `ErrNotFound` variable are left out, since they carry no logic.
- **ChatHandler.Chat: the chat invariant is assumed of the shared store.**
  Chat requires every stored session to keep the chat invariant: at most
  twelve answers, finished at twelve, no question answered twice. Chat
  keeps it. CreateSessionHandler only adds a fresh session with no answers
  and changes no stored one. SubmitAnswerHandler's contract does not
  promise to: it appends whatever question ID the request names. As
  written, the list flow never reaches that append on a session built by
  NewSession (ListHandlers.NewSessionCursorNeverMatches). With the
  corrected CreateSessionWithSelection, a session driven through both
  flows could break the invariant, and the model does not cover that mix.
- **UserRepo.UserMemoryRepo.List: order is not stated.** The order of
  the listed users follows Go's map iteration, so the contract states only
  "each stored user exactly once".

## Findings

| source | as written | input that shows it | evidently intended | confidence | as-written member | corrected member |
|---|---|---|---|---|---|---|
| interview/handlers.go:18-24 | `CreateSessionHandler` saves a `NewSession`, which never fills `SelectedQuestions` (interview/session_store.go:17-29), so it always answers "no questions selected for session" | any request to create a session | the new session gets a selection from the question bank and the handler returns its first question with the cursor on it, as tests/interview_session_test.go:24 expects | not executed | ListHandlers.CreateSessionHandler, ListHandlers.NewSessionCursorNeverMatches | ListHandlers.CreateSessionWithSelection |
