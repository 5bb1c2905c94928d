/**
  The chat-driven interview flow (internal/handlers/chat_handler.go): the
  session follows the question graph, starting at "q1_purpose" and moving
  along `nextId` or a follow-up. The question graph, the LLM analysis and the
  one-decimal number formatting are parameters.
 */
module ChatHandler {
  import opened Wrappers
  import opened GoStrings
  import opened Models
  import opened Analyzer
  import opened Llm
  import opened Evaluation
  import opened Followups
  import opened SessionStore

  datatype ChatMessage = ChatMessage(role: string, content: string)

  datatype ChatRequest = ChatRequest(messages: seq<ChatMessage>, sessionId: string)

  datatype ChatResponse = ChatResponse(
    content: string,
    sessionId: string,
    questionId: string,
    finished: bool,
    scores: Option<Scores>,
    isNewSession: bool,
    analysis: Option<AnalysisResponse>,
    grade: string,
    suggestions: seq<string>,
    improvedVersion: string)

  datatype ChatError =
    | InvalidRequestBody       // 400 "invalid request body"
    | InitialQuestionNotFound  // 500 "initial question not found"
    | CurrentQuestionNotFound  // 500 "current question not found"
    | NoUserMessage            // 400 "no user message found"

  /** The LLM analysis the handler calls: an analysis of the answer, or nil on any error. */
  type Grader = (Question, string) -> Option<AnalysisResponse>

  // ---------------------------------------------------------------------------
  // Pure helpers
  // ---------------------------------------------------------------------------

  /** The content of the last message with role "user", or "" when there is none. */
  function LastUserMessage(messages: seq<ChatMessage>): string
  {
    if messages == [] then ""
    else if messages[|messages| - 1].role == "user" then messages[|messages| - 1].content
    else LastUserMessage(messages[..|messages| - 1])
  }

  /** With no user message at all, LastUserMessage is "". */
  lemma {:induction false} NoUserMessageIsEmpty(messages: seq<ChatMessage>)
    requires forall i :: 0 <= i < |messages| ==> messages[i].role != "user"
    ensures LastUserMessage(messages) == ""
  {
    if messages != [] {
      var init := messages[..|messages| - 1];
      forall i | 0 <= i < |init|
        ensures init[i].role != "user"
      {
        assert init[i] == messages[i];
      }
      NoUserMessageIsEmpty(init);
    }
  }

  /**
    When message `i` is from the user, LastUserMessage is the content of the
    user message that comes after all other user messages.
   */
  lemma {:induction false} LastUserMessageIsLast(messages: seq<ChatMessage>, i: int)
    requires 0 <= i < |messages| && messages[i].role == "user"
    ensures exists k :: IsLastUser(messages, k) && LastUserMessage(messages) == messages[k].content
  {
    var n := |messages| - 1;
    if messages[n].role == "user" {
      assert IsLastUser(messages, n);
    } else {
      var init := messages[..n];
      assert i < n && init[i] == messages[i];
      LastUserMessageIsLast(init, i);
      var k :| IsLastUser(init, k) && LastUserMessage(init) == init[k].content;
      assert messages[k] == init[k];
      forall j | k < j < |messages|
        ensures messages[j].role != "user"
      {
        if j < n {
          assert messages[j] == init[j];
        }
      }
      assert IsLastUser(messages, k);
    }
  }

  /** Message k is from the user and no later message is. */
  predicate IsLastUser(messages: seq<ChatMessage>, k: int)
  {
    && 0 <= k < |messages| && messages[k].role == "user"
    && forall j :: k < j < |messages| ==> messages[j].role != "user"
  }

  /** The backward scan of the handler for the last user message. */
  method FindLastUserMessage(messages: seq<ChatMessage>) returns (msg: string)
    ensures msg == LastUserMessage(messages)
  {
    msg := "";
    var i := |messages|;
    assert messages[..i] == messages;
    while i > 0
      invariant 0 <= i <= |messages|
      invariant LastUserMessage(messages) == LastUserMessage(messages[..i])
    {
      assert messages[..i][..i - 1] == messages[..i - 1];
      if messages[i - 1].role == "user" {
        msg := messages[i - 1].content;
        return;
      }
      i := i - 1;
    }
  }

  /** `interview.Questions[id]`: the question under `id`, or the zero question. */
  function Lookup(questions: map<string, Question>, id: string): (q: Question)
    ensures id in questions ==> q == questions[id]
    ensures id !in questions ==> q == EmptyQuestion
  {
    if id in questions then questions[id] else EmptyQuestion
  }

  /** The graph ends at an empty next ID or "end". */
  predicate IsEnd(id: string)
  {
    id == "" || id == "end"
  }

  /** The maximum number of answers a chat session records. */
  const MaxAnswers := 12

  /** The sum of the four risk buckets. */
  function TotalRisk(scores: Scores): int
  {
    scores.academic + scores.financial + scores.intentToReturn + scores.overallRisk
  }

  /**
    The fallback assessment of buildCompletionMessage, on the average of the
    four buckets as the handler computes it in floating point.
   */
  function AverageAssessment(scores: Scores): string
  {
    var avgRisk := TotalRisk(scores) as real / 4.0;
    if avgRisk < 25.0 then "excellent"
    else if avgRisk < 50.0 then "good"
    else if avgRisk < 75.0 then "moderate"
    else "needs improvement"
  }

  /** The same bands on the integer sum of the buckets: below 100, 200 and 300. */
  function Assessment(scores: Scores): string
  {
    var total := TotalRisk(scores);
    if total < 100 then "excellent"
    else if total < 200 then "good"
    else if total < 300 then "moderate"
    else "needs improvement"
  }

  /** Averaging over the four buckets and comparing with 25, 50 and 75 picks the same band. */
  lemma AssessmentBands(scores: Scores)
    ensures Assessment(scores) == AverageAssessment(scores)
    ensures var total := TotalRisk(scores);
      && (Assessment(scores) == "excellent" <==> total < 100)
      && (Assessment(scores) == "good" <==> 100 <= total < 200)
      && (Assessment(scores) == "moderate" <==> 200 <= total < 300)
      && (Assessment(scores) == "needs improvement" <==> total >= 300)
  {
    var total := TotalRisk(scores);
    assert total as real / 4.0 < 25.0 <==> total < 100;
    assert total as real / 4.0 < 50.0 <==> total < 200;
    assert total as real / 4.0 < 75.0 <==> total < 300;
  }

  /** A larger bucket sum never gives a better assessment. */
  lemma AssessmentMonotone(a: Scores, b: Scores)
    requires TotalRisk(a) <= TotalRisk(b)
    ensures AverageAssessment(a) == "needs improvement" ==> AverageAssessment(b) == "needs improvement"
    ensures AverageAssessment(b) == "excellent" ==> AverageAssessment(a) == "excellent"
  {
    AssessmentBands(a);
    AssessmentBands(b);
  }

  const Thanks := "Thank you for completing the interview practice session! "
  const GoodLuck := "Good luck with your visa interview!"

  /**
    buildCompletionMessage: the summary's grade, average and recommendation
    when the session has a summary, the bucket assessment otherwise.
    `format` renders the average with one decimal.
   */
  function CompletionMessage(summary: Option<SessionSummary>, scores: Scores, format: real -> string): string
  {
    match summary
    case Some(sm) =>
      Thanks + ("Your overall grade is: " + sm.overallGrade + " (Average Score: ")
      + (format(sm.averageScore) + "). ") + (sm.recommendation + " " + GoodLuck)
    case None =>
      Thanks + ("Your overall assessment is: " + Assessment(scores) + ". ")
      + "Keep practicing to improve your answers and confidence. " + GoodLuck
  }

  /**
    The completion message opens with the thanks and closes with the good
    luck wish; in between it gives the summary's grade and ends on its
    recommendation, or, without a summary, the bucket assessment.
   */
  lemma CompletionMessageShape(summary: Option<SessionSummary>, scores: Scores, format: real -> string)
    ensures var msg := CompletionMessage(summary, scores, format);
      HasPrefix(msg, Thanks) && HasSuffix(msg, GoodLuck)
    ensures var msg := CompletionMessage(summary, scores, format);
      summary.Some? ==>
      && OccursAt(msg, "Your overall grade is: " + summary.value.overallGrade + " (Average Score: ", |Thanks|)
      && HasSuffix(msg, summary.value.recommendation + " " + GoodLuck)
    ensures var msg := CompletionMessage(summary, scores, format);
      summary.None? ==> OccursAt(msg, "Your overall assessment is: " + Assessment(scores) + ". ", |Thanks|)
  {
    match summary
    case Some(sm) =>
      var grade := "Your overall grade is: " + sm.overallGrade + " (Average Score: ";
      var tail := sm.recommendation + " " + GoodLuck;
      ConcatShape(Thanks, grade, format(sm.averageScore) + "). ", tail);
      HasSuffixOfLonger(CompletionMessage(summary, scores, format), sm.recommendation + " ", GoodLuck);
    case None =>
      ConcatShape(Thanks, "Your overall assessment is: " + Assessment(scores) + ". ",
        "Keep practicing to improve your answers and confidence. ", GoodLuck);
  }

  /** getGradeFromAnalysis: the letter grade of the classification, matched case-insensitively. */
  function GradeFromAnalysis(analysis: Option<AnalysisResponse>): string
  {
    if analysis.None? then ""
    else
      var c := ToLower(analysis.value.classification);
      if c == "excellent" then "A"
      else if c == "good" then "B"
      else if c == "average" then "C"
      else if c == "weak" then "D"
      else if c == "poor" then "F"
      else ""
  }

  /**
    No analysis gives no grade; otherwise each letter comes from exactly
    one lower-cased classification, and a classification's case does not
    matter.
   */
  lemma GradeFromClassification(a: AnalysisResponse)
    ensures GradeFromAnalysis(None) == ""
    ensures var g, c := GradeFromAnalysis(Some(a)), ToLower(a.classification);
      && g in ["A", "B", "C", "D", "F", ""]
      && (g == "A" <==> c == "excellent")
      && (g == "B" <==> c == "good")
      && (g == "C" <==> c == "average")
      && (g == "D" <==> c == "weak")
      && (g == "F" <==> c == "poor")
      && (g == "" <==> c !in ["excellent", "good", "average", "weak", "poor"])
    ensures GradeFromAnalysis(Some(a.(classification := ToLower(a.classification)))) == GradeFromAnalysis(Some(a))
  {
    ToLowerIdempotent(a.classification);
  }

  /** getSuggestionsFromAnalysis: the overall feedback as the single suggestion, unless it is blank. */
  function Suggestions(analysis: Option<AnalysisResponse>): seq<string>
  {
    if analysis.None? || TrimSpace(analysis.value.feedback.overall) == "" then []
    else [analysis.value.feedback.overall]
  }

  /** At most one suggestion: the overall feedback exactly when it is not blank. */
  lemma SuggestionsShape(analysis: Option<AnalysisResponse>)
    ensures |Suggestions(analysis)| <= 1
    ensures Suggestions(analysis) != [] <==> analysis.Some? && TrimSpace(analysis.value.feedback.overall) != ""
    ensures Suggestions(analysis) != [] ==> Suggestions(analysis)[0] == analysis.value.feedback.overall
  {
  }

  /** getImprovedVersionFromAnalysis: no improved version is ever provided. */
  function ImprovedVersion(analysis: Option<AnalysisResponse>): string
  {
    ""
  }

  /** The reply that shows question `q`. */
  function QuestionResponse(q: Question, sessionId: string, scores: Option<Scores>, isNew: bool,
      analysis: Option<AnalysisResponse>): ChatResponse
  {
    ChatResponse(q.text, sessionId, q.id, false, scores, isNew, analysis,
      GradeFromAnalysis(analysis), Suggestions(analysis), ImprovedVersion(analysis))
  }

  /** The reply that closes the interview. */
  function CompletionResponse(sessionId: string, summary: Option<SessionSummary>, scores: Scores,
      format: real -> string, analysis: Option<AnalysisResponse>): ChatResponse
  {
    ChatResponse(CompletionMessage(summary, scores, format), sessionId, "", true, Some(scores), false,
      analysis, GradeFromAnalysis(analysis), [], "")
  }

  // ---------------------------------------------------------------------------
  // Session invariant of the chat flow
  // ---------------------------------------------------------------------------

  /** No two answers were given to the same question. */
  predicate AnswerIdsDistinct(answers: seq<Answer>)
  {
    forall i, j :: 0 <= i < j < |answers| ==> answers[i].questionId != answers[j].questionId
  }

  /**
    What the chat flow keeps of every session: at most twelve answers, the
    twelfth finishing the session, each to a different question.
   */
  ghost predicate ChatInvariant(s: Session)
    reads s
  {
    && |s.answers| <= MaxAnswers
    && (|s.answers| == MaxAnswers ==> s.status == Finished)
    && AnswerIdsDistinct(s.answers)
  }

  /** Appending an answer to a question not yet answered keeps the IDs distinct. */
  lemma AppendFreshAnswer(answers: seq<Answer>, a: Answer)
    requires AnswerIdsDistinct(answers) && !Asked(answers, a.questionId)
    ensures AnswerIdsDistinct(answers + [a])
  {
    var all := answers + [a];
    forall i, j | 0 <= i < j < |all|
      ensures all[i].questionId != all[j].questionId
    {
      if j == |answers| {
        assert all[i] == answers[i];
      } else {
        assert all[i] == answers[i] && all[j] == answers[j];
      }
    }
  }

  // ---------------------------------------------------------------------------
  // The transition
  // ---------------------------------------------------------------------------

  /** What ending the interview does: status Finished, and a summary when some answer was analysed. */
  twostate predicate FinishedWithSummary(s: Session, now: Time)
    reads s
  {
    && s.status == Finished
    && (CountAnalysed(s.answers) > 0 ==>
      && s.summary.Some? && s.summary.value.sessionId == s.id
      && IsSummaryOf(s.summary.value, AnalysisRecordsOf(s.id, s.answers), now))
    && (CountAnalysed(s.answers) == 0 ==> s.summary == old(s.summary))
  }

  /**
    What no chat turn touches besides the session's constant ID, owner and
    creation time: the list flow's selection and its index.
   */
  twostate predicate KeepsSelection(s: Session)
    reads s
  {
    s.selectedQuestions == old(s.selectedQuestions) && s.questionIndex == old(s.questionIndex)
  }

  /** The fields a chat turn may write are left as they were. */
  twostate predicate Stays(s: Session)
    reads s
  {
    && s.answers == old(s.answers) && s.scores == old(s.scores) && s.currentQuestion == old(s.currentQuestion)
    && s.status == old(s.status) && s.summary == old(s.summary) && s.updatedAt == old(s.updatedAt)
  }

  /** The interview ends on this turn: finished, summarised, and the completion message sent. */
  twostate predicate EndsInterview(s: Session, format: real -> string, analysis: Option<AnalysisResponse>,
    now: Time, new r: Result<ChatResponse, ChatError>)
    reads s
  {
    && FinishedWithSummary(s, now) && s.currentQuestion == old(s.currentQuestion)
    && r == Ok(CompletionResponse(s.id, s.summary, s.scores, format, analysis))
  }

  /** The interview moves to question `next`, which is shown. */
  twostate predicate MovesTo(s: Session, questions: map<string, Question>, next: string,
    analysis: Option<AnalysisResponse>, new r: Result<ChatResponse, ChatError>)
    reads s
  {
    && s.status == old(s.status) && s.currentQuestion == next && s.summary == old(s.summary)
    && r == Ok(QuestionResponse(Lookup(questions, next), s.id, Some(s.scores), false, analysis))
  }

  /**
    One chat turn on a stored session, as the handler decides it:
    - a finished session only reports its completion;
    - with no messages, the current question is shown again;
    - with no user message, the request is rejected;
    - a current question missing from the graph finishes the session;
    - an answer to an already answered question records nothing and moves
      to the question's successor, or ends the interview;
    - otherwise the answer is recorded whether or not grading succeeded,
      its analysis (if any) scores it, and the interview ends after twelve
      answers or at the end of the graph, else moves on.
   */
  twostate predicate ChatTurn(s: Session, questions: map<string, Question>, grader: Grader,
    format: real -> string, messages: seq<ChatMessage>, now: Time, new r: Result<ChatResponse, ChatError>)
    reads s
  {
    var current := old(s.currentQuestion);
    var msg := LastUserMessage(messages);
    KeepsSelection(s) &&
    if old(s.status) == Finished then
      Stays(s) && r == Ok(CompletionResponse(s.id, s.summary, s.scores, format, None))
    else if messages == [] then
      Stays(s)
      && r == (if current in questions then Ok(QuestionResponse(questions[current], s.id, Some(s.scores), false, None))
               else Err(CurrentQuestionNotFound))
    else if msg == "" then
      Stays(s) && r == Err(NoUserMessage)
    else if current !in questions then
      && s.status == Finished && s.answers == old(s.answers) && s.scores == old(s.scores)
      && s.currentQuestion == current && s.summary == old(s.summary) && s.updatedAt == now
      && r == Err(CurrentQuestionNotFound)
    else
      var q := questions[current];
      if Asked(old(s.answers), q.id) then RepeatTurn(s, questions, q, format, now, r)
      else NewAnswerTurn(s, questions, q, grader, format, msg, now, r)
  }

  /** A repeated answer to question `q`: nothing is recorded; go to its successor or end. */
  twostate predicate RepeatTurn(s: Session, questions: map<string, Question>, q: Question,
    format: real -> string, now: Time, new r: Result<ChatResponse, ChatError>)
    reads s
  {
    && s.answers == old(s.answers) && s.scores == old(s.scores) && s.updatedAt == now
    && if IsEnd(q.nextId) then EndsInterview(s, format, None, now, r)
       else MovesTo(s, questions, q.nextId, None, r)
  }

  /**
    A new answer `msg` to question `q`: recorded whether or not grading
    succeeded, scored by its analysis if any; then the twelve-answer cap or
    the end of the graph finishes the interview, else it moves on.
   */
  twostate predicate NewAnswerTurn(s: Session, questions: map<string, Question>, q: Question, grader: Grader,
    format: real -> string, msg: string, now: Time, new r: Result<ChatResponse, ChatError>)
    reads s
  {
    var analysis := grader(q, msg);
    var eval := ConvertOptionalAnalysis(analysis, q);
    var next := NextQuestion(q, s.answers, eval);
    && s.answers == old(s.answers) + [Answer(q.id, q.text, msg, now, eval, analysis)]
    && s.scores == AddEval(old(s.scores), eval)
    && s.updatedAt == now
    && if |s.answers| >= MaxAnswers || IsEnd(next) then EndsInterview(s, format, analysis, now, r)
       else MovesTo(s, questions, next, analysis, r)
  }

  /** Ending the interview: mark it finished, attach a summary when one can be made, save. */
  method FinishSession(store: SessionStore, s: Session, now: Time)
    requires store.Valid()
    modifies store, s`status, s`summary, s`updatedAt
    ensures FinishedWithSummary(s, now)
    ensures s.updatedAt == now
    ensures store.sessions == old(store.sessions)[s.id := s] && store.Valid()
  {
    s.status := Finished;
    var summary := Evaluation.GenerateSessionSummary(s, now);
    if summary.Ok? {
      s.summary := Some(summary.value);
    }
    store.SaveSession(s, now);
  }

  /** Recording a new answer, fail-open: graded if the LLM answers, appended either way. */
  method RecordAnswer(s: Session, grader: Grader, q: Question, msg: string, now: Time)
    returns (analysis: Option<AnalysisResponse>)
    modifies s`answers, s`scores
    ensures analysis == grader(q, msg)
    ensures s.answers == old(s.answers) + [Answer(q.id, q.text, msg, now, ConvertOptionalAnalysis(analysis, q), analysis)]
    ensures s.scores == AddEval(old(s.scores), ConvertOptionalAnalysis(analysis, q))
  {
    var answer := Answer(q.id, q.text, msg, now, None, None);
    analysis := grader(q, msg);
    if analysis.Some? {
      answer := answer.(analysis := analysis);
      var eval := ConvertOptionalAnalysis(analysis, q);
      answer := answer.(eval := eval);
      ApplyEval(s, eval);
    }
    s.answers := s.answers + [answer];
  }

  /** Ending the interview on this turn and answering with the completion message. */
  method EndTurn(store: SessionStore, s: Session, format: real -> string,
      analysis: Option<AnalysisResponse>, now: Time)
    returns (r: Result<ChatResponse, ChatError>)
    requires store.Valid() && s.id in store.sessions && store.sessions[s.id] == s
    modifies store, s`status, s`summary, s`updatedAt
    ensures store.sessions == old(store.sessions) && store.Valid()
    ensures s.updatedAt == now
    ensures EndsInterview(s, format, analysis, now, r)
  {
    FinishSession(store, s, now);
    r := Ok(CompletionResponse(s.id, s.summary, s.scores, format, analysis));
  }

  /** Going to question `nextId`, or ending the interview when the graph ends there. */
  method FinishOrAdvance(store: SessionStore, s: Session, questions: map<string, Question>, format: real -> string,
      nextId: string, analysis: Option<AnalysisResponse>, now: Time)
    returns (r: Result<ChatResponse, ChatError>)
    requires store.Valid() && s.id in store.sessions && store.sessions[s.id] == s
    modifies store, s`status, s`summary, s`updatedAt, s`currentQuestion
    ensures store.sessions == old(store.sessions) && store.Valid()
    ensures s.updatedAt == now
    ensures IsEnd(nextId) ==> EndsInterview(s, format, analysis, now, r)
    ensures !IsEnd(nextId) ==> MovesTo(s, questions, nextId, analysis, r)
  {
    if IsEnd(nextId) {
      r := EndTurn(store, s, format, analysis, now);
      return;
    }
    s.currentQuestion := nextId;
    store.SaveSession(s, now);
    var nextQ := Lookup(questions, nextId);
    r := Ok(QuestionResponse(nextQ, s.id, Some(s.scores), false, analysis));
  }

  /** The tail of Chat after the answer is recorded: the twelve-answer cap, then the next question. */
  method MoveOn(store: SessionStore, s: Session, questions: map<string, Question>, format: real -> string,
      q: Question, analysis: Option<AnalysisResponse>, now: Time)
    returns (r: Result<ChatResponse, ChatError>)
    requires store.Valid() && s.id in store.sessions && store.sessions[s.id] == s
    modifies store, s`status, s`summary, s`updatedAt, s`currentQuestion
    ensures store.sessions == old(store.sessions) && store.Valid()
    ensures s.updatedAt == now
    ensures var next := NextQuestion(q, s.answers, ConvertOptionalAnalysis(analysis, q));
      if |s.answers| >= MaxAnswers || IsEnd(next) then EndsInterview(s, format, analysis, now, r)
      else MovesTo(s, questions, next, analysis, r)
  {
    if |s.answers| >= MaxAnswers {
      r := EndTurn(store, s, format, analysis, now);
      return;
    }
    var eval: Option<EvalResult> := None;
    if analysis.Some? {
      eval := ConvertOptionalAnalysis(analysis, q);
    }
    var nextId := DecideNextQuestion(q, s, eval);
    r := FinishOrAdvance(store, s, questions, format, nextId, analysis, now);
  }

  /** Chat on a session that is stored and not new. */
  method ContinueSession(store: SessionStore, s: Session, questions: map<string, Question>, grader: Grader,
      format: real -> string, messages: seq<ChatMessage>, now: Time)
    returns (r: Result<ChatResponse, ChatError>)
    requires store.Valid() && s.id in store.sessions && store.sessions[s.id] == s
    requires ChatInvariant(s)
    modifies store, s
    ensures store.sessions == old(store.sessions) && store.Valid()
    ensures ChatTurn(s, questions, grader, format, messages, now, r)
    ensures ChatInvariant(s)
  {
    if s.status == Finished {
      return Ok(CompletionResponse(s.id, s.summary, s.scores, format, None));
    }
    if |messages| == 0 {
      if s.currentQuestion !in questions {
        return Err(CurrentQuestionNotFound);
      }
      var currentQ := questions[s.currentQuestion];
      return Ok(QuestionResponse(currentQ, s.id, Some(s.scores), false, None));
    }
    var msg := FindLastUserMessage(messages);
    if msg == "" {
      return Err(NoUserMessage);
    }
    if s.currentQuestion !in questions {
      s.status := Finished;
      store.SaveSession(s, now);
      return Err(CurrentQuestionNotFound);
    }
    r := AnswerCurrent(store, s, questions, grader, format, msg, now);
  }

  /** A user message to the current question, which the graph has: a repeat moves on, a new answer is recorded. */
  method AnswerCurrent(store: SessionStore, s: Session, questions: map<string, Question>, grader: Grader,
      format: real -> string, msg: string, now: Time)
    returns (r: Result<ChatResponse, ChatError>)
    requires store.Valid() && s.id in store.sessions && store.sessions[s.id] == s
    requires ChatInvariant(s) && s.status != Finished && s.currentQuestion in questions
    modifies store, s`answers, s`scores, s`status, s`summary, s`updatedAt, s`currentQuestion
    ensures store.sessions == old(store.sessions) && store.Valid()
    ensures ChatInvariant(s)
    ensures var q := questions[old(s.currentQuestion)];
      if Asked(old(s.answers), q.id) then RepeatTurn(s, questions, q, format, now, r)
      else NewAnswerTurn(s, questions, q, grader, format, msg, now, r)
  {
    var currentQ := questions[s.currentQuestion];
    var alreadyAnswered := HasAskedQuestion(s, currentQ.id);
    if alreadyAnswered {
      r := FinishOrAdvance(store, s, questions, format, currentQ.nextId, None, now);
      return;
    }
    r := AnswerQuestion(store, s, questions, currentQ, grader, format, msg, now);
  }

  /** Recording a fresh answer to the current question and moving on; the chat invariant is kept. */
  method AnswerQuestion(store: SessionStore, s: Session, questions: map<string, Question>, q: Question,
      grader: Grader, format: real -> string, msg: string, now: Time)
    returns (r: Result<ChatResponse, ChatError>)
    requires store.Valid() && s.id in store.sessions && store.sessions[s.id] == s
    requires ChatInvariant(s) && s.status != Finished && !Asked(s.answers, q.id)
    modifies store, s`answers, s`scores, s`status, s`summary, s`updatedAt, s`currentQuestion
    ensures store.sessions == old(store.sessions) && store.Valid()
    ensures NewAnswerTurn(s, questions, q, grader, format, msg, now, r)
    ensures ChatInvariant(s)
  {
    var analysis := RecordAnswer(s, grader, q, msg, now);
    AppendFreshAnswer(old(s.answers), s.answers[|s.answers| - 1]);
    assert s.answers == old(s.answers) + [s.answers[|s.answers| - 1]];
    r := MoveOn(store, s, questions, format, q, analysis, now);
  }

  /**
    Chat. An unreadable body is rejected with nothing changed. An empty or
    unknown session ID starts a fresh session, saves it and shows its
    first question, recording no answer. A known session takes one chat
    turn; no other session changes, and every session keeps the chat
    invariant.
   */
  method Chat(store: SessionStore, questions: map<string, Question>, grader: Grader, format: real -> string,
      req: Option<ChatRequest>, freshId: string, now: Time)
    returns (r: Result<ChatResponse, ChatError>)
    requires store.Valid()
    requires forall x :: x in store.sessions.Values ==> ChatInvariant(x)
    modifies store, store.sessions.Values
    ensures store.Valid()
    ensures forall x :: x in store.sessions.Values ==> ChatInvariant(x)
    ensures req.None? ==> r == Err(InvalidRequestBody) && store.sessions == old(store.sessions)
    ensures req.None? || req.value.sessionId == "" || req.value.sessionId !in old(store.sessions) ==>
      forall x :: x in old(store.sessions.Values) ==> unchanged(x)
    ensures req.Some? && (req.value.sessionId == "" || req.value.sessionId !in old(store.sessions)) ==>
      && freshId in store.sessions && fresh(store.sessions[freshId])
      && store.sessions == old(store.sessions)[freshId := store.sessions[freshId]]
      && store.sessions[freshId].answers == [] && store.sessions[freshId].status == Active
      && store.sessions[freshId].currentQuestion == FirstQuestionID
      && r == (if FirstQuestionID in questions
               then Ok(QuestionResponse(questions[FirstQuestionID], freshId, None, true, None))
               else Err(InitialQuestionNotFound))
    ensures req.Some? && req.value.sessionId != "" && req.value.sessionId in old(store.sessions) ==>
      && store.sessions == old(store.sessions)
      && (forall x :: x in old(store.sessions.Values) && x.id != req.value.sessionId ==> unchanged(x))
      && ChatTurn(store.sessions[req.value.sessionId], questions, grader, format, req.value.messages, now, r)
  {
    if req.None? {
      return Err(InvalidRequestBody);
    }
    var rq := req.value;
    var lookup: Option<Session> := None;
    if rq.sessionId != "" {
      lookup := store.GetSession(rq.sessionId);
    }
    if lookup.None? {
      var created := new Session.NewSession(freshId, "", now);
      store.SaveSession(created, now);
      forall x | x in store.sessions.Values
        ensures ChatInvariant(x)
      {
        if x != created {
          assert x in old(store.sessions.Values);
        }
      }
      if created.currentQuestion !in questions {
        return Err(InitialQuestionNotFound);
      }
      var currentQ := questions[created.currentQuestion];
      return Ok(QuestionResponse(currentQ, created.id, None, true, None));
    }
    var s := lookup.value;
    assert s in old(store.sessions.Values);
    r := ContinueSession(store, s, questions, grader, format, rq.messages, now);
    forall x | x in store.sessions.Values
      ensures ChatInvariant(x)
    {
      if x != s {
        assert x in old(store.sessions.Values);
      }
    }
  }
}
