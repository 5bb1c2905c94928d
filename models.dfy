/**
  The data model of the interview engine (interview/models.go), plus the two
  records of interview/evaluation.go that several modules share.
  Timestamps are an integer clock; 0 stands for Go's zero `time.Time`.
 */
module Models {
  import opened Wrappers

  type Time = int

  /** No element occurs twice. */
  predicate Distinct<T(==)>(s: seq<T>)
  {
    forall i, j :: 0 <= i < j < |s| ==> s[i] != s[j]
  }

  /** The zero `time.Time{}` that cleared expiries are reset to. */
  const ZeroTime: Time := 0

  /** One node of the question graph, or one question of a selected list. */
  datatype Question = Question(
    id: string,
    category: string,
    text: string,
    nextId: string,
    followupCandidates: seq<string>,
    tags: seq<string>)

  /** Go's zero `Question{}`, what a lookup of a missing key yields. */
  const EmptyQuestion := Question("", "", "", "", [], [])

  /** How one answer adjusts the session scores (interview/evaluation.go). */
  datatype ScoreDelta = ScoreDelta(academic: int, financial: int, intentToReturn: int, overallRisk: int)

  /** The legacy per-answer evaluation (interview/evaluation.go). */
  datatype EvalResult = EvalResult(
    quality: int,
    clarity: int,
    confidence: int,
    flags: seq<string>,
    intentToReturnRisk: int,
    suggestedFollowup: string,
    needsFollowup: bool,
    scoreDelta: ScoreDelta)

  /** The three 1–5 criteria of the rubric and their 3–15 total. */
  datatype AnalysisScores = AnalysisScores(
    migrationIntent: int,
    goalUnderstanding: int,
    answerLength: int,
    totalScore: int)

  /**
    The documented ranges of a grading result. The LLM is an external
    model and nothing checks them, so they are a predicate, not a type.
   */
  predicate ValidAnalysisScores(s: AnalysisScores): (ok: bool)
    ensures ok ==> 3 <= s.totalScore <= 15
  {
    && 1 <= s.migrationIntent <= 5
    && 1 <= s.goalUnderstanding <= 5
    && 1 <= s.answerLength <= 5
    && s.totalScore == s.migrationIntent + s.goalUnderstanding + s.answerLength
  }

  datatype FeedbackByCriterion = FeedbackByCriterion(
    migrationIntent: string,
    goalUnderstanding: string,
    answerLength: string)

  datatype StructuredFeedback = StructuredFeedback(
    overall: string,
    byCriterion: FeedbackByCriterion,
    improvements: seq<string>)

  /** The LLM's verdict on one answer. */
  datatype AnalysisResponse = AnalysisResponse(
    scores: AnalysisScores,
    classification: string,
    feedback: StructuredFeedback)

  datatype AnalysisRecord = AnalysisRecord(
    id: string,
    sessionId: string,
    question: string,
    answer: string,
    analysis: AnalysisResponse,
    createdAt: Time)

  /** One student response; its evaluation and its analysis are each optional. */
  datatype Answer = Answer(
    questionId: string,
    questionText: string,
    text: string,
    createdAt: Time,
    eval: Option<EvalResult>,
    analysis: Option<AnalysisResponse>)

  /** The four cumulative risk buckets of a session. */
  datatype Scores = Scores(academic: int, financial: int, intentToReturn: int, overallRisk: int)

  const ZeroScores := Scores(0, 0, 0, 0)

  /** The ID every new session starts on (interview/session_store.go). */
  const FirstQuestionID := "q1_purpose"

  /** Go's three SessionStatus constants; a datatype makes them exclusive and exhaustive. */
  datatype SessionStatus = Active | Finished | Aborted

  datatype SessionSummary = SessionSummary(
    sessionId: string,
    totalQuestions: int,
    averageScore: real,
    overallGrade: string,
    strongAreas: seq<string>,
    weakAreas: seq<string>,
    commonRedFlags: seq<string>,
    recommendation: string,
    completedAt: Time)

  /**
    One interview attempt. It is an object: the store and the handlers share
    the same session and update its fields in place. Its ID, owner and
    creation time are set by NewSession and never written again, so they
    are constants. `questionIndex` is a `nat`: it starts at 0 and the code
    only ever increments it.
   */
  class Session {
    const id: string
    const userId: string
    const createdAt: Time
    var currentQuestion: string
    var selectedQuestions: seq<Question>
    var questionIndex: nat
    var answers: seq<Answer>
    var scores: Scores
    var status: SessionStatus
    var updatedAt: Time
    var summary: Option<SessionSummary>

    /**
      NewSession (interview/session_store.go): a fresh, active session for
      `userId` positioned on the first question, with no answers, zero
      scores, no selected questions and both timestamps at `now`. The uuid
      it draws is the parameter `id`.
     */
    constructor NewSession(id: string, userId: string, now: Time)
      ensures this.id == id && this.userId == userId
      ensures currentQuestion == FirstQuestionID
      ensures selectedQuestions == [] && questionIndex == 0 && answers == []
      ensures scores == ZeroScores && status == Active && summary == None
      ensures createdAt == now && updatedAt == now
    {
      this.id := id;
      this.userId := userId;
      currentQuestion := FirstQuestionID;
      selectedQuestions := [];
      questionIndex := 0;
      answers := [];
      scores := ZeroScores;
      status := Active;
      createdAt := now;
      updatedAt := now;
      summary := None;
    }
  }
}
