/**
  The list-driven interview flow (interview/handlers.go): a session walks
  its selected questions with the `questionIndex` cursor. HTTP binding and
  status codes are reduced to the outcome values below.
 */
module ListHandlers {
  import opened Wrappers
  import opened Models
  import opened Analyzer
  import opened Llm
  import opened Evaluation
  import opened Questions
  import opened SessionStore

  datatype CreateSessionResponse = CreateSessionResponse(sessionId: string, questionId: string, questionText: string)

  datatype SubmitAnswerRequest = SubmitAnswerRequest(questionId: string, answer: string)

  datatype SubmitAnswerResponse = SubmitAnswerResponse(
    nextQuestionId: string,
    nextQuestionText: string,
    finished: bool,
    scores: Scores,
    currentQuestion: string)

  datatype HandlerError =
    | MissingSessionId         // 400 "missing session id"
    | InvalidBody              // 400 "invalid body"
    | SessionNotFound          // 404 "session not found"
    | CurrentQuestionNotFound  // 500 "current question not found"
    | NoQuestionsSelected      // 500 "no questions selected for session"

  /** The part of a session the list flow reads and writes. */
  datatype Progress = Progress(
    currentQuestion: string,
    selectedQuestions: seq<Question>,
    questionIndex: nat,
    answers: seq<Answer>,
    scores: Scores,
    status: SessionStatus)

  function ProgressOf(s: Session): (p: Progress)
    reads s
    ensures p.answers == s.answers && p.questionIndex == s.questionIndex && p.status == s.status
  {
    Progress(s.currentQuestion, s.selectedQuestions, s.questionIndex, s.answers, s.scores, s.status)
  }

  /**
    The cursor invariant of the list flow: one answer per passed question,
    and while the session is active the cursor is on a selected question
    whose ID is the current question.
   */
  predicate InStep(p: Progress)
  {
    && |p.answers| == p.questionIndex <= |p.selectedQuestions|
    && (p.status == Active ==>
      p.questionIndex < |p.selectedQuestions| && p.currentQuestion == p.selectedQuestions[p.questionIndex].id)
  }

  /** The first selected question with ID `id`. */
  function FindQuestion(selected: seq<Question>, id: string): (r: Option<Question>)
    ensures r.None? <==> forall q :: q in selected ==> q.id != id
    ensures r.Some? ==> r.value in selected && r.value.id == id
  {
    if selected == [] then None
    else if selected[0].id == id then Some(selected[0])
    else FindQuestion(selected[1..], id)
  }

  /** What FindQuestion returns is the earliest selected question with that ID. */
  lemma {:induction false} FindQuestionFirst(selected: seq<Question>, id: string)
    ensures FindQuestion(selected, id).Some? ==>
      (exists k :: 0 <= k < |selected| && selected[k] == FindQuestion(selected, id).value
         && forall j :: 0 <= j < k ==> selected[j].id != id)
  {
    if selected != [] && selected[0].id != id {
      var rest := selected[1..];
      FindQuestionFirst(rest, id);
      if FindQuestion(rest, id).Some? {
        var k :| 0 <= k < |rest| && rest[k] == FindQuestion(rest, id).value
          && forall j :: 0 <= j < k ==> rest[j].id != id;
        assert selected[k + 1] == rest[k];
        assert forall j :: 0 < j < k + 1 ==> selected[j] == rest[j - 1];
      }
    }
  }

  /** The scan of the handler for the current question among the selected ones. */
  method FindCurrentQuestion(s: Session) returns (q: Option<Question>)
    ensures q == FindQuestion(s.selectedQuestions, s.currentQuestion)
    ensures q.None? <==> forall j :: 0 <= j < |s.selectedQuestions| ==> s.selectedQuestions[j].id != s.currentQuestion
    ensures q.Some? ==>
      (exists k :: 0 <= k < |s.selectedQuestions| && s.selectedQuestions[k] == q.value
         && forall j :: 0 <= j < k ==> s.selectedQuestions[j].id != s.currentQuestion)
  {
    q := None;
    for i := 0 to |s.selectedQuestions|
      invariant FindQuestion(s.selectedQuestions[i..], s.currentQuestion) == FindQuestion(s.selectedQuestions, s.currentQuestion)
      invariant forall j :: 0 <= j < i ==> s.selectedQuestions[j].id != s.currentQuestion
    {
      assert s.selectedQuestions[i..][1..] == s.selectedQuestions[i + 1..];
      if s.selectedQuestions[i].id == s.currentQuestion {
        return Some(s.selectedQuestions[i]);
      }
    }
  }

  /** The evaluation a grading call yields: the converted verdict, or nil on any error. */
  function GradedEval(va: VisaAnalyzer, history: seq<Answer>, q: Question, answer: string): (e: Option<EvalResult>)
    ensures e.Some? <==> Grade(va, history, q.text, answer).Ok?
    ensures e.Some? ==> e.value == ConvertAnalysisToEval(Grade(va, history, q.text, answer).value, q)
  {
    match Grade(va, history, q.text, answer)
    case Ok(a) => Some(ConvertAnalysisToEval(a, q))
    case Err(_) => None
  }

  /**
    Accepting an answer to question `q`: the answer is recorded, graded with
    the history that already holds it, its evaluation is attached and added
    to the scores, and the cursor moves on, finishing the session after the
    last selected question.
   */
  function Accept(p: Progress, va: VisaAnalyzer, q: Question, rq: SubmitAnswerRequest, now: Time): Progress
  {
    var pending := Pending(q, rq, now);
    Advance(p, pending, GradedEval(va, p.answers + [pending], q, rq.answer))
  }

  /** The answer record the handler builds before grading. */
  function Pending(q: Question, rq: SubmitAnswerRequest, now: Time): Answer
  {
    Answer(rq.questionId, q.text, rq.answer, now, None, None)
  }

  /** Recording `pending` with evaluation `eval` and moving the cursor on. */
  function Advance(p: Progress, pending: Answer, eval: Option<EvalResult>): Progress
  {
    var idx := p.questionIndex + 1;
    var moved := p.(answers := p.answers + [pending.(eval := eval)], scores := AddEval(p.scores, eval), questionIndex := idx);
    if idx >= |p.selectedQuestions| then moved.(status := Finished)
    else moved.(currentQuestion := p.selectedQuestions[idx].id)
  }

  /** The reply after an accepted answer: finished, or the next question. */
  function Reply(p: Progress): SubmitAnswerResponse
  {
    if p.status != Active then SubmitAnswerResponse("", "", true, p.scores, "")
    else
      var next := if p.questionIndex < |p.selectedQuestions| then p.selectedQuestions[p.questionIndex] else EmptyQuestion;
      SubmitAnswerResponse(next.id, next.text, false, p.scores, next.id)
  }

  /**
    One submission to a stored session: a session that is not active only
    reports its state; a current question that is not selected finishes the
    session with an error; otherwise the answer is accepted.
   */
  function Submit(p: Progress, va: VisaAnalyzer, rq: SubmitAnswerRequest, now: Time)
    : (Progress, Result<SubmitAnswerResponse, HandlerError>)
  {
    if p.status != Active then (p, Ok(SubmitAnswerResponse("", "", true, p.scores, p.currentQuestion)))
    else match FindQuestion(p.selectedQuestions, p.currentQuestion)
      case None => (p.(status := Finished), Err(CurrentQuestionNotFound))
      case Some(q) =>
        var after := Accept(p, va, q, rq, now);
        (after, Ok(Reply(after)))
  }

  /**
    What an accepted submission does: exactly one answer is appended, with
    the request's question ID and text and the current question's text; it
    carries an evaluation exactly when grading succeeded, the scores move
    by that evaluation, the cursor advances by one, and the session is
    finished exactly when the cursor has run past the selection.
   */
  lemma AcceptEffect(p: Progress, va: VisaAnalyzer, q: Question, rq: SubmitAnswerRequest, now: Time)
    requires p.status == Active
    ensures |Accept(p, va, q, rq, now).answers| == |p.answers| + 1
    ensures Accept(p, va, q, rq, now).answers[..|p.answers|] == p.answers
    ensures var last := Accept(p, va, q, rq, now).answers[|p.answers|];
      && last.questionId == rq.questionId && last.questionText == q.text && last.text == rq.answer
      && last.createdAt == now && last.analysis.None?
      && (last.eval.Some? <==> Grade(va, p.answers + [Answer(rq.questionId, q.text, rq.answer, now, None, None)], q.text, rq.answer).Ok?)
      && Accept(p, va, q, rq, now).scores == AddEval(p.scores, last.eval)
    ensures Accept(p, va, q, rq, now).questionIndex == p.questionIndex + 1
    ensures Accept(p, va, q, rq, now).selectedQuestions == p.selectedQuestions
    ensures Accept(p, va, q, rq, now).status == if p.questionIndex + 1 >= |p.selectedQuestions| then Finished else Active
  {
    var after := Accept(p, va, q, rq, now);
    assert after.answers[..|p.answers|] == p.answers;
  }

  /**
    Submissions keep the cursor invariant, and on a session that keeps it
    the current question is always found.
   */
  lemma {:induction false} SubmitKeepsInStep(p: Progress, va: VisaAnalyzer, rq: SubmitAnswerRequest, now: Time)
    requires InStep(p)
    ensures InStep(Submit(p, va, rq, now).0)
    ensures Submit(p, va, rq, now).1 != Err(CurrentQuestionNotFound)
  {
    if p.status == Active {
      assert p.selectedQuestions[p.questionIndex] in p.selectedQuestions;
      var q := FindQuestion(p.selectedQuestions, p.currentQuestion);
      assert q.Some?;
      var after := Accept(p, va, q.value, rq, now);
      assert |after.answers| == |p.answers| + 1;
    }
  }

  /** An active session whose cursor names no selected question is finished with an error, and nothing is recorded. */
  lemma SubmitToUnselectedCursor(p: Progress, va: VisaAnalyzer, rq: SubmitAnswerRequest, now: Time)
    requires p.status == Active && forall q :: q in p.selectedQuestions ==> q.id != p.currentQuestion
    ensures Submit(p, va, rq, now).1 == Err(CurrentQuestionNotFound)
    ensures var after := Submit(p, va, rq, now).0;
      after.status == Finished && after.answers == p.answers && after.scores == p.scores
      && after.questionIndex == p.questionIndex
  {
  }

  /** A session that is no longer active is frozen: a submission changes nothing and reports it finished. */
  lemma SubmitToInactive(p: Progress, va: VisaAnalyzer, rq: SubmitAnswerRequest, now: Time)
    requires p.status != Active
    ensures Submit(p, va, rq, now).0 == p
    ensures Submit(p, va, rq, now).1.Ok? && Submit(p, va, rq, now).1.value.finished
  {
  }

  /**
    From a state that keeps the cursor invariant, a session is finished
    after exactly as many accepted answers as it has selected questions.
   */
  lemma {:induction false} FinishedAfterLastQuestion(p: Progress, va: VisaAnalyzer, rq: SubmitAnswerRequest, now: Time)
    requires InStep(p) && p.status == Active
    ensures var after := Submit(p, va, rq, now).0;
      && |after.answers| == |p.answers| + 1
      && (after.status == Finished <==> |after.answers| == |p.selectedQuestions|)
      && (after.status == Finished ==> Submit(p, va, rq, now).1 == Ok(SubmitAnswerResponse("", "", true, after.scores, "")))
  {
    SubmitKeepsInStep(p, va, rq, now);
    assert p.selectedQuestions[p.questionIndex] in p.selectedQuestions;
    var q := FindQuestion(p.selectedQuestions, p.currentQuestion);
    AcceptEffect(p, va, q.value, rq, now);
  }

  /** The response CreateSessionHandler builds from a session's selection. */
  function StartResponse(id: string, selected: seq<Question>): (r: Result<CreateSessionResponse, HandlerError>)
    ensures r.Err? <==> selected == []
    ensures r.Err? ==> r.error == NoQuestionsSelected
    ensures r.Ok? ==> r.value.sessionId == id && r.value.questionId == selected[0].id && r.value.questionText == selected[0].text
  {
    if |selected| == 0 then Err(NoQuestionsSelected)
    else Ok(CreateSessionResponse(id, selected[0].id, selected[0].text))
  }

  /**
    CreateSessionHandler as written: the new session is saved first, and it
    never has selected questions, so the handler always reports
    NoQuestionsSelected.
   */
  method CreateSessionHandler(store: SessionStore, freshId: string, now: Time)
    returns (r: Result<CreateSessionResponse, HandlerError>)
    requires store.Valid()
    modifies store
    ensures store.Valid()
    ensures r == Err(NoQuestionsSelected)
    ensures freshId in store.sessions && fresh(store.sessions[freshId])
    ensures store.sessions == old(store.sessions)[freshId := store.sessions[freshId]]
    ensures store.sessions[freshId].answers == [] && store.sessions[freshId].status == Active
    ensures !InStep(ProgressOf(store.sessions[freshId]))
  {
    var s := new Session.NewSession(freshId, "", now);
    store.SaveSession(s, now);
    r := StartResponse(s.id, s.selectedQuestions);
  }

  /**
    Even with a selection in place, the first question a new session sits
    on, "q1_purpose", is never the ID of a selected question, so the first
    submission would find no current question.
   */
  lemma NewSessionCursorNeverMatches(selected: seq<Question>, m: map<string, seq<string>>)
    requires IsSelectionFrom(selected, m)
    ensures FindQuestion(selected, FirstQuestionID).None?
  {
    SelectionNeverHasFirstQuestionId(selected, m);
    forall q | q in selected
      ensures q.id != FirstQuestionID
    {
      var k :| 0 <= k < |selected| && selected[k] == q;
    }
  }

  /**
    The corrected creation: draw the selection, start the session on its
    first question, save it; an empty selection is still an error. A
    session created successfully keeps the cursor invariant.
   */
  method CreateSessionWithSelection(store: SessionStore, bank: QuestionBank, freshId: string, now: Time)
    returns (r: Result<CreateSessionResponse, HandlerError>)
    requires store.Valid()
    modifies store
    ensures store.Valid()
    ensures freshId in store.sessions && fresh(store.sessions[freshId])
    ensures store.sessions == old(store.sessions)[freshId := store.sessions[freshId]]
    ensures IsSelectionFrom(store.sessions[freshId].selectedQuestions, bank.questionsByCategory)
    ensures r == StartResponse(freshId, store.sessions[freshId].selectedQuestions)
    ensures r.Ok? ==> InStep(ProgressOf(store.sessions[freshId]))
  {
    var s := new Session.NewSession(freshId, "", now);
    var selected := bank.SelectQuestionsForSession();
    s.selectedQuestions := selected;
    if |selected| > 0 {
      s.currentQuestion := selected[0].id;
    }
    store.SaveSession(s, now);
    r := StartResponse(s.id, s.selectedQuestions);
  }

  /** Recording and grading one answer: appended first, graded with it in the history, then annotated. */
  method RecordGradedAnswer(s: Session, va: VisaAnalyzer, q: Question, rq: SubmitAnswerRequest, now: Time)
    returns (eval: Option<EvalResult>)
    modifies s`answers
    ensures var pending := Pending(q, rq, now);
      && eval == GradedEval(va, old(s.answers) + [pending], q, rq.answer)
      && s.answers == old(s.answers) + [pending.(eval := eval)]
  {
    var answer := Answer(rq.questionId, q.text, rq.answer, now, None, None);
    assert answer == Pending(q, rq, now);
    s.answers := s.answers + [answer];
    var graded := CallLLM(va, s, q, rq.answer);
    eval := None;
    if graded.Ok? {
      eval := Some(graded.value);
    }
    if eval.Some? {
      s.answers := s.answers[|s.answers| - 1 := s.answers[|s.answers| - 1].(eval := eval)];
    }
  }

  /** Moving the cursor past the answered question: finished after the last one, else onto the next. */
  method MoveCursor(s: Session)
    modifies s`questionIndex, s`status, s`currentQuestion
    ensures s.questionIndex == old(s.questionIndex) + 1
    ensures s.questionIndex >= |s.selectedQuestions| ==> s.status == Finished && s.currentQuestion == old(s.currentQuestion)
    ensures s.questionIndex < |s.selectedQuestions| ==>
      s.status == old(s.status) && s.currentQuestion == s.selectedQuestions[s.questionIndex].id
  {
    s.questionIndex := s.questionIndex + 1;
    if s.questionIndex >= |s.selectedQuestions| {
      s.status := Finished;
    } else {
      s.currentQuestion := s.selectedQuestions[s.questionIndex].id;
    }
  }

  /** A progress that differs from `p` exactly as Advance says is Advance's result. */
  lemma AdvanceByFields(p: Progress, pending: Answer, eval: Option<EvalResult>, after: Progress)
    requires after.answers == p.answers + [pending.(eval := eval)] && after.scores == AddEval(p.scores, eval)
    requires after.questionIndex == p.questionIndex + 1 && after.selectedQuestions == p.selectedQuestions
    requires after.questionIndex >= |p.selectedQuestions| ==>
      after.status == Finished && after.currentQuestion == p.currentQuestion
    requires after.questionIndex < |p.selectedQuestions| ==>
      after.status == p.status && after.currentQuestion == p.selectedQuestions[after.questionIndex].id
    ensures after == Advance(p, pending, eval)
  {
  }

  /** The accepting tail of SubmitAnswerHandler, on the session object. */
  method AcceptAnswer(s: Session, va: VisaAnalyzer, q: Question, rq: SubmitAnswerRequest, now: Time)
    modifies s`answers, s`scores, s`questionIndex, s`status, s`currentQuestion
    ensures ProgressOf(s) == Accept(old(ProgressOf(s)), va, q, rq, now)
  {
    ghost var p := ProgressOf(s);
    ghost var pending := Pending(q, rq, now);
    var eval := RecordGradedAnswer(s, va, q, rq, now);
    ApplyEval(s, eval);
    assert s.answers == p.answers + [pending.(eval := eval)] && s.scores == AddEval(p.scores, eval);
    MoveCursor(s);
    AdvanceByFields(p, pending, eval, ProgressOf(s));
  }

  /**
    SubmitAnswerHandler. Requests are rejected, with nothing changed, for
    an empty session ID, an unreadable body or an unknown session; a stored
    session then moves as Submit says, is stamped and saved unless it was
    inactive, and no other session changes.
   */
  method SubmitAnswerHandler(store: SessionStore, va: VisaAnalyzer, sessionId: string,
      req: Option<SubmitAnswerRequest>, now: Time)
    returns (r: Result<SubmitAnswerResponse, HandlerError>)
    requires store.Valid()
    modifies store, store.sessions.Values
    ensures store.Valid() && store.sessions == old(store.sessions)
    ensures forall x :: x in old(store.sessions.Values) && x.id != sessionId ==> unchanged(x)
    ensures sessionId == "" ==> r == Err(MissingSessionId)
    ensures sessionId != "" && req.None? ==> r == Err(InvalidBody)
    ensures sessionId != "" && req.Some? && sessionId !in store.sessions ==> r == Err(SessionNotFound)
    ensures sessionId == "" || req.None? || sessionId !in store.sessions ==>
      forall x :: x in old(store.sessions.Values) ==> unchanged(x)
    ensures sessionId != "" && req.Some? && sessionId in store.sessions ==>
      var s := store.sessions[sessionId];
      var step := Submit(old(ProgressOf(s)), va, req.value, now);
      && ProgressOf(s) == step.0 && r == step.1
      && s.summary == old(s.summary)
      && (if old(s.status) == Active then s.updatedAt == now else unchanged(s))
  {
    if sessionId == "" {
      return Err(MissingSessionId);
    }
    if req.None? {
      return Err(InvalidBody);
    }
    var rq := req.value;
    var lookup := store.GetSession(sessionId);
    if lookup.None? {
      return Err(SessionNotFound);
    }
    var s := lookup.value;
    assert s in store.sessions.Values;
    if s.status != Active {
      return Ok(SubmitAnswerResponse("", "", true, s.scores, s.currentQuestion));
    }
    var currentQ := FindCurrentQuestion(s);
    if currentQ.None? {
      s.status := Finished;
      store.SaveSession(s, now);
      return Err(CurrentQuestionNotFound);
    }
    AcceptAnswer(s, va, currentQ.value, rq, now);
    store.SaveSession(s, now);
    r := Ok(Reply(ProgressOf(s)));
  }
}
