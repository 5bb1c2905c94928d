/**
  Applying evaluations to a session's risk scores and summarising a session
  (interview/evaluation.go).
 */
module Evaluation {
  import opened Wrappers
  import opened GoStrings
  import opened Models
  import opened Analyzer
  import opened Llm

  // ---------------------------------------------------------------------------
  // Score accumulation
  // ---------------------------------------------------------------------------

  function AddDelta(s: Scores, d: ScoreDelta): Scores
  {
    Scores(s.academic + d.academic, s.financial + d.financial,
      s.intentToReturn + d.intentToReturn, s.overallRisk + d.overallRisk)
  }

  /** The scores after one evaluation: each bucket moves by its delta; nil changes nothing. */
  function AddEval(scores: Scores, eval: Option<EvalResult>): (r: Scores)
    ensures eval.None? ==> r == scores
    ensures eval.Some? ==>
      && r.academic - scores.academic == eval.value.scoreDelta.academic
      && r.financial - scores.financial == eval.value.scoreDelta.financial
      && r.intentToReturn - scores.intentToReturn == eval.value.scoreDelta.intentToReturn
      && r.overallRisk - scores.overallRisk == eval.value.scoreDelta.overallRisk
  {
    match eval
    case None => scores
    case Some(e) => AddDelta(scores, e.scoreDelta)
  }

  /** ApplyEval: the session's scores absorb the evaluation's delta; no other field changes. */
  method ApplyEval(s: Session, eval: Option<EvalResult>)
    modifies s`scores
    ensures s.scores == AddEval(old(s.scores), eval)
  {
    if eval.None? {
      return;
    }
    var d := eval.value.scoreDelta;
    s.scores := s.scores.(academic := s.scores.academic + d.academic);
    s.scores := s.scores.(financial := s.scores.financial + d.financial);
    s.scores := s.scores.(intentToReturn := s.scores.intentToReturn + d.intentToReturn);
    s.scores := s.scores.(overallRisk := s.scores.overallRisk + d.overallRisk);
  }

  function PlusDelta(a: ScoreDelta, b: ScoreDelta): ScoreDelta
  {
    ScoreDelta(a.academic + b.academic, a.financial + b.financial,
      a.intentToReturn + b.intentToReturn, a.overallRisk + b.overallRisk)
  }

  /** The componentwise sum of the deltas of the present evaluations. */
  function SumDeltas(evals: seq<Option<EvalResult>>): ScoreDelta
  {
    if evals == [] then ScoreDelta(0, 0, 0, 0)
    else
      var d := SumDeltas(evals[..|evals| - 1]);
      match evals[|evals| - 1]
      case None => d
      case Some(e) => PlusDelta(d, e.scoreDelta)
  }

  /** The scores after each evaluation in turn, as the answer flow applies them. */
  function AddAll(scores: Scores, evals: seq<Option<EvalResult>>): Scores
    decreases |evals|
  {
    if evals == [] then scores else AddAll(AddEval(scores, evals[0]), evals[1..])
  }

  lemma {:induction false} SumDeltasCons(e: Option<EvalResult>, rest: seq<Option<EvalResult>>)
    ensures SumDeltas([e] + rest) == PlusDelta(SumDeltas([e]), SumDeltas(rest))
  {
    if rest != [] {
      var all := [e] + rest;
      assert all[..|all| - 1] == [e] + rest[..|rest| - 1];
      SumDeltasCons(e, rest[..|rest| - 1]);
    } else {
      assert [e] + rest == [e];
    }
  }

  /**
    Applying a run of evaluations one by one ends where adding their summed
    delta once does.
   */
  lemma {:induction false} AddAllIsSum(scores: Scores, evals: seq<Option<EvalResult>>)
    ensures AddAll(scores, evals) == AddDelta(scores, SumDeltas(evals))
    decreases |evals|
  {
    if evals == [] {
    } else {
      AddAllIsSum(AddEval(scores, evals[0]), evals[1..]);
      assert evals == [evals[0]] + evals[1..];
      SumDeltasCons(evals[0], evals[1..]);
      assert [evals[0]][..0] == [];
    }
  }

  /** The order in which two evaluations are applied does not matter. */
  lemma AddEvalCommutes(scores: Scores, a: Option<EvalResult>, b: Option<EvalResult>)
    ensures AddEval(AddEval(scores, a), b) == AddEval(AddEval(scores, b), a)
  {
  }

  /** ApplyAnalysis: nil changes nothing, otherwise the converted evaluation is applied. */
  method ApplyAnalysis(s: Session, analysis: Option<AnalysisResponse>, q: Question)
    modifies s`scores
    ensures s.scores == AddEval(old(s.scores), ConvertOptionalAnalysis(analysis, q))
  {
    if analysis.None? {
      return;
    }
    var eval := ConvertOptionalAnalysis(analysis, q);
    ApplyEval(s, eval);
  }

  /**
    What a verdict does to the scores: the overall risk moves by +5 for a
    rubric total of 10 or less and by -3 for 13 or more, and the category's
    area bucket with it; every other bucket stays.
   */
  lemma AnalysisEffect(scores: Scores, analysis: AnalysisResponse, q: Question)
    ensures var r := AddEval(scores, ConvertOptionalAnalysis(Some(analysis), q));
      var t := Clamp(analysis.scores.totalScore);
      var step := if t <= 10 then 5 else if t >= 13 then -3 else 0;
      && r.overallRisk == scores.overallRisk + step
      && r.academic == scores.academic + (if AreaOf(q.category) == AcademicArea then step else 0)
      && r.financial == scores.financial + (if AreaOf(q.category) == FinancialArea then step else 0)
      && r.intentToReturn == scores.intentToReturn + (if AreaOf(q.category) == IntentArea then step else 0)
  {
  }

  // ---------------------------------------------------------------------------
  // Session summary
  // ---------------------------------------------------------------------------

  /** The ID of the k-th analysis record of session `sessionId`. */
  function RecordId(sessionId: string, k: nat): string
  {
    "analysis_" + sessionId + "_" + NatToString(k)
  }

  /** The answers that carry an analysis, in order. */
  function Analysed(answers: seq<Answer>): (r: seq<Answer>)
    ensures |r| == CountAnalysed(answers)
  {
    if answers == [] then []
    else
      Analysed(answers[..|answers| - 1])
      + (if answers[|answers| - 1].analysis.Some? then [answers[|answers| - 1]] else [])
  }

  /** Exactly the analysed answers are kept. */
  lemma {:induction false} AnalysedMembers(answers: seq<Answer>, a: Answer)
    ensures a in Analysed(answers) <==> a in answers && a.analysis.Some?
  {
    if answers != [] {
      var init := answers[..|answers| - 1];
      AnalysedMembers(init, a);
      assert answers == init + [answers[|answers| - 1]];
    }
  }

  /** An analysis record built from an analysed answer. */
  function RecordOf(sessionId: string, k: nat, a: Answer): AnalysisRecord
    requires a.analysis.Some?
  {
    AnalysisRecord(RecordId(sessionId, k), sessionId, a.questionText, a.text, a.analysis.value, a.createdAt)
  }

  /** The records the summary loop collects: one per analysed answer, numbered from 0. */
  function AnalysisRecordsOf(sessionId: string, answers: seq<Answer>): (r: seq<AnalysisRecord>)
    ensures |r| == CountAnalysed(answers)
  {
    if answers == [] then []
    else
      var prev := AnalysisRecordsOf(sessionId, answers[..|answers| - 1]);
      var last := answers[|answers| - 1];
      prev + (if last.analysis.Some? then [RecordOf(sessionId, |prev|, last)] else [])
  }

  /** Record k is built from answer k of `an`, which is analysed, and carries the ID numbered k. */
  ghost predicate RecordsMatch(sessionId: string, recs: seq<AnalysisRecord>, an: seq<Answer>)
  {
    |recs| == |an|
    && forall k :: 0 <= k < |recs| ==> an[k].analysis.Some? && recs[k] == RecordOf(sessionId, k, an[k])
  }

  /** Record k is built from the k-th analysed answer and carries the ID numbered k. */
  lemma {:induction false} RecordsMatchAnalysed(sessionId: string, answers: seq<Answer>)
    ensures RecordsMatch(sessionId, AnalysisRecordsOf(sessionId, answers), Analysed(answers))
  {
    if answers != [] {
      var init := answers[..|answers| - 1];
      var last := answers[|answers| - 1];
      RecordsMatchAnalysed(sessionId, init);
      var prev, pan := AnalysisRecordsOf(sessionId, init), Analysed(init);
      if last.analysis.Some? {
        var recs := prev + [RecordOf(sessionId, |prev|, last)];
        var an := pan + [last];
        assert AnalysisRecordsOf(sessionId, answers) == recs;
        assert Analysed(answers) == an;
        forall k | 0 <= k < |recs|
          ensures an[k].analysis.Some? && recs[k] == RecordOf(sessionId, k, an[k])
        {
          if k < |prev| {
            assert recs[k] == prev[k] && an[k] == pan[k];
          }
        }
      } else {
        assert AnalysisRecordsOf(sessionId, answers) == prev;
        assert Analysed(answers) == pan;
      }
    }
  }

  /** Distinct numbers give distinct record IDs. */
  lemma RecordIdInjective(sessionId: string, j: nat, k: nat)
    requires RecordId(sessionId, j) == RecordId(sessionId, k)
    ensures j == k
  {
    var p := "analysis_" + sessionId + "_";
    assert RecordId(sessionId, j) == p + NatToString(j);
    assert RecordId(sessionId, k) == p + NatToString(k);
    assert NatToString(j) == RecordId(sessionId, j)[|p|..];
    assert NatToString(k) == RecordId(sessionId, k)[|p|..];
    NatToStringInjective(j, k);
  }

  /** The records of one session have pairwise distinct IDs. */
  lemma RecordIdsDistinct(sessionId: string, answers: seq<Answer>)
    ensures var recs := AnalysisRecordsOf(sessionId, answers);
      forall j, k :: 0 <= j < k < |recs| ==> recs[j].id != recs[k].id
  {
    RecordsMatchAnalysed(sessionId, answers);
    var recs := AnalysisRecordsOf(sessionId, answers);
    forall j, k | 0 <= j < k < |recs|
      ensures recs[j].id != recs[k].id
    {
      if recs[j].id == recs[k].id {
        RecordIdInjective(sessionId, j, k);
      }
    }
  }

  /**
    GenerateSessionSummary: fail when the session has no answers, then when
    none of them was analysed; otherwise summarise the analysis records and
    stamp the summary with the session's ID.
   */
  method GenerateSessionSummary(s: Session, now: Time) returns (r: Result<SessionSummary, string>)
    ensures |s.answers| == 0 ==> r == Err("no answers in session")
    ensures |s.answers| > 0 && CountAnalysed(s.answers) == 0 ==> r == Err("no analyses found in session")
    ensures r.Ok? <==> CountAnalysed(s.answers) > 0
    ensures r.Ok? ==> IsSummaryOf(r.value, AnalysisRecordsOf(s.id, s.answers), now) && r.value.sessionId == s.id
  {
    if |s.answers| == 0 {
      return Err("no answers in session");
    }
    var analyses: seq<AnalysisRecord> := [];
    var i := 0;
    while i < |s.answers|
      invariant 0 <= i <= |s.answers|
      invariant analyses == AnalysisRecordsOf(s.id, s.answers[..i])
    {
      var answer := s.answers[i];
      assert s.answers[..i + 1][..i] == s.answers[..i];
      if answer.analysis.Some? {
        analyses := analyses + [AnalysisRecord(
          "analysis_" + s.id + "_" + NatToString(|analyses|),
          s.id,
          answer.questionText,
          answer.text,
          answer.analysis.value,
          answer.createdAt)];
      }
      i := i + 1;
    }
    assert s.answers[..i] == s.answers;
    if |analyses| == 0 {
      return Err("no analyses found in session");
    }
    // analyses is non-empty, so the summary generator succeeds
    var summary := Analyzer.GenerateSessionSummary(analyses, now);
    r := Ok(summary.value.(sessionId := s.id));
  }
}
