/**
  The bridge from the rubric verdict to the older per-answer evaluation
  (interview/llm.go): percentage buckets, keyword-driven follow-up
  suggestion, risk deltas and flags, and the package-level grading calls.
 */
module Llm {
  import opened Wrappers
  import opened GoStrings
  import opened Models
  import opened Analyzer

  // ---------------------------------------------------------------------------
  // Case-insensitive keyword search
  // ---------------------------------------------------------------------------

  /** Some keyword of `subs` occurs in `s`, ignoring ASCII case. */
  predicate MentionsAny(s: string, subs: seq<string>)
  {
    exists i | 0 <= i < |subs| :: Contains(ToLower(s), ToLower(subs[i]))
  }

  /** contains: the early-return loop over the keywords. */
  method ContainsAnyOf(s: string, subs: seq<string>) returns (found: bool)
    ensures found <==> MentionsAny(s, subs)
  {
    var lower := ToLower(s);
    for i := 0 to |subs|
      invariant forall j :: 0 <= j < i ==> !Contains(lower, ToLower(subs[j]))
    {
      if Contains(lower, ToLower(subs[i])) {
        return true;
      }
    }
    return false;
  }

  /** Case does not matter to the search. */
  lemma MentionsAnyIgnoresCase(s: string, subs: seq<string>)
    ensures MentionsAny(ToLower(s), subs) <==> MentionsAny(s, subs)
  {
    assert ToLower(ToLower(s)) == ToLower(s);
  }

  // ---------------------------------------------------------------------------
  // Percentage and buckets
  // ---------------------------------------------------------------------------

  /** int(ScoreToPercentage(total)), computed on integers. */
  function Percentage(totalScore: int): int
  {
    (Clamp(totalScore) - 3) * 100 / 12
  }

  /** The integer form agrees with truncating the floating-point percentage, and lies in 0..100. */
  lemma PercentageMatchesFloat(totalScore: int)
    ensures Percentage(totalScore) == Truncate(ScoreToPercentage(totalScore))
    ensures 0 <= Percentage(totalScore) <= 100
  {
    var k := Clamp(totalScore) - 3;
    var x := ScoreToPercentage(totalScore);
    assert x == (k * 100) as real / 12.0;
    var t := Truncate(x);
    TruncateBounds(x);
    assert t as real <= (k * 100) as real / 12.0 < t as real + 1.0;
    assert 12 * t <= k * 100 < 12 * t + 12;
  }

  /**
    The thresholds the conversion tests, restated on the rubric total:
    below 70% is a total of 11 or less, below 60% is 10 or less, 80% or more
    is 13 or more, and the tenths bucket never exceeds 10.
   */
  lemma {:induction false} PercentageBands(totalScore: int)
    ensures Percentage(totalScore) < 70 <==> Clamp(totalScore) <= 11
    ensures Percentage(totalScore) < 60 <==> Clamp(totalScore) <= 10
    ensures Percentage(totalScore) >= 80 <==> Clamp(totalScore) >= 13
    ensures Percentage(totalScore) / 10 <= 10
  {
    var c := Clamp(totalScore);
    var p := Percentage(totalScore);
    assert 12 * p <= (c - 3) * 100 < 12 * p + 12;
  }

  /** A higher rubric total never yields a lower percentage. */
  lemma {:induction false} PercentageMonotone(a: int, b: int)
    requires a <= b
    ensures Percentage(a) <= Percentage(b)
  {
    var pa, pb := Percentage(a), Percentage(b);
    var ka, kb := Clamp(a) - 3, Clamp(b) - 3;
    assert 12 * pa <= ka * 100 < 12 * pa + 12;
    assert 12 * pb <= kb * 100 < 12 * pb + 12;
    assert ka <= kb;
    assert ka * 100 <= kb * 100;
  }

  /** A 1..5 criterion score doubled onto 0..10, capped at 10. */
  function Scale10(criterion: int): (r: int)
    ensures r <= 10
    ensures criterion <= 5 ==> r == 2 * criterion
    ensures criterion >= 5 ==> r == 10
  {
    if criterion * 2 > 10 then 10 else criterion * 2
  }

  // ---------------------------------------------------------------------------
  // Follow-up suggestion and risk delta
  // ---------------------------------------------------------------------------

  const PurposeWords: seq<string> := ["purpose", "study", "why", "goal"]
  const UniversityWords: seq<string> := ["university", "school", "college", "program"]
  const FinancialWords: seq<string> := ["financial", "money", "fund", "sponsor", "income"]
  const HomeTiesWords: seq<string> := ["home", "country", "return", "ties", "family"]

  const FollowupTypes: set<string> := {"clarify_purpose", "clarify_university", "clarify_financial", "clarify_home_ties"}

  /**
    The follow-up type the feedback text points at: the first keyword group
    (purpose, university, financial, home ties) that the text mentions, or
    "" when none does.
   */
  function SuggestFollowup(feedback: string): string
  {
    if MentionsAny(feedback, PurposeWords) then "clarify_purpose"
    else if MentionsAny(feedback, UniversityWords) then "clarify_university"
    else if MentionsAny(feedback, FinancialWords) then "clarify_financial"
    else if MentionsAny(feedback, HomeTiesWords) then "clarify_home_ties"
    else ""
  }

  /** The suggestion is a known type or "", and each type is chosen exactly when its group comes first. */
  lemma SuggestFollowupChoice(feedback: string)
    ensures var f := SuggestFollowup(feedback);
      && (f == "" || f in FollowupTypes)
      && (f == "clarify_purpose" <==> MentionsAny(feedback, PurposeWords))
      && (f == "clarify_university" <==> !MentionsAny(feedback, PurposeWords) && MentionsAny(feedback, UniversityWords))
      && (f == "clarify_financial" <==>
        !MentionsAny(feedback, PurposeWords) && !MentionsAny(feedback, UniversityWords) && MentionsAny(feedback, FinancialWords))
      && (f == "" <==>
        !MentionsAny(feedback, PurposeWords) && !MentionsAny(feedback, UniversityWords)
        && !MentionsAny(feedback, FinancialWords) && !MentionsAny(feedback, HomeTiesWords))
  {
  }

  /** The risk score field a question category feeds, if any. */
  datatype RiskArea = AcademicArea | FinancialArea | IntentArea | NoArea

  function AreaOf(category: string): RiskArea
  {
    if category == "Academic Background" then AcademicArea
    else if category == "Financial Capability" then FinancialArea
    else if category == "Immigration Intent" || category == "Post-Graduation Plans" then IntentArea
    else NoArea
  }

  /**
    The delta of one answer: the overall risk moves by `step` and so does the
    one area field the category maps to; every other field stays 0.
   */
  function DeltaFor(step: int, category: string): (d: ScoreDelta)
    ensures d.overallRisk == step
    ensures d.academic == (if AreaOf(category) == AcademicArea then step else 0)
    ensures d.financial == (if AreaOf(category) == FinancialArea then step else 0)
    ensures d.intentToReturn == (if AreaOf(category) == IntentArea then step else 0)
  {
    match AreaOf(category)
    case AcademicArea => ScoreDelta(step, 0, 0, step)
    case FinancialArea => ScoreDelta(0, step, 0, step)
    case IntentArea => ScoreDelta(0, 0, step, step)
    case NoArea => ScoreDelta(0, 0, 0, step)
  }

  /** The step of the delta: +5 below 60%, -3 from 80%, 0 between. */
  function RiskStep(percentage: int): (step: int)
    ensures step in {5, 0, -3}
  {
    if percentage < 60 then 5 else if percentage >= 80 then -3 else 0
  }

  /** The flags: the classification and the feedback, each when not blank. */
  function Flags(classification: string, feedback: string): seq<string>
  {
    (if TrimSpace(classification) != "" then ["classification:" + classification] else [])
      + (if TrimSpace(feedback) != "" then ["feedback:" + feedback] else [])
  }

  /** Each flag is present exactly when its text is not blank, and there is nothing else. */
  lemma FlagsShape(classification: string, feedback: string)
    ensures var flags, cls, fb := Flags(classification, feedback), "classification:" + classification, "feedback:" + feedback;
      && (cls in flags <==> TrimSpace(classification) != "")
      && (fb in flags <==> TrimSpace(feedback) != "")
      && (forall f :: f in flags ==> f == cls || f == fb)
      && |flags| == (if TrimSpace(classification) != "" then 1 else 0) + (if TrimSpace(feedback) != "" then 1 else 0)
  {
    var cls := "classification:" + classification;
    var fb := "feedback:" + feedback;
    assert cls[0] != fb[0];
  }

  // ---------------------------------------------------------------------------
  // The conversion
  // ---------------------------------------------------------------------------

  /** convertAnalysisToEval: the rubric verdict restated as the older per-answer evaluation. */
  function ConvertAnalysisToEval(analysis: AnalysisResponse, q: Question): EvalResult
  {
    var percentage := Percentage(analysis.scores.totalScore);
    var quality := if percentage / 10 > 10 then 10 else percentage / 10;
    var intentRisk := if 10 - percentage / 10 < 0 then 0 else 10 - percentage / 10;
    var needsFollowup := percentage < 70;
    EvalResult(
      quality,
      Scale10(analysis.scores.answerLength),
      Scale10(analysis.scores.goalUnderstanding),
      Flags(analysis.classification, analysis.feedback.overall),
      intentRisk,
      if needsFollowup then SuggestFollowup(analysis.feedback.overall) else "",
      needsFollowup,
      DeltaFor(RiskStep(percentage), q.category))
  }

  /**
    The fields of the converted evaluation, on the rubric total t (clamped
    to 3..15): quality is the tenths bucket of the percentage and intent
    risk its complement to 10; a follow-up is needed for t <= 11 and only
    then suggested; the delta step is +5 for t <= 10 and -3 for t >= 13.
   */
  lemma ConvertFields(analysis: AnalysisResponse, q: Question)
    ensures var e, t := ConvertAnalysisToEval(analysis, q), Clamp(analysis.scores.totalScore);
      && 0 <= e.quality <= 10
      && e.quality == Percentage(analysis.scores.totalScore) / 10
      && e.quality + e.intentToReturnRisk == 10
      && e.clarity == Scale10(analysis.scores.answerLength)
      && e.confidence == Scale10(analysis.scores.goalUnderstanding)
      && (e.needsFollowup <==> t <= 11)
      && e.suggestedFollowup == (if t <= 11 then SuggestFollowup(analysis.feedback.overall) else "")
      && e.scoreDelta == DeltaFor(if t <= 10 then 5 else if t >= 13 then -3 else 0, q.category)
      && e.flags == Flags(analysis.classification, analysis.feedback.overall)
  {
    PercentageBands(analysis.scores.totalScore);
  }

  /** A better verdict never raises the intent risk nor lowers the quality. */
  lemma {:induction false} ConvertMonotone(a: AnalysisResponse, b: AnalysisResponse, q: Question)
    requires a.scores.totalScore <= b.scores.totalScore
    ensures ConvertAnalysisToEval(a, q).quality <= ConvertAnalysisToEval(b, q).quality
    ensures ConvertAnalysisToEval(a, q).intentToReturnRisk >= ConvertAnalysisToEval(b, q).intentToReturnRisk
    ensures ConvertAnalysisToEval(b, q).needsFollowup ==> ConvertAnalysisToEval(a, q).needsFollowup
  {
    PercentageMonotone(a.scores.totalScore, b.scores.totalScore);
  }

  /** The extreme verdicts: 15 needs nothing and lowers risk; 3 raises it. */
  lemma ConvertExtremes(best: AnalysisResponse, worst: AnalysisResponse, q: Question)
    requires best.scores.totalScore == 15 && worst.scores.totalScore == 3
    ensures var e := ConvertAnalysisToEval(best, q);
      e.quality == 10 && e.intentToReturnRisk == 0 && !e.needsFollowup && e.suggestedFollowup == ""
      && e.scoreDelta.overallRisk == -3
    ensures var e := ConvertAnalysisToEval(worst, q);
      e.quality == 0 && e.intentToReturnRisk == 10 && e.needsFollowup && e.scoreDelta.overallRisk == 5
  {
  }

  /** ConvertAnalysisToEval on a possibly missing verdict: nil stays nil. */
  function ConvertOptionalAnalysis(analysis: Option<AnalysisResponse>, q: Question): Option<EvalResult>
  {
    match analysis
    case None => None
    case Some(a) => Some(ConvertAnalysisToEval(a, q))
  }

  // ---------------------------------------------------------------------------
  // Package-level grading calls
  // ---------------------------------------------------------------------------

  /**
    AnalyzeAnswer: with the process-wide analyzer `va`, fail on an empty
    credential, otherwise grade `answer` to `q` with the session's history.
   */
  method AnalyzeAnswer(va: VisaAnalyzer, session: Session, q: Question, answer: string)
    returns (r: Result<AnalysisResponse, GradeError>)
    ensures va.apiKey == "" ==> r == Err(MissingApiKey)
    ensures r == Grade(va, session.answers, q.text, answer)
  {
    if va.apiKey == "" {
      return Err(MissingApiKey);
    }
    r := AnalyzeAnswerWithSession(va, session, q.text, answer);
  }

  /** CallLLM: grade, then convert a successful verdict to an evaluation. */
  method CallLLM(va: VisaAnalyzer, session: Session, q: Question, answer: string)
    returns (r: Result<EvalResult, GradeError>)
    ensures var g := Grade(va, session.answers, q.text, answer);
      && (r.Ok? <==> g.Ok?)
      && (r.Ok? ==> r.value == ConvertAnalysisToEval(g.value, q))
      && (r.Err? ==> r.error == g.error)
  {
    var analysis := AnalyzeAnswer(va, session, q, answer);
    if analysis.Err? {
      return Err(analysis.error);
    }
    r := Ok(ConvertAnalysisToEval(analysis.value, q));
  }
}
