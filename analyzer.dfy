/**
  The grading client and the session summary generator (interview/analyzer.go).
  The HTTP round trip to the chat-completion endpoint and the JSON codec are
  oracles carried by the VisaAnalyzer value; everything around them is modelled.
 */
module Analyzer {
  import opened Wrappers
  import opened GoStrings
  import opened Models

  // ---------------------------------------------------------------------------
  // Score scale
  // ---------------------------------------------------------------------------

  /** The rubric total forced into its documented range 3..15. */
  function Clamp(score: int): (r: int)
    ensures 3 <= r <= 15
    ensures 3 <= score <= 15 ==> r == score
    ensures score < 3 ==> r == 3
    ensures score > 15 ==> r == 15
  {
    if score < 3 then 3 else if score > 15 then 15 else score
  }

  /** ScoreToPercentage: the linear rescale of 3..15 onto 0..100, clamping outside. */
  function ScoreToPercentage(score: int): (r: real)
    ensures 0.0 <= r <= 100.0
  {
    (Clamp(score) - 3) as real * (100.0 / 12.0)
  }

  /** The rescale hits both ends and the midpoint, and clamps out-of-range totals. */
  lemma ScoreToPercentageFixedPoints(low: int, high: int)
    requires low <= 3 && high >= 15
    ensures ScoreToPercentage(low) == 0.0
    ensures ScoreToPercentage(9) == 50.0
    ensures ScoreToPercentage(high) == 100.0
  {
  }

  /** The rescale never decreases. */
  lemma ScoreToPercentageMonotone(a: int, b: int)
    requires a <= b
    ensures ScoreToPercentage(a) <= ScoreToPercentage(b)
  {
  }

  // ---------------------------------------------------------------------------
  // Grades and recommendation
  // ---------------------------------------------------------------------------

  /** getGradeFromScore: "A" only at exactly 15, then B from 13, C from 11, else D. */
  function GetGradeFromScore(score: int): (g: string)
    ensures g in {"A", "B", "C", "D"}
    ensures g == "A" <==> score == 15
    ensures score > 15 ==> g == "B"
    ensures g == "B" <==> score >= 13 && score != 15
    ensures g == "C" <==> 11 <= score < 13
    ensures g == "D" <==> score < 11
  {
    if score == 15 then "A"
    else if score >= 13 then "B"
    else if score >= 11 then "C"
    else "D"
  }

  const RecommendExcellent := "Excellent performance! You're well-prepared. Focus on maintaining confidence and natural delivery during the actual interview."
  const RecommendGood := "Good foundation. Review the specific feedback for each answer and practice the improved versions. Focus on being more specific and confident in your responses."
  const RecommendPractice := "You need more practice. Focus on providing specific examples, showing strong ties to your home country, and demonstrating clear post-graduation plans."
  const RecommendImprove := "Significant improvement needed. Consider working with an advisor to strengthen your answers. Focus on clarity, specificity, and addressing visa officer concerns about immigrant intent."

  /** generateRecommendation: one of four texts, by average-score band. */
  function GenerateRecommendation(avgScore: real): string
  {
    if avgScore >= 15.0 then RecommendExcellent
    else if avgScore >= 13.0 then RecommendGood
    else if avgScore >= 11.0 then RecommendPractice
    else RecommendImprove
  }

  /** How strong a recommendation text is: 3 for the best band down to 0. */
  function RecommendationRank(text: string): nat
  {
    if text == RecommendExcellent then 3
    else if text == RecommendGood then 2
    else if text == RecommendPractice then 1
    else 0
  }

  /**
    Every average gets one of the four texts, each text is given exactly on its
    band (15 and above, 13 to 15, 11 to 13, below 11), and a higher average
    never gets a weaker text.
   */
  lemma RecommendationBands(a: real, b: real)
    ensures GenerateRecommendation(a) in {RecommendExcellent, RecommendGood, RecommendPractice, RecommendImprove}
    ensures GenerateRecommendation(a) == RecommendExcellent <==> a >= 15.0
    ensures GenerateRecommendation(a) == RecommendGood <==> 13.0 <= a < 15.0
    ensures GenerateRecommendation(a) == RecommendPractice <==> 11.0 <= a < 13.0
    ensures GenerateRecommendation(a) == RecommendImprove <==> a < 11.0
    ensures a <= b ==> RecommendationRank(GenerateRecommendation(a)) <= RecommendationRank(GenerateRecommendation(b))
  {
  }

  /** Go's int(float64): truncation toward zero. */
  function Truncate(x: real): int
  {
    if x >= 0.0 then x.Floor else -((-x).Floor)
  }

  /** Truncation drops the fraction: toward zero from either side. */
  lemma TruncateBounds(x: real)
    ensures x >= 0.0 ==> Truncate(x) as real <= x < Truncate(x) as real + 1.0
    ensures x < 0.0 ==> Truncate(x) as real - 1.0 < x <= Truncate(x) as real
  {
  }

  /** For averages of valid totals, grade band and recommendation band agree. */
  lemma {:induction false} GradeMatchesRecommendation(avg: real)
    requires 3.0 <= avg <= 15.0
    ensures GetGradeFromScore(Truncate(avg)) == "A" <==> GenerateRecommendation(avg) == RecommendExcellent
    ensures GetGradeFromScore(Truncate(avg)) == "B" <==> GenerateRecommendation(avg) == RecommendGood
    ensures GetGradeFromScore(Truncate(avg)) == "C" <==> GenerateRecommendation(avg) == RecommendPractice
    ensures GetGradeFromScore(Truncate(avg)) == "D" <==> GenerateRecommendation(avg) == RecommendImprove
  {
    var t := Truncate(avg);
    TruncateBounds(avg);
    assert t as real <= avg < t as real + 1.0;
    assert t >= 15 <==> avg >= 15.0;
    assert t >= 13 <==> avg >= 13.0;
    assert t >= 11 <==> avg >= 11.0;
  }

  // ---------------------------------------------------------------------------
  // Criteria, strong and weak areas, red flags
  // ---------------------------------------------------------------------------

  const MigrationIntentKey := "migration_intent"
  const GoalUnderstandingKey := "goal_understanding"
  const AnswerLengthKey := "answer_length"
  const CriteriaKeys: set<string> := {MigrationIntentKey, GoalUnderstandingKey, AnswerLengthKey}

  /** The sub-score a criterion key names (0 for a key that is not a criterion). */
  function CriterionScore(s: AnalysisScores, criterion: string): int
  {
    if criterion == MigrationIntentKey then s.migrationIntent
    else if criterion == GoalUnderstandingKey then s.goalUnderstanding
    else if criterion == AnswerLengthKey then s.answerLength
    else 0
  }

  /** formatCriterionName: the human-readable label of a criterion; other keys pass through. */
  function FormatCriterionName(criterion: string): (name: string)
    ensures criterion !in CriteriaKeys ==> name == criterion
  {
    if criterion == MigrationIntentKey then "No immigration intent"
    else if criterion == GoalUnderstandingKey then "Clear understanding of academic goals"
    else if criterion == AnswerLengthKey then "Appropriate answer length"
    else criterion
  }

  const CriterionLabels: set<string> := {"No immigration intent", "Clear understanding of academic goals", "Appropriate answer length"}

  /** Distinct criteria get distinct labels, all of them in CriterionLabels. */
  lemma FormatCriterionNameInjective(a: string, b: string)
    requires a in CriteriaKeys && b in CriteriaKeys
    ensures FormatCriterionName(a) in CriterionLabels
    ensures FormatCriterionName(a) == FormatCriterionName(b) ==> a == b
  {
  }

  /** The fixed red-flag text raised by a criterion scored 2 or less. */
  function RedFlagLabel(criterion: string): string
  {
    if criterion == MigrationIntentKey then "Shows potential immigration intent"
    else if criterion == GoalUnderstandingKey then "Unclear academic goals"
    else "Poor answer structure or length"
  }

  const RedFlagLabels: set<string> := {"Shows potential immigration intent", "Unclear academic goals", "Poor answer structure or length"}

  /** Which per-criterion test a summary helper counts. */
  datatype Band = Strong | Weak | Flagged

  /** Strong: 4 or more; weak: 3 or less; red flag: 2 or less. */
  predicate InBand(band: Band, score: int)
  {
    match band
    case Strong => score >= 4
    case Weak => score <= 3
    case Flagged => score <= 2
  }

  /** How many of the records score `criterion` inside `band`. */
  function CountInBand(records: seq<AnalysisRecord>, criterion: string, band: Band): (n: nat)
    ensures n <= |records|
  {
    if records == [] then 0
    else
      CountInBand(records[..|records| - 1], criterion, band)
      + (if InBand(band, CriterionScore(records[|records| - 1].analysis.scores, criterion)) then 1 else 0)
  }

  /**
    A criterion is a common strength (weakness) when at least one record counts
    for it, so that it has an entry in the counting map, and its count reaches
    half the records, rounded down.
   */
  predicate IsCommon(records: seq<AnalysisRecord>, criterion: string, band: Band)
  {
    CountInBand(records, criterion, band) >= 1 && CountInBand(records, criterion, band) >= |records| / 2
  }

  /** `labels` lists, once each and in any order, the labels of the common criteria. */
  predicate AreasAre(labels: seq<string>, records: seq<AnalysisRecord>, band: Band)
  {
    && Distinct(labels)
    && (forall x :: x in labels ==> x in CriterionLabels)
    && (forall c :: c in CriteriaKeys ==> (FormatCriterionName(c) in labels <==> IsCommon(records, c, band)))
  }

  /** `flags` lists, once each and in any order, the red flags some record raises. */
  predicate RedFlagsAre(flags: seq<string>, records: seq<AnalysisRecord>)
  {
    && Distinct(flags)
    && (forall x :: x in flags ==> x in RedFlagLabels)
    && (forall c :: c in CriteriaKeys ==> (RedFlagLabel(c) in flags <==> CountInBand(records, c, Flagged) >= 1))
  }

  /** Go's `m[k]++` on a map whose missing keys read as 0. */
  function Bump(m: map<string, int>, k: string): (r: map<string, int>)
    ensures r.Keys == m.Keys + {k}
    ensures r[k] == (if k in m then m[k] else 0) + 1
    ensures forall j :: j in m && j != k ==> r[j] == m[j]
  {
    m[k := (if k in m then m[k] else 0) + 1]
  }

  /** The counting map of the first loop: an entry per criterion that some record counts. */
  ghost predicate CountsAre(counts: map<string, int>, records: seq<AnalysisRecord>, band: Band)
  {
    && (forall c :: c in counts <==> c in CriteriaKeys && CountInBand(records, c, band) >= 1)
    && (forall c :: c in counts ==> counts[c] == CountInBand(records, c, band))
  }

  /** `m[k]++` when `hit`, nothing otherwise. */
  function BumpIf(m: map<string, int>, k: string, hit: bool): map<string, int>
  {
    if hit then Bump(m, k) else m
  }

  /** One record's increments, criterion by criterion. */
  function CountRecord(m: map<string, int>, s: AnalysisScores, band: Band): map<string, int>
  {
    BumpIf(BumpIf(BumpIf(m, MigrationIntentKey, InBand(band, s.migrationIntent)),
      GoalUnderstandingKey, InBand(band, s.goalUnderstanding)),
      AnswerLengthKey, InBand(band, s.answerLength))
  }

  /** Counting one more record keeps the counting map exact. */
  lemma CountRecordStep(counts: map<string, int>, records: seq<AnalysisRecord>, r: AnalysisRecord, band: Band)
    requires CountsAre(counts, records, band)
    ensures CountsAre(CountRecord(counts, r.analysis.scores, band), records + [r], band)
  {
    var rs := records + [r];
    assert rs[..|rs| - 1] == records;
    var s := r.analysis.scores;
    var m1 := BumpIf(counts, MigrationIntentKey, InBand(band, s.migrationIntent));
    var m2 := BumpIf(m1, GoalUnderstandingKey, InBand(band, s.goalUnderstanding));
    var m3 := BumpIf(m2, AnswerLengthKey, InBand(band, s.answerLength));
    forall c
      ensures c in m3 <==> c in CriteriaKeys && CountInBand(rs, c, band) >= 1
      ensures c in m3 ==> m3[c] == CountInBand(rs, c, band)
    {
      var hit := if InBand(band, CriterionScore(s, c)) then 1 else 0;
      assert CountInBand(rs, c, band) == CountInBand(records, c, band) + hit;
      if c == MigrationIntentKey {
        assert c in m3 <==> c in m1;
        assert c in m1 ==> m3[c] == m1[c];
      } else if c == GoalUnderstandingKey {
        assert c in m1 <==> c in counts;
        assert c in m1 ==> m1[c] == counts[c];
        assert c in m3 <==> c in m2;
        assert c in m2 ==> m3[c] == m2[c];
      } else if c == AnswerLengthKey {
        assert c in m2 <==> c in counts;
        assert c in m2 ==> m2[c] == counts[c];
      } else {
        assert c !in counts;
        assert c !in m3;
      }
    }
  }

  /** The body of that loop: one record's increments, criterion by criterion. */
  method CountOne(counts: map<string, int>, scores: AnalysisScores, band: Band) returns (r: map<string, int>)
    ensures r == CountRecord(counts, scores, band)
  {
    r := counts;
    if InBand(band, scores.migrationIntent) {
      r := Bump(r, MigrationIntentKey);
    }
    if InBand(band, scores.goalUnderstanding) {
      r := Bump(r, GoalUnderstandingKey);
    }
    if InBand(band, scores.answerLength) {
      r := Bump(r, AnswerLengthKey);
    }
  }

  /** The first loop of extractCommonStrengths / extractCommonWeaknesses. */
  method CountCriteria(analyses: seq<AnalysisRecord>, band: Band) returns (counts: map<string, int>)
    ensures CountsAre(counts, analyses, band)
  {
    counts := map[];
    var i := 0;
    while i < |analyses|
      invariant 0 <= i <= |analyses|
      invariant CountsAre(counts, analyses[..i], band)
    {
      ghost var before := counts;
      counts := CountOne(counts, analyses[i].analysis.scores, band);
      CountRecordStep(before, analyses[..i], analyses[i], band);
      assert analyses[..i + 1] == analyses[..i] + [analyses[i]];
      i := i + 1;
    }
    assert analyses[..i] == analyses;
  }

  /**
    The shared body of extractCommonStrengths and extractCommonWeaknesses:
    count per criterion, then walk the counting map (in Go's unspecified
    order) keeping the criteria whose count reaches half the records.
   */
  method CommonAreas(analyses: seq<AnalysisRecord>, band: Band) returns (labels: seq<string>)
    ensures AreasAre(labels, analyses, band)
  {
    var counts := CountCriteria(analyses, band);
    labels := [];
    var remaining := counts.Keys;
    while remaining != {}
      invariant remaining <= counts.Keys
      invariant Distinct(labels)
      invariant forall x :: x in labels ==> x in CriterionLabels
      invariant forall c :: c in CriteriaKeys ==>
        (FormatCriterionName(c) in labels <==> c in counts && c !in remaining && counts[c] >= |analyses| / 2)
      decreases remaining
    {
      var c :| c in remaining;
      if counts[c] >= |analyses| / 2 {
        forall d | d in CriteriaKeys
          ensures FormatCriterionName(d) == FormatCriterionName(c) ==> d == c
        {
          FormatCriterionNameInjective(d, c);
        }
        FormatCriterionNameInjective(c, c);
        labels := labels + [FormatCriterionName(c)];
      }
      remaining := remaining - {c};
    }
  }

  /** extractCommonStrengths: criteria scored 4 or more in at least half the records. */
  method ExtractCommonStrengths(analyses: seq<AnalysisRecord>) returns (strengths: seq<string>)
    ensures AreasAre(strengths, analyses, Strong)
  {
    strengths := CommonAreas(analyses, Strong);
  }

  /** extractCommonWeaknesses: criteria scored 3 or less in at least half the records. */
  method ExtractCommonWeaknesses(analyses: seq<AnalysisRecord>) returns (weaknesses: seq<string>)
    ensures AreasAre(weaknesses, analyses, Weak)
  {
    weaknesses := CommonAreas(analyses, Weak);
  }

  /** extractCommonRedFlags: the deduplicated flags of criteria some record scores 2 or less. */
  method ExtractCommonRedFlags(analyses: seq<AnalysisRecord>) returns (flags: seq<string>)
    ensures RedFlagsAre(flags, analyses)
  {
    var flagSet: set<string> := {};
    var i := 0;
    while i < |analyses|
      invariant 0 <= i <= |analyses|
      invariant flagSet <= RedFlagLabels
      invariant forall c :: c in CriteriaKeys ==> (RedFlagLabel(c) in flagSet <==> CountInBand(analyses[..i], c, Flagged) >= 1)
    {
      assert analyses[..i + 1][..i] == analyses[..i];
      var scores := analyses[i].analysis.scores;
      if scores.migrationIntent <= 2 {
        flagSet := flagSet + {"Shows potential immigration intent"};
      }
      if scores.goalUnderstanding <= 2 {
        flagSet := flagSet + {"Unclear academic goals"};
      }
      if scores.answerLength <= 2 {
        flagSet := flagSet + {"Poor answer structure or length"};
      }
      i := i + 1;
    }
    assert analyses[..i] == analyses;
    flags := [];
    var remaining := flagSet;
    while remaining != {}
      invariant remaining <= flagSet
      invariant Distinct(flags)
      invariant forall x :: x in flags <==> x in flagSet && x !in remaining
      decreases remaining
    {
      var f :| f in remaining;
      flags := flags + [f];
      remaining := remaining - {f};
    }
  }

  // ---------------------------------------------------------------------------
  // Session summary
  // ---------------------------------------------------------------------------

  /** The sum of the records' total scores. */
  function SumTotals(records: seq<AnalysisRecord>): int
  {
    if records == [] then 0
    else SumTotals(records[..|records| - 1]) + records[|records| - 1].analysis.scores.totalScore
  }

  /** What analyzer.GenerateSessionSummary promises about a summary of `records`. */
  predicate IsSummaryOf(r: SessionSummary, records: seq<AnalysisRecord>, now: Time)
    requires |records| > 0
  {
    var avg := SumTotals(records) as real / |records| as real;
    && r.totalQuestions == |records|
    && r.averageScore == avg
    && r.overallGrade == GetGradeFromScore(Truncate(avg))
    && AreasAre(r.strongAreas, records, Strong)
    && AreasAre(r.weakAreas, records, Weak)
    && RedFlagsAre(r.commonRedFlags, records)
    && r.recommendation == GenerateRecommendation(avg)
    && r.completedAt == now
  }

  /**
    GenerateSessionSummary on a list of analysis records: an error for no
    records, otherwise the summary (with an empty session ID, which the caller
    fills in).
   */
  method GenerateSessionSummary(analyses: seq<AnalysisRecord>, now: Time) returns (r: Result<SessionSummary, string>)
    ensures r.Err? <==> |analyses| == 0
    ensures r.Ok? ==> IsSummaryOf(r.value, analyses, now) && r.value.sessionId == ""
  {
    if |analyses| == 0 {
      return Err("no analyses provided");
    }
    var totalScore := 0;
    var i := 0;
    while i < |analyses|
      invariant 0 <= i <= |analyses|
      invariant totalScore == SumTotals(analyses[..i])
    {
      assert analyses[..i + 1][..i] == analyses[..i];
      totalScore := totalScore + analyses[i].analysis.scores.totalScore;
      i := i + 1;
    }
    assert analyses[..i] == analyses;
    var avgScore := totalScore as real / |analyses| as real;
    var strengths := ExtractCommonStrengths(analyses);
    var weaknesses := ExtractCommonWeaknesses(analyses);
    var redFlags := ExtractCommonRedFlags(analyses);
    r := Ok(SessionSummary(
      "",
      |analyses|,
      avgScore,
      GetGradeFromScore(Truncate(avgScore)),
      strengths,
      weaknesses,
      redFlags,
      GenerateRecommendation(avgScore),
      now));
  }

  /** The repository's own example: totals 14 and 13 average 13.5 and grade "B". */
  lemma SummaryOfFourteenAndThirteen(r: SessionSummary, a: AnalysisRecord, b: AnalysisRecord, now: Time)
    requires a.analysis.scores.totalScore == 14 && b.analysis.scores.totalScore == 13
    requires IsSummaryOf(r, [a, b], now)
    ensures r.totalQuestions == 2 && r.averageScore == 13.5 && r.overallGrade == "B"
  {
    assert [a, b][..1] == [a];
    assert [a][..0] == [];
    assert SumTotals([a]) == 14;
    assert SumTotals([a, b]) == 27;
    TruncateBounds(13.5);
    assert Truncate(13.5) == 13;
  }

  // ---------------------------------------------------------------------------
  // Grading client
  // ---------------------------------------------------------------------------

  datatype GPTMessage = GPTMessage(role: string, content: string)

  /** The user turn for one question and its answer. */
  function QAContent(question: string, answer: string): string
  {
    "Question: " + question + "\nStudent's Answer: " + answer
  }

  /**
    A VisaAnalyzer: the credential and the rubric prompt, plus oracles for
    what this code delegates. `marshal` is json.Marshal of a verdict (it
    cannot fail on this struct); `complete` is the whole HTTP exchange, giving
    the contents of the response's choices or None on any transport, status
    or decoding failure; `parse` is json.Unmarshal of the reply content.
   */
  datatype VisaAnalyzer = VisaAnalyzer(
    apiKey: string,
    systemPrompt: string,
    marshal: AnalysisResponse -> string,
    complete: seq<GPTMessage> -> Option<seq<string>>,
    parse: string -> Option<AnalysisResponse>)

  datatype GradeError = MissingApiKey | TransportFailure | EmptyResponse | ParseFailure

  function SystemMessage(va: VisaAnalyzer): GPTMessage
  {
    GPTMessage("system", va.systemPrompt)
  }

  /** The messages one earlier answer contributes: its Q/A, then its verdict if it has one. */
  function TurnMessages(a: Answer, marshal: AnalysisResponse -> string): seq<GPTMessage>
  {
    [GPTMessage("user", QAContent(a.questionText, a.text))]
    + (if a.analysis.Some? then [GPTMessage("assistant", marshal(a.analysis.value))] else [])
  }

  /** The conversation history of `answers`, in answer order. */
  function HistoryMessages(answers: seq<Answer>, marshal: AnalysisResponse -> string): seq<GPTMessage>
  {
    if answers == [] then []
    else HistoryMessages(answers[..|answers| - 1], marshal) + TurnMessages(answers[|answers| - 1], marshal)
  }

  /** How many answers carry an analysis. */
  function CountAnalysed(answers: seq<Answer>): (n: nat)
    ensures n <= |answers|
  {
    if answers == [] then 0
    else CountAnalysed(answers[..|answers| - 1]) + (if answers[|answers| - 1].analysis.Some? then 1 else 0)
  }

  /** One user message per answer and one assistant message per analysed answer. */
  lemma {:induction false} HistoryLength(answers: seq<Answer>, marshal: AnalysisResponse -> string)
    ensures |HistoryMessages(answers, marshal)| == |answers| + CountAnalysed(answers)
  {
    if answers != [] {
      HistoryLength(answers[..|answers| - 1], marshal);
    }
  }

  /**
    Answer k's user message sits at offset k + (analysed answers before k), and
    the message after it is an assistant message exactly when answer k has an
    analysis; no history message is a system message.
   */
  lemma {:induction false} HistoryLayout(answers: seq<Answer>, marshal: AnalysisResponse -> string, k: nat)
    requires k < |answers|
    ensures var h, pos := HistoryMessages(answers, marshal), k + CountAnalysed(answers[..k]);
      && pos < |h|
      && h[pos] == GPTMessage("user", QAContent(answers[k].questionText, answers[k].text))
      && (answers[k].analysis.Some? ==> pos + 1 < |h| && h[pos + 1] == GPTMessage("assistant", marshal(answers[k].analysis.value)))
      && (answers[k].analysis.None? ==> pos + 1 == |h| || h[pos + 1].role == "user")
  {
    var n := |answers|;
    var init := answers[..n - 1];
    assert answers[..n - 1][..k] == answers[..k] by {
      if k < n - 1 {
        assert answers[..n - 1][..k] == answers[..k];
      }
    }
    HistoryLength(init, marshal);
    if k == n - 1 {
      assert init == answers[..k];
    } else {
      HistoryLayout(init, marshal, k);
      var pos := k + CountAnalysed(answers[..k]);
      var hi := HistoryMessages(init, marshal);
      if answers[k].analysis.None? && pos + 1 == |hi| {
        // the next message is the user message of the last answer
        assert HistoryMessages(answers, marshal)[pos + 1] == TurnMessages(answers[n - 1], marshal)[0];
      }
    }
  }

  /** No message of the history has the system role. */
  lemma {:induction false} HistoryHasNoSystemMessage(answers: seq<Answer>, marshal: AnalysisResponse -> string)
    ensures forall m :: m in HistoryMessages(answers, marshal) ==> m.role != "system"
  {
    if answers != [] {
      HistoryHasNoSystemMessage(answers[..|answers| - 1], marshal);
    }
  }

  /**
    GetSessionMessages (and the identical loop of AnalyzeAnswerWithSession):
    the system prompt, then the history of the session's answers.
   */
  method GetSessionMessages(va: VisaAnalyzer, session: Session) returns (messages: seq<GPTMessage>)
    ensures messages == [SystemMessage(va)] + HistoryMessages(session.answers, va.marshal)
  {
    messages := [SystemMessage(va)];
    var i := 0;
    while i < |session.answers|
      invariant 0 <= i <= |session.answers|
      invariant messages == [SystemMessage(va)] + HistoryMessages(session.answers[..i], va.marshal)
    {
      var prev := session.answers[i];
      assert session.answers[..i + 1][..i] == session.answers[..i];
      messages := messages + [GPTMessage("user", QAContent(prev.questionText, prev.text))];
      if prev.analysis.Some? {
        messages := messages + [GPTMessage("assistant", va.marshal(prev.analysis.value))];
      }
      i := i + 1;
    }
    assert session.answers[..i] == session.answers;
  }

  /** The full request of one grading call: system prompt, history, then the new Q/A. */
  function RequestMessages(va: VisaAnalyzer, answers: seq<Answer>, question: string, answer: string): seq<GPTMessage>
  {
    [SystemMessage(va)] + HistoryMessages(answers, va.marshal) + [GPTMessage("user", QAContent(question, answer))]
  }

  /** The request opens with the only system message and closes with the new Q/A. */
  lemma RequestLayout(va: VisaAnalyzer, answers: seq<Answer>, question: string, answer: string)
    ensures var m := RequestMessages(va, answers, question, answer);
      && |m| == 2 + |answers| + CountAnalysed(answers)
      && m[0] == SystemMessage(va)
      && m[|m| - 1] == GPTMessage("user", QAContent(question, answer))
      && forall i :: 0 < i < |m| ==> m[i].role != "system"
  {
    HistoryLength(answers, va.marshal);
    HistoryHasNoSystemMessage(answers, va.marshal);
    var m := RequestMessages(va, answers, question, answer);
    var h := HistoryMessages(answers, va.marshal);
    forall i | 0 < i < |m|
      ensures m[i].role != "system"
    {
      if i <= |h| {
        assert m[i] == h[i - 1];
      }
    }
  }

  /** The defensive fence removal applied to the reply before it is parsed. */
  function StripFences(content: string): string
  {
    TrimSpace(TrimSuffix(TrimPrefix(TrimPrefix(TrimSpace(content), "```json"), "```"), "```"))
  }

  /** Content without fences or outer white space passes through unchanged. */
  lemma StripFencesUnfenced(content: string)
    requires TrimSpace(content) == content
    requires !HasPrefix(content, "```") && !HasSuffix(content, "```")
    ensures StripFences(content) == content
  {
    HasPrefixOfLonger(content, "```", "json");
    TrimSpaceIdempotent(content);
  }

  /** A ```json fenced body with no leading backquote comes back as the trimmed body. */
  lemma StripFencesOfFenced(body: string)
    requires body != [] && body[0] != '`'
    ensures StripFences("```json" + body + "```") == TrimSpace(body)
  {
    var afterJson := body + "```";
    var c := "```json" + afterJson;
    assert "```json" + body + "```" == c;
    assert c[0] == '`' && c[|c| - 1] == '`';
    TrimSpaceOfTrimmed(c);
    assert c[..7] == "```json";
    assert TrimPrefix(c, "```json") == afterJson;
    assert afterJson[..3][0] == body[0];
    assert TrimPrefix(afterJson, "```") == afterJson;
    assert afterJson[|afterJson| - 3..] == "```";
    assert TrimSuffix(afterJson, "```") == body;
  }

  /**
    callGPTAPI: append the new Q/A, send, take the first choice, strip
    fences, parse; each failure becomes its own error.
   */
  function CallGPTAPI(va: VisaAnalyzer, sessionMessages: seq<GPTMessage>, question: string, answer: string): Result<AnalysisResponse, GradeError>
  {
    match va.complete(sessionMessages + [GPTMessage("user", QAContent(question, answer))])
    case None => Err(TransportFailure)
    case Some(choices) =>
      if |choices| == 0 then Err(EmptyResponse)
      else
        match va.parse(StripFences(choices[0]))
        case None => Err(ParseFailure)
        case Some(analysis) => Ok(analysis)
  }

  /** The result of grading `answer` with the session history `answers` as context. */
  function Grade(va: VisaAnalyzer, answers: seq<Answer>, question: string, answer: string): Result<AnalysisResponse, GradeError>
  {
    if va.apiKey == "" then Err(MissingApiKey)
    else CallGPTAPI(va, [SystemMessage(va)] + HistoryMessages(answers, va.marshal), question, answer)
  }

  /** A successful grade is the parse of the stripped first reply to RequestMessages. */
  lemma GradeSucceeds(va: VisaAnalyzer, answers: seq<Answer>, question: string, answer: string)
    requires Grade(va, answers, question, answer).Ok?
    ensures va.apiKey != ""
    ensures var reply := va.complete(RequestMessages(va, answers, question, answer));
      && reply.Some? && |reply.value| > 0
      && va.parse(StripFences(reply.value[0])) == Some(Grade(va, answers, question, answer).value)
  {
  }

  /** VisaAnalyzer.AnalyzeAnswer: the credential check, then one call with no history. */
  function AnalyzeAnswer(va: VisaAnalyzer, question: string, answer: string): (r: Result<AnalysisResponse, GradeError>)
    ensures r == Grade(va, [], question, answer)
  {
    assert [SystemMessage(va)] + HistoryMessages([], va.marshal) == [SystemMessage(va)];
    if va.apiKey == "" then Err(MissingApiKey)
    else CallGPTAPI(va, [SystemMessage(va)], question, answer)
  }

  /**
    AnalyzeAnswerWithSession: an empty credential fails before any message is
    built; otherwise the session's history is sent ahead of the new Q/A.
   */
  method AnalyzeAnswerWithSession(va: VisaAnalyzer, session: Session, question: string, answer: string)
    returns (r: Result<AnalysisResponse, GradeError>)
    ensures va.apiKey == "" ==> r == Err(MissingApiKey)
    ensures r == Grade(va, session.answers, question, answer)
  {
    if va.apiKey == "" {
      return Err(MissingApiKey);
    }
    var sessionMessages := GetSessionMessages(va, session);
    r := CallGPTAPI(va, sessionMessages, question, answer);
  }
}
