/**
  The console practice app (ai_tests/main.go): a fixed bank of four
  questions, a profile-based filter, and a keyword scorer that moves a
  running `score` up or down by red-flag and good-flag substring matches.
  Reading from standard input and printing are not modelled: the lines the
  user types become parameters.
 */
module PracticeApp {
  import opened Wrappers
  import opened GoStrings

  datatype PracticeQuestion = PracticeQuestion(
    text: string,
    category: string,
    followUps: seq<string>,
    goodFlags: seq<string>,
    redFlags: seq<string>)

  datatype UserProfile = UserProfile(
    visaType: string,
    purposeTravel: string,
    hasFamily: bool,
    answers: map<string, string>)

  /** The built-in question bank, in the order the interview walks it. */
  function InitialQuestions(): (qs: seq<PracticeQuestion>)
    ensures |qs| == 4
    ensures qs[0].category == "purpose" && qs[1].category == "ties"
    ensures qs[2].category == "financial" && qs[3].category == "ties"
  {
    [ PracticeQuestion(
        "What is the purpose of your trip to the United States?", "purpose",
        ["How long do you plan to stay?", "Where will you be staying?"],
        ["tourism", "visit", "business", "conference", "specific"],
        ["maybe", "not sure", "find job", "stay permanently"]),
      PracticeQuestion(
        "Do you have family or friends in the United States?", "ties",
        ["What is their immigration status?", "When did you last see them?"],
        ["yes", "no", "citizen", "specific"],
        ["illegal", "overstayed", "don't know"]),
      PracticeQuestion(
        "What do you do for work?", "financial",
        ["How long have you worked there?", "What is your salary?"],
        ["years", "company", "manager", "stable"],
        ["unemployed", "just started", "looking for"]),
      PracticeQuestion(
        "Why will you return to your home country?", "ties",
        ["Do you own property?", "What family do you have there?"],
        ["job", "family", "property", "business", "children"],
        ["nothing", "don't know", "maybe won't"]) ]
  }

  // ---------------------------------------------------------------------
  // Question selection
  // ---------------------------------------------------------------------

  /** Purpose and ties questions are always asked; financial ones only for a visa type mentioning "b". */
  predicate Kept(q: PracticeQuestion, visaType: string)
  {
    q.category == "purpose" || q.category == "ties"
    || (q.category == "financial" && Contains(ToLower(visaType), "b"))
  }

  /** The questions of `qs` that are kept, in bank order. */
  function Selection(qs: seq<PracticeQuestion>, visaType: string): seq<PracticeQuestion>
    decreases |qs|
  {
    if qs == [] then []
    else Selection(qs[..|qs| - 1], visaType)
         + (if Kept(qs[|qs| - 1], visaType) then [qs[|qs| - 1]] else [])
  }

  /** A question is selected exactly when it is in the bank and kept. */
  lemma {:induction false} SelectionMembers(qs: seq<PracticeQuestion>, visaType: string, q: PracticeQuestion)
    ensures q in Selection(qs, visaType) <==> q in qs && Kept(q, visaType)
    decreases |qs|
  {
    if qs != [] {
      var init := qs[..|qs| - 1];
      SelectionMembers(init, visaType, q);
      assert qs == init + [qs[|qs| - 1]];
    }
  }

  /** Filtering a concatenation filters each part in turn: the bank's order is preserved. */
  lemma {:induction false} SelectionKeepsOrder(a: seq<PracticeQuestion>, b: seq<PracticeQuestion>, visaType: string)
    ensures Selection(a + b, visaType) == Selection(a, visaType) + Selection(b, visaType)
    decreases |b|
  {
    if b == [] {
      assert a + b == a;
    } else {
      var init := b[..|b| - 1];
      assert (a + b)[..|a + b| - 1] == a + init;
      SelectionKeepsOrder(a, init, visaType);
    }
  }

  /** Never more questions than the bank holds. */
  lemma {:induction false} SelectionNoLonger(qs: seq<PracticeQuestion>, visaType: string)
    ensures |Selection(qs, visaType)| <= |qs|
    decreases |qs|
  {
    if qs != [] {
      SelectionNoLonger(qs[..|qs| - 1], visaType);
    }
  }

  /** A B1/B2 applicant is asked the whole bank; an F1 applicant is not asked about work. */
  lemma BankSelection()
    ensures Selection(InitialQuestions(), "B1/B2") == InitialQuestions()
    ensures Selection(InitialQuestions(), "F1") == [InitialQuestions()[0], InitialQuestions()[1], InitialQuestions()[3]]
  {
    var qs := InitialQuestions();
    assert HasPrefix(ToLower("B1/B2"), "b");
    assert ToLower("F1") == "f1";
    assert !Contains("f1", "b") by {
      assert !HasPrefix("f1", "b") && "f1"[1..] == "1";
      assert !HasPrefix("1", "b") && "1"[1..] == "";
      assert !Contains("", "b");
    }
    assert qs[..1][..0] == [] && qs[..2][..1] == qs[..1] && qs[..3][..2] == qs[..2] && qs[..4][..3] == qs[..3];
    assert qs[..4] == qs;
    assert Selection(qs[..1], "B1/B2") == [qs[0]];
    assert Selection(qs[..2], "B1/B2") == [qs[0], qs[1]];
    assert Selection(qs[..3], "B1/B2") == [qs[0], qs[1], qs[2]];
    assert Selection(qs[..4], "B1/B2") == [qs[0], qs[1], qs[2], qs[3]];
    assert Selection(qs[..1], "F1") == [qs[0]];
    assert Selection(qs[..2], "F1") == [qs[0], qs[1]];
    assert Selection(qs[..3], "F1") == [qs[0], qs[1]];
    assert Selection(qs[..4], "F1") == [qs[0], qs[1], qs[3]];
  }

  // ---------------------------------------------------------------------
  // Keyword matching
  // ---------------------------------------------------------------------

  /** A flag matches when its lower-cased form occurs in the lower-cased answer. */
  predicate Hits(lower: string, flag: string)
  {
    Contains(lower, ToLower(flag))
  }

  /** Index of the first flag at or after `from` that matches, if any. */
  function FirstHit(lower: string, flags: seq<string>, from: nat): (r: Option<nat>)
    requires from <= |flags|
    ensures r.Some? ==> from <= r.value < |flags|
    decreases |flags| - from
  {
    if from == |flags| then None
    else if Hits(lower, flags[from]) then Some(from)
    else FirstHit(lower, flags, from + 1)
  }

  /** FirstHit finds a match exactly when there is one, and the earliest one. */
  lemma {:induction false} FirstHitIsFirst(lower: string, flags: seq<string>, from: nat)
    requires from <= |flags|
    ensures FirstHit(lower, flags, from).None? <==> forall j :: from <= j < |flags| ==> !Hits(lower, flags[j])
    ensures FirstHit(lower, flags, from).Some? ==>
      var i := FirstHit(lower, flags, from).value;
      Hits(lower, flags[i]) && forall j :: from <= j < i ==> !Hits(lower, flags[j])
    decreases |flags| - from
  {
    if from < |flags| && !Hits(lower, flags[from]) {
      FirstHitIsFirst(lower, flags, from + 1);
    }
  }

  /** How many flags at or after `from` match (a flag listed twice counts twice). */
  function HitCount(lower: string, flags: seq<string>, from: nat): (n: nat)
    requires from <= |flags|
    decreases |flags| - from
  {
    if from == |flags| then 0
    else (if Hits(lower, flags[from]) then 1 else 0) + HitCount(lower, flags, from + 1)
  }

  /** The count is zero exactly when no flag matches, and at most the number of flags. */
  lemma {:induction false} HitCountBounds(lower: string, flags: seq<string>, from: nat)
    requires from <= |flags|
    ensures HitCount(lower, flags, from) <= |flags| - from
    ensures HitCount(lower, flags, from) == 0 <==> forall j :: from <= j < |flags| ==> !Hits(lower, flags[j])
    decreases |flags| - from
  {
    if from < |flags| {
      HitCountBounds(lower, flags, from + 1);
    }
  }

  // ---------------------------------------------------------------------
  // Scoring an answer
  // ---------------------------------------------------------------------

  /** The score change a reply earns and the feedback line shown for it. */
  datatype Verdict = Verdict(delta: int, message: string)

  function RedFlagMessage(flag: string): string
  {
    "⚠️ RED FLAG: Avoid mentioning '" + flag + "'. This raises concerns about your intentions."
  }

  const TooBrief := "❌ Too brief. Provide more specific details to build credibility."
  const GoodAnswer := "✅ Good answer! Specific and confident."
  const DecentAnswer := "👍 Decent answer, but could be more specific with dates, names, or details."
  const OkayAnswer := "⚡ Okay, but try to be more concrete. Use specific examples."

  /** What evaluateAnswer does to the score and says, as a function of the answer and the question. */
  function AnswerVerdict(answer: string, q: PracticeQuestion): Verdict
  {
    var lower := ToLower(answer);
    match FirstHit(lower, q.redFlags, 0)
    case Some(i) => Verdict(-10, RedFlagMessage(q.redFlags[i]))
    case None =>
      var good := HitCount(lower, q.goodFlags, 0);
      if |answer| < 10 then Verdict(0, TooBrief)
      else if good >= 2 then Verdict(20, GoodAnswer)
      else if good == 1 then Verdict(10, DecentAnswer)
      else Verdict(5, OkayAnswer)
  }

  /** The first matching red flag costs 10 points and decides the message; nothing else is looked at. */
  lemma RedFlagShortCircuits(answer: string, q: PracticeQuestion, i: nat)
    requires i < |q.redFlags| && Hits(ToLower(answer), q.redFlags[i])
    requires forall j :: 0 <= j < i ==> !Hits(ToLower(answer), q.redFlags[j])
    ensures AnswerVerdict(answer, q) == Verdict(-10, RedFlagMessage(q.redFlags[i]))
  {
    var lower := ToLower(answer);
    FirstHitIsFirst(lower, q.redFlags, 0);
    var k := FirstHit(lower, q.redFlags, 0).value;
    assert !(k < i) && !(i < k);
  }

  /** With no red flag, a reply of fewer than 10 characters leaves the score alone. */
  lemma BriefAnswerScoresNothing(answer: string, q: PracticeQuestion)
    requires forall j :: 0 <= j < |q.redFlags| ==> !Hits(ToLower(answer), q.redFlags[j])
    requires |answer| < 10
    ensures AnswerVerdict(answer, q) == Verdict(0, TooBrief)
  {
    FirstHitIsFirst(ToLower(answer), q.redFlags, 0);
  }

  /** With no red flag and enough length: +20 for two or more good hits, +10 for one, +5 for none. */
  lemma GoodFlagBands(answer: string, q: PracticeQuestion)
    requires forall j :: 0 <= j < |q.redFlags| ==> !Hits(ToLower(answer), q.redFlags[j])
    requires |answer| >= 10
    ensures var n := HitCount(ToLower(answer), q.goodFlags, 0);
      AnswerVerdict(answer, q).delta == (if n >= 2 then 20 else if n == 1 then 10 else 5)
    ensures AnswerVerdict(answer, q).delta == 5 <==>
      forall j :: 0 <= j < |q.goodFlags| ==> !Hits(ToLower(answer), q.goodFlags[j])
  {
    FirstHitIsFirst(ToLower(answer), q.redFlags, 0);
    HitCountBounds(ToLower(answer), q.goodFlags, 0);
  }

  /** Scoring ignores letter case in the answer. */
  lemma AnswerVerdictIgnoresCase(answer: string, q: PracticeQuestion)
    ensures AnswerVerdict(ToLower(answer), q) == AnswerVerdict(answer, q)
  {
    ToLowerIdempotent(answer);
  }

  // ---------------------------------------------------------------------
  // Follow-ups
  // ---------------------------------------------------------------------

  /** Some key occurs in `s`. */
  predicate Mentions(s: string, keys: seq<string>)
  {
    exists k :: k in keys && Contains(s, k)
  }

  const KinCue := ["family", "friend"]
  const StatusCue := ["status", "see them"]
  const StayCue := ["stay", "visit"]
  const LengthCue := ["long"]

  /** Index of the first follow-up at or after `from` whose lower-cased text mentions a key. */
  function FirstMentioning(fus: seq<string>, keys: seq<string>, from: nat): (r: Option<nat>)
    requires from <= |fus|
    ensures r.Some? ==> from <= r.value < |fus|
    decreases |fus| - from
  {
    if from == |fus| then None
    else if Mentions(ToLower(fus[from]), keys) then Some(from)
    else FirstMentioning(fus, keys, from + 1)
  }

  /** FirstMentioning finds the earliest follow-up mentioning a key, and fails only when none does. */
  lemma {:induction false} FirstMentioningIsFirst(fus: seq<string>, keys: seq<string>, from: nat)
    requires from <= |fus|
    ensures FirstMentioning(fus, keys, from).None? <==>
      forall j :: from <= j < |fus| ==> !Mentions(ToLower(fus[j]), keys)
    ensures FirstMentioning(fus, keys, from).Some? ==>
      var i := FirstMentioning(fus, keys, from).value;
      Mentions(ToLower(fus[i]), keys) && forall j :: from <= j < i ==> !Mentions(ToLower(fus[j]), keys)
    decreases |fus| - from
  {
    if from < |fus| && !Mentions(ToLower(fus[from]), keys) {
      FirstMentioningIsFirst(fus, keys, from + 1);
    }
  }

  /**
    selectFollowUp: a reply about family or friends prefers a follow-up on
    status or on seeing them; one about staying or visiting prefers a
    follow-up on how long; otherwise the first follow-up.
   */
  function SelectFollowUp(q: PracticeQuestion, answer: string): string
  {
    if |q.followUps| == 0 then ""
    else
      var lower := ToLower(answer);
      var kin := if Mentions(lower, KinCue) then FirstMentioning(q.followUps, StatusCue, 0) else None;
      var stay := if Mentions(lower, StayCue) then FirstMentioning(q.followUps, LengthCue, 0) else None;
      if kin.Some? then q.followUps[kin.value]
      else if stay.Some? then q.followUps[stay.value]
      else q.followUps[0]
  }

  /** `i` is the first follow-up whose text mentions one of `keys`. */
  predicate FirstToMention(fus: seq<string>, keys: seq<string>, i: int)
  {
    0 <= i < |fus| && Mentions(ToLower(fus[i]), keys)
    && forall j :: 0 <= j < i ==> !Mentions(ToLower(fus[j]), keys)
  }

  /** The answer is about family or friends and some follow-up asks about status or seeing them. */
  ghost predicate KinRuleApplies(q: PracticeQuestion, answer: string)
  {
    Mentions(ToLower(answer), KinCue) && exists i :: FirstToMention(q.followUps, StatusCue, i)
  }

  /** The answer is about staying or visiting and some follow-up asks how long. */
  ghost predicate StayRuleApplies(q: PracticeQuestion, answer: string)
  {
    Mentions(ToLower(answer), StayCue) && exists i :: FirstToMention(q.followUps, LengthCue, i)
  }

  /** The choice rules of selectFollowUp, case by case. */
  lemma SelectFollowUpRules(q: PracticeQuestion, answer: string)
    ensures |q.followUps| == 0 ==> SelectFollowUp(q, answer) == ""
    ensures |q.followUps| > 0 ==> SelectFollowUp(q, answer) in q.followUps
    ensures KinRuleApplies(q, answer) ==>
      exists i :: FirstToMention(q.followUps, StatusCue, i) && SelectFollowUp(q, answer) == q.followUps[i]
    ensures !KinRuleApplies(q, answer) && StayRuleApplies(q, answer) ==>
      exists i :: FirstToMention(q.followUps, LengthCue, i) && SelectFollowUp(q, answer) == q.followUps[i]
    ensures |q.followUps| > 0 && !KinRuleApplies(q, answer) && !StayRuleApplies(q, answer) ==>
      SelectFollowUp(q, answer) == q.followUps[0]
  {
    if |q.followUps| > 0 {
      var fus := q.followUps;
      FirstMentioningIsFirst(fus, StatusCue, 0);
      FirstMentioningIsFirst(fus, LengthCue, 0);
      var s := FirstMentioning(fus, StatusCue, 0);
      var l := FirstMentioning(fus, LengthCue, 0);
      if s.Some? {
        assert FirstToMention(fus, StatusCue, s.value);
      } else {
        assert forall i :: !FirstToMention(fus, StatusCue, i);
      }
      if l.Some? {
        assert FirstToMention(fus, LengthCue, l.value);
      } else {
        assert forall i :: !FirstToMention(fus, LengthCue, i);
      }
    }
  }

  const TooVague := "❌ Too vague. Consular officers want specific information."
  const Excellent := "✅ Excellent! Specific details strengthen your case."
  const Acceptable := "👍 Acceptable, but more specificity would help."

  const Digits := "0123456789"
  const SpecificWords := ["years", "months", "citizen"]

  /** What evaluateFollowUp does to the score and says. */
  function FollowUpVerdict(answer: string): Verdict
  {
    if |answer| < 5 then Verdict(0, TooVague)
    else if ContainsAnyChar(answer, Digits) || Mentions(ToLower(answer), SpecificWords) then Verdict(15, Excellent)
    else Verdict(5, Acceptable)
  }

  /** Follow-up scoring: nothing under 5 characters, +15 for a number or a specific word, else +5. */
  lemma FollowUpBands(answer: string)
    ensures |answer| < 5 ==> FollowUpVerdict(answer).delta == 0
    ensures |answer| >= 5 && (exists i :: 0 <= i < |answer| && IsDigit(answer[i])) ==> FollowUpVerdict(answer).delta == 15
    ensures |answer| >= 5 && Mentions(ToLower(answer), SpecificWords) ==> FollowUpVerdict(answer).delta == 15
    ensures |answer| >= 5 && (forall i :: 0 <= i < |answer| ==> !IsDigit(answer[i])) && !Mentions(ToLower(answer), SpecificWords) ==>
      FollowUpVerdict(answer).delta == 5
  {
    if exists i :: 0 <= i < |answer| && IsDigit(answer[i]) {
      var i :| 0 <= i < |answer| && IsDigit(answer[i]);
      assert answer[i] in Digits by {
        var d := answer[i] as int - '0' as int;
        assert Digits[d] == answer[i];
      }
    } else {
      forall i | 0 <= i < |answer|
        ensures answer[i] !in Digits
      {
        if answer[i] in Digits {
          var k :| 0 <= k < |Digits| && Digits[k] == answer[i];
          assert IsDigit(Digits[k]);
        }
      }
    }
  }

  /** Follow-up scoring ignores letter case: lower-casing keeps digits digits and adds none. */
  lemma {:induction false} FollowUpVerdictIgnoresCase(answer: string)
    ensures FollowUpVerdict(ToLower(answer)) == FollowUpVerdict(answer)
  {
    ToLowerIdempotent(answer);
    var lower := ToLower(answer);
    forall i | 0 <= i < |answer|
      ensures lower[i] in Digits <==> answer[i] in Digits
    {
      assert lower[i] == LowerChar(answer[i]);
    }
    if ContainsAnyChar(answer, Digits) {
      var i :| 0 <= i < |answer| && answer[i] in Digits;
      assert lower[i] in Digits;
    }
    if ContainsAnyChar(lower, Digits) {
      var i :| 0 <= i < |lower| && lower[i] in Digits;
      assert answer[i] in Digits;
    }
  }

  // ---------------------------------------------------------------------
  // Results
  // ---------------------------------------------------------------------

  datatype ResultBand = WellPrepared | GoodStart | NeedsImprovement

  /** The closing verdict of ShowResults. */
  function Band(score: int): ResultBand
  {
    if score >= 70 then WellPrepared else if score >= 40 then GoodStart else NeedsImprovement
  }

  function BandRank(b: ResultBand): nat
  {
    match b
    case NeedsImprovement => 0
    case GoodStart => 1
    case WellPrepared => 2
  }

  /** A higher score never earns a worse closing verdict. */
  lemma BandMonotone(a: int, b: int)
    requires a <= b
    ensures BandRank(Band(a)) <= BandRank(Band(b))
  {
  }

  /** Each question moves the score by at most -10 or +20, and its follow-up by at most +15. */
  lemma VerdictRanges(answer: string, q: PracticeQuestion, followUpAnswer: string)
    ensures AnswerVerdict(answer, q).delta in {-10, 0, 5, 10, 20}
    ensures FollowUpVerdict(followUpAnswer).delta in {0, 5, 15}
  {
  }

  // ---------------------------------------------------------------------
  // The session object
  // ---------------------------------------------------------------------

  class InterviewSession {
    var profile: UserProfile
    var questions: seq<PracticeQuestion>
    var score: int
    var feedback: seq<string>

    /** NewInterviewSession: an empty profile, the built-in bank, score 0, no feedback. */
    constructor ()
      ensures profile == UserProfile("", "", false, map[])
      ensures questions == InitialQuestions()
      ensures score == 0 && feedback == []
    {
      profile := UserProfile("", "", false, map[]);
      questions := InitialQuestions();
      score := 0;
      feedback := [];
    }

    /**
      CollectProfile with the three typed lines as parameters: each is
      trimmed, and the family question counts as yes only for "yes" in any
      letter case.
     */
    method CollectProfile(visaLine: string, purposeLine: string, familyLine: string)
      modifies this`profile
      ensures profile == old(profile).(visaType := TrimSpace(visaLine),
                                       purposeTravel := TrimSpace(purposeLine),
                                       hasFamily := TrimSpace(ToLower(familyLine)) == "yes")
    {
      profile := profile.(visaType := TrimSpace(visaLine));
      profile := profile.(purposeTravel := TrimSpace(purposeLine));
      profile := profile.(hasFamily := TrimSpace(ToLower(familyLine)) == "yes");
    }

    /** selectQuestions: the bank filtered by the profile's visa type, in bank order. */
    method SelectQuestions() returns (selected: seq<PracticeQuestion>)
      ensures selected == Selection(questions, profile.visaType)
    {
      selected := [];
      var i := 0;
      while i < |questions|
        invariant 0 <= i <= |questions|
        invariant selected == Selection(questions[..i], profile.visaType)
      {
        var q := questions[i];
        assert questions[..i + 1][..i] == questions[..i];
        if q.category == "purpose" || q.category == "ties" {
          selected := selected + [q];
        }
        if q.category == "financial" && Contains(ToLower(profile.visaType), "b") {
          selected := selected + [q];
        }
        i := i + 1;
      }
      assert questions[..i] == questions;
    }

    /** evaluateAnswer: red flags first, then good flags, then the length check. */
    method EvaluateAnswer(answer: string, q: PracticeQuestion) returns (message: string)
      modifies this`score
      ensures score == old(score) + AnswerVerdict(answer, q).delta
      ensures message == AnswerVerdict(answer, q).message
    {
      var answerLower := ToLower(answer);
      var i := 0;
      while i < |q.redFlags|
        invariant 0 <= i <= |q.redFlags|
        invariant FirstHit(answerLower, q.redFlags, i) == FirstHit(answerLower, q.redFlags, 0)
        invariant score == old(score)
      {
        var flag := q.redFlags[i];
        if Contains(answerLower, ToLower(flag)) {
          score := score - 10;
          return RedFlagMessage(flag);
        }
        i := i + 1;
      }
      var goodCount := 0;
      var j := 0;
      while j < |q.goodFlags|
        invariant 0 <= j <= |q.goodFlags|
        invariant goodCount + HitCount(answerLower, q.goodFlags, j) == HitCount(answerLower, q.goodFlags, 0)
      {
        if Contains(answerLower, ToLower(q.goodFlags[j])) {
          goodCount := goodCount + 1;
        }
        j := j + 1;
      }
      if |answer| < 10 {
        return TooBrief;
      }
      if goodCount >= 2 {
        score := score + 20;
        return GoodAnswer;
      } else if goodCount == 1 {
        score := score + 10;
        return DecentAnswer;
      }
      score := score + 5;
      return OkayAnswer;
    }

    /** evaluateFollowUp: too short earns nothing, specific details +15, anything else +5. */
    method EvaluateFollowUp(answer: string) returns (message: string)
      modifies this`score
      ensures score == old(score) + FollowUpVerdict(answer).delta
      ensures message == FollowUpVerdict(answer).message
    {
      if |answer| < 5 {
        return TooVague;
      }
      var hasNumbers := ContainsAnyChar(answer, Digits);
      var lower := ToLower(answer);
      var hasSpecificWords := Contains(lower, "years") || Contains(lower, "months") || Contains(lower, "citizen");
      assert hasSpecificWords <==> Mentions(lower, SpecificWords) by {
        if Mentions(lower, SpecificWords) {
          var k :| k in SpecificWords && Contains(lower, k);
        }
        if Contains(lower, "years") { assert SpecificWords[0] == "years"; }
        if Contains(lower, "months") { assert SpecificWords[1] == "months"; }
        if Contains(lower, "citizen") { assert SpecificWords[2] == "citizen"; }
      }
      if hasNumbers || hasSpecificWords {
        score := score + 15;
        return Excellent;
      }
      score := score + 5;
      return Acceptable;
    }
  }
}
