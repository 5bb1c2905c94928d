/**
  Follow-up selection (interview/followups.go): after a weak answer, the
  first follow-up of the suggested type that the current question allows
  and the session has not yet answered; otherwise the question's successor.
 */
module Followups {
  import opened Wrappers
  import opened Models

  /** FollowupByType: the follow-up IDs of each follow-up type, in preference order. */
  const FollowupByType: map<string, seq<string>> := map[
    "clarify_purpose" := ["q1f_clarify_purpose"],
    "clarify_university" := ["q2f_university_exact"],
    "clarify_financial" := ["q5f_finance_clarify", "q6f_finance_detail"],
    "clarify_home_ties" := ["q7f_home_country_career", "q8f_ties_detail"]
  ]

  /** Some answer of the session was given to `questionId`. */
  predicate Asked(answers: seq<Answer>, questionId: string)
  {
    exists i | 0 <= i < |answers| :: answers[i].questionId == questionId
  }

  /** hasAskedQuestion: the scan over the session's answers. */
  method HasAskedQuestion(s: Session, questionId: string) returns (asked: bool)
    ensures asked <==> Asked(s.answers, questionId)
  {
    for i := 0 to |s.answers|
      invariant forall j :: 0 <= j < i ==> s.answers[j].questionId != questionId
    {
      if s.answers[i].questionId == questionId {
        return true;
      }
    }
    return false;
  }

  /** A candidate may be asked: the question allows it and it was not yet answered. */
  predicate Eligible(id: string, allowed: seq<string>, answers: seq<Answer>)
  {
    id in allowed && !Asked(answers, id)
  }

  /** The first eligible candidate, or "" when there is none. */
  function FirstEligible(candidates: seq<string>, allowed: seq<string>, answers: seq<Answer>): string
  {
    if candidates == [] then ""
    else if Eligible(candidates[0], allowed, answers) then candidates[0]
    else FirstEligible(candidates[1..], allowed, answers)
  }

  /**
    FirstEligible finds the earliest eligible candidate: every candidate
    before it is ineligible, and "" means none is eligible.
   */
  lemma {:induction false} FirstEligibleChoice(candidates: seq<string>, allowed: seq<string>, answers: seq<Answer>)
    requires "" !in candidates
    ensures var r := FirstEligible(candidates, allowed, answers);
      && (r == "" ==> forall i :: 0 <= i < |candidates| ==> !Eligible(candidates[i], allowed, answers))
      && (r != "" ==>
            exists i :: 0 <= i < |candidates| && candidates[i] == r && Eligible(r, allowed, answers)
              && forall j :: 0 <= j < i ==> !Eligible(candidates[j], allowed, answers))
  {
    if candidates == [] || Eligible(candidates[0], allowed, answers) {
      if candidates != [] {
        assert candidates[0] == FirstEligible(candidates, allowed, answers);
      }
    } else {
      var tail := candidates[1..];
      assert "" !in tail;
      FirstEligibleChoice(tail, allowed, answers);
      var r := FirstEligible(tail, allowed, answers);
      if r != "" {
        var i :| 0 <= i < |tail| && tail[i] == r && Eligible(r, allowed, answers)
          && forall j :: 0 <= j < i ==> !Eligible(tail[j], allowed, answers);
        assert candidates[i + 1] == r;
        forall j | 0 <= j < i + 1
          ensures !Eligible(candidates[j], allowed, answers)
        {
          if j > 0 {
            assert candidates[j] == tail[j - 1];
          }
        }
      } else {
        forall i | 0 <= i < |candidates|
          ensures !Eligible(candidates[i], allowed, answers)
        {
          if i > 0 {
            assert candidates[i] == tail[i - 1];
          }
        }
      }
    }
  }

  /** The follow-up pickFollowupQuestion chooses for type `followupType`. */
  function PickFollowup(current: Question, followupType: string, answers: seq<Answer>): string
  {
    if followupType == "" || followupType !in FollowupByType then ""
    else FirstEligible(FollowupByType[followupType], current.followupCandidates, answers)
  }

  /**
    A chosen follow-up is a candidate of the requested type, allowed by the
    current question and not answered before, and every candidate listed
    before it is not; nothing is chosen for an empty or unknown type.
   */
  lemma PickFollowupChoice(current: Question, followupType: string, answers: seq<Answer>)
    ensures var r := PickFollowup(current, followupType, answers);
      && (followupType == "" || followupType !in FollowupByType ==> r == "")
      && (r != "" ==>
        && followupType in FollowupByType
        && r in FollowupByType[followupType]
        && r in current.followupCandidates
        && !Asked(answers, r))
      && (r == "" && followupType in FollowupByType ==>
        forall c :: c in FollowupByType[followupType] ==> !Eligible(c, current.followupCandidates, answers))
  {
    if followupType != "" && followupType in FollowupByType {
      var cands := FollowupByType[followupType];
      assert "" !in cands;
      FirstEligibleChoice(cands, current.followupCandidates, answers);
    }
  }

  /** pickFollowupQuestion: the allowed-set loop, then the first-eligible loop. */
  method PickFollowupQuestion(current: Question, followupType: string, s: Session) returns (id: string)
    ensures id == PickFollowup(current, followupType, s.answers)
  {
    if followupType == "" {
      return "";
    }
    var allowed: map<string, bool> := map[];
    for i := 0 to |current.followupCandidates|
      invariant forall c :: c in allowed <==> c in current.followupCandidates[..i]
      invariant forall c :: c in allowed ==> allowed[c]
    {
      allowed := allowed[current.followupCandidates[i] := true];
    }
    assert current.followupCandidates[..|current.followupCandidates|] == current.followupCandidates;
    if followupType !in FollowupByType {
      return "";
    }
    var candidates := FollowupByType[followupType];
    for i := 0 to |candidates|
      invariant FirstEligible(candidates[i..], current.followupCandidates, s.answers)
        == FirstEligible(candidates, current.followupCandidates, s.answers)
    {
      assert candidates[i..][1..] == candidates[i + 1..];
      if !(candidates[i] in allowed && allowed[candidates[i]]) {
        continue;
      }
      var asked := HasAskedQuestion(s, candidates[i]);
      if asked {
        continue;
      }
      return candidates[i];
    }
    return "";
  }

  /** The question DecideNextQuestion moves to. */
  function NextQuestion(current: Question, answers: seq<Answer>, eval: Option<EvalResult>): string
  {
    if eval.Some? && eval.value.needsFollowup && PickFollowup(current, eval.value.suggestedFollowup, answers) != ""
    then PickFollowup(current, eval.value.suggestedFollowup, answers)
    else current.nextId
  }

  /**
    The next question is the successor unless a weak evaluation points at an
    eligible follow-up; a follow-up is never one the session already
    answered.
   */
  lemma NextQuestionChoice(current: Question, answers: seq<Answer>, eval: Option<EvalResult>)
    ensures var r := NextQuestion(current, answers, eval);
      && (eval.None? || !eval.value.needsFollowup ==> r == current.nextId)
      && (r != current.nextId ==>
        && eval.Some? && eval.value.needsFollowup
        && eval.value.suggestedFollowup in FollowupByType
        && r in FollowupByType[eval.value.suggestedFollowup]
        && r in current.followupCandidates
        && !Asked(answers, r))
  {
    if eval.Some? {
      PickFollowupChoice(current, eval.value.suggestedFollowup, answers);
    }
  }

  /** DecideNextQuestion. */
  method DecideNextQuestion(current: Question, s: Session, eval: Option<EvalResult>) returns (next: string)
    ensures next == NextQuestion(current, s.answers, eval)
  {
    if eval.Some? && eval.value.needsFollowup {
      var picked := PickFollowupQuestion(current, eval.value.suggestedFollowup, s);
      if picked != "" {
        return picked;
      }
    }
    return current.nextId;
  }
}
