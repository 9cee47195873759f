/**
 * The assessment endpoints (backend/assessments/views.py): the question
 * list, starting and submitting an attempt, and the attempt history. The
 * attempts are `UserAttempt` objects held by a store; the views change them
 * in place.
 */
module AssessmentViews {
  import opened Wrappers
  import opened AssessmentModels

  /** What visibility reads of an `Assessment` row. */
  datatype AssessmentInfo = AssessmentInfo(id: nat, creator: nat, isPublic: bool)

  /**
   * `get_queryset`: a signed-in user sees the public assessments and their
   * own; an anonymous one only the public ones. Anything else is a 404.
   */
  predicate Visible(a: AssessmentInfo, requester: Option<nat>)
  {
    a.isPublic || requester == Some(a.creator)
  }

  /** One serialized question; the answer key is `None` where it is hidden. */
  datatype QuestionData = QuestionData(
    id: nat, questionType: string, points: nat,
    correctAnswer: Option<string>, explanation: Option<string>)

  function Shown(q: Question, withKey: bool): QuestionData
  {
    QuestionData(q.id, q.questionType, q.points,
      if withKey then Some(q.correctAnswer) else None,
      if withKey then Some(q.explanation) else None)
  }

  /**
   * `questions`: every question in order; the correct answers and
   * explanations go only to the assessment's creator.
   */
  function QuestionList(qs: seq<Question>, a: AssessmentInfo, requester: Option<nat>): (r: seq<QuestionData>)
    ensures |r| == |qs|
    ensures forall i :: 0 <= i < |r| ==> r[i].id == qs[i].id && r[i].questionType == qs[i].questionType && r[i].points == qs[i].points
    ensures forall i :: 0 <= i < |r| ==> (r[i].correctAnswer.Some? <==> requester == Some(a.creator))
    ensures requester == Some(a.creator) ==> forall i :: 0 <= i < |r| ==> r[i].correctAnswer == Some(qs[i].correctAnswer)
    ensures requester != Some(a.creator) ==> forall i :: 0 <= i < |r| ==> r[i].correctAnswer.None? && r[i].explanation.None?
  {
    if qs == [] then []
    else QuestionList(qs[..|qs| - 1], a, requester) + [Shown(qs[|qs| - 1], requester == Some(a.creator))]
  }

  /** No learner ever receives an answer key. */
  lemma {:induction false} LearnersNeverSeeKeys(qs: seq<Question>, a: AssessmentInfo, learner: nat)
    requires learner != a.creator
    ensures forall d :: d in QuestionList(qs, a, Some(learner)) ==> d.correctAnswer.None? && d.explanation.None?
  {
    var r := QuestionList(qs, a, Some(learner));
    forall d | d in r ensures d.correctAnswer.None? && d.explanation.None? {
      var i :| 0 <= i < |r| && r[i] == d;
    }
  }

  /** The attempts of all users. */
  class AttemptStore {
    var attempts: seq<UserAttempt>

    /**
     * The attempts are distinct objects, and each learner has at most one
     * attempt IN_PROGRESS per assessment.
     */
    predicate Valid()
      reads this, attempts
    {
      (forall i, j :: 0 <= i < j < |attempts| ==> attempts[i] != attempts[j])
      && (forall i, j :: 0 <= i < j < |attempts| && attempts[i].status == InProgress && attempts[j].status == InProgress
            ==> attempts[i].user != attempts[j].user || attempts[i].assessment != attempts[j].assessment)
    }

    constructor ()
      ensures Valid() && attempts == []
    {
      attempts := [];
    }

    predicate OpenAt(i: nat, user: nat, assessment: nat)
      requires i < |attempts|
      reads this, attempts
    {
      attempts[i].user == user && attempts[i].assessment == assessment && attempts[i].status == InProgress
    }

    /** The position of the learner's IN_PROGRESS attempt at the assessment, if any. */
    function OpenAttempt(user: nat, assessment: nat): (r: Option<nat>)
      reads this, attempts
      ensures r.Some? ==> r.value < |attempts| && OpenAt(r.value, user, assessment)
      ensures r.None? ==> forall i :: 0 <= i < |attempts| ==> !OpenAt(i, user, assessment)
    {
      OpenFrom(user, assessment, 0)
    }

    function OpenFrom(user: nat, assessment: nat, k: nat): (r: Option<nat>)
      reads this, attempts
      ensures r.Some? ==> k <= r.value < |attempts| && OpenAt(r.value, user, assessment)
      ensures r.None? ==> forall i :: k <= i < |attempts| ==> !OpenAt(i, user, assessment)
      decreases |attempts| - k
    {
      if k >= |attempts| then None
      else if OpenAt(k, user, assessment) then Some(k)
      else OpenFrom(user, assessment, k + 1)
    }

    /** Under `Valid`, the open attempt of a learner at an assessment is unique. */
    lemma OpenAttemptUnique(user: nat, assessment: nat, i: nat)
      requires Valid() && i < |attempts| && OpenAt(i, user, assessment)
      ensures OpenAttempt(user, assessment) == Some(i)
    {
    }

    /**
     * `start`: the learner's open attempt if there is one (200), a new
     * IN_PROGRESS attempt otherwise (201). A 404 when the assessment is not
     * visible to the learner.
     */
    method Start(a: AssessmentInfo, user: nat, now: int) returns (status: int, attempt: UserAttempt?)
      requires Valid()
      modifies this`attempts
      ensures Valid()
      ensures !Visible(a, Some(user)) ==> status == 404 && attempt == null && attempts == old(attempts)
      ensures Visible(a, Some(user)) && old(OpenAttempt(user, a.id)).Some? ==>
        status == 200 && attempts == old(attempts) && attempt == attempts[old(OpenAttempt(user, a.id)).value]
      ensures Visible(a, Some(user)) && old(OpenAttempt(user, a.id)).None? ==>
        && status == 201 && attempt != null && fresh(attempt) && attempts == old(attempts) + [attempt]
        && attempt.user == user && attempt.assessment == a.id && attempt.status == InProgress
        && attempt.startedAt == now && attempt.answers == map[]
    {
      if !Visible(a, Some(user)) {
        return 404, null;
      }
      var open := OpenAttempt(user, a.id);
      if open.Some? {
        return 200, attempts[open.value];
      }
      var created := new UserAttempt(user, a.id, now);
      var before := attempts;
      attempts := attempts + [created];
      forall i | 0 <= i < |before| && attempts[i].status == InProgress
        ensures attempts[i].user != user || attempts[i].assessment != a.id
      {
        assert attempts[i] == before[i];
        assert !old(OpenAt(i, user, a.id));
      }
      status, attempt := 201, created;
    }

    /**
     * `submit`: with an answers object and an open attempt, stores the
     * answers and grades the attempt (200); 400 without answers, 404
     * without an open attempt or a visible assessment. Only that attempt
     * changes.
     */
    method Submit(a: AssessmentInfo, questions: seq<Question>, user: nat, answers: Option<map<string, string>>, now: int)
      returns (status: int)
      requires Valid()
      modifies set i | 0 <= i < |attempts| && OpenAt(i, user, a.id) :: attempts[i]
      ensures Valid() && attempts == old(attempts)
      ensures !Visible(a, Some(user)) ==> status == 404
      ensures Visible(a, Some(user)) && answers.None? ==> status == 400
      ensures Visible(a, Some(user)) && answers.Some? && old(OpenAttempt(user, a.id)).None? ==> status == 404
      ensures status != 200 ==> forall j :: 0 <= j < |attempts| ==> unchanged(attempts[j])
      ensures Visible(a, Some(user)) && answers.Some? && old(OpenAttempt(user, a.id)).Some? ==>
        var k := old(OpenAttempt(user, a.id)).value;
        var t := attempts[k];
        && status == 200
        && t.answers == answers.value && t.status == Graded && t.submittedAt == Some(now)
        && t.score == ScoreText(EarnedPoints(questions, answers.value), TotalPoints(questions))
        && t.percentage == Percentage(EarnedPoints(questions, answers.value), TotalPoints(questions))
        && t.timeTakenMinutes == Some(WholeMinutes(now - t.startedAt))
        && t.user == old(t.user) && t.assessment == old(t.assessment) && t.startedAt == old(t.startedAt)
        && forall j :: 0 <= j < |attempts| && j != k ==> unchanged(attempts[j])
    {
      if !Visible(a, Some(user)) {
        return 404;
      }
      if answers.None? {
        return 400;
      }
      var open := OpenAttempt(user, a.id);
      if open.None? {
        return 404;
      }
      var t := attempts[open.value];
      GradeAt(open.value, t, questions, answers.value, now);
      status := 200;
    }

    /** Stores the answers on the open attempt at `i` and grades it. */
    method GradeAt(i: nat, t: UserAttempt, questions: seq<Question>, answers: map<string, string>, now: int)
      requires Valid() && i < |attempts| && attempts[i] == t && t.status == InProgress
      modifies t`answers, t`score, t`percentage, t`status, t`submittedAt, t`timeTakenMinutes
      ensures Valid()
      ensures t.answers == answers && t.status == Graded && t.submittedAt == Some(now)
      ensures t.score == ScoreText(EarnedPoints(questions, answers), TotalPoints(questions))
      ensures t.percentage == Percentage(EarnedPoints(questions, answers), TotalPoints(questions))
      ensures t.timeTakenMinutes == Some(WholeMinutes(now - t.startedAt))
      ensures t.user == old(t.user) && t.assessment == old(t.assessment) && t.startedAt == old(t.startedAt)
    {
      t.answers := answers;
      t.CalculateScore(questions, now);
    }

    /** `history`: the learner's GRADED attempts, in store order. */
    function History(user: nat): (r: seq<UserAttempt>)
      reads this, attempts
      ensures forall i :: 0 <= i < |r| ==> r[i] in attempts && r[i].user == user && r[i].status == Graded
      ensures forall i :: 0 <= i < |attempts| && attempts[i].user == user && attempts[i].status == Graded ==> attempts[i] in r
    {
      GradedOf(attempts, user)
    }
  }

  function GradedOf(ts: seq<UserAttempt>, user: nat): (r: seq<UserAttempt>)
    reads ts
    ensures forall i :: 0 <= i < |r| ==> r[i] in ts && r[i].user == user && r[i].status == Graded
    ensures forall i :: 0 <= i < |ts| && ts[i].user == user && ts[i].status == Graded ==> ts[i] in r
  {
    if ts == [] then []
    else
      var last := ts[|ts| - 1];
      GradedOf(ts[..|ts| - 1], user) + (if last.user == user && last.status == Graded then [last] else [])
  }
}
