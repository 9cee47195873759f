/**
 * Lessons and learner progress (backend/courses/models.py). A lesson is a
 * row the views build and rewrite; a learner's progress record is updated in
 * place by `update_progress`.
 */
module CourseModels {
  import opened Wrappers

  /** The `duration` a lesson gets when none is given. */
  const UnknownDuration: string := "N/A"

  /** The `transcript_language` a lesson gets when none is given. */
  const DefaultLanguage: string := "en"

  /** A `Lesson` row; an empty text field is `""`. */
  datatype Lesson = Lesson(
    id: nat,
    course: nat,
    title: string,
    videoId: string,
    videoUrl: string,
    duration: string,
    order: nat,
    description: string,
    transcript: string,
    transcriptLanguage: string,
    manualTranscript: string,
    transcriptFetchedAt: Option<int>)

  /**
   * `get_transcript`: the auto-fetched transcript when there is one, the
   * manual one otherwise; empty only when both are.
   */
  function GetTranscript(l: Lesson): (r: string)
    ensures r == l.transcript || r == l.manualTranscript
    ensures l.transcript != [] ==> r == l.transcript
    ensures r == [] <==> l.transcript == [] && l.manualTranscript == []
  {
    if l.transcript != [] then l.transcript else l.manualTranscript
  }

  /** `unique_together = ['course', 'order']`: no two lessons of one course share an order. */
  predicate UniqueOrders(lessons: seq<Lesson>)
  {
    forall i, j :: 0 <= i < |lessons| && 0 <= j < |lessons| && i != j && lessons[i].course == lessons[j].course
      ==> lessons[i].order != lessons[j].order
  }

  /** `course.lessons.count()`. */
  function LessonCount(lessons: seq<Lesson>, course: nat): (n: nat)
    ensures n <= |lessons|
    ensures n == 0 <==> forall i :: 0 <= i < |lessons| ==> lessons[i].course != course
  {
    if lessons == [] then 0
    else LessonCount(lessons[..|lessons| - 1], course) + (if lessons[|lessons| - 1].course == course then 1 else 0)
  }

  /**
   * `int((completed / total) * 100)`, on exact numbers: the largest whole
   * percentage not above the completed share.
   */
  function ProgressPercentage(completed: nat, total: nat): (p: int)
    requires total > 0
    ensures p * total <= completed * 100 < (p + 1) * total
    ensures completed <= total ==> 0 <= p <= 100
    ensures completed <= total ==> (p == 100 <==> completed == total)
  {
    var p := completed * 100 / total;
    PercentageBounds(completed, total, p);
    p
  }

  lemma PercentageBounds(completed: nat, total: nat, p: int)
    requires total > 0 && p == completed * 100 / total
    ensures p * total <= completed * 100 < (p + 1) * total
    ensures completed <= total ==> 0 <= p <= 100
    ensures completed <= total ==> (p == 100 <==> completed == total)
  {
    var c := completed * 100;
    var r := c % total;
    assert c == p * total + r && 0 <= r < total;
    Distribute(p, total);
    FactorBelow(0, p + 1, total);
    if completed <= total {
      FactorBelow(p, 101, total);
      if completed < total {
        FactorBelow(p, 100, total);
      } else {
        FactorBelow(100, p + 1, total);
      }
    }
  }

  lemma Distribute(p: int, t: int)
    ensures (p + 1) * t == p * t + t
  {
  }

  /** With a positive factor, a product below `k * t` has its other factor below `k`. */
  lemma FactorBelow(x: int, k: int, t: int)
    requires t > 0 && x * t < k * t
    ensures x < k
  {
    if x >= k {
      MultiplyMonotone(k, x, t);
    }
  }

  lemma MultiplyMonotone(a: int, b: int, t: int)
    requires a <= b && t >= 0
    ensures a * t <= b * t
  {
  }

  /** A learner's `UserProgress` in one course. */
  class UserProgress {
    var user: nat
    var course: nat
    /** The ids of the lessons the learner has completed. */
    var completedLessons: set<nat>
    var progressPercentage: int

    constructor (user: nat, course: nat)
      ensures this.user == user && this.course == course
      ensures completedLessons == {} && progressPercentage == 0
    {
      this.user := user;
      this.course := course;
      completedLessons := {};
      progressPercentage := 0;
    }

    /**
     * `update_progress`: with `totalLessons` lessons in the course, the
     * percentage of them completed; a course without lessons changes nothing.
     */
    method UpdateProgress(totalLessons: nat)
      modifies this`progressPercentage
      ensures totalLessons > 0 ==> progressPercentage == ProgressPercentage(|completedLessons|, totalLessons)
      ensures totalLessons == 0 ==> progressPercentage == old(progressPercentage)
    {
      if totalLessons > 0 {
        progressPercentage := |completedLessons| * 100 / totalLessons;
      }
    }
  }
}
