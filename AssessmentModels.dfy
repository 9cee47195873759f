/**
 * Assessments, attempts and video notes (backend/assessments/models.py).
 * `calculate_score` grades an attempt in place by a loop over the
 * questions; `add_timestamp_note` appends to a note list and sorts it.
 */
module AssessmentModels {
  import opened Wrappers
  import opened Text

  // ---------------------------------------------------------------------
  // Related lessons.
  // ---------------------------------------------------------------------

  /**
   * `get_all_related_lessons`: the tagged lessons, with the source lesson
   * put first when it is set and not already among them.
   */
  function AllRelatedLessons(source: Option<nat>, related: seq<nat>): (r: seq<nat>)
    ensures source.Some? && source.value !in related ==> r == [source.value] + related
    ensures source.None? || source.value in related ==> r == related
  {
    if source.Some? && source.value !in related then [source.value] + related else related
  }

  predicate NoDuplicates(s: seq<nat>)
  {
    forall i, j :: 0 <= i < j < |s| ==> s[i] != s[j]
  }

  /**
   * The result holds every tagged lesson and the source lesson, each once
   * when the tags hold no duplicate, and nothing else.
   */
  lemma RelatedLessonsShape(source: Option<nat>, related: seq<nat>)
    ensures var r := AllRelatedLessons(source, related);
      (forall x :: x in r <==> x in related || source == Some(x))
      && (NoDuplicates(related) ==> NoDuplicates(r))
      && (source.Some? ==> r[0] == source.value || source.value in related)
  {
    var r := AllRelatedLessons(source, related);
    if source.Some? && source.value !in related {
      forall x ensures x in r <==> x in related || source == Some(x) {
        assert x in r <==> x == r[0] || x in r[1..];
        assert r[1..] == related;
      }
      if NoDuplicates(related) {
        forall i, j | 0 <= i < j < |r| ensures r[i] != r[j] {
          assert r[j] == related[j - 1];
          if i > 0 {
            assert r[i] == related[i - 1];
          }
        }
      }
    }
  }

  // ---------------------------------------------------------------------
  // Grading.
  // ---------------------------------------------------------------------

  /** What grading reads of a question. */
  datatype Question = Question(id: nat, questionType: string, correctAnswer: string, points: nat, explanation: string)

  /** Whether an answer earns the question's points. */
  predicate AnswerMatches(questionType: string, answer: string, correct: string)
  {
    if questionType == "mcq" || questionType == "true_false" then Lower(answer) == Lower(correct)
    else if questionType == "short_answer" then Trim(Py, Lower(answer)) == Trim(Py, Lower(correct))
    else false
  }

  /** `answers.get(str(question.id), '')`. */
  function AnswerTo(answers: map<string, string>, q: Question): string
  {
    var key := NatToString(q.id);
    if key in answers then answers[key] else ""
  }

  /** The points one question earns. */
  function Earned(q: Question, answers: map<string, string>): (e: nat)
    ensures e == 0 || e == q.points
  {
    if AnswerMatches(q.questionType, AnswerTo(answers, q), q.correctAnswer) then q.points else 0
  }

  /** The sum of `points` over the questions. */
  function TotalPoints(qs: seq<Question>): nat
  {
    if qs == [] then 0 else TotalPoints(qs[..|qs| - 1]) + qs[|qs| - 1].points
  }

  /** The points earned over the questions. */
  function EarnedPoints(qs: seq<Question>, answers: map<string, string>): nat
  {
    if qs == [] then 0 else EarnedPoints(qs[..|qs| - 1], answers) + Earned(qs[|qs| - 1], answers)
  }

  /** No attempt earns more than the assessment is worth. */
  lemma {:induction false} EarnedAtMostTotal(qs: seq<Question>, answers: map<string, string>)
    ensures EarnedPoints(qs, answers) <= TotalPoints(qs)
  {
    if qs != [] {
      EarnedAtMostTotal(qs[..|qs| - 1], answers);
    }
  }

  /** Essays never earn points. */
  lemma EssayEarnsNothing(q: Question, answers: map<string, string>)
    requires q.questionType == "essay"
    ensures Earned(q, answers) == 0
  {
  }

  /**
   * Answering every choice question with its correct answer in another case
   * earns all its points; a short answer may also differ in surrounding
   * whitespace.
   */
  lemma CaseAndSpaceIgnored(q: Question, answers: map<string, string>)
    requires NatToString(q.id) in answers
    requires q.questionType in {"mcq", "true_false", "short_answer"}
    requires Lower(answers[NatToString(q.id)]) == Lower(q.correctAnswer)
    ensures Earned(q, answers) == q.points
  {
  }

  /** A missing answer is the empty answer: it earns only where the correct answer is empty too. */
  lemma MissingAnswerIsEmpty(q: Question, answers: map<string, string>)
    requires NatToString(q.id) !in answers
    ensures Earned(q, answers) == Earned(q, answers[NatToString(q.id) := ""])
  {
  }

  /** A full score: every question earned. */
  lemma {:induction false} AllCorrectEarnsTotal(qs: seq<Question>, answers: map<string, string>)
    requires forall i :: 0 <= i < |qs| ==> Earned(qs[i], answers) == qs[i].points
    ensures EarnedPoints(qs, answers) == TotalPoints(qs)
  {
    if qs != [] {
      AllCorrectEarnsTotal(qs[..|qs| - 1], answers);
    }
  }

  /** `f"{earned}/{total}"`. */
  function ScoreText(earned: nat, total: nat): string
  {
    NatToString(earned) + "/" + NatToString(total)
  }

  /** The score text reads back as the two numbers it was written from. */
  lemma ScoreTextRoundTrip(earned: nat, total: nat)
    ensures var s := ScoreText(earned, total);
      var k := |NatToString(earned)|;
      && k < |s| && s[k] == '/'
      && (forall i :: 0 <= i < k ==> s[i] != '/')
      && DigitsValue(NatToString(earned)) == earned && s[..k] == NatToString(earned)
      && DigitsValue(NatToString(total)) == total && s[k + 1..] == NatToString(total)
  {
    NatToStringRoundTrip(earned);
    NatToStringRoundTrip(total);
    var s := ScoreText(earned, total);
    var k := |NatToString(earned)|;
    assert s[..k] == NatToString(earned);
    assert s[k + 1..] == NatToString(total);
    forall i | 0 <= i < k ensures s[i] != '/' {
      assert IsDigit(NatToString(earned)[i]);
    }
  }

  /** `earned / total * 100` (0 without points), on exact numbers. */
  function Percentage(earned: nat, total: nat): real
  {
    if total > 0 then earned as real / total as real * 100.0 else 0.0
  }

  /** The percentage lies in 0..100 and is 100 exactly for a full score. */
  lemma PercentageRange(earned: nat, total: nat)
    ensures total > 0 && earned <= total ==> 0.0 <= Percentage(earned, total) <= 100.0
    ensures total > 0 ==> (Percentage(earned, total) == 100.0 <==> earned == total)
    ensures total == 0 ==> Percentage(earned, total) == 0.0
  {
  }

  /** `int(seconds / 60)`: whole minutes, truncated toward zero. */
  function WholeMinutes(seconds: int): int
  {
    if seconds >= 0 then seconds / 60 else -((-seconds) / 60)
  }

  /** Whole minutes round toward zero: down for a duration, up for a negative one. */
  lemma WholeMinutesBounds(seconds: int)
    ensures var m := WholeMinutes(seconds);
      && (seconds >= 0 ==> 0 <= m * 60 <= seconds < (m + 1) * 60)
      && (seconds < 0 ==> (m - 1) * 60 < seconds <= m * 60 <= 0)
  {
  }

  /** One step of `calculate_score`'s loop: the points the answer earns. */
  method GradeQuestion(q: Question, answer: string) returns (e: nat)
    ensures e == (if AnswerMatches(q.questionType, answer, q.correctAnswer) then q.points else 0)
  {
    e := 0;
    if q.questionType == "mcq" || q.questionType == "true_false" {
      if Lower(answer) == Lower(q.correctAnswer) {
        e := q.points;
      }
    } else if q.questionType == "short_answer" {
      if Trim(Py, Lower(answer)) == Trim(Py, Lower(q.correctAnswer)) {
        e := q.points;
      }
    }
  }

  /** The loop of `calculate_score`: the points earned and the points available. */
  method Tally(questions: seq<Question>, answers: map<string, string>) returns (earned: nat, total: nat)
    ensures earned == EarnedPoints(questions, answers) && total == TotalPoints(questions)
  {
    total, earned := 0, 0;
    var i := 0;
    while i < |questions|
      invariant 0 <= i <= |questions|
      invariant total == TotalPoints(questions[..i])
      invariant earned == EarnedPoints(questions[..i], answers)
    {
      var q := questions[i];
      assert questions[..i + 1][..i] == questions[..i];
      total := total + q.points;
      var e := GradeQuestion(q, AnswerTo(answers, q));
      earned := earned + e;
      i := i + 1;
    }
    assert questions[..i] == questions;
  }

  datatype AttemptStatus = InProgress | Submitted | Graded

  /** A learner's `UserAttempt` at an assessment. */
  class UserAttempt {
    var user: nat
    var assessment: nat
    var status: AttemptStatus
    var score: string
    var percentage: real
    var answers: map<string, string>
    var startedAt: int
    var submittedAt: Option<int>
    var timeTakenMinutes: Option<int>

    /** A new attempt: IN_PROGRESS, scored "0/0", no answers. */
    constructor (user: nat, assessment: nat, startedAt: int)
      ensures this.user == user && this.assessment == assessment && this.startedAt == startedAt
      ensures status == InProgress && score == "0/0" && percentage == 0.0 && answers == map[]
      ensures submittedAt == None && timeTakenMinutes == None
    {
      this.user := user;
      this.assessment := assessment;
      this.startedAt := startedAt;
      status := InProgress;
      score := "0/0";
      percentage := 0.0;
      answers := map[];
      submittedAt := None;
      timeTakenMinutes := None;
    }

    /**
     * `calculate_score` over the assessment's questions at time `now`: the
     * score text and percentage of the points earned, GRADED, stamped, and
     * the whole minutes taken.
     */
    method CalculateScore(questions: seq<Question>, now: int)
      modifies this`score, this`percentage, this`status, this`submittedAt, this`timeTakenMinutes
      ensures score == ScoreText(EarnedPoints(questions, answers), TotalPoints(questions))
      ensures percentage == Percentage(EarnedPoints(questions, answers), TotalPoints(questions))
      ensures status == Graded && submittedAt == Some(now)
      ensures timeTakenMinutes == Some(WholeMinutes(now - startedAt))
    {
      var earned, total := Tally(questions, answers);
      score := ScoreText(earned, total);
      percentage := Percentage(earned, total);
      status := Graded;
      submittedAt := Some(now);
      timeTakenMinutes := Some(WholeMinutes(now - startedAt));
    }
  }

  // ---------------------------------------------------------------------
  // Video notes.
  // ---------------------------------------------------------------------

  /** One timestamped note; `createdAt` is the time it was added. */
  datatype TimedNote = TimedNote(time: int, note: string, createdAt: int)

  /** `word_count`: the whitespace-separated words of the notes, 0 for no notes. */
  function WordCount(notes: string): (n: nat)
    ensures n == 0 <==> IsBlank(Py, notes)
  {
    WordsEmptyIffBlank(Py, notes);
    if notes == [] then 0 else |Words(Py, notes)|
  }

  predicate SortedByTime(s: seq<TimedNote>)
  {
    forall i, j :: 0 <= i < j < |s| ==> s[i].time <= s[j].time
  }

  /** Where a note goes: after the leading notes not later than it. */
  function InsertionPoint(x: TimedNote, s: seq<TimedNote>): (k: nat)
    ensures k <= |s|
  {
    if s == [] || x.time < s[0].time then 0 else InsertionPoint(x, s[1..]) + 1
  }

  /** Put `x` at its insertion point. */
  function InsertByTime(x: TimedNote, s: seq<TimedNote>): (r: seq<TimedNote>)
    ensures |r| == |s| + 1
    ensures multiset(r) == multiset(s) + multiset{x}
  {
    var k := InsertionPoint(x, s);
    assert s == s[..k] + s[k..];
    s[..k] + [x] + s[k..]
  }

  /** `list.sort(key=time)`: a stable sort by time (its result, not its steps). */
  function SortByTime(s: seq<TimedNote>): (r: seq<TimedNote>)
    ensures |r| == |s|
    ensures multiset(r) == multiset(s)
  {
    if s == [] then []
    else
      assert s == s[..|s| - 1] + [s[|s| - 1]];
      InsertByTime(s[|s| - 1], SortByTime(s[..|s| - 1]))
  }

  /** The notes before the insertion point are not later than the new one. */
  lemma {:induction false} BeforeInsertionPoint(x: TimedNote, s: seq<TimedNote>)
    ensures forall i :: 0 <= i < InsertionPoint(x, s) ==> s[i].time <= x.time
  {
    if s != [] && x.time >= s[0].time {
      BeforeInsertionPoint(x, s[1..]);
      forall i | 0 < i < InsertionPoint(x, s) ensures s[i].time <= x.time {
        assert s[i] == s[1..][i - 1];
      }
    }
  }

  /** On a sorted list, the notes from the insertion point on are later than the new one. */
  lemma {:induction false} AfterInsertionPoint(x: TimedNote, s: seq<TimedNote>)
    requires SortedByTime(s)
    ensures forall i :: InsertionPoint(x, s) <= i < |s| ==> s[i].time > x.time
  {
    if s != [] && x.time >= s[0].time {
      var t := s[1..];
      assert SortedByTime(t);
      AfterInsertionPoint(x, t);
      forall i | InsertionPoint(x, s) <= i < |s| ensures s[i].time > x.time {
        assert s[i] == t[i - 1];
      }
    }
  }

  /** The note at each position after an insertion. */
  lemma InsertedAt(x: TimedNote, s: seq<TimedNote>, i: nat)
    requires i <= |s|
    ensures var k := InsertionPoint(x, s);
      InsertByTime(x, s)[i] == if i < k then s[i] else if i == k then x else s[i - 1]
  {
  }

  /** Inserting into a sorted list keeps it sorted. */
  lemma InsertByTimeSorted(x: TimedNote, s: seq<TimedNote>)
    requires SortedByTime(s)
    ensures SortedByTime(InsertByTime(x, s))
  {
    BeforeInsertionPoint(x, s);
    AfterInsertionPoint(x, s);
    var r := InsertByTime(x, s);
    forall i, j | 0 <= i < j < |r| ensures r[i].time <= r[j].time {
      InsertedAt(x, s, i);
      InsertedAt(x, s, j);
    }
  }

  lemma {:induction false} SortByTimeSorted(s: seq<TimedNote>)
    ensures SortedByTime(SortByTime(s))
  {
    if s != [] {
      SortByTimeSorted(s[..|s| - 1]);
      InsertByTimeSorted(s[|s| - 1], SortByTime(s[..|s| - 1]));
    }
  }

  /** A note no earlier than every note of a list goes at its end. */
  lemma {:induction false} InsertAtEnd(x: TimedNote, s: seq<TimedNote>)
    requires forall i :: 0 <= i < |s| ==> s[i].time <= x.time
    ensures InsertionPoint(x, s) == |s|
  {
    if s != [] {
      InsertAtEnd(x, s[1..]);
    }
  }

  /** A sorted list sorts to itself. */
  lemma {:induction false} SortByTimeOfSorted(s: seq<TimedNote>)
    requires SortedByTime(s)
    ensures SortByTime(s) == s
  {
    if s != [] {
      var p := s[..|s| - 1];
      assert SortedByTime(p);
      SortByTimeOfSorted(p);
      var x := s[|s| - 1];
      InsertAtEnd(x, p);
      assert p[..|p|] + [x] + p[|p|..] == s;
    }
  }

  /** A user's notes on one video. */
  class VideoNotes {
    var user: nat
    var videoId: string
    var notes: string
    var timestamps: seq<TimedNote>

    constructor (user: nat, videoId: string)
      ensures this.user == user && this.videoId == videoId && notes == [] && timestamps == []
    {
      this.user := user;
      this.videoId := videoId;
      notes := [];
      timestamps := [];
    }

    /**
     * `add_timestamp_note`: the list grows by exactly this note and is
     * sorted by time afterwards.
     */
    method AddTimestampNote(time: int, note: string, now: int)
      modifies this`timestamps
      ensures timestamps == SortByTime(old(timestamps) + [TimedNote(time, note, now)])
      ensures |timestamps| == |old(timestamps)| + 1
      ensures multiset(timestamps) == multiset(old(timestamps)) + multiset{TimedNote(time, note, now)}
      ensures SortedByTime(timestamps)
    {
      var entry := TimedNote(time, note, now);
      var appended := timestamps + [entry];
      SortByTimeSorted(appended);
      timestamps := SortByTime(appended);
    }
  }

  /**
   * When the notes were sorted, adding one inserts it after every note not
   * later than it and leaves the others in place.
   */
  lemma AddToSortedInserts(old_: seq<TimedNote>, x: TimedNote)
    requires SortedByTime(old_)
    ensures SortByTime(old_ + [x]) == InsertByTime(x, old_)
    ensures var k := InsertionPoint(x, old_);
      && SortByTime(old_ + [x]) == old_[..k] + [x] + old_[k..]
      && (forall i :: 0 <= i < k ==> old_[i].time <= x.time)
      && (forall i :: k <= i < |old_| ==> old_[i].time > x.time)
  {
    var s := old_ + [x];
    assert s[..|s| - 1] == old_;
    SortByTimeOfSorted(old_);
    BeforeInsertionPoint(x, old_);
    AfterInsertionPoint(x, old_);
  }
}
