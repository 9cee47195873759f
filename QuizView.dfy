/**
 * The quiz panel of a learning session (components/QuizView.tsx): the
 * learner picks one option per question, submits, and sees a score.
 */
module QuizView {
  import opened Wrappers

  /** A generated question; the answer key is the text of the right option. */
  datatype QuizQuestion = QuizQuestion(question: string, options: seq<string>, correctAnswer: string)

  /** The panel's state: the option picked per question index, and whether the answers were submitted. */
  datatype State = State(selected: map<nat, string>, submitted: bool)

  const Initial := State(map[], false)

  /** The number of questions among the first `n` whose picked option is the answer key. */
  function CorrectAmong(quiz: seq<QuizQuestion>, selected: map<nat, string>, n: nat): (c: nat)
    requires n <= |quiz|
    ensures c <= n
  {
    if n == 0 then 0
    else CorrectAmong(quiz, selected, n - 1) + (if Correct(quiz, selected, n - 1) then 1 else 0)
  }

  predicate Correct(quiz: seq<QuizQuestion>, selected: map<nat, string>, i: nat)
    requires i < |quiz|
  {
    i in selected && selected[i] == quiz[i].correctAnswer
  }

  /** `score`: 0 before submission or without a quiz; afterwards the number of questions answered right. */
  function Score(quiz: Option<seq<QuizQuestion>>, s: State): (r: nat)
    ensures !s.submitted || quiz.None? ==> r == 0
    ensures quiz.Some? ==> r <= |quiz.value|
  {
    if !s.submitted || quiz.None? then 0 else CorrectAmong(quiz.value, s.selected, |quiz.value|)
  }

  /** The count reaches `n` exactly when every one of the first `n` questions is answered right. */
  lemma {:induction false} FullMarksIff(quiz: seq<QuizQuestion>, selected: map<nat, string>, n: nat)
    requires n <= |quiz|
    ensures CorrectAmong(quiz, selected, n) == n <==> forall i :: 0 <= i < n ==> Correct(quiz, selected, i)
  {
    if n > 0 {
      FullMarksIff(quiz, selected, n - 1);
    }
  }

  /** A submitted quiz scores full marks exactly when every question's pick is its answer key, and nothing when none is. */
  lemma ScoreMeaning(quiz: seq<QuizQuestion>, s: State)
    requires s.submitted
    ensures Score(Some(quiz), s) == |quiz| <==> forall i :: 0 <= i < |quiz| ==> Correct(quiz, s.selected, i)
    ensures (forall i :: 0 <= i < |quiz| ==> !Correct(quiz, s.selected, i)) ==> Score(Some(quiz), s) == 0
  {
    FullMarksIff(quiz, s.selected, |quiz|);
    NoneCorrect(quiz, s.selected, |quiz|);
  }

  lemma {:induction false} NoneCorrect(quiz: seq<QuizQuestion>, selected: map<nat, string>, n: nat)
    requires n <= |quiz|
    ensures (forall i :: 0 <= i < n ==> !Correct(quiz, selected, i)) ==> CorrectAmong(quiz, selected, n) == 0
  {
    if n > 0 {
      NoneCorrect(quiz, selected, n - 1);
    }
  }

  /** `handleSelectAnswer`: ignored once submitted; otherwise the pick for that question is replaced. */
  function SelectAnswer(s: State, index: nat, answer: string): (r: State)
    ensures s.submitted ==> r == s
    ensures !s.submitted ==> r.selected == s.selected[index := answer] && !r.submitted
  {
    if s.submitted then s else s.(selected := s.selected[index := answer])
  }

  /** `handleSubmit`. */
  function Submit(s: State): (r: State)
    ensures r.submitted && r.selected == s.selected
  {
    s.(submitted := true)
  }

  /** Once submitted, no pick changes and the score stays what it is. */
  lemma SubmittedIsFinal(quiz: Option<seq<QuizQuestion>>, s: State, index: nat, answer: string)
    requires s.submitted
    ensures Score(quiz, SelectAnswer(s, index, answer)) == Score(quiz, s)
    ensures Score(quiz, Submit(s)) == Score(quiz, s)
  {
  }

  /** The submit button is enabled when the record of picks has as many keys as the quiz has questions. */
  predicate SubmitEnabled(quiz: seq<QuizQuestion>, s: State)
  {
    |s.selected.Keys| == |quiz|
  }

  /** Picks are only ever made through the quiz's own option buttons, so every key is a question index. */
  predicate PicksInRange(quiz: seq<QuizQuestion>, s: State)
  {
    forall i :: i in s.selected ==> i < |quiz|
  }

  lemma SelectKeepsRange(quiz: seq<QuizQuestion>, s: State, index: nat, answer: string)
    requires PicksInRange(quiz, s) && index < |quiz|
    ensures PicksInRange(quiz, SelectAnswer(s, index, answer))
  {
  }

  /** With picks only at question indices, submitting is possible exactly when every question has a pick. */
  lemma SubmitGate(quiz: seq<QuizQuestion>, s: State)
    requires PicksInRange(quiz, s)
    ensures SubmitEnabled(quiz, s) <==> forall i :: 0 <= i < |quiz| ==> i in s.selected
  {
    var all := Indices(|quiz|);
    assert s.selected.Keys <= all;
    if SubmitEnabled(quiz, s) {
      SubsetSameSize(s.selected.Keys, all);
    } else {
      assert s.selected.Keys != all;
    }
  }

  /** The question indices `0 .. n - 1`. */
  function Indices(n: nat): (r: set<nat>)
    ensures |r| == n
    ensures forall i: nat :: i in r <==> i < n
  {
    if n == 0 then {} else Indices(n - 1) + {n - 1}
  }

  lemma SubsetSameSize(a: set<nat>, b: set<nat>)
    requires a <= b && |a| == |b|
    ensures a == b
  {
    if a != b {
      var x :| x in b && x !in a;
      assert a <= b - {x};
      assert |b - {x}| == |b| - 1;
      SubsetSmaller(a, b - {x});
    }
  }

  lemma {:induction false} SubsetSmaller(a: set<nat>, b: set<nat>)
    requires a <= b
    ensures |a| <= |b|
  {
    if a != {} {
      var x :| x in a;
      SubsetSmaller(a - {x}, b - {x});
    }
  }
}
