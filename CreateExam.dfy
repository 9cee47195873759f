/**
 * The exam builder page (components/CreateExamPage.tsx): the list of
 * questions an instructor assembles, the per-tier cap on its length, the
 * checks before saving and the points total shown beside the list.
 *
 * The question records are shared with the per-type editors (Cloze, Passage,
 * Essay, ShortAnswer modules), which import them from here.
 */
module CreateExam {
  import opened Wrappers
  import opened Text
  import App

  datatype QuestionType = MultipleChoice | TrueFalse | ShortAnswer | Essay | Passage | Cloze

  /** One line of an essay's marking rubric. */
  datatype Criterion = Criterion(id: string, name: string, description: string, maxPoints: int)

  datatype SubKind = SubMultipleChoice | SubShortAnswer | SubTrueFalse

  /** A sub-question's answer key: an option index, a text or a truth value. */
  datatype Answer = AnswerIndex(index: int) | AnswerText(text: string) | AnswerFlag(flag: bool)

  /** A question about a reading passage. */
  datatype SubQuestion = SubQuestion(id: string, text: string, kind: SubKind, options: seq<string>, correct: Answer, points: int)

  datatype Difficulty = Easy | Medium | Hard

  datatype Question =
    | MultipleChoiceQ(id: string, points: int, text: string, options: seq<string>, correctIndex: int)
    | TrueFalseQ(id: string, points: int, text: string, correct: bool)
    | ShortAnswerQ(id: string, points: int, text: string, answers: seq<string>, caseSensitive: bool, exactMatch: bool, maxLength: int)
    | EssayQ(id: string, points: int, text: string, maxWords: int, rubric: seq<Criterion>, aiGrading: bool)
    | PassageQ(id: string, points: int, passageText: string, passageTitle: string, subQuestions: seq<SubQuestion>,
               wordCount: int, difficulty: Difficulty, readingLimit: Option<int>)
    | ClozeQ(id: string, points: int, text: string)

  function TypeOf(q: Question): QuestionType
  {
    match q
    case MultipleChoiceQ(_, _, _, _, _) => MultipleChoice
    case TrueFalseQ(_, _, _, _) => TrueFalse
    case ShortAnswerQ(_, _, _, _, _, _, _) => ShortAnswer
    case EssayQ(_, _, _, _, _, _) => Essay
    case PassageQ(_, _, _, _, _, _, _, _) => Passage
    case ClozeQ(_, _, _) => Cloze
  }

  /** The example sentence a new cloze question starts from. */
  const ClozeSample := "The capital of [France] is [Paris]."

  /** Points a new question of each type starts with. */
  function DefaultPoints(t: QuestionType): int
  {
    match t
    case Essay => 10
    case Passage => 5
    case Cloze => 2
    case _ => 1
  }

  /**
   * `createNewQuestion`: an empty question of the chosen type. Its id is the
   * clock reading the page takes, passed in as `id`.
   */
  function NewQuestion(t: QuestionType, id: string): (q: Question)
    ensures TypeOf(q) == t && q.id == id && q.points == DefaultPoints(t)
    ensures q.MultipleChoiceQ? ==> q.text == "" && q.options == ["", "", "", ""] && q.correctIndex == 0
    ensures q.TrueFalseQ? ==> q.text == "" && q.correct
    ensures q.ShortAnswerQ? ==> q.text == "" && q.answers == [""] && !q.caseSensitive && !q.exactMatch && q.maxLength == 100
    ensures q.EssayQ? ==> q.text == "" && q.maxWords == 500 && q.rubric == [] && q.aiGrading
    ensures q.PassageQ? ==> q.passageText == "" && q.subQuestions == [] && q.wordCount == 0 && q.difficulty == Medium && q.readingLimit.None?
    ensures q.ClozeQ? ==> q.text == ClozeSample
  {
    match t
    case MultipleChoice => MultipleChoiceQ(id, 1, "", ["", "", "", ""], 0)
    case TrueFalse => TrueFalseQ(id, 1, "", true)
    case ShortAnswer => ShortAnswerQ(id, 1, "", [""], false, false, 100)
    case Essay => EssayQ(id, 10, "", 500, [], true)
    case Passage => PassageQ(id, 5, "", "", [], 0, Medium, None)
    case Cloze => ClozeQ(id, 2, ClozeSample)
  }

  /** `max_questions` of the tier's features; `None` is `Infinity`. */
  function MaxQuestions(tier: App.Tier): Option<nat>
  {
    match tier
    case Free => Some(10)
    case Learner => Some(50)
    case _ => None
  }

  /** Whether the tier's button for adding a question of type `t` is enabled. */
  predicate TypeEnabled(tier: App.Tier, t: QuestionType)
  {
    match t
    case Essay => tier != App.Free
    case Passage => tier != App.Free && tier != App.Learner
    case Cloze => tier != App.Free && tier != App.Learner
    case _ => true
  }

  /** A higher tier never has a smaller question cap or fewer question types. */
  lemma HigherTierAllowsMore(a: App.Tier, b: App.Tier, t: QuestionType)
    requires App.Rank(a) <= App.Rank(b)
    ensures TypeEnabled(a, t) ==> TypeEnabled(b, t)
    ensures MaxQuestions(b).Some? ==> MaxQuestions(a).Some? && MaxQuestions(a).value <= MaxQuestions(b).value
  {
  }

  /**
   * `addQuestion`: refused (`None`, with an alert) once the list holds the
   * tier's cap; otherwise the list with one new question at the end.
   */
  function AddQuestion(tier: App.Tier, questions: seq<Question>, t: QuestionType, id: string): (r: Option<seq<Question>>)
    ensures r.None? <==> MaxQuestions(tier).Some? && |questions| >= MaxQuestions(tier).value
    ensures r.Some? ==> |r.value| == |questions| + 1 && r.value[..|questions|] == questions
    ensures r.Some? ==> r.value[|questions|] == NewQuestion(t, id)
  {
    if MaxQuestions(tier).Some? && |questions| >= MaxQuestions(tier).value then None
    else Some(questions + [NewQuestion(t, id)])
  }

  /** Adding never takes a list that respects the cap past it. */
  lemma AddKeepsCap(tier: App.Tier, questions: seq<Question>, t: QuestionType, id: string)
    requires MaxQuestions(tier).Some? && |questions| <= MaxQuestions(tier).value
    ensures var r := AddQuestion(tier, questions, t, id);
      r.Some? ==> |r.value| <= MaxQuestions(tier).value
  {
  }

  /** `updateQuestion`: every question carrying the id is replaced by `updated`; the others stay where they are. */
  function UpdateQuestion(questions: seq<Question>, id: string, updated: Question): (r: seq<Question>)
    ensures |r| == |questions|
    ensures forall i :: 0 <= i < |r| ==> r[i] == if questions[i].id == id then updated else questions[i]
  {
    seq(|questions|, i requires 0 <= i < |questions| => if questions[i].id == id then updated else questions[i])
  }

  /** Updating an id no question carries changes nothing. */
  lemma UpdateAbsent(questions: seq<Question>, id: string, updated: Question)
    requires forall i :: 0 <= i < |questions| ==> questions[i].id != id
    ensures UpdateQuestion(questions, id, updated) == questions
  {
  }

  /** `removeQuestion`: the questions whose id differs, in their order. */
  function RemoveQuestion(questions: seq<Question>, id: string): (r: seq<Question>)
    ensures |r| <= |questions|
    ensures forall q :: q in r <==> q in questions && q.id != id
  {
    if questions == [] then []
    else
      var rest := RemoveQuestion(questions[1..], id);
      if questions[0].id == id then rest else [questions[0]] + rest
  }

  /** Removing an id no question carries leaves the list as it was. */
  lemma {:induction false} RemoveAbsent(questions: seq<Question>, id: string)
    requires forall i :: 0 <= i < |questions| ==> questions[i].id != id
    ensures RemoveQuestion(questions, id) == questions
  {
    if questions != [] {
      RemoveAbsent(questions[1..], id);
    }
  }

  /** Removing twice is removing once. */
  lemma RemoveIdempotent(questions: seq<Question>, id: string)
    ensures RemoveQuestion(RemoveQuestion(questions, id), id) == RemoveQuestion(questions, id)
  {
    var r := RemoveQuestion(questions, id);
    forall i | 0 <= i < |r| ensures r[i].id != id {
      assert r[i] in r;
    }
    RemoveAbsent(r, id);
  }

  /** Removal and appending commute: what is appended after the list is removed only if it carries the id. */
  lemma {:induction false} RemoveAppend(questions: seq<Question>, q: Question, id: string)
    ensures RemoveQuestion(questions + [q], id) == RemoveQuestion(questions, id) + (if q.id == id then [] else [q])
  {
    if questions == [] {
      assert [q][1..] == [];
    } else {
      assert (questions + [q])[1..] == questions[1..] + [q];
      RemoveAppend(questions[1..], q, id);
    }
  }

  /** A question still needing its text: every type but a passage must have a non-blank `question_text`. */
  predicate Incomplete(q: Question)
  {
    !q.PassageQ? && Trim(Js, q.text) == ""
  }

  /** What `handleSubmit` hands to `onExamCreated`. */
  datatype ExamData = ExamData(title: string, topic: string, description: string, time: int, count: nat,
                               questions: seq<Question>, types: seq<QuestionType>)

  const MissingTitle := "Please enter an exam title"
  const NoQuestions := "Please add at least one question"
  const IncompleteQuestions := "Please complete all questions before saving"

  /** `[...new Set(types)]`: each type once, in the order of first appearance. */
  function Distinct(types: seq<QuestionType>): (r: seq<QuestionType>)
    ensures forall t :: t in r <==> t in types
    ensures forall i, j :: 0 <= i < j < |r| ==> r[i] != r[j]
  {
    if types == [] then []
    else
      var r := Distinct(types[..|types| - 1]);
      var last := types[|types| - 1];
      assert types == types[..|types| - 1] + [last];
      if last in r then r else r + [last]
  }

  function Types(questions: seq<Question>): (r: seq<QuestionType>)
    ensures |r| == |questions| && forall i :: 0 <= i < |r| ==> r[i] == TypeOf(questions[i])
  {
    seq(|questions|, i requires 0 <= i < |questions| => TypeOf(questions[i]))
  }

  /**
   * `handleSubmit`: the first failing check's alert, in the order blank
   * title, empty list, incomplete question; otherwise the exam data.
   */
  function Submit(title: string, topic: string, description: string, time: int, questions: seq<Question>): (r: Result<ExamData, string>)
    ensures r.Failure? <==> (Trim(Js, title) == "" || questions == [] || exists i :: 0 <= i < |questions| && Incomplete(questions[i]))
    ensures Trim(Js, title) == "" ==> r == Failure(MissingTitle)
    ensures Trim(Js, title) != "" && questions == [] ==> r == Failure(NoQuestions)
    ensures r.Success? ==> var e := r.value;
      && e.title == Trim(Js, title) && e.topic == Trim(Js, topic) && e.description == Trim(Js, description)
      && e.time == time && e.count == |questions| && e.questions == questions
      && (forall t :: t in e.types <==> exists i :: 0 <= i < |questions| && TypeOf(questions[i]) == t)
      && (forall i, j :: 0 <= i < j < |e.types| ==> e.types[i] != e.types[j])
  {
    if Trim(Js, title) == "" then Failure(MissingTitle)
    else if questions == [] then Failure(NoQuestions)
    else if exists i :: 0 <= i < |questions| && Incomplete(questions[i]) then Failure(IncompleteQuestions)
    else
      var types := Types(questions);
      assert forall t :: t in types <==> exists i :: 0 <= i < |questions| && TypeOf(questions[i]) == t by {
        forall t | t in types ensures exists i :: 0 <= i < |questions| && TypeOf(questions[i]) == t {
          var i :| 0 <= i < |types| && types[i] == t;
        }
      }
      Success(ExamData(Trim(Js, title), Trim(Js, topic), Trim(Js, description), time, |questions|, questions, Distinct(types)))
  }

  /** A blank title is refused whatever else the form holds, so a saved exam always has a non-blank title. */
  lemma SavedTitleNotBlank(title: string, topic: string, description: string, time: int, questions: seq<Question>)
    ensures var r := Submit(title, topic, description, time, questions);
      r.Success? ==> !IsBlank(Js, r.value.title) && r.value.count > 0
  {
    var r := Submit(title, topic, description, time, questions);
    if r.Success? {
      var t := Trim(Js, title);
      assert r.value.title == t && t != [];
      TrimShape(Js, title);
      TrimOfTrimmed(Js, t);
      TrimShape(Js, t);
    }
  }

  /** The points the rubric adds to an essay: the sum of its criteria's `max_points`. */
  function RubricPoints(rubric: seq<Criterion>): int
  {
    if rubric == [] then 0 else RubricPoints(rubric[..|rubric| - 1]) + rubric[|rubric| - 1].maxPoints
  }

  /** The points of a passage's sub-questions. */
  function SubPoints(subs: seq<SubQuestion>): int
  {
    if subs == [] then 0 else SubPoints(subs[..|subs| - 1]) + subs[|subs| - 1].points
  }

  /**
   * What one question adds to `totalPoints`: an essay its points and its
   * rubric's; a passage only its sub-questions' points (its own `points`
   * are not counted); any other question its points.
   */
  function Worth(q: Question): int
  {
    match q
    case EssayQ(_, points, _, _, rubric, _) => points + RubricPoints(rubric)
    case PassageQ(_, _, _, _, subs, _, _, _) => SubPoints(subs)
    case _ => q.points
  }

  /** `totalPoints`: the left-to-right sum of every question's worth. */
  function TotalPoints(questions: seq<Question>): int
  {
    if questions == [] then 0 else TotalPoints(questions[..|questions| - 1]) + Worth(questions[|questions| - 1])
  }

  /** The total of a concatenation is the sum of the totals. */
  lemma {:induction false} TotalPointsAppend(a: seq<Question>, b: seq<Question>)
    ensures TotalPoints(a + b) == TotalPoints(a) + TotalPoints(b)
    decreases |b|
  {
    if b == [] {
      assert a + b == a;
    } else {
      assert (a + b)[..|a + b| - 1] == a + b[..|b| - 1];
      TotalPointsAppend(a, b[..|b| - 1]);
    }
  }

  /**
   * Adding a question raises the total by the new question's worth: its
   * default points, except a new passage, which adds nothing until it has
   * sub-questions.
   */
  lemma AddRaisesTotal(tier: App.Tier, questions: seq<Question>, t: QuestionType, id: string)
    ensures var r := AddQuestion(tier, questions, t, id);
      r.Some? ==> TotalPoints(r.value) == TotalPoints(questions) + (if t == Passage then 0 else DefaultPoints(t))
  {
    var r := AddQuestion(tier, questions, t, id);
    if r.Some? {
      assert r.value[..|r.value| - 1] == questions;
    }
  }

  /** Removing takes exactly the worth of the removed questions off the total. */
  lemma {:induction false} RemoveLowersTotal(questions: seq<Question>, id: string)
    ensures TotalPoints(RemoveQuestion(questions, id)) == TotalPoints(questions) - WorthOf(questions, id)
    decreases |questions|
  {
    if questions != [] {
      var init := questions[..|questions| - 1];
      var last := questions[|questions| - 1];
      assert questions == init + [last];
      RemoveLowersTotal(init, id);
      RemoveAppend(init, last, id);
      TotalPointsAppend(RemoveQuestion(init, id), if last.id == id then [] else [last]);
      assert TotalPoints([last]) == Worth(last) by {
        assert [last][..0] == [];
      }
    }
  }

  /** The summed worth of the questions carrying `id`. */
  function WorthOf(questions: seq<Question>, id: string): int
  {
    if questions == [] then 0
    else
      var last := questions[|questions| - 1];
      WorthOf(questions[..|questions| - 1], id) + (if last.id == id then Worth(last) else 0)
  }
}
