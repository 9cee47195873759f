/**
 * The essay editor (components/EssayQuestionCreator.tsx): the question's
 * fields and its marking rubric, whose criteria add up to the rubric total.
 */
module Essay {
  import opened Wrappers
  import opened Text
  import CreateExam

  /** A field of an essay question the editor can set; the two numeric inputs keep their entry text. */
  datatype Field =
    | QuestionText(text: string)
    | MaxWordsEntry(entry: string)
    | PointsEntry(entry: string)
    | Rubric(rubric: seq<CreateExam.Criterion>)
    | AiGrading(enabled: bool)

  /**
   * `updateQuestion`: one field replaced, the others copied. The word limit
   * and the points are `parseInt(entry) || 0`.
   */
  function UpdateQuestion(q: CreateExam.Question, f: Field): (r: CreateExam.Question)
    requires q.EssayQ?
    ensures r.EssayQ? && r.id == q.id
    ensures r.text == (if f.QuestionText? then f.text else q.text)
    ensures r.maxWords == (if f.MaxWordsEntry? then NumberOr(f.entry, 0) else q.maxWords)
    ensures r.points == (if f.PointsEntry? then NumberOr(f.entry, 0) else q.points)
    ensures r.rubric == (if f.Rubric? then f.rubric else q.rubric)
    ensures r.aiGrading == (if f.AiGrading? then f.enabled else q.aiGrading)
  {
    match f
    case QuestionText(text) => CreateExam.EssayQ(q.id, q.points, text, q.maxWords, q.rubric, q.aiGrading)
    case MaxWordsEntry(entry) => CreateExam.EssayQ(q.id, q.points, q.text, NumberOr(entry, 0), q.rubric, q.aiGrading)
    case PointsEntry(entry) => CreateExam.EssayQ(q.id, NumberOr(entry, 0), q.text, q.maxWords, q.rubric, q.aiGrading)
    case Rubric(rubric) => CreateExam.EssayQ(q.id, q.points, q.text, q.maxWords, rubric, q.aiGrading)
    case AiGrading(enabled) => CreateExam.EssayQ(q.id, q.points, q.text, q.maxWords, q.rubric, enabled)
  }

  /** An entry that is not a number, or is zero, leaves the essay worth no base points. */
  lemma UnreadablePointsAreZero(q: CreateExam.Question, entry: string)
    requires q.EssayQ? && (ParseInt(entry).None? || ParseInt(entry) == Some(0))
    ensures UpdateQuestion(q, PointsEntry(entry)).points == 0
  {
  }

  /** The criterion `addRubricCriterion` appends: no name, no description, five points. */
  function NewCriterion(id: string): CreateExam.Criterion
  {
    CreateExam.Criterion(id, "", "", 5)
  }

  function AddRubricCriterion(q: CreateExam.Question, id: string): (r: CreateExam.Question)
    requires q.EssayQ?
    ensures r.EssayQ? && r.rubric == q.rubric + [NewCriterion(id)]
    ensures r.points == q.points && r.text == q.text
  {
    UpdateQuestion(q, Rubric(q.rubric + [NewCriterion(id)]))
  }

  /** A field of a rubric criterion. */
  datatype CriterionField = Name(name: string) | Description(description: string) | MaxPoints(points: int)

  function SetCriterionField(c: CreateExam.Criterion, f: CriterionField): (r: CreateExam.Criterion)
    ensures r.id == c.id
    ensures r.maxPoints == if f.MaxPoints? then f.points else c.maxPoints
  {
    match f
    case Name(name) => c.(name := name)
    case Description(description) => c.(description := description)
    case MaxPoints(points) => c.(maxPoints := points)
  }

  /** The rubric after `updateRubricCriterion`: the criteria carrying the id edited, the others as they were. */
  function UpdateCriteria(rubric: seq<CreateExam.Criterion>, id: string, f: CriterionField): (r: seq<CreateExam.Criterion>)
    ensures |r| == |rubric|
    ensures forall i :: 0 <= i < |r| ==> r[i] == if rubric[i].id == id then SetCriterionField(rubric[i], f) else rubric[i]
  {
    seq(|rubric|, i requires 0 <= i < |rubric| => if rubric[i].id == id then SetCriterionField(rubric[i], f) else rubric[i])
  }

  /**
   * The max-points input of criterion `id`: `parseInt(entry) || 0`, so an
   * entry that does not read as a number gives 0 points.
   */
  function EnterCriterionPoints(rubric: seq<CreateExam.Criterion>, id: string, entry: string): (r: seq<CreateExam.Criterion>)
    ensures |r| == |rubric|
    ensures forall i :: 0 <= i < |r| ==> r[i].id == rubric[i].id
    ensures forall i :: 0 <= i < |r| ==> r[i].maxPoints == if rubric[i].id == id then NumberOr(entry, 0) else rubric[i].maxPoints
    ensures ParseInt(entry).None? ==> forall i :: 0 <= i < |r| && rubric[i].id == id ==> r[i].maxPoints == 0
  {
    UpdateCriteria(rubric, id, MaxPoints(NumberOr(entry, 0)))
  }

  function UpdateRubricCriterion(q: CreateExam.Question, id: string, f: CriterionField): (r: CreateExam.Question)
    requires q.EssayQ?
    ensures r.EssayQ? && r.rubric == UpdateCriteria(q.rubric, id, f) && r.points == q.points
  {
    UpdateQuestion(q, Rubric(UpdateCriteria(q.rubric, id, f)))
  }

  /** The rubric after `removeRubricCriterion`: exactly the criteria with another id, in order. */
  function RemoveCriteria(rubric: seq<CreateExam.Criterion>, id: string): (r: seq<CreateExam.Criterion>)
    ensures |r| <= |rubric|
    ensures forall c :: c in r <==> c in rubric && c.id != id
    ensures |rubric| == 1 ==> r == if rubric[0].id == id then [] else rubric
  {
    if rubric == [] then []
    else
      var rest := RemoveCriteria(rubric[1..], id);
      if rubric[0].id == id then rest else [rubric[0]] + rest
  }

  /** Removal distributes over concatenation: each part loses its own criteria with the id, in place. */
  lemma {:induction false} RemoveCriteriaAppend(a: seq<CreateExam.Criterion>, b: seq<CreateExam.Criterion>, id: string)
    ensures RemoveCriteria(a + b, id) == RemoveCriteria(a, id) + RemoveCriteria(b, id)
  {
    if a == [] {
      assert a + b == b;
    } else {
      TailAppend(a, b);
      RemoveCriteriaAppend(a[1..], b, id);
      Associative(if a[0].id == id then [] else [a[0]], RemoveCriteria(a[1..], id), RemoveCriteria(b, id));
    }
  }

  function RemoveRubricCriterion(q: CreateExam.Question, id: string): (r: CreateExam.Question)
    requires q.EssayQ?
    ensures r.EssayQ? && r.rubric == RemoveCriteria(q.rubric, id) && r.points == q.points
  {
    UpdateQuestion(q, Rubric(RemoveCriteria(q.rubric, id)))
  }

  /** `totalPoints`: the rubric's criteria's `max_points` summed; the exam page adds it to the base points. */
  function TotalPoints(q: CreateExam.Question): (r: int)
    requires q.EssayQ?
    ensures CreateExam.Worth(q) == q.points + r
  {
    CreateExam.RubricPoints(q.rubric)
  }

  /** A new criterion adds its five points to the rubric total. */
  lemma AddRaisesTotal(q: CreateExam.Question, id: string)
    requires q.EssayQ?
    ensures TotalPoints(AddRubricCriterion(q, id)) == TotalPoints(q) + 5
  {
    var rubric := AddRubricCriterion(q, id).rubric;
    assert rubric[..|rubric| - 1] == q.rubric;
  }

  /** Renaming or redescribing criteria leaves the total as it was. */
  lemma {:induction false} TextEditsKeepTotal(rubric: seq<CreateExam.Criterion>, id: string, f: CriterionField)
    requires !f.MaxPoints?
    ensures CreateExam.RubricPoints(UpdateCriteria(rubric, id, f)) == CreateExam.RubricPoints(rubric)
  {
    if rubric != [] {
      var init := rubric[..|rubric| - 1];
      TextEditsKeepTotal(init, id, f);
      assert UpdateCriteria(rubric, id, f)[..|rubric| - 1] == UpdateCriteria(init, id, f);
    }
  }

  /** Setting one criterion's points moves the total by the difference, when the id is unique. */
  lemma {:induction false} PointsEditMovesTotal(rubric: seq<CreateExam.Criterion>, k: nat, points: int)
    requires k < |rubric| && forall i :: 0 <= i < |rubric| && i != k ==> rubric[i].id != rubric[k].id
    ensures CreateExam.RubricPoints(UpdateCriteria(rubric, rubric[k].id, MaxPoints(points)))
         == CreateExam.RubricPoints(rubric) - rubric[k].maxPoints + points
  {
    var id := rubric[k].id;
    var init := rubric[..|rubric| - 1];
    assert UpdateCriteria(rubric, id, MaxPoints(points))[..|rubric| - 1] == UpdateCriteria(init, id, MaxPoints(points));
    if k == |rubric| - 1 {
      UpdateCriteriaAbsent(init, id, points);
    } else {
      PointsEditMovesTotal(init, k, points);
    }
  }

  lemma {:induction false} UpdateCriteriaAbsent(rubric: seq<CreateExam.Criterion>, id: string, points: int)
    requires forall i :: 0 <= i < |rubric| ==> rubric[i].id != id
    ensures UpdateCriteria(rubric, id, MaxPoints(points)) == rubric
  {
  }

  /** Removing criteria with an id that no criterion carries changes nothing. */
  lemma {:induction false} RemoveAbsent(rubric: seq<CreateExam.Criterion>, id: string)
    requires forall i :: 0 <= i < |rubric| ==> rubric[i].id != id
    ensures RemoveCriteria(rubric, id) == rubric
  {
    if rubric != [] {
      RemoveAbsent(rubric[1..], id);
    }
  }
}
