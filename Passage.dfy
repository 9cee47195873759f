/**
 * The reading-passage editor (components/PassageQuestionCreator.tsx): the
 * passage text with its word count, the sub-questions asked about it, the
 * estimated reading time and the passage's total points.
 */
module Passage {
  import opened Wrappers
  import opened Text
  import CreateExam

  /**
   * `value.trim().split(/\s+/).length`. For a text with a non-space
   * character the pieces are its words; a blank text trims to `""`, whose
   * split is `[""]`, so it counts as one word.
   */
  function WordCount(text: string): (n: nat)
  {
    if Trim(Js, text) == "" then 1 else |Words(Js, text)|
  }

  /** Every text counts at least one word, and a text's words are exactly its non-space characters cut at the spaces. */
  lemma WordCountMeaning(text: string)
    ensures WordCount(text) >= 1
    ensures IsBlank(Js, text) ==> WordCount(text) == 1
    ensures !IsBlank(Js, text) ==> WordCount(text) == |Words(Js, text)| && Concat(Words(Js, text)) == NonSpace(Js, text)
  {
    TrimShape(Js, text);
    WordsEmptyIffBlank(Js, text);
    WordsConcat(Js, text);
  }

  /** A field of a passage question the editor can set. */
  datatype Field =
    | PassageText(text: string)
    | PassageTitle(title: string)
    | Questions(subs: seq<CreateExam.SubQuestion>)
    | Level(difficulty: CreateExam.Difficulty)
    | ReadingLimit(limit: Option<int>)

  /**
   * The reading-limit input: `parseInt(entry) || undefined`, so an entry
   * that does not read as a number, or reads as 0, removes the limit.
   */
  function LimitOfEntry(entry: string): (r: Option<int>)
    ensures r.None? <==> ParseInt(entry).None? || ParseInt(entry).value == 0
    ensures r.Some? ==> r == ParseInt(entry) && r.value != 0
  {
    match ParseInt(entry)
    case Some(v) => if v != 0 then Some(v) else None
    case None => None
  }

  /** The passage question with one field replaced. */
  function SetField(q: CreateExam.Question, f: Field): (r: CreateExam.Question)
    requires q.PassageQ?
    ensures r.PassageQ?
  {
    match f
    case PassageText(text) => CreateExam.PassageQ(q.id, q.points, text, q.passageTitle, q.subQuestions, q.wordCount, q.difficulty, q.readingLimit)
    case PassageTitle(title) => CreateExam.PassageQ(q.id, q.points, q.passageText, title, q.subQuestions, q.wordCount, q.difficulty, q.readingLimit)
    case Questions(subs) => CreateExam.PassageQ(q.id, q.points, q.passageText, q.passageTitle, subs, q.wordCount, q.difficulty, q.readingLimit)
    case Level(difficulty) => CreateExam.PassageQ(q.id, q.points, q.passageText, q.passageTitle, q.subQuestions, q.wordCount, difficulty, q.readingLimit)
    case ReadingLimit(limit) => CreateExam.PassageQ(q.id, q.points, q.passageText, q.passageTitle, q.subQuestions, q.wordCount, q.difficulty, limit)
  }

  /** `updateQuestion`: the field is copied in, and a new passage text also recounts the words. */
  function UpdateQuestion(q: CreateExam.Question, f: Field): (r: CreateExam.Question)
    requires q.PassageQ?
    ensures r.PassageQ? && r.id == q.id && r.points == q.points
    ensures f.PassageText? ==> r.passageText == f.text && r.wordCount == WordCount(f.text)
    ensures !f.PassageText? ==> r.wordCount == q.wordCount && r.passageText == q.passageText
    ensures f.Questions? ==> r.subQuestions == f.subs
    ensures !f.Questions? ==> r.subQuestions == q.subQuestions
    ensures f.ReadingLimit? ==> r.readingLimit == f.limit
    ensures !f.ReadingLimit? ==> r.readingLimit == q.readingLimit
  {
    var r := SetField(q, f);
    if f.PassageText? then
      CreateExam.PassageQ(r.id, r.points, r.passageText, r.passageTitle, r.subQuestions, WordCount(f.text), r.difficulty, r.readingLimit)
    else r
  }

  /** The sub-question `addSubQuestion` appends: multiple choice, four empty options, answer 0, one point. */
  function NewSubQuestion(id: string): CreateExam.SubQuestion
  {
    CreateExam.SubQuestion(id, "", CreateExam.SubMultipleChoice, ["", "", "", ""], CreateExam.AnswerIndex(0), 1)
  }

  /** `addSubQuestion`: one new sub-question after the existing ones. */
  function AddSubQuestion(q: CreateExam.Question, id: string): (r: CreateExam.Question)
    requires q.PassageQ?
    ensures r.PassageQ? && r.subQuestions == q.subQuestions + [NewSubQuestion(id)]
    ensures r.passageText == q.passageText && r.wordCount == q.wordCount
  {
    UpdateQuestion(q, Questions(q.subQuestions + [NewSubQuestion(id)]))
  }

  /** A field of a sub-question. */
  datatype SubField =
    | SubText(text: string)
    | Kind(kind: CreateExam.SubKind)
    | Options(options: seq<string>)
    | Correct(answer: CreateExam.Answer)
    | PointsEntry(entry: string)

  /** `{ ...q, [field]: value }` for a sub-question; the points input keeps `parseInt(entry) || 1`. */
  function SetSubField(s: CreateExam.SubQuestion, f: SubField): (r: CreateExam.SubQuestion)
    ensures r.id == s.id
    ensures f.PointsEntry? ==> r.points == NumberOr(f.entry, 1)
    ensures !f.PointsEntry? ==> r.points == s.points
  {
    match f
    case SubText(text) => s.(text := text)
    case Kind(kind) => s.(kind := kind)
    case Options(options) => s.(options := options)
    case Correct(answer) => s.(correct := answer)
    case PointsEntry(entry) => s.(points := NumberOr(entry, 1))
  }

  /** The sub-questions after `updateSubQuestion`: those carrying the id edited, the others as they were. */
  function UpdateSubs(subs: seq<CreateExam.SubQuestion>, id: string, f: SubField): (r: seq<CreateExam.SubQuestion>)
    ensures |r| == |subs|
    ensures forall i :: 0 <= i < |r| ==> r[i] == if subs[i].id == id then SetSubField(subs[i], f) else subs[i]
  {
    seq(|subs|, i requires 0 <= i < |subs| => if subs[i].id == id then SetSubField(subs[i], f) else subs[i])
  }

  function UpdateSubQuestion(q: CreateExam.Question, id: string, f: SubField): (r: CreateExam.Question)
    requires q.PassageQ?
    ensures r.PassageQ? && r.subQuestions == UpdateSubs(q.subQuestions, id, f)
  {
    UpdateQuestion(q, Questions(UpdateSubs(q.subQuestions, id, f)))
  }

  /** The sub-questions after `removeSubQuestion`: those whose id differs, in order. */
  function RemoveSubs(subs: seq<CreateExam.SubQuestion>, id: string): (r: seq<CreateExam.SubQuestion>)
    ensures |r| <= |subs|
    ensures forall s :: s in r <==> s in subs && s.id != id
    ensures |subs| == 1 ==> r == if subs[0].id == id then [] else subs
  {
    if subs == [] then []
    else
      var rest := RemoveSubs(subs[1..], id);
      if subs[0].id == id then rest else [subs[0]] + rest
  }

  /** Removal distributes over concatenation: each part loses its own sub-questions with the id, in place. */
  lemma {:induction false} RemoveSubsAppend(a: seq<CreateExam.SubQuestion>, b: seq<CreateExam.SubQuestion>, id: string)
    ensures RemoveSubs(a + b, id) == RemoveSubs(a, id) + RemoveSubs(b, id)
  {
    if a == [] {
      assert a + b == b;
    } else {
      TailAppend(a, b);
      RemoveSubsAppend(a[1..], b, id);
      Associative(if a[0].id == id then [] else [a[0]], RemoveSubs(a[1..], id), RemoveSubs(b, id));
    }
  }

  function RemoveSubQuestion(q: CreateExam.Question, id: string): (r: CreateExam.Question)
    requires q.PassageQ?
    ensures r.PassageQ? && r.subQuestions == RemoveSubs(q.subQuestions, id)
  {
    UpdateQuestion(q, Questions(RemoveSubs(q.subQuestions, id)))
  }

  /** `getTotalPoints`: the sum of the sub-questions' points, the figure the exam page also counts for a passage. */
  function TotalPoints(q: CreateExam.Question): (r: int)
    requires q.PassageQ?
    ensures r == CreateExam.Worth(q)
  {
    CreateExam.SubPoints(q.subQuestions)
  }

  /** A sub-question added with its one point raises the total by one. */
  lemma AddSubRaisesTotal(q: CreateExam.Question, id: string)
    requires q.PassageQ?
    ensures TotalPoints(AddSubQuestion(q, id)) == TotalPoints(q) + 1
  {
    var subs := AddSubQuestion(q, id).subQuestions;
    assert subs[..|subs| - 1] == q.subQuestions;
  }

  /** Editing anything but the points of a sub-question leaves the total as it was. */
  lemma {:induction false} UpdateKeepsPoints(subs: seq<CreateExam.SubQuestion>, id: string, f: SubField)
    requires !f.PointsEntry?
    ensures CreateExam.SubPoints(UpdateSubs(subs, id, f)) == CreateExam.SubPoints(subs)
  {
    if subs != [] {
      var init := subs[..|subs| - 1];
      UpdateKeepsPoints(init, id, f);
      assert UpdateSubs(subs, id, f)[..|subs| - 1] == UpdateSubs(init, id, f);
    }
  }

  /** Removing an id no sub-question carries changes nothing; removing twice is removing once. */
  lemma {:induction false} RemoveSubsAbsent(subs: seq<CreateExam.SubQuestion>, id: string)
    requires forall i :: 0 <= i < |subs| ==> subs[i].id != id
    ensures RemoveSubs(subs, id) == subs
  {
    if subs != [] {
      RemoveSubsAbsent(subs[1..], id);
    }
  }

  lemma RemoveSubsIdempotent(subs: seq<CreateExam.SubQuestion>, id: string)
    ensures RemoveSubs(RemoveSubs(subs, id), id) == RemoveSubs(subs, id)
  {
    var r := RemoveSubs(subs, id);
    forall i | 0 <= i < |r| ensures r[i].id != id {
      assert r[i] in r;
    }
    RemoveSubsAbsent(r, id);
  }

  /** `getEstimatedReadingTime`: `Math.ceil(word_count / 225)` minutes, at 225 words a minute. */
  function ReadingTime(wordCount: int): (m: int)
    ensures 225 * (m - 1) < wordCount <= 225 * m
  {
    (wordCount + 224) / 225
  }

  /** A passage with a word has an estimate of at least one minute, and more words never shorten it. */
  lemma ReadingTimeMonotone(a: int, b: int)
    requires a <= b
    ensures ReadingTime(a) <= ReadingTime(b)
    ensures a >= 1 ==> ReadingTime(a) >= 1
  {
  }

  /** Ticking "Set reading time limit" sets the limit to the estimate plus two minutes; unticking removes it. */
  function ToggleReadingLimit(q: CreateExam.Question, checked: bool): (r: CreateExam.Question)
    requires q.PassageQ?
    ensures r.PassageQ? && r.subQuestions == q.subQuestions && r.wordCount == q.wordCount
    ensures checked ==> r.readingLimit == Some(ReadingTime(q.wordCount) + 2)
    ensures !checked ==> r.readingLimit.None?
  {
    UpdateQuestion(q, ReadingLimit(if checked then Some(ReadingTime(q.wordCount) + 2) else None))
  }

  /** Once the passage text is set, the limit offered covers the reading time with two minutes to spare, never less than three. */
  lemma LimitAfterText(q: CreateExam.Question, text: string)
    requires q.PassageQ?
    ensures var r := ToggleReadingLimit(UpdateQuestion(q, PassageText(text)), true);
      && r.readingLimit.Some? && r.readingLimit.value >= 3
      && 225 * (r.readingLimit.value - 3) < WordCount(text)
  {
    WordCountMeaning(text);
  }
}
