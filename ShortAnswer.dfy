/**
 * The short-answer editor (components/ShortAnswerQuestionCreator.tsx): the
 * list of accepted answers, the pending answer being typed, and the numeric
 * settings.
 */
module ShortAnswer {
  import opened Wrappers
  import opened Text
  import CreateExam

  /**
   * `addCorrectAnswer`: a pending answer with a non-space character is
   * appended trimmed and the input cleared; a blank one changes nothing.
   * Returns the answers and the new input.
   */
  function AddCorrectAnswer(answers: seq<string>, pending: string): (r: (seq<string>, string))
    ensures Trim(Js, pending) != "" ==> r == (answers + [Trim(Js, pending)], "")
    ensures Trim(Js, pending) == "" ==> r == (answers, pending)
  {
    var answer := Trim(Js, pending);
    if answer != "" then (answers + [answer], "") else (answers, pending)
  }

  /** Every answer added this way has no surrounding whitespace and is not blank, so adding it again would add the same text. */
  lemma AddedAnswerIsClean(answers: seq<string>, pending: string)
    requires !IsBlank(Js, pending)
    ensures var r := AddCorrectAnswer(answers, pending);
      && |r.0| == |answers| + 1 && r.1 == ""
      && !IsBlank(Js, r.0[|answers|])
      && Trim(Js, r.0[|answers|]) == r.0[|answers|]
  {
    TrimShape(Js, pending);
    var t := Trim(Js, pending);
    TrimOfTrimmed(Js, t);
    TrimShape(Js, t);
  }

  /** `removeCorrectAnswer`: every answer but the one at `index`, in order. */
  function RemoveCorrectAnswer(answers: seq<string>, index: int): (r: seq<string>)
    ensures 0 <= index < |answers| ==> r == answers[..index] + answers[index + 1..]
    ensures !(0 <= index < |answers|) ==> r == answers
  {
    if 0 <= index < |answers| then answers[..index] + answers[index + 1..] else answers
  }

  /**
   * `updateCorrectAnswer`: the answers are copied into a fresh array, the
   * copy's cell `index` is overwritten, and the copy becomes the new list.
   * The editor only calls it with the index of an answer it shows.
   */
  method UpdateCorrectAnswer(answers: seq<string>, index: nat, value: string) returns (r: seq<string>)
    requires index < |answers|
    ensures r == answers[index := value]
  {
    var copy := new string[|answers|](i requires 0 <= i < |answers| => answers[i]);
    copy[index] := value;
    r := copy[..];
  }

  /** Removing an answer forgets any edit made to it: the other answers are those of the original list. */
  lemma RemoveForgetsUpdate(answers: seq<string>, index: nat, value: string)
    requires index < |answers|
    ensures RemoveCorrectAnswer(answers[index := value], index) == RemoveCorrectAnswer(answers, index)
  {
    var updated := answers[index := value];
    assert updated[..index] == answers[..index];
    assert updated[index + 1..] == answers[index + 1..];
  }

  /** Removing the answer just added gives back the answers as they were. */
  lemma AddRemoveRoundTrip(answers: seq<string>, pending: string)
    requires !IsBlank(Js, pending)
    ensures RemoveCorrectAnswer(AddCorrectAnswer(answers, pending).0, |answers|) == answers
  {
    TrimShape(Js, pending);
    var added := answers + [Trim(Js, pending)];
    assert added[..|answers|] == answers;
    assert added[|answers| + 1..] == [];
  }

  /** Removing shortens the list by one and keeps the neighbours' order. */
  lemma RemoveShifts(answers: seq<string>, index: nat)
    requires index < |answers|
    ensures var r := RemoveCorrectAnswer(answers, index);
      && |r| == |answers| - 1
      && (forall i :: 0 <= i < index ==> r[i] == answers[i])
      && (forall i :: index <= i < |r| ==> r[i] == answers[i + 1])
  {
  }

  /** A field of a short-answer question; the numeric inputs keep their entry text. */
  datatype Field =
    | QuestionText(text: string)
    | Answers(answers: seq<string>)
    | PointsEntry(entry: string)
    | CaseSensitive(on: bool)
    | ExactMatch(on: bool)
    | MaxLengthEntry(entry: string)

  /** `updateQuestion`: one field replaced; points default to 1 and the length limit to 100 when the entry is not a non-zero number. */
  function UpdateQuestion(q: CreateExam.Question, f: Field): (r: CreateExam.Question)
    requires q.ShortAnswerQ?
    ensures r.ShortAnswerQ? && r.id == q.id
    ensures r.text == (if f.QuestionText? then f.text else q.text)
    ensures r.answers == (if f.Answers? then f.answers else q.answers)
    ensures r.points == (if f.PointsEntry? then NumberOr(f.entry, 1) else q.points)
    ensures r.maxLength == (if f.MaxLengthEntry? then NumberOr(f.entry, 100) else q.maxLength)
    ensures r.caseSensitive == (if f.CaseSensitive? then f.on else q.caseSensitive)
    ensures r.exactMatch == (if f.ExactMatch? then f.on else q.exactMatch)
  {
    match f
    case QuestionText(text) => CreateExam.ShortAnswerQ(q.id, q.points, text, q.answers, q.caseSensitive, q.exactMatch, q.maxLength)
    case Answers(answers) => CreateExam.ShortAnswerQ(q.id, q.points, q.text, answers, q.caseSensitive, q.exactMatch, q.maxLength)
    case PointsEntry(entry) => CreateExam.ShortAnswerQ(q.id, NumberOr(entry, 1), q.text, q.answers, q.caseSensitive, q.exactMatch, q.maxLength)
    case CaseSensitive(on) => CreateExam.ShortAnswerQ(q.id, q.points, q.text, q.answers, on, q.exactMatch, q.maxLength)
    case ExactMatch(on) => CreateExam.ShortAnswerQ(q.id, q.points, q.text, q.answers, q.caseSensitive, on, q.maxLength)
    case MaxLengthEntry(entry) => CreateExam.ShortAnswerQ(q.id, q.points, q.text, q.answers, q.caseSensitive, q.exactMatch, NumberOr(entry, 100))
  }

  /** Neither numeric setting can be set to zero from its input: an empty, unreadable or zero entry falls back to the default. */
  lemma NumericEntriesNeverZero(q: CreateExam.Question, entry: string)
    requires q.ShortAnswerQ?
    ensures UpdateQuestion(q, PointsEntry(entry)).points != 0
    ensures UpdateQuestion(q, MaxLengthEntry(entry)).maxLength != 0
    ensures ParseInt(entry).None? ==> UpdateQuestion(q, PointsEntry(entry)).points == 1
    ensures ParseInt(entry).None? ==> UpdateQuestion(q, MaxLengthEntry(entry)).maxLength == 100
  {
  }
}
