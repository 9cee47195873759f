/**
 * The fill-in-the-blanks editor (components/ClozeQuestionCreator.tsx). Blanks
 * are bracket groups, the matches of JavaScript's `/\[(.*?)\]/g`: a `[`, the
 * shortest run of characters other than line breaks, and a `]`. The points
 * follow the number of groups; the preview splits the text around them.
 */
module Cloze {
  import opened Wrappers
  import opened Text
  import CreateExam

  /** The first `]` at or after `k` with no line break before it, if any. */
  function CloseFrom(s: string, k: nat): (r: Option<nat>)
    requires k <= |s|
    ensures r.Some? ==> k <= r.value < |s| && s[r.value] == ']'
    ensures r.Some? ==> forall m :: k <= m < r.value ==> s[m] != ']' && !IsJsLineTerminator(s[m])
    decreases |s| - k
  {
    if k == |s| || IsJsLineTerminator(s[k]) then None
    else if s[k] == ']' then Some(k)
    else CloseFrom(s, k + 1)
  }

  /** A whole bracket group: `[`, no `]` and no line break, then `]`. */
  predicate IsGroup(p: string)
  {
    |p| >= 2 && p[0] == '[' && p[|p| - 1] == ']' && forall m :: 1 <= m < |p| - 1 ==> p[m] != ']' && !IsJsLineTerminator(p[m])
  }

  /** The end (exclusive) of the bracket group that starts at `i`, if one does. */
  function GroupEnd(s: string, i: nat): (r: Option<nat>)
    requires i < |s|
    ensures r.Some? ==> i + 2 <= r.value <= |s| && IsGroup(s[i..r.value])
  {
    if s[i] != '[' then None
    else
      match CloseFrom(s, i + 1)
      case None => None
      case Some(j) =>
        GroupSlice(s, i, j);
        Some(j + 1)
  }

  lemma GroupSlice(s: string, i: nat, j: nat)
    requires i < j < |s| && s[i] == '[' && s[j] == ']'
    requires forall m :: i + 1 <= m < j ==> s[m] != ']' && !IsJsLineTerminator(s[m])
    ensures IsGroup(s[i..j + 1])
  {
    var p := s[i..j + 1];
    forall m | 1 <= m < |p| - 1 ensures p[m] != ']' && !IsJsLineTerminator(p[m]) {
      assert p[m] == s[i + m];
    }
  }

  /** The number of matches of the global bracket pattern in `s[i..]`, scanning left to right. */
  function GroupCount(s: string, i: nat): nat
    requires i <= |s|
    decreases |s| - i
  {
    if i == |s| then 0
    else
      match GroupEnd(s, i)
      case Some(e) => 1 + GroupCount(s, e)
      case None => GroupCount(s, i + 1)
  }

  /** `(value.match(/\[(.*?)\]/g) || []).length`. */
  function Blanks(s: string): nat
  {
    GroupCount(s, 0)
  }

  /**
   * `s.split(/(\[.*?\])/g)` scanned from `i`, with the pending text piece
   * starting at `from`: the texts between groups, each group captured
   * between them.
   */
  function SplitFrom(s: string, from: nat, i: nat): seq<string>
    requires from <= i <= |s|
    decreases |s| - i
  {
    if i == |s| then [s[from..]]
    else
      match GroupEnd(s, i)
      case Some(e) => [s[from..i], s[i..e]] + SplitFrom(s, e, e)
      case None => SplitFrom(s, from, i + 1)
  }

  function Parts(s: string): seq<string>
  {
    SplitFrom(s, 0, 0)
  }

  /** Texts and groups alternate: one more text than groups, and every odd piece is a group. */
  lemma {:induction false} SplitFromShape(s: string, from: nat, i: nat)
    requires from <= i <= |s|
    ensures |SplitFrom(s, from, i)| == 2 * GroupCount(s, i) + 1
    ensures forall k :: 0 <= k < |SplitFrom(s, from, i)| && k % 2 == 1 ==> IsGroup(SplitFrom(s, from, i)[k])
    decreases |s| - i
  {
    if i < |s| {
      match GroupEnd(s, i)
      case Some(e) =>
        SplitFromShape(s, e, e);
        var rest := SplitFrom(s, e, e);
        var p := [s[from..i], s[i..e]] + rest;
        forall k | 0 <= k < |p| && k % 2 == 1 ensures IsGroup(p[k]) {
          if k >= 2 {
            assert p[k] == rest[k - 2];
          }
        }
      case None =>
        SplitFromShape(s, from, i + 1);
    }
  }

  /** Putting the pieces back together gives the text. */
  lemma {:induction false} SplitFromConcat(s: string, from: nat, i: nat)
    requires from <= i <= |s|
    ensures Concat(SplitFrom(s, from, i)) == s[from..]
    decreases |s| - i
  {
    if i == |s| {
      assert Concat([s[from..]]) == s[from..] + Concat([]);
    } else {
      match GroupEnd(s, i)
      case Some(e) =>
        SplitFromConcat(s, e, e);
        var rest := SplitFrom(s, e, e);
        var p := [s[from..i], s[i..e]] + rest;
        assert p[1..] == [s[i..e]] + rest;
        assert p[1..][1..] == rest;
        assert s[from..] == s[from..i] + s[i..e] + s[e..];
      case None =>
        SplitFromConcat(s, from, i + 1);
    }
  }

  /** The preview's split reproduces the text, and holds one group per blank between the texts. */
  lemma PartsReassemble(s: string)
    ensures Concat(Parts(s)) == s
    ensures |Parts(s)| == 2 * Blanks(s) + 1
    ensures forall k :: 0 <= k < |Parts(s)| && k % 2 == 1 ==> IsGroup(Parts(s)[k])
  {
    SplitFromConcat(s, 0, 0);
    SplitFromShape(s, 0, 0);
  }

  /** A field of a cloze question the editor can set. */
  datatype Field = QuestionText(text: string) | Points(points: int) | Id(id: string)

  /**
   * `updateQuestion`: a new text also sets the points to the number of
   * blanks, at least 1; any other field is copied in alone.
   */
  function UpdateQuestion(q: CreateExam.Question, f: Field): (r: CreateExam.Question)
    requires q.ClozeQ?
    ensures r.ClozeQ?
    ensures f.QuestionText? ==> r == CreateExam.ClozeQ(q.id, if Blanks(f.text) > 1 then Blanks(f.text) else 1, f.text)
    ensures f.Points? ==> r == CreateExam.ClozeQ(q.id, f.points, q.text)
    ensures f.Id? ==> r == CreateExam.ClozeQ(f.id, q.points, q.text)
  {
    match f
    case QuestionText(text) =>
      var blanks := Blanks(text);
      CreateExam.ClozeQ(q.id, if 1 > blanks then 1 else blanks, text)
    case Points(points) => CreateExam.ClozeQ(q.id, points, q.text)
    case Id(id) => CreateExam.ClozeQ(id, q.points, q.text)
  }

  /** After a text edit a cloze question is worth one point per blank, and never less than one. */
  lemma TextEditScoresBlanks(q: CreateExam.Question, text: string)
    requires q.ClozeQ?
    ensures var r := UpdateQuestion(q, QuestionText(text));
      && r.points >= 1 && r.points >= Blanks(text)
      && (Blanks(text) > 0 ==> r.points == Blanks(text))
      && r.text == text && r.id == q.id
  {
  }

  /** Editing anything but the text keeps the points. */
  lemma OtherEditsKeepPoints(q: CreateExam.Question, f: Field)
    requires q.ClozeQ? && !f.QuestionText? && !f.Points?
    ensures UpdateQuestion(q, f).points == q.points && UpdateQuestion(q, f).text == q.text
  {
  }

  /** What the preview draws for one piece: text, or a disabled input showing the blank's answer as placeholder. */
  datatype Segment = Plain(text: string) | Blank(placeholder: string)

  function BlankSegments(segs: seq<Segment>): nat
  {
    if segs == [] then 0 else (if segs[0].Blank? then 1 else 0) + BlankSegments(segs[1..])
  }

  /** The segment `renderPreview` draws for one piece: a blank for any piece starting with `[` and ending with `]`. */
  function SegmentOf(p: string): Segment
  {
    if StartsWith(p, "[") && EndsWith(p, "]") && |p| >= 2 then Blank(p[1..|p| - 1]) else Plain(p)
  }

  function SegmentsAsWritten(parts: seq<string>): (r: seq<Segment>)
    ensures |r| == |parts|
  {
    if parts == [] then [] else [SegmentOf(parts[0])] + SegmentsAsWritten(parts[1..])
  }

  /** `renderPreview` as written: nothing for an empty text, else one segment per piece, chosen by its brackets alone. */
  function PreviewAsWritten(s: string): (r: Option<seq<Segment>>)
    ensures r.None? <==> s == ""
    ensures r.Some? ==> |r.value| == |Parts(s)|
  {
    if s == "" then None else Some(SegmentsAsWritten(Parts(s)))
  }

  /**
   * A bracket pair around a line break is not a blank (`.` stops at line
   * breaks), so it earns no point, yet the preview as written draws it as
   * one.
   */
  lemma PreviewShowsUnscoredBlank()
    ensures Blanks("[\n]") == 0
    ensures PreviewAsWritten("[\n]") == Some([Blank("\n")])
  {
    var s := "[\n]";
    assert GroupEnd(s, 0).None? by {
      assert CloseFrom(s, 1).None?;
    }
    assert GroupEnd(s, 1).None? && GroupEnd(s, 2).None?;
    assert GroupCount(s, 0) == GroupCount(s, 1) == GroupCount(s, 2) == GroupCount(s, 3) == 0;
    assert Parts(s) == [s] by {
      assert SplitFrom(s, 0, 0) == SplitFrom(s, 0, 1) == SplitFrom(s, 0, 2) == SplitFrom(s, 0, 3);
    }
    assert StartsWith(s, "[") && EndsWith(s, "]") by {
      assert s[..1] == "[" && s[|s| - 1..] == "]";
    }
    assert s[1..|s| - 1] == "\n";
    assert SegmentsAsWritten([s]) == [SegmentOf(s)];
  }

  /**
   * The pieces from position `odd`-parity on, classified by their place in
   * the split: only captured groups (odd places) can become blanks.
   */
  function Classify(parts: seq<string>, odd: bool): (r: seq<Segment>)
    ensures |r| == |parts|
  {
    if parts == [] then []
    else [if odd then SegmentOf(parts[0]) else Plain(parts[0])] + Classify(parts[1..], !odd)
  }

  /** `renderPreview` with blanks only where the bracket pattern matched. */
  function Preview(s: string): Option<seq<Segment>>
  {
    if s == "" then None else Some(Classify(Parts(s), false))
  }

  /** Where the pieces at odd places are groups, each of them becomes a blank and nothing else does. */
  lemma {:induction false} ClassifyBlanks(parts: seq<string>, odd: bool)
    requires forall k :: 0 <= k < |parts| && (k % 2 == 1) != odd ==> IsGroup(parts[k])
    ensures BlankSegments(Classify(parts, odd)) == (|parts| + (if odd then 1 else 0)) / 2
  {
    if parts != [] {
      forall k | 0 <= k < |parts[1..]| && (k % 2 == 1) != !odd ensures IsGroup(parts[1..][k]) {
        assert parts[1..][k] == parts[k + 1];
      }
      ClassifyBlanks(parts[1..], !odd);
      if odd {
        assert IsGroup(parts[0]);
        assert StartsWith(parts[0], "[") && EndsWith(parts[0], "]") by {
          assert parts[0][..1] == [parts[0][0]];
          assert parts[0][|parts[0]| - 1..] == [parts[0][|parts[0]| - 1]];
        }
      }
    }
  }

  /** At the groups' places the corrected preview draws what the one as written draws; elsewhere plain text. */
  lemma {:induction false} ClassifyAt(parts: seq<string>, odd: bool, k: nat)
    requires k < |parts|
    ensures Classify(parts, odd)[k] == if (k % 2 == 1) != odd then SegmentOf(parts[k]) else Plain(parts[k])
    ensures SegmentsAsWritten(parts)[k] == SegmentOf(parts[k])
  {
    if k > 0 {
      ClassifyAt(parts[1..], !odd, k - 1);
      assert parts[1..][k - 1] == parts[k];
    }
  }

  /** The corrected preview shows exactly one blank input per scored blank, and keeps the drawing as written at every group. */
  lemma PreviewBlanksScored(s: string)
    requires s != ""
    ensures BlankSegments(Preview(s).value) == Blanks(s)
    ensures forall k :: 0 <= k < |Parts(s)| && k % 2 == 1 ==> Preview(s).value[k] == PreviewAsWritten(s).value[k]
    ensures forall k :: 0 <= k < |Parts(s)| && k % 2 == 0 ==> Preview(s).value[k] == Plain(Parts(s)[k])
  {
    PartsReassemble(s);
    ClassifyBlanks(Parts(s), false);
    forall k | 0 <= k < |Parts(s)| ensures Preview(s).value[k] == if k % 2 == 1 then PreviewAsWritten(s).value[k] else Plain(Parts(s)[k]) {
      ClassifyAt(Parts(s), false, k);
    }
  }
}
